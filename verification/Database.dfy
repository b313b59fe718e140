/**
 The transactions of internal/db, statement by statement on the tables they update. Each one leaves exactly the
 tables that its transition says, and keeps them sound.
*/
module Databases {
  import opened Wrappers
  import opened Manifests
  import opened Schema
  import opened Transitions
  import opened Consistency
  import opened JobsStaySound
  import opened RowsStaySound
  import opened QueriesStaySound
  import opened SoundRuns
  import opened StorageQuota
  import Protocol
  import Numbering
  import Totals

  // ---------- a unique key finds one row

  lemma {:induction false} OneFound(t: Tables, id: Id)
    requires Sound(t)
    ensures id in t.jobs ==>
              && FindJob(t.jobs, t.jobs[id].tenant, t.jobs[id].kind, t.jobs[id].key) == Some(id)
              && FindJobFor(t.jobs, t.jobs[id].kind.AppPublish?, t.jobs[id].target) == Some(id)
  {
    hide Sound;
    KeysUnique(t);
    OneJob(t);
    if id in t.jobs {
      FoundKey(t.jobs, id);
      var job := t.jobs[id];
      assert JobFor(t.jobs, id, job.kind.AppPublish?, job.target);
      var found := FindJobFor(t.jobs, job.kind.AppPublish?, job.target).value;
      assert SameTarget(t.jobs[found], t.jobs[id]);
    }
  }

  lemma {:induction false} OneDataset(datasets: map<Id, Dataset>, id: Id)
    requires DatasetRows(datasets) && id in datasets
    ensures FindDataset(datasets, datasets[id].tenant, datasets[id].slug) == Some(id)
  {
    assert NamedDataset(datasets, id, datasets[id].tenant, datasets[id].slug);
    var found := FindDataset(datasets, datasets[id].tenant, datasets[id].slug).value;
    assert SameDataset(datasets[found], datasets[id]);
  }

  lemma {:induction false} OneApp(apps: map<Id, App>, deployments: map<Id, Deployment>, id: Id)
    requires AppRows(apps, deployments) && id in apps
    ensures FindApp(apps, apps[id].tenant, apps[id].slug) == Some(id)
  {
    assert NamedApp(apps, id, apps[id].tenant, apps[id].slug);
    var found := FindApp(apps, apps[id].tenant, apps[id].slug).value;
    assert SameApp(apps[found], apps[id]);
  }

  lemma {:induction false} OneQuery(queries: map<Id, Query>, revisions: map<Id, Revision>, id: Id)
    requires QueryRows(queries, revisions) && id in queries
    ensures FindQuery(queries, queries[id].tenant, queries[id].slug) == Some(id)
  {
    assert NamedQuery(queries, id, queries[id].tenant, queries[id].slug);
    var found := FindQuery(queries, queries[id].tenant, queries[id].slug).value;
    assert SameQuery(queries[found], queries[id]);
  }

  lemma {:induction false} OneConnector(connectors: map<Id, Connector>, datasets: map<Id, Dataset>, id: Id)
    requires ConnectorRows(connectors, datasets) && id in connectors
    ensures FindConnector(connectors, connectors[id].tenant, connectors[id].slug) == Some(id)
  {
    assert NamedConnector(connectors, id, connectors[id].tenant, connectors[id].slug);
    var found := FindConnector(connectors, connectors[id].tenant, connectors[id].slug).value;
    assert SameConnector(connectors[found], connectors[id]);
  }

  lemma {:induction false} SoundTables(t: Tables)
    requires Sound(t)
    ensures DatasetRows(t.datasets) && AppRows(t.apps, t.deployments) && ConnectorRows(t.connectors, t.datasets)
    ensures QueryRows(t.queries, t.revisions)
  {
    hide Bounded, JobsSound, RunRows, DatasetRows, ConnectorRows, AppRows, DeploymentRows, QueryRows, RevisionRows,
         GrantsSound;
  }

  /** What UPDATE jobs SET status = 'queued' WHERE the target is the given row and status = 'awaiting_upload' leaves. */
  function QueuedJobs(t: Tables, tenant: Id, publish: bool, target: Id): map<Id, Job>
  {
    map id | id in t.jobs ::
      if t.jobs[id].tenant == tenant && JobFor(t.jobs, id, publish, target) && t.jobs[id].status.AwaitingUpload?
      then t.jobs[id].(status := Queued, availableAt := t.now) else t.jobs[id]
  }

  /** The two updates of an upload's completion reach exactly the row and its one job. */
  lemma {:induction false} QueuedRow(t: Tables, tenant: Id, publish: bool, target: Id)
    requires Sound(t)
    requires if publish then target in t.deployments && t.deployments[target].status.AwaitingUpload? && t.deployments[target].tenant == tenant
             else target in t.runs && t.runs[target].status.AwaitingUpload? && t.runs[target].tenant == tenant
    ensures Queue(t, publish, target) ==
            t.(jobs := QueuedJobs(t, tenant, publish, target),
               runs := if publish then t.runs else t.runs[target := t.runs[target].(status := Queued)],
               deployments := if publish then t.deployments[target := t.deployments[target].(status := Queued)] else t.deployments)
  {
    hide Sound, FindJobFor;
    RowsHaveJobs(t, publish, target);
    FoundJobFor(t.jobs, publish, target);
    var found := FindJobFor(t.jobs, publish, target).value;
    RowFacts(t, found);
    forall id | id in t.jobs && JobFor(t.jobs, id, publish, target) ensures id == found { OneFound(t, id); }
    assert QueuedJobs(t, tenant, publish, target) == t.jobs[found := t.jobs[found].(status := Queued, availableAt := t.now)];
  }

  lemma {:induction false} RowsHaveJobs(t: Tables, publish: bool, target: Id)
    requires Sound(t) && (if publish then target in t.deployments else target in t.runs)
    ensures HasJob(t.jobs, publish, target)
  {
    hide Bounded, RunRows, DatasetRows, ConnectorRows, AppsSound, QueriesSound, GrantsSound, JobRows, OneJobEach,
         UniqueKeys;
  }

  /** The row the job works on is there, in the job's tenant. */
  predicate Reaches(runs: map<Id, SyncRun>, deployments: map<Id, Deployment>, job: Job)
  {
    if job.kind.AppPublish? then job.target in deployments && deployments[job.target].tenant == job.tenant
    else job.target in runs && runs[job.target].tenant == job.tenant
  }

  lemma {:induction false} ReachesTarget(t: Tables, id: Id)
    requires Sound(t) && id in t.jobs
    ensures forall job: Job :: SameJob(job, t.jobs[id]) ==> Reaches(t.runs, t.deployments, job)
  {
    hide Sound;
    RowFacts(t, id);
  }

  lemma {:induction false} CancelCases(t: Tables, tenant: Id, id: Id)
    ensures var r := Transitions.CancelJob(t, tenant, id);
            if id !in t.jobs || t.jobs[id].tenant != tenant then r == (t, Err(NoRows))
            else
              var job := t.jobs[id];
              if job.status.AwaitingUpload? || job.status.Queued? then
                var done := job.(status := Cancelled, cancelRequested := true);
                r == (t.(jobs := t.jobs[id := done], runs := WithRunStatus(t.runs, done), deployments := WithDeploymentStatus(t.deployments, done)), Ok(()))
              else if job.status.Running? then r == (t.(jobs := t.jobs[id := job.(cancelRequested := true)]), Ok(()))
              else r == (t, Err(Conflict))
  {
    hide WithRunStatus, WithDeploymentStatus;
  }

  /** An upload under a key of its own. */
  lemma {:induction false} UploadCases(t: Tables, tenant: Id, slug: string, format: Format, bytes: int, key: Key)
    requires Sound(t)
    ensures var r := Transitions.CreateDatasetUpload(t, tenant, slug, format, bytes, key);
            match FindJob(t.jobs, tenant, DatasetImport, key)
            case Some(id) =>
              && KeyedJob(t.jobs, id, tenant, DatasetImport, key)
              && t.jobs[id].target in t.runs && t.runs[t.jobs[id].target].dataset in t.datasets
              && var run := t.runs[t.jobs[id].target];
              r == if t.datasets[run.dataset].slug != slug || run.format != format || run.bytes != bytes then (t, Err(Conflict))
                   else (t, Ok(Upload(run.dataset, t.jobs[id].target, id)))
            case None =>
              if !QuotaAllows(t, tenant, bytes, None) then r == (t, Err(QuotaExceeded))
              else
                var known := FindDataset(t.datasets, tenant, slug);
                var dataset := if known.Some? then known.value else t.nextId;
                r == (t.(datasets := if known.Some? then t.datasets else t.datasets[dataset := Dataset(tenant, slug, None)],
                         runs := t.runs[t.nextId + 1 := SyncRun(tenant, dataset, None, AwaitingUpload, format, bytes, None)],
                         jobs := t.jobs[t.nextId + 2 := Job(tenant, DatasetImport, key, t.nextId + 1, AwaitingUpload, t.now, None, 0, false)],
                         nextId := t.nextId + 3), Ok(Upload(dataset, t.nextId + 1, t.nextId + 2)))
  {
    hide Sound, QuotaAllows, FindJob, FindDataset;
    FoundJobKeyed(t.jobs, tenant, DatasetImport, key);
    var found := FindJob(t.jobs, tenant, DatasetImport, key);
    if found.Some? {
      RowFacts(t, found.value);
      RunFacts(t, t.jobs[found.value].target);
    }
  }

  /** The row of a unique key is found by it. */
  lemma {:induction false} KeyedIsFound(t: Tables, id: Id, tenant: Id, kind: Kind, key: Key)
    requires Sound(t) && KeyedJob(t.jobs, id, tenant, kind, key)
    ensures FindJob(t.jobs, tenant, kind, key) == Some(id)
  {
    hide Sound, FindJob;
    OneFound(t, id);
  }

  lemma {:induction false} NamedIsFound(t: Tables, id: Id, tenant: Id, slug: string)
    requires Sound(t)
    ensures NamedDataset(t.datasets, id, tenant, slug) ==> FindDataset(t.datasets, tenant, slug) == Some(id)
    ensures NamedApp(t.apps, id, tenant, slug) ==> FindApp(t.apps, tenant, slug) == Some(id)
    ensures NamedQuery(t.queries, id, tenant, slug) ==> FindQuery(t.queries, tenant, slug) == Some(id)
    ensures NamedConnector(t.connectors, id, tenant, slug) ==> FindConnector(t.connectors, tenant, slug) == Some(id)
  {
    hide Sound, FindDataset, FindApp, FindQuery, FindConnector, DatasetRows, AppRows, QueryRows, ConnectorRows;
    SoundTables(t);
    if NamedDataset(t.datasets, id, tenant, slug) { OneDataset(t.datasets, id); }
    if NamedApp(t.apps, id, tenant, slug) { OneApp(t.apps, t.deployments, id); }
    if NamedQuery(t.queries, id, tenant, slug) { OneQuery(t.queries, t.revisions, id); }
    if NamedConnector(t.connectors, id, tenant, slug) { OneConnector(t.connectors, t.datasets, id); }
  }

  /** What is not found under a name is not there. */
  lemma {:induction false} NoneNamed(t: Tables, tenant: Id, slug: string, kind: Kind, key: Key)
    ensures (forall id :: !KeyedJob(t.jobs, id, tenant, kind, key)) ==> FindJob(t.jobs, tenant, kind, key).None?
    ensures (forall id :: !NamedDataset(t.datasets, id, tenant, slug)) ==> FindDataset(t.datasets, tenant, slug).None?
    ensures (forall id :: !NamedApp(t.apps, id, tenant, slug)) ==> FindApp(t.apps, tenant, slug).None?
    ensures (forall id :: !NamedQuery(t.queries, id, tenant, slug)) ==> FindQuery(t.queries, tenant, slug).None?
    ensures (forall id :: !NamedConnector(t.connectors, id, tenant, slug)) ==> FindConnector(t.connectors, tenant, slug).None?
  {
  }

  lemma {:induction false} FullQueue(t: Tables, tenant: Id)
    ensures QueueFull(t, tenant) <==> |ActiveJobs(t.jobs, tenant)| >= MAX_QUEUED_JOBS
  {
  }

  lemma {:induction false} CreatedOrConflict(t: Tables, tenant: Id, connector: Id, key: Key)
    ensures var r := Transitions.CreateConnectorJob(t, tenant, connector, key);
            && (r.1.Err? ==> r.0 == t)
            && (r.1.Ok? ==> r.0 == t.(jobs := r.0.jobs, runs := r.0.runs, nextId := r.0.nextId))
            && (QueueFull(t, tenant) ==> r.1.Err?)
  {
    hide FindJob, QueueFull;
  }

  lemma {:induction false} GrantingQueries(t: Tables)
    requires SoundWhileGranting(t)
    ensures QueryRows(t.queries, t.revisions) && Below(t.queries.Keys, t.nextId)
  {
    hide JobsSound, RunRows, DatasetRows, ConnectorRows, AppsSound, GrantRows, QueryRows, RevisionRows, Below;
  }

  lemma {:induction false} SaveCases(t: Tables, tenant: Id, slug: string, sql: string, types: ParameterTypes)
    requires QueryRows(t.queries, t.revisions) && Below(t.queries.Keys, t.nextId)
    ensures var found := FindQuery(t.queries, tenant, slug);
            var query := if found.Some? then found.value else t.nextId;
            && (found.Some? ==> query in t.queries && t.queries[query].tenant == tenant && t.queries[query].slug == slug)
            && Transitions.SaveRevision(t, tenant, slug, sql, types) ==
               if found.Some? && t.queries[query].current.Some? && t.queries[query].current.value in t.revisions
                  && t.revisions[t.queries[query].current.value].sql == sql && t.revisions[t.queries[query].current.value].types == types
               then Saved(t, t.queries[query].current.value, false)
               else Saved(t.(queries := t.queries[query := Query(tenant, slug, Some(t.nextId + 1))],
                             revisions := t.revisions[t.nextId + 1 :=
                               Revision(tenant, query, Numbering.Next(RevisionSlots(t.revisions), query), sql, types)],
                             nextId := t.nextId + 2), t.nextId + 1, true)
  {
    hide FindQuery, RevisionSlots, QueryRows;
    FoundQuery(t.queries, tenant, slug);
  }

  lemma {:induction false} GrantStep(t: Tables, tenant: Id, d: Id, queries: seq<PublishedQuery>)
    requires queries != []
    ensures var q := queries[0];
            var saved := Transitions.SaveRevision(t, tenant, q.name, q.sql, q.types);
            GrantAll(t, tenant, d, queries) ==
            if (saved.created && !StorableSql(q.sql)) || Grant(tenant, d, saved.revision) in saved.tables.grants then None
            else GrantAll(GrantOne(t, tenant, d, q), tenant, d, queries[1..])
  {
    hide Transitions.SaveRevision;
  }

  lemma {:induction false} GrantNothing(t: Tables, tenant: Id, d: Id, queries: seq<PublishedQuery>)
    requires queries == []
    ensures GrantAll(t, tenant, d, queries) == Some(t)
  {
  }

  lemma {:induction false} GrantOneNames(t: Tables, tenant: Id, d: Id, q: PublishedQuery, name: string)
    requires SoundWhileGranting(t) && d in t.deployments && t.deployments[d].tenant == tenant
    requires Unnamed(t, d, q.name) && Unnamed(t, d, name) && name != q.name
    ensures Unnamed(GrantOne(t, tenant, d, q), d, name)
  {
    hide SoundWhileGranting, GrantOne;
    GrantOneFrame(t, tenant, d, q, name);
  }

  /** A release under a key of its own, or the one that the key already names. */
  lemma {:induction false} DeploymentCases(t: Tables, tenant: Id, m: Manifest, checksum: Checksum, bytes: int, key: Key)
    requires Sound(t)
    ensures var r := Transitions.CreateDeployment(t, tenant, m, checksum, bytes, key);
            match FindJob(t.jobs, tenant, AppPublish, key)
            case Some(id) =>
              && id in t.jobs && t.jobs[id].target in t.deployments && t.deployments[t.jobs[id].target].app in t.apps
              && var d := t.deployments[t.jobs[id].target];
              r == if t.apps[d.app].slug != m.app.slug || d.bytes != bytes || d.manifest != m || d.checksum != checksum then (t, Err(Conflict))
                   else (t, Ok(t.jobs[id].target))
            case None =>
              if !QuotaAllows(t, tenant, bytes, None) then r == (t, Err(QuotaExceeded))
              else if !(1 <= bytes <= MAX_DEPLOYMENT_BYTES) then r == (t, Err(Rejected))
              else
                var found := FindApp(t.apps, tenant, m.app.slug);
                var app := if found.Some? then found.value else t.nextId;
                var previous := if found.Some? then t.apps[app].current else None;
                var version := Numbering.Next(DeploymentSlots(t.deployments), app);
                r == (t.(apps := if found.Some? then t.apps else t.apps[app := App(tenant, m.app.slug, None)],
                         deployments := t.deployments[t.nextId + 1 := Deployment(tenant, app, previous, version, AwaitingUpload, checksum, bytes, m)],
                         jobs := t.jobs[t.nextId + 2 := Job(tenant, AppPublish, key, t.nextId + 1, AwaitingUpload, t.now, None, 0, false)],
                         nextId := t.nextId + 3), Ok(t.nextId + 1))
    ensures FindApp(t.apps, tenant, m.app.slug).Some? ==> FindApp(t.apps, tenant, m.app.slug).value in t.apps
  {
    hide Sound, QuotaAllows, FindJob, FindApp, DeploymentSlots;
    FoundJobKeyed(t.jobs, tenant, AppPublish, key);
    FoundApp(t.apps, tenant, m.app.slug);
    var found := FindJob(t.jobs, tenant, AppPublish, key);
    if found.Some? {
      RowFacts(t, found.value);
      DeployedApp(t, t.jobs[found.value].target);
    }
  }

  lemma {:induction false} DeploymentMade(
    t: Tables, tenant: Id, m: Manifest, checksum: Checksum, bytes: nat, key: Key, app: Id, apps': map<Id, App>, row: Deployment)
    requires FindJob(t.jobs, tenant, AppPublish, key).None? && QuotaAllows(t, tenant, bytes, None)
    requires match FindApp(t.apps, tenant, m.app.slug)
             case Some(id) => app == id && apps' == t.apps
             case None => app == t.nextId && apps' == t.apps[app := App(tenant, m.app.slug, None)]
    requires app in apps'
    requires row == Deployment(tenant, app, apps'[app].current, Numbering.Next(DeploymentSlots(t.deployments), app), AwaitingUpload, checksum, bytes, m)
    ensures Transitions.CreateDeployment(t, tenant, m, checksum, bytes, key) ==
            if !(1 <= bytes <= MAX_DEPLOYMENT_BYTES) then (t, Err(Rejected))
            else
              (t.(apps := apps', deployments := t.deployments[t.nextId + 1 := row],
                  jobs := t.jobs[t.nextId + 2 := Job(tenant, AppPublish, key, t.nextId + 1, AwaitingUpload, t.now, None, 0, false)],
                  nextId := t.nextId + 3), Ok(t.nextId + 1))
  {
    hide QuotaAllows, FindJob, FindApp, DeploymentSlots;
    FoundApp(t.apps, tenant, m.app.slug);
  }

  lemma {:induction false} DeployedApp(t: Tables, d: Id)
    requires Sound(t) && d in t.deployments
    ensures t.deployments[d].app in t.apps
  {
    hide Bounded, JobsSound, RunRows, DatasetRows, ConnectorRows, QueriesSound, GrantsSound;
  }

  /** SELECT sum(byte_count): the rows one by one, in any order. */
  method SumOf(weights: map<Id, nat>) returns (sum: nat)
    ensures sum == Totals.Total(weights)
  {
    sum := 0;
    var rest := weights;
    while rest != map[]
      invariant sum + Totals.Total(rest) == Totals.Total(weights)
      decreases rest.Keys
    {
      var id: Id :| id in rest;
      Totals.TotalRemove(rest, id);
      sum := sum + rest[id];
      rest := rest - {id};
    }
  }

  /** SELECT COALESCE(max(version), 0) + 1 */
  method NextVersion(slots: map<Id, Numbering.Slot>, owner: Id) returns (next: nat)
    ensures next == Numbering.Next(slots, owner)
  {
    var top: nat := 0;
    var rest := Numbering.VersionsOf(slots, owner);
    ghost var all := rest;
    while rest != {}
      invariant rest <= all
      invariant forall v :: v in all && v !in rest ==> v <= top
      invariant top == 0 || top in all
      decreases rest
    {
      var v: nat :| v in rest;
      if v > top { top := v; }
      rest := rest - {v};
    }
    next := top + 1;
    ghost var spec := Numbering.Next(slots, owner);
    assert Numbering.IsMax(all, top) && Numbering.IsMax(all, spec - 1);
  }

  class Database {
    var jobs: map<Id, Job>
    var runs: map<Id, SyncRun>
    var datasets: map<Id, Dataset>
    var apps: map<Id, App>
    var deployments: map<Id, Deployment>
    var queries: map<Id, Query>
    var revisions: map<Id, Revision>
    var grants: set<Grant>
    var connectors: map<Id, Connector>
    var nextId: Id
    var now: Time

    function Rows(): Tables
      reads this
    {
      Tables(jobs, runs, datasets, apps, deployments, queries, revisions, grants, connectors, nextId, now)
    }

    ghost predicate Valid()
      reads this
    {
      Sound(Rows())
    }

    constructor ()
      ensures Rows() == EMPTY && Valid()
    {
      jobs, runs, datasets, apps, deployments := map[], map[], map[], map[], map[];
      queries, revisions, grants, connectors, nextId, now := map[], map[], {}, map[], 0, 0;
      new;
      assert DeploymentSlots(deployments) == map[] && RevisionSlots(revisions) == map[];
    }

    method NewId() returns (id: Id)
      modifies this`nextId
      ensures id == old(nextId) && nextId == id + 1
    {
      id := nextId;
      nextId := nextId + 1;
    }

    /** tx.Rollback(). */
    method Undo(before: Tables)
      modifies this
      ensures Rows() == before
    {
      jobs, runs, datasets, apps, deployments := before.jobs, before.runs, before.datasets, before.apps, before.deployments;
      queries, revisions, grants, connectors := before.queries, before.revisions, before.grants, before.connectors;
      nextId, now := before.nextId, before.now;
    }

    /** Time passes. */
    method Tick(elapsed: nat)
      requires Valid()
      modifies this`now
      ensures Rows() == Protocol.Later(old(Rows()), elapsed)
      ensures Valid()
    {
      hide Sound;
      LaterKeeps(Rows(), elapsed);
      now := now + elapsed;
    }

    method CheckStorageQuota(tenant: Id, additional: int, excluded: Option<Id>) returns (ok: bool)
      ensures ok <==> QuotaAllows(Rows(), tenant, additional, excluded)
      ensures ok ==> additional >= 0
    {
      var inRuns := SumOf(RunWeights(runs, tenant, excluded));
      var inDeployments := SumOf(DeploymentWeights(deployments, tenant));
      var stored := inRuns + inDeployments;
      ok := !(additional < 0 || stored > MAX_TENANT_STORED_BYTES - additional);
    }

    // ---------- SELECT by a unique key, INSERT ... ON CONFLICT DO UPDATE

    method SelectJob(tenant: Id, kind: Kind, key: Key) returns (found: Option<Id>)
      requires Valid()
      ensures found == FindJob(jobs, tenant, kind, key)
    {
      hide Sound, FindJob;
      NoneNamed(Rows(), tenant, "", kind, key);
      if id: Id :| id in jobs && KeyedJob(jobs, id, tenant, kind, key) {
        KeyedIsFound(Rows(), id, tenant, kind, key);
        return Some(id);
      }
      return None;
    }

    method SelectConnector(tenant: Id, slug: string) returns (found: Option<Id>)
      requires Valid()
      ensures found == FindConnector(connectors, tenant, slug)
    {
      hide Sound, FindConnector;
      NoneNamed(Rows(), tenant, slug, DatasetImport, Client(""));
      if id: Id :| id in connectors && NamedConnector(connectors, id, tenant, slug) {
        NamedIsFound(Rows(), id, tenant, slug);
        return Some(id);
      }
      return None;
    }

    method SelectDataset(tenant: Id, slug: string) returns (found: Option<Id>)
      requires Valid()
      ensures found == FindDataset(datasets, tenant, slug)
    {
      hide Sound, FindDataset;
      NoneNamed(Rows(), tenant, slug, DatasetImport, Client(""));
      if id: Id :| id in datasets && NamedDataset(datasets, id, tenant, slug) {
        NamedIsFound(Rows(), id, tenant, slug);
        return Some(id);
      }
      return None;
    }

    method SelectApp(tenant: Id, slug: string) returns (found: Option<Id>)
      requires Valid()
      ensures found == FindApp(apps, tenant, slug)
    {
      hide Sound, FindApp;
      NoneNamed(Rows(), tenant, slug, DatasetImport, Client(""));
      if id: Id :| id in apps && NamedApp(apps, id, tenant, slug) {
        NamedIsFound(Rows(), id, tenant, slug);
        return Some(id);
      }
      return None;
    }

    method SelectQuery(tenant: Id, slug: string) returns (found: Option<Id>)
      requires QueryRows(queries, revisions)
      ensures found == FindQuery(queries, tenant, slug)
    {
      NoneNamed(Rows(), tenant, slug, DatasetImport, Client(""));
      if id: Id :| id in queries && NamedQuery(queries, id, tenant, slug) {
        OneQuery(queries, revisions, id);
        return Some(id);
      }
      return None;
    }

    method InsertDataset(tenant: Id, slug: string) returns (dataset: Id)
      requires Valid()
      modifies this`datasets, this`nextId
      ensures nextId == old(nextId) + 1
      ensures match FindDataset(old(datasets), tenant, slug)
              case Some(id) => dataset == id && datasets == old(datasets)
              case None => dataset == old(nextId) && datasets == old(datasets)[dataset := Dataset(tenant, slug, None)]
    {
      hide Sound, FindDataset;
      var existing := SelectDataset(tenant, slug);
      dataset := NewId();
      if existing.Some? { dataset := existing.value; } else { datasets := datasets[dataset := Dataset(tenant, slug, None)]; }
    }

    method InsertApp(tenant: Id, slug: string) returns (app: Id)
      requires Valid()
      modifies this`apps, this`nextId
      ensures nextId == old(nextId) + 1
      ensures match FindApp(old(apps), tenant, slug)
              case Some(id) => app == id && apps == old(apps)
              case None => app == old(nextId) && apps == old(apps)[app := App(tenant, slug, None)]
      ensures app in apps
    {
      hide Sound, FindApp;
      FoundApp(apps, tenant, slug);
      var existing := SelectApp(tenant, slug);
      app := NewId();
      if existing.Some? { app := existing.value; } else { apps := apps[app := App(tenant, slug, None)]; }
    }

    /** UPDATE sync_runs SET status, where the row is there. */
    method SetRunStatus(tenant: Id, run: Id, status: Status)
      modifies this`runs
      ensures runs == if run in old(runs) && old(runs)[run].tenant == tenant
                      then old(runs)[run := old(runs)[run].(status := status)] else old(runs)
    {
      if run in runs && runs[run].tenant == tenant { runs := runs[run := runs[run].(status := status)]; }
    }

    method SetDeploymentStatus(tenant: Id, deployment: Id, status: Status)
      modifies this`deployments
      ensures deployments == if deployment in old(deployments) && old(deployments)[deployment].tenant == tenant
                             then old(deployments)[deployment := old(deployments)[deployment].(status := status)] else old(deployments)
    {
      if deployment in deployments && deployments[deployment].tenant == tenant {
        deployments := deployments[deployment := deployments[deployment].(status := status)];
      }
    }

    // ---------- internal/db/datasets.go

    method CreateDatasetUpload(tenant: Id, slug: string, format: Format, bytes: int, key: Key) returns (r: Result<Upload, DbError>)
      requires Valid()
      modifies this
      ensures (Rows(), r) == Transitions.CreateDatasetUpload(old(Rows()), tenant, slug, format, bytes, key)
      ensures Valid()
    {
      hide Sound, QuotaAllows, FindJob, FindDataset, Transitions.CreateDatasetUpload;
      ghost var before := Rows();
      CreateDatasetUploadKeeps(before, tenant, slug, format, bytes, key);
      UploadCases(before, tenant, slug, format, bytes, key);
      var existing := SelectJob(tenant, DatasetImport, key);
      if existing.Some? {
        var run := jobs[existing.value].target;
        if datasets[runs[run].dataset].slug != slug || runs[run].format != format || runs[run].bytes != bytes { return Err(Conflict); }
        return Ok(Upload(runs[run].dataset, run, existing.value));
      }
      var allowed := CheckStorageQuota(tenant, bytes, None);
      if !allowed { return Err(QuotaExceeded); }
      var dataset := InsertDataset(tenant, slug);
      var run := InsertUpload(SyncRun(tenant, dataset, None, AwaitingUpload, format, bytes, None), key);
      r := Ok(Upload(dataset, run, run + 1));
    }

    /** INSERT INTO sync_runs, INSERT INTO jobs. */
    method InsertUpload(row: SyncRun, key: Key) returns (run: Id)
      modifies this`runs, this`jobs, this`nextId
      ensures run == old(nextId) && nextId == run + 2 && runs == old(runs)[run := row]
      ensures jobs == old(jobs)[run + 1 := Job(row.tenant, DatasetImport, key, run, AwaitingUpload, now, None, 0, false)]
    {
      run := NewId();
      runs := runs[run := row];
      var job := NewId();
      jobs := jobs[job := Job(row.tenant, DatasetImport, key, run, AwaitingUpload, now, None, 0, false)];
    }

    method CompleteDatasetUpload(tenant: Id, run: Id)
      requires Valid()
      modifies this
      ensures Rows() == Transitions.CompleteDatasetUpload(old(Rows()), tenant, run)
      ensures Valid()
    {
      hide Sound, FindJobFor;
      ghost var before := Rows();
      var changed := run in runs && runs[run].tenant == tenant && runs[run].status.AwaitingUpload?;
      if changed {
        QueueKeeps(before, false, run);
        QueuedRow(before, tenant, false, run);
        runs := runs[run := runs[run].(status := Queued)];
        jobs := QueuedJobs(Rows(), tenant, false, run);
      }
    }

    method CompleteDeploymentUpload(tenant: Id, deployment: Id)
      requires Valid()
      modifies this
      ensures Rows() == Transitions.CompleteDeploymentUpload(old(Rows()), tenant, deployment)
      ensures Valid()
    {
      hide Sound, FindJobFor;
      ghost var before := Rows();
      var changed := deployment in deployments && deployments[deployment].tenant == tenant && deployments[deployment].status.AwaitingUpload?;
      if changed {
        QueueKeeps(before, true, deployment);
        QueuedRow(before, tenant, true, deployment);
        deployments := deployments[deployment := deployments[deployment].(status := Queued)];
        jobs := QueuedJobs(Rows(), tenant, true, deployment);
      }
    }

    /** ClaimImportJob, ClaimConnectorJob and ClaimPublishJob: one statement but for the kind and the tenant's live imports. */
    method ClaimJob(kind: Kind, worker: Worker, lease: Time) returns (r: Result<Claim, DbError>)
      requires Valid()
      modifies this
      ensures match r
              case Err(e) => e == NoRows && Rows() == old(Rows()) && forall id :: !Claimable(old(jobs), old(now), kind, id)
              case Ok(c) =>
                && Claimable(old(jobs), old(now), kind, c.job)
                && c == ClaimOf(old(Rows()), c.job, worker)
                && Rows() == Take(old(Rows()), c.job, worker, lease)
                && ClaimFits(Rows(), c)
      ensures Valid()
    {
      hide Sound;
      if id: Id :| id in jobs && Claimable(jobs, now, kind, id) {
        var c := TakeJob(kind, id, worker, lease);
        return Ok(c);
      }
      return Err(NoRows);
    }

    /** The candidate's own two updates. */
    method TakeJob(kind: Kind, id: Id, worker: Worker, lease: Time) returns (c: Claim)
      requires Valid() && Claimable(jobs, now, kind, id)
      modifies this
      ensures c == ClaimOf(old(Rows()), id, worker) && Rows() == Take(old(Rows()), id, worker, lease) && ClaimFits(Rows(), c)
      ensures Valid()
    {
      hide Sound;
      ghost var before := Rows();
      TakeKeeps(before, id, worker, lease, kind);
      RowFacts(before, id);
      ClaimBelow(before, id);
      c := ClaimOf(Rows(), id, worker);
      jobs := jobs[id := jobs[id].(status := Running, lease := Some(Lease(worker, now + lease)), attempts := jobs[id].attempts + 1)];
      if kind.AppPublish? { SetDeploymentStatus(c.tenant, c.target, Running); } else { SetRunStatus(c.tenant, c.target, Running); }
    }

    method GetImportDetails(c: Claim) returns (r: Result<SyncRun, DbError>)
      ensures r == if Holds(jobs, c) && ForRun(jobs[c.job].kind) && jobs[c.job].target in runs then Ok(runs[jobs[c.job].target]) else Err(LeaseLost)
    {
      if !(Holds(jobs, c) && ForRun(jobs[c.job].kind) && jobs[c.job].target in runs) { return Err(LeaseLost); }
      return Ok(runs[jobs[c.job].target]);
    }

    method GetPublishDetails(c: Claim) returns (r: Result<Deployment, DbError>)
      ensures r == if Holds(jobs, c) && jobs[c.job].kind.AppPublish? && jobs[c.job].target in deployments
                   then Ok(deployments[jobs[c.job].target]) else Err(LeaseLost)
    {
      if !(Holds(jobs, c) && jobs[c.job].kind.AppPublish? && jobs[c.job].target in deployments) { return Err(LeaseLost); }
      return Ok(deployments[jobs[c.job].target]);
    }

    /** HeartbeatImportJob and HeartbeatPublishJob. */
    method HeartbeatJob(c: Claim, lease: Time) returns (r: Result<(), DbError>)
      requires Valid()
      modifies this
      ensures Rows() == Transitions.Heartbeat(old(Rows()), c, lease)
      ensures r == if Holds(old(jobs), c) then Ok(()) else Err(LeaseLost)
      ensures Valid()
    {
      hide Sound;
      HeartbeatKeeps(Rows(), c, lease);
      if !Holds(jobs, c) { return Err(LeaseLost); }
      jobs := jobs[c.job := jobs[c.job].(lease := Some(Lease(c.worker, now + lease)))];
      return Ok(());
    }

    method CompleteImportJob(c: Claim, result: ImportResult) returns (r: Result<(), DbError>)
      requires Valid()
      modifies this
      ensures Rows() == CompleteImport(old(Rows()), c, result)
      ensures r == if ImportCompletes(old(Rows()), c) then Ok(()) else Err(LeaseLost)
      ensures Valid()
    {
      hide Sound;
      CompleteImportKeeps(Rows(), c, result);
      if !(Holds(jobs, c) && !jobs[c.job].cancelRequested && !jobs[c.job].kind.AppPublish? && jobs[c.job].target in runs) { return Err(LeaseLost); }
      RowFacts(Rows(), c.job);
      var run := jobs[c.job].target;
      var dataset := runs[run].dataset;
      RunFacts(Rows(), run);
      if dataset in datasets && datasets[dataset].tenant == c.tenant {
        datasets := datasets[dataset := datasets[dataset].(current := Some(Publication(result, runs[run].bytes)))];
      }
      runs := runs[run := runs[run].(status := Succeeded, result := Some(result))];
      jobs := jobs[c.job := jobs[c.job].(status := Succeeded, lease := None)];
      assert Rows() == CompleteImport(old(Rows()), c, result);
      return Ok(());
    }

    /** FailImportJob and FailPublishJob. */
    method FailJob(c: Claim) returns (r: Result<(), DbError>)
      requires Valid() && ClaimFits(Rows(), c)
      modifies this
      ensures Rows() == Fail(old(Rows()), c)
      ensures r == if Holds(old(jobs), c) then Ok(()) else Err(LeaseLost)
      ensures Valid()
    {
      hide Sound;
      FailKeeps(Rows(), c);
      if !Holds(jobs, c) { return Err(LeaseLost); }
      RowFacts(Rows(), c.job);
      jobs := jobs[c.job := jobs[c.job].(status := Failed, lease := None)];
      if c.kind.AppPublish? { SetDeploymentStatus(c.tenant, c.target, Failed); } else { SetRunStatus(c.tenant, c.target, Failed); }
      return Ok(());
    }

    // ---------- internal/db/operations.go

    /** The status of the row a job works on. */
    method SetTargetStatus(job: Job)
      requires Reaches(runs, deployments, job)
      modifies this`runs, this`deployments
      ensures runs == WithRunStatus(old(runs), job) && deployments == WithDeploymentStatus(old(deployments), job)
    {
      if job.kind.AppPublish? { SetDeploymentStatus(job.tenant, job.target, job.status); } else { SetRunStatus(job.tenant, job.target, job.status); }
    }

    method CancelJob(tenant: Id, id: Id) returns (r: Result<(), DbError>)
      requires Valid()
      modifies this
      ensures Rows() == Transitions.CancelJob(old(Rows()), tenant, id).0 && r == Transitions.CancelJob(old(Rows()), tenant, id).1
      ensures Valid()
    {
      hide Sound, WithRunStatus, WithDeploymentStatus, Transitions.CancelJob, Reaches;
      CancelJobKeeps(Rows(), tenant, id);
      CancelCases(Rows(), tenant, id);
      if !(id in jobs && jobs[id].tenant == tenant) { return Err(NoRows); }
      ReachesTarget(Rows(), id);
      var job := jobs[id];
      if job.status.AwaitingUpload? || job.status.Queued? {
        jobs := jobs[id := job.(status := Cancelled, cancelRequested := true)];
        SetTargetStatus(jobs[id]);
      } else if job.status.Running? {
        jobs := jobs[id := job.(cancelRequested := true)];
      } else {
        return Err(Conflict);
      }
      return Ok(());
    }

    method JobCancellationRequested(c: Claim) returns (r: Result<bool, DbError>)
      ensures r == if Holds(jobs, c) then Ok(jobs[c.job].cancelRequested) else Err(LeaseLost)
    {
      if !Holds(jobs, c) { return Err(LeaseLost); }
      return Ok(jobs[c.job].cancelRequested);
    }

    method CancelClaimedJob(c: Claim) returns (r: Result<(), DbError>)
      requires Valid()
      modifies this
      ensures Rows() == CancelClaimed(old(Rows()), c)
      ensures r == if Holds(old(jobs), c) then Ok(()) else Err(LeaseLost)
      ensures Valid()
    {
      hide Sound;
      CancelClaimedKeeps(Rows(), c);
      if !Holds(jobs, c) { return Err(LeaseLost); }
      ReachesTarget(Rows(), c.job);
      jobs := jobs[c.job := jobs[c.job].(status := Cancelled, lease := None)];
      SetTargetStatus(jobs[c.job]);
      return Ok(());
    }

    // ---------- internal/db/connectors.go

    method CreateConnector(tenant: Id, slug: string, datasetSlug: string, enabled: bool, refreshMinutes: int) returns (r: Result<Id, DbError>)
      requires Valid()
      modifies this
      ensures (Rows(), r) == Transitions.CreateConnector(old(Rows()), tenant, slug, datasetSlug, enabled, refreshMinutes)
      ensures Valid()
    {
      hide Sound, FindDataset;
      var before := Rows();
      CreateConnectorKeeps(before, tenant, slug, datasetSlug, enabled, refreshMinutes);
      var dataset := InsertDataset(tenant, datasetSlug);
      var id := NewId();
      if !(1 <= refreshMinutes <= 10080) {
        Undo(before);
        return Err(Rejected);
      }
      if exists other :: other in connectors && connectors[other].tenant == tenant && (connectors[other].slug == slug || connectors[other].dataset == dataset) {
        Undo(before);
        return Err(Conflict);
      }
      connectors := connectors[id := Connector(tenant, dataset, slug, enabled, refreshMinutes, now)];
      return Ok(id);
    }

    method UpdateConnector(tenant: Id, slug: string, enabled: bool, refreshMinutes: int) returns (r: Result<Id, DbError>)
      requires Valid()
      modifies this
      ensures (Rows(), r) == Transitions.UpdateConnector(old(Rows()), tenant, slug, enabled, refreshMinutes)
      ensures Valid()
    {
      hide Sound, FindConnector;
      UpdateConnectorKeeps(Rows(), tenant, slug, enabled, refreshMinutes);
      FoundConnector(connectors, tenant, slug);
      var found := SelectConnector(tenant, slug);
      if found.None? { return Err(NoRows); }
      if !(1 <= refreshMinutes <= 10080) { return Err(Rejected); }
      var row := connectors[found.value];
      var next := row.nextSyncAt;
      if enabled && now < next { next := now; }
      connectors := connectors[found.value := row.(enabled := enabled, refreshMinutes := refreshMinutes, nextSyncAt := next)];
      return Ok(found.value);
    }

    method DeleteConnector(tenant: Id, slug: string) returns (r: Result<(), DbError>)
      requires Valid()
      modifies this
      ensures (Rows(), r) == Transitions.DeleteConnector(old(Rows()), tenant, slug)
      ensures Valid()
    {
      hide Sound, FindConnector, ForgetConnectors;
      DeleteConnectorKeeps(Rows(), tenant, slug);
      var found := SelectConnector(tenant, slug);
      if found.None? { return Err(NoRows); }
      if exists job :: job in jobs && ForRun(jobs[job].kind) && jobs[job].target in runs && runs[jobs[job].target].connector == found
                       && (jobs[job].status.Queued? || jobs[job].status.Running?) { return Err(Conflict); }
      connectors := connectors - {found.value};
      runs := ForgetConnectors(runs, {found.value});
      return Ok(());
    }

    method CreateConnectorJob(tenant: Id, connector: Id, key: Key) returns (r: Result<Id, DbError>)
      requires Valid()
      modifies this
      ensures (Rows(), r) == Transitions.CreateConnectorJob(old(Rows()), tenant, connector, key)
      ensures Valid()
    {
      hide Sound, FindJob;
      CreateConnectorJobKeeps(Rows(), tenant, connector, key);
      if !(connector in connectors && connectors[connector].tenant == tenant) { return Err(NoRows); }
      var queued := |ActiveJobs(jobs, tenant)|;
      if queued >= 100 { return Err(Conflict); }
      var before := Rows();
      var existing := SelectJob(tenant, ConnectorSync, key);
      var run := NewId();
      var job := NewId();
      runs := runs[run := SyncRun(tenant, connectors[connector].dataset, Some(connector), Queued, Json, 0, None)];
      if existing.Some? {
        Undo(before);
        return Err(Conflict);
      }
      jobs := jobs[job := Job(tenant, ConnectorSync, key, run, Queued, now, None, 0, false)];
      return Ok(job);
    }

    /** One due connector, whichever the lock leaves; none is touched when none is due. */
    method EnqueueDueConnector() returns (id: Option<Id>, r: Enqueued)
      requires Valid()
      modifies this
      ensures match id
              case None => r.NothingDue? && Rows() == old(Rows()) && forall c :: !Due(old(Rows()), c)
              case Some(c) => Due(old(Rows()), c) && (Rows(), r) == Transitions.EnqueueDueConnector(old(Rows()), c)
      ensures Valid()
    {
      hide Sound, Transitions.EnqueueDueConnector;
      if c: Id :| c in connectors && Due(Rows(), c) {
        r := EnqueueConnector(c);
        return Some(c), r;
      }
      return None, NothingDue;
    }

    /** The rest of the transaction, for the connector that was locked. */
    method EnqueueConnector(c: Id) returns (r: Enqueued)
      requires Valid() && Due(Rows(), c)
      modifies this
      ensures (Rows(), r) == Transitions.EnqueueDueConnector(old(Rows()), c)
      ensures Valid()
    {
      hide Sound, FindJob, Transitions.CreateConnectorJob, QueueFull;
      EnqueueDueConnectorKeeps(Rows(), c);
      ghost var before := Rows();
      var row := connectors[c];
      CreatedOrConflict(before, row.tenant, c, Scheduled(c, row.nextSyncAt));
      var full := |ActiveJobs(jobs, row.tenant)| >= MAX_QUEUED_JOBS;
      FullQueue(before, row.tenant);
      var created := CreateConnectorJob(row.tenant, c, Scheduled(c, row.nextSyncAt));
      if created.Err? {
        if !full { return Aborted; }
        connectors := connectors[c := row.(nextSyncAt := now + MINUTE)];
        return Postponed;
      }
      connectors := connectors[c := row.(nextSyncAt := now + row.refreshMinutes * MINUTE)];
      return Enqueued.Enqueued(created.value);
    }

    method GetConnectorDetails(c: Claim) returns (r: Result<Connector, DbError>)
      ensures r == if Holds(jobs, c) && ForRun(jobs[c.job].kind) && jobs[c.job].target in runs
                      && runs[jobs[c.job].target].connector.Some? && runs[jobs[c.job].target].connector.value in connectors
                   then Ok(connectors[runs[jobs[c.job].target].connector.value]) else Err(LeaseLost)
    {
      if !(Holds(jobs, c) && ForRun(jobs[c.job].kind) && jobs[c.job].target in runs) { return Err(LeaseLost); }
      var connector := runs[jobs[c.job].target].connector;
      if connector.None? || connector.value !in connectors { return Err(LeaseLost); }
      return Ok(connectors[connector.value]);
    }

    method SetConnectorRunBytes(c: Claim, bytes: int) returns (r: Result<(), DbError>)
      requires Valid()
      modifies this
      ensures (Rows(), r) == Transitions.SetConnectorRunBytes(old(Rows()), c, bytes)
      ensures Valid()
    {
      hide Sound, StoredBytes;
      SetConnectorRunBytesKeeps(Rows(), c, bytes);
      var allowed := CheckStorageQuota(c.tenant, bytes, Some(c.target));
      if !allowed { return Err(QuotaExceeded); }
      var held := c.job in jobs && jobs[c.job].status.Running? && jobs[c.job].lease.Some? && jobs[c.job].lease.value.holder == c.worker;
      if !(c.target in runs && runs[c.target].tenant == c.tenant && held) { return Err(LeaseLost); }
      runs := runs[c.target := runs[c.target].(bytes := bytes)];
      return Ok(());
    }

    /** The job row and then, in a statement of its own, the run row. */
    method RetryConnectorJob(c: Claim, delay: Time) returns (retried: bool)
      requires Valid() && ClaimFits(Rows(), c) && ForRun(c.kind)
      modifies this
      ensures Rows() == Retry(old(Rows()), c, delay)
      ensures retried <==> MayRetry(old(Rows()), c)
      ensures Valid()
    {
      hide Sound;
      RetryKeeps(Rows(), c, delay);
      if !(Holds(jobs, c) && jobs[c.job].attempts < 3) { return false; }
      RowFacts(Rows(), c.job);
      jobs := jobs[c.job := jobs[c.job].(status := Queued, lease := None, availableAt := now + delay)];
      SetRunStatus(c.tenant, c.target, Queued);
      return true;
    }

    // ---------- internal/db/queries.go

    /** An identifier that ends up unused is not drawn; ok is false when the text fails its CHECK. */
    method SaveRevision(tenant: Id, slug: string, sql: string, types: ParameterTypes) returns (revision: Id, created: bool, ok: bool)
      requires QueryRows(queries, revisions) && Below(queries.Keys, nextId)
      modifies this
      ensures var saved := Transitions.SaveRevision(old(Rows()), tenant, slug, sql, types);
              && revision == saved.revision && created == saved.created
              && (ok <==> !created || StorableSql(sql))
              && (ok ==> Rows() == saved.tables)
    {
      hide FindQuery, RevisionSlots, QueryRows, Below, StorableSql, Transitions.SaveRevision;
      SaveCases(Rows(), tenant, slug, sql, types);
      var found := SelectQuery(tenant, slug);
      var query := nextId;
      var current: Option<Id> := None;
      if found.Some? {
        query := found.value;
        current := queries[query].current;
      }
      if current.Some? && current.value in revisions && revisions[current.value].sql == sql && revisions[current.value].types == types {
        return current.value, false, true;
      }
      var version := NextVersion(RevisionSlots(revisions), query);
      revision := nextId + 1;
      if !StorableSql(sql) { return revision, true, false; }
      InsertRevision(revision, slug, Revision(tenant, query, version, sql, types));
      return revision, true, true;
    }

    /** INSERT INTO query_revisions, UPDATE queries SET current_revision_id. */
    method InsertRevision(revision: Id, slug: string, row: Revision)
      modifies this`revisions, this`queries, this`nextId
      ensures nextId == revision + 1 && revisions == old(revisions)[revision := row]
      ensures queries == old(queries)[row.query := Query(row.tenant, slug, Some(revision))]
    {
      revisions := revisions[revision := row];
      queries := queries[row.query := Query(row.tenant, slug, Some(revision))];
      nextId := revision + 1;
    }

    method SaveQueryRevision(tenant: Id, slug: string, sql: string, types: ParameterTypes) returns (r: Result<Id, DbError>)
      requires Valid()
      modifies this
      ensures (Rows(), r) == Transitions.SaveQueryRevision(old(Rows()), tenant, slug, sql, types)
      ensures Valid()
    {
      hide Sound, SoundWhileGranting, QueryRows, Below, Transitions.SaveRevision;
      SaveQueryRevisionKeeps(Rows(), tenant, slug, sql, types);
      SoundIsSoundWhileGranting(Rows());
      GrantingQueries(Rows());
      var before := Rows();
      var revision, created, ok := SaveRevision(tenant, slug, sql, types);
      if !ok {
        Undo(before);
        return Err(Rejected);
      }
      return Ok(revision);
    }

    method DeleteQuery(tenant: Id, slug: string) returns (r: Result<(), DbError>)
      requires Valid()
      modifies this
      ensures (Rows(), r) == Transitions.DeleteQuery(old(Rows()), tenant, slug)
      ensures Valid()
    {
      hide Sound, FindQuery, QueryRows, QueryInUse;
      DeleteQueryKeeps(Rows(), tenant, slug);
      SoundTables(Rows());
      var found := SelectQuery(tenant, slug);
      if found.None? { return Err(NoRows); }
      if QueryInUse(Rows(), tenant, found.value, slug) { return Err(Conflict); }
      queries := queries - {found.value};
      revisions := map id | id in revisions && revisions[id].query != found.value :: revisions[id];
      return Ok(());
    }

    // ---------- internal/db/deployments.go

    method CreateDeployment(tenant: Id, m: Manifest, checksum: Checksum, bytes: int, key: Key) returns (r: Result<Id, DbError>)
      requires Valid()
      modifies this
      ensures (Rows(), r) == Transitions.CreateDeployment(old(Rows()), tenant, m, checksum, bytes, key)
      ensures Valid()
    {
      hide Sound, QuotaAllows, FindJob, FindApp, DeploymentSlots, Transitions.CreateDeployment;
      CreateDeploymentKeeps(Rows(), tenant, m, checksum, bytes, key);
      DeploymentCases(Rows(), tenant, m, checksum, bytes, key);
      var existing := SelectJob(tenant, AppPublish, key);
      if existing.Some? {
        var d := jobs[existing.value].target;
        if apps[deployments[d].app].slug != m.app.slug || deployments[d].bytes != bytes || deployments[d].manifest != m
           || deployments[d].checksum != checksum { return Err(Conflict); }
        return Ok(d);
      }
      var allowed := CheckStorageQuota(tenant, bytes, None);
      if !allowed { return Err(QuotaExceeded); }
      r := NewDeployment(tenant, m, checksum, bytes, key);
    }

    /** The rest of the transaction, for a key that names no job yet. */
    method NewDeployment(tenant: Id, m: Manifest, checksum: Checksum, bytes: nat, key: Key) returns (r: Result<Id, DbError>)
      requires Valid() && FindJob(jobs, tenant, AppPublish, key).None? && QuotaAllows(Rows(), tenant, bytes, None)
      modifies this
      ensures (Rows(), r) == Transitions.CreateDeployment(old(Rows()), tenant, m, checksum, bytes, key)
    {
      hide Sound, QuotaAllows, FindJob, FindApp, DeploymentSlots, Numbering.Next, Transitions.CreateDeployment;
      var before := Rows();
      var app := InsertApp(tenant, m.app.slug);
      var row := NextRelease(tenant, app, m, checksum, bytes);
      DeploymentMade(before, tenant, m, checksum, bytes, key, app, apps, row);
      if !(1 <= bytes <= MAX_DEPLOYMENT_BYTES) {
        Undo(before);
        return Err(Rejected);
      }
      var d := InsertDeployment(row, key);
      return Ok(d);
    }

    /** The app's current deployment is the previous one, its next version the version. */
    method NextRelease(tenant: Id, app: Id, m: Manifest, checksum: Checksum, bytes: nat) returns (row: Deployment)
      requires app in apps
      ensures row == Deployment(tenant, app, apps[app].current, Numbering.Next(DeploymentSlots(deployments), app), AwaitingUpload, checksum, bytes, m)
    {
      var version := NextVersion(DeploymentSlots(deployments), app);
      row := Deployment(tenant, app, apps[app].current, version, AwaitingUpload, checksum, bytes, m);
    }

    /** INSERT INTO deployments, INSERT INTO jobs. */
    method InsertDeployment(row: Deployment, key: Key) returns (d: Id)
      modifies this`deployments, this`jobs, this`nextId
      ensures d == old(nextId) && nextId == d + 2
      ensures deployments == old(deployments)[d := row]
      ensures jobs == old(jobs)[d + 1 := Job(row.tenant, AppPublish, key, d, AwaitingUpload, now, None, 0, false)]
    {
      d := NewId();
      deployments := deployments[d := row];
      var job := NewId();
      jobs := jobs[job := Job(row.tenant, AppPublish, key, d, AwaitingUpload, now, None, 0, false)];
    }

    method CompletePublishJob(c: Claim, published: seq<PublishedQuery>) returns (r: Result<(), DbError>)
      requires Valid() && ClaimFits(Rows(), c) && (PublishCompletes(Rows(), c) ==> DistinctNames(published))
      modifies this
      ensures (Rows(), r) == CompletePublish(old(Rows()), c, published)
      ensures Valid()
    {
      hide Sound, SoundWhileGranting, GrantAll, Transitions.SaveRevision, RowsGrow, Unnamed, QueryRows, Below,
           Promote;
      var before := Rows();
      if !(Holds(jobs, c) && !jobs[c.job].cancelRequested && jobs[c.job].kind.AppPublish? && jobs[c.job].target in deployments) { return Err(LeaseLost); }
      CompletePublishKeeps(before, c, published);
      RowFacts(before, c.job);
      SoundIsSoundWhileGranting(before);
      forall q | q in published ensures Unnamed(before, c.target, q.name) { SettledIsUnnamed(before, c.target, q.name); }
      for i := 0 to |published|
        invariant SoundWhileGranting(Rows())
        invariant Rows() == before.(queries := queries, revisions := revisions, grants := grants, nextId := nextId)
        invariant forall k :: i <= k < |published| ==> Unnamed(Rows(), c.target, published[k].name)
        invariant GrantAll(before, c.tenant, c.target, published) == GrantAll(Rows(), c.tenant, c.target, published[i..])
      {
        var q := published[i];
        ghost var t := Rows();
        GrantingQueries(t);
        GrantStep(t, c.tenant, c.target, published[i..]);
        GrantOneKeeps(t, c.tenant, c.target, q);
        forall k | i < k < |published| ensures Unnamed(GrantOne(t, c.tenant, c.target, q), c.target, published[k].name) {
          GrantOneNames(t, c.tenant, c.target, q, published[k].name);
        }
        var revision, created, ok := SaveRevision(c.tenant, q.name, q.sql, q.types);
        if !ok || Grant(c.tenant, c.target, revision) in grants {
          Undo(before);
          return Err(Rejected);
        }
        grants := grants + {Grant(c.tenant, c.target, revision)};
        assert published[i..][1..] == published[i + 1..];
      }
      GrantNothing(Rows(), c.tenant, c.target, published[|published|..]);
      PromoteDeployment(c.job);
      return Ok(());
    }

    /** The deployment succeeded, is the app's current one, and the job is done. */
    method PromoteDeployment(job: Id)
      requires job in jobs && jobs[job].kind.AppPublish? && jobs[job].target in deployments
      modifies this
      ensures Rows() == Promote(old(Rows()), job)
    {
      var target := jobs[job].target;
      var app := deployments[target].app;
      deployments := deployments[target := deployments[target].(status := Succeeded)];
      if app in apps { apps := apps[app := apps[app].(current := Some(target))]; }
      jobs := jobs[job := jobs[job].(status := Succeeded, lease := None)];
    }

    method RollbackDeployment(tenant: Id, deployment: Id) returns (r: Result<(), DbError>)
      requires Valid()
      modifies this
      ensures (Rows(), r) == Rollback(old(Rows()), tenant, deployment)
      ensures Valid()
    {
      hide Sound;
      RollbackKeeps(Rows(), tenant, deployment);
      if !(deployment in deployments && deployments[deployment].tenant == tenant) || !deployments[deployment].status.Succeeded? { return Err(NoRows); }
      var app := deployments[deployment].app;
      if app !in apps { return Err(NoRows); }
      apps := apps[app := apps[app].(current := Some(deployment))];
      return Ok(());
    }

    // ---------- internal/db/resources.go: the deletes cascade along the foreign keys

    method CascadeDataset(dataset: Id)
      modifies this
      ensures Rows() == RemoveDataset(old(Rows()), dataset)
    {
      hide ForgetConnectors;
      var gone := set id | id in connectors && connectors[id].dataset == dataset;
      var goneRuns := set id | id in runs && runs[id].dataset == dataset;
      jobs := map id | id in jobs && !(ForRun(jobs[id].kind) && jobs[id].target in goneRuns) :: jobs[id];
      runs := ForgetConnectors(runs - goneRuns, gone);
      connectors := connectors - gone;
      datasets := datasets - {dataset};
    }

    method DeleteDataset(tenant: Id, slug: string, dropped: bool) returns (r: Result<(), DbError>)
      requires Valid()
      modifies this
      ensures (Rows(), r) == Transitions.DeleteDataset(old(Rows()), tenant, slug, dropped)
      ensures Valid()
    {
      hide Sound, FindDataset, DatasetBusy, RemoveDataset;
      DeleteDatasetKeeps(Rows(), tenant, slug, dropped);
      var found := SelectDataset(tenant, slug);
      if found.None? { return Err(NoRows); }
      if DatasetBusy(Rows(), found.value) { return Err(Conflict); }
      if !dropped { return Err(Rejected); }
      CascadeDataset(found.value);
      return Ok(());
    }

    method CascadeApp(app: Id)
      modifies this
      ensures Rows() == RemoveApp(old(Rows()), app)
    {
      var gone := set id | id in deployments && deployments[id].app == app;
      jobs := map id | id in jobs && !(jobs[id].kind.AppPublish? && jobs[id].target in gone) :: jobs[id];
      grants := set g | g in grants && g.deployment !in gone;
      deployments := deployments - gone;
      apps := apps - {app};
    }

    method DeleteApp(tenant: Id, slug: string) returns (r: Result<(), DbError>)
      requires Valid()
      modifies this
      ensures (Rows(), r) == Transitions.DeleteApp(old(Rows()), tenant, slug)
      ensures Valid()
    {
      hide Sound, FindApp, AppBusy, RemoveApp;
      DeleteAppKeeps(Rows(), tenant, slug);
      var found := SelectApp(tenant, slug);
      if found.None? { return Err(NoRows); }
      if AppBusy(Rows(), found.value) { return Err(Conflict); }
      CascadeApp(found.value);
      return Ok(());
    }
  }
}
