/**
 What the requests of clients and the remaining statements of workers leave in the tables, row by row. The tables
 are any that are consistent; those of a reachable state are.
*/
module Effects {
  import opened Wrappers
  import opened Manifests
  import opened Schema
  import opened Transitions
  import opened Consistency
  import opened JobsStaySound
  import opened RowsStaySound
  import opened QueriesStaySound
  import opened Protocol
  import opened SoundRuns
  import opened Safety
  import opened Guarantees
  import opened Endings
  import opened Databases
  import opened Currents

  lemma {:induction false} ReachableIsSound(steps: seq<Step>, elapsed: nat)
    ensures Sound(Later(Exec(INITIAL, steps).db, elapsed))
  {
    hide Safe, Sound, Exec;
    var s := Exec(INITIAL, steps);
    ReachableIsSafe(steps);
    LaterStaysSafe(s, elapsed);
    SafeParts(s.(db := Later(s.db, elapsed)));
  }

  // ---------- uploads

  /** The tenant's run or deployment waits for its upload. */
  predicate Awaits(t: Tables, publish: bool, tenant: Id, target: Id)
  {
    if publish then target in t.deployments && t.deployments[target].tenant == tenant && t.deployments[target].status.AwaitingUpload?
    else target in t.runs && t.runs[target].tenant == tenant && t.runs[target].status.AwaitingUpload?
  }

  /** The one job of the row is queued and available now, with its row, and nothing else changes. */
  ghost predicate QueuedNow(t: Tables, t': Tables, publish: bool, target: Id)
  {
    && HasJob(t.jobs, publish, target)
    && forall id :: JobFor(t.jobs, id, publish, target) ==> MovesTo(t, t', id, t.jobs[id].(status := Queued, availableAt := t.now))
  }

  lemma {:induction false} QueueLeaves(t: Tables, publish: bool, tenant: Id, target: Id)
    requires Sound(t) && Awaits(t, publish, tenant, target)
    ensures QueuedNow(t, Queue(t, publish, target), publish, target)
  {
    hide Sound, Queue, MovesTo;
    TargetsHaveJobs(t, publish, target);
    forall id | JobFor(t.jobs, id, publish, target)
      ensures MovesTo(t, Queue(t, publish, target), id, t.jobs[id].(status := Queued, availableAt := t.now))
    {
      QueueMoves(t, publish, target, id);
    }
  }

  lemma {:induction false} QueueMoves(t: Tables, publish: bool, target: Id, id: Id)
    requires Sound(t) && JobFor(t.jobs, id, publish, target)
    ensures MovesTo(t, Queue(t, publish, target), id, t.jobs[id].(status := Queued, availableAt := t.now))
  {
    hide Sound, FindJobFor;
    FoundJobFor(t.jobs, publish, target);
    OneJob(t);
    RowFacts(t, id);
    assert SameTarget(t.jobs[id], t.jobs[FindJobFor(t.jobs, publish, target).value]);
  }

  lemma {:induction false} TargetsHaveJobs(t: Tables, publish: bool, target: Id)
    requires Sound(t) && if publish then target in t.deployments else target in t.runs
    ensures HasJob(t.jobs, publish, target)
  {
    hide JobRows, OneJobEach, UniqueKeys, HasJob, RunRows, DatasetRows, ConnectorRows, AppsSound, QueriesSound, GrantsSound;
  }

  /** In every reachable state: a finished upload queues job and row at once if the row waits for it, and else changes nothing. */
  lemma {:induction false} FinishedUploadIsQueued(steps: seq<Step>, elapsed: nat, tenant: Id, a: UserAction)
    requires a.FinishUpload? || a.FinishRelease?
    ensures var s := Exec(INITIAL, steps); var t, t' := Later(s.db, elapsed), Apply(s, User(elapsed, tenant, a)).db;
            var target := if a.FinishRelease? then a.deployment else a.run;
            if Awaits(t, a.FinishRelease?, tenant, target) then QueuedNow(t, t', a.FinishRelease?, target) else t' == t
  {
    hide Sound, Exec, Queue, QueuedNow;
    var t := Later(Exec(INITIAL, steps).db, elapsed);
    ReachableIsSound(steps, elapsed);
    var target := if a.FinishRelease? then a.deployment else a.run;
    if Awaits(t, a.FinishRelease?, tenant, target) { QueueLeaves(t, a.FinishRelease?, tenant, target); }
  }

  // ---------- claims, retries, imports

  /** A claim makes the job run under the worker's lease as its next attempt, and the worker holds what it was told. */
  lemma {:induction false} ClaimLeaves(t: Tables, kind: Kind, id: Id, w: Worker, lease: Time)
    requires Sound(t) && Claimable(t.jobs, t.now, kind, id)
    ensures var t', job, c := Take(t, id, w, lease), t.jobs[id], ClaimOf(t, id, w);
            && MovesTo(t, t', id, job.(status := Running, lease := Some(Lease(w, t.now + lease)), attempts := job.attempts + 1))
            && Holds(t'.jobs, c) && c.job == id && c.target == job.target && c.kind == kind && c.attempt == t'.jobs[id].attempts
  {
    hide Sound, OtherLive;
    RowFacts(t, id);
  }

  /** A retry puts job and run back, free and available after the delay, for the first two attempts of a held job. */
  lemma {:induction false} RetryLeaves(t: Tables, c: Claim, delay: Time)
    requires Sound(t)
    ensures if Holds(t.jobs, c) && t.jobs[c.job].attempts <= 2
            then MovesTo(t, Retry(t, c, delay), c.job, t.jobs[c.job].(status := Queued, lease := None, availableAt := t.now + delay))
            else Retry(t, c, delay) == t
  {
    hide Sound;
    if Holds(t.jobs, c) { RowFacts(t, c.job); }
  }

  /** A completed import: job and run succeeded, the run has the result, its dataset shows it, and nothing else changes. */
  lemma {:induction false} ImportLeaves(t: Tables, c: Claim, result: ImportResult)
    requires Sound(t)
    ensures var t' := CompleteImport(t, c, result);
            if Holds(t.jobs, c) && !t.jobs[c.job].cancelRequested && !t.jobs[c.job].kind.AppPublish? then
              var r := t.jobs[c.job].target;
              && r in t.runs && t.runs[r].dataset in t.datasets
              && t'.jobs == t.jobs[c.job := t.jobs[c.job].(status := Succeeded, lease := None)]
              && t'.runs == t.runs[r := t.runs[r].(status := Succeeded, result := Some(result))]
              && t'.datasets == t.datasets[t.runs[r].dataset :=
                   t.datasets[t.runs[r].dataset].(current := Some(Publication(result, t.runs[r].bytes)))]
              && t' == t.(jobs := t'.jobs, runs := t'.runs, datasets := t'.datasets)
            else t' == t
  {
    hide Sound;
    if Holds(t.jobs, c) && !t.jobs[c.job].kind.AppPublish? {
      RowFacts(t, c.job);
      RunFacts(t, t.jobs[c.job].target);
    }
  }

  /** The size of a fetched source is stored exactly when the other bytes of the tenant leave room and the job is held. */
  lemma {:induction false} BytesLeave(t: Tables, c: Claim, bytes: int)
    requires Sound(t) && ClaimFits(t, c) && ForRun(c.kind)
    ensures var r := SetConnectorRunBytes(t, c, bytes);
            var room := 0 <= bytes && StoredBytes(t.runs, t.deployments, c.tenant, Some(c.target)) + bytes <= 10 * 1024 * 1024 * 1024;
            if room && Holds(t.jobs, c)
            then r.1 == Ok(()) && c.target in t.runs && r.0 == t.(runs := t.runs[c.target := t.runs[c.target].(bytes := bytes)])
            else r == (t, Err(if room then LeaseLost else QuotaExceeded))
  {
    hide Sound, StoredBytes;
    if c.job in t.jobs { RowFacts(t, c.job); }
  }

  // ---------- connectors

  /** No other connector of the tenant has the slug or loads the dataset of that name. */
  ghost predicate Takeable(t: Tables, tenant: Id, slug: string, dataset: string)
  {
    forall other :: other in t.connectors && t.connectors[other].tenant == tenant ==>
      t.connectors[other].slug != slug && !NamedDataset(t.datasets, t.connectors[other].dataset, tenant, dataset)
  }

  /** A new connector loads the dataset of the name asked for, made if there is none, and is due at once. */
  lemma {:induction false} ConnectorCreated(t: Tables, tenant: Id, slug: string, dataset: string, enabled: bool, refreshMinutes: int)
    requires Sound(t)
    ensures var r := CreateConnector(t, tenant, slug, dataset, enabled, refreshMinutes); var t' := r.0;
            if !(1 <= refreshMinutes <= 7 * 24 * 60) then r == (t, Err(Rejected))
            else if !Takeable(t, tenant, slug, dataset) then r == (t, Err(Conflict))
            else
              && r.1.Ok? && r.1.value !in t.connectors && r.1.value in t'.connectors
              && var d := t'.connectors[r.1.value].dataset;
              && t'.connectors == t.connectors[r.1.value := Connector(tenant, d, slug, enabled, refreshMinutes, t.now)]
              && NamedDataset(t'.datasets, d, tenant, dataset)
              && t'.datasets == (if d in t.datasets then t.datasets else t.datasets[d := Dataset(tenant, dataset, None)])
              && t' == t.(connectors := t'.connectors, datasets := t'.datasets, nextId := t'.nextId)
  {
    hide Sound, FindDataset;
    var found := FindDataset(t.datasets, tenant, dataset);
    FoundDataset(t.datasets, tenant, dataset);
    Unused(t, t.nextId);
    Unused(t, t.nextId + 1);
    ConnectorsPoint(t);
    if found.Some? {
      forall d | NamedDataset(t.datasets, d, tenant, dataset) ensures d == found.value {
        NamedIsFound(t, d, tenant, dataset);
      }
    } else {
      NoSuchDataset(t.datasets, tenant, dataset);
    }
  }

  lemma {:induction false} NoSuchDataset(datasets: map<Id, Dataset>, tenant: Id, slug: string)
    requires FindDataset(datasets, tenant, slug).None?
    ensures forall d :: !NamedDataset(datasets, d, tenant, slug)
  {
  }

  /** An edit stores what was asked; an enabled connector is due now or was due before, a disabled one keeps its time. */
  lemma {:induction false} ConnectorEdited(t: Tables, id: Id, tenant: Id, slug: string, enabled: bool, refreshMinutes: int)
    requires Sound(t) && NamedConnector(t.connectors, id, tenant, slug)
    ensures var r := UpdateConnector(t, tenant, slug, enabled, refreshMinutes); var was := t.connectors[id];
            if !(1 <= refreshMinutes <= 7 * 24 * 60) then r == (t, Err(Rejected))
            else
              && r.1 == Ok(id) && id in r.0.connectors && r.0 == t.(connectors := t.connectors[id := r.0.connectors[id]])
              && var next := r.0.connectors[id].nextSyncAt;
              && r.0.connectors[id] == Connector(tenant, was.dataset, slug, enabled, refreshMinutes, next)
              && (enabled ==> next <= t.now && next <= was.nextSyncAt && (next == t.now || next == was.nextSyncAt))
              && (!enabled ==> next == was.nextSyncAt)
  {
    hide Sound, FindConnector;
    NamedIsFound(t, id, tenant, slug);
  }

  /** A connector is deleted unless a sync of its own is queued or running; its runs stay and forget it. */
  lemma {:induction false} ConnectorDropped(t: Tables, id: Id, tenant: Id, slug: string)
    requires Sound(t) && NamedConnector(t.connectors, id, tenant, slug)
    ensures var r := DeleteConnector(t, tenant, slug); var t' := r.0;
            if exists job {:trigger t.jobs[job]} :: job in t.jobs && (t.jobs[job].status.Queued? || t.jobs[job].status.Running?)
                                                  && SyncOf(t, t.jobs[job], id)
            then r == (t, Err(Conflict))
            else r.1 == Ok(()) && t' == t.(connectors := map c | c in t.connectors && c != id :: t.connectors[c],
                                           runs := map run | run in t.runs :: if t.runs[run].connector == Some(id)
                                                                              then t.runs[run].(connector := None) else t.runs[run])
  {
    hide Sound, FindConnector, ForgetConnectors;
    NamedIsFound(t, id, tenant, slug);
    Forgotten(t, id);
  }

  lemma {:induction false} Forgotten(t: Tables, id: Id)
    ensures t.connectors - {id} == map c | c in t.connectors && c != id :: t.connectors[c]
    ensures ForgetConnectors(t.runs, {id}) == map run | run in t.runs :: if t.runs[run].connector == Some(id)
                                                                         then t.runs[run].(connector := None) else t.runs[run]
  {
  }

  /** The job's run is one of the connector. */
  predicate SyncOf(t: Tables, job: Job, connector: Id)
  {
    !job.kind.AppPublish? && job.target in t.runs && t.runs[job.target].connector == Some(connector)
  }

  /** A sync is queued at once for a connector of the tenant, if fewer than 100 of its jobs wait or run and the key is new. */
  lemma {:induction false} SyncRequested(t: Tables, tenant: Id, connector: Id, key: Key)
    requires Sound(t)
    ensures var r := CreateConnectorJob(t, tenant, connector, key);
            if !(connector in t.connectors && t.connectors[connector].tenant == tenant) then r == (t, Err(NoRows))
            else if |ActiveJobs(t.jobs, tenant)| >= 100
                    || (exists id :: id in t.jobs && KeyedJob(t.jobs, id, tenant, ConnectorSync, key))
            then r == (t, Err(Conflict))
            else
              && r.1.Ok? && r.1.value !in t.jobs && r.1.value in r.0.jobs
              && var run := r.0.jobs[r.1.value].target;
              && run !in t.runs
              && r.0.jobs == t.jobs[r.1.value := Job(tenant, ConnectorSync, key, run, Queued, t.now, None, 0, false)]
              && r.0.runs == t.runs[run := SyncRun(tenant, t.connectors[connector].dataset, Some(connector), Queued, Json, 0, None)]
              && r.0 == t.(jobs := r.0.jobs, runs := r.0.runs, nextId := r.0.nextId)
  {
    hide Sound, FindJob;
    Unused(t, t.nextId);
    Unused(t, t.nextId + 1);
    NoneNamed(t, tenant, "", ConnectorSync, key);
    forall id | KeyedJob(t.jobs, id, tenant, ConnectorSync, key) ensures FindJob(t.jobs, tenant, ConnectorSync, key).Some? {
      KeyedIsFound(t, id, tenant, ConnectorSync, key);
    }
  }

  // ---------- saved queries

  /** The query of the slug shows the revision, which has the text and types. */
  predicate Saves(t: Tables, q: Id, tenant: Id, slug: string, revision: Id, sql: string, types: ParameterTypes)
  {
    && NamedQuery(t.queries, q, tenant, slug) && t.queries[q].current == Some(revision)
    && revision in t.revisions && t.revisions[revision].tenant == tenant && t.revisions[revision].query == q
    && t.revisions[revision].sql == sql && t.revisions[revision].types == types
  }

  /** After a save the query of the slug shows the text and types, and no other query and no older revision has changed. */
  lemma {:induction false} QuerySaved(t: Tables, tenant: Id, slug: string, sql: string, types: ParameterTypes) returns (q: Id)
    requires Sound(t)
    ensures var r := SaveQueryRevision(t, tenant, slug, sql, types); var t' := r.0;
            if r.1.Ok? then
              && Saves(t', q, tenant, slug, r.1.value, sql, types)
              && (forall other :: other in t.queries && other != q ==> other in t'.queries && t'.queries[other] == t.queries[other])
              && (forall rev :: rev in t.revisions ==> rev in t'.revisions && t'.revisions[rev] == t.revisions[rev])
              && (t' == t || (r.1.value !in t.revisions && t' == t.(queries := t'.queries, revisions := t'.revisions, nextId := t'.nextId)))
            else t' == t && !(1 <= |sql| <= 1024 * 1024)
  {
    hide Sound, SoundWhileGranting, FindQuery, RevisionSlots, QueryRows, Below, SaveRevision;
    var found := FindQuery(t.queries, tenant, slug);
    FoundQuery(t.queries, tenant, slug);
    SoundIsSoundWhileGranting(t);
    GrantingQueries(t);
    SaveCases(t, tenant, slug, sql, types);
    q := if found.Some? then found.value else t.nextId;
    if found.Some? { CurrentFacts(t, q); }
    Unused(t, t.nextId);
    Unused(t, t.nextId + 1);
  }

  /** A query is deleted, with all its revisions, unless a deployment has a grant on one or an unfinished publish names it. */
  lemma {:induction false} QueryDropped(t: Tables, id: Id, tenant: Id, slug: string)
    requires Sound(t) && NamedQuery(t.queries, id, tenant, slug)
    ensures var r := DeleteQuery(t, tenant, slug);
            if (exists g :: g in t.grants && GrantOn(t, g, tenant, id)) || (exists job :: job in t.jobs && Announces(t, t.jobs[job], tenant, slug))
            then r == (t, Err(Conflict))
            else r.1 == Ok(()) && r.0 == t.(queries := map q | q in t.queries && q != id :: t.queries[q],
                                            revisions := map rev | rev in t.revisions && t.revisions[rev].query != id :: t.revisions[rev])
  {
    hide Sound, FindQuery, QueryInUse;
    NamedIsFound(t, id, tenant, slug);
    InUseIff(t, id, tenant, slug);
    assert t.queries - {id} == map q | q in t.queries && q != id :: t.queries[q];
  }

  lemma {:induction false} InUseIff(t: Tables, id: Id, tenant: Id, slug: string)
    ensures QueryInUse(t, tenant, id, slug) <==>
            (exists g :: g in t.grants && GrantOn(t, g, tenant, id)) || (exists job :: job in t.jobs && Announces(t, t.jobs[job], tenant, slug))
  {
    if job: Id :| job in t.jobs && Announces(t, t.jobs[job], tenant, slug) {
      assert Declares(t.deployments[t.jobs[job].target].manifest, slug);
    }
  }

  predicate GrantOn(t: Tables, g: Grant, tenant: Id, query: Id)
  {
    g.tenant == tenant && g.revision in t.revisions && t.revisions[g.revision].query == query
  }

  /** A publish job that waits or runs, whose manifest has a query of the name. */
  predicate Announces(t: Tables, job: Job, tenant: Id, slug: string)
  {
    && job.kind.AppPublish? && (job.status.AwaitingUpload? || job.status.Queued? || job.status.Running?)
    && job.target in t.deployments && t.deployments[job.target].tenant == tenant
    && exists i :: 0 <= i < |t.deployments[job.target].manifest.queries| && t.deployments[job.target].manifest.queries[i].name == slug
  }

  // ---------- deployments

  /** A known key answers with its deployment if app, size, manifest and checksum are the same, and else with a conflict. */
  lemma {:induction false} ReleaseRepeated(t: Tables, id: Id, tenant: Id, m: Manifest, checksum: Checksum, bytes: int, key: Key)
    requires Sound(t) && KeyedJob(t.jobs, id, tenant, AppPublish, key)
    ensures var r := CreateDeployment(t, tenant, m, checksum, bytes, key); var d := t.jobs[id].target;
            && d in t.deployments && t.deployments[d].app in t.apps
            && r == (t, if t.apps[t.deployments[d].app].slug == m.app.slug && t.deployments[d].bytes == bytes
                           && t.deployments[d].manifest == m && t.deployments[d].checksum == checksum
                        then Ok(d) else Err(Conflict))
  {
    hide Sound, FindJob, FindApp, QuotaAllows, DeploymentSlots;
    KeyedIsFound(t, id, tenant, AppPublish, key);
    RowFacts(t, id);
    DeploymentsApp(t, t.jobs[id].target);
  }

  /**
   A new deployment follows the one its app shows, as a version above all others of the app, and waits with its job for the
   bytes; an app that is not there is made, and shows nothing.
  */
  lemma {:induction false} ReleaseCreated(t: Tables, tenant: Id, m: Manifest, checksum: Checksum, bytes: int, key: Key)
    requires Sound(t) && forall id :: !KeyedJob(t.jobs, id, tenant, AppPublish, key)
    ensures var r := CreateDeployment(t, tenant, m, checksum, bytes, key); var t' := r.0;
            var room := 0 <= bytes && StoredBytes(t.runs, t.deployments, tenant, None) + bytes <= 10 * 1024 * 1024 * 1024;
            if !room then r == (t, Err(QuotaExceeded))
            else if !(1 <= bytes <= 25 * 1024 * 1024) then r == (t, Err(Rejected))
            else
              && r.1.Ok? && r.1.value !in t.deployments && r.1.value in t'.deployments
              && var d := t'.deployments[r.1.value];
              && NamedApp(t'.apps, d.app, tenant, m.app.slug)
              && t'.apps == (if d.app in t.apps then t.apps else t.apps[d.app := App(tenant, m.app.slug, None)])
              && d == Deployment(tenant, d.app, t'.apps[d.app].current, d.version, AwaitingUpload, checksum, bytes, m)
              && (forall other :: other in t.deployments && t.deployments[other].app == d.app ==> t.deployments[other].version < d.version)
              && t'.deployments == t.deployments[r.1.value := d]
              && (exists job: Id :: job !in t.jobs &&
                    t'.jobs == t.jobs[job := Job(tenant, AppPublish, key, r.1.value, AwaitingUpload, t.now, None, 0, false)])
              && t' == t.(apps := t'.apps, deployments := t'.deployments, jobs := t'.jobs, nextId := t'.nextId)
  {
    hide Sound, FindJob, FindApp, StoredBytes, DeploymentSlots;
    NoneNamed(t, tenant, m.app.slug, AppPublish, key);
    FoundApp(t.apps, tenant, m.app.slug);
    Unused(t, t.nextId);
    Unused(t, t.nextId + 1);
    Unused(t, t.nextId + 2);
    var found := FindApp(t.apps, tenant, m.app.slug);
    NextIsAbove(t.deployments, if found.Some? then found.value else t.nextId);
  }

  // ---------- deletions

  /** The job's run is one of the dataset. */
  predicate Loads(t: Tables, job: Job, dataset: Id)
  {
    !job.kind.AppPublish? && job.target in t.runs && t.runs[job.target].dataset == dataset
  }

  /** A dataset goes with its connectors, runs and their jobs, unless one of the jobs waits or runs; runs of others forget its connectors. */
  lemma {:induction false} DatasetDropped(t: Tables, id: Id, tenant: Id, slug: string, dropped: bool)
    requires Sound(t) && NamedDataset(t.datasets, id, tenant, slug)
    ensures var r := DeleteDataset(t, tenant, slug, dropped); var t' := r.0;
            if exists job {:trigger t.jobs[job]} :: job in t.jobs && Loads(t, t.jobs[job], id) && t.jobs[job].status.Active() then r == (t, Err(Conflict))
            else if !dropped then r == (t, Err(Rejected))
            else
              && r.1 == Ok(()) && t' == t.(datasets := t'.datasets, connectors := t'.connectors, runs := t'.runs, jobs := t'.jobs)
              && t'.datasets == (map d | d in t.datasets && d != id :: t.datasets[d])
              && t'.connectors == (map c | c in t.connectors && t.connectors[c].dataset != id :: t.connectors[c])
              && t'.jobs == (map job | job in t.jobs && !Loads(t, t.jobs[job], id) :: t.jobs[job])
              && t'.runs.Keys == (set run | run in t.runs && t.runs[run].dataset != id)
              && (forall run :: run in t'.runs ==>
                    t'.runs[run] == t.runs[run].(connector := if t.runs[run].connector.Some? && t.runs[run].connector.value in t.connectors
                                                                && t.connectors[t.runs[run].connector.value].dataset == id
                                                              then None else t.runs[run].connector))
  {
    hide Sound, FindDataset;
    NamedIsFound(t, id, tenant, slug);
  }

  /** The job publishes a deployment of the app. */
  predicate Publishes(t: Tables, job: Job, app: Id)
  {
    job.kind.AppPublish? && job.target in t.deployments && t.deployments[job.target].app == app
  }

  /** An app goes with its deployments, their grants and jobs, unless one of the jobs waits or runs. */
  lemma {:induction false} AppDropped(t: Tables, id: Id, tenant: Id, slug: string)
    requires Sound(t) && NamedApp(t.apps, id, tenant, slug)
    ensures var r := DeleteApp(t, tenant, slug); var t' := r.0;
            if exists job {:trigger t.jobs[job]} :: job in t.jobs && Publishes(t, t.jobs[job], id) && t.jobs[job].status.Active() then r == (t, Err(Conflict))
            else
              && r.1 == Ok(()) && t' == t.(apps := t'.apps, deployments := t'.deployments, grants := t'.grants, jobs := t'.jobs)
              && t'.apps == (map a | a in t.apps && a != id :: t.apps[a])
              && t'.deployments == (map d | d in t.deployments && t.deployments[d].app != id :: t.deployments[d])
              && t'.grants == (set g | g in t.grants && !(g.deployment in t.deployments && t.deployments[g.deployment].app == id))
              && t'.jobs == (map job | job in t.jobs && !Publishes(t, t.jobs[job], id) :: t.jobs[job])
  {
    hide Sound, FindApp;
    NamedIsFound(t, id, tenant, slug);
  }
}
