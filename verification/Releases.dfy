/** Deployments over whole runs: pinned queries, the current deployment, version numbers and the rollback chain. */
module Releases {
  import opened Wrappers
  import opened Schema
  import opened Transitions
  import opened Consistency
  import opened QueriesStaySound
  import opened Protocol
  import opened SoundRuns
  import opened Evolution
  import opened Safety
  import opened Guarantees
  import Numbering

  // ---------- what the runtime reads

  /** A row of the join in RuntimeQuery. */
  ghost predicate RuntimeRow(t: Tables, tenant: Id, d: Id, name: string, r: Id)
  {
    && Grant(tenant, d, r) in t.grants
    && r in t.revisions && t.revisions[r].tenant == tenant
    && t.revisions[r].query in t.queries && t.queries[t.revisions[r].query].tenant == tenant
    && t.queries[t.revisions[r].query].slug == name
  }

  ghost function RuntimeQuery(t: Tables, tenant: Id, d: Id, name: string): (r: Option<Id>)
    ensures r.Some? ==> RuntimeRow(t, tenant, d, name, r.value)
    ensures r.None? ==> forall row :: !RuntimeRow(t, tenant, d, name, row)
  {
    if exists row :: RuntimeRow(t, tenant, d, name, row)
    then var row :| RuntimeRow(t, tenant, d, name, row); Some(row) else None
  }

  lemma {:induction false} RuntimeRowsResolve(t: Tables, d: Id, name: string, r: Id)
    requires Sound(t) && d in t.deployments
    ensures RuntimeRow(t, t.deployments[d].tenant, d, name, r) <==> Resolves(t, d, name, r)
  {
    hide Bounded, JobsSound, RunRows, DatasetRows, ConnectorRows, AppsSound;
    if Resolves(t, d, name, r) {
      var g :| g in t.grants && g.deployment == d && g.revision == r;
      assert GrantRow(g, t.deployments, t.revisions);
    }
  }

  /** The join has at most one row, so the answer is that row. */
  lemma {:induction false} RuntimeQueryIsTheRow(t: Tables, d: Id, name: string)
    requires Sound(t) && d in t.deployments
    ensures var answer := RuntimeQuery(t, t.deployments[d].tenant, d, name);
            forall r: Id :: Resolves(t, d, name, r) <==> answer == Some(r)
  {
    hide Sound, Resolves, RuntimeRow, SoundWhileGranting;
    SoundIsSoundWhileGranting(t);
    var answer := RuntimeQuery(t, t.deployments[d].tenant, d, name);
    if answer.Some? { RuntimeRowsResolve(t, d, name, answer.value); }
    forall r: Id | Resolves(t, d, name, r) ensures answer == Some(r) {
      RuntimeRowsResolve(t, d, name, r);
      ResolutionIsUnique(t, d, name, answer.value, r);
    }
  }

  // ---------- steps keep pins

  predicate SameQueries(t: Tables, t': Tables)
  {
    t'.grants == t.grants && t'.queries == t.queries && t'.revisions == t.revisions
  }

  lemma {:induction false} UploadsLeaveQueries(t: Tables, tenant: Id, slug: string, format: Format, bytes: int, key: Key)
    ensures SameQueries(t, CreateDatasetUpload(t, tenant, slug, format, bytes, key).0)
  {
    hide FindJob, FindDataset, QuotaAllows;
  }

  lemma {:induction false} UploadActs(t: Tables, tenant: Id, a: UserAction)
    requires a.CreateUpload?
    ensures ActUser(t, tenant, a) == CreateDatasetUpload(t, tenant, a.slug, a.format, a.bytes, a.key).0
  {
    hide CreateDatasetUpload;
  }

  lemma {:induction false} ImportsLeaveQueries(t: Tables, tenant: Id, a: UserAction)
    requires a.FinishUpload? || a.Cancel?
    ensures SameQueries(t, ActUser(t, tenant, a))
  {
    hide Queue, CancelJob;
    match a
    case FinishUpload(run) => QueueLeavesQueries(t, false, run);
    case Cancel(id) => CancelLeavesQueries(t, tenant, id);
  }

  lemma {:induction false} QueueLeavesQueries(t: Tables, publish: bool, target: Id)
    ensures SameQueries(t, Queue(t, publish, target))
  {
    hide FindJobFor, WithRunStatus, WithDeploymentStatus;
  }

  lemma {:induction false} CancelLeavesQueries(t: Tables, tenant: Id, id: Id)
    ensures SameQueries(t, CancelJob(t, tenant, id).0)
  {
    hide WithRunStatus, WithDeploymentStatus;
  }

  lemma {:induction false} DatasetsLeaveQueries(t: Tables, tenant: Id, a: UserAction)
    requires a.DropDataset?
    ensures SameQueries(t, ActUser(t, tenant, a))
  {
    hide FindDataset, DatasetBusy, ForgetConnectors;
  }

  lemma {:induction false} ConnectorsLeaveQueries(t: Tables, tenant: Id, a: UserAction)
    requires a.NewConnector? || a.EditConnector? || a.DropConnector? || a.SyncNow?
    ensures SameQueries(t, ActUser(t, tenant, a))
  {
    if a.NewConnector? || a.EditConnector? {
      hide FindDataset, FindConnector, CreateConnectorJob, DeleteConnector;
    } else {
      hide FindJob, FindConnector, QueueFull, ForgetConnectors, CreateConnector, UpdateConnector;
    }
  }

  lemma {:induction false} ReleasesLeaveQueries(t: Tables, tenant: Id, a: UserAction)
    requires a.CreateRelease? || a.FinishRelease? || a.RollBack?
    ensures SameQueries(t, ActUser(t, tenant, a))
  {
    if a.CreateRelease? {
      hide FindJob, FindApp, QuotaAllows, DeploymentSlots;
    } else {
      hide FindJobFor, WithRunStatus, WithDeploymentStatus, CreateDeployment;
    }
  }

  lemma {:induction false} UserPins(t: Tables, tenant: Id, a: UserAction, d: Id)
    requires Sound(t) && d in ActUser(t, tenant, a).deployments
    ensures Pinned(t, ActUser(t, tenant, a), d)
  {
    if a.SaveQuery? {
      hide Sound, Pinned, SaveQueryRevision;
      SaveQueryRevisionPins(t, tenant, a.slug, a.sql, a.types, d);
    } else if a.DropQuery? {
      hide Sound, Pinned, DeleteQuery;
      DeleteQueryPins(t, tenant, a.slug, d);
    } else if a.DropApp? {
      hide Sound, Pinned, DeleteApp;
      DeleteAppPins(t, tenant, a.slug, d);
    } else {
      hide Sound, Pinned, ActUser;
      if a.CreateUpload? {
        UploadsLeaveQueries(t, tenant, a.slug, a.format, a.bytes, a.key);
        UploadActs(t, tenant, a);
      } else if a.FinishUpload? || a.Cancel? {
        ImportsLeaveQueries(t, tenant, a);
      } else if a.DropDataset? {
        DatasetsLeaveQueries(t, tenant, a);
      } else if a.CreateRelease? || a.FinishRelease? || a.RollBack? {
        ReleasesLeaveQueries(t, tenant, a);
      } else {
        ConnectorsLeaveQueries(t, tenant, a);
      }
      SameGrantsSameResolution(t, ActUser(t, tenant, a), d);
    }
  }

  lemma {:induction false} WorkLeavesQueries(s: System, w: Worker, a: WorkerAction)
    requires Enabled(s, w, a) && !a.PublishRelease?
    ensures SameQueries(s.db, ActWorker(s, w, a).db)
  {
    hide FromManifest, OtherLive, EnqueueDueConnector, Take, Heartbeat, SetConnectorRunBytes, CompleteImport,
         CancelClaimed, Retry, Fail, CompletePublish;
    var t := s.db;
    var me := At(s, w);
    match a
    case Enqueue(connector) => EnqueueLeavesQueries(t, connector);
    case ClaimJob(_, id, lease) => TakeLeavesQueries(t, id, w, lease);
    case RenewBeat(lease, _) => EndLeavesQueries(t, me.claim, lease, 0);
    case SetBytes(bytes) => BytesLeaveQueries(t, me.claim, bytes);
    case PublishSnapshot(result, _) => SnapshotLeavesQueries(t, me.claim, result);
    case CancelMine => EndLeavesQueries(t, me.claim, 0, 0);
    case RetryMine(delay) => EndLeavesQueries(t, me.claim, 0, delay);
    case FailMine => EndLeavesQueries(t, me.claim, 0, 0);
    case _ =>
  }

  lemma {:induction false} EnqueueLeavesQueries(t: Tables, id: Id)
    ensures SameQueries(t, EnqueueDueConnector(t, id).0)
  {
    hide CreateConnectorJob, QueueFull;
    if Due(t, id) { SyncLeavesQueries(t, t.connectors[id].tenant, id, Scheduled(id, t.connectors[id].nextSyncAt)); }
  }

  lemma {:induction false} SyncLeavesQueries(t: Tables, tenant: Id, connector: Id, key: Key)
    ensures SameQueries(t, CreateConnectorJob(t, tenant, connector, key).0)
  {
    hide FindJob, QueueFull;
  }

  lemma {:induction false} TakeLeavesQueries(t: Tables, id: Id, worker: Worker, lease: Time)
    requires id in t.jobs
    ensures SameQueries(t, Take(t, id, worker, lease))
  {
    hide WithRunStatus, WithDeploymentStatus;
  }

  lemma {:induction false} BytesLeaveQueries(t: Tables, c: Claim, bytes: int)
    ensures SameQueries(t, SetConnectorRunBytes(t, c, bytes).0)
  {
    hide QuotaAllows;
  }

  lemma {:induction false} SnapshotLeavesQueries(t: Tables, c: Claim, result: ImportResult)
    ensures SameQueries(t, CompleteImport(t, c, result))
  {
    hide WithDeploymentStatus;
  }

  lemma {:induction false} EndLeavesQueries(t: Tables, c: Claim, lease: Time, delay: Time)
    ensures SameQueries(t, Heartbeat(t, c, lease)) && SameQueries(t, Fail(t, c)) && SameQueries(t, CancelClaimed(t, c))
    ensures SameQueries(t, Retry(t, c, delay))
  {
    hide WithRunStatus, WithDeploymentStatus, Holds;
  }

  lemma {:induction false} WorkPins(s: System, w: Worker, a: WorkerAction, d: Id)
    requires Sound(s.db) && ClaimsFit(s) && Enabled(s, w, a)
    requires d in s.db.deployments && s.db.deployments[d].status.Succeeded?
    ensures Pinned(s.db, ActWorker(s, w, a).db, d)
  {
    hide Sound, Pinned, FromManifest, CompletePublish, EnqueueDueConnector, SetConnectorRunBytes, CompleteImport,
         Retry, Take;
    if a.PublishRelease? {
      var c := At(s, w).claim;
      if PublishCompletes(s.db, c) {
        ManifestNamesDistinct(s.db.deployments[c.target].manifest, a.queries);
        CompletePublishPins(s.db, c, a.queries, d);
      } else {
        CompletePublishRefused(s.db, c, a.queries);
        SameGrantsSameResolution(s.db, s.db, d);
      }
    } else {
      WorkLeavesQueries(s, w, a);
      SameGrantsSameResolution(s.db, ActWorker(s, w, a).db, d);
    }
  }

  // ---------- pins over runs

  /** Succeeded, or deleted with its app. */
  ghost predicate Settled(t: Tables, d: Id)
  {
    d < t.nextId && (d in t.deployments ==> t.deployments[d].status.Succeeded?)
  }

  lemma {:induction false} EvolvesSettled(t: Tables, t': Tables, d: Id)
    requires Settled(t, d) && t.nextId <= t'.nextId && DeploymentsEvolve(t.deployments, t'.deployments, t'.apps, t.nextId)
    ensures Settled(t', d)
    ensures d in t'.deployments ==> d in t.deployments && t'.deployments[d] == t.deployments[d]
  {
  }

  lemma {:induction false} StepPins(s: System, step: Step, d: Id)
    requires Safe(s) && Settled(s.db, d)
    ensures Settled(Apply(s, step).db, d)
    ensures d in Apply(s, step).db.deployments ==>
              && d in s.db.deployments && Apply(s, step).db.deployments[d] == s.db.deployments[d]
              && Pinned(s.db, Apply(s, step).db, d)
  {
    hide Safe, Evolves, ActUser, ActWorker, Enabled, JobsEvolve, DeploymentsEvolve, Pinned, Settled;
    var s1 := s.(db := Later(s.db, step.elapsed));
    LaterStaysSafe(s, step.elapsed);
    SafeParts(s1);
    SettledLater(s.db, step.elapsed, d);
    SameGrantsSameResolution(s.db, s1.db, d);
    match step
    case User(_, tenant, action) =>
      UserEvolves(s1.db, tenant, action);
      EvolvesParts(s1.db, ActUser(s1.db, tenant, action), None, None);
      EvolvesSettled(s1.db, ActUser(s1.db, tenant, action), d);
      if d in ActUser(s1.db, tenant, action).deployments {
        UserPins(s1.db, tenant, action, d);
        PinnedTrans(s.db, s1.db, ActUser(s1.db, tenant, action), d);
      }
    case Work(_, w, work) =>
      if Enabled(s1, w, work) {
        var t' := ActWorker(s1, w, work).db;
        WorkEvolves(s1, w, work);
        EvolvesParts(s1.db, t', ClaimedBy(work), PublishedBy(s1, w, work));
        EvolvesSettled(s1.db, t', d);
        if d in t'.deployments {
          SettledStatus(s1.db, d);
          WorkPins(s1, w, work, d);
          PinnedTrans(s.db, s1.db, t', d);
        }
      }
  }

  lemma {:induction false} SettledLater(t: Tables, elapsed: nat, d: Id)
    requires Settled(t, d)
    ensures Settled(Later(t, elapsed), d)
  {
  }

  lemma {:induction false} SettledStatus(t: Tables, d: Id)
    requires Settled(t, d) && d in t.deployments
    ensures t.deployments[d].status.Succeeded?
  {
  }

  lemma {:induction false} RunPins(s: System, steps: seq<Step>, d: Id)
    requires Safe(s) && Settled(s.db, d)
    ensures d in Exec(s, steps).db.deployments ==>
              && d in s.db.deployments && Exec(s, steps).db.deployments[d] == s.db.deployments[d]
              && Pinned(s.db, Exec(s, steps).db, d)
    decreases |steps|
  {
    hide Safe, Apply, Pinned, Settled;
    if steps == [] {
      SameGrantsSameResolution(s.db, s.db, d);
    } else {
      var s1 := Apply(s, steps[0]);
      StepStaysSafe(s, steps[0]);
      StepPins(s, steps[0], d);
      RunPins(s1, steps[1..], d);
      if d in Exec(s, steps).db.deployments { PinnedTrans(s.db, s1.db, Exec(s1, steps[1..]).db, d); }
    }
  }

  /** The revision a name resolves to, or nothing. */
  ghost predicate Answers(t: Tables, d: Id, name: string, queries: seq<PublishedQuery>)
    requires d in t.deployments
  {
    var answer := RuntimeQuery(t, t.deployments[d].tenant, d, name);
    if exists q :: q in queries && q.name == name
    then answer.Some? && answer.value in t.revisions
         && forall q :: q in queries && q.name == name ==> t.revisions[answer.value].sql == q.sql && t.revisions[answer.value].types == q.types
    else answer.None?
  }

  /**
   A worker's publish takes effect after the steps before, then anything happens. As long as the deployment is
   there, RuntimeQuery gives each declared name the SQL and types published for it and refuses every other name.
  */
  lemma {:induction false} GrantsArePinned(before: seq<Step>, w: Worker, queries: seq<PublishedQuery>, replyLost: bool, after: seq<Step>, name: string)
    requires var s := Exec(INITIAL, before);
             Enabled(s, w, PublishRelease(queries, replyLost)) && CompletePublish(s.db, At(s, w).claim, queries).1.Ok?
    requires var s := Exec(INITIAL, before);
             At(s, w).claim.target in Exec(Apply(s, Work(0, w, PublishRelease(queries, replyLost))), after).db.deployments
    ensures var s := Exec(INITIAL, before);
            Answers(Exec(Apply(s, Work(0, w, PublishRelease(queries, replyLost))), after).db, At(s, w).claim.target, name, queries)
  {
    hide Safe, Exec, CompletePublish, FromManifest, Declared, Pinned, Answers, Settled;
    var s := Exec(INITIAL, before);
    var step := Work(0, w, PublishRelease(queries, replyLost));
    ReachableIsSafe(before);
    SafeParts(s);
    assert s.(db := Later(s.db, 0)) == s;
    var c := At(s, w).claim;
    ClaimWorker(s, w);
    PublishCompleted(s.db, c, queries);
    ManifestNamesDistinct(s.db.deployments[c.target].manifest, queries);
    CompletePublishDeclares(s.db, c, queries);
    StepStaysSafe(s, step);
    var s1 := Apply(s, step);
    assert s1.db == CompletePublish(s.db, c, queries).0;
    ReleaseSettles(s.db, c, queries);
    var s2 := Exec(s1, after);
    RunPins(s1, after, c.target);
    RunStaysSafe(s1, after);
    SafeParts(s2);
    DeclaredAnswers(s1.db, s2.db, c.target, queries, name);
  }

  lemma {:induction false} PublishCompleted(t: Tables, c: Claim, queries: seq<PublishedQuery>)
    requires ClaimFits(t, c) && CompletePublish(t, c, queries).1.Ok?
    ensures PublishCompletes(t, c) && c.target == t.jobs[c.job].target
  {
    if !PublishCompletes(t, c) { CompletePublishRefused(t, c, queries); }
  }

  lemma {:induction false} ReleaseSettles(t: Tables, c: Claim, queries: seq<PublishedQuery>)
    requires Sound(t) && DistinctNames(queries) && CompletePublish(t, c, queries).1.Ok?
    ensures Settled(CompletePublish(t, c, queries).0, t.jobs[c.job].target)
  {
    hide Sound, GrantAll;
    var t' := CompletePublish(t, c, queries).0;
    GrantAllLeavesJobs(t, c.tenant, t.jobs[c.job].target, queries);
    CompletePublishKeeps(t, c, queries);
    DeploymentBelow(t', t.jobs[c.job].target);
  }

  lemma {:induction false} DeploymentBelow(t: Tables, d: Id)
    requires Sound(t) && d in t.deployments
    ensures d < t.nextId
  {
    hide JobsSound, RunRows, DatasetRows, ConnectorRows, AppsSound, QueriesSound, GrantsSound;
  }

  lemma {:induction false} DeclaredAnswers(t: Tables, t': Tables, d: Id, queries: seq<PublishedQuery>, name: string)
    requires Declared(t, d, queries) && DistinctNames(queries) && Pinned(t, t', d) && Sound(t') && d in t'.deployments
    ensures Answers(t', d, name, queries)
  {
    hide Sound;
    RuntimeQueryIsTheRow(t', d, name);
    assert SameResolution(t, t', d, name);
    if exists q :: q in queries && q.name == name {
      forall q | q in queries && q.name == name
        ensures exists r: Id :: Resolves(t', d, name, r) && t'.revisions[r].sql == q.sql && t'.revisions[r].types == q.types {
        assert ResolvesTo(t, d, q);
      }
    } else {
      assert Unnamed(t, d, name);
    }
  }

  // ---------- the current deployment

  /** An app runs nothing, or a succeeded deployment of its own; the runtime's status check never hides it. */
  lemma {:induction false} CurrentIsReleased(steps: seq<Step>, app: Id)
    requires app in Exec(INITIAL, steps).db.apps && Exec(INITIAL, steps).db.apps[app].current.Some?
    ensures var t := Exec(INITIAL, steps).db; var d := t.apps[app].current.value;
            && d in t.deployments && t.deployments[d].status.Succeeded?
            && t.deployments[d].app == app && t.deployments[d].tenant == t.apps[app].tenant
  {
    hide Sound, Exec, ClaimsFit, Fenced, Shown, PublishedFinal, PublishedOnce;
    ReachableIsSafe(steps);
    CurrentFact(Exec(INITIAL, steps).db, app);
  }

  lemma {:induction false} CurrentFact(t: Tables, app: Id)
    requires Sound(t) && app in t.apps
    ensures CurrentOk(app, t.apps[app], t.deployments)
  {
    hide Bounded, JobsSound, RunRows, DatasetRows, ConnectorRows, QueriesSound, GrantsSound;
  }

  // ---------- version numbers

  /** Deployment versions of an app are exactly 1 to n, each once. */
  lemma {:induction false} DeploymentVersions(steps: seq<Step>, app: Id)
    ensures var slots := DeploymentSlots(Exec(INITIAL, steps).db.deployments);
            && (forall v: nat :: v in Numbering.VersionsOf(slots, app) <==> 1 <= v < Numbering.Next(slots, app))
            && (forall a, b :: a in slots && b in slots && slots[a] == slots[b] ==> a == b)
  {
    hide Sound, Exec, ClaimsFit, Fenced, Shown, PublishedFinal, PublishedOnce;
    ReachableIsSafe(steps);
    NumberedRows(Exec(INITIAL, steps).db);
    Numbering.VersionsAreOneToN(DeploymentSlots(Exec(INITIAL, steps).db.deployments), app);
  }

  lemma {:induction false} NumberedRows(t: Tables)
    requires Sound(t)
    ensures Numbering.Numbered(DeploymentSlots(t.deployments)) && Numbering.Numbered(RevisionSlots(t.revisions))
    ensures forall d :: d in t.deployments ==> PreviousOk(t.deployments[d], t.deployments)
    ensures QueryRows(t.queries, t.revisions) && RevisionRows(t.revisions, t.queries)
  {
    hide Bounded, JobsSound, RunRows, DatasetRows, ConnectorRows, GrantsSound;
  }

  /** Revision versions of a query are 1 to n; it points at n; neighbours differ in SQL or types. */
  lemma {:induction false} RevisionVersions(steps: seq<Step>, query: Id)
    requires query in Exec(INITIAL, steps).db.queries
    ensures var t := Exec(INITIAL, steps).db; var slots := RevisionSlots(t.revisions);
            && (forall v: nat :: v in Numbering.VersionsOf(slots, query) <==> 1 <= v < Numbering.Next(slots, query))
            && (forall a, b :: a in slots && b in slots && slots[a] == slots[b] ==> a == b)
            && QueryCurrent(query, t.queries[query], t.revisions)
            && t.revisions[t.queries[query].current.value].version == Numbering.Next(slots, query) - 1
            && (forall a, b | a in t.revisions && b in t.revisions && Follows(t.revisions[a], t.revisions[b]) ::
                  !SameText(t.revisions[a], t.revisions[b]))
  {
    hide Sound, Exec, ClaimsFit, Fenced, Shown, PublishedFinal, PublishedOnce;
    ReachableIsSafe(steps);
    var t := Exec(INITIAL, steps).db;
    NumberedRows(t);
    CurrentIsHighest(t.queries, t.revisions, query);
    Numbering.VersionsAreOneToN(RevisionSlots(t.revisions), query);
  }

  lemma {:induction false} CurrentIsHighest(queries: map<Id, Query>, revisions: map<Id, Revision>, query: Id)
    requires QueryRows(queries, revisions) && RevisionRows(revisions, queries) && query in queries
    ensures QueryCurrent(query, queries[query], revisions)
    ensures revisions[queries[query].current.value].version == Numbering.Next(RevisionSlots(revisions), query) - 1
  {
    var slots := RevisionSlots(revisions);
    var top := Numbering.Next(slots, query) - 1;
    var current := queries[query].current.value;
    assert slots[current].version in Numbering.VersionsOf(slots, query);
    assert slots[current].version >= 1;
    var id :| id in slots && slots[id].owner == query && slots[id].version == top;
  }

  // ---------- the rollback chain

  ghost predicate Chained(deployments: map<Id, Deployment>)
  {
    forall d :: d in deployments ==> PreviousOk(deployments[d], deployments)
  }

  /** A deployment, the one it replaced, the one that replaced, and so on. */
  ghost function Chain(deployments: map<Id, Deployment>, d: Id): (chain: seq<Id>)
    requires Chained(deployments) && d in deployments
    ensures |chain| > 0
    decreases deployments[d].version
  {
    assert PreviousOk(deployments[d], deployments);
    match deployments[d].previous
    case None => [d]
    case Some(p) => [d] + Chain(deployments, p)
  }

  /** All of one app, each of a lower version than the one before it. */
  ghost predicate Descends(deployments: map<Id, Deployment>, chain: seq<Id>, app: Id)
  {
    && (forall i :: 0 <= i < |chain| ==> chain[i] in deployments && deployments[chain[i]].app == app)
    && (forall i, j :: 0 <= i < j < |chain| ==> deployments[chain[j]].version < deployments[chain[i]].version)
  }

  lemma {:induction false} Prepend(deployments: map<Id, Deployment>, d: Id, rest: seq<Id>)
    requires d in deployments && Descends(deployments, rest, deployments[d].app)
    requires |rest| > 0 && deployments[rest[0]].version < deployments[d].version
    ensures Descends(deployments, [d] + rest, deployments[d].app)
  {
    var chain := [d] + rest;
    forall i | 0 <= i < |chain| ensures chain[i] in deployments && deployments[chain[i]].app == deployments[d].app {
      assert i > 0 ==> chain[i] == rest[i - 1];
    }
    forall i, j | 0 <= i < j < |chain| ensures deployments[chain[j]].version < deployments[chain[i]].version {
      assert chain[j] == rest[j - 1];
      assert i > 0 ==> chain[i] == rest[i - 1];
      assert deployments[rest[j - 1]].version <= deployments[rest[0]].version;
    }
  }

  lemma {:induction false} ChainDescends(deployments: map<Id, Deployment>, d: Id)
    requires Chained(deployments) && d in deployments
    ensures Descends(deployments, Chain(deployments, d), deployments[d].app)
    ensures Chain(deployments, d)[0] == d
    decreases deployments[d].version
  {
    hide Descends;
    assert PreviousOk(deployments[d], deployments);
    match deployments[d].previous
    case None => OneLink(deployments, d);
    case Some(p) =>
      ChainDescends(deployments, p);
      Prepend(deployments, d, Chain(deployments, p));
  }

  lemma {:induction false} OneLink(deployments: map<Id, Deployment>, d: Id)
    requires d in deployments
    ensures Descends(deployments, [d], deployments[d].app)
  {
  }

  /** In every reachable state the chain of previous deployments stays in the app, goes down in version and ends. */
  lemma {:induction false} RollbackChainEnds(steps: seq<Step>, d: Id)
    requires d in Exec(INITIAL, steps).db.deployments
    ensures var deployments := Exec(INITIAL, steps).db.deployments;
            && Chained(deployments)
            && |Chain(deployments, d)| <= deployments[d].version
            && Descends(deployments, Chain(deployments, d), deployments[d].app)
  {
    hide Sound, Exec, ClaimsFit, Fenced, Shown, PublishedFinal, PublishedOnce;
    ReachableIsSafe(steps);
    var deployments := Exec(INITIAL, steps).db.deployments;
    NumberedRows(Exec(INITIAL, steps).db);
    ChainDescends(deployments, d);
    ChainIsShort(deployments, d);
  }

  lemma {:induction false} ChainIsShort(deployments: map<Id, Deployment>, d: Id)
    requires Chained(deployments) && Numbering.Numbered(DeploymentSlots(deployments)) && d in deployments
    ensures |Chain(deployments, d)| <= deployments[d].version
    decreases deployments[d].version
  {
    assert DeploymentSlots(deployments)[d].version >= 1;
    assert PreviousOk(deployments[d], deployments);
    if deployments[d].previous.Some? { ChainIsShort(deployments, deployments[d].previous.value); }
  }
}
