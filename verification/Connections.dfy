/**
 A sync in the queue or running has its connector, so that the query of runConnector for its details answers
 with a row exactly when the worker holds the job.
*/
module Connections {
  import opened Wrappers
  import opened Manifests
  import opened Schema
  import opened Transitions
  import opened Consistency
  import opened JobsStaySound
  import opened RowsStaySound
  import opened Protocol
  import opened SoundRuns
  import opened Evolution
  import opened Safety
  import opened Guarantees
  import opened Schedule
  import opened Databases
  import Currents

  predicate Unfinished(job: Job) { job.kind.ConnectorSync? && (job.status.Queued? || job.status.Running?) }

  /** A run's connector exists, for the run's tenant and dataset; a sync never waits for an upload, and has a connector until it ends. */
  ghost predicate Linked(t: Tables)
  {
    && (forall r :: r in t.runs && t.runs[r].connector.Some? ==>
          var c := t.runs[r].connector.value;
          c in t.connectors && t.connectors[c].dataset == t.runs[r].dataset && t.connectors[c].tenant == t.runs[r].tenant)
    && (forall id :: id in t.jobs && Unfinished(t.jobs[id]) ==> t.jobs[id].target in t.runs && t.runs[t.jobs[id].target].connector.Some?)
    && (forall id :: id in t.jobs && t.jobs[id].kind.ConnectorSync? ==> !t.jobs[id].status.AwaitingUpload?)
  }

  // ---------- transactions that make no sync

  /** Runs keep their connector, a new run has none, and no sync is new. */
  ghost predicate MakesNoSync(t: Tables, t': Tables)
  {
    && (forall r :: r in t'.runs ==> t'.runs[r].connector == if r in t.runs then t.runs[r].connector else None)
    && (forall id :: id in t'.jobs && t'.jobs[id].kind.ConnectorSync? ==> id in t.jobs && t.jobs[id].kind.ConnectorSync?)
  }

  /** Connectors are kept, with their tenant and dataset. */
  predicate ConnectorsStay(connectors: map<Id, Connector>, connectors': map<Id, Connector>)
  {
    forall c :: c in connectors ==>
      c in connectors' && connectors'[c].tenant == connectors[c].tenant && connectors'[c].dataset == connectors[c].dataset
  }

  lemma {:induction false} LinkedStays(t: Tables, t': Tables, claimed: Option<Id>)
    requires Linked(t) && MakesNoSync(t, t') && ConnectorsStay(t.connectors, t'.connectors)
    requires JobsEvolve(t.jobs, t'.jobs, t.nextId, claimed) && RunsEvolve(t.runs, t'.runs, t'.datasets, t.nextId)
    requires forall id :: id in t'.jobs && ForRun(t'.jobs[id].kind) ==> t'.jobs[id].target in t'.runs
    ensures Linked(t')
  {
  }

  lemma {:induction false} MoveMakesNoSync(t: Tables, id: Id, job: Job)
    requires id in t.jobs && job.kind == t.jobs[id].kind
    ensures MakesNoSync(t, Move(t, id, job)) && MakesNoSync(t, t.(jobs := t.jobs[id := job]))
  {
    hide WithDeploymentStatus;
  }

  lemma {:induction false} SameSyncs(t: Tables)
    ensures MakesNoSync(t, t)
  {
  }

  lemma {:induction false} QueueMakesNoSync(t: Tables, publish: bool, target: Id)
    ensures MakesNoSync(t, Queue(t, publish, target))
  {
    hide MakesNoSync, FindJobFor, Move;
    SameSyncs(t);
    FoundJobFor(t.jobs, publish, target);
    var found := FindJobFor(t.jobs, publish, target);
    if found.Some? { MoveMakesNoSync(t, found.value, t.jobs[found.value].(status := Queued, availableAt := t.now)); }
  }

  lemma {:induction false} CancelMakesNoSync(t: Tables, tenant: Id, id: Id)
    ensures MakesNoSync(t, CancelJob(t, tenant, id).0)
  {
    hide MakesNoSync, Move;
    SameSyncs(t);
    if id in t.jobs {
      MoveMakesNoSync(t, id, t.jobs[id].(cancelRequested := true));
      MoveMakesNoSync(t, id, t.jobs[id].(status := Cancelled, cancelRequested := true));
    }
  }

  lemma {:induction false} UploadMakesNoSync(t: Tables, tenant: Id, slug: string, format: Format, bytes: int, key: Key)
    requires Sound(t)
    ensures MakesNoSync(t, CreateDatasetUpload(t, tenant, slug, format, bytes, key).0)
  {
    hide Sound, MakesNoSync, FindJob, FindDataset, QuotaAllows;
    Unused(t, t.nextId + 1);
    SameSyncs(t);
    var t' := CreateDatasetUpload(t, tenant, slug, format, bytes, key).0;
    if t' != t {
      RunAdded(t, t.nextId + 1, t'.runs[t.nextId + 1]);
      OtherJobAdded(t.(runs := t'.runs), t', t.nextId + 2);
      Together(t, t.(runs := t'.runs), t');
    }
  }

  lemma {:induction false} Together(t: Tables, t1: Tables, t2: Tables)
    requires MakesNoSync(t, t1) && MakesNoSync(t1, t2) && t.runs.Keys <= t1.runs.Keys
    ensures MakesNoSync(t, t2)
  {
  }

  lemma {:induction false} RunAdded(t: Tables, r: Id, run: SyncRun)
    requires if r in t.runs then run.connector == t.runs[r].connector else run.connector.None?
    ensures MakesNoSync(t, t.(runs := t.runs[r := run]))
  {
  }

  /** A job of another kind, in tables whose runs are as they were but for new ones. */
  lemma {:induction false} OtherJobAdded(t: Tables, t': Tables, id: Id)
    requires t'.runs == t.runs && id in t'.jobs && t'.jobs == t.jobs[id := t'.jobs[id]] && !t'.jobs[id].kind.ConnectorSync?
    ensures MakesNoSync(t, t')
  {
  }

  lemma {:induction false} ReleaseMakesNoSync(t: Tables, tenant: Id, m: Manifest, checksum: Checksum, bytes: int, key: Key)
    ensures MakesNoSync(t, CreateDeployment(t, tenant, m, checksum, bytes, key).0)
  {
    hide MakesNoSync, FindJob, FindApp, QuotaAllows, DeploymentSlots;
    SameSyncs(t);
    var t' := CreateDeployment(t, tenant, m, checksum, bytes, key).0;
    if t' != t { OtherJobAdded(t, t', t.nextId + 2); }
  }

  lemma {:induction false} DropAppMakesNoSync(t: Tables, tenant: Id, slug: string)
    ensures MakesNoSync(t, DeleteApp(t, tenant, slug).0)
  {
    hide FindApp, AppBusy;
  }

  lemma {:induction false} SaveMakesNoSync(t: Tables, tenant: Id, slug: string, sql: string, types: ParameterTypes)
    ensures MakesNoSync(t, SaveQueryRevision(t, tenant, slug, sql, types).0)
  {
    hide FindQuery, RevisionSlots;
  }

  lemma {:induction false} NewConnectorMakesNoSync(t: Tables, tenant: Id, slug: string, dataset: string, enabled: bool, refreshMinutes: int)
    ensures MakesNoSync(t, CreateConnector(t, tenant, slug, dataset, enabled, refreshMinutes).0)
  {
    hide MakesNoSync, FindDataset;
    var t' := CreateConnector(t, tenant, slug, dataset, enabled, refreshMinutes).0;
    RunsAndJobsStay(t, t');
  }

  lemma {:induction false} EditMakesNoSync(t: Tables, tenant: Id, slug: string, enabled: bool, refreshMinutes: int)
    ensures MakesNoSync(t, UpdateConnector(t, tenant, slug, enabled, refreshMinutes).0)
  {
    hide MakesNoSync, FindConnector;
    RunsAndJobsStay(t, UpdateConnector(t, tenant, slug, enabled, refreshMinutes).0);
  }

  lemma {:induction false} DropQueryMakesNoSync(t: Tables, tenant: Id, slug: string)
    ensures MakesNoSync(t, DeleteQuery(t, tenant, slug).0)
  {
    hide MakesNoSync, FindQuery, QueryInUse;
    RunsAndJobsStay(t, DeleteQuery(t, tenant, slug).0);
  }

  lemma {:induction false} RunsAndJobsStay(t: Tables, t': Tables)
    requires t'.runs == t.runs && t'.jobs == t.jobs
    ensures MakesNoSync(t, t')
  {
  }

  lemma {:induction false} UserMakesNoSync(t: Tables, tenant: Id, a: UserAction)
    requires Sound(t) && !a.SyncNow? && !a.DropConnector? && !a.DropDataset?
    ensures MakesNoSync(t, ActUser(t, tenant, a))
  {
    hide Sound, MakesNoSync, Queue, CancelJob, CreateDatasetUpload, CreateDeployment, CreateConnector, UpdateConnector,
         SaveQueryRevision, DeleteQuery, DeleteApp;
    SameSyncs(t);
    match a
    case CreateUpload(slug, format, bytes, key) => UploadMakesNoSync(t, tenant, slug, format, bytes, key);
    case FinishUpload(run) => QueueMakesNoSync(t, false, run);
    case NewConnector(slug, dataset, enabled, refreshMinutes) => NewConnectorMakesNoSync(t, tenant, slug, dataset, enabled, refreshMinutes);
    case EditConnector(slug, enabled, refreshMinutes) => EditMakesNoSync(t, tenant, slug, enabled, refreshMinutes);
    case Cancel(job) => CancelMakesNoSync(t, tenant, job);
    case CreateRelease(m, checksum, bytes, key) => ReleaseMakesNoSync(t, tenant, m, checksum, bytes, key);
    case FinishRelease(d) => QueueMakesNoSync(t, true, d);
    case RollBack(d) => RollbackMakesNoSync(t, tenant, d);
    case SaveQuery(slug, sql, types) => SaveMakesNoSync(t, tenant, slug, sql, types);
    case DropQuery(slug) => DropQueryMakesNoSync(t, tenant, slug);
    case DropApp(slug) => DropAppMakesNoSync(t, tenant, slug);
  }

  lemma {:induction false} RollbackMakesNoSync(t: Tables, tenant: Id, d: Id)
    ensures MakesNoSync(t, Rollback(t, tenant, d).0)
  {
  }

  lemma {:induction false} UserConnectorsStay(t: Tables, tenant: Id, a: UserAction)
    requires Sound(t) && !a.DropConnector? && !a.DropDataset?
    ensures ConnectorsStay(t.connectors, ActUser(t, tenant, a).connectors)
  {
    hide Sound, ConnectorsStay, CreateConnector, UpdateConnector, CreateDatasetUpload, Queue, DeleteConnector, CreateConnectorJob,
         CancelJob, CreateDeployment, Rollback, SaveQueryRevision, DeleteQuery, DeleteDataset, DeleteApp;
    SameConnectors(t.connectors);
    match a
    case NewConnector(slug, dataset, enabled, refreshMinutes) => NewConnectorStays(t, tenant, slug, dataset, enabled, refreshMinutes);
    case EditConnector(slug, enabled, refreshMinutes) => EditStays(t, tenant, slug, enabled, refreshMinutes);
    case _ => UserLeavesConnectors(t, tenant, a);
  }

  lemma {:induction false} SameConnectors(connectors: map<Id, Connector>)
    ensures ConnectorsStay(connectors, connectors)
  {
  }

  lemma {:induction false} NewConnectorStays(t: Tables, tenant: Id, slug: string, dataset: string, enabled: bool, refreshMinutes: int)
    requires Sound(t)
    ensures ConnectorsStay(t.connectors, CreateConnector(t, tenant, slug, dataset, enabled, refreshMinutes).0.connectors)
  {
    hide Sound, FindDataset;
    Unused(t, t.nextId + 1);
  }

  lemma {:induction false} EditStays(t: Tables, tenant: Id, slug: string, enabled: bool, refreshMinutes: int)
    ensures ConnectorsStay(t.connectors, UpdateConnector(t, tenant, slug, enabled, refreshMinutes).0.connectors)
  {
    hide FindConnector, ConnectorsStay;
    FoundConnector(t.connectors, tenant, slug);
    SameConnectors(t.connectors);
    var found := FindConnector(t.connectors, tenant, slug);
    if found.Some? { EditedRowStays(t.connectors, found.value, UpdateConnector(t, tenant, slug, enabled, refreshMinutes).0.connectors); }
  }

  lemma {:induction false} EditedRowStays(connectors: map<Id, Connector>, id: Id, connectors': map<Id, Connector>)
    requires id in connectors && id in connectors' && connectors' == connectors[id := connectors'[id]]
    requires connectors'[id].tenant == connectors[id].tenant && connectors'[id].dataset == connectors[id].dataset
    ensures ConnectorsStay(connectors, connectors')
  {
  }

  lemma {:induction false} HeldMakesNoSync(t: Tables, c: Claim, lease: Time, delay: Time)
    ensures MakesNoSync(t, Heartbeat(t, c, lease)) && MakesNoSync(t, CancelClaimed(t, c)) && MakesNoSync(t, Fail(t, c))
    ensures MakesNoSync(t, Retry(t, c, delay))
  {
    hide MakesNoSync, Move;
    SameSyncs(t);
    if Holds(t.jobs, c) {
      var job := t.jobs[c.job];
      MoveMakesNoSync(t, c.job, job.(lease := Some(Lease(c.worker, t.now + lease))));
      MoveMakesNoSync(t, c.job, job.(status := Cancelled, lease := None));
      MoveMakesNoSync(t, c.job, job.(status := Failed, lease := None));
      MoveMakesNoSync(t, c.job, job.(status := Queued, lease := None, availableAt := t.now + delay));
    }
  }

  lemma {:induction false} CompletionMakesNoSync(t: Tables, c: Claim, result: ImportResult, bytes: int)
    ensures MakesNoSync(t, CompleteImport(t, c, result)) && MakesNoSync(t, SetConnectorRunBytes(t, c, bytes).0)
  {
    hide MakesNoSync, StoredBytes, Move;
    SameSyncs(t);
    ImportMakesNoSync(t, c, result);
    if c.target in t.runs && bytes >= 0 { RunAdded(t, c.target, t.runs[c.target].(bytes := bytes)); }
  }

  lemma {:induction false} ImportMakesNoSync(t: Tables, c: Claim, result: ImportResult)
    ensures MakesNoSync(t, CompleteImport(t, c, result))
  {
    hide WithDeploymentStatus;
  }

  lemma {:induction false} PublishMakesNoSync(t: Tables, c: Claim, queries: seq<PublishedQuery>)
    ensures MakesNoSync(t, CompletePublish(t, c, queries).0)
  {
    hide GrantAll;
    if PublishCompletes(t, c) {
      GrantAllLeavesJobs(t, c.tenant, t.jobs[c.job].target, queries);
      Currents.GrantAllLeavesRest(t, c.tenant, t.jobs[c.job].target, queries);
    }
  }

  lemma {:induction false} WorkMakesNoSync(s: System, w: Worker, a: WorkerAction)
    requires Enabled(s, w, a) && !a.Enqueue?
    ensures MakesNoSync(s.db, ActWorker(s, w, a).db)
  {
    hide MakesNoSync, Heartbeat, SetConnectorRunBytes, CompletePublish, CompleteImport, CancelClaimed, Retry, Fail, FromManifest,
         OtherLive, Move;
    var t, me := s.db, At(s, w);
    SameSyncs(t);
    match a
    case ClaimJob(_, id, lease) =>
      MoveMakesNoSync(t, id, t.jobs[id].(status := Running, lease := Some(Lease(w, t.now + lease)), attempts := t.jobs[id].attempts + 1));
    case RenewBeat(lease, _) => HeldMakesNoSync(t, me.claim, lease, 0);
    case SetBytes(bytes) => CompletionMakesNoSync(t, me.claim, ImportResult(0, 0, ""), bytes);
    case PublishSnapshot(result, _) => CompletionMakesNoSync(t, me.claim, result, 0);
    case PublishRelease(queries, _) => PublishMakesNoSync(t, me.claim, queries);
    case CancelMine => HeldMakesNoSync(t, me.claim, 0, 0);
    case RetryMine(delay) => HeldMakesNoSync(t, me.claim, 0, delay);
    case FailMine => HeldMakesNoSync(t, me.claim, 0, 0);
    case _ =>
  }

  // ---------- transactions that make or unlink syncs

  lemma {:induction false} SyncLinks(t: Tables, tenant: Id, connector: Id, key: Key)
    requires Sound(t) && Linked(t)
    ensures Linked(CreateConnectorJob(t, tenant, connector, key).0)
  {
    hide Sound, FindJob, QueueFull;
    Unused(t, t.nextId);
    Unused(t, t.nextId + 1);
  }

  lemma {:induction false} TimedLinks(t: Tables, id: Id, row: Connector)
    requires Linked(t) && id in t.connectors && row == t.connectors[id].(nextSyncAt := row.nextSyncAt)
    ensures Linked(t.(connectors := t.connectors[id := row]))
  {
  }

  lemma {:induction false} EnqueueLinks(t: Tables, id: Id)
    requires Sound(t) && Linked(t)
    ensures Linked(EnqueueDueConnector(t, id).0)
  {
    hide Sound, Linked, CreateConnectorJob, QueueFull;
    if Due(t, id) {
      var row := t.connectors[id];
      SyncLinks(t, row.tenant, id, Scheduled(id, row.nextSyncAt));
      CreateConnectorJobFrame(t, row.tenant, id, Scheduled(id, row.nextSyncAt));
      TimedLinks(t, id, row.(nextSyncAt := t.now + MINUTE));
      TimedLinks(CreateConnectorJob(t, row.tenant, id, Scheduled(id, row.nextSyncAt)).0, id, row.(nextSyncAt := t.now + row.refreshMinutes * MINUTE));
    }
  }

  lemma {:induction false} DropConnectorLinks(t: Tables, tenant: Id, slug: string)
    requires Linked(t)
    ensures Linked(DeleteConnector(t, tenant, slug).0)
  {
    hide FindConnector;
  }

  lemma {:induction false} DropDatasetLinks(t: Tables, tenant: Id, slug: string, dropped: bool)
    requires Sound(t) && Linked(t)
    ensures Linked(DeleteDataset(t, tenant, slug, dropped).0)
  {
    hide Sound, FindDataset;
  }

  // ---------- every run

  lemma {:induction false} UserLinks(t: Tables, tenant: Id, a: UserAction)
    requires Sound(t) && Linked(t)
    ensures Linked(ActUser(t, tenant, a))
  {
    hide Sound, Linked, ActUser, Evolves, JobsEvolve, RunsEvolve, MakesNoSync, ConnectorsStay;
    if a.SyncNow? || a.DropConnector? || a.DropDataset? {
      UnlinkingLinks(t, tenant, a);
    } else {
      var t' := ActUser(t, tenant, a);
      UserMakesNoSync(t, tenant, a);
      UserConnectorsStay(t, tenant, a);
      UserEvolves(t, tenant, a);
      RunsPart(t, t', None, None);
      UserKeeps(t, tenant, a);
      TargetsExist(t');
      LinkedStays(t, t', None);
    }
  }

  lemma {:induction false} UnlinkingLinks(t: Tables, tenant: Id, a: UserAction)
    requires Sound(t) && Linked(t) && (a.SyncNow? || a.DropConnector? || a.DropDataset?)
    ensures Linked(ActUser(t, tenant, a))
  {
    hide Sound, Linked, CreateConnectorJob, DeleteConnector, DeleteDataset;
    match a
    case SyncNow(connector, request) => SyncLinks(t, tenant, connector, Manual(request));
    case DropConnector(slug) => DropConnectorLinks(t, tenant, slug);
    case DropDataset(slug, dropped) => DropDatasetLinks(t, tenant, slug, dropped);
  }

  lemma {:induction false} RunsPart(t: Tables, t': Tables, claimed: Option<Id>, published: Option<Id>)
    requires Evolves(t, t', claimed, published)
    ensures JobsEvolve(t.jobs, t'.jobs, t.nextId, claimed) && RunsEvolve(t.runs, t'.runs, t'.datasets, t.nextId)
  {
    hide JobsEvolve, RunsEvolve, DatasetsEvolve, DeploymentsEvolve;
  }

  lemma {:induction false} WorkLinks(s: System, w: Worker, a: WorkerAction)
    requires Safe(s) && Enabled(s, w, a) && Linked(s.db)
    ensures Linked(ActWorker(s, w, a).db)
  {
    hide Safe, Sound, Linked, ClaimFits, Evolves, JobsEvolve, RunsEvolve, MakesNoSync, EnqueueDueConnector, Take, Heartbeat,
         SetConnectorRunBytes, CompletePublish, CompleteImport, CancelClaimed, Retry, Fail, FromManifest;
    SafeParts(s);
    if a.Enqueue? {
      EnqueueLinks(s.db, a.connector);
    } else {
      var t' := ActWorker(s, w, a).db;
      WorkMakesNoSync(s, w, a);
      WorkLeavesSchedule(s, w, a);
      WorkEvolves(s, w, a);
      RunsPart(s.db, t', ClaimedBy(a), PublishedBy(s, w, a));
      WorkKeeps(s, w, a);
      TargetsExist(t');
      LinkedStays(s.db, t', ClaimedBy(a));
    }
  }

  lemma {:induction false} StepLinks(s: System, step: Step)
    requires Safe(s) && Linked(s.db)
    ensures Linked(Apply(s, step).db)
  {
    hide Safe, Sound, ActUser, ActWorker, Enabled, Said;
    var s1 := s.(db := Later(s.db, step.elapsed));
    LaterStaysSafe(s, step.elapsed);
    SafeParts(s1);
    match step
    case User(_, tenant, a) => UserLinks(s1.db, tenant, a);
    case Work(_, w, a) => if Enabled(s1, w, a) { WorkLinks(s1, w, a); }
  }

  lemma {:induction false} RunLinks(s: System, steps: seq<Step>)
    requires Safe(s) && Linked(s.db)
    ensures Linked(Exec(s, steps).db)
    decreases |steps|
  {
    hide Safe, Linked, Apply;
    if steps != [] {
      StepStaysSafe(s, steps[0]);
      StepLinks(s, steps[0]);
      RunLinks(Apply(s, steps[0]), steps[1..]);
    }
  }

  /**
   In every reachable state a queued or running sync still has its connector, of the tenant of the job and the dataset of
   its run: a deletion that would take it away is refused.
  */
  lemma {:induction false} SyncHasConnector(steps: seq<Step>, id: Id)
    requires var t := Exec(INITIAL, steps).db; id in t.jobs && Unfinished(t.jobs[id])
    ensures var t := Exec(INITIAL, steps).db; var job := t.jobs[id];
            && job.target in t.runs && t.runs[job.target].connector.Some?
            && var c := t.runs[job.target].connector.value;
               c in t.connectors && t.connectors[c].tenant == job.tenant && t.connectors[c].dataset == t.runs[job.target].dataset
  {
    hide Safe, Sound, Exec;
    var s := Exec(INITIAL, steps);
    InitialIsSafe();
    RunLinks(INITIAL, steps);
    ReachableIsSafe(steps);
    SafeParts(s);
    RowFacts(s.db, id);
  }

  /** In every reachable state a worker's query for the details of its sync finds them exactly when the worker holds the job. */
  method DetailsIffHeld(database: Database, ghost steps: seq<Step>, c: Claim) returns (r: Result<Connector, DbError>)
    requires database.Rows() == Exec(INITIAL, steps).db
    requires c.job in database.jobs && database.jobs[c.job].kind.ConnectorSync?
    ensures r.Ok? <==> Holds(database.jobs, c)
    ensures r.Ok? ==> r.value.tenant == c.tenant
  {
    hide Exec;
    r := database.GetConnectorDetails(c);
    if Holds(database.jobs, c) { SyncHasConnector(steps, c.job); }
  }
}
