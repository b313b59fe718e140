/**
 How a job ends: in every run a finished job is cancelled, failed or succeeded exactly as its ending in the log says,
 and each ending leaves the job and its row in that status.
*/
module Endings {
  import opened Wrappers
  import opened Manifests
  import opened Schema
  import opened Transitions
  import opened Consistency
  import opened JobsStaySound
  import opened RowsStaySound
  import opened Protocol
  import opened SoundRuns
  import opened Evolution
  import opened Safety
  import opened Guarantees
  import opened Persistence
  import Refinement

  // ---------- what an ending leaves

  /** The sync run or deployment of a job, by its status. */
  predicate RowIs(t: Tables, job: Job, status: Status)
  {
    if job.kind.AppPublish? then job.target in t.deployments && t.deployments[job.target].status == status
    else job.target in t.runs && t.runs[job.target].status == status
  }

  /** The job becomes the given one, its row takes the status, and nothing else is touched. */
  predicate MovesTo(t: Tables, t': Tables, id: Id, job: Job)
  {
    && id in t.jobs && t'.jobs == t.jobs[id := job] && RowIs(t', job, job.status)
    && t'.runs.Keys == t.runs.Keys && t'.deployments.Keys == t.deployments.Keys
    && (forall r :: r in t.runs ==>
          t'.runs[r] == if ForRun(job.kind) && r == job.target then t.runs[r].(status := job.status) else t.runs[r])
    && (forall d :: d in t.deployments ==>
          t'.deployments[d] == if job.kind.AppPublish? && d == job.target then t.deployments[d].(status := job.status) else t.deployments[d])
    && t' == t.(jobs := t'.jobs, runs := t'.runs, deployments := t'.deployments)
  }

  /** Job and row have the status, the lease is gone, and nothing else is touched. */
  predicate EndsAs(t: Tables, t': Tables, id: Id, status: Status)
  {
    id in t.jobs && MovesTo(t, t', id, t.jobs[id].(status := status, lease := None))
  }

  lemma {:induction false} CancelLeaves(t: Tables, c: Claim)
    requires Sound(t)
    ensures var t' := CancelClaimed(t, c); if Holds(t.jobs, c) then EndsAs(t, t', c.job, Cancelled) else t' == t
  {
    hide Sound;
    if Holds(t.jobs, c) { RowFacts(t, c.job); }
  }

  lemma {:induction false} FailLeaves(t: Tables, c: Claim)
    requires Sound(t)
    ensures var t' := Fail(t, c); if Holds(t.jobs, c) then EndsAs(t, t', c.job, Failed) else t' == t
  {
    hide Sound;
    if Holds(t.jobs, c) { RowFacts(t, c.job); }
  }

  /** In every reachable state: a worker's cancellation of a job it holds cancels job and row, its failure fails both. */
  lemma {:induction false} EndingLeaves(steps: seq<Step>, elapsed: nat, w: Worker, a: WorkerAction)
    requires a.CancelMine? || a.FailMine?
    requires var s := Exec(INITIAL, steps); Enabled(s.(db := Later(s.db, elapsed)), w, a)
    ensures var s := Exec(INITIAL, steps); var t, c := Later(s.db, elapsed), At(s, w).claim; var t' := Apply(s, Work(elapsed, w, a)).db;
            if Holds(t.jobs, c) then EndsAs(t, t', c.job, if a.CancelMine? then Cancelled else Failed) else t' == t
  {
    hide Safe, Sound, Exec, EndsAs, CancelClaimed, Fail, Holds;
    var s := Exec(INITIAL, steps);
    ReachableIsSafe(steps);
    LaterStaysSafe(s, elapsed);
    SafeParts(s.(db := Later(s.db, elapsed)));
    CancelLeaves(Later(s.db, elapsed), At(s, w).claim);
    FailLeaves(Later(s.db, elapsed), At(s, w).claim);
  }

  /** What a user's cancellation of a job does, by the job's status. */
  lemma {:induction false} CancelAnswers(t: Tables, tenant: Id, id: Id)
    requires Sound(t)
    ensures var r := CancelJob(t, tenant, id);
            if id !in t.jobs || t.jobs[id].tenant != tenant then r == (t, Err(NoRows))
            else if t.jobs[id].status.AwaitingUpload? || t.jobs[id].status.Queued? then
              && r.1 == Ok(()) && EndsAs(t.(jobs := t.jobs[id := t.jobs[id].(cancelRequested := true)]), r.0, id, Cancelled)
            else if t.jobs[id].status.Running? then r == (t.(jobs := t.jobs[id := t.jobs[id].(cancelRequested := true)]), Ok(()))
            else r == (t, Err(Conflict))
  {
    hide Sound, EndsAs, WithRunStatus, WithDeploymentStatus;
    if id in t.jobs && (t.jobs[id].status.AwaitingUpload? || t.jobs[id].status.Queued?) { WaitingEnds(t, id); }
  }

  lemma {:induction false} WaitingEnds(t: Tables, id: Id)
    requires Sound(t) && id in t.jobs && !t.jobs[id].status.Running?
    ensures var marked := t.jobs[id].(cancelRequested := true);
            EndsAs(t.(jobs := t.jobs[id := marked]), Move(t, id, marked.(status := Cancelled)), id, Cancelled)
  {
    hide Sound;
    RowFacts(t, id);
    var marked := t.jobs[id].(cancelRequested := true);
    assert t.jobs[id := marked][id := marked.(status := Cancelled)] == t.jobs[id := marked.(status := Cancelled)];
  }

  // ---------- only endings end a job

  predicate Stops(status: Status) { status.Cancelled? || status.Failed? }

  ghost predicate NoNewStop(jobs: map<Id, Job>, jobs': map<Id, Job>, except: Option<Id>)
  {
    forall id :: id in jobs' && Stops(jobs'[id].status) && except != Some(id) ==> id in jobs && jobs[id].status == jobs'[id].status
  }

  lemma {:induction false} SameStops(jobs: map<Id, Job>)
    ensures NoNewStop(jobs, jobs, None)
  {
  }

  lemma {:induction false} RowStops(jobs: map<Id, Job>, id: Id, job: Job, except: Option<Id>)
    requires Stops(job.status) ==> except == Some(id) || (id in jobs && jobs[id].status == job.status)
    ensures NoNewStop(jobs, jobs[id := job], except)
  {
  }

  lemma {:induction false} FewerStops(jobs: map<Id, Job>, jobs': map<Id, Job>)
    requires forall id :: id in jobs' ==> id in jobs && jobs'[id] == jobs[id]
    ensures NoNewStop(jobs, jobs', None)
  {
  }

  lemma {:induction false} QueueStops(t: Tables, publish: bool, target: Id)
    ensures NoNewStop(t.jobs, Queue(t, publish, target).jobs, None)
  {
    hide FindJobFor, WithRunStatus, WithDeploymentStatus;
  }

  lemma {:induction false} UploadStops(t: Tables, tenant: Id, slug: string, format: Format, bytes: int, key: Key)
    ensures NoNewStop(t.jobs, CreateDatasetUpload(t, tenant, slug, format, bytes, key).0.jobs, None)
  {
    hide NoNewStop, FindJob, FindDataset, QuotaAllows;
    SameStops(t.jobs);
    RowStops(t.jobs, t.nextId + 2, Job(tenant, DatasetImport, key, t.nextId + 1, AwaitingUpload, t.now, None, 0, false), None);
  }

  lemma {:induction false} ReleaseStops(t: Tables, tenant: Id, m: Manifest, checksum: Checksum, bytes: int, key: Key)
    ensures NoNewStop(t.jobs, CreateDeployment(t, tenant, m, checksum, bytes, key).0.jobs, None)
  {
    hide NoNewStop, FindJob, FindApp, QuotaAllows, DeploymentSlots;
    SameStops(t.jobs);
    RowStops(t.jobs, t.nextId + 2, Job(tenant, AppPublish, key, t.nextId + 1, AwaitingUpload, t.now, None, 0, false), None);
  }

  lemma {:induction false} SyncStops(t: Tables, tenant: Id, connector: Id, key: Key)
    ensures NoNewStop(t.jobs, CreateConnectorJob(t, tenant, connector, key).0.jobs, None)
  {
    hide NoNewStop, FindJob, QueueFull;
    SameStops(t.jobs);
    RowStops(t.jobs, t.nextId + 1, Job(tenant, ConnectorSync, key, t.nextId, Queued, t.now, None, 0, false), None);
  }

  lemma {:induction false} DropStops(t: Tables, tenant: Id, slug: string, dropped: bool)
    ensures NoNewStop(t.jobs, DeleteDataset(t, tenant, slug, dropped).0.jobs, None)
    ensures NoNewStop(t.jobs, DeleteApp(t, tenant, slug).0.jobs, None)
  {
    hide NoNewStop, FindDataset, FindApp, DatasetBusy, AppBusy, ForgetConnectors;
    FewerStops(t.jobs, DeleteDataset(t, tenant, slug, dropped).0.jobs);
    FewerStops(t.jobs, DeleteApp(t, tenant, slug).0.jobs);
  }

  lemma {:induction false} CancelStops(t: Tables, tenant: Id, id: Id)
    ensures NoNewStop(t.jobs, CancelJob(t, tenant, id).0.jobs, if Said(t, tenant, Cancel(id)) == [] then None else Some(id))
  {
    hide NoNewStop, WithRunStatus, WithDeploymentStatus;
    SameStops(t.jobs);
    if id in t.jobs {
      var marked := t.jobs[id].(cancelRequested := true);
      RowStops(t.jobs, id, marked, None);
      RowStops(t.jobs, id, marked.(status := Cancelled), Some(id));
    }
  }

  /** The job that the user's transaction ends. */
  function StoppedBy(said: seq<Event>): Option<Id>
  {
    if said != [] && said[0].Stopped? then Some(said[0].stopped) else None
  }

  lemma {:induction false} UserStops(t: Tables, tenant: Id, a: UserAction)
    ensures NoNewStop(t.jobs, ActUser(t, tenant, a).jobs, StoppedBy(Said(t, tenant, a)))
  {
    hide NoNewStop, Queue, CancelJob, CreateDatasetUpload, CreateDeployment, CreateConnectorJob, CreateConnector, Rollback,
         UpdateConnector, DeleteConnector, SaveQueryRevision, DeleteQuery, DeleteDataset, DeleteApp;
    SameStops(t.jobs);
    match a
    case CreateUpload(slug, format, bytes, key) => UploadStops(t, tenant, slug, format, bytes, key);
    case FinishUpload(run) => QueueStops(t, false, run);
    case SyncNow(connector, request) => SyncStops(t, tenant, connector, Manual(request));
    case Cancel(job) => CancelStops(t, tenant, job);
    case CreateRelease(m, checksum, bytes, key) => ReleaseStops(t, tenant, m, checksum, bytes, key);
    case FinishRelease(d) => QueueStops(t, true, d);
    case DropDataset(slug, dropped) => DropStops(t, tenant, slug, dropped);
    case DropApp(slug) => DropStops(t, tenant, slug, false);
    case _ => OthersLeaveJobs(t, tenant, a);
  }

  lemma {:induction false} HeldStops(t: Tables, c: Claim, lease: Time, delay: Time)
    ensures NoNewStop(t.jobs, Heartbeat(t, c, lease).jobs, None) && NoNewStop(t.jobs, Retry(t, c, delay).jobs, None)
    ensures NoNewStop(t.jobs, CancelClaimed(t, c).jobs, if Holds(t.jobs, c) then Some(c.job) else None)
    ensures NoNewStop(t.jobs, Fail(t, c).jobs, if Holds(t.jobs, c) then Some(c.job) else None)
  {
    hide NoNewStop, WithRunStatus, WithDeploymentStatus;
    SameStops(t.jobs);
    if Holds(t.jobs, c) {
      var job := t.jobs[c.job];
      RowStops(t.jobs, c.job, job.(lease := Some(Lease(c.worker, t.now + lease))), None);
      RowStops(t.jobs, c.job, job.(status := Queued, lease := None, availableAt := t.now + delay), None);
      RowStops(t.jobs, c.job, job.(status := Cancelled, lease := None), Some(c.job));
      RowStops(t.jobs, c.job, job.(status := Failed, lease := None), Some(c.job));
    }
  }

  lemma {:induction false} TakeStops(t: Tables, id: Id, worker: Worker, lease: Time)
    requires id in t.jobs
    ensures NoNewStop(t.jobs, Take(t, id, worker, lease).jobs, None)
  {
    hide WithRunStatus, WithDeploymentStatus;
  }

  lemma {:induction false} CompletionStops(t: Tables, c: Claim, result: ImportResult, queries: seq<PublishedQuery>)
    ensures NoNewStop(t.jobs, CompleteImport(t, c, result).jobs, None)
    ensures NoNewStop(t.jobs, CompletePublish(t, c, queries).0.jobs, None)
  {
    hide NoNewStop, GrantAll, WithRunStatus, WithDeploymentStatus;
    SameStops(t.jobs);
    if PublishCompletes(t, c) { GrantAllLeavesJobs(t, c.tenant, t.jobs[c.job].target, queries); }
    if Holds(t.jobs, c) { RowStops(t.jobs, c.job, t.jobs[c.job].(status := Succeeded, lease := None), None); }
  }

  lemma {:induction false} EnqueueStops(t: Tables, id: Id)
    ensures NoNewStop(t.jobs, EnqueueDueConnector(t, id).0.jobs, None)
  {
    hide NoNewStop, CreateConnectorJob, QueueFull;
    SameStops(t.jobs);
    if Due(t, id) { SyncStops(t, t.connectors[id].tenant, id, Scheduled(id, t.connectors[id].nextSyncAt)); }
  }

  /** The job that the worker's step ends without a publication. */
  function EndedBy(s: System, w: Worker, a: WorkerAction): Option<Id>
  {
    if At(s, w).Busy? && (a.CancelMine? || a.FailMine?) && Holds(s.db.jobs, At(s, w).claim) then Some(At(s, w).claim.job) else None
  }

  lemma {:induction false} WorkStops(s: System, w: Worker, a: WorkerAction)
    requires Enabled(s, w, a)
    ensures NoNewStop(s.db.jobs, ActWorker(s, w, a).db.jobs, EndedBy(s, w, a))
  {
    hide NoNewStop, EnqueueDueConnector, Take, Heartbeat, SetConnectorRunBytes, CompletePublish, CompleteImport,
         CancelClaimed, Retry, Fail, FromManifest, OtherLive;
    var t, me := s.db, At(s, w);
    SameStops(t.jobs);
    match a
    case Enqueue(connector) => EnqueueStops(t, connector);
    case ClaimJob(_, id, lease) => TakeStops(t, id, w, lease);
    case RenewBeat(lease, _) => HeldStops(t, me.claim, lease, 0);
    case SetBytes(bytes) => Refinement.BytesLeaveJobs(t, me.claim, bytes);
    case PublishSnapshot(result, _) => CompletionStops(t, me.claim, result, []);
    case PublishRelease(queries, _) => CompletionStops(t, me.claim, ImportResult(0, 0, ""), queries);
    case CancelMine => HeldStops(t, me.claim, 0, 0);
    case RetryMine(delay) => HeldStops(t, me.claim, 0, delay);
    case FailMine => HeldStops(t, me.claim, 0, 0);
    case _ =>
  }

  // ---------- the log tells every ending

  /** A job is cancelled or failed exactly when the log says that it ended so. */
  ghost predicate Ends(jobs: map<Id, Job>, log: seq<Event>, next: Id)
  {
    && (forall id :: id in jobs ==>
          && (jobs[id].status.Cancelled? <==> Stopped(id, Cancelled) in log)
          && (jobs[id].status.Failed? <==> Stopped(id, Failed) in log))
    && (forall id: Id, how: Status :: Stopped(id, how) in log ==> id < next)
  }

  /** Cancelled and failed jobs stay so. */
  ghost predicate StopsStay(jobs: map<Id, Job>, jobs': map<Id, Job>, next: Id)
  {
    forall id :: id in jobs' ==>
      if id in jobs then Stops(jobs[id].status) ==> jobs'[id].status == jobs[id].status else id >= next
  }

  lemma {:induction false} EvolvingStopsStay(t: Tables, t': Tables, claimed: Option<Id>)
    requires JobsEvolve(t.jobs, t'.jobs, t.nextId, claimed)
    ensures StopsStay(t.jobs, t'.jobs, t.nextId)
  {
  }

  lemma {:induction false} EndsStay(jobs: map<Id, Job>, jobs': map<Id, Job>, next: Id, next': Id, log: seq<Event>, log': seq<Event>)
    requires Ends(jobs, log, next) && next <= next' && StopsStay(jobs, jobs', next)
    requires NoNewStop(jobs, jobs', None) && forall e: Event :: e.Stopped? ==> (e in log' <==> e in log)
    ensures Ends(jobs', log', next')
  {
  }

  lemma {:induction false} EndLogged(jobs: map<Id, Job>, jobs': map<Id, Job>, next: Id, next': Id, log: seq<Event>, id: Id, how: Status)
    requires Ends(jobs, log, next) && next <= next' && StopsStay(jobs, jobs', next)
    requires NoNewStop(jobs, jobs', Some(id)) && id < next && Stops(how)
    requires id in jobs && !Stops(jobs[id].status) && id in jobs' && jobs'[id].status == how
    ensures Ends(jobs', log + [Stopped(id, how)], next')
  {
    var log' := log + [Stopped(id, how)];
    assert log'[|log|] == Stopped(id, how);
    assert forall e: Event :: e in log' <==> e in log || e == Stopped(id, how);
  }

  lemma {:induction false} UserEnds(s: System, tenant: Id, a: UserAction)
    requires Safe(s) && Ends(s.db.jobs, s.log, s.db.nextId)
    ensures var t' := ActUser(s.db, tenant, a); Ends(t'.jobs, s.log + Said(s.db, tenant, a), t'.nextId)
  {
    hide Safe, Sound, ClaimsFit, Fenced, Evolves, Ends, NoNewStop, StopsStay, JobsEvolve, DeploymentsEvolve, ActUser, Rollback, EndsAs;
    var t, t', said := s.db, ActUser(s.db, tenant, a), Said(s.db, tenant, a);
    SafeParts(s);
    UserEvolves(t, tenant, a);
    EvolvesParts(t, t', None, None);
    EvolvingStopsStay(t, t', None);
    UserStops(t, tenant, a);
    SaidIsShort(t, tenant, a);
    if StoppedBy(said).Some? {
      CancelEnds(t, tenant, a.job);
      EndLogged(t.jobs, t'.jobs, t.nextId, t'.nextId, s.log, a.job, Cancelled);
      assert said == [Stopped(a.job, Cancelled)];
    } else {
      QuietLog(s.log, said);
      EndsStay(t.jobs, t'.jobs, t.nextId, t'.nextId, s.log, s.log + said);
    }
  }

  lemma {:induction false} QuietLog(log: seq<Event>, said: seq<Event>)
    requires said == [] || (|said| == 1 && !said[0].Stopped?)
    ensures forall e: Event :: e.Stopped? ==> (e in log + said <==> e in log)
  {
  }

  lemma {:induction false} CancelEnds(t: Tables, tenant: Id, id: Id)
    requires Sound(t) && Said(t, tenant, Cancel(id)) != []
    ensures var t' := ActUser(t, tenant, Cancel(id));
            id < t.nextId && id in t.jobs && !Stops(t.jobs[id].status) && id in t'.jobs && t'.jobs[id].status.Cancelled?
    ensures Said(t, tenant, Cancel(id)) == [Stopped(id, Cancelled)]
  {
    hide Sound, CancelJob;
    CancelAnswers(t, tenant, id);
    ClaimBelow(t, id);
  }

  lemma {:induction false} WorkEnds(s: System, w: Worker, a: WorkerAction)
    requires Safe(s) && Enabled(s, w, a) && Ends(s.db.jobs, s.log, s.db.nextId)
    ensures var s' := ActWorker(s, w, a); Ends(s'.db.jobs, s'.log, s'.db.nextId)
  {
    hide Safe, Sound, ClaimsFit, Fenced, Evolves, Ends, NoNewStop, StopsStay, JobsEvolve, DeploymentsEvolve, EndsAs, EnqueueDueConnector, Take,
         Heartbeat, SetConnectorRunBytes, CompletePublish, CompleteImport, CancelClaimed, Retry, Fail, FromManifest;
    var s' := ActWorker(s, w, a);
    SafeParts(s);
    WorkEvolves(s, w, a);
    EvolvesParts(s.db, s'.db, ClaimedBy(a), PublishedBy(s, w, a));
    EvolvingStopsStay(s.db, s'.db, ClaimedBy(a));
    WorkStops(s, w, a);
    if EndedBy(s, w, a).Some? {
      var c := At(s, w).claim;
      WorkerEnds(s.db, c);
      EndLogged(s.db.jobs, s'.db.jobs, s.db.nextId, s'.db.nextId, s.log, c.job, if a.CancelMine? then Cancelled else Failed);
    } else {
      WorkStopsNothing(s, w, a);
      EndsStay(s.db.jobs, s'.db.jobs, s.db.nextId, s'.db.nextId, s.log, s'.log);
    }
  }

  lemma {:induction false} WorkerEnds(t: Tables, c: Claim)
    requires Sound(t) && Holds(t.jobs, c)
    ensures c.job < t.nextId && c.job in t.jobs && !Stops(t.jobs[c.job].status)
    ensures c.job in CancelClaimed(t, c).jobs && CancelClaimed(t, c).jobs[c.job].status.Cancelled?
    ensures c.job in Fail(t, c).jobs && Fail(t, c).jobs[c.job].status.Failed?
  {
    hide Sound, CancelClaimed, Fail;
    ClaimBelow(t, c.job);
    CancelLeaves(t, c);
    FailLeaves(t, c);
  }

  lemma {:induction false} WorkStopsNothing(s: System, w: Worker, a: WorkerAction)
    requires Enabled(s, w, a) && EndedBy(s, w, a).None?
    ensures forall e: Event :: e.Stopped? ==> (e in ActWorker(s, w, a).log <==> e in s.log)
  {
    hide EnqueueDueConnector, Take, Heartbeat, SetConnectorRunBytes, CompletePublish, CompleteImport, CancelClaimed, Retry,
         Fail, FromManifest;
  }

  lemma {:induction false} StepEnds(s: System, step: Step)
    requires Safe(s) && Ends(s.db.jobs, s.log, s.db.nextId)
    ensures var s' := Apply(s, step); Ends(s'.db.jobs, s'.log, s'.db.nextId)
  {
    hide Safe, Ends, ActUser, ActWorker, Enabled, Said;
    var s1 := s.(db := Later(s.db, step.elapsed));
    LaterStaysSafe(s, step.elapsed);
    match step
    case User(_, tenant, a) => UserEnds(s1, tenant, a);
    case Work(_, w, a) => if Enabled(s1, w, a) { WorkEnds(s1, w, a); }
  }

  lemma {:induction false} RunEnds(s: System, steps: seq<Step>)
    requires Safe(s) && Ends(s.db.jobs, s.log, s.db.nextId)
    ensures var s' := Exec(s, steps); Ends(s'.db.jobs, s'.log, s'.db.nextId)
    decreases |steps|
  {
    hide Safe, Ends, Apply;
    if steps != [] {
      StepStaysSafe(s, steps[0]);
      StepEnds(s, steps[0]);
      RunEnds(Apply(s, steps[0]), steps[1..]);
    }
  }

  /**
   In every reachable state a job is cancelled exactly when its ending was a cancellation, by its user while it waited or
   by its worker; failed exactly when its worker recorded a failure; and succeeded exactly when it was published.
  */
  lemma {:induction false} JobEndedAsLogged(steps: seq<Step>, id: Id)
    requires id in Exec(INITIAL, steps).db.jobs
    ensures var s := Exec(INITIAL, steps); var status := s.db.jobs[id].status;
            && (status.Cancelled? <==> Stopped(id, Cancelled) in s.log)
            && (status.Failed? <==> Stopped(id, Failed) in s.log)
            && (status.Succeeded? <==> exists e :: e in s.log && e.Published? && e.job == id)
  {
    hide Safe, Exec;
    InitialIsSafe();
    RunEnds(INITIAL, steps);
    Refinement.SucceededIffPublished(steps, id);
  }
}
