/**
 The protocol refines a ledger in which a job is open until it publishes its one outcome or is dropped, and a
 dataset shows what was published for it last.
*/
module Refinement {
  import opened Wrappers
  import opened Schema
  import opened Transitions
  import opened Consistency
  import opened Protocol
  import opened SoundRuns
  import opened Evolution
  import opened Safety
  import opened Guarantees

  // ---------- only a publication makes a job succeed, only a finished job is deleted

  ghost predicate Settling(jobs: map<Id, Job>, jobs': map<Id, Job>, except: Option<Id>)
  {
    && (forall id :: id in jobs && jobs[id].status.Active() ==> id in jobs')
    && (forall id :: id in jobs' && jobs'[id].status.Succeeded? && except != Some(id) ==> id in jobs && jobs[id].status.Succeeded?)
  }

  lemma {:induction false} SameSettles(jobs: map<Id, Job>)
    ensures Settling(jobs, jobs, None)
  {
  }

  lemma {:induction false} RowSettles(jobs: map<Id, Job>, id: Id, job: Job, except: Option<Id>)
    requires job.status.Succeeded? ==> except == Some(id) || (id in jobs && jobs[id].status.Succeeded?)
    ensures Settling(jobs, jobs[id := job], except)
  {
  }

  lemma {:induction false} DeletionSettles(jobs: map<Id, Job>, jobs': map<Id, Job>)
    requires forall id :: id in jobs' ==> id in jobs && jobs'[id] == jobs[id]
    requires forall id :: id in jobs && jobs[id].status.Active() ==> id in jobs'
    ensures Settling(jobs, jobs', None)
  {
  }

  lemma {:induction false} QueueSettles(t: Tables, publish: bool, target: Id)
    ensures Settling(t.jobs, Queue(t, publish, target).jobs, None)
  {
    hide FindJobFor, WithRunStatus, WithDeploymentStatus;
  }

  lemma {:induction false} CancelSettles(t: Tables, tenant: Id, id: Id)
    ensures Settling(t.jobs, CancelJob(t, tenant, id).0.jobs, None)
  {
    hide Settling, WithRunStatus, WithDeploymentStatus;
    SameSettles(t.jobs);
    if id in t.jobs {
      var marked := t.jobs[id].(cancelRequested := true);
      RowSettles(t.jobs, id, marked, None);
      RowSettles(t.jobs, id, marked.(status := Cancelled), None);
    }
  }

  lemma {:induction false} DeleteDatasetSettles(t: Tables, tenant: Id, slug: string, dropped: bool)
    ensures Settling(t.jobs, DeleteDataset(t, tenant, slug, dropped).0.jobs, None)
  {
    hide FindDataset, ForgetConnectors, Settling;
    SameSettles(t.jobs);
    var found := FindDataset(t.datasets, tenant, slug);
    if found.Some? && !DatasetBusy(t, found.value) { DeletionSettles(t.jobs, RemoveDataset(t, found.value).jobs); }
  }

  lemma {:induction false} DeleteAppSettles(t: Tables, tenant: Id, slug: string)
    ensures Settling(t.jobs, DeleteApp(t, tenant, slug).0.jobs, None)
  {
    hide FindApp, Settling;
    SameSettles(t.jobs);
    var found := FindApp(t.apps, tenant, slug);
    if found.Some? && !AppBusy(t, found.value) { DeletionSettles(t.jobs, RemoveApp(t, found.value).jobs); }
  }

  lemma {:induction false} UserSettles(t: Tables, tenant: Id, a: UserAction)
    ensures Settling(t.jobs, ActUser(t, tenant, a).jobs, None)
  {
    hide Settling, FindJob, FindJobFor, FindDataset, FindApp, FindConnector, FindQuery, QuotaAllows, QueueFull,
         DeploymentSlots, RevisionSlots, QueryInUse, WithRunStatus, WithDeploymentStatus, ForgetConnectors, Queue,
         DeleteDataset, DeleteApp, CancelJob;
    SameSettles(t.jobs);
    match a
    case CreateUpload(_, _, _, key) =>
      RowSettles(t.jobs, t.nextId + 2, Job(tenant, DatasetImport, key, t.nextId + 1, AwaitingUpload, t.now, None, 0, false), None);
    case FinishUpload(run) => QueueSettles(t, false, run);
    case SyncNow(_, request) =>
      RowSettles(t.jobs, t.nextId + 1, Job(tenant, ConnectorSync, Manual(request), t.nextId, Queued, t.now, None, 0, false), None);
    case Cancel(job) => CancelSettles(t, tenant, job);
    case CreateRelease(_, _, _, key) =>
      RowSettles(t.jobs, t.nextId + 2, Job(tenant, AppPublish, key, t.nextId + 1, AwaitingUpload, t.now, None, 0, false), None);
    case FinishRelease(d) => QueueSettles(t, true, d);
    case DropDataset(slug, dropped) => DeleteDatasetSettles(t, tenant, slug, dropped);
    case DropApp(slug) => DeleteAppSettles(t, tenant, slug);
    case _ =>
  }

  lemma {:induction false} EnqueueSettles(t: Tables, id: Id)
    ensures Settling(t.jobs, EnqueueDueConnector(t, id).0.jobs, None)
  {
    hide FindJob, QueueFull, Settling;
    SameSettles(t.jobs);
    if Due(t, id) {
      var row := t.connectors[id];
      RowSettles(t.jobs, t.nextId + 1, Job(row.tenant, ConnectorSync, Scheduled(id, row.nextSyncAt), t.nextId, Queued, t.now, None, 0, false), None);
    }
  }

  lemma {:induction false} ImportSettles(t: Tables, c: Claim, result: ImportResult)
    ensures Settling(t.jobs, CompleteImport(t, c, result).jobs, if ImportCompletes(t, c) then Some(c.job) else None)
  {
    hide Settling, WithRunStatus, WithDeploymentStatus;
    SameSettles(t.jobs);
    if ImportCompletes(t, c) { RowSettles(t.jobs, c.job, t.jobs[c.job].(status := Succeeded, lease := None), Some(c.job)); }
  }

  lemma {:induction false} ReleaseSettles(t: Tables, c: Claim, queries: seq<PublishedQuery>)
    ensures var r := CompletePublish(t, c, queries); Settling(t.jobs, r.0.jobs, if r.1.Ok? then Some(c.job) else None)
  {
    hide GrantAll, Settling, WithRunStatus, WithDeploymentStatus;
    SameSettles(t.jobs);
    if PublishCompletes(t, c) {
      GrantAllLeavesJobs(t, c.tenant, t.jobs[c.job].target, queries);
      RowSettles(t.jobs, c.job, t.jobs[c.job].(status := Succeeded, lease := None), Some(c.job));
    }
  }

  lemma {:induction false} TakeSettles(t: Tables, id: Id, worker: Worker, lease: Time)
    requires id in t.jobs
    ensures Settling(t.jobs, Take(t, id, worker, lease).jobs, None)
  {
    hide WithRunStatus, WithDeploymentStatus;
  }

  lemma {:induction false} EndSettles(t: Tables, c: Claim, lease: Time, delay: Time)
    ensures Settling(t.jobs, Heartbeat(t, c, lease).jobs, None)
    ensures Settling(t.jobs, Fail(t, c).jobs, None)
    ensures Settling(t.jobs, CancelClaimed(t, c).jobs, None)
    ensures Settling(t.jobs, Retry(t, c, delay).jobs, None)
  {
    hide Settling, WithRunStatus, WithDeploymentStatus;
    SameSettles(t.jobs);
    if Holds(t.jobs, c) {
      var job := t.jobs[c.job].(lease := None);
      RowSettles(t.jobs, c.job, t.jobs[c.job].(lease := Some(Lease(c.worker, t.now + lease))), None);
      RowSettles(t.jobs, c.job, job.(status := Failed), None);
      RowSettles(t.jobs, c.job, job.(status := Cancelled), None);
      RowSettles(t.jobs, c.job, job.(status := Queued, availableAt := t.now + delay), None);
    }
  }

  // ---------- the event of a step

  /** What the step publishes, if it publishes. */
  ghost function Publishes(s: System, w: Worker, a: WorkerAction): Option<Event>
    requires Enabled(s, w, a)
  {
    var log' := ActWorker(s, w, a).log;
    if |log'| > |s.log| && log'[|s.log|].Published? then Some(log'[|s.log|]) else None
  }

  function JobOf(p: Option<Event>): Option<Id>
  {
    if p.Some? && p.value.Published? then Some(p.value.job) else None
  }

  lemma {:induction false} WorkSettles(s: System, w: Worker, a: WorkerAction)
    requires Enabled(s, w, a)
    ensures var p := Publishes(s, w, a);
            && Settling(s.db.jobs, ActWorker(s, w, a).db.jobs, JobOf(p))
            && (p.Some? ==> ActWorker(s, w, a).log == s.log + [p.value] && At(s, w).Busy? && Holds(s.db.jobs, At(s, w).claim) && p.value.job == At(s, w).claim.job)
            && (p.None? ==> forall e :: e in ActWorker(s, w, a).log && e.Published? ==> e in s.log)
  {
    hide Settling, EnqueueDueConnector, Take, Heartbeat, SetConnectorRunBytes, CompletePublish, CompleteImport,
         CancelClaimed, Retry, Fail, FromManifest;
    var t := s.db;
    var me := At(s, w);
    SameSettles(t.jobs);
    match a
    case Enqueue(connector) => EnqueueSettles(t, connector);
    case ClaimJob(_, id, lease) => TakeSettles(t, id, w, lease);
    case RenewBeat(lease, _) => EndSettles(t, me.claim, lease, 0);
    case SetBytes(bytes) => BytesLeaveJobs(t, me.claim, bytes);
    case PublishSnapshot(result, _) => ImportSettles(t, me.claim, result);
    case PublishRelease(queries, _) =>
      ReleaseSettles(t, me.claim, queries);
      if !PublishCompletes(t, me.claim) { CompletePublishRefused(t, me.claim, queries); }
    case RetryMine(delay) => EndSettles(t, me.claim, 0, delay);
    case CancelMine => EndSettles(t, me.claim, 0, 0);
    case FailMine => EndSettles(t, me.claim, 0, 0);
    case _ =>
  }

  lemma {:induction false} BytesLeaveJobs(t: Tables, c: Claim, bytes: int)
    ensures SetConnectorRunBytes(t, c, bytes).0.jobs == t.jobs
  {
    hide StoredBytes;
  }

  // ---------- the ledger

  datatype Fate = Absent | Open | Dropped | Out(outcome: Outcome)

  ghost predicate Logged(log: seq<Event>, id: Id)
  {
    exists o :: Published(id, o) in log
  }

  ghost function OutcomeOf(log: seq<Event>, id: Id): (o: Outcome)
    requires Logged(log, id)
    ensures Published(id, o) in log
  {
    var o :| Published(id, o) in log;
    o
  }

  ghost function FateOf(s: System, id: Id): Fate
  {
    if Logged(s.log, id) then Out(OutcomeOf(s.log, id))
    else if id !in s.db.jobs then Absent
    else if s.db.jobs[id].status.Active() then Open
    else Dropped
  }

  function Displayed(s: System, d: Id): Option<Publication>
  {
    if d in s.db.datasets then s.db.datasets[d].current else None
  }

  /** Opened once under a new identifier, dropped, or deleted after being dropped. */
  predicate FateMoves(a: Fate, b: Fate, unused: bool)
  {
    a == b || (a.Absent? && b.Open? && unused) || (a.Open? && b.Dropped?) || (a.Dropped? && b.Absent?)
  }

  predicate SnapshotFor(p: Option<Event>, d: Id)
  {
    p.Some? && p.value.Published? && p.value.outcome.Snapshot? && p.value.outcome.dataset == d
  }

  /** One step of the ledger: at most the published job goes from open to out, and only its dataset shows something else. */
  ghost predicate LedgerStep(s: System, s': System, p: Option<Event>)
  {
    && (forall id: Id :: if JobOf(p) == Some(id) then FateOf(s, id).Open? && FateOf(s', id) == Out(p.value.outcome)
                     else FateMoves(FateOf(s, id), FateOf(s', id), id >= s.db.nextId))
    && (forall d: Id :: d in s'.db.datasets ==>
          Displayed(s', d) == if SnapshotFor(p, d) then Some(p.value.outcome.publication) else Displayed(s, d))
  }

  /** Every job that succeeded has its publication in the log. */
  ghost predicate Credited(s: System)
  {
    forall id :: id in s.db.jobs && s.db.jobs[id].status.Succeeded? ==> Logged(s.log, id)
  }

  lemma {:induction false} StaysLogged(log: seq<Event>, log': seq<Event>, id: Id)
    requires Logged(log, id) && log <= log'
    ensures Logged(log', id)
  {
    var o :| Published(id, o) in log;
    assert Published(id, o) in log';
  }

  lemma {:induction false} StaysCredited(s: System, s': System, p: Option<Event>)
    requires Credited(s) && Settling(s.db.jobs, s'.db.jobs, JobOf(p)) && s.log <= s'.log
    requires p.Some? && p.value.Published? ==> p.value in s'.log
    ensures Credited(s')
  {
    forall id | id in s'.db.jobs && s'.db.jobs[id].status.Succeeded? ensures Logged(s'.log, id) {
      if JobOf(p) == Some(id) {
        assert Published(id, p.value.outcome) in s'.log;
      } else {
        StaysLogged(s.log, s'.log, id);
      }
    }
  }

  lemma {:induction false} FateMovesOn(s: System, s': System, claimed: Option<Id>, p: Option<Event>, id: Id)
    requires Credited(s) && JobsEvolve(s.db.jobs, s'.db.jobs, s.db.nextId, claimed) && Settling(s.db.jobs, s'.db.jobs, JobOf(p))
    requires JobOf(p) != Some(id) && (s'.log == s.log || exists e :: s'.log == s.log + [e] && (e.Published? ==> e.job != id))
    requires PublishedOnce(s.log) && PublishedOnce(s'.log)
    ensures FateMoves(FateOf(s, id), FateOf(s', id), id >= s.db.nextId)
  {
    if Logged(s.log, id) {
      StaysLogged(s.log, s'.log, id);
      var o :| Published(id, o) in s.log;
      OneFate(s, id, o);
      OneFate(s', id, o);
    } else {
      assert !Logged(s'.log, id);
    }
  }

  lemma {:induction false} OneFate(s: System, id: Id, o: Outcome)
    requires PublishedOnce(s.log) && Published(id, o) in s.log
    ensures FateOf(s, id) == Out(o)
  {
  }

  lemma {:induction false} DatasetsMoveOn(s: System, s': System, published: Option<Id>, p: Option<Event>)
    requires DatasetsEvolve(s.db.datasets, s'.db.datasets, s.db.nextId, published)
    requires forall d :: d in s.db.datasets ==> d < s.db.nextId
    requires Safety.Shown(s'.db.datasets, s'.db.runs, s'.log, s'.db.nextId)
    requires if p.Some? then s'.log == s.log + [p.value] && (published.Some? ==> SnapshotFor(p, published.value)) else published.None?
    ensures forall d: Id :: d in s'.db.datasets ==>
              Displayed(s', d) == if SnapshotFor(p, d) then Some(p.value.outcome.publication) else Displayed(s, d)
  {
    forall d | d in s'.db.datasets
      ensures Displayed(s', d) == if SnapshotFor(p, d) then Some(p.value.outcome.publication) else Displayed(s, d) {
      assert Shows(s'.db.datasets[d], d, s'.db.runs, s'.log);
      if p.Some? { LatestAppend(s.log, p.value, d); }
    }
  }

  // ---------- every step refines a step of the ledger

  lemma {:induction false} DatasetsBelow(t: Tables)
    requires Sound(t)
    ensures forall d :: d in t.datasets ==> d < t.nextId
  {
    hide JobsSound, RunRows, DatasetRows, ConnectorRows, AppsSound, QueriesSound, GrantsSound;
  }

  lemma {:induction false} SafeLog(s: System)
    requires Safe(s)
    ensures PublishedOnce(s.log) && Safety.Shown(s.db.datasets, s.db.runs, s.log, s.db.nextId)
    ensures PublishedFinal(s.log, s.db.jobs, s.db.nextId)
  {
    hide Sound, ClaimsFit, Fenced, Safety.Shown, PublishedFinal, PublishedOnce, CancelledWasAsked;
  }

  lemma {:induction false} DatasetsPart(t: Tables, t': Tables, claimed: Option<Id>, published: Option<Id>)
    requires Evolves(t, t', claimed, published)
    ensures DatasetsEvolve(t.datasets, t'.datasets, t.nextId, published)
  {
    hide JobsEvolve, RunsEvolve, DatasetsEvolve, DeploymentsEvolve;
  }

  /** A running job whose lease the worker holds was still open. */
  lemma {:induction false} HeldIsOpen(s: System, c: Claim)
    requires Safe(s) && Holds(s.db.jobs, c)
    ensures FateOf(s, c.job).Open?
  {
    hide Safe, Safety.Shown, PublishedOnce;
    SafeLog(s);
    RunningIsUnpublished(s, c.job);
  }

  lemma {:induction false} PublishedDataset(s: System, w: Worker, a: WorkerAction)
    requires Enabled(s, w, a)
    ensures var d, p := PublishedBy(s, w, a), Publishes(s, w, a);
            (d.Some? ==> p.Some? && SnapshotFor(p, d.value))
  {
    hide EnqueueDueConnector, Take, Heartbeat, SetConnectorRunBytes, CompletePublish, CompleteImport, CancelClaimed,
         Retry, Fail, FromManifest;
  }

  lemma {:induction false} WorkRefines(s: System, w: Worker, a: WorkerAction)
    requires Safe(s) && Credited(s) && Enabled(s, w, a)
    ensures LedgerStep(s, ActWorker(s, w, a), Publishes(s, w, a)) && Credited(ActWorker(s, w, a))
  {
    hide Safe, Safety.Shown, Evolves, JobsEvolve, DatasetsEvolve, Settling, PublishedOnce, PublishedFinal, Credited,
         FateOf, FateMoves, ActWorker, Enabled, SnapshotFor, Holds, Publishes, Displayed;
    var s' := ActWorker(s, w, a);
    var p := Publishes(s, w, a);
    SafeParts(s);
    SafeLog(s);
    WorkStaysSafe(s, w, a);
    SafeLog(s');
    WorkEvolves(s, w, a);
    EvolvesParts(s.db, s'.db, ClaimedBy(a), PublishedBy(s, w, a));
    DatasetsPart(s.db, s'.db, ClaimedBy(a), PublishedBy(s, w, a));
    WorkSettles(s, w, a);
    PublishesPublished(s, w, a);
    PublishedDataset(s, w, a);
    LogGrows(s, w, a);
    DatasetsBelow(s.db);
    DatasetsMoveOn(s, s', PublishedBy(s, w, a), p);
    StaysCredited(s, s', p);
    forall id: Id ensures if JobOf(p) == Some(id) then FateOf(s, id).Open? && FateOf(s', id) == Out(p.value.outcome)
                      else FateMoves(FateOf(s, id), FateOf(s', id), id >= s.db.nextId) {
      if JobOf(p) == Some(id) {
        PublishedWasOpen(s, w, a);
        assert s'.log[|s.log|] == Published(id, p.value.outcome);
        OneFate(s', id, p.value.outcome);
      } else {
        FateMovesOn(s, s', ClaimedBy(a), p, id);
      }
    }
  }

  lemma {:induction false} PublishedWasOpen(s: System, w: Worker, a: WorkerAction)
    requires Safe(s) && Enabled(s, w, a) && Publishes(s, w, a).Some?
    ensures FateOf(s, Publishes(s, w, a).value.job).Open?
  {
    hide Safe, FateOf, ActWorker, Settling, Publishes, Holds;
    PublishesPublished(s, w, a);
    WorkSettles(s, w, a);
    HeldIsOpen(s, At(s, w).claim);
  }

  lemma {:induction false} PublishesPublished(s: System, w: Worker, a: WorkerAction)
    requires Enabled(s, w, a)
    ensures Publishes(s, w, a).Some? ==> Publishes(s, w, a).value.Published?
  {
    hide ActWorker, Enabled;
  }

  lemma {:induction false} LogGrows(s: System, w: Worker, a: WorkerAction)
    requires Enabled(s, w, a)
    ensures var log' := ActWorker(s, w, a).log;
            && s.log <= log'
            && (log' == s.log || (log' == s.log + [log'[|s.log|]] && (log'[|s.log|].Published? ==> Publishes(s, w, a) == Some(log'[|s.log|]))))
  {
    hide EnqueueDueConnector, Take, Heartbeat, SetConnectorRunBytes, CompletePublish, CompleteImport, CancelClaimed,
         Retry, Fail, FromManifest;
  }

  lemma {:induction false} UserRefines(s: System, tenant: Id, a: UserAction)
    requires Safe(s) && Credited(s)
    ensures var s' := s.(db := ActUser(s.db, tenant, a)); LedgerStep(s, s', None) && Credited(s')
  {
    hide Safe, Safety.Shown, Evolves, JobsEvolve, DatasetsEvolve, Settling, PublishedOnce, PublishedFinal, Credited,
         FateOf, FateMoves, ActUser, Displayed;
    var s' := s.(db := ActUser(s.db, tenant, a));
    SafeParts(s);
    SafeLog(s);
    UserStaysSafe(s, tenant, a);
    SafeLog(s');
    UserEvolves(s.db, tenant, a);
    EvolvesParts(s.db, s'.db, None, None);
    DatasetsPart(s.db, s'.db, None, None);
    UserSettles(s.db, tenant, a);
    DatasetsBelow(s.db);
    DatasetsMoveOn(s, s', None, None);
    StaysCredited(s, s', None);
    forall id: Id ensures FateMoves(FateOf(s, id), FateOf(s', id), id >= s.db.nextId) { FateMovesOn(s, s', None, None, id); }
  }

  /** What a step of the whole system publishes. */
  ghost function StepPublishes(s: System, step: Step): Option<Event>
  {
    var s1 := s.(db := Later(s.db, step.elapsed));
    if step.Work? && Enabled(s1, step.worker, step.work) then Publishes(s1, step.worker, step.work) else None
  }

  lemma {:induction false} StepRefines(s: System, step: Step)
    requires Safe(s) && Credited(s)
    ensures LedgerStep(s, Apply(s, step), StepPublishes(s, step)) && Credited(Apply(s, step))
  {
    hide Safe, LedgerStep, ActUser, ActWorker, Enabled, Publishes, Said, PublishedOnce, PublishedFinal, Safety.Shown, Settling;
    var s1 := s.(db := Later(s.db, step.elapsed));
    LaterStaysSafe(s, step.elapsed);
    match step
    case User(_, tenant, a) =>
      UserRefines(s1, tenant, a);
      SaidIsShort(s1.db, tenant, a);
      UserStaysSafe(s1, tenant, a);
      SafeLog(s1.(db := ActUser(s1.db, tenant, a)));
      StepStaysSafe(s, step);
      SafeLog(Apply(s, step));
      LogsNoLedgerStep(s1, s1.(db := ActUser(s1.db, tenant, a)), Said(s1.db, tenant, a));
      FromLater(s, step.elapsed, Apply(s, step), None);
    case Work(_, w, a) =>
      if Enabled(s1, w, a) { WorkRefines(s1, w, a); } else { Stutters(s1); }
      FromLater(s, step.elapsed, Apply(s, step), StepPublishes(s, step));
  }

  /** What is no publication makes no difference to the ledger. */
  lemma {:induction false} LogsNoLedgerStep(s: System, s': System, said: seq<Event>)
    requires PublishedOnce(s'.log) && PublishedOnce(s'.log + said)
    requires LedgerStep(s, s', None) && Credited(s') && (said == [] || (|said| == 1 && !said[0].Published?))
    ensures LedgerStep(s, s'.(log := s'.log + said), None) && Credited(s'.(log := s'.log + said))
  {
    var s'' := s'.(log := s'.log + said);
    if said == [] { assert s'' == s'; } else {
      assert forall e: Event :: e in s''.log <==> e in s'.log || e == said[0];
      forall id: Id ensures FateOf(s'', id) == FateOf(s', id) { SameFate(s', s'', id); }
      forall id | id in s''.db.jobs && s''.db.jobs[id].status.Succeeded? ensures Logged(s''.log, id) { StaysLogged(s'.log, s''.log, id); }
    }
  }

  lemma {:induction false} SameFate(s: System, s': System, id: Id)
    requires PublishedOnce(s.log) && PublishedOnce(s'.log)
    requires s'.db == s.db && forall e: Event :: e.Published? ==> (e in s'.log <==> e in s.log)
    ensures FateOf(s', id) == FateOf(s, id)
  {
    if Logged(s.log, id) {
      var o :| Published(id, o) in s.log;
      OneFate(s, id, o);
      OneFate(s', id, o);
    }
  }

  lemma {:induction false} Stutters(s: System)
    ensures LedgerStep(s, s, None)
  {
  }

  lemma {:induction false} FromLater(s: System, elapsed: nat, s': System, p: Option<Event>)
    requires LedgerStep(s.(db := Later(s.db, elapsed)), s', p)
    ensures LedgerStep(s, s', p)
  {
    var s1 := s.(db := Later(s.db, elapsed));
    forall id: Id ensures FateOf(s, id) == FateOf(s1, id) {
    }
  }

  lemma {:induction false} RunStaysCredited(s: System, steps: seq<Step>)
    requires Safe(s) && Credited(s)
    ensures Credited(Exec(s, steps))
    decreases |steps|
  {
    hide Safe, Credited, Apply, LedgerStep, StepPublishes;
    if steps != [] {
      StepStaysSafe(s, steps[0]);
      StepRefines(s, steps[0]);
      RunStaysCredited(Apply(s, steps[0]), steps[1..]);
    }
  }

  /** Whatever happens next in any run, it is one step of the ledger. */
  lemma {:induction false} PublishOnceOrNothing(steps: seq<Step>, step: Step)
    ensures var s := Exec(INITIAL, steps); LedgerStep(s, Apply(s, step), StepPublishes(s, step))
  {
    hide Safe, Credited, Apply, LedgerStep, StepPublishes, Exec;
    InitialIsSafe();
    ReachableIsSafe(steps);
    assert Credited(INITIAL) by { NothingCredited(); }
    RunStaysCredited(INITIAL, steps);
    StepRefines(Exec(INITIAL, steps), step);
  }

  lemma {:induction false} NothingCredited()
    ensures Credited(INITIAL)
  {
  }

  /** A job succeeded exactly when it published. */
  lemma {:induction false} SucceededIffPublished(steps: seq<Step>, id: Id)
    requires id in Exec(INITIAL, steps).db.jobs
    ensures var s := Exec(INITIAL, steps);
            s.db.jobs[id].status.Succeeded? <==> exists e :: e in s.log && e.Published? && e.job == id
  {
    hide Safe, Exec, Safety.Shown;
    InitialIsSafe();
    ReachableIsSafe(steps);
    NothingCredited();
    RunStaysCredited(INITIAL, steps);
    var s := Exec(INITIAL, steps);
    SafeLog(s);
  }
}
