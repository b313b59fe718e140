/** One live import a tenant: what heartbeats must do for it to hold in every state, and a run in which it fails. */
module Exclusion {
  import opened Wrappers
  import opened Manifests
  import opened Schema
  import opened Transitions
  import opened Protocol
  import opened Evolution
  import opened Safety
  import opened Guarantees
  import opened Leases
  import Totals

  // ---------- leases only come from claims and heartbeats

  predicate SameLease(a: Job, b: Job)
  {
    a.tenant == b.tenant && a.kind == b.kind && a.lease == b.lease
  }

  /** Every lease was there before. */
  ghost predicate NoNewLease(jobs: map<Id, Job>, jobs': map<Id, Job>)
  {
    forall id :: id in jobs' && jobs'[id].lease.Some? && jobs'[id].status.Running? ==>
      id in jobs && jobs[id].status.Running? && SameLease(jobs[id], jobs'[id])
  }

  lemma {:induction false} NoNewRival(jobs: map<Id, Job>, jobs': map<Id, Job>, now: Time, now': Time)
    requires Exclusive(jobs, now) && NoNewLease(jobs, jobs') && now <= now'
    ensures Exclusive(jobs', now')
  {
    forall a, b | a in jobs' && b in jobs' && Rivals(jobs'[a], jobs'[b], now') ensures a == b {
      assert Rivals(jobs[a], jobs[b], now);
    }
  }

  lemma {:induction false} RowLease(jobs: map<Id, Job>, id: Id, job: Job)
    requires job.lease.Some? && job.status.Running? ==> id in jobs && jobs[id].status.Running? && SameLease(jobs[id], job)
    ensures NoNewLease(jobs, jobs[id := job])
  {
  }

  lemma {:induction false} QueueLease(t: Tables, publish: bool, target: Id)
    ensures NoNewLease(t.jobs, Queue(t, publish, target).jobs)
  {
    hide FindJobFor, WithRunStatus, WithDeploymentStatus;
  }

  lemma {:induction false} CreateUploadLease(t: Tables, tenant: Id, slug: string, format: Format, bytes: int, key: Key)
    ensures NoNewLease(t.jobs, CreateDatasetUpload(t, tenant, slug, format, bytes, key).0.jobs)
  {
    hide FindJob, FindDataset, QuotaAllows, NoNewLease;
    StillNoNewLease(t.jobs);
    RowLease(t.jobs, t.nextId + 2, Job(tenant, DatasetImport, key, t.nextId + 1, AwaitingUpload, t.now, None, 0, false));
  }

  lemma {:induction false} CreateReleaseLease(t: Tables, tenant: Id, m: Manifest, checksum: Checksum, bytes: int, key: Key)
    ensures NoNewLease(t.jobs, CreateDeployment(t, tenant, m, checksum, bytes, key).0.jobs)
  {
    hide FindJob, FindApp, QuotaAllows, DeploymentSlots, NoNewLease;
    StillNoNewLease(t.jobs);
    RowLease(t.jobs, t.nextId + 2, Job(tenant, AppPublish, key, t.nextId + 1, AwaitingUpload, t.now, None, 0, false));
  }

  lemma {:induction false} CancelLease(t: Tables, tenant: Id, id: Id)
    ensures NoNewLease(t.jobs, CancelJob(t, tenant, id).0.jobs)
  {
    hide WithRunStatus, WithDeploymentStatus, NoNewLease;
    StillNoNewLease(t.jobs);
    if id in t.jobs {
      var marked := t.jobs[id].(cancelRequested := true);
      if marked.status.Running? { RowLease(t.jobs, id, marked); }
      RowLease(t.jobs, id, marked.(status := Cancelled));
    }
  }

  lemma {:induction false} UploadsLease(t: Tables, tenant: Id, a: UserAction)
    requires a.CreateUpload? || a.FinishUpload? || a.CreateRelease? || a.FinishRelease? || a.Cancel?
    ensures NoNewLease(t.jobs, ActUser(t, tenant, a).jobs)
  {
    hide NoNewLease, CreateDatasetUpload, Queue, CancelJob, CreateDeployment;
    StillNoNewLease(t.jobs);
    match a
    case CreateUpload(slug, format, bytes, key) => CreateUploadLease(t, tenant, slug, format, bytes, key);
    case FinishUpload(run) => QueueLease(t, false, run);
    case CreateRelease(manifest, checksum, bytes, key) => CreateReleaseLease(t, tenant, manifest, checksum, bytes, key);
    case FinishRelease(d) => QueueLease(t, true, d);
    case Cancel(id) => CancelLease(t, tenant, id);
  }

  lemma {:induction false} FewerLeases(jobs: map<Id, Job>, jobs': map<Id, Job>)
    requires forall id :: id in jobs' ==> id in jobs && jobs'[id] == jobs[id]
    ensures NoNewLease(jobs, jobs')
  {
  }

  lemma {:induction false} OthersLease(t: Tables, tenant: Id, a: UserAction)
    requires !(a.CreateUpload? || a.FinishUpload? || a.CreateRelease? || a.FinishRelease? || a.Cancel?)
    ensures NoNewLease(t.jobs, ActUser(t, tenant, a).jobs)
  {
    hide NoNewLease, FindJob, FindDataset, FindApp, FindConnector, FindQuery, QueueFull, RevisionSlots, DatasetBusy,
         AppBusy, QueryInUse, ForgetConnectors;
    StillNoNewLease(t.jobs);
    match a
    case SyncNow(_, request) =>
      RowLease(t.jobs, t.nextId + 1, Job(tenant, ConnectorSync, Manual(request), t.nextId, Queued, t.now, None, 0, false));
    case DropDataset(_, _) => FewerLeases(t.jobs, ActUser(t, tenant, a).jobs);
    case DropApp(_) => FewerLeases(t.jobs, ActUser(t, tenant, a).jobs);
    case _ =>
  }

  /** The claim whose heartbeat the action lands, if it lands. */
  predicate Renews(s: System, w: Worker, a: WorkerAction)
  {
    a.RenewBeat? && !a.broken && At(s, w).Busy? && Holds(s.db.jobs, At(s, w).claim)
  }

  lemma {:induction false} EndLease(t: Tables, c: Claim, result: ImportResult, delay: Time)
    ensures NoNewLease(t.jobs, CompleteImport(t, c, result).jobs)
    ensures NoNewLease(t.jobs, Fail(t, c).jobs)
    ensures NoNewLease(t.jobs, CancelClaimed(t, c).jobs)
    ensures NoNewLease(t.jobs, Retry(t, c, delay).jobs)
  {
    hide WithRunStatus, WithDeploymentStatus, NoNewLease;
    StillNoNewLease(t.jobs);
    if Holds(t.jobs, c) {
      var job := t.jobs[c.job].(lease := None);
      RowLease(t.jobs, c.job, job.(status := Succeeded));
      RowLease(t.jobs, c.job, job.(status := Failed));
      RowLease(t.jobs, c.job, job.(status := Cancelled));
      RowLease(t.jobs, c.job, job.(status := Queued, availableAt := t.now + delay));
    }
  }

  lemma {:induction false} EnqueueLease(t: Tables, id: Id)
    ensures NoNewLease(t.jobs, EnqueueDueConnector(t, id).0.jobs)
  {
    hide FindJob, QueueFull, NoNewLease;
    StillNoNewLease(t.jobs);
    if Due(t, id) {
      var row := t.connectors[id];
      RowLease(t.jobs, t.nextId + 1, Job(row.tenant, ConnectorSync, Scheduled(id, row.nextSyncAt), t.nextId, Queued, t.now, None, 0, false));
    }
  }

  lemma {:induction false} WorkLease(s: System, w: Worker, a: WorkerAction)
    requires Enabled(s, w, a) && !a.ClaimJob? && !Renews(s, w, a)
    ensures NoNewLease(s.db.jobs, ActWorker(s, w, a).db.jobs)
  {
    hide NoNewLease, EnqueueDueConnector, CompletePublish, CompleteImport, CancelClaimed, Retry, Fail, FromManifest,
         StoredBytes;
    var t := s.db;
    var me := At(s, w);
    StillNoNewLease(t.jobs);
    match a
    case Enqueue(connector) => EnqueueLease(t, connector);
    case PublishSnapshot(result, _) => EndLease(t, me.claim, result, 0);
    case PublishRelease(queries, _) => ReleaseLease(t, me.claim, queries);
    case RetryMine(delay) => EndLease(t, me.claim, ImportResult(0, 0, ""), delay);
    case CancelMine => EndLease(t, me.claim, ImportResult(0, 0, ""), 0);
    case FailMine => EndLease(t, me.claim, ImportResult(0, 0, ""), 0);
    case _ =>
  }

  lemma {:induction false} ReleaseLease(t: Tables, c: Claim, queries: seq<PublishedQuery>)
    ensures NoNewLease(t.jobs, CompletePublish(t, c, queries).0.jobs)
  {
    hide GrantAll;
    if PublishCompletes(t, c) { GrantAllLeavesJobs(t, c.tenant, t.jobs[c.job].target, queries); }
  }

  // ---------- heartbeats in time

  /** A heartbeat of an import or sync lands no later than the lease it renews. */
  predicate Timely(s: System, step: Step)
  {
    var s1 := s.(db := Later(s.db, step.elapsed));
    step.Work? && Renews(s1, step.worker, step.work) ==>
      var job := s1.db.jobs[At(s1, step.worker).claim.job];
      ForRun(job.kind) ==> job.lease.value.expires >= s1.db.now
  }

  ghost predicate TimelyRun(s: System, steps: seq<Step>)
    decreases |steps|
  {
    steps != [] ==> Timely(s, steps[0]) && TimelyRun(Apply(s, steps[0]), steps[1..])
  }

  lemma {:induction false} TakeStaysExclusive(t: Tables, kind: Kind, id: Id, worker: Worker, lease: Time)
    requires Exclusive(t.jobs, t.now) && Claimable(t.jobs, t.now, kind, id)
    ensures Exclusive(Take(t, id, worker, lease).jobs, t.now)
  {
    var jobs' := Take(t, id, worker, lease).jobs;
    forall a, b | a in jobs' && b in jobs' && Rivals(jobs'[a], jobs'[b], t.now) ensures a == b {
      if a != id && b != id {
        assert Rivals(t.jobs[a], t.jobs[b], t.now);
      }
    }
  }

  lemma {:induction false} BeatStaysExclusive(t: Tables, c: Claim, lease: Time)
    requires Exclusive(t.jobs, t.now) && Holds(t.jobs, c)
    requires ForRun(t.jobs[c.job].kind) ==> t.jobs[c.job].lease.value.expires >= t.now
    ensures Exclusive(Heartbeat(t, c, lease).jobs, t.now)
  {
    var jobs' := Heartbeat(t, c, lease).jobs;
    forall a, b | a in jobs' && b in jobs' && Rivals(jobs'[a], jobs'[b], t.now) ensures a == b {
      assert Rivals(t.jobs[a], t.jobs[b], t.now);
    }
  }

  lemma {:induction false} StepStaysExclusive(s: System, step: Step)
    requires Safe(s) && Exclusive(s.db.jobs, s.db.now) && Timely(s, step)
    ensures Exclusive(Apply(s, step).db.jobs, Apply(s, step).db.now)
  {
    hide Safe, Evolves, Exclusive, ActUser, NoNewLease, ActWorker, Enabled;
    var s1 := s.(db := Later(s.db, step.elapsed));
    StillNoNewLease(s.db.jobs);
    NoNewRival(s.db.jobs, s1.db.jobs, s.db.now, s1.db.now);
    LaterStaysSafe(s, step.elapsed);
    SafeParts(s1);
    match step
    case User(_, tenant, a) =>
      var t' := ActUser(s1.db, tenant, a);
      UserEvolves(s1.db, tenant, a);
      SameClock(s1.db, t', None, None);
      if a.CreateUpload? || a.FinishUpload? || a.CreateRelease? || a.FinishRelease? || a.Cancel? { UploadsLease(s1.db, tenant, a); }
      else { OthersLease(s1.db, tenant, a); }
      NoNewRival(s1.db.jobs, t'.jobs, s1.db.now, t'.now);
    case Work(_, w, a) => if Enabled(s1, w, a) { WorkStaysExclusive(s1, w, a); }
  }

  lemma {:induction false} WorkStaysExclusive(s: System, w: Worker, a: WorkerAction)
    requires Safe(s) && Exclusive(s.db.jobs, s.db.now) && Enabled(s, w, a)
    requires Renews(s, w, a) ==>
               var job := s.db.jobs[At(s, w).claim.job]; ForRun(job.kind) ==> job.lease.value.expires >= s.db.now
    ensures var t' := ActWorker(s, w, a).db; Exclusive(t'.jobs, t'.now)
  {
    hide Safe, Evolves, Exclusive, NoNewLease, EnqueueDueConnector, Take, Heartbeat, SetConnectorRunBytes,
         CompletePublish, CompleteImport, CancelClaimed, Retry, Fail, FromManifest, Claimable;
    var t' := ActWorker(s, w, a).db;
    SafeParts(s);
    WorkEvolves(s, w, a);
    SameClock(s.db, t', ClaimedBy(a), PublishedBy(s, w, a));
    if a.ClaimJob? {
      TakeStaysExclusive(s.db, a.kind, a.id, w, a.lease);
    } else if Renews(s, w, a) {
      BeatStaysExclusive(s.db, At(s, w).claim, a.lease);
    } else {
      WorkLease(s, w, a);
      NoNewRival(s.db.jobs, t'.jobs, s.db.now, t'.now);
    }
  }

  lemma {:induction false} StillNoNewLease(jobs: map<Id, Job>)
    ensures NoNewLease(jobs, jobs)
  {
  }

  lemma {:induction false} SameClock(t: Tables, t': Tables, claimed: Option<Id>, published: Option<Id>)
    requires Evolves(t, t', claimed, published)
    ensures t'.now == t.now
  {
    hide JobsEvolve, RunsEvolve, DatasetsEvolve, DeploymentsEvolve;
  }

  lemma {:induction false} RunStaysExclusive(s: System, steps: seq<Step>)
    requires Safe(s) && Exclusive(s.db.jobs, s.db.now) && TimelyRun(s, steps)
    ensures Exclusive(Exec(s, steps).db.jobs, Exec(s, steps).db.now)
    decreases |steps|
  {
    hide Safe, Exclusive, Apply, Timely;
    if steps != [] {
      StepStaysSafe(s, steps[0]);
      StepStaysExclusive(s, steps[0]);
      RunStaysExclusive(Apply(s, steps[0]), steps[1..]);
    }
  }

  // ---------- exactly which heartbeats

  /** A heartbeat of an import or sync that lands is in time, or finds no rival. */
  ghost predicate Harmless(s: System, step: Step)
  {
    var s1 := s.(db := Later(s.db, step.elapsed));
    step.Work? && Enabled(s1, step.worker, step.work) && Renews(s1, step.worker, step.work) ==>
      var id := At(s1, step.worker).claim.job;
      ForRun(s1.db.jobs[id].kind) && step.work.lease >= 0 ==>
        s1.db.jobs[id].lease.value.expires >= s1.db.now || !OtherLive(s1.db.jobs, s1.db.now, id)
  }

  lemma {:induction false} PastBeatStaysExclusive(t: Tables, c: Claim, lease: Time)
    requires Exclusive(t.jobs, t.now) && Holds(t.jobs, c) && (lease < 0 || !ForRun(t.jobs[c.job].kind))
    ensures Exclusive(Heartbeat(t, c, lease).jobs, t.now)
  {
    var jobs' := Heartbeat(t, c, lease).jobs;
    forall a, b | a in jobs' && b in jobs' && Rivals(jobs'[a], jobs'[b], t.now) ensures a == b {
      assert Rivals(t.jobs[a], t.jobs[b], t.now);
    }
  }

  /** The landing heartbeat itself. */
  lemma {:induction false} BeatLands(s: System, w: Worker, a: WorkerAction)
    requires Enabled(s, w, a) && Renews(s, w, a)
    ensures At(s, w).claim.job in s.db.jobs
    ensures ActWorker(s, w, a).db == Heartbeat(s.db, At(s, w).claim, a.lease)
  {
    hide Heartbeat;
  }

  lemma {:induction false} IdleBeats(s: System, step: Step)
    requires step.Work? && !Enabled(s.(db := Later(s.db, step.elapsed)), step.worker, step.work)
    requires Exclusive(s.db.jobs, s.db.now)
    ensures Exclusive(Apply(s, step).db.jobs, Apply(s, step).db.now)
  {
    hide ActWorker, Enabled, Exclusive, NoNewLease;
    StillNoNewLease(s.db.jobs);
    NoNewRival(s.db.jobs, s.db.jobs, s.db.now, Later(s.db, step.elapsed).now);
  }

  /** One step from an exclusive state ends in one exactly when it is harmless. */
  lemma {:induction false} StepExcludesIff(s: System, step: Step)
    requires Safe(s) && Exclusive(s.db.jobs, s.db.now)
    ensures Exclusive(Apply(s, step).db.jobs, Apply(s, step).db.now) <==> Harmless(s, step)
  {
    hide Safe, Exclusive, ActUser, ActWorker, Enabled, NoNewLease, Holds, Heartbeat, OtherLive;
    var s1 := s.(db := Later(s.db, step.elapsed));
    if step.Work? && !Enabled(s1, step.worker, step.work) {
      IdleBeats(s, step);
    } else if step.Work? && Renews(s1, step.worker, step.work) {
      StillNoNewLease(s.db.jobs);
      NoNewRival(s.db.jobs, s1.db.jobs, s.db.now, s1.db.now);
      var c := At(s1, step.worker).claim;
      BeatLands(s1, step.worker, step.work);
      BeatClock(s1.db, c, step.work.lease);
      if ForRun(s1.db.jobs[c.job].kind) && step.work.lease >= 0 {
        HeartbeatExcludesIff(s1.db, c, step.work.lease);
      } else {
        PastBeatStaysExclusive(s1.db, c, step.work.lease);
      }
    } else {
      StepStaysExclusive(s, step);
    }
  }

  lemma {:induction false} BeatClock(t: Tables, c: Claim, lease: Time)
    ensures Heartbeat(t, c, lease).now == t.now
  {
  }

  ghost predicate ExclusiveAfter(steps: seq<Step>, k: nat)
    requires k <= |steps|
  {
    var t := Exec(INITIAL, steps[..k]).db;
    Exclusive(t.jobs, t.now)
  }

  ghost predicate HarmlessAt(steps: seq<Step>, k: nat)
    requires k < |steps|
  {
    Harmless(Exec(INITIAL, steps[..k]), steps[k])
  }

  /** No two imports or syncs of a tenant are ever live together in a run exactly when each of its heartbeats is harmless. */
  lemma {:induction false} ExclusiveRunIff(steps: seq<Step>)
    ensures (forall k :: 0 <= k <= |steps| ==> ExclusiveAfter(steps, k)) <==> (forall k :: 0 <= k < |steps| ==> HarmlessAt(steps, k))
  {
    hide ExclusiveAfter, HarmlessAt;
    if forall k :: 0 <= k <= |steps| ==> ExclusiveAfter(steps, k) {
      forall k | 0 <= k < |steps| ensures HarmlessAt(steps, k) {
        assert ExclusiveAfter(steps, k + 1);
        NextExcludes(steps, k);
      }
    }
    if forall k :: 0 <= k < |steps| ==> HarmlessAt(steps, k) { AllExclude(steps, |steps|); }
  }

  lemma {:induction false} FirstExcludes(steps: seq<Step>)
    ensures ExclusiveAfter(steps, 0)
  {
    assert steps[..0] == [];
  }

  lemma {:induction false} NextExcludes(steps: seq<Step>, k: nat)
    requires k < |steps| && ExclusiveAfter(steps, k)
    ensures ExclusiveAfter(steps, k + 1) <==> HarmlessAt(steps, k)
  {
    hide Safe, Exclusive, Exec, Apply, Harmless;
    ReachableIsSafe(steps[..k]);
    StepExcludesIff(Exec(INITIAL, steps[..k]), steps[k]);
    assert steps[..k + 1] == steps[..k] + [steps[k]];
    ExecAppend(INITIAL, steps[..k], steps[k]);
  }

  lemma {:induction false} AllExclude(steps: seq<Step>, n: nat)
    requires n <= |steps| && forall k :: 0 <= k < n ==> HarmlessAt(steps, k)
    ensures forall k :: 0 <= k <= n ==> ExclusiveAfter(steps, k)
    decreases n
  {
    hide ExclusiveAfter, HarmlessAt;
    if n == 0 {
      FirstExcludes(steps);
    } else {
      AllExclude(steps, n - 1);
      NextExcludes(steps, n - 1);
    }
  }

  /** When every heartbeat lands in time, no two imports or syncs of a tenant are ever live together. */
  lemma {:induction false} OneLiveImportPerTenant(steps: seq<Step>, a: Id, b: Id)
    requires TimelyRun(INITIAL, steps)
    requires var t := Exec(INITIAL, steps).db; a in t.jobs && b in t.jobs && Rivals(t.jobs[a], t.jobs[b], t.now)
    ensures a == b
  {
    hide Safe, Exec, TimelyRun;
    InitialIsSafe();
    RunStaysExclusive(INITIAL, steps);
  }

  // ---------- a late heartbeat

  const LATE: seq<Step> := [
    User(0, 7, CreateUpload("a", Csv, 0, Client("one"))), User(0, 7, FinishUpload(1)),
    User(0, 7, CreateUpload("b", Csv, 0, Client("two"))), User(0, 7, FinishUpload(4)),
    Work(0, "w", ClaimJob(DatasetImport, 2, MINUTE)), Work(0, "w", CheckBeat(false)),
    Work(2 * MINUTE, "v", ClaimJob(DatasetImport, 5, MINUTE)), Work(0, "w", RenewBeat(MINUTE, false))]

  function Waiting(dataset: Id, run: Id, job: Id, slug: string, key: string, status: Status): Tables
  {
    Tables(map[job := Job(7, DatasetImport, Client(key), run, status, 0, None, 0, false)],
           map[run := SyncRun(7, dataset, None, status, Csv, 0, None)],
           map[dataset := Dataset(7, slug, None)], map[], map[], map[], map[], {}, map[], job + 1, 0)
  }

  const NARROW: Job := Job(7, DatasetImport, Client("one"), 1, Queued, 0, None, 0, false)
  const BROAD: Job := Job(7, DatasetImport, Client("two"), 4, Queued, 0, None, 0, false)

  function Both(status: Status): Tables
  {
    Tables(map[2 := NARROW, 5 := BROAD.(status := status)],
           map[1 := SyncRun(7, 0, None, Queued, Csv, 0, None), 4 := SyncRun(7, 3, None, status, Csv, 0, None)],
           map[0 := Dataset(7, "a", None), 3 := Dataset(7, "b", None)], map[], map[], map[], map[], {}, map[], 6, 0)
  }

  lemma {:induction false} EmptyQuota()
    ensures QuotaAllows(EMPTY, 7, 0, None)
  {
    assert RunWeights(EMPTY.runs, 7, None) == map[] && DeploymentWeights(EMPTY.deployments, 7) == map[];
  }

  lemma {:induction false} FirstUpload()
    ensures CreateDatasetUpload(EMPTY, 7, "a", Csv, 0, Client("one")).0 == Waiting(0, 1, 2, "a", "one", AwaitingUpload)
  {
    hide QuotaAllows, StoredBytes;
    EmptyQuota();
  }

  lemma {:induction false} FirstQueued()
    ensures CompleteDatasetUpload(Waiting(0, 1, 2, "a", "one", AwaitingUpload), 7, 1) == Waiting(0, 1, 2, "a", "one", Queued)
  {
    assert JobFor(Waiting(0, 1, 2, "a", "one", AwaitingUpload).jobs, 2, false, 1);
  }

  lemma {:induction false} QuotaIsFree(t: Tables)
    requires t == Waiting(0, 1, 2, "a", "one", Queued)
    ensures QuotaAllows(t, 7, 0, None)
  {
    assert RunWeights(t.runs, 7, None) == map[1 := 0] && DeploymentWeights(t.deployments, 7) == map[];
    Totals.TotalInsert(map[], 1, 0);
    assert map[][1 := 0] == map[1 := 0];
  }

  lemma {:induction false} NothingFound(t: Tables)
    requires t == Waiting(0, 1, 2, "a", "one", Queued)
    ensures FindJob(t.jobs, 7, DatasetImport, Client("two")).None? && FindDataset(t.datasets, 7, "b").None?
  {
    assert "a" != "b" by { assert "a"[0] != "b"[0]; }
    assert "one" != "two" by { assert "one"[0] != "two"[0]; }
  }

  lemma {:induction false} SecondUpload()
    ensures CreateDatasetUpload(Waiting(0, 1, 2, "a", "one", Queued), 7, "b", Csv, 0, Client("two")).0 == Both(AwaitingUpload)
  {
    hide QuotaAllows, StoredBytes, FindJob, FindDataset;
    var t := Waiting(0, 1, 2, "a", "one", Queued);
    QuotaIsFree(t);
    NothingFound(t);
    var t', both := CreateDatasetUpload(t, 7, "b", Csv, 0, Client("two")).0, Both(AwaitingUpload);
    assert t'.jobs == both.jobs && t'.runs == both.runs && t'.datasets == both.datasets;
  }

  lemma {:induction false} SecondQueued()
    ensures CompleteDatasetUpload(Both(AwaitingUpload), 7, 4) == Both(Queued)
  {
    hide FindJobFor;
    var t := Both(AwaitingUpload);
    SecondFound(t);
    var t' := CompleteDatasetUpload(t, 7, 4);
    assert t'.jobs == Both(Queued).jobs && t'.runs == Both(Queued).runs;
  }

  lemma {:induction false} SecondFound(t: Tables)
    requires t == Both(AwaitingUpload)
    ensures FindJobFor(t.jobs, false, 4) == Some(5)
  {
    assert JobFor(t.jobs, 5, false, 4);
  }

  lemma {:induction false} NextLate(s: System, k: nat)
    requires k < |LATE|
    ensures Exec(s, LATE[k..]) == Exec(Apply(s, LATE[k]), LATE[k + 1..])
  {
    hide Apply;
    assert LATE[k..][1..] == LATE[k + 1..];
  }

  lemma {:induction false} NothingLeft(s: System)
    ensures Exec(s, LATE[8..]) == s
  {
  }

  function Quiet(t: Tables): System { System(t, map[], []) }

  lemma {:induction false} UploadsRun()
    ensures Exec(INITIAL, LATE) == Exec(Quiet(Both(Queued)), LATE[4..])
  {
    hide CreateDatasetUpload, CompleteDatasetUpload, Exec, Waiting, Both;
    var a, b := Waiting(0, 1, 2, "a", "one", AwaitingUpload), Waiting(0, 1, 2, "a", "one", Queued);
    assert LATE[0..] == LATE;
    FirstUpload();
    FirstQueued();
    SecondUpload();
    SecondQueued();
    NextLate(INITIAL, 0);
    assert Apply(INITIAL, LATE[0]) == Quiet(a);
    NextLate(Quiet(a), 1);
    NextLate(Quiet(b), 2);
    NextLate(Quiet(Both(AwaitingUpload)), 3);
  }

  function Held(job: Job, w: Worker, until: Time): Job { job.(status := Running, lease := Some(Lease(w, until)), attempts := 1) }

  const FIRST := Claim(2, 7, 1, DatasetImport, "w", 1)

  lemma {:induction false} FirstClaims(s: System)
    requires s.workers == map[] && s.db.now == 0 && s.db.jobs == map[2 := NARROW, 5 := BROAD]
    ensures var s' := Apply(s, LATE[4]);
            && s'.db.now == 0 && s'.db.jobs == map[2 := Held(NARROW, "w", MINUTE), 5 := BROAD]
            && s'.workers == map["w" := Busy(FIRST, Working, AtWork, Protocol.Waiting)]
  {
    hide CreateDatasetUpload, EnqueueDueConnector, SetConnectorRunBytes, CompletePublish, CompleteImport,
         CancelClaimed, Retry, Fail, FromManifest;
  }

  lemma {:induction false} FirstChecks(s: System)
    requires s.db.now == 0 && s.db.jobs == map[2 := Held(NARROW, "w", MINUTE), 5 := BROAD]
    requires s.workers == map["w" := Busy(FIRST, Working, AtWork, Protocol.Waiting)]
    ensures var s' := Apply(s, LATE[5]);
            s'.db == s.db && s'.workers == map["w" := Busy(FIRST, Working, AtWork, Checked)]
  {
    hide CreateDatasetUpload, EnqueueDueConnector, SetConnectorRunBytes, CompletePublish, CompleteImport,
         CancelClaimed, Retry, Fail, FromManifest;
  }

  /** The first lease is over, so the second job is free to take. */
  lemma {:induction false} SecondIsFree(jobs: map<Id, Job>)
    requires jobs == map[2 := Held(NARROW, "w", MINUTE), 5 := BROAD]
    ensures Claimable(jobs, 2 * MINUTE, DatasetImport, 5)
  {
  }

  lemma {:induction false} SecondClaims(s: System)
    requires s.db.now == 0 && s.db.jobs == map[2 := Held(NARROW, "w", MINUTE), 5 := BROAD]
    requires s.workers == map["w" := Busy(FIRST, Working, AtWork, Checked)]
    ensures var s' := Apply(s, LATE[6]);
            && s'.db.now == 2 * MINUTE
            && s'.db.jobs == map[2 := Held(NARROW, "w", MINUTE), 5 := Held(BROAD, "v", 3 * MINUTE)]
            && At(s', "w") == Busy(FIRST, Working, AtWork, Checked)
  {
    hide CreateDatasetUpload, EnqueueDueConnector, SetConnectorRunBytes, CompletePublish, CompleteImport,
         CancelClaimed, Retry, Fail, FromManifest, WithRunStatus, WithDeploymentStatus, Claimable, Holds;
    SecondIsFree(s.db.jobs);
    assert "w" != "v" by { assert "w"[0] != "v"[0]; }
  }

  lemma {:induction false} Renewed(t: Tables)
    requires t.now == 2 * MINUTE && t.jobs == map[2 := Held(NARROW, "w", MINUTE), 5 := Held(BROAD, "v", 3 * MINUTE)]
    ensures var t' := Heartbeat(t, FIRST, MINUTE);
            t'.now == t.now && t'.jobs == map[2 := Held(NARROW, "w", 3 * MINUTE), 5 := Held(BROAD, "v", 3 * MINUTE)]
  {
  }

  lemma {:induction false} FirstRenews(s: System)
    requires s.db.now == 2 * MINUTE && s.db.jobs == map[2 := Held(NARROW, "w", MINUTE), 5 := Held(BROAD, "v", 3 * MINUTE)]
    requires At(s, "w") == Busy(FIRST, Working, AtWork, Checked)
    ensures var s' := Apply(s, LATE[7]);
            && s'.db.now == 2 * MINUTE
            && s'.db.jobs == map[2 := Held(NARROW, "w", 3 * MINUTE), 5 := Held(BROAD, "v", 3 * MINUTE)]
  {
    hide CreateDatasetUpload, EnqueueDueConnector, SetConnectorRunBytes, CompletePublish, CompleteImport,
         CancelClaimed, Retry, Fail, FromManifest, Take, Heartbeat, Claimable, Holds, Held;
    var s1 := s.(db := Later(s.db, 0));
    assert s1 == s;
    Renewed(s.db);
  }

  /** The first worker checked its job, stalled past its lease, and renewed it after the second one had claimed another. */
  lemma {:induction false} LateHeartbeatMakesTwoLive()
    ensures var t := Exec(INITIAL, LATE).db;
            2 in t.jobs && 5 in t.jobs && Rivals(t.jobs[2], t.jobs[5], t.now)
    ensures !TimelyRun(INITIAL, LATE)
  {
    hide Exec, TimelyRun, Apply;
    UploadsRun();
    var s := Quiet(Both(Queued));
    var s1 := Apply(s, LATE[4]);
    var s2 := Apply(s1, LATE[5]);
    var s3 := Apply(s2, LATE[6]);
    FirstClaims(s);
    FirstChecks(s1);
    SecondClaims(s2);
    FirstRenews(s3);
    NextLate(s, 4);
    NextLate(s1, 5);
    NextLate(s2, 6);
    NextLate(s3, 7);
    NothingLeft(Apply(s3, LATE[7]));
    if TimelyRun(INITIAL, LATE) { OneLiveImportPerTenant(LATE, 2, 5); }
  }
}
