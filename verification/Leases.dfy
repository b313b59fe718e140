/** How many times a job is claimed and requeued, and when two imports of one tenant can be live together. */
module Leases {
  import opened Wrappers
  import opened Schema
  import opened Transitions
  import opened Consistency
  import opened JobsStaySound
  import opened Protocol
  import opened Evolution
  import opened Safety
  import opened Guarantees

  // ---------- requeues

  function Requeues(log: seq<Event>, id: Id): nat
  {
    if log == [] then 0
    else Requeues(log[..|log| - 1], id) + (if log[|log| - 1] == Requeued(id) then 1 else 0)
  }

  lemma {:induction false} RequeuesAppend(log: seq<Event>, e: Event, id: Id)
    ensures Requeues(log + [e], id) == Requeues(log, id) + (if e == Requeued(id) then 1 else 0)
  {
    assert (log + [e])[..|log|] == log;
  }

  /** Each requeue used up an attempt, and a running job has one more attempt than requeues. */
  ghost predicate CountedRow(jobs: map<Id, Job>, id: Id, n: nat, next: Id)
  {
    && n <= 2
    && (id >= next ==> n == 0)
    && (id in jobs ==> n <= jobs[id].attempts && (jobs[id].status.Running? ==> n < jobs[id].attempts))
  }

  ghost predicate Counted(s: System)
  {
    forall id: Id :: CountedRow(s.db.jobs, id, Requeues(s.log, id), s.db.nextId)
  }

  lemma {:induction false} RowStaysCounted(t: Tables, t': Tables, claimed: Option<Id>, id: Id, n: nat)
    requires t.nextId <= t'.nextId && JobsEvolve(t.jobs, t'.jobs, t.nextId, claimed) && CountedRow(t.jobs, id, n, t.nextId)
    ensures CountedRow(t'.jobs, id, n, t'.nextId)
  {
  }

  lemma {:induction false} RequeuedRow(t: Tables, c: Claim, delay: Time, n: nat)
    requires Sound(t) && MayRetry(t, c) && CountedRow(t.jobs, c.job, n, t.nextId)
    ensures var t' := Retry(t, c, delay); CountedRow(t'.jobs, c.job, n + 1, t'.nextId)
  {
    hide Sound;
    ClaimBelow(t, c.job);
  }

  lemma {:induction false} StepStaysCounted(s: System, step: Step)
    requires Safe(s) && Counted(s)
    ensures Counted(Apply(s, step))
  {
    hide Safe, Evolves, ActUser, ActWorker, Enabled, JobsEvolve, CountedRow, Said;
    var s1 := s.(db := Later(s.db, step.elapsed));
    var s' := Apply(s, step);
    LaterStaysSafe(s, step.elapsed);
    SafeParts(s1);
    forall id: Id ensures CountedRow(s'.db.jobs, id, Requeues(s'.log, id), s'.db.nextId) {
      assert CountedRow(s.db.jobs, id, Requeues(s.log, id), s.db.nextId);
      match step
      case User(_, tenant, action) =>
        UserEvolves(s1.db, tenant, action);
        EvolvesParts(s1.db, s'.db, None, None);
        RowStaysCounted(s1.db, s'.db, None, id, Requeues(s.log, id));
        SaidIsShort(s1.db, tenant, action);
        var said := Said(s1.db, tenant, action);
        if said != [] {
          RequeuesAppend(s.log, said[0], id);
          assert said == [said[0]];
        } else {
          assert s.log + said == s.log;
        }
      case Work(_, w, work) =>
        if Enabled(s1, w, work) { WorkStaysCounted(s1, w, work, id); }
    }
  }

  lemma {:induction false} WorkStaysCounted(s: System, w: Worker, a: WorkerAction, id: Id)
    requires Safe(s) && Enabled(s, w, a) && CountedRow(s.db.jobs, id, Requeues(s.log, id), s.db.nextId)
    ensures var s' := ActWorker(s, w, a); CountedRow(s'.db.jobs, id, Requeues(s'.log, id), s'.db.nextId)
  {
    hide Safe, Evolves, JobsEvolve, CountedRow, ActWorker, Retry, FromManifest, MayRetry;
    var s' := ActWorker(s, w, a);
    SafeParts(s);
    WorkEvolves(s, w, a);
    EvolvesParts(s.db, s'.db, ClaimedBy(a), PublishedBy(s, w, a));
    RowStaysCounted(s.db, s'.db, ClaimedBy(a), id, Requeues(s.log, id));
    WorkLogs(s, w, a, id);
    if s'.log != s.log {
      var e := s'.log[|s.log|];
      RequeuesAppend(s.log, e, id);
      if e == Requeued(id) { RequeuedRow(s.db, At(s, w).claim, a.delay, Requeues(s.log, id)); }
    }
  }

  /** At most one event, and a requeue only by a retry that may. */
  lemma {:induction false} WorkLogs(s: System, w: Worker, a: WorkerAction, id: Id)
    requires Enabled(s, w, a)
    ensures var s' := ActWorker(s, w, a);
            s'.log == s.log
            || (&& s'.log == s.log + [s'.log[|s.log|]]
                && (s'.log[|s.log|] == Requeued(id) ==>
                      a.RetryMine? && At(s, w).claim.job == id && MayRetry(s.db, At(s, w).claim) && s'.db == Retry(s.db, At(s, w).claim, a.delay)))
  {
    hide EnqueueDueConnector, Take, Heartbeat, SetConnectorRunBytes, CompletePublish, CompleteImport, CancelClaimed, Retry, Fail,
         FromManifest, MayRetry, ImportCompletes, Holds;
  }

  lemma {:induction false} RunStaysCounted(s: System, steps: seq<Step>)
    requires Safe(s) && Counted(s)
    ensures Counted(Exec(s, steps))
    decreases |steps|
  {
    hide Safe, Apply, Counted;
    if steps != [] {
      StepStaysSafe(s, steps[0]);
      StepStaysCounted(s, steps[0]);
      RunStaysCounted(Apply(s, steps[0]), steps[1..]);
    }
  }

  /** RetryConnectorJob requeues a job at most twice, whatever expires, crashes or is deleted. */
  lemma {:induction false} RequeuedAtMostTwice(steps: seq<Step>, id: Id)
    ensures Requeues(Exec(INITIAL, steps).log, id) <= 2
  {
    hide Safe, Exec;
    InitialIsSafe();
    RunStaysCounted(INITIAL, steps);
    assert CountedRow(Exec(INITIAL, steps).db.jobs, id, Requeues(Exec(INITIAL, steps).log, id), Exec(INITIAL, steps).db.nextId);
  }

  // ---------- claims when no lease expires

  function Limit(kind: Kind): nat { if kind.ConnectorSync? then 3 else 1 }

  /** The step does not take over a job that is running. */
  predicate NoTakeover(s: System, step: Step)
  {
    var t := Later(s.db, step.elapsed);
    step.Work? && step.work.ClaimJob? && step.work.id in t.jobs ==> !t.jobs[step.work.id].status.Running?
  }

  ghost predicate NoTakeovers(s: System, steps: seq<Step>)
    decreases |steps|
  {
    steps != [] ==> NoTakeover(s, steps[0]) && NoTakeovers(Apply(s, steps[0]), steps[1..])
  }

  predicate AttemptsFit(job: Job)
  {
    && job.attempts <= Limit(job.kind)
    && (job.status.AwaitingUpload? ==> job.attempts == 0)
    && (job.status.Queued? ==> job.attempts < Limit(job.kind))
  }

  ghost predicate AllFit(jobs: map<Id, Job>)
  {
    forall id :: id in jobs ==> AttemptsFit(jobs[id])
  }

  /** Goes down with every change of status: remaining attempts first, then the status. */
  function Measure(job: Job): int
  {
    match job.status
    case AwaitingUpload => 2 * Limit(job.kind) + 1
    case Queued => 2 * (Limit(job.kind) - job.attempts)
    case Running => 2 * (Limit(job.kind) - job.attempts) + 1
    case _ => 0
  }

  lemma {:induction false} EvolvingRow(a: Job, b: Job, claimed: bool)
    requires AttemptsFit(a) && JobEvolves(a, b) && (if claimed then Claimed(a, b) && !a.status.Running? else Unclaimed(a, b))
    ensures AttemptsFit(b)
    ensures 0 <= Measure(b) <= Measure(a) <= 7
    ensures Measure(b) == Measure(a) ==> b.status == a.status && b.attempts == a.attempts
  {
  }

  lemma {:induction false} EvolvesFit(t: Tables, t': Tables, claimed: Option<Id>)
    requires AllFit(t.jobs) && JobsEvolve(t.jobs, t'.jobs, t.nextId, claimed)
    requires claimed.Some? && claimed.value in t.jobs ==> !t.jobs[claimed.value].status.Running?
    ensures AllFit(t'.jobs)
    ensures forall id :: id in t.jobs && id in t'.jobs ==>
              && 0 <= Measure(t'.jobs[id]) <= Measure(t.jobs[id]) <= 7
              && (Measure(t'.jobs[id]) == Measure(t.jobs[id]) ==>
                    t'.jobs[id].status == t.jobs[id].status && t'.jobs[id].attempts == t.jobs[id].attempts)
  {
    hide AttemptsFit, JobEvolves, Measure, Unclaimed, Claimed;
    forall id | id in t'.jobs ensures AttemptsFit(t'.jobs[id]) {
      if id in t.jobs { EvolvingRow(t.jobs[id], t'.jobs[id], claimed == Some(id)); } else { FreshFits(t'.jobs[id]); }
    }
    forall id | id in t.jobs && id in t'.jobs
      ensures 0 <= Measure(t'.jobs[id]) <= Measure(t.jobs[id]) <= 7
      ensures Measure(t'.jobs[id]) == Measure(t.jobs[id]) ==>
                t'.jobs[id].status == t.jobs[id].status && t'.jobs[id].attempts == t.jobs[id].attempts {
      EvolvingRow(t.jobs[id], t'.jobs[id], claimed == Some(id));
    }
  }

  lemma {:induction false} FreshFits(job: Job)
    requires FreshJob(job)
    ensures AttemptsFit(job)
  {
  }

  /** One step without a takeover: every job's measure stays within 0 to 7 and falls whenever its status changes. */
  lemma {:induction false} MeasureFalls(s: System, step: Step)
    requires Safe(s) && AllFit(s.db.jobs) && NoTakeover(s, step)
    ensures AllFit(Apply(s, step).db.jobs)
    ensures var jobs, jobs' := s.db.jobs, Apply(s, step).db.jobs;
            forall id :: id in jobs && id in jobs' ==>
              && 0 <= Measure(jobs'[id]) <= Measure(jobs[id]) <= 7
              && (Measure(jobs'[id]) == Measure(jobs[id]) ==> jobs'[id].status == jobs[id].status && jobs'[id].attempts == jobs[id].attempts)
  {
    hide Safe, Evolves, ActUser, ActWorker, Enabled, JobsEvolve, AttemptsFit, Measure;
    var s1 := s.(db := Later(s.db, step.elapsed));
    LaterStaysSafe(s, step.elapsed);
    SafeParts(s1);
    match step
    case User(_, tenant, action) =>
      UserEvolves(s1.db, tenant, action);
      EvolvesParts(s1.db, ActUser(s1.db, tenant, action), None, None);
      EvolvesFit(s1.db, ActUser(s1.db, tenant, action), None);
    case Work(_, w, work) =>
      if Enabled(s1, w, work) {
        WorkEvolves(s1, w, work);
        EvolvesParts(s1.db, ActWorker(s1, w, work).db, ClaimedBy(work), PublishedBy(s1, w, work));
        EvolvesFit(s1.db, ActWorker(s1, w, work).db, ClaimedBy(work));
      } else {
        PartsRefl(s1.db);
        EvolvesFit(s1.db, s1.db, None);
      }
  }

  lemma {:induction false} RunStaysFit(s: System, steps: seq<Step>)
    requires Safe(s) && AllFit(s.db.jobs) && NoTakeovers(s, steps)
    ensures AllFit(Exec(s, steps).db.jobs)
    decreases |steps|
  {
    hide Safe, Apply, AllFit;
    if steps != [] {
      StepStaysSafe(s, steps[0]);
      MeasureFalls(s, steps[0]);
      RunStaysFit(Apply(s, steps[0]), steps[1..]);
    }
  }

  /** When no lease expires a connector job is claimed at most three times, an import or publish at most once. */
  lemma {:induction false} ClaimsAreBounded(steps: seq<Step>, id: Id)
    requires NoTakeovers(INITIAL, steps) && id in Exec(INITIAL, steps).db.jobs
    ensures var job := Exec(INITIAL, steps).db.jobs[id];
            job.attempts <= (if job.kind.ConnectorSync? then 3 else 1)
  {
    hide Safe, Exec, NoTakeovers;
    InitialIsSafe();
    RunStaysFit(INITIAL, steps);
  }

  // ---------- one live import per tenant

  predicate LiveImport(job: Job, now: Time) { ForRun(job.kind) && Live(job, now) }

  predicate Rivals(a: Job, b: Job, now: Time)
  {
    a.tenant == b.tenant && LiveImport(a, now) && LiveImport(b, now)
  }

  ghost predicate Exclusive(jobs: map<Id, Job>, now: Time)
  {
    forall a, b {:trigger Rivals(jobs[a], jobs[b], now)} | a in jobs && b in jobs && Rivals(jobs[a], jobs[b], now) :: a == b
  }

  lemma {:induction false} TakenAlone(t: Tables, kind: Kind, id: Id, worker: Worker, lease: Time)
    requires ForRun(kind) && Claimable(t.jobs, t.now, kind, id)
    ensures var t' := Take(t, id, worker, lease);
            && t'.now == t.now && id in t'.jobs && (LiveImport(t'.jobs[id], t'.now) <==> lease >= 0)
            && forall other :: other in t'.jobs && t'.jobs[other].tenant == t'.jobs[id].tenant && LiveImport(t'.jobs[other], t'.now) ==> other == id
  {
  }

  /** Whatever heartbeats did before: right after a run's claim of an import or sync, no other one of its tenant is live. */
  lemma {:induction false} ClaimFindsTenantFree(steps: seq<Step>, elapsed: nat, w: Worker, kind: Kind, id: Id, lease: Time)
    requires ForRun(kind)
    requires var s := Exec(INITIAL, steps); Enabled(s.(db := Later(s.db, elapsed)), w, ClaimJob(kind, id, lease))
    ensures var t := Exec(INITIAL, steps + [Work(elapsed, w, ClaimJob(kind, id, lease))]).db;
            && id in t.jobs && (LiveImport(t.jobs[id], t.now) <==> lease >= 0)
            && forall other :: other in t.jobs && t.jobs[other].tenant == t.jobs[id].tenant && LiveImport(t.jobs[other], t.now) ==> other == id
  {
    hide Exec, LiveImport, Take, EnqueueDueConnector, SetConnectorRunBytes, CompletePublish, CompleteImport,
         CancelClaimed, Retry, Fail, FromManifest, OtherLive;
    var step := Work(elapsed, w, ClaimJob(kind, id, lease));
    ExecAppend(INITIAL, steps, step);
    TakenAlone(Later(Exec(INITIAL, steps).db, elapsed), kind, id, w, lease);
  }

  /** A heartbeat that takes effect keeps the exclusion exactly when it lands in time or finds no rival. */
  lemma {:induction false} HeartbeatExcludesIff(t: Tables, c: Claim, lease: Time)
    requires Exclusive(t.jobs, t.now) && Holds(t.jobs, c) && ForRun(t.jobs[c.job].kind) && lease >= 0
    ensures Exclusive(Heartbeat(t, c, lease).jobs, t.now) <==>
            (t.jobs[c.job].lease.value.expires >= t.now || !OtherLive(t.jobs, t.now, c.job))
  {
    var jobs, jobs' := t.jobs, Heartbeat(t, c, lease).jobs;
    if jobs[c.job].lease.value.expires >= t.now || !OtherLive(jobs, t.now, c.job) {
      forall a, b | a in jobs' && b in jobs' && Rivals(jobs'[a], jobs'[b], t.now) ensures a == b {
        if a != c.job && b != c.job {
          assert Rivals(jobs[a], jobs[b], t.now);
        } else if jobs[c.job].lease.value.expires >= t.now {
          assert Rivals(jobs[a], jobs[b], t.now);
        }
      }
    } else {
      var other :| other in jobs && other != c.job && jobs[other].tenant == jobs[c.job].tenant
                   && ForRun(jobs[other].kind) && Live(jobs[other], t.now);
      assert Rivals(jobs'[other], jobs'[c.job], t.now);
    }
  }
}
