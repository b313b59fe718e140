/**
 What holds in every run of the protocol: fencing by worker name, publication at most once, cancelled jobs
 never published, finished rows final, and datasets showing their latest publication.
*/
module Safety {
  import opened Wrappers
  import opened Schema
  import opened Transitions
  import opened Consistency
  import opened JobsStaySound
  import opened QueriesStaySound
  import opened Protocol
  import opened SoundRuns
  import opened Evolution

  // ---------- fencing

  lemma {:induction false} ClaimsStayFit(t: Tables, t': Tables, c: Claim, claimed: Option<Id>)
    requires t.nextId <= t'.nextId && JobsEvolve(t.jobs, t'.jobs, t.nextId, claimed) && ClaimFits(t, c)
    ensures ClaimFits(t', c)
  {
  }

  lemma {:induction false} FenceHolds(t: Tables, t': Tables, me: WorkerState, claimed: Option<Id>)
    requires JobsEvolve(t.jobs, t'.jobs, t.nextId, claimed)
    requires me.Busy? && ClaimFits(t, me.claim)
    requires me.claim.job in t.jobs ==> FencedRow(t.jobs[me.claim.job], me)
    requires claimed == Some(me.claim.job) && me.claim.job in t'.jobs ==>
               t'.jobs[me.claim.job].lease.Some? && t'.jobs[me.claim.job].lease.value.holder != me.claim.worker
    ensures me.claim.job in t'.jobs ==> FencedRow(t'.jobs[me.claim.job], me)
  {
  }

  // ---------- the log

  ghost predicate PublishedFinal(log: seq<Event>, jobs: map<Id, Job>, next: Id)
  {
    forall i :: 0 <= i < |log| && log[i].Published? ==>
      log[i].job < next && (log[i].job in jobs ==> jobs[log[i].job].status.Succeeded?)
  }

  ghost predicate PublishedOnce(log: seq<Event>)
  {
    forall i, j :: 0 <= i < j < |log| && log[i].Published? && log[j].Published? ==> log[i].job != log[j].job
  }

  /** The latest snapshot published for a dataset. */
  ghost function Latest(log: seq<Event>, d: Id): (r: Option<Event>)
    ensures r.Some? ==> r.value.Published? && r.value.outcome.Snapshot? && r.value.outcome.dataset == d && r.value in log
  {
    if log == [] then None
    else
      var last := log[|log| - 1];
      if last.Published? && last.outcome.Snapshot? && last.outcome.dataset == d then Some(last)
      else Latest(log[..|log| - 1], d)
  }

  /** The dataset shows its latest publication, and the run that made it still tells the same. */
  ghost predicate Shows(dataset: Dataset, d: Id, runs: map<Id, SyncRun>, log: seq<Event>)
  {
    match Latest(log, d)
    case None => dataset.current.None?
    case Some(e) =>
      && dataset.current == Some(e.outcome.publication)
      && RunTells(e.outcome, runs)
  }

  ghost predicate RunTells(o: Outcome, runs: map<Id, SyncRun>)
    requires o.Snapshot?
  {
    && o.run in runs && runs[o.run].status.Succeeded? && runs[o.run].dataset == o.dataset
    && runs[o.run].result == Some(o.publication.result) && runs[o.run].bytes == o.publication.bytes
  }

  ghost predicate Shown(datasets: map<Id, Dataset>, runs: map<Id, SyncRun>, log: seq<Event>, next: Id)
  {
    && (forall d :: d in datasets ==> Shows(datasets[d], d, runs, log))
    && (forall d :: d >= next ==> Latest(log, d).None?)
  }

  lemma {:induction false} LatestAppend(log: seq<Event>, e: Event, d: Id)
    ensures Latest(log + [e], d) ==
            if e.Published? && e.outcome.Snapshot? && e.outcome.dataset == d then Some(e) else Latest(log, d)
  {
    assert (log + [e])[..|log|] == log;
  }

  /** Without a new snapshot, evolving rows keep every dataset showing its latest publication. */
  lemma {:induction false} ShownHolds(t: Tables, t': Tables, log: seq<Event>)
    requires Shown(t.datasets, t.runs, log, t.nextId) && t.nextId <= t'.nextId
    requires RunsEvolve(t.runs, t'.runs, t'.datasets, t.nextId) && DatasetsEvolve(t.datasets, t'.datasets, t.nextId, None)
    ensures Shown(t'.datasets, t'.runs, log, t'.nextId)
  {
    forall d | d in t'.datasets ensures Shows(t'.datasets[d], d, t'.runs, log) {
      if d in t.datasets { assert Shows(t.datasets[d], d, t.runs, log); }
    }
  }

  lemma {:induction false} ShownAppend(t: Tables, log: seq<Event>, e: Event)
    requires Shown(t.datasets, t.runs, log, t.nextId) && !(e.Published? && e.outcome.Snapshot?)
    ensures Shown(t.datasets, t.runs, log + [e], t.nextId)
  {
    forall d ensures Latest(log + [e], d) == Latest(log, d) { LatestAppend(log, e, d); }
    forall d | d in t.datasets ensures Shows(t.datasets[d], d, t.runs, log + [e]) {
      assert Shows(t.datasets[d], d, t.runs, log);
    }
  }

  lemma {:induction false} SnapshotShown(t: Tables, c: Claim, result: ImportResult, log: seq<Event>)
    requires Sound(t) && ImportCompletes(t, c) && Shown(t.datasets, t.runs, log, t.nextId)
    ensures var t' := CompleteImport(t, c, result);
            Shown(t'.datasets, t'.runs, log + [Published(c.job, SnapshotOf(t, c, result))], t'.nextId)
  {
    hide Sound, RunsEvolve, DatasetsEvolve, JobsEvolve, DeploymentsEvolve;
    var t' := CompleteImport(t, c, result);
    var e := Published(c.job, SnapshotOf(t, c, result));
    RowFacts(t, c.job);
    RunFacts(t, e.outcome.run);
    forall d ensures Latest(log + [e], d) == if e.outcome.dataset == d then Some(e) else Latest(log, d) { LatestAppend(log, e, d); }
    RunBelow(t, e.outcome.run);
    forall d | d in t'.datasets ensures Shows(t'.datasets[d], d, t'.runs, log + [e]) {
      assert Shows(t.datasets[d], d, t.runs, log);
    }
  }

  lemma {:induction false} RunBelow(t: Tables, r: Id)
    requires Sound(t) && r in t.runs
    ensures t.runs[r].dataset < t.nextId
  {
    hide JobsSound, DatasetRows, ConnectorRows, AppsSound, QueriesSound, GrantsSound;
  }

  lemma {:induction false} FinalHolds(t: Tables, t': Tables, log: seq<Event>, claimed: Option<Id>)
    requires PublishedFinal(log, t.jobs, t.nextId) && t.nextId <= t'.nextId
    requires JobsEvolve(t.jobs, t'.jobs, t.nextId, claimed)
    ensures PublishedFinal(log, t'.jobs, t'.nextId)
  {
  }

  /** A job is cancelled only after someone asked for it. */
  ghost predicate CancelledWasAsked(jobs: map<Id, Job>)
  {
    forall id :: id in jobs && jobs[id].status.Cancelled? ==> jobs[id].cancelRequested
  }

  lemma {:induction false} AskedHolds(t: Tables, t': Tables, claimed: Option<Id>)
    requires CancelledWasAsked(t.jobs) && JobsEvolve(t.jobs, t'.jobs, t.nextId, claimed)
    ensures CancelledWasAsked(t'.jobs)
  {
  }

  // ---------- the invariant of every run

  ghost predicate Safe(s: System)
  {
    && Sound(s.db)
    && CancelledWasAsked(s.db.jobs)
    && ClaimsFit(s)
    && Fenced(s)
    && PublishedFinal(s.log, s.db.jobs, s.db.nextId)
    && PublishedOnce(s.log)
    && Shown(s.db.datasets, s.db.runs, s.log, s.db.nextId)
  }

  lemma {:induction false} UserStaysSafe(s: System, tenant: Id, a: UserAction)
    requires Safe(s)
    ensures Safe(s.(db := ActUser(s.db, tenant, a)))
  {
    hide Sound, ActUser, ClaimFits, FencedRow, CancelledWasAsked, PublishedFinal, PublishedOnce, Shown, JobsEvolve,
         RunsEvolve, DatasetsEvolve, DeploymentsEvolve;
    var t, t' := s.db, ActUser(s.db, tenant, a);
    var s' := s.(db := t');
    UserKeeps(t, tenant, a);
    UserEvolves(t, tenant, a);
    forall w | At(s', w).Busy? ensures At(s', w).claim.worker == w && ClaimFits(t', At(s', w).claim) {
      assert At(s', w) == At(s, w);
      ClaimsStayFit(t, t', At(s, w).claim, None);
    }
    forall w | At(s', w).Busy? && At(s', w).claim.job in t'.jobs
      ensures FencedRow(t'.jobs[At(s', w).claim.job], At(s', w)) {
      FenceHolds(t, t', At(s, w), None);
    }
    FinalHolds(t, t', s.log, None);
    ShownHolds(t, t', s.log);
    AskedHolds(t, t', None);
  }

  lemma {:induction false} LaterStaysSafe(s: System, elapsed: nat)
    requires Safe(s)
    ensures Safe(s.(db := Later(s.db, elapsed)))
  {
    hide Sound, ClaimFits, FencedRow, CancelledWasAsked, PublishedFinal, PublishedOnce, Shown;
    LaterKeeps(s.db, elapsed);
    var s' := s.(db := Later(s.db, elapsed));
    forall w | At(s', w).Busy? ensures At(s', w).claim.worker == w && ClaimFits(s'.db, At(s', w).claim) {
      assert At(s', w) == At(s, w);
      assert ClaimFits(s.db, At(s, w).claim);
      LaterFits(s.db, elapsed, At(s, w).claim);
    }
    forall w | At(s', w).Busy? && At(s', w).claim.job in s'.db.jobs
      ensures FencedRow(s'.db.jobs[At(s', w).claim.job], At(s', w)) {
      assert At(s', w) == At(s, w);
    }
  }

  lemma {:induction false} LaterFits(t: Tables, elapsed: nat, c: Claim)
    requires ClaimFits(t, c)
    ensures ClaimFits(Later(t, elapsed), c)
  {
  }

  /** What a worker believes after its own step is still fenced. */
  lemma {:induction false} OwnStepFenced(s: System, w: Worker, a: WorkerAction)
    requires Sound(s.db) && ClaimsFit(s) && Fenced(s) && Enabled(s, w, a)
    ensures var s' := ActWorker(s, w, a); At(s', w).Busy? ==>
              && At(s', w).claim.worker == w
              && ClaimFits(s'.db, At(s', w).claim)
              && (At(s', w).claim.job in s'.db.jobs ==> FencedRow(s'.db.jobs[At(s', w).claim.job], At(s', w)))
  {
    hide Sound, RunsEvolve, DatasetsEvolve, DeploymentsEvolve, JobsEvolve, EnqueueDueConnector, Heartbeat,
         SetConnectorRunBytes, CompletePublish, CompleteImport, CancelClaimed, Retry, Fail, FromManifest;
    var me := At(s, w);
    var s' := ActWorker(s, w, a);
    WorkEvolves(s, w, a);
    if a.ClaimJob? {
      ClaimBelow(s.db, a.id);
    } else if At(s', w).Busy? {
      assert me.Busy? && me.claim == At(s', w).claim;
      ClaimsStayFit(s.db, s'.db, me.claim, None);
      FenceHolds(s.db, s'.db, me, None);
    }
  }

  /** A step of one worker leaves the others fenced. */
  lemma {:induction false} OtherStepFenced(s: System, w: Worker, a: WorkerAction, v: Worker)
    requires Sound(s.db) && ClaimsFit(s) && Fenced(s) && Enabled(s, w, a) && v != w && At(s, v).Busy?
    ensures var s' := ActWorker(s, w, a);
            && At(s', v) == At(s, v)
            && ClaimFits(s'.db, At(s, v).claim)
            && (At(s, v).claim.job in s'.db.jobs ==> FencedRow(s'.db.jobs[At(s, v).claim.job], At(s, v)))
  {
    hide Sound, RunsEvolve, DatasetsEvolve, DeploymentsEvolve, JobsEvolve, EnqueueDueConnector, Heartbeat,
         SetConnectorRunBytes, CompletePublish, CompleteImport, CancelClaimed, Retry, Fail, FromManifest, FencedRow,
         ClaimFits;
    var s' := ActWorker(s, w, a);
    WorkEvolves(s, w, a);
    ClaimsStayFit(s.db, s'.db, At(s, v).claim, ClaimedBy(a));
    FenceHolds(s.db, s'.db, At(s, v), ClaimedBy(a));
  }

  lemma {:induction false} RunningIsUnpublished(s: System, id: Id)
    requires PublishedFinal(s.log, s.db.jobs, s.db.nextId) && id in s.db.jobs && s.db.jobs[id].status.Running?
    ensures forall i :: 0 <= i < |s.log| && s.log[i].Published? ==> s.log[i].job != id
  {
  }

  lemma {:induction false} PublishSucceeds(t: Tables, c: Claim, result: ImportResult)
    requires Sound(t) && ImportCompletes(t, c)
    ensures var t' := CompleteImport(t, c, result);
            c.job in t'.jobs && t'.jobs[c.job].status.Succeeded? && c.job < t'.nextId
  {
    hide Sound;
    ClaimBelow(t, c.job);
  }

  lemma {:induction false} ReleaseSucceeds(t: Tables, c: Claim, queries: seq<PublishedQuery>)
    requires Sound(t) && DistinctNames(queries) && CompletePublish(t, c, queries).1.Ok?
    ensures var t' := CompletePublish(t, c, queries).0;
            c.job in t'.jobs && t'.jobs[c.job].status.Succeeded? && c.job < t'.nextId
  {
    hide Sound, GrantAll;
    CompletePublishKeeps(t, c, queries);
    ClaimBelow(CompletePublish(t, c, queries).0, c.job);
  }

  lemma {:induction false} AppendPublished(log: seq<Event>, e: Event, jobs: map<Id, Job>, next: Id)
    requires PublishedFinal(log, jobs, next) && PublishedOnce(log)
    requires e.Published? && e.job in jobs && jobs[e.job].status.Succeeded? && e.job < next
    requires forall i :: 0 <= i < |log| && log[i].Published? ==> log[i].job != e.job
    ensures PublishedFinal(log + [e], jobs, next) && PublishedOnce(log + [e])
  {
  }

  lemma {:induction false} AppendOther(log: seq<Event>, e: Event, jobs: map<Id, Job>, next: Id)
    requires PublishedFinal(log, jobs, next) && PublishedOnce(log) && !e.Published?
    ensures PublishedFinal(log + [e], jobs, next) && PublishedOnce(log + [e])
  {
  }

  lemma {:induction false} TargetFits(t: Tables, c: Claim)
    requires ClaimFits(t, c) && c.job in t.jobs
    ensures t.jobs[c.job].target == c.target
  {
  }

  lemma {:induction false} LogKept(s: System, w: Worker, a: WorkerAction)
    requires Safe(s) && Enabled(s, w, a)
    ensures var s' := ActWorker(s, w, a);
            && PublishedFinal(s'.log, s'.db.jobs, s'.db.nextId) && PublishedOnce(s'.log)
            && CancelledWasAsked(s'.db.jobs)
            && Shown(s'.db.datasets, s'.db.runs, s'.log, s'.db.nextId)
  {
    hide Sound, ClaimFits, FencedRow, CancelledWasAsked, Shown, JobsEvolve, RunsEvolve, DatasetsEvolve,
         DeploymentsEvolve, EnqueueDueConnector, Take, Heartbeat, SetConnectorRunBytes, CompletePublish,
         CompleteImport, CancelClaimed, Retry, Fail, FromManifest, PublishedFinal, PublishedOnce;
    var t := s.db;
    var s' := ActWorker(s, w, a);
    WorkEvolves(s, w, a);
    FinalHolds(t, s'.db, s.log, ClaimedBy(a));
    AskedHolds(t, s'.db, ClaimedBy(a));
    if s'.log == s.log {
      assert PublishedBy(s, w, a).None?;
      ShownHolds(t, s'.db, s.log);
    } else if a.PublishSnapshot? {
      var c := At(s, w).claim;
      SnapshotShown(t, c, a.result, s.log);
      RunningIsUnpublished(s, c.job);
      PublishSucceeds(t, c, a.result);
      AppendPublished(s.log, Published(c.job, SnapshotOf(t, c, a.result)), s'.db.jobs, s'.db.nextId);
    } else {
      ShownHolds(t, s'.db, s.log);
      var e := s'.log[|s.log|];
      assert s'.log == s.log + [e];
      ShownAppend(s'.db, s.log, e);
      if a.PublishRelease? {
        var c := At(s, w).claim;
        if !PublishCompletes(t, c) { CompletePublishRefused(t, c, a.queries); }
        RunningIsUnpublished(s, c.job);
        TargetFits(t, c);
        ManifestNamesDistinct(t.deployments[c.target].manifest, a.queries);
        ReleaseSucceeds(t, c, a.queries);
        AppendPublished(s.log, e, s'.db.jobs, s'.db.nextId);
      } else {
        AppendOther(s.log, e, s'.db.jobs, s'.db.nextId);
      }
    }
  }

  lemma {:induction false} WorkStaysSafe(s: System, w: Worker, a: WorkerAction)
    requires Safe(s) && Enabled(s, w, a)
    ensures Safe(ActWorker(s, w, a))
  {
    hide Sound, ClaimFits, FencedRow, CancelledWasAsked, PublishedFinal, PublishedOnce, Shown, ActWorker, Enabled;
    var s' := ActWorker(s, w, a);
    WorkKeeps(s, w, a);
    LogKept(s, w, a);
    OwnStepFenced(s, w, a);
    forall v | At(s', v).Busy? && v != w ensures At(s', v) == At(s, v) { OthersUntouched(s, w, a, v); }
    forall v | At(s', v).Busy?
      ensures At(s', v).claim.worker == v && ClaimFits(s'.db, At(s', v).claim)
      ensures At(s', v).claim.job in s'.db.jobs ==> FencedRow(s'.db.jobs[At(s', v).claim.job], At(s', v)) {
      if v != w { OtherStepFenced(s, w, a, v); }
    }
  }

  lemma {:induction false} OthersUntouched(s: System, w: Worker, a: WorkerAction, v: Worker)
    requires Enabled(s, w, a) && v != w
    ensures At(ActWorker(s, w, a), v) == At(s, v)
  {
    hide EnqueueDueConnector, Take, Heartbeat, SetConnectorRunBytes, CompletePublish, CompleteImport, CancelClaimed,
         Retry, Fail, FromManifest;
  }

  /** What is no publication may be logged. */
  lemma {:induction false} LoggingIsSafe(s: System, said: seq<Event>)
    requires Safe(s) && (said == [] || (|said| == 1 && !said[0].Published?))
    ensures Safe(s.(log := s.log + said))
  {
    hide Sound, ClaimFits, FencedRow, CancelledWasAsked, PublishedFinal, PublishedOnce, Shown;
    var s' := s.(log := s.log + said);
    if said == [] {
      assert s' == s;
    } else {
      ShownAppend(s.db, s.log, said[0]);
      AppendOther(s.log, said[0], s.db.jobs, s.db.nextId);
      assert said == [said[0]];
      forall w ensures At(s', w) == At(s, w) {}
    }
  }

  lemma {:induction false} StepStaysSafe(s: System, step: Step)
    requires Safe(s)
    ensures Safe(Apply(s, step))
  {
    hide Safe, ActUser, ActWorker, Enabled, Said;
    var s1 := s.(db := Later(s.db, step.elapsed));
    LaterStaysSafe(s, step.elapsed);
    match step
    case User(_, tenant, action) =>
      UserStaysSafe(s1, tenant, action);
      SaidIsShort(s1.db, tenant, action);
      LoggingIsSafe(s1.(db := ActUser(s1.db, tenant, action)), Said(s1.db, tenant, action));
    case Work(_, w, work) => if Enabled(s1, w, work) { WorkStaysSafe(s1, w, work); }
  }

  lemma {:induction false} InitialIsSafe()
    ensures Safe(INITIAL)
  {
    assert DeploymentSlots(EMPTY.deployments) == map[] && RevisionSlots(EMPTY.revisions) == map[];
  }

  /** Every run from a safe state ends in one. */
  lemma {:induction false} RunStaysSafe(s: System, steps: seq<Step>)
    requires Safe(s)
    ensures Safe(Exec(s, steps))
    decreases |steps|
  {
    hide Safe, Apply;
    if steps != [] {
      StepStaysSafe(s, steps[0]);
      RunStaysSafe(Apply(s, steps[0]), steps[1..]);
    }
  }

  lemma {:induction false} ReachableIsSafe(steps: seq<Step>)
    ensures Safe(Exec(INITIAL, steps))
  {
    hide Safe, Apply;
    InitialIsSafe();
    RunStaysSafe(INITIAL, steps);
  }
}
