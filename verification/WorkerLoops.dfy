/**
 What one worker can rely on while it goes through its loop: what steps of users, other workers and its own heartbeat
 leave as it is, and where each of its own steps takes it.
*/
module WorkerLoops {
  import opened Wrappers
  import opened Manifests
  import opened Schema
  import opened Transitions
  import opened Consistency
  import opened JobsStaySound
  import opened QueriesStaySound
  import opened Protocol
  import opened SoundRuns
  import opened Evolution
  import opened Safety
  import opened Guarantees

  // ---------- what stays

  /** The jobs leased by the worker are no more than the given one. */
  ghost predicate LeasedOnly(jobs: map<Id, Job>, w: Worker, only: Option<Id>)
  {
    forall id :: id in jobs && jobs[id].lease.Some? && jobs[id].lease.value.holder == w ==> only == Some(id)
  }

  /** The deployment, if it is still there, has this manifest. */
  ghost predicate ManifestIs(t: Tables, d: Id, m: Manifest)
  {
    d < t.nextId && (d in t.deployments ==> t.deployments[d].manifest == m)
  }

  ghost predicate InLog(log: seq<Event>, job: Id)
  {
    exists e :: e in log && e.Published? && e.job == job
  }

  /** From one state to a later one. */
  ghost predicate Keeps(s: System, s': System, w: Worker)
  {
    && (forall job :: InLog(s.log, job) ==> InLog(s'.log, job))
    && (forall d, m :: ManifestIs(s.db, d, m) ==> ManifestIs(s'.db, d, m))
    && (forall only :: LeasedOnly(s.db.jobs, w, only) ==> LeasedOnly(s'.db.jobs, w, only))
  }

  lemma {:induction false} KeepsAll(s: System, w: Worker)
    ensures Keeps(s, s, w)
  {
  }

  lemma {:induction false} KeepsThrough(s: System, s': System, s'': System, w: Worker)
    requires Keeps(s, s', w) && Keeps(s', s'', w)
    ensures Keeps(s, s'', w)
  {
    hide InLog, ManifestIs, LeasedOnly;
  }

  lemma {:induction false} LeasedOnlyStays(jobs: map<Id, Job>, jobs': map<Id, Job>, next: Id, claimed: Option<Id>, w: Worker, only: Option<Id>)
    requires LeasedOnly(jobs, w, only) && JobsEvolve(jobs, jobs', next, claimed)
    requires claimed.Some? && claimed.value in jobs' && jobs'[claimed.value].lease.Some? ==> jobs'[claimed.value].lease.value.holder != w
    ensures LeasedOnly(jobs', w, only)
  {
  }

  lemma {:induction false} ManifestStays(t: Tables, t': Tables, d: Id, m: Manifest)
    requires ManifestIs(t, d, m) && t.nextId <= t'.nextId && DeploymentsEvolve(t.deployments, t'.deployments, t'.apps, t.nextId)
    ensures ManifestIs(t', d, m)
  {
  }

  lemma {:induction false} LogStays(log: seq<Event>, log': seq<Event>, job: Id)
    requires log <= log' && InLog(log, job)
    ensures InLog(log', job)
  {
    var e :| e in log && e.Published? && e.job == job;
    assert e in log';
  }

  lemma {:induction false} EvolvingKeeps(s: System, s': System, claimed: Option<Id>, published: Option<Id>, w: Worker)
    requires Evolves(s.db, s'.db, claimed, published) && s.log <= s'.log
    requires claimed.Some? && claimed.value in s'.db.jobs && s'.db.jobs[claimed.value].lease.Some? ==>
               s'.db.jobs[claimed.value].lease.value.holder != w
    ensures Keeps(s, s', w)
  {
    hide InLog, ManifestIs, LeasedOnly, JobsEvolve, RunsEvolve, DatasetsEvolve, DeploymentsEvolve;
    forall job | InLog(s.log, job) ensures InLog(s'.log, job) { LogStays(s.log, s'.log, job); }
    forall d, m | ManifestIs(s.db, d, m) ensures ManifestIs(s'.db, d, m) { ManifestStays(s.db, s'.db, d, m); }
    forall only | LeasedOnly(s.db.jobs, w, only) ensures LeasedOnly(s'.db.jobs, w, only) {
      LeasedOnlyStays(s.db.jobs, s'.db.jobs, s.db.nextId, claimed, w, only);
    }
  }

  lemma {:induction false} LogGrows(s: System, w: Worker, a: WorkerAction)
    requires Enabled(s, w, a)
    ensures s.log <= ActWorker(s, w, a).log
  {
    hide EnqueueDueConnector, Take, Heartbeat, SetConnectorRunBytes, CompletePublish, CompleteImport, CancelClaimed,
         Retry, Fail, FromManifest;
  }

  /** A worker's step other than a claim of its own. */
  lemma {:induction false} WorkKept(s: System, v: Worker, a: WorkerAction, w: Worker)
    requires Safe(s) && Enabled(s, v, a) && !(v == w && a.ClaimJob?)
    ensures Keeps(s, ActWorker(s, v, a), w)
  {
    hide Safe, Sound, ClaimsFit, Fenced, Evolves, Keeps, ActWorker, Enabled;
    SafeParts(s);
    WorkEvolves(s, v, a);
    LogGrows(s, v, a);
    if a.ClaimJob? { ClaimLeases(s, v, a.kind, a.id, a.lease); }
    EvolvingKeeps(s, ActWorker(s, v, a), ClaimedBy(a), PublishedBy(s, v, a), w);
  }

  lemma {:induction false} ClaimLeases(s: System, v: Worker, kind: Kind, id: Id, lease: Time)
    requires Enabled(s, v, ClaimJob(kind, id, lease))
    ensures var jobs' := ActWorker(s, v, ClaimJob(kind, id, lease)).db.jobs;
            id in jobs' && jobs'[id].lease.Some? && jobs'[id].lease.value.holder == v && jobs' == s.db.jobs[id := jobs'[id]]
  {
    hide EnqueueDueConnector, Heartbeat, SetConnectorRunBytes, CompletePublish, CompleteImport, CancelClaimed, Retry,
         Fail, FromManifest;
  }

  // ---------- steps between two of the worker's own

  predicate Beats(a: WorkerAction) { a.CheckBeat? || a.RenewBeat? }

  /** A step of a user, of another worker or of the worker's heartbeat. */
  predicate Foreign(w: Worker, step: Step)
  {
    step.Work? && step.worker == w ==> Beats(step.work)
  }

  /** Only what the heartbeat says may have changed, and not after it was joined. */
  predicate SameButBeat(me: WorkerState, me': WorkerState)
  {
    if me.Busy? && me.phase.Working? then me'.Busy? && me' == me.(beat := me'.beat) else me' == me
  }

  lemma {:induction false} BeatMoves(s: System, w: Worker, a: WorkerAction)
    requires Enabled(s, w, a) && Beats(a)
    ensures SameButBeat(At(s, w), At(ActWorker(s, w, a), w))
  {
    hide EnqueueDueConnector, Take, Heartbeat, SetConnectorRunBytes, CompletePublish, CompleteImport, CancelClaimed,
         Retry, Fail, FromManifest, Holds;
  }

  lemma {:induction false} ForeignStep(s: System, step: Step, w: Worker)
    requires Safe(s) && Foreign(w, step)
    ensures Keeps(s, Apply(s, step), w) && SameButBeat(At(s, w), At(Apply(s, step), w))
  {
    hide Safe, Sound, Evolves, Keeps, ActWorker, ActUser, Enabled, Said;
    var s1 := s.(db := Later(s.db, step.elapsed));
    LaterKept(s, step.elapsed, w);
    LaterStaysSafe(s, step.elapsed);
    match step
    case User(_, tenant, a) =>
      SafeIsSound(s1);
      UserEvolves(s1.db, tenant, a);
      EvolvingKeeps(s1, Apply(s, step), None, None, w);
      KeepsThrough(s, s1, Apply(s, step), w);
    case Work(_, v, a) =>
      if Enabled(s1, v, a) {
        WorkKept(s1, v, a, w);
        KeepsThrough(s, s1, Apply(s, step), w);
        if v == w { BeatMoves(s1, w, a); } else { OthersUntouched(s1, v, a, w); }
      }
  }

  lemma {:induction false} LaterKept(s: System, elapsed: nat, w: Worker)
    ensures Keeps(s, s.(db := Later(s.db, elapsed)), w)
  {
  }

  // ---------- the worker's own steps

  /** Whether the worker's place in the loop allows the step; what a release declares is asked apart. */
  predicate Ready(me: WorkerState, a: WorkerAction)
  {
    match a
    case Enqueue(_) => me.Idle?
    case ClaimJob(_, _, _) => false
    case CheckBeat(_) => me.Busy? && me.phase.Working? && me.beat.Waiting?
    case RenewBeat(_, _) => me.Busy? && me.phase.Working? && me.beat.Checked?
    case SetBytes(_) => me.Busy? && me.phase.Working? && me.body.AtWork? && me.claim.kind.ConnectorSync?
    case PublishSnapshot(_, _) => me.Busy? && me.phase.Working? && me.body.AtWork? && ForRun(me.claim.kind)
    case PublishRelease(_, _) => me.Busy? && me.phase.Working? && me.body.AtWork? && me.claim.kind.AppPublish?
    case GiveUp => me.Busy? && me.phase.Working? && me.body.AtWork?
    case JoinBeat(_) => me.Busy? && me.phase.Working? && me.body.Ended?
    case LookForCancel(_) => me.Busy? && me.phase.Joined?
    case CancelMine => me.Busy? && me.phase.Cancelling?
    case RetryMine(_) => me.Busy? && me.phase.Failing? && me.claim.kind.ConnectorSync?
    case FailMine => me.Busy? && me.phase.Failing?
    case Crash => true
  }

  ghost predicate FitsTarget(t: Tables, me: WorkerState, queries: seq<PublishedQuery>)
  {
    me.Busy? && me.claim.target in t.deployments ==> FromManifest(t.deployments[me.claim.target].manifest, queries)
  }

  lemma {:induction false} ReadyIsEnabled(s: System, w: Worker, a: WorkerAction)
    requires Ready(At(s, w), a) && (a.PublishRelease? ==> FitsTarget(s.db, At(s, w), a.queries))
    ensures Enabled(s, w, a)
  {
    hide FromManifest;
  }

  /** Where the step takes the worker; the log is the one after it. */
  ghost predicate Moves(log: seq<Event>, me: WorkerState, me': WorkerState, a: WorkerAction)
  {
    match a
    case Enqueue(_) => me'.Idle?
    case ClaimJob(kind, id, _) => me'.Busy? && me'.claim.kind == kind && me'.claim.job == id && me'.phase.Working? && me'.body.AtWork?
    case CheckBeat(_) => SameButBeat(me, me')
    case RenewBeat(_, _) => SameButBeat(me, me')
    case SetBytes(_) => me.Busy? && me'.Busy? && (me' == me || me' == me.(body := Ended(true)))
    case PublishSnapshot(_, _) => BodyEnds(log, me, me')
    case PublishRelease(_, _) => BodyEnds(log, me, me')
    case GiveUp => BodyEnds(log, me, me')
    case JoinBeat(_) => me.Busy? && me'.Busy? && me' == me.(phase := Joined, beat := me'.beat)
    case LookForCancel(_) =>
      me'.Idle? || (me.Busy? && me' == me.(phase := me'.phase) && (me'.phase.Cancelling? || me'.phase.Failing?))
    case CancelMine => me'.Idle?
    case RetryMine(_) => me'.Idle? || me' == me
    case FailMine => me'.Idle?
    case Crash => me'.Idle?
  }

  /** A body that ended without an error has published. */
  ghost predicate BodyEnds(log: seq<Event>, me: WorkerState, me': WorkerState)
  {
    && me.Busy? && me'.Busy? && me'.body.Ended? && me' == me.(body := me'.body)
    && (me'.body == Ended(false) ==> InLog(log, me.claim.job))
  }

  lemma {:induction false} OwnStep(s: System, w: Worker, a: WorkerAction)
    requires Enabled(s, w, a)
    ensures var s' := ActWorker(s, w, a); Moves(s'.log, At(s, w), At(s', w), a)
  {
    hide EnqueueDueConnector, Take, Heartbeat, SetConnectorRunBytes, CompletePublish, CompleteImport, CancelClaimed,
         Retry, Fail, FromManifest, OtherLive, InLog, BodyEnds, CancelRequested;
    match a
    case Enqueue(_) =>
    case ClaimJob(_, _, _) =>
    case CheckBeat(_) =>
    case RenewBeat(_, _) =>
    case SetBytes(_) =>
    case PublishSnapshot(_, _) => BodyStep(s, w, a);
    case PublishRelease(_, _) => BodyStep(s, w, a);
    case GiveUp => BodyStep(s, w, a);
    case JoinBeat(_) =>
    case LookForCancel(_) =>
    case CancelMine =>
    case RetryMine(_) =>
    case FailMine =>
    case Crash =>
  }

  lemma {:induction false} BodyStep(s: System, w: Worker, a: WorkerAction)
    requires Enabled(s, w, a) && (a.PublishSnapshot? || a.PublishRelease? || a.GiveUp?)
    ensures var s' := ActWorker(s, w, a); BodyEnds(s'.log, At(s, w), At(s', w))
  {
    hide EnqueueDueConnector, Take, Heartbeat, SetConnectorRunBytes, CompletePublish, CompleteImport, CancelClaimed,
         Retry, Fail, FromManifest, InLog;
    var s' := ActWorker(s, w, a);
    if s'.log != s.log { Logged(s.log, s'.log[|s.log|]); }
  }

  lemma {:induction false} Logged(log: seq<Event>, e: Event)
    requires e.Published?
    ensures InLog(log + [e], e.job)
  {
    assert (log + [e])[|log|] == e;
  }

  /** A claim is the worker's only job, if it had none. */
  lemma {:induction false} ClaimKept(s: System, w: Worker, kind: Kind, id: Id, lease: Time)
    requires Enabled(s, w, ClaimJob(kind, id, lease)) && LeasedOnly(s.db.jobs, w, None)
    ensures LeasedOnly(ActWorker(s, w, ClaimJob(kind, id, lease)).db.jobs, w, Some(id))
  {
    hide ActWorker, Enabled;
    ClaimLeases(s, w, kind, id, lease);
  }

  /** If the worker left its job just now, having published it if the body went well, the job is on no lease of its. */
  ghost predicate LetsGo(s: System, s': System, w: Worker)
  {
    var me := At(s, w);
    me.Busy? && At(s', w).Idle? && (me.body == Ended(false) ==> InLog(s.log, me.claim.job)) && LeasedOnly(s.db.jobs, w, Some(me.claim.job)) ==>
      LeasedOnly(s'.db.jobs, w, None)
  }

  /** Any step but a crash lets the job go that it leaves. */
  lemma {:induction false} Settles(s: System, w: Worker, a: WorkerAction)
    requires Safe(s) && Enabled(s, w, a) && !a.Crash?
    ensures LetsGo(s, ActWorker(s, w, a), w)
  {
    hide Safe, Sound, ClaimFits, Claimable, FromManifest, ActWorker, LeasedOnly, InLog;
    var me := At(s, w);
    if me.Busy? && At(ActWorker(s, w, a), w).Idle? && (me.body == Ended(false) ==> InLog(s.log, me.claim.job)) && LeasedOnly(s.db.jobs, w, Some(me.claim.job)) {
      WorkKept(s, w, a, w);
      assert LeasedOnly(ActWorker(s, w, a).db.jobs, w, Some(me.claim.job));
      Released(s, w, a);
      NotLeased(ActWorker(s, w, a).db.jobs, w, me.claim.job);
    }
  }

  lemma {:induction false} NotLeased(jobs: map<Id, Job>, w: Worker, job: Id)
    requires LeasedOnly(jobs, w, Some(job)) && !(job in jobs && jobs[job].lease.Some? && jobs[job].lease.value.holder == w)
    ensures LeasedOnly(jobs, w, None)
  {
  }

  lemma {:induction false} Released(s: System, w: Worker, a: WorkerAction)
    requires Safe(s) && Enabled(s, w, a) && At(s, w).Busy? && At(ActWorker(s, w, a), w).Idle? && !a.Crash?
    requires At(s, w).body == Ended(false) ==> InLog(s.log, At(s, w).claim.job)
    ensures var jobs', job := ActWorker(s, w, a).db.jobs, At(s, w).claim.job;
            !(job in jobs' && jobs'[job].lease.Some? && jobs'[job].lease.value.holder == w)
  {
    hide Safe, Sound, ClaimFits, InLog, EnqueueDueConnector, Take, Heartbeat, SetConnectorRunBytes, CompletePublish,
         CompleteImport, FromManifest, Holds, CancelRequested, WithRunStatus, WithDeploymentStatus;
    var c := At(s, w).claim;
    SafeParts(s);
    LeaseIsHeld(s.db, c);
    if a.LookForCancel? { PublishedIsDone(s, c.job); }
  }

  /** The worker's lease of a claimed row is the claim's. */
  lemma {:induction false} LeaseIsHeld(t: Tables, c: Claim)
    requires Sound(t) && ClaimFits(t, c)
    ensures c.job in t.jobs && t.jobs[c.job].lease.Some? && t.jobs[c.job].lease.value.holder == c.worker <==> Holds(t.jobs, c)
  {
    hide Sound;
    if c.job in t.jobs { RowFacts(t, c.job); }
  }

  lemma {:induction false} PublishedIsDone(s: System, job: Id)
    requires Safe(s) && InLog(s.log, job)
    ensures job in s.db.jobs ==> s.db.jobs[job].lease.None?
  {
    hide Sound, Fenced, ClaimsFit, PublishedOnce, Shown, CancelledWasAsked;
    if job in s.db.jobs { RowFacts(s.db, job); }
  }

  // ---------- the order of a worker's own steps

  /** The worker's own steps of a run, without those of its heartbeat. */
  function Own(steps: seq<Step>, w: Worker): seq<WorkerAction>
  {
    if steps == [] then []
    else
      var n := |steps| - 1;
      Own(steps[..n], w) + if Foreign(w, steps[n]) || steps[n].User? then [] else [steps[n].work]
  }

  lemma {:induction false} OwnAppend(steps: seq<Step>, step: Step, w: Worker)
    ensures Own(steps + [step], w) == Own(steps, w) + if Foreign(w, step) || step.User? then [] else [step.work]
  {
    hide Foreign;
    assert (steps + [step])[..|steps|] == steps;
  }

  /** runImport, runConnector or runPublish up to cancel(). */
  predicate BodyInOrder(kind: Kind, own: seq<WorkerAction>)
  {
    || own == [GiveUp]
    || (kind.DatasetImport? && |own| == 1 && own[0].PublishSnapshot?)
    || (kind.ConnectorSync? && 1 <= |own| <= 2 && own[0].SetBytes? && (|own| == 2 ==> own[1].GiveUp? || own[1].PublishSnapshot?))
    || (kind.AppPublish? && |own| == 1 && own[0].PublishRelease?)
  }

  /** RetryConnectorJob for a sync, then the failure; a lost answer ends it. */
  predicate FailureInOrder(kind: Kind, own: seq<WorkerAction>)
  {
    || (|own| == 1 && (own[0].FailMine? || own[0].Crash? || (kind.ConnectorSync? && own[0].RetryMine?)))
    || (|own| == 2 && kind.ConnectorSync? && own[0].RetryMine? && (own[1].FailMine? || own[1].Crash?))
  }

  /** What follows cancel(): the heartbeat is joined, then cancellation looked for, then the job is settled. */
  predicate EndInOrder(kind: Kind, own: seq<WorkerAction>)
  {
    && |own| >= 2 && own[0].JoinBeat? && own[1].LookForCancel?
    && (|own| == 2 || own[2..] == [CancelMine] || FailureInOrder(kind, own[2..]))
  }

  predicate JobInOrder(own: seq<WorkerAction>)
  {
    own != [] && own[0].ClaimJob?
    && exists k :: 1 <= k <= |own| && BodyInOrder(own[0].kind, own[1..k]) && EndInOrder(own[0].kind, own[k..])
  }

  lemma {:induction false} InOrder(claim: WorkerAction, body: seq<WorkerAction>, end: seq<WorkerAction>)
    requires claim.ClaimJob? && BodyInOrder(claim.kind, body) && EndInOrder(claim.kind, end)
    ensures JobInOrder([claim] + body + end)
  {
    hide BodyInOrder, EndInOrder;
    var own, k := [claim] + body + end, 1 + |body|;
    assert own[1..k] == body && own[k..] == end;
  }
}
