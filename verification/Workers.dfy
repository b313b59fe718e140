/**
 The workers' code over the shared tables. A cluster is the database and every worker's place in its loop; each
 statement of Run, runImport, runConnector, runPublish and heartbeat is a method that does exactly the protocol step it
 is named after, and the loop is their composition, with any steps of users and other workers between any two.
*/
module Workers {
  import opened Wrappers
  import opened Manifests
  import opened Schema
  import opened Transitions
  import opened Consistency
  import opened JobsStaySound
  import opened QueriesStaySound
  import opened Protocol
  import opened SoundRuns
  import opened Evolution
  import opened Safety
  import opened Guarantees
  import opened Databases
  import opened WorkerLoops
  import Publishing
  import Bundles
  import Idempotency

  /** The delay of runConnector: the server's, or the square of the attempts in seconds, at most 30 seconds. */
  function RetryDelay(asked: Time, attempts: nat): (delay: Time)
    ensures 0 <= delay <= 30 * SECOND
    ensures asked > 0 ==> delay == asked || 30 * SECOND == delay < asked
    ensures asked <= 0 && attempts <= 5 ==> delay == attempts * attempts * SECOND
    ensures asked <= 0 && attempts > 5 ==> delay == 30 * SECOND
  {
    var delay := if asked <= 0 then attempts * attempts * SECOND else asked;
    if delay > 30 * SECOND then 30 * SECOND else delay
  }

  /** The state a run has reached, some time later. */
  ghost function Moment(history: seq<Step>, elapsed: nat): System
  {
    var s := Exec(INITIAL, history);
    s.(db := Later(s.db, elapsed))
  }

  /** What holds in every moment. */
  lemma {:induction false} MomentFacts(history: seq<Step>, elapsed: nat)
    ensures Safe(Moment(history, elapsed)) && Sound(Moment(history, elapsed).db) && ClaimsFit(Moment(history, elapsed))
    ensures Moment(history, 0) == Exec(INITIAL, history)
  {
    hide Safe, Exec, Sound, Fenced, ClaimFits;
    ReachableIsSafe(history);
    LaterStaysSafe(Exec(INITIAL, history), elapsed);
    SafeParts(Moment(history, elapsed));
  }

  /** A step taken in that moment leads on along the run. */
  lemma {:induction false} Goes(history: seq<Step>, elapsed: nat, w: Worker, a: WorkerAction)
    requires Enabled(Moment(history, elapsed), w, a)
    ensures Moment(history + [Work(elapsed, w, a)], 0) == ActWorker(Moment(history, elapsed), w, a)
    ensures Sound(Moment(history, elapsed).db)
    ensures At(Moment(history, elapsed), w).Busy? ==> ClaimFits(Moment(history, elapsed).db, At(Moment(history, elapsed), w).claim)
  {
    hide Sound, Safe, Exec, ClaimFits, Enabled, ActWorker;
    ExecAppend(INITIAL, history, Work(elapsed, w, a));
    MomentFacts(history, elapsed);
    MomentFacts(history + [Work(elapsed, w, a)], 0);
  }

  lemma {:induction false} GoesOn(history: seq<Step>, elapsed: nat, tenant: Id, a: UserAction)
    ensures Moment(history + [User(elapsed, tenant, a)], 0) ==
            Moment(history, elapsed).(db := ActUser(Moment(history, elapsed).db, tenant, a),
                                      log := Moment(history, elapsed).log + Said(Moment(history, elapsed).db, tenant, a))
    ensures Sound(Moment(history, elapsed).db)
  {
    hide Sound, Safe, Exec, ActUser, Said;
    ExecAppend(INITIAL, history, User(elapsed, tenant, a));
    MomentFacts(history, elapsed);
    MomentFacts(history + [User(elapsed, tenant, a)], 0);
  }

  lemma {:induction false} Waits(history: seq<Step>, elapsed: nat)
    ensures Moment(history, elapsed) == Moment(history, 0).(db := Later(Moment(history, 0).db, elapsed))
  {
    hide Exec;
  }

  /** The log plays no part in what a worker may do. */
  lemma {:induction false} EnabledUnlogged(s: System, w: Worker, a: WorkerAction)
    ensures Enabled(System(s.db, s.workers, []), w, a) == Enabled(s, w, a)
  {
    hide Claimable, FromManifest;
  }

  lemma {:induction false} NotTaken(history: seq<Step>, step: Step)
    requires step.Work? && !Enabled(Moment(history, step.elapsed), step.worker, step.work)
    ensures Moment(history + [step], 0) == Moment(history, step.elapsed)
  {
    hide Exec, Enabled, ActWorker;
    ExecAppend(INITIAL, history, step);
  }

  lemma {:induction false} NoSteps()
    ensures Moment([], 0) == System(EMPTY, map[], [])
  {
  }

  // ---------- the world around one pass of the loop

  /** What the object store, DuckDB, the connector's server and the network answer during one pass. */
  datatype Outside = Outside(
    lease: Time, uploadLimit: nat, snapshot: Option<ImportResult>, fetched: Option<int>,
    intact: bool, archive: Bundles.Archive, decode: string -> Option<Manifest>,
    replyLost: bool, beatBroken: bool, readable: bool, retryable: bool, asked: Time,
    cancelLost: bool, retryLost: bool, failLost: bool, enqueueFails: bool, claimFails: Kind -> bool)
  {
    /** The statement that settles the job is not lost. */
    predicate Answered() { !cancelLost && !retryLost && !failLost }
  }

  /** Places of the loop where others may take any steps. */
  datatype Gap =
    | BeforeEnqueue | BeforeImport | BeforeConnector | BeforePublish
    | BeforeDetails | BeforeBytes | BeforeEffect | BeforeJoin | BeforeLook | BeforeEnd | BeforeFail

  ghost predicate AllForeign(w: Worker, others: Gap -> seq<Step>)
  {
    forall g, i :: 0 <= i < |others(g)| ==> Foreign(w, others(g)[i])
  }

  predicate AtWorkOn(me: WorkerState, kind: Kind)
  {
    me.Busy? && me.claim.kind == kind && me.phase.Working? && me.body.AtWork?
  }

  lemma {:induction false} ForeignIsNotOwn(history: seq<Step>, step: Step, w: Worker)
    requires Foreign(w, step)
    ensures Own(history + [step], w) == Own(history, w)
  {
    hide Foreign, Own;
    OwnAppend(history, step, w);
  }

  lemma {:induction false} OwnOne(history: seq<Step>, w: Worker, a: WorkerAction)
    requires !Beats(a)
    ensures Own(history + [Work(0, w, a)], w) == Own(history, w) + [a]
  {
    hide Own;
    OwnAppend(history, Work(0, w, a), w);
  }

  /** An own step that may be taken. */
  lemma {:induction false} Took(s: System, history: seq<Step>, w: Worker, a: WorkerAction)
    requires s == Moment(history, 0) && Ready(At(s, w), a) && !Beats(a) && (a.PublishRelease? ==> FitsTarget(s.db, At(s, w), a.queries))
    ensures Enabled(s, w, a)
    ensures var s' := ActWorker(s, w, a);
            Moves(s'.log, At(s, w), At(s', w), a) && Keeps(s, s', w) && (!a.Crash? ==> LetsGo(s, s', w))
    ensures Own(history + [Work(0, w, a)], w) == Own(history, w) + [a]
  {
    hide Safe, Sound, ClaimsFit, Exec, Moment, Own, ActWorker, Enabled, Keeps, Moves, FitsTarget, LetsGo;
    MomentFacts(history, 0);
    ReadyIsEnabled(s, w, a);
    OwnStep(s, w, a);
    WorkKept(s, w, a, w);
    OwnOne(history, w, a);
    if !a.Crash? { Settles(s, w, a); }
  }

  lemma {:induction false} TookJob(s: System, history: seq<Step>, w: Worker, kind: Kind, id: Id, lease: Time)
    requires Enabled(s, w, ClaimJob(kind, id, lease))
    ensures var s' := ActWorker(s, w, ClaimJob(kind, id, lease));
            && Moves(s'.log, At(s, w), At(s', w), ClaimJob(kind, id, lease))
            && (LeasedOnly(s.db.jobs, w, None) ==> LeasedOnly(s'.db.jobs, w, Some(id)))
    ensures Own(history + [Work(0, w, ClaimJob(kind, id, lease))], w) == Own(history, w) + [ClaimJob(kind, id, lease)]
  {
    hide Own, ActWorker, Enabled, LeasedOnly, Moves;
    OwnStep(s, w, ClaimJob(kind, id, lease));
    OwnOne(history, w, ClaimJob(kind, id, lease));
    if LeasedOnly(s.db.jobs, w, None) { ClaimKept(s, w, kind, id, lease); }
  }

  /** A job let go in the end was let go since the beginning, when nothing but the heartbeat's word changed at first. */
  lemma {:induction false} LetsGoLater(s: System, s': System, s'': System, w: Worker)
    requires Keeps(s, s', w) && LetsGo(s', s'', w)
    requires At(s, w).Busy? && At(s', w).Busy? && At(s', w).claim == At(s, w).claim && At(s', w).body == At(s, w).body
    ensures LetsGo(s, s'', w)
  {
    hide InLog, LeasedOnly, ManifestIs;
  }

  /** The same when the body failed in between. */
  lemma {:induction false} FailsLater(s: System, s': System, s'': System, w: Worker)
    requires Keeps(s, s', w) && LetsGo(s', s'', w)
    requires At(s, w).Busy? && At(s', w).Busy? && At(s', w).claim == At(s, w).claim && At(s', w).body == Ended(true)
    ensures LetsGo(s, s'', w)
  {
    hide InLog, LeasedOnly, ManifestIs;
  }

  /** The same when the body ended in between. */
  lemma {:induction false} EndsLater(s: System, s1: System, s2: System, s3: System, w: Worker)
    requires Keeps(s, s2, w) && Keeps(s1, s2, w) && LetsGo(s2, s3, w)
    requires At(s, w).Busy? && At(s2, w).Busy? && At(s2, w).claim == At(s, w).claim
    requires At(s2, w).body == Ended(false) ==> InLog(s1.log, At(s, w).claim.job)
    ensures LetsGo(s, s3, w)
  {
    hide InLog, LeasedOnly, ManifestIs;
  }

  /** The queries fit the manifest of the worker's deployment, which is the one it has for good. */
  ghost predicate DeclaredFor(s: System, w: Worker, queries: seq<PublishedQuery>)
  {
    At(s, w).Busy? && exists m :: ManifestIs(s.db, At(s, w).claim.target, m) && FromManifest(m, queries)
  }

  /** What GetPublishDetails reads stays so. */
  lemma {:induction false} ManifestRead(history: seq<Step>, w: Worker)
    requires At(Moment(history, 0), w).Busy?
    ensures var t, c := Moment(history, 0).db, At(Moment(history, 0), w).claim;
            Holds(t.jobs, c) && t.jobs[c.job].kind.AppPublish? && t.jobs[c.job].target in t.deployments ==>
              t.jobs[c.job].target == c.target && ManifestIs(t, c.target, t.deployments[c.target].manifest)
  {
    hide Safe, Sound, Exec, Moment;
    MomentFacts(history, 0);
    var t, c := Moment(history, 0).db, At(Moment(history, 0), w).claim;
    assert ClaimFits(t, c);
    if c.target in t.deployments { Idempotency.IssuedDeployment(t, c.target); }
  }

  lemma {:induction false} StillDeclared(s: System, s': System, w: Worker, queries: seq<PublishedQuery>)
    requires DeclaredFor(s, w, queries) && Keeps(s, s', w) && At(s', w).Busy? && At(s', w).claim == At(s, w).claim
    ensures FitsTarget(s'.db, At(s', w), queries)
  {
    hide InLog, LeasedOnly, FromManifest;
    var m :| ManifestIs(s.db, At(s, w).claim.target, m) && FromManifest(m, queries);
    assert ManifestIs(s'.db, At(s', w).claim.target, m);
  }

  class Cluster {
    const database: Database
    var workers: map<Worker, WorkerState>
    ghost var log: seq<Event>
    ghost var history: seq<Step>

    ghost function View(): System
      reads this, database
    {
      System(database.Rows(), workers, log)
    }

    function Me(w: Worker): WorkerState
      reads this
    {
      if w in workers then workers[w] else Idle
    }

    /** The steps so far led here, but for the time since. */
    ghost predicate Since(elapsed: nat)
      reads this, database
    {
      View() == Moment(history, elapsed)
    }

    /** The cluster is where the protocol's run is. */
    ghost predicate Valid()
      reads this, database
    {
      Since(0)
    }

    constructor ()
      ensures Valid() && workers == map[] && log == [] && history == [] && fresh(database)
    {
      hide Exec, Sound, Moment;
      database := new Database();
      workers, log, history := map[], [], [];
      new;
      NoSteps();
    }

    // ---------- the top of the loop

    /** EnqueueDueConnector for a given connector. */
    method EnqueueConnector(w: Worker, c: Id, ghost elapsed: nat)
      requires Since(elapsed) && Me(w).Idle?
      modifies this, database
      ensures View() == ActWorker(old(View()), w, Protocol.Enqueue(c))
      ensures history == old(history) + [Work(elapsed, w, Protocol.Enqueue(c))]
      ensures Valid()
    {
      hide Sound, Exec, Moment, ClaimFits, Transitions.EnqueueDueConnector;
      Goes(history, elapsed, w, Protocol.Enqueue(c));
      if Due(database.Rows(), c) {
        ghost var fired := Fired(c, database.connectors[c].nextSyncAt, database.now);
        var r := database.EnqueueConnector(c);
        if r.Enqueued? { log := log + [fired]; }
      } else {
        NothingIsDue(database.Rows(), c);
      }
      history := history + [Work(elapsed, w, Protocol.Enqueue(c))];
    }

    method TakeJob(w: Worker, kind: Kind, id: Id, lease: Time, ghost elapsed: nat)
      requires Since(elapsed) && Enabled(View(), w, ClaimJob(kind, id, lease))
      modifies this, database
      ensures View() == ActWorker(old(View()), w, ClaimJob(kind, id, lease))
      ensures history == old(history) + [Work(elapsed, w, ClaimJob(kind, id, lease))]
      ensures Valid()
    {
      hide Sound, Exec, Moment, ClaimFits, Take;
      Goes(history, elapsed, w, ClaimJob(kind, id, lease));
      var c := database.TakeJob(kind, id, w, lease);
      workers := workers[w := Busy(c, Working, AtWork, Waiting)];
      history := history + [Work(elapsed, w, ClaimJob(kind, id, lease))];
    }

    // ---------- the heartbeat

    /** Its first statement: is cancellation requested? */
    method CheckBeat(w: Worker, broken: bool, ghost elapsed: nat)
      requires Since(elapsed) && Enabled(View(), w, Protocol.CheckBeat(broken))
      modifies this
      ensures View() == ActWorker(old(View()), w, Protocol.CheckBeat(broken))
      ensures history == old(history) + [Work(elapsed, w, Protocol.CheckBeat(broken))]
      ensures Valid()
    {
      hide Sound, Exec, Moment, ClaimFits;
      Goes(history, elapsed, w, Protocol.CheckBeat(broken));
      var me := workers[w];
      var requested := database.JobCancellationRequested(me.claim);
      workers := workers[w := me.(beat := if broken || requested.Err? then Broke else if requested.value then SawCancel else Checked)];
      history := history + [Work(elapsed, w, Protocol.CheckBeat(broken))];
    }

    /** Its second statement: a new lease. */
    method RenewBeat(w: Worker, lease: Time, broken: bool, ghost elapsed: nat)
      requires Since(elapsed) && Enabled(View(), w, Protocol.RenewBeat(lease, broken))
      modifies this, database
      ensures View() == ActWorker(old(View()), w, Protocol.RenewBeat(lease, broken))
      ensures history == old(history) + [Work(elapsed, w, Protocol.RenewBeat(lease, broken))]
      ensures Valid()
    {
      hide Sound, Exec, Moment, ClaimFits;
      Goes(history, elapsed, w, Protocol.RenewBeat(lease, broken));
      var me := workers[w];
      if broken {
        workers := workers[w := me.(beat := Broke)];
      } else {
        var r := database.HeartbeatJob(me.claim, lease);
        workers := workers[w := me.(beat := if r.Ok? then Waiting else Broke)];
      }
      history := history + [Work(elapsed, w, Protocol.RenewBeat(lease, broken))];
    }

    // ---------- the body

    method SetBytes(w: Worker, bytes: int, ghost elapsed: nat)
      requires Since(elapsed) && Enabled(View(), w, Protocol.SetBytes(bytes))
      modifies this, database
      ensures View() == ActWorker(old(View()), w, Protocol.SetBytes(bytes))
      ensures history == old(history) + [Work(elapsed, w, Protocol.SetBytes(bytes))]
      ensures Valid()
    {
      hide Sound, Exec, Moment, ClaimFits, StoredBytes;
      Goes(history, elapsed, w, Protocol.SetBytes(bytes));
      var me := workers[w];
      var r := database.SetConnectorRunBytes(me.claim, bytes);
      workers := workers[w := me.(body := if r.Ok? then AtWork else Ended(true))];
      history := history + [Work(elapsed, w, Protocol.SetBytes(bytes))];
    }

    /** The end of a successful import: the reply may be lost after the commit. */
    method PublishSnapshot(w: Worker, result: ImportResult, replyLost: bool, ghost elapsed: nat)
      requires Since(elapsed) && Enabled(View(), w, Protocol.PublishSnapshot(result, replyLost))
      modifies this, database
      ensures View() == ActWorker(old(View()), w, Protocol.PublishSnapshot(result, replyLost))
      ensures history == old(history) + [Work(elapsed, w, Protocol.PublishSnapshot(result, replyLost))]
      ensures Valid()
    {
      hide Sound, Exec, Moment, ActWorker, Enabled, ClaimFits, CompleteImport;
      Goes(history, elapsed, w, Protocol.PublishSnapshot(result, replyLost));
      SnapshotAct(View(), w, result, replyLost);
      ghost var before := database.Rows();
      var me := workers[w];
      var r := database.CompleteImportJob(me.claim, result);
      if r.Ok? { log := log + [Published(me.claim.job, SnapshotOf(before, me.claim, result))]; }
      workers := workers[w := me.(body := Ended(r.Err? || replyLost))];
      history := history + [Work(elapsed, w, Protocol.PublishSnapshot(result, replyLost))];
    }

    method PublishRelease(w: Worker, queries: seq<PublishedQuery>, replyLost: bool, ghost elapsed: nat)
      requires Since(elapsed) && Enabled(View(), w, Protocol.PublishRelease(queries, replyLost))
      modifies this, database
      ensures View() == ActWorker(old(View()), w, Protocol.PublishRelease(queries, replyLost))
      ensures history == old(history) + [Work(elapsed, w, Protocol.PublishRelease(queries, replyLost))]
      ensures Valid()
    {
      hide Sound, Exec, Moment, ActWorker, FromManifest, ClaimFits, CompletePublish;
      Goes(history, elapsed, w, Protocol.PublishRelease(queries, replyLost));
      ReleaseAct(View(), w, queries, replyLost);
      ghost var before := database.Rows();
      var me := workers[w];
      var r := database.CompletePublishJob(me.claim, queries);
      if r.Ok? { log := log + [Published(me.claim.job, ReleaseOf(before, me.claim))]; }
      workers := workers[w := me.(body := Ended(r.Err? || replyLost))];
      history := history + [Work(elapsed, w, Protocol.PublishRelease(queries, replyLost))];
    }

    /** Any other error of the body. */
    method GiveUp(w: Worker, ghost elapsed: nat)
      requires Since(elapsed) && Enabled(View(), w, Protocol.GiveUp)
      modifies this
      ensures View() == ActWorker(old(View()), w, Protocol.GiveUp)
      ensures history == old(history) + [Work(elapsed, w, Protocol.GiveUp)]
      ensures Valid()
    {
      hide Sound, Exec, Moment, ClaimFits;
      Goes(history, elapsed, w, Protocol.GiveUp);
      workers := workers[w := workers[w].(body := Ended(true))];
      history := history + [Work(elapsed, w, Protocol.GiveUp)];
    }

    // ---------- after the body

    /** cancel(), and waiting for the heartbeat to return. */
    method JoinBeat(w: Worker, broken: bool, ghost elapsed: nat)
      requires Since(elapsed) && Enabled(View(), w, Protocol.JoinBeat(broken))
      modifies this
      ensures View() == ActWorker(old(View()), w, Protocol.JoinBeat(broken))
      ensures history == old(history) + [Work(elapsed, w, Protocol.JoinBeat(broken))]
      ensures Valid()
    {
      hide Sound, Exec, Moment, ClaimFits;
      Goes(history, elapsed, w, Protocol.JoinBeat(broken));
      var me := workers[w];
      workers := workers[w := me.(phase := Joined, beat := if me.beat.SawCancel? || !broken then me.beat else Broke)];
      history := history + [Work(elapsed, w, Protocol.JoinBeat(broken))];
    }

    /** cancellationRequested, and what comes next. */
    method LookForCancel(w: Worker, readable: bool, ghost elapsed: nat)
      requires Since(elapsed) && Enabled(View(), w, Protocol.LookForCancel(readable))
      modifies this
      ensures View() == ActWorker(old(View()), w, Protocol.LookForCancel(readable))
      ensures history == old(history) + [Work(elapsed, w, Protocol.LookForCancel(readable))]
      ensures Valid()
    {
      hide Sound, Exec, Moment, ClaimFits;
      Goes(history, elapsed, w, Protocol.LookForCancel(readable));
      var me := workers[w];
      var requested := database.JobCancellationRequested(me.claim);
      var next :=
        if me.beat.SawCancel? || (readable && requested.Ok? && requested.value) then me.(phase := Cancelling)
        else if me.beat.Broke? || me.body != Ended(false) then me.(phase := Failing)
        else Idle;
      workers := workers[w := next];
      history := history + [Work(elapsed, w, Protocol.LookForCancel(readable))];
    }

    method CancelMine(w: Worker, ghost elapsed: nat)
      requires Since(elapsed) && Enabled(View(), w, Protocol.CancelMine)
      modifies this, database
      ensures View() == ActWorker(old(View()), w, Protocol.CancelMine)
      ensures history == old(history) + [Work(elapsed, w, Protocol.CancelMine)]
      ensures Valid()
    {
      hide Sound, Exec, Moment, ClaimFits, CancelClaimed;
      Goes(history, elapsed, w, Protocol.CancelMine);
      var c := workers[w].claim;
      var r := database.CancelClaimedJob(c);
      if r.Ok? { log := log + [Stopped(c.job, Cancelled)]; }
      workers := workers[w := Idle];
      history := history + [Work(elapsed, w, Protocol.CancelMine)];
    }

    /** RetryConnectorJob; the worker goes on to record the failure when there is nothing to retry. */
    method RetryMine(w: Worker, delay: Time, ghost elapsed: nat) returns (retried: bool)
      requires Since(elapsed) && Enabled(View(), w, Protocol.RetryMine(delay))
      modifies this, database
      ensures View() == ActWorker(old(View()), w, Protocol.RetryMine(delay))
      ensures history == old(history) + [Work(elapsed, w, Protocol.RetryMine(delay))]
      ensures retried <==> MayRetry(old(database.Rows()), old(Me(w)).claim)
      ensures Valid()
    {
      hide Sound, Exec, Moment, ClaimFits;
      Goes(history, elapsed, w, Protocol.RetryMine(delay));
      var c := workers[w].claim;
      retried := database.RetryConnectorJob(c, delay);
      if retried {
        log := log + [Requeued(c.job)];
        workers := workers[w := Idle];
      }
      history := history + [Work(elapsed, w, Protocol.RetryMine(delay))];
    }

    method FailMine(w: Worker, ghost elapsed: nat)
      requires Since(elapsed) && Enabled(View(), w, Protocol.FailMine)
      modifies this, database
      ensures View() == ActWorker(old(View()), w, Protocol.FailMine)
      ensures history == old(history) + [Work(elapsed, w, Protocol.FailMine)]
      ensures Valid()
    {
      hide Sound, Exec, Moment, ClaimFits, Fail;
      Goes(history, elapsed, w, Protocol.FailMine);
      var c := workers[w].claim;
      var r := database.FailJob(c);
      if r.Ok? { log := log + [Stopped(c.job, Failed)]; }
      workers := workers[w := Idle];
      history := history + [Work(elapsed, w, Protocol.FailMine)];
    }

    /** The process ends, or goes on without having heard of its last statement. */
    method Crash(w: Worker, ghost elapsed: nat)
      requires Since(elapsed)
      modifies this
      ensures View() == ActWorker(old(View()), w, Protocol.Crash)
      ensures history == old(history) + [Work(elapsed, w, Protocol.Crash)]
      ensures Valid()
    {
      hide Sound, Exec, Moment, ClaimFits;
      Goes(history, elapsed, w, Protocol.Crash);
      workers := workers[w := Idle];
      history := history + [Work(elapsed, w, Protocol.Crash)];
    }

    // ---------- users, and everybody else

    method Do(tenant: Id, action: UserAction, ghost elapsed: nat)
      requires Since(elapsed)
      modifies this, database
      ensures View() == old(View()).(db := ActUser(old(database.Rows()), tenant, action), log := old(log) + Said(old(database.Rows()), tenant, action))
      ensures history == old(history) + [User(elapsed, tenant, action)]
      ensures Valid()
    {
      hide Sound, Exec, Moment, Transitions.CreateDatasetUpload, Queue, Transitions.CreateConnector,
           Transitions.UpdateConnector, Transitions.DeleteConnector, Transitions.CreateConnectorJob,
           Transitions.CancelJob, Transitions.CreateDeployment, Rollback, Transitions.SaveQueryRevision,
           Transitions.DeleteQuery, Transitions.DeleteDataset, Transitions.DeleteApp, Said;
      GoesOn(history, elapsed, tenant, action);
      log := log + Said(database.Rows(), tenant, action);
      match action {
        case CreateUpload(slug, format, bytes, key) => var _ := database.CreateDatasetUpload(tenant, slug, format, bytes, key);
        case FinishUpload(run) => database.CompleteDatasetUpload(tenant, run);
        case NewConnector(slug, dataset, enabled, refreshMinutes) => var _ := database.CreateConnector(tenant, slug, dataset, enabled, refreshMinutes);
        case EditConnector(slug, enabled, refreshMinutes) => var _ := database.UpdateConnector(tenant, slug, enabled, refreshMinutes);
        case DropConnector(slug) => var _ := database.DeleteConnector(tenant, slug);
        case SyncNow(connector, request) => var _ := database.CreateConnectorJob(tenant, connector, Manual(request));
        case Cancel(job) => var _ := database.CancelJob(tenant, job);
        case CreateRelease(manifest, checksum, bytes, key) => var _ := database.CreateDeployment(tenant, manifest, checksum, bytes, key);
        case FinishRelease(deployment) => database.CompleteDeploymentUpload(tenant, deployment);
        case RollBack(deployment) => var _ := database.RollbackDeployment(tenant, deployment);
        case SaveQuery(slug, sql, types) => var _ := database.SaveQueryRevision(tenant, slug, sql, types);
        case DropQuery(slug) => var _ := database.DeleteQuery(tenant, slug);
        case DropDataset(slug, dropped) => var _ := database.DeleteDataset(tenant, slug, dropped);
        case DropApp(slug) => var _ := database.DeleteApp(tenant, slug);
      }
      history := history + [User(elapsed, tenant, action)];
    }

    /** Any step of any worker that its place in the loop allows. */
    method Act(w: Worker, a: WorkerAction, ghost elapsed: nat)
      requires Since(elapsed) && Enabled(View(), w, a)
      modifies this, database
      ensures View() == ActWorker(old(View()), w, a)
      ensures history == old(history) + [Work(elapsed, w, a)]
      ensures Valid()
    {
      hide Sound, Moment, ActWorker, Claimable, FromManifest;
      match a {
        case Enqueue(connector) => EnqueueConnector(w, connector, elapsed);
        case ClaimJob(kind, id, lease) => TakeJob(w, kind, id, lease, elapsed);
        case CheckBeat(broken) => CheckBeat(w, broken, elapsed);
        case RenewBeat(lease, broken) => RenewBeat(w, lease, broken, elapsed);
        case SetBytes(bytes) => SetBytes(w, bytes, elapsed);
        case PublishSnapshot(result, replyLost) => PublishSnapshot(w, result, replyLost, elapsed);
        case PublishRelease(queries, replyLost) => PublishRelease(w, queries, replyLost, elapsed);
        case GiveUp => GiveUp(w, elapsed);
        case JoinBeat(broken) => JoinBeat(w, broken, elapsed);
        case LookForCancel(readable) => LookForCancel(w, readable, elapsed);
        case CancelMine => CancelMine(w, elapsed);
        case RetryMine(delay) => var _ := RetryMine(w, delay, elapsed);
        case FailMine => FailMine(w, elapsed);
        case Crash => Crash(w, elapsed);
      }
    }

    /** One step of the protocol, after the time it waits. */
    method Perform(step: Step)
      requires Valid()
      modifies this, database
      ensures View() == Apply(old(View()), step) && history == old(history) + [step]
      ensures Valid()
    {
      hide Sound, Exec, Moment, Safe, ActWorker, ActUser, Enabled, ClaimsFit, Said;
      MomentFacts(history, 0);
      Waits(history, step.elapsed);
      database.Tick(step.elapsed);
      match step {
        case User(elapsed, tenant, action) => Do(tenant, action, elapsed);
        case Work(elapsed, w, work) =>
          EnabledUnlogged(View(), w, work);
          if Enabled(System(database.Rows(), workers, []), w, work) {
            Act(w, work, elapsed);
          } else {
            NotTaken(history, step);
            history := history + [step];
          }
      }
    }

    /** What the other users and workers, and the heartbeat, do between two statements of the loop. */
    method Meanwhile(w: Worker, moves: seq<Step>)
      requires Valid() && forall i :: 0 <= i < |moves| ==> Foreign(w, moves[i])
      modifies this, database
      ensures View() == Exec(old(View()), moves) && history == old(history) + moves
      ensures Keeps(old(View()), View(), w) && SameButBeat(old(Me(w)), Me(w)) && Own(history, w) == Own(old(history), w)
      ensures Valid()
    {
      hide Safe, Sound, Exec, Moment, Apply, Keeps, Foreign, Own;
      ghost var s := View();
      KeepsAll(s, w);
      for i := 0 to |moves|
        invariant Valid() && Exec(s, moves) == Exec(View(), moves[i..]) && history == old(history) + moves[..i]
        invariant Keeps(s, View(), w) && SameButBeat(old(Me(w)), Me(w)) && Own(history, w) == Own(old(history), w)
      {
        ghost var before, steps := View(), history;
        MomentFacts(steps, 0);
        Perform(moves[i]);
        ForeignStep(before, moves[i], w);
        KeepsThrough(s, before, View(), w);
        ForeignIsNotOwn(steps, moves[i], w);
        ExecFirst(before, moves[i..]);
        assert moves[i..][1..] == moves[i + 1..];
      }
      ExecNone(View());
    }

    /** A step of the worker's own. */
    method Go(w: Worker, a: WorkerAction)
      requires Valid() && Ready(Me(w), a) && !Beats(a) && (a.PublishRelease? ==> FitsTarget(database.Rows(), Me(w), a.queries))
      modifies this, database
      ensures View() == ActWorker(old(View()), w, a)
      ensures history == old(history) + [Work(0, w, a)]
      ensures Moves(log, old(Me(w)), Me(w), a) && Own(history, w) == Own(old(history), w) + [a]
      ensures Keeps(old(View()), View(), w) && (!a.Crash? ==> LetsGo(old(View()), View(), w))
      ensures Valid()
    {
      hide Safe, Sound, Exec, Moment, Keeps, Own, ActWorker, Enabled, Moves, Ready, FitsTarget, LetsGo;
      Took(View(), history, w, a);
      Act(w, a, 0);
    }

    /** The job's last statement failed, or its reply was lost: the worker goes on without it. */
    method Lose(w: Worker) returns (ghost own: seq<WorkerAction>)
      requires Valid()
      modifies this, database
      ensures own == [Protocol.Crash] && Me(w).Idle? && Own(history, w) == Own(old(history), w) + own
      ensures Valid()
    {
      hide Exec, Moment, Own, Keeps, LetsGo;
      own := [Protocol.Crash];
      Go(w, Protocol.Crash);
    }

    /** Records the failure of the job. */
    method RecordFailure(w: Worker, outside: Outside) returns (ghost own: seq<WorkerAction>)
      requires Valid() && Me(w).Busy? && Me(w).phase.Failing?
      modifies this, database
      ensures Me(w).Idle? && Own(history, w) == Own(old(history), w) + own
      ensures |own| == 1 && (own[0].FailMine? || own[0].Crash?)
      ensures outside.Answered() ==> LetsGo(old(View()), View(), w)
      ensures Valid()
    {
      hide Exec, Moment, Own, Keeps, LetsGo;
      if outside.failLost {
        own := Lose(w);
      } else {
        own := [Protocol.FailMine];
        Go(w, Protocol.FailMine);
      }
    }

    /** Tries a sync again, or records its failure. */
    method RetryOrFail(w: Worker, outside: Outside, others: Gap -> seq<Step>) returns (ghost own: seq<WorkerAction>)
      requires Valid() && AllForeign(w, others) && Me(w).Busy? && Me(w).phase.Failing?
      modifies this, database
      ensures Me(w).Idle? && Own(history, w) == Own(old(history), w) + own
      ensures FailureInOrder(old(Me(w)).claim.kind, own)
      ensures outside.Answered() ==> LetsGo(old(View()), View(), w)
      ensures Valid()
    {
      hide Exec, Moment, Own, Keeps, LetsGo, Foreign;
      own := [];
      if workers[w].claim.kind.ConnectorSync? && outside.retryable {
        if outside.retryLost {
          own := Lose(w);
          return;
        }
        var delay := RetryDelay(outside.asked, workers[w].claim.attempt);
        own := [Protocol.RetryMine(delay)];
        ghost var s := View();
        Go(w, Protocol.RetryMine(delay));
        if Me(w).Idle? { return; }
        ghost var s1 := View();
        Meanwhile(w, others(BeforeFail));
        KeepsThrough(s, s1, View(), w);
        ghost var s2 := View();
        ghost var end := RecordFailure(w, outside);
        own := own + end;
        if outside.Answered() { LetsGoLater(s, s2, View(), w); }
      } else {
        own := RecordFailure(w, outside);
      }
    }

    /** What the look for a cancellation decided. */
    method Settle(w: Worker, outside: Outside, others: Gap -> seq<Step>) returns (ghost own: seq<WorkerAction>)
      requires Valid() && AllForeign(w, others) && Me(w).Busy? && (Me(w).phase.Cancelling? || Me(w).phase.Failing?)
      modifies this, database
      ensures Me(w).Idle? && Own(history, w) == Own(old(history), w) + own
      ensures own == [Protocol.CancelMine] || FailureInOrder(old(Me(w)).claim.kind, own)
      ensures outside.Answered() ==> LetsGo(old(View()), View(), w)
      ensures Valid()
    {
      hide Exec, Moment, Own, Keeps, LetsGo, Foreign;
      ghost var s := View();
      Meanwhile(w, others(BeforeEnd));
      ghost var s1 := View();
      if workers[w].phase.Failing? {
        own := RetryOrFail(w, outside, others);
      } else if outside.cancelLost {
        own := Lose(w);
      } else {
        own := [Protocol.CancelMine];
        Go(w, Protocol.CancelMine);
      }
      if outside.Answered() { LetsGoLater(s, s1, View(), w); }
    }

    /** The end of a job: the heartbeat joined, cancellation looked for, and the job cancelled, tried again or failed. */
    method Finish(w: Worker, outside: Outside, others: Gap -> seq<Step>) returns (ghost own: seq<WorkerAction>)
      requires Valid() && AllForeign(w, others) && Me(w).Busy? && Me(w).phase.Working? && Me(w).body.Ended?
      modifies this, database
      ensures Me(w).Idle? && Own(history, w) == Own(old(history), w) + own
      ensures EndInOrder(old(Me(w)).claim.kind, own)
      ensures outside.Answered() ==> LetsGo(old(View()), View(), w)
      ensures Valid()
    {
      hide Exec, Moment, Own, Keeps, LetsGo, Foreign, FailureInOrder;
      ghost var s := View();
      var join, look := Protocol.JoinBeat(outside.beatBroken), Protocol.LookForCancel(outside.readable);
      Go(w, join);
      ghost var s1 := View();
      Meanwhile(w, others(BeforeLook));
      KeepsThrough(s, s1, View(), w);
      ghost var s2 := View();
      Go(w, look);
      own := [join, look];
      if Me(w).Idle? {
        LetsGoLater(s, s2, View(), w);
      } else {
        KeepsThrough(s, s2, View(), w);
        ghost var s3 := View();
        ghost var end := Settle(w, outside, others);
        assert (own + end)[2..] == end;
        own := own + end;
        if outside.Answered() { LetsGoLater(s, s3, View(), w); }
      }
    }

    /** The end of the body, with or without a publication, and of the job. */
    method EndBody(w: Worker, a: WorkerAction, outside: Outside, others: Gap -> seq<Step>) returns (ghost end: seq<WorkerAction>)
      requires Valid() && AllForeign(w, others) && Me(w).Busy? && Me(w).body.AtWork?
      requires (a.GiveUp? || a.PublishSnapshot? || a.PublishRelease?) && Ready(Me(w), a)
      requires a.PublishRelease? ==> FitsTarget(database.Rows(), Me(w), a.queries)
      modifies this, database
      ensures Me(w).Idle? && Own(history, w) == Own(old(history), w) + [a] + end
      ensures EndInOrder(old(Me(w)).claim.kind, end)
      ensures outside.Answered() ==> LetsGo(old(View()), View(), w)
      ensures Valid()
    {
      hide Exec, Moment, Own, Keeps, LetsGo, Foreign, InLog, FitsTarget, EndInOrder;
      ghost var s := View();
      Go(w, a);
      ghost var s1 := View();
      Meanwhile(w, others(BeforeJoin));
      KeepsThrough(s, s1, View(), w);
      ghost var s2 := View();
      end := Finish(w, outside, others);
      if outside.Answered() { EndsLater(s, s1, s2, View(), w); }
    }

    /** runImport. */
    method RunImport(w: Worker, outside: Outside, others: Gap -> seq<Step>) returns (ghost body: seq<WorkerAction>, ghost end: seq<WorkerAction>)
      requires Valid() && AllForeign(w, others) && AtWorkOn(Me(w), DatasetImport)
      modifies this, database
      ensures Me(w).Idle? && Own(history, w) == Own(old(history), w) + body + end
      ensures BodyInOrder(DatasetImport, body) && EndInOrder(DatasetImport, end)
      ensures outside.Answered() ==> LetsGo(old(View()), View(), w)
      ensures Valid()
    {
      hide Exec, Moment, Own, Keeps, LetsGo, Foreign, EndInOrder;
      ghost var s := View();
      Meanwhile(w, others(BeforeDetails));
      var details := database.GetImportDetails(workers[w].claim);
      ghost var s1 := View();
      Meanwhile(w, others(BeforeEffect));
      KeepsThrough(s, s1, View(), w);
      var ready := details.Ok? && details.value.bytes <= outside.uploadLimit && outside.snapshot.Some?;
      var a := if ready then Protocol.PublishSnapshot(outside.snapshot.value, outside.replyLost) else Protocol.GiveUp;
      ghost var s2 := View();
      body := [a];
      end := EndBody(w, a, outside, others);
      if outside.Answered() { LetsGoLater(s, s2, View(), w); }
    }

    /** runConnector. */
    method RunConnector(w: Worker, outside: Outside, others: Gap -> seq<Step>) returns (ghost body: seq<WorkerAction>, ghost end: seq<WorkerAction>)
      requires Valid() && AllForeign(w, others) && AtWorkOn(Me(w), ConnectorSync)
      modifies this, database
      ensures Me(w).Idle? && Own(history, w) == Own(old(history), w) + body + end
      ensures BodyInOrder(ConnectorSync, body) && EndInOrder(ConnectorSync, end)
      ensures outside.Answered() ==> LetsGo(old(View()), View(), w)
      ensures Valid()
    {
      hide Exec, Moment, Own, Keeps, LetsGo, Foreign, EndInOrder;
      ghost var s := View();
      Meanwhile(w, others(BeforeDetails));
      var details := database.GetConnectorDetails(workers[w].claim);
      ghost var s1 := View();
      Meanwhile(w, others(BeforeBytes));
      KeepsThrough(s, s1, View(), w);
      ghost var s2 := View();
      if details.Err? || outside.fetched.None? {
        body := [Protocol.GiveUp];
        end := EndBody(w, Protocol.GiveUp, outside, others);
      } else {
        body, end := StoreFetched(w, outside.fetched.value, outside, others);
      }
      if outside.Answered() { LetsGoLater(s, s2, View(), w); }
    }

    /** The rest of runConnector, with the records at hand. */
    method StoreFetched(w: Worker, bytes: int, outside: Outside, others: Gap -> seq<Step>) returns (ghost body: seq<WorkerAction>, ghost end: seq<WorkerAction>)
      requires Valid() && AllForeign(w, others) && AtWorkOn(Me(w), ConnectorSync)
      modifies this, database
      ensures Me(w).Idle? && Own(history, w) == Own(old(history), w) + body + end
      ensures BodyInOrder(ConnectorSync, body) && EndInOrder(ConnectorSync, end)
      ensures outside.Answered() ==> LetsGo(old(View()), View(), w)
      ensures Valid()
    {
      hide Exec, Moment, Own, Keeps, LetsGo, Foreign, EndInOrder;
      ghost var s := View();
      Go(w, Protocol.SetBytes(bytes));
      body := [Protocol.SetBytes(bytes)];
      ghost var s1 := View();
      Meanwhile(w, others(BeforeEffect));
      KeepsThrough(s, s1, View(), w);
      ghost var s2 := View();
      if workers[w].body.AtWork? {
        var a := if outside.snapshot.Some? then Protocol.PublishSnapshot(outside.snapshot.value, outside.replyLost) else Protocol.GiveUp;
        body := body + [a];
        end := EndBody(w, a, outside, others);
        if outside.Answered() { LetsGoLater(s, s2, View(), w); }
      } else {
        end := Finish(w, outside, others);
        if outside.Answered() { FailsLater(s, s2, View(), w); }
      }
    }

    /** runPublish. */
    method RunPublish(w: Worker, outside: Outside, others: Gap -> seq<Step>) returns (ghost body: seq<WorkerAction>, ghost end: seq<WorkerAction>)
      requires Valid() && AllForeign(w, others) && AtWorkOn(Me(w), AppPublish)
      modifies this, database
      ensures Me(w).Idle? && Own(history, w) == Own(old(history), w) + body + end
      ensures BodyInOrder(AppPublish, body) && EndInOrder(AppPublish, end)
      ensures outside.Answered() ==> LetsGo(old(View()), View(), w)
      ensures Valid()
    {
      hide Exec, Moment, Own, Keeps, LetsGo, Foreign, EndInOrder, FromManifest, ManifestIs, FitsTarget;
      ghost var s := View();
      Meanwhile(w, others(BeforeDetails));
      ghost var s1 := View();
      var published := Prepare(w, outside);
      Meanwhile(w, others(BeforeEffect));
      KeepsThrough(s, s1, View(), w);
      if published.Some? { StillDeclared(s1, View(), w, published.value); }
      ghost var s2 := View();
      var a := if published.Some? then Protocol.PublishRelease(published.value, outside.replyLost) else Protocol.GiveUp;
      body := [a];
      end := EndBody(w, a, outside, others);
      if outside.Answered() { LetsGoLater(s, s2, View(), w); }
    }

    /** Reads the deployment, and checks the downloaded bundle against its manifest. */
    method Prepare(w: Worker, outside: Outside) returns (published: Option<seq<PublishedQuery>>)
      requires Valid() && AtWorkOn(Me(w), AppPublish)
      ensures published.Some? ==> DeclaredFor(View(), w, published.value)
    {
      hide Exec, Moment, FromManifest, ManifestIs;
      var details := database.GetPublishDetails(workers[w].claim);
      if details.Err? { return None; }
      ManifestRead(history, w);
      published := Publishing.CheckBundle(details.value.manifest, outside.intact, outside.archive, outside.decode);
    }

    /** EnqueueDueConnector: whichever due connector the database picks. */
    method Enqueue(w: Worker) returns (ghost own: seq<WorkerAction>)
      requires Valid() && Me(w).Idle?
      modifies this, database
      ensures Me(w).Idle? && Own(history, w) == Own(old(history), w) + own && Keeps(old(View()), View(), w)
      ensures own == [] || (|own| == 1 && own[0].Enqueue?)
      ensures own == [] ==> View() == old(View()) && forall c :: !Due(database.Rows(), c)
      ensures Valid()
    {
      hide Sound, Exec, Moment, Keeps, Own, LetsGo, ClaimFits, Transitions.EnqueueDueConnector;
      ghost var s, h := View(), history;
      own := [];
      KeepsAll(s, w);
      MomentFacts(h, 0);
      var c, r := database.EnqueueDueConnector();
      if c.Some? {
        own := [Protocol.Enqueue(c.value)];
        Goes(h, 0, w, Protocol.Enqueue(c.value));
        Took(s, h, w, Protocol.Enqueue(c.value));
        if r.Enqueued? { log := log + [Fired(c.value, s.db.connectors[c.value].nextSyncAt, s.db.now)]; }
        history := history + [Work(0, w, Protocol.Enqueue(c.value))];
      }
    }

    /** ClaimImportJob, ClaimConnectorJob or ClaimPublishJob: whichever job the database picks. */
    method Claim(w: Worker, kind: Kind, lease: Time) returns (claimed: bool, ghost own: seq<WorkerAction>)
      requires Valid() && Me(w).Idle?
      modifies this, database
      ensures Own(history, w) == Own(old(history), w) + own
      ensures !claimed ==> View() == old(View()) && own == [] && forall id :: !Claimable(database.jobs, database.now, kind, id)
      ensures claimed ==>
                && AtWorkOn(Me(w), kind) && |own| == 1 && own[0].ClaimJob? && own[0].kind == kind
                && (old(LeasedOnly(database.jobs, w, None)) ==> LeasedOnly(database.jobs, w, Some(Me(w).claim.job)))
      ensures Valid()
    {
      hide Sound, Exec, Moment, Own, LeasedOnly, OtherLive, ClaimFits, Take;
      ghost var s, h := View(), history;
      own := [];
      MomentFacts(h, 0);
      var r := database.ClaimJob(kind, w, lease);
      if r.Err? { return false, own; }
      own := [ClaimJob(kind, r.value.job, lease)];
      Goes(h, 0, w, ClaimJob(kind, r.value.job, lease));
      TookJob(s, h, w, kind, r.value.job, lease);
      workers := workers[w := Busy(r.value, Working, AtWork, Waiting)];
      history := history + [Work(0, w, ClaimJob(kind, r.value.job, lease))];
      return true, own;
    }

    /** The body of the job just claimed, by its kind. */
    method RunJob(w: Worker, kind: Kind, outside: Outside, others: Gap -> seq<Step>) returns (ghost body: seq<WorkerAction>, ghost end: seq<WorkerAction>)
      requires Valid() && AllForeign(w, others) && AtWorkOn(Me(w), kind)
      modifies this, database
      ensures Me(w).Idle? && Own(history, w) == Own(old(history), w) + body + end
      ensures BodyInOrder(kind, body) && EndInOrder(kind, end)
      ensures outside.Answered() && old(LeasedOnly(database.jobs, w, Some(Me(w).claim.job))) ==> LeasedOnly(database.jobs, w, None)
      ensures Valid()
    {
      hide Exec, Moment, Own, Foreign, BodyInOrder, EndInOrder, InLog, LeasedOnly;
      match kind
      case DatasetImport => body, end := RunImport(w, outside, others);
      case ConnectorSync => body, end := RunConnector(w, outside, others);
      case AppPublish => body, end := RunPublish(w, outside, others);
    }

    /** A claim of the given kind and, if there was a job, all of that job. */
    method ClaimAndRun(w: Worker, kind: Kind, outside: Outside, others: Gap -> seq<Step>) returns (worked: bool, ghost job: seq<WorkerAction>)
      requires Valid() && AllForeign(w, others) && Me(w).Idle?
      modifies this, database
      ensures Me(w).Idle? && Own(history, w) == Own(old(history), w) + job
      ensures if worked then JobInOrder(job) && job[0].kind == kind
              else job == [] && (outside.claimFails(kind) || forall id :: !Claimable(old(database.jobs), old(database.now), kind, id))
      ensures outside.Answered() && old(LeasedOnly(database.jobs, w, None)) ==> LeasedOnly(database.jobs, w, None)
      ensures Valid()
    {
      hide Exec, Moment, Own, Foreign, BodyInOrder, EndInOrder, LeasedOnly, OtherLive;
      worked, job := false, [];
      if !outside.claimFails(kind) { worked, job := Claim(w, kind, outside.lease); }
      if worked {
        ghost var body, end := RunJob(w, kind, outside, others);
        InOrder(job[0], body, end);
        assert job == [job[0]];
        job := job + body + end;
      }
    }

    /** The same, after the others have gone on. */
    method NextClaim(w: Worker, gap: Gap, kind: Kind, outside: Outside, others: Gap -> seq<Step>) returns (worked: bool, ghost job: seq<WorkerAction>)
      requires Valid() && AllForeign(w, others) && Me(w).Idle?
      modifies this, database
      ensures Me(w).Idle? && Own(history, w) == Own(old(history), w) + job
      ensures if worked then JobInOrder(job) else job == []
      ensures outside.Answered() && old(LeasedOnly(database.jobs, w, None)) ==> LeasedOnly(database.jobs, w, None)
      ensures Valid()
    {
      hide Exec, Moment, Own, Foreign, JobInOrder, InLog, ManifestIs, LeasedOnly, OtherLive;
      Meanwhile(w, others(gap));
      worked, job := ClaimAndRun(w, kind, outside, others);
    }

    /**
     One pass of Run's loop. Whatever the others do meanwhile, the worker's own steps come in the source's order, each
     one allowed by the protocol; a worker that held no job holds none when the pass ends, if its answers were heard.
    */
    method RunOnce(w: Worker, outside: Outside, others: Gap -> seq<Step>) returns (worked: bool, ghost top: seq<WorkerAction>, ghost job: seq<WorkerAction>)
      requires Valid() && AllForeign(w, others) && Me(w).Idle?
      modifies this, database
      ensures Me(w).Idle? && Own(history, w) == Own(old(history), w) + top + job
      ensures top == [] || (|top| == 1 && top[0].Enqueue?)
      ensures if worked then JobInOrder(job) else job == []
      ensures outside.Answered() && old(LeasedOnly(database.jobs, w, None)) ==> LeasedOnly(database.jobs, w, None)
      ensures Valid()
    {
      hide Exec, Moment, Own, Foreign, JobInOrder, InLog, ManifestIs, LeasedOnly;
      Meanwhile(w, others(BeforeEnqueue));
      top := [];
      if !outside.enqueueFails { top := Enqueue(w); }
      worked, job := NextClaim(w, BeforeImport, DatasetImport, outside, others);
      if worked { return; }
      worked, job := NextClaim(w, BeforeConnector, ConnectorSync, outside, others);
      if worked { return; }
      worked, job := NextClaim(w, BeforePublish, AppPublish, outside, others);
    }

    /** Run: pass after pass, a worker whose answers are heard holds no job between two of them. */
    method Run(w: Worker, passes: seq<Outside>, others: nat -> Gap -> seq<Step>)
      requires Valid() && Me(w).Idle? && forall i :: AllForeign(w, others(i))
      modifies this, database
      ensures Me(w).Idle?
      ensures (forall i :: 0 <= i < |passes| ==> passes[i].Answered()) && old(LeasedOnly(database.jobs, w, None)) ==> LeasedOnly(database.jobs, w, None)
      ensures Valid()
    {
      hide Exec, Moment, Own, AllForeign, JobInOrder, LeasedOnly;
      for i := 0 to |passes|
        invariant Valid() && Me(w).Idle?
        invariant (forall k :: 0 <= k < i ==> passes[k].Answered()) && old(LeasedOnly(database.jobs, w, None)) ==> LeasedOnly(database.jobs, w, None)
      {
        var worked, top, job := RunOnce(w, passes[i], others(i));
      }
    }
  }

  lemma {:induction false} NothingIsDue(t: Tables, c: Id)
    requires !Due(t, c)
    ensures Transitions.EnqueueDueConnector(t, c) == (t, NothingDue)
  {
  }

  lemma {:induction false} SnapshotAct(s: System, w: Worker, result: ImportResult, replyLost: bool)
    requires Enabled(s, w, PublishSnapshot(result, replyLost))
    ensures w in s.workers && s.workers[w].Busy?
    ensures var me := s.workers[w];
            var done := me.Busy? && ImportCompletes(s.db, me.claim);
            ActWorker(s, w, PublishSnapshot(result, replyLost)) ==
            System(CompleteImport(s.db, me.claim, result), s.workers[w := me.(body := Ended(!done || replyLost))],
                   if done then s.log + [Published(me.claim.job, SnapshotOf(s.db, me.claim, result))] else s.log)
  {
    hide CompleteImport;
  }

  lemma {:induction false} ReleaseAct(s: System, w: Worker, queries: seq<PublishedQuery>, replyLost: bool)
    requires Enabled(s, w, PublishRelease(queries, replyLost)) && ClaimFits(s.db, At(s, w).claim)
    ensures w in s.workers && s.workers[w].Busy?
    ensures PublishCompletes(s.db, s.workers[w].claim) ==> DistinctNames(queries)
    ensures CompletePublish(s.db, s.workers[w].claim, queries).1.Ok? ==> PublishCompletes(s.db, s.workers[w].claim)
    ensures var me := s.workers[w];
            var r := CompletePublish(s.db, me.claim, queries);
            ActWorker(s, w, PublishRelease(queries, replyLost)) ==
            System(r.0, s.workers[w := me.(body := Ended(r.1.Err? || replyLost))],
                   if r.1.Ok? then s.log + [Published(me.claim.job, ReleaseOf(s.db, me.claim))] else s.log)
  {
    hide GrantAll, FromManifest;
    var c := s.workers[w].claim;
    if PublishCompletes(s.db, c) { ManifestNamesDistinct(s.db.deployments[c.target].manifest, queries); }
  }
}
