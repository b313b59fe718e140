/**
 The leased job protocol as a state machine: the tables, each worker's place in its run loop, and a log of
 what was published, stopped, rolled back to, requeued and scheduled. One step is one transaction or one local
 move of a worker.
*/
module Protocol {
  import opened Wrappers
  import opened Manifests
  import opened Schema
  import opened Transitions

  // ---------- state

  /** The body of runImport, runConnector or runPublish up to cancel(): still at work, or ended with or without an error. */
  datatype Body = AtWork | Ended(failed: bool)

  /** The heartbeat goroutine: waiting for its ticker, between its two statements, or returned. */
  datatype Beat = Waiting | Checked | SawCancel | Broke

  /** After the heartbeat is joined: about to look for a cancellation, to cancel, or to record a failure. */
  datatype Phase = Working | Joined | Cancelling | Failing

  datatype WorkerState = Idle | Busy(claim: Claim, phase: Phase, body: Body, beat: Beat)

  datatype Outcome =
    | Snapshot(run: Id, dataset: Id, publication: Publication)
    | Release(deployment: Id, app: Id)

  datatype Event =
    | Published(job: Id, outcome: Outcome)
    | Requeued(requeued: Id)
    | Fired(connector: Id, at: Time, clock: Time)
    | Restored(app: Id, current: Id)
    | Stopped(stopped: Id, how: Status)

  datatype System = System(db: Tables, workers: map<Worker, WorkerState>, log: seq<Event>)

  const INITIAL := System(EMPTY, map[], [])

  function At(s: System, w: Worker): WorkerState
  {
    if w in s.workers then s.workers[w] else Idle
  }

  // ---------- steps

  datatype UserAction =
    | CreateUpload(slug: string, format: Format, bytes: int, key: Key)
    | FinishUpload(run: Id)
    | NewConnector(slug: string, dataset: string, enabled: bool, refreshMinutes: int)
    | EditConnector(slug: string, enabled: bool, refreshMinutes: int)
    | DropConnector(slug: string)
    | SyncNow(connector: Id, request: string)
    | Cancel(job: Id)
    | CreateRelease(manifest: Manifest, checksum: Checksum, bytes: int, key: Key)
    | FinishRelease(deployment: Id)
    | RollBack(deployment: Id)
    | SaveQuery(slug: string, sql: string, types: ParameterTypes)
    | DropQuery(slug: string)
    | DropDataset(slug: string, dropped: bool)
    | DropApp(slug: string)

  datatype WorkerAction =
    | Enqueue(connector: Id)
    | ClaimJob(kind: Kind, id: Id, lease: Time)
    | CheckBeat(broken: bool)
    | RenewBeat(lease: Time, broken: bool)
    | SetBytes(bytes: int)
    | PublishSnapshot(result: ImportResult, replyLost: bool)
    | PublishRelease(queries: seq<PublishedQuery>, replyLost: bool)
    | GiveUp
    | JoinBeat(broken: bool)
    | LookForCancel(readable: bool)
    | CancelMine
    | RetryMine(delay: Time)
    | FailMine
    | Crash

  datatype Step = User(elapsed: nat, tenant: Id, action: UserAction) | Work(elapsed: nat, worker: Worker, work: WorkerAction)

  function Later(t: Tables, elapsed: nat): Tables
  {
    t.(now := t.now + elapsed)
  }

  ghost function ActUser(t: Tables, tenant: Id, a: UserAction): Tables
  {
    match a
    case CreateUpload(slug, format, bytes, key) => CreateDatasetUpload(t, tenant, slug, format, bytes, key).0
    case FinishUpload(run) => CompleteDatasetUpload(t, tenant, run)
    case NewConnector(slug, dataset, enabled, refreshMinutes) => CreateConnector(t, tenant, slug, dataset, enabled, refreshMinutes).0
    case EditConnector(slug, enabled, refreshMinutes) => UpdateConnector(t, tenant, slug, enabled, refreshMinutes).0
    case DropConnector(slug) => DeleteConnector(t, tenant, slug).0
    case SyncNow(connector, request) => CreateConnectorJob(t, tenant, connector, Manual(request)).0
    case Cancel(job) => CancelJob(t, tenant, job).0
    case CreateRelease(manifest, checksum, bytes, key) => CreateDeployment(t, tenant, manifest, checksum, bytes, key).0
    case FinishRelease(deployment) => CompleteDeploymentUpload(t, tenant, deployment)
    case RollBack(deployment) => Rollback(t, tenant, deployment).0
    case SaveQuery(slug, sql, types) => SaveQueryRevision(t, tenant, slug, sql, types).0
    case DropQuery(slug) => DeleteQuery(t, tenant, slug).0
    case DropDataset(slug, dropped) => DeleteDataset(t, tenant, slug, dropped).0
    case DropApp(slug) => DeleteApp(t, tenant, slug).0
  }

  /** A rollback that answers Ok, and the cancellation of a job that waits. */
  function Said(t: Tables, tenant: Id, a: UserAction): seq<Event>
  {
    match a
    case RollBack(deployment) =>
      if Rollback(t, tenant, deployment).1.Ok? then [Restored(t.deployments[deployment].app, deployment)] else []
    case Cancel(job) =>
      if job in t.jobs && t.jobs[job].tenant == tenant && (t.jobs[job].status.AwaitingUpload? || t.jobs[job].status.Queued?)
      then [Stopped(job, Cancelled)] else []
    case _ => []
  }

  /** Nothing, or one rollback or cancellation. */
  lemma {:induction false} SaidIsShort(t: Tables, tenant: Id, a: UserAction)
    ensures var said := Said(t, tenant, a); said == [] || (|said| == 1 && (said[0].Restored? || said[0].Stopped?))
  {
  }

  /** The published list is the manifest's: same names in the same order, same parameter types, no name twice. */
  predicate FromManifest(m: Manifest, queries: seq<PublishedQuery>)
  {
    && |queries| == |m.queries|
    && (forall i :: 0 <= i < |queries| ==> queries[i].name == m.queries[i].name && queries[i].types == m.queries[i].parameters)
    && (forall i, j :: 0 <= i < j < |m.queries| ==> m.queries[i].name != m.queries[j].name)
  }

  /** Whether the program counter of the worker allows the action. */
  predicate Enabled(s: System, w: Worker, a: WorkerAction)
  {
    var me := At(s, w);
    match a
    case Enqueue(_) => me.Idle?
    case ClaimJob(kind, id, _) => me.Idle? && Claimable(s.db.jobs, s.db.now, kind, id)
    case CheckBeat(_) => me.Busy? && me.phase.Working? && me.beat.Waiting?
    case RenewBeat(_, _) => me.Busy? && me.phase.Working? && me.beat.Checked?
    case SetBytes(_) => me.Busy? && me.phase.Working? && me.body.AtWork? && me.claim.kind.ConnectorSync?
    case PublishSnapshot(_, _) => me.Busy? && me.phase.Working? && me.body.AtWork? && ForRun(me.claim.kind)
    case PublishRelease(queries, _) =>
      && me.Busy? && me.phase.Working? && me.body.AtWork? && me.claim.kind.AppPublish?
      && (me.claim.target in s.db.deployments ==> FromManifest(s.db.deployments[me.claim.target].manifest, queries))
    case GiveUp => me.Busy? && me.phase.Working? && me.body.AtWork?
    case JoinBeat(_) => me.Busy? && me.phase.Working? && me.body.Ended?
    case LookForCancel(_) => me.Busy? && me.phase.Joined?
    case CancelMine => me.Busy? && me.phase.Cancelling?
    case RetryMine(_) => me.Busy? && me.phase.Failing? && me.claim.kind.ConnectorSync?
    case FailMine => me.Busy? && me.phase.Failing?
    case Crash => true
  }

  function Put(s: System, w: Worker, state: WorkerState): System
  {
    s.(workers := s.workers[w := state])
  }

  predicate CancelRequested(t: Tables, c: Claim)
  {
    Holds(t.jobs, c) && t.jobs[c.job].cancelRequested
  }

  /** What the next step of the epilogue is, once cancellation has been looked for. */
  function AfterLook(t: Tables, me: WorkerState, readable: bool): WorkerState
    requires me.Busy?
  {
    if me.beat.SawCancel? || (readable && CancelRequested(t, me.claim)) then me.(phase := Cancelling)
    else if me.beat.Broke? || me.body != Ended(false) then me.(phase := Failing)
    else Idle
  }

  ghost function ActWorker(s: System, w: Worker, a: WorkerAction): System
    requires Enabled(s, w, a)
  {
    var t := s.db;
    var me := At(s, w);
    match a
    case Enqueue(connector) =>
      var r := EnqueueDueConnector(t, connector);
      s.(db := r.0, log := if r.1.Enqueued? then s.log + [Fired(connector, t.connectors[connector].nextSyncAt, t.now)] else s.log)
    case ClaimJob(kind, id, lease) =>
      Put(s.(db := Take(t, id, w, lease)), w, Busy(ClaimOf(t, id, w), Working, AtWork, Waiting))
    case CheckBeat(broken) =>
      Put(s, w, me.(beat := if broken || !Holds(t.jobs, me.claim) then Broke
                            else if t.jobs[me.claim.job].cancelRequested then SawCancel else Checked))
    case RenewBeat(lease, broken) =>
      if broken then Put(s, w, me.(beat := Broke))
      else Put(s.(db := Heartbeat(t, me.claim, lease)), w, me.(beat := if Holds(t.jobs, me.claim) then Waiting else Broke))
    case SetBytes(bytes) =>
      var r := SetConnectorRunBytes(t, me.claim, bytes);
      Put(s.(db := r.0), w, me.(body := if r.1.Ok? then AtWork else Ended(true)))
    case PublishSnapshot(result, replyLost) =>
      var done := ImportCompletes(t, me.claim);
      Put(s.(db := CompleteImport(t, me.claim, result),
             log := if done then s.log + [Published(me.claim.job, SnapshotOf(t, me.claim, result))] else s.log),
          w, me.(body := Ended(!done || replyLost)))
    case PublishRelease(queries, replyLost) =>
      var r := CompletePublish(t, me.claim, queries);
      Put(s.(db := r.0,
             log := if r.1.Ok? then s.log + [Published(me.claim.job, ReleaseOf(t, me.claim))] else s.log),
          w, me.(body := Ended(r.1.Err? || replyLost)))
    case GiveUp => Put(s, w, me.(body := Ended(true)))
    case JoinBeat(broken) =>
      Put(s, w, me.(phase := Joined, beat := if me.beat.SawCancel? || !broken then me.beat else Broke))
    case LookForCancel(readable) => Put(s, w, AfterLook(t, me, readable))
    case CancelMine => Put(s.(db := CancelClaimed(t, me.claim), log := s.log + Stops(t, me.claim, Cancelled)), w, Idle)
    case RetryMine(delay) =>
      if MayRetry(t, me.claim)
      then Put(s.(db := Retry(t, me.claim, delay), log := s.log + [Requeued(me.claim.job)]), w, Idle)
      else s
    case FailMine => Put(s.(db := Fail(t, me.claim), log := s.log + Stops(t, me.claim, Failed)), w, Idle)
    case Crash => Put(s, w, Idle)
  }

  /** The end of a held job without a publication. */
  function Stops(t: Tables, c: Claim, how: Status): seq<Event>
  {
    if Holds(t.jobs, c) then [Stopped(c.job, how)] else []
  }

  function SnapshotOf(t: Tables, c: Claim, result: ImportResult): Outcome
    requires ImportCompletes(t, c)
  {
    var run := t.jobs[c.job].target;
    Snapshot(run, t.runs[run].dataset, Publication(result, t.runs[run].bytes))
  }

  function ReleaseOf(t: Tables, c: Claim): Outcome
    requires PublishCompletes(t, c)
  {
    var deployment := t.jobs[c.job].target;
    Release(deployment, t.deployments[deployment].app)
  }

  /** A step that its worker cannot take now changes nothing but the clock. */
  ghost function Apply(s: System, step: Step): System
  {
    var s1 := s.(db := Later(s.db, step.elapsed));
    match step
    case User(_, tenant, action) => s1.(db := ActUser(s1.db, tenant, action), log := s1.log + Said(s1.db, tenant, action))
    case Work(_, w, work) => if Enabled(s1, w, work) then ActWorker(s1, w, work) else s1
  }

  ghost function Exec(s: System, steps: seq<Step>): System
    decreases |steps|
  {
    if steps == [] then s else Exec(Apply(s, steps[0]), steps[1..])
  }

  lemma {:induction false} ExecConcat(s: System, a: seq<Step>, b: seq<Step>)
    ensures Exec(s, a + b) == Exec(Exec(s, a), b)
    decreases |a|
  {
    if a == [] {
      assert a + b == b;
    } else {
      assert (a + b)[1..] == a[1..] + b;
      ExecConcat(Apply(s, a[0]), a[1..], b);
    }
  }

  lemma {:induction false} ExecNone(s: System)
    ensures Exec(s, []) == s
  {
  }

  lemma {:induction false} ExecFirst(s: System, steps: seq<Step>)
    requires steps != []
    ensures Exec(s, steps) == Exec(Apply(s, steps[0]), steps[1..])
  {
    hide Apply;
  }

  lemma {:induction false} ExecAppend(s: System, steps: seq<Step>, step: Step)
    ensures Exec(s, steps + [step]) == Apply(Exec(s, steps), step)
  {
    hide Apply;
    ExecConcat(s, steps, [step]);
    assert [step][1..] == [];
  }
}
