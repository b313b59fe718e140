/**
 When a scheduled key is already taken: in every run, exactly after an edit in the same instant as an enqueue at its
 own due time, until the connector is deleted or its enqueue finds the queue full.
*/
module Clashes {
  import opened Wrappers
  import opened Manifests
  import opened Schema
  import opened Transitions
  import opened Consistency
  import opened RowsStaySound
  import opened Protocol
  import opened SoundRuns
  import opened Evolution
  import opened Safety
  import opened Guarantees
  import opened Schedule

  // ---------- clashes

  /** The edit brings the connector's next sync forward to the present. */
  ghost predicate BringsForward(t: Tables, tenant: Id, a: UserAction, id: Id)
  {
    && a.EditConnector? && a.enabled && 1 <= a.refreshMinutes <= 10080
    && FindConnector(t.connectors, tenant, a.slug) == Some(id) && id in t.connectors && t.now < t.connectors[id].nextSyncAt
  }

  /** An edit that reads the same instant as an earlier enqueue of the connector at its own due time. */
  ghost predicate ClashingEdit(s: System, step: Step, id: Id)
  {
    var t := Later(s.db, step.elapsed);
    step.User? && BringsForward(t, step.tenant, step.action, id) && Fired(id, t.now, t.now) in s.log
  }

  /** The connector is deleted, or its enqueue finds the queue full. */
  ghost predicate Frees(s: System, step: Step, id: Id)
  {
    var s1 := s.(db := Later(s.db, step.elapsed));
    || id !in Apply(s, step).db.connectors
    || (step.Work? && step.work == Enqueue(id) && Enabled(s1, step.worker, step.work)
        && Due(s1.db, id) && QueueFull(s1.db, s1.db.connectors[id].tenant))
  }

  /** Only such an edit moves the next sync of a connector that was there. */
  lemma {:induction false} UserMovesExactly(t: Tables, tenant: Id, a: UserAction, id: Id)
    requires Sound(t) && id in t.connectors
    ensures var t' := ActUser(t, tenant, a);
            && (id in t'.connectors ==>
                  t'.connectors[id].nextSyncAt == if BringsForward(t, tenant, a, id) then t.now else t.connectors[id].nextSyncAt)
            && (BringsForward(t, tenant, a, id) ==> id in t'.connectors)
  {
    hide Sound, CreateConnector, UpdateConnector, DeleteConnector, DeleteDataset, FindConnector, ActUser;
    if TouchesConnectors(a) { ConnectorEdits(t, tenant, a, id); } else { UserLeavesConnectors(t, tenant, a); }
  }

  lemma {:induction false} ConnectorEdits(t: Tables, tenant: Id, a: UserAction, id: Id)
    requires Sound(t) && id in t.connectors && TouchesConnectors(a)
    ensures var t' := ActUser(t, tenant, a);
            && (id in t'.connectors ==>
                  t'.connectors[id].nextSyncAt == if BringsForward(t, tenant, a, id) then t.now else t.connectors[id].nextSyncAt)
            && (BringsForward(t, tenant, a, id) ==> id in t'.connectors)
  {
    hide Sound, CreateConnector, UpdateConnector, DeleteConnector, DeleteDataset, FindConnector;
    match a
    case NewConnector(slug, dataset, enabled, refreshMinutes) =>
      Unused(t, t.nextId + 1);
      CreateAddsConnector(t, tenant, slug, dataset, enabled, refreshMinutes, id);
    case EditConnector(slug, enabled, refreshMinutes) => UpdateExactly(t, tenant, slug, enabled, refreshMinutes, id);
    case DropConnector(slug) => DropsOrKeeps(t, tenant, slug, false, id);
    case DropDataset(slug, dropped) => DropsOrKeeps(t, tenant, slug, dropped, id);
  }

  lemma {:induction false} CreateAddsConnector(t: Tables, tenant: Id, slug: string, dataset: string, enabled: bool, refreshMinutes: int, id: Id)
    requires id in t.connectors && t.nextId + 1 !in t.connectors
    ensures var t' := CreateConnector(t, tenant, slug, dataset, enabled, refreshMinutes).0;
            id in t'.connectors && t'.connectors[id] == t.connectors[id]
  {
    hide FindDataset;
  }

  lemma {:induction false} UpdateExactly(t: Tables, tenant: Id, slug: string, enabled: bool, refreshMinutes: int, id: Id)
    requires id in t.connectors
    ensures var t' := UpdateConnector(t, tenant, slug, enabled, refreshMinutes).0;
            id in t'.connectors
            && t'.connectors[id].nextSyncAt ==
               if BringsForward(t, tenant, EditConnector(slug, enabled, refreshMinutes), id) then t.now else t.connectors[id].nextSyncAt
  {
    hide FindConnector;
    FoundConnector(t.connectors, tenant, slug);
  }

  lemma {:induction false} DropsOrKeeps(t: Tables, tenant: Id, slug: string, dropped: bool, id: Id)
    requires id in t.connectors
    ensures var t' := DeleteConnector(t, tenant, slug).0; id in t'.connectors ==> t'.connectors[id] == t.connectors[id]
    ensures var t' := DeleteDataset(t, tenant, slug, dropped).0; id in t'.connectors ==> t'.connectors[id] == t.connectors[id]
  {
    hide FindDataset, FindConnector, DatasetBusy, ForgetConnectors;
  }

  /** What was fired for a key in the present was fired in the present. */
  lemma {:induction false} FiredNow(s: System, id: Id)
    requires OnSchedule(s)
    ensures HasFired(s.log, id, s.db.now) <==> Fired(id, s.db.now, s.db.now) in s.log
    ensures forall at :: HasFired(s.log, id, at) ==> at <= s.db.now && id < s.db.nextId
  {
    hide FiredInOrder, KeysFired, FiredKept;
    if HasFired(s.log, id, s.db.now) {
      var i :| 0 <= i < |s.log| && s.log[i].Fired? && s.log[i].connector == id && s.log[i].at == s.db.now;
      assert s.log[i] == Fired(id, s.db.now, s.db.now);
    }
  }

  lemma {:induction false} UserClashes(s: System, elapsed: nat, tenant: Id, a: UserAction, id: Id)
    requires Safe(s) && OnSchedule(s)
    ensures var step := User(elapsed, tenant, a);
            Clashed(Apply(s, step), id) <==> ClashingEdit(s, step, id) || (Clashed(s, id) && !Frees(s, step, id))
  {
    hide Safe, Sound, ClaimsFit, Fenced, OnSchedule, ActUser, HasFired, BringsForward, Evolves, Said;
    var s1 := s.(db := Later(s.db, elapsed));
    LaterStaysSafe(s, elapsed);
    LaterStaysOnSchedule(s, elapsed);
    SafeParts(s1);
    FiredNow(s1, id);
    ForwardFacts(s1.db, tenant, a, id);
    SaidFiresNothing(s1, tenant, a, id);
    if id in s.db.connectors {
      UserMovesExactly(s1.db, tenant, a, id);
    } else {
      SameTimes(s1.db.connectors, s1.db.nextId, s1.db.now);
      if TouchesConnectors(a) { UserMovesTimes(s1.db, tenant, a); } else { UserLeavesConnectors(s1.db, tenant, a); }
    }
  }

  lemma {:induction false} SaidFiresNothing(s: System, tenant: Id, a: UserAction, id: Id)
    ensures forall at :: HasFired(s.log + Said(s.db, tenant, a), id, at) <==> HasFired(s.log, id, at)
  {
    hide Said, HasFired;
    SaidIsShort(s.db, tenant, a);
    var said := Said(s.db, tenant, a);
    if said == [] {
      assert s.log + said == s.log;
    } else {
      assert said == [said[0]];
      forall at: Time { FiredAppend(s.log, said[0], id, at); }
    }
  }

  lemma {:induction false} ForwardFacts(t: Tables, tenant: Id, a: UserAction, id: Id)
    ensures BringsForward(t, tenant, a, id) ==> id in t.connectors && t.now < t.connectors[id].nextSyncAt
  {
  }

  lemma {:induction false} WorkClashes(s: System, elapsed: nat, w: Worker, a: WorkerAction, id: Id)
    requires Safe(s) && OnSchedule(s)
    ensures var step := Work(elapsed, w, a);
            Clashed(Apply(s, step), id) <==> Clashed(s, id) && !Frees(s, step, id)
  {
    hide Safe, OnSchedule, HasFired, ActWorker, Enabled, QueueFull;
    var s1 := s.(db := Later(s.db, elapsed));
    LaterStaysSafe(s, elapsed);
    LaterStaysOnSchedule(s, elapsed);
    if Enabled(s1, w, a) {
      if a.Enqueue? { EnqueueClashes(s1, w, a.connector, id); } else { OthersClash(s1, w, a, id); }
    }
  }

  lemma {:induction false} OthersClash(s: System, w: Worker, a: WorkerAction, id: Id)
    requires Enabled(s, w, a) && !a.Enqueue?
    ensures var s' := ActWorker(s, w, a); s'.db.connectors == s.db.connectors && (Clashed(s', id) <==> Clashed(s, id))
  {
    hide HasFired, EnqueueDueConnector, Take, Heartbeat, SetConnectorRunBytes, CompletePublish, CompleteImport,
         CancelClaimed, Retry, Fail, FromManifest, Enabled;
    var s' := ActWorker(s, w, a);
    WorkLeavesSchedule(s, w, a);
    if s'.log != s.log && id in s.db.connectors {
      var e := s'.log[|s.log|];
      assert s'.log == s.log + [e];
      FiredAppend(s.log, e, id, s.db.connectors[id].nextSyncAt);
    }
  }

  lemma {:induction false} EnqueueClashes(s: System, w: Worker, c: Id, id: Id)
    requires Safe(s) && OnSchedule(s) && Enabled(s, w, Enqueue(c))
    ensures var s' := ActWorker(s, w, Enqueue(c));
            && (id in s.db.connectors <==> id in s'.db.connectors)
            && (Clashed(s', id) <==>
                  Clashed(s, id) && !(c == id && Due(s.db, id) && QueueFull(s.db, s.db.connectors[id].tenant)))
  {
    hide Safe, Sound, ClaimsFit, Fenced, OnSchedule, HasFired, EnqueueDueConnector, QueueFull;
    var s' := ActWorker(s, w, Enqueue(c));
    EnqueueCases(s, c);
    EnqueueRows(s.db, c);
    FiredNow(s, id);
    SafeParts(s);
    if Due(s.db, c) {
      ConnectorDataset(s.db, c);
      if id in s.db.connectors && s'.log != s.log {
        FiredAppend(s.log, Fired(c, s.db.connectors[c].nextSyncAt, s.db.now), id, s'.db.connectors[id].nextSyncAt);
      }
    }
  }

  /** One step: a clash begins with a clashing edit, and stays until the connector is deleted or its queue found full. */
  lemma {:induction false} StepClashes(s: System, step: Step, id: Id)
    requires Safe(s) && OnSchedule(s)
    ensures Clashed(Apply(s, step), id) <==> ClashingEdit(s, step, id) || (Clashed(s, id) && !Frees(s, step, id))
  {
    hide Safe, OnSchedule, Apply, Clashed, Frees;
    match step
    case User(elapsed, tenant, a) => UserClashes(s, elapsed, tenant, a, id);
    case Work(elapsed, w, a) => WorkClashes(s, elapsed, w, a, id);
  }

  /** Step k is a clashing edit, and no later step frees the connector. */
  ghost predicate StuckSince(steps: seq<Step>, k: nat, id: Id)
  {
    && k < |steps| && ClashingEdit(Exec(INITIAL, steps[..k]), steps[k], id)
    && forall j :: k < j < |steps| ==> !Frees(Exec(INITIAL, steps[..j]), steps[j], id)
  }

  lemma {:induction false} LastStep(steps: seq<Step>)
    requires steps != []
    ensures var n := |steps| - 1; Exec(INITIAL, steps) == Apply(Exec(INITIAL, steps[..n]), steps[n])
  {
    hide Exec, Apply;
    var n := |steps| - 1;
    assert steps == steps[..n] + [steps[n]];
    ExecAppend(INITIAL, steps[..n], steps[n]);
  }

  lemma {:induction false} StuckLonger(steps: seq<Step>, n: nat, k: nat, id: Id)
    requires n + 1 == |steps| && k < n
    ensures StuckSince(steps, k, id) <==> StuckSince(steps[..n], k, id) && !Frees(Exec(INITIAL, steps[..n]), steps[n], id)
  {
    hide Exec, ClashingEdit, Frees;
    var before := steps[..n];
    assert before[..k] == steps[..k] && before[k] == steps[k];
    forall j | k < j < n ensures before[..j] == steps[..j] && before[j] == steps[j] {}
    if StuckSince(before, k, id) && !Frees(Exec(INITIAL, steps[..n]), steps[n], id) {
      forall j | k < j < |steps| ensures !Frees(Exec(INITIAL, steps[..j]), steps[j], id) {
        if j < n { assert before[..j] == steps[..j] && before[j] == steps[j]; }
      }
    }
    if StuckSince(steps, k, id) {
      forall j | k < j < |before| ensures !Frees(Exec(INITIAL, before[..j]), before[j], id) {
        assert before[..j] == steps[..j] && before[j] == steps[j];
      }
    }
  }

  /** In every run a connector is stuck exactly after a clashing edit that nothing has freed it from. */
  lemma {:induction false} ClashedIff(steps: seq<Step>, id: Id)
    ensures Clashed(Exec(INITIAL, steps), id) <==> exists k :: StuckSince(steps, k, id)
    decreases |steps|
  {
    hide Safe, OnSchedule, Exec, Apply, Clashed, ClashingEdit, Frees, StuckSince;
    if steps == [] {
      NothingClashes(id);
    } else {
      var n := |steps| - 1;
      var before := steps[..n];
      ClashedIff(before, id);
      ReachableIsOnSchedule(before);
      StepClashes(Exec(INITIAL, before), steps[n], id);
      LastStep(steps);
      LastStuck(steps, n, id);
      forall k: nat ensures k < n ==> (StuckSince(steps, k, id) <==> StuckSince(before, k, id) && !Frees(Exec(INITIAL, before), steps[n], id)) {
        if k < n { StuckLonger(steps, n, k, id); }
      }
      forall k: nat | StuckSince(steps, k, id) ensures k <= n { StuckInside(steps, k, id); }
      forall k: nat | StuckSince(before, k, id) ensures k < n { StuckInside(before, k, id); }
    }
  }

  lemma {:induction false} StuckInside(steps: seq<Step>, k: nat, id: Id)
    requires StuckSince(steps, k, id)
    ensures k < |steps|
  {
  }

  lemma {:induction false} LastStuck(steps: seq<Step>, n: nat, id: Id)
    requires n + 1 == |steps|
    ensures StuckSince(steps, n, id) <==> ClashingEdit(Exec(INITIAL, steps[..n]), steps[n], id)
  {
    hide Exec, ClashingEdit, Frees;
  }

  lemma {:induction false} NothingClashes(id: Id)
    ensures !Clashed(Exec(INITIAL, []), id)
    ensures !exists k :: StuckSince([], k, id)
  {
  }

  // ---------- what an enqueue does in a run

  /**
   In every state the next enqueue of a connector does nothing, postpones, aborts or enqueues exactly as due time, queue
   and clash say; it aborts when a clashing edit happened and nothing has freed the connector since.
  */
  lemma {:induction false} EnqueueOutcomes(steps: seq<Step>, elapsed: nat, id: Id)
    ensures var t := Later(Exec(INITIAL, steps).db, elapsed);
            var outcome := EnqueueDueConnector(t, id).1;
            var stuck := exists k :: StuckSince(steps, k, id);
            && (outcome.NothingDue? <==> !Due(t, id))
            && (outcome.Postponed? <==> Due(t, id) && QueueFull(t, t.connectors[id].tenant))
            && (outcome.Aborted? <==> Due(t, id) && !QueueFull(t, t.connectors[id].tenant) && stuck)
            && (outcome.Enqueued? <==> Due(t, id) && !QueueFull(t, t.connectors[id].tenant) && !stuck)
  {
    hide Safe, OnSchedule, Exec, StuckSince, QueueFull, HasFired, EnqueueDueConnector;
    ReachableIsOnSchedule(steps);
    var s := Exec(INITIAL, steps);
    LaterStaysOnSchedule(s, elapsed);
    ClashedIff(steps, id);
    EnqueueCases(s.(db := Later(s.db, elapsed)), id);
  }

  /** A stuck connector stays stuck, over time, further edits and enqueues, as long as no step frees it. */
  lemma {:induction false} ClashIsPermanent(before: seq<Step>, after: seq<Step>, id: Id)
    requires Clashed(Exec(INITIAL, before), id)
    requires forall j :: 0 <= j < |after| ==> !Frees(Exec(INITIAL, before + after[..j]), after[j], id)
    ensures Clashed(Exec(INITIAL, before + after), id)
    decreases |after|
  {
    hide Safe, OnSchedule, Exec, Apply, Clashed, ClashingEdit, Frees;
    if after == [] {
      assert before + after == before;
    } else {
      var n := |after| - 1;
      var init, steps := after[..n], before + after;
      forall j | 0 <= j < n ensures !Frees(Exec(INITIAL, before + init[..j]), init[j], id) { assert init[..j] == after[..j]; }
      ClashIsPermanent(before, init, id);
      assert steps[..|steps| - 1] == before + init && after[..n] == init;
      ReachableIsOnSchedule(before + init);
      StepClashes(Exec(INITIAL, before + init), after[n], id);
      LastStep(steps);
    }
  }

  // ---------- a clock that moves

  /** Some time passes before every transaction. */
  predicate Ticking(steps: seq<Step>)
  {
    forall i :: 0 <= i < |steps| ==> steps[i].elapsed >= 1
  }

  /** When the clock moves between transactions no key ever clashes: only a full queue postpones a due connector. */
  lemma {:induction false} OnlyAFullQueuePostpones(steps: seq<Step>, elapsed: nat, id: Id)
    requires Ticking(steps)
    ensures var t := Later(Exec(INITIAL, steps).db, elapsed); var outcome := EnqueueDueConnector(t, id).1;
            && !outcome.Aborted?
            && (Due(t, id) ==> if QueueFull(t, t.connectors[id].tenant) then outcome.Postponed? else outcome.Enqueued?)
  {
    hide Safe, OnSchedule, Exec, QueueFull, EnqueueDueConnector, Frees, BringsForward;
    EnqueueOutcomes(steps, elapsed, id);
    forall k: nat | StuckSince(steps, k, id) ensures false {
      ReachableIsOnSchedule(steps[..k]);
      FiredEarlier(Exec(INITIAL, steps[..k]), steps[k].elapsed, id);
    }
  }

  lemma {:induction false} FiredEarlier(s: System, elapsed: nat, id: Id)
    requires OnSchedule(s) && elapsed >= 1
    ensures var now := Later(s.db, elapsed).now; Fired(id, now, now) !in s.log
  {
    hide FiredInOrder, KeysFired, FiredKept;
  }

  // ---------- a clash

  /** A new connector is enqueued at once and edited in the same microsecond. */
  const SAME_INSTANT: seq<Step> := [
    User(0, 7, NewConnector("c", "d", true, 1)), Work(0, "w", Enqueue(1)), User(0, 7, EditConnector("c", true, 1))]

  const FEED: Connector := Connector(7, 0, "c", true, 1, 0)

  function Before(): Tables
  {
    Tables(map[], map[], map[0 := Dataset(7, "d", None)], map[], map[], map[], map[], {}, map[1 := FEED], 2, 0)
  }

  function After(next: Time): Tables
  {
    Tables(map[3 := Job(7, ConnectorSync, Scheduled(1, 0), 2, Queued, 0, None, 0, false)],
           map[2 := SyncRun(7, 0, Some(1), Queued, Json, 0, None)],
           map[0 := Dataset(7, "d", None)], map[], map[], map[], map[], {}, map[1 := FEED.(nextSyncAt := next)], 4, 0)
  }

  lemma {:induction false} Created()
    ensures CreateConnector(EMPTY, 7, "c", "d", true, 1).0 == Before()
  {
  }

  lemma {:induction false} RoomFor(jobs: map<Id, Job>)
    requires jobs == map[] || jobs == After(0).jobs
    ensures |ActiveJobs(jobs, 7)| <= 1
  {
    if jobs == map[] { assert ActiveJobs(jobs, 7) == {}; } else { assert ActiveJobs(jobs, 7) == {3}; }
  }

  lemma {:induction false} Enqueues()
    ensures EnqueueDueConnector(Before(), 1) == (After(MINUTE), Enqueued.Enqueued(3))
  {
    hide ActiveJobs;
    RoomFor(map[]);
    EnqueueRows(Before(), 1);
    var r, t := EnqueueDueConnector(Before(), 1), After(MINUTE);
    assert r.1.Enqueued?;
    assert r.0.jobs == t.jobs && r.0.runs == t.runs && r.0.connectors == t.connectors;
  }

  lemma {:induction false} Edited()
    ensures UpdateConnector(After(MINUTE), 7, "c", true, 1).0 == After(0)
  {
    assert NamedConnector(After(MINUTE).connectors, 1, 7, "c");
  }

  lemma {:induction false} TakenKey(t: Tables)
    requires t == After(0)
    ensures FindJob(t.jobs, 7, ConnectorSync, Scheduled(1, 0)).Some?
  {
    assert KeyedJob(t.jobs, 3, 7, ConnectorSync, Scheduled(1, 0));
  }

  /** The connector is then due, the queue has room, and its enqueue aborts. */
  lemma {:induction false} SameInstantClashes()
    ensures var t := Exec(INITIAL, SAME_INSTANT).db;
            Due(t, 1) && !QueueFull(t, 7) && EnqueueDueConnector(t, 1) == (t, Aborted)
  {
    hide CreateConnector, UpdateConnector, EnqueueDueConnector, Before, After, ActiveJobs;
    Created();
    Enqueues();
    Edited();
    SameInstantRuns();
    SameInstantAborts();
  }

  lemma {:induction false} SameInstantRuns()
    requires CreateConnector(EMPTY, 7, "c", "d", true, 1).0 == Before()
    requires EnqueueDueConnector(Before(), 1) == (After(MINUTE), Enqueued.Enqueued(3))
    requires UpdateConnector(After(MINUTE), 7, "c", true, 1).0 == After(0)
    ensures Exec(INITIAL, SAME_INSTANT).db == After(0)
  {
    hide CreateConnector, UpdateConnector, EnqueueDueConnector, Exec;
    var s1 := Apply(INITIAL, SAME_INSTANT[0]);
    var s2 := Apply(s1, SAME_INSTANT[1]);
    var s3 := Apply(s2, SAME_INSTANT[2]);
    ExecFirst(INITIAL, SAME_INSTANT);
    ExecFirst(s1, SAME_INSTANT[1..]);
    ExecFirst(s2, SAME_INSTANT[2..]);
    assert SAME_INSTANT[1..][1..] == SAME_INSTANT[2..] && SAME_INSTANT[2..][1..] == [];
    ExecNone(s3);
  }

  lemma {:induction false} SameInstantAborts()
    ensures var t := After(0); Due(t, 1) && !QueueFull(t, 7) && EnqueueDueConnector(t, 1) == (t, Aborted)
  {
    hide ActiveJobs, FindJob;
    RoomFor(After(0).jobs);
    TakenKey(After(0));
  }
}
