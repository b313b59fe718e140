/**
 RetryConnectorJob as the two statements it is, outside a transaction. Taken together they are the protocol's retry;
 with a claim and a completion in between, the second one overwrites a newer status of the run.
*/
module Retrying {
  import opened Wrappers
  import opened Manifests
  import opened Schema
  import opened Transitions
  import opened Consistency
  import opened JobsStaySound
  import opened Protocol
  import opened SoundRuns

  /** UPDATE jobs: back to the queue, if the job is held and in its first two attempts. */
  function RequeueJob(t: Tables, c: Claim, delay: Time): Tables
  {
    if MayRetry(t, c)
    then t.(jobs := t.jobs[c.job := t.jobs[c.job].(status := Queued, lease := None, availableAt := t.now + delay)]) else t
  }

  /** UPDATE sync_runs: the run too, whatever its status is by then. */
  function RequeueRun(t: Tables, c: Claim): Tables
  {
    if c.target in t.runs && t.runs[c.target].tenant == c.tenant
    then t.(runs := t.runs[c.target := t.runs[c.target].(status := Queued)]) else t
  }

  /** With nothing in between, the two statements are one retry. */
  lemma {:induction false} TogetherTheyRetry(t: Tables, c: Claim, delay: Time)
    requires Sound(t) && ClaimFits(t, c) && ForRun(c.kind) && MayRetry(t, c)
    ensures RequeueRun(RequeueJob(t, c, delay), c) == Retry(t, c, delay)
  {
    hide Sound;
    RowFacts(t, c.job);
  }

  /** The mirror of job and run holds after the second statement exactly when the job is queued then. */
  lemma {:induction false} MirrorAfterIff(t: Tables, c: Claim)
    requires OneJobEach(t.jobs) && ClaimFits(t, c) && ForRun(c.kind) && c.job in t.jobs && RowOk(t.jobs[c.job])
    requires c.target in t.runs && t.runs[c.target].tenant == c.tenant
    requires forall id :: id in t.jobs && id != c.job ==> JobRow(t.jobs[id], t.runs, t.deployments)
    ensures var t' := RequeueRun(t, c);
            JobRows(t'.jobs, t'.runs, t'.deployments) <==> t.jobs[c.job].status.Queued?
  {
    var t' := RequeueRun(t, c);
    forall id | id in t.jobs && id != c.job ensures JobRow(t'.jobs[id], t'.runs, t'.deployments) {
      assert !SameTarget(t.jobs[id], t.jobs[c.job]);
    }
    if JobRows(t'.jobs, t'.runs, t'.deployments) { assert JobRow(t'.jobs[c.job], t'.runs, t'.deployments); }
  }

  // ---------- a completion in between

  /** A sync is claimed and fails, up to the retry. */
  const FAILED_SYNC: seq<Step> := [
    User(0, 7, NewConnector("c", "d", false, 1)), User(0, 7, SyncNow(1, "r")), Work(0, "w", ClaimJob(ConnectorSync, 3, MINUTE)),
    Work(0, "w", GiveUp), Work(0, "w", JoinBeat(false)), Work(0, "w", LookForCancel(true))]

  const RESULT := ImportResult(1, 1, "")

  /** Another worker claims the job and completes it. */
  const OVERTAKEN: seq<Step> := [
    Work(SECOND, "v", ClaimJob(ConnectorSync, 3, MINUTE)), Work(0, "v", PublishSnapshot(RESULT, false))]

  const MINE := Claim(3, 7, 2, ConnectorSync, "w", 1)

  const WAITING := Job(7, ConnectorSync, Manual("r"), 2, Queued, 0, None, 0, false)

  function Connected(): Tables
  {
    Tables(map[], map[], map[0 := Dataset(7, "d", None)], map[], map[], map[], map[], {},
           map[1 := Connector(7, 0, "c", false, 1, 0)], 2, 0)
  }

  function Syncing(job: Job, result: Option<ImportResult>): Tables
  {
    Tables(map[3 := job], map[2 := SyncRun(7, 0, Some(1), job.status, Json, 0, result)],
           map[0 := Dataset(7, "d", if result.Some? then Some(Publication(result.value, 0)) else None)],
           map[], map[], map[], map[], {}, map[1 := Connector(7, 0, "c", false, 1, 0)], 4, 0)
  }

  lemma {:induction false} Connects()
    ensures CreateConnector(EMPTY, 7, "c", "d", false, 1).0 == Connected()
  {
  }

  lemma {:induction false} NobodyWaits()
    ensures !QueueFull(Connected(), 7)
  {
    assert ActiveJobs(map[], 7) == {};
  }

  lemma {:induction false} Syncs()
    ensures CreateConnectorJob(Connected(), 7, 1, Manual("r")).0 == Syncing(WAITING, None)
  {
    hide QueueFull;
    NobodyWaits();
    var t, s := CreateConnectorJob(Connected(), 7, 1, Manual("r")).0, Syncing(WAITING, None);
    assert t.jobs == s.jobs && t.runs == s.runs;
  }

  function Held(w: Worker, until: Time, attempts: nat, available: Time): Job
  {
    WAITING.(status := Running, lease := Some(Lease(w, until)), attempts := attempts, availableAt := available)
  }

  lemma {:induction false} ClaimsIt(t: Tables, now: Time, job: Job, w: Worker)
    requires t == Syncing(job, None).(now := now) && job == WAITING.(attempts := job.attempts, availableAt := job.availableAt) && job.availableAt <= now
    ensures Claimable(t.jobs, t.now, ConnectorSync, 3)
    ensures ClaimOf(t, 3, w) == Claim(3, 7, 2, ConnectorSync, w, job.attempts + 1)
    ensures Take(t, 3, w, MINUTE) == Syncing(Held(w, now + MINUTE, job.attempts + 1, job.availableAt), None).(now := now)
  {
  }

  lemma {:induction false} CompletesIt(t: Tables, now: Time, c: Claim)
    requires t == Syncing(Held("v", now + MINUTE, 2, SECOND), None).(now := now) && c == Claim(3, 7, 2, ConnectorSync, "v", 2)
    ensures ImportCompletes(t, c)
    ensures CompleteImport(t, c, RESULT) ==
            Syncing(Held("v", now + MINUTE, 2, SECOND).(status := Succeeded, lease := None), Some(RESULT)).(now := now)
  {
  }

  function Quiet(t: Tables): System { System(t, map[], []) }

  lemma {:induction false} SyncRuns()
    ensures Exec(INITIAL, FAILED_SYNC) == Exec(Quiet(Syncing(WAITING, None)), FAILED_SYNC[2..])
  {
    hide CreateConnector, CreateConnectorJob, Exec, Connected, Syncing;
    Connects();
    Syncs();
    ExecFirst(INITIAL, FAILED_SYNC);
    assert Apply(INITIAL, FAILED_SYNC[0]) == Quiet(Connected());
    ExecFirst(Quiet(Connected()), FAILED_SYNC[1..]);
    assert FAILED_SYNC[1..][1..] == FAILED_SYNC[2..];
  }

  function Failing(t: Tables, me: WorkerState): System { System(t, map["w" := me], []) }

  lemma {:induction false} FirstClaims()
    ensures Apply(Quiet(Syncing(WAITING, None)), FAILED_SYNC[2]) == Failing(Syncing(Held("w", MINUTE, 1, 0), None), Busy(MINE, Working, AtWork, Waiting))
  {
    hide Syncing, Held, Take, Claimable, Holds, EnqueueDueConnector, SetConnectorRunBytes, CompletePublish,
         CompleteImport, CancelClaimed, Retry, Fail, FromManifest;
    Unclocked();
    ClaimsIt(Syncing(WAITING, None), 0, WAITING, "w");
  }

  /** The worker claims, gives up, joins its heartbeat and is about to try again. */
  lemma {:induction false} FailsUpToRetry()
    ensures Exec(INITIAL, FAILED_SYNC) == Failing(Syncing(Held("w", MINUTE, 1, 0), None), Busy(MINE, Phase.Failing, Ended(true), Waiting))
  {
    hide Exec, Syncing, Held, Take, Claimable, Holds, EnqueueDueConnector, SetConnectorRunBytes, CompletePublish,
         CompleteImport, CancelClaimed, Retry, Fail, FromManifest;
    var held := Syncing(Held("w", MINUTE, 1, 0), None);
    Unclocked();
    SyncRuns();
    FirstClaims();
    NotAsked();
    var s3 := Failing(held, Busy(MINE, Working, AtWork, Waiting));
    var s4 := Failing(held, Busy(MINE, Working, Ended(true), Waiting));
    var s5 := Failing(held, Busy(MINE, Joined, Ended(true), Waiting));
    assert Apply(s3, FAILED_SYNC[3]) == s4;
    assert Apply(s4, FAILED_SYNC[4]) == s5;
    assert Apply(s5, FAILED_SYNC[5]) == Failing(held, Busy(MINE, Phase.Failing, Ended(true), Waiting));
    FourSteps(Quiet(Syncing(WAITING, None)), s3, s4, s5);
  }

  lemma {:induction false} FourSteps(s: System, s3: System, s4: System, s5: System)
    requires Apply(s, FAILED_SYNC[2]) == s3 && Apply(s3, FAILED_SYNC[3]) == s4 && Apply(s4, FAILED_SYNC[4]) == s5
    ensures Exec(s, FAILED_SYNC[2..]) == Apply(s5, FAILED_SYNC[5])
  {
    hide Exec, Apply;
    ExecFirst(s, FAILED_SYNC[2..]);
    ExecFirst(s3, FAILED_SYNC[3..]);
    ExecFirst(s4, FAILED_SYNC[4..]);
    ExecFirst(s5, FAILED_SYNC[5..]);
    assert FAILED_SYNC[2..][1..] == FAILED_SYNC[3..] && FAILED_SYNC[3..][1..] == FAILED_SYNC[4..];
    assert FAILED_SYNC[4..][1..] == FAILED_SYNC[5..] && FAILED_SYNC[5..][1..] == [];
    ExecNone(Apply(s5, FAILED_SYNC[5]));
  }

  lemma {:induction false} Unclocked()
    ensures forall job, result :: Syncing(job, result).now == 0 && Syncing(job, result).(now := 0) == Syncing(job, result)
    ensures forall job, result :: Syncing(job, result).jobs == map[3 := job]
  {
  }

  lemma {:induction false} NotAsked()
    ensures Holds(Syncing(Held("w", MINUTE, 1, 0), None).jobs, MINE)
    ensures !Syncing(Held("w", MINUTE, 1, 0), None).jobs[3].cancelRequested
  {
  }

  const REQUEUED := WAITING.(attempts := 1, availableAt := SECOND)

  /** The first statement, the other worker's claim and completion, and then the second statement. */
  lemma {:induction false} LateRetryBreaksMirror()
    ensures var s := Exec(INITIAL, FAILED_SYNC);
            && Enabled(s, "w", RetryMine(SECOND)) && At(s, "w") == Busy(MINE, Phase.Failing, Ended(true), Waiting) && MayRetry(s.db, MINE)
            && var t := RequeueRun(Exec(s.(db := RequeueJob(s.db, MINE, SECOND)), OVERTAKEN).db, MINE);
               3 in t.jobs && 2 in t.runs && t.jobs[3].target == 2 && t.jobs[3].status.Succeeded? && t.runs[2].status.Queued?
  {
    hide Exec, Syncing, Held, RequeueRun, MayRetry;
    FailsUpToRetry();
    var s := Exec(INITIAL, FAILED_SYNC);
    FirstStatement();
    Overtakes(Busy(MINE, Phase.Failing, Ended(true), Waiting));
    SecondStatement(Held("v", SECOND + MINUTE, 2, SECOND).(status := Succeeded, lease := None));
  }

  lemma {:induction false} FirstStatement()
    ensures var t := Syncing(Held("w", MINUTE, 1, 0), None);
            && MayRetry(t, MINE)
            && RequeueJob(t, MINE, SECOND) == Syncing(REQUEUED, None).(runs := map[2 := SyncRun(7, 0, Some(1), Running, Json, 0, None)])
  {
  }

  lemma {:induction false} SecondStatement(job: Job)
    requires job == Held("v", SECOND + MINUTE, 2, SECOND).(status := Succeeded, lease := None)
    ensures var t := RequeueRun(Syncing(job, Some(RESULT)).(now := SECOND), MINE);
            3 in t.jobs && 2 in t.runs && t.jobs[3].target == 2 && t.jobs[3].status.Succeeded? && t.runs[2].status.Queued?
  {
  }

  lemma {:induction false} Overtakes(me: WorkerState)
    ensures var t := Syncing(REQUEUED, None).(runs := map[2 := SyncRun(7, 0, Some(1), Running, Json, 0, None)]);
            Exec(System(t, map["w" := me], []), OVERTAKEN).db ==
            Syncing(Held("v", SECOND + MINUTE, 2, SECOND).(status := Succeeded, lease := None), Some(RESULT)).(now := SECOND)
  {
    hide Exec, Syncing, Held, Take, Claimable, Holds, EnqueueDueConnector, SetConnectorRunBytes, CompletePublish,
         CompleteImport, CancelClaimed, Retry, Fail, FromManifest, ImportCompletes;
    var t := Syncing(REQUEUED, None).(runs := map[2 := SyncRun(7, 0, Some(1), Running, Json, 0, None)]);
    var s := System(t, map["w" := me], []);
    Unclocked();
    assert "w" != "v" by { assert "w"[0] != "v"[0]; }
    ClaimsStale(t.(now := SECOND));
    var held := Syncing(Held("v", SECOND + MINUTE, 2, SECOND), None).(now := SECOND);
    CompletesIt(held, SECOND, Claim(3, 7, 2, ConnectorSync, "v", 2));
    var s1 := Apply(s, OVERTAKEN[0]);
    assert s1.db == held && At(s1, "v") == Busy(Claim(3, 7, 2, ConnectorSync, "v", 2), Working, AtWork, Waiting);
    assert Later(held, 0) == held;
    ExecFirst(s, OVERTAKEN);
    ExecFirst(s1, OVERTAKEN[1..]);
    assert OVERTAKEN[1..][1..] == [];
    ExecNone(Apply(s1, OVERTAKEN[1]));
  }

  /** The claim of a job whose run still says running. */
  lemma {:induction false} ClaimsStale(t: Tables)
    requires t == Syncing(REQUEUED, None).(runs := map[2 := SyncRun(7, 0, Some(1), Running, Json, 0, None)], now := SECOND)
    ensures Claimable(t.jobs, t.now, ConnectorSync, 3)
    ensures ClaimOf(t, 3, "v") == Claim(3, 7, 2, ConnectorSync, "v", 2)
    ensures Take(t, 3, "v", MINUTE) == Syncing(Held("v", SECOND + MINUTE, 2, SECOND), None).(now := SECOND)
  {
  }
}
