/** The promises of the protocol, each for every run from the empty tables. */
module Guarantees {
  import opened Wrappers
  import opened Schema
  import opened Transitions
  import opened Consistency
  import opened JobsStaySound
  import opened Protocol
  import opened SoundRuns
  import opened Evolution
  import opened Safety

  // ---------- publish once or do nothing

  lemma {:induction false} PublishesAtMostOnce(steps: seq<Step>, i: nat, j: nat)
    requires var log := Exec(INITIAL, steps).log;
             i < j < |log| && log[i].Published? && log[j].Published?
    ensures var log := Exec(INITIAL, steps).log; log[i].job != log[j].job
  {
    hide Sound, Exec, Fenced, ClaimsFit, Shown, PublishedFinal;
    ReachableIsSafe(steps);
  }

  /** Marked for cancellation, or gone, and not in the log. */
  ghost predicate Barred(s: System, id: Id)
  {
    && id < s.db.nextId
    && (id in s.db.jobs ==> s.db.jobs[id].cancelRequested)
    && (forall i :: 0 <= i < |s.log| && s.log[i].Published? ==> s.log[i].job != id)
  }

  lemma {:induction false} MarkedIsBarred(s: System, id: Id)
    requires Safe(s) && id in s.db.jobs && s.db.jobs[id].cancelRequested
    ensures Barred(s, id)
  {
    hide Sound, Fenced, ClaimsFit, Shown, PublishedOnce, CancelledWasAsked;
    RowFacts(s.db, id);
    ClaimBelow(s.db, id);
  }

  lemma {:induction false} EvolvesBarred(s: System, t': Tables, claimed: Option<Id>, id: Id)
    requires Barred(s, id) && s.db.nextId <= t'.nextId && JobsEvolve(s.db.jobs, t'.jobs, s.db.nextId, claimed)
    ensures id < t'.nextId && (id in t'.jobs ==> t'.jobs[id].cancelRequested)
  {
  }

  /** A step adds to the log nothing about a marked job. */
  lemma {:induction false} WorkStaysBarred(s: System, w: Worker, a: WorkerAction, id: Id)
    requires Safe(s) && Enabled(s, w, a) && Barred(s, id)
    ensures Barred(ActWorker(s, w, a), id)
  {
    hide Sound, Fenced, ClaimsFit, Shown, PublishedOnce, PublishedFinal, CancelledWasAsked, JobsEvolve, RunsEvolve,
         DatasetsEvolve, DeploymentsEvolve, EnqueueDueConnector, Take, Heartbeat, SetConnectorRunBytes,
         CompletePublish, CompleteImport, CancelClaimed, Retry, Fail, FromManifest;
    WorkEvolves(s, w, a);
    EvolvesBarred(s, ActWorker(s, w, a).db, ClaimedBy(a), id);
    if a.PublishRelease? && !PublishCompletes(s.db, At(s, w).claim) {
      CompletePublishRefused(s.db, At(s, w).claim, a.queries);
    }
  }

  lemma {:induction false} StepStaysBarred(s: System, step: Step, id: Id)
    requires Safe(s) && Barred(s, id)
    ensures Barred(Apply(s, step), id)
  {
    hide Safe, Evolves, ActUser, ActWorker, Enabled, JobsEvolve;
    var s1 := s.(db := Later(s.db, step.elapsed));
    LaterStaysSafe(s, step.elapsed);
    match step
    case User(_, tenant, action) =>
      SafeIsSound(s1);
      UserEvolves(s1.db, tenant, action);
      EvolvesParts(s1.db, ActUser(s1.db, tenant, action), None, None);
      EvolvesBarred(s1, ActUser(s1.db, tenant, action), None, id);
    case Work(_, w, work) => if Enabled(s1, w, work) { WorkStaysBarred(s1, w, work, id); }
  }

  lemma {:induction false} SafeIsSound(s: System)
    requires Safe(s)
    ensures Sound(s.db)
  {
    hide Sound, Fenced, ClaimsFit, Shown, PublishedOnce, PublishedFinal, CancelledWasAsked;
  }

  lemma {:induction false} EvolvesParts(t: Tables, t': Tables, claimed: Option<Id>, published: Option<Id>)
    requires Evolves(t, t', claimed, published)
    ensures t.nextId <= t'.nextId && JobsEvolve(t.jobs, t'.jobs, t.nextId, claimed)
    ensures DeploymentsEvolve(t.deployments, t'.deployments, t'.apps, t.nextId)
  {
    hide JobsEvolve, RunsEvolve, DatasetsEvolve, DeploymentsEvolve;
  }

  lemma {:induction false} RunStaysBarred(s: System, steps: seq<Step>, id: Id)
    requires Safe(s) && Barred(s, id)
    ensures Barred(Exec(s, steps), id)
    decreases |steps|
  {
    hide Safe, Apply, Barred;
    if steps != [] {
      StepStaysSafe(s, steps[0]);
      StepStaysBarred(s, steps[0], id);
      RunStaysBarred(Apply(s, steps[0]), steps[1..], id);
    }
  }

  /** Once cancel_requested_at is set, neither the past nor any future of the run publishes the job. */
  lemma {:induction false} CancelledNeverPublishes(before: seq<Step>, after: seq<Step>, id: Id)
    requires var s := Exec(INITIAL, before); id in s.db.jobs && s.db.jobs[id].cancelRequested
    ensures forall e :: e in Exec(INITIAL, before + after).log && e.Published? ==> e.job != id
  {
    hide Safe, Exec;
    var s := Exec(INITIAL, before);
    ReachableIsSafe(before);
    MarkedIsBarred(s, id);
    RunStaysBarred(s, after, id);
    ExecConcat(INITIAL, before, after);
  }

  /** A dataset shows snapshot, rows, schema and bytes of its latest publication, and so does the run that made it. */
  lemma {:induction false} DatasetShowsLatest(steps: seq<Step>, d: Id)
    requires d in Exec(INITIAL, steps).db.datasets
    ensures var s := Exec(INITIAL, steps); Shows(s.db.datasets[d], d, s.db.runs, s.log)
  {
    hide Sound, Exec, Fenced, ClaimsFit, PublishedFinal, PublishedOnce, Shows;
    ReachableIsSafe(steps);
  }

  // ---------- one status for a job and its row

  lemma {:induction false} JobMirrorsItsRow(steps: seq<Step>, id: Id)
    requires id in Exec(INITIAL, steps).db.jobs
    ensures var t := Exec(INITIAL, steps).db; var job := t.jobs[id];
            if job.kind.AppPublish?
            then job.target in t.deployments && t.deployments[job.target].status == job.status
            else job.target in t.runs && t.runs[job.target].status == job.status
    ensures OneJobEach(Exec(INITIAL, steps).db.jobs)
  {
    hide Sound, Exec, Fenced, ClaimsFit, PublishedFinal, PublishedOnce, Shown;
    ReachableIsSafe(steps);
    RowFacts(Exec(INITIAL, steps).db, id);
    OneJob(Exec(INITIAL, steps).db);
  }

  /** The row is as it was, or the job is gone. */
  ghost predicate Frozen(t: Tables, id: Id, row: Job)
  {
    id < t.nextId && (id in t.jobs ==> t.jobs[id] == row)
  }

  lemma {:induction false} StepStaysFrozen(s: System, step: Step, id: Id, row: Job)
    requires Safe(s) && Frozen(s.db, id, row) && !row.status.Active()
    ensures Frozen(Apply(s, step).db, id, row)
  {
    hide Safe, Evolves, ActUser, ActWorker, Enabled, JobsEvolve;
    var s1 := s.(db := Later(s.db, step.elapsed));
    LaterStaysSafe(s, step.elapsed);
    match step
    case User(_, tenant, action) =>
      SafeIsSound(s1);
      UserEvolves(s1.db, tenant, action);
      EvolvesParts(s1.db, ActUser(s1.db, tenant, action), None, None);
      EvolvesFrozen(s1.db, ActUser(s1.db, tenant, action), None, id, row);
    case Work(_, w, work) =>
      if Enabled(s1, w, work) {
        SafeParts(s1);
        WorkEvolves(s1, w, work);
        EvolvesParts(s1.db, ActWorker(s1, w, work).db, ClaimedBy(work), PublishedBy(s1, w, work));
        EvolvesFrozen(s1.db, ActWorker(s1, w, work).db, ClaimedBy(work), id, row);
      }
  }

  lemma {:induction false} SafeParts(s: System)
    requires Safe(s)
    ensures Sound(s.db) && ClaimsFit(s) && Fenced(s)
  {
    hide Sound, Fenced, ClaimsFit, Shown, PublishedOnce, PublishedFinal, CancelledWasAsked;
  }

  lemma {:induction false} EvolvesFrozen(t: Tables, t': Tables, claimed: Option<Id>, id: Id, row: Job)
    requires Frozen(t, id, row) && !row.status.Active() && t.nextId <= t'.nextId && JobsEvolve(t.jobs, t'.jobs, t.nextId, claimed)
    ensures Frozen(t', id, row)
  {
  }

  lemma {:induction false} RunStaysFrozen(s: System, steps: seq<Step>, id: Id, row: Job)
    requires Safe(s) && Frozen(s.db, id, row) && !row.status.Active()
    ensures Frozen(Exec(s, steps).db, id, row)
    decreases |steps|
  {
    hide Safe, Apply, Frozen;
    if steps != [] {
      StepStaysSafe(s, steps[0]);
      StepStaysFrozen(s, steps[0], id, row);
      RunStaysFrozen(Apply(s, steps[0]), steps[1..], id, row);
    }
  }

  /** A succeeded, failed or cancelled job keeps its whole row, and its run or deployment keeps that status. */
  lemma {:induction false} FinishedIsFinal(before: seq<Step>, after: seq<Step>, id: Id)
    requires id in Exec(INITIAL, before).db.jobs && !Exec(INITIAL, before).db.jobs[id].status.Active()
    requires id in Exec(INITIAL, before + after).db.jobs
    ensures var job := Exec(INITIAL, before).db.jobs[id]; var t := Exec(INITIAL, before + after).db;
            && t.jobs[id] == job
            && (job.kind.AppPublish? ==> job.target in t.deployments && t.deployments[job.target].status == job.status)
            && (!job.kind.AppPublish? ==> job.target in t.runs && t.runs[job.target].status == job.status)
  {
    hide Safe, Exec;
    var s := Exec(INITIAL, before);
    ReachableIsSafe(before);
    SafeIsSound(s);
    ClaimBelow(s.db, id);
    RunStaysFrozen(s, after, id, s.db.jobs[id]);
    ExecConcat(INITIAL, before, after);
    JobMirrorsItsRow(before + after, id);
  }

  /** After a publication took effect, nothing a worker does with any claim of that job changes a row. */
  lemma {:induction false} EpilogueIsHarmless(
    steps: seq<Step>, c: Claim, result: ImportResult, queries: seq<PublishedQuery>, lease: Time, delay: Time, bytes: int)
    requires exists e :: e in Exec(INITIAL, steps).log && e.Published? && e.job == c.job
    ensures var t := Exec(INITIAL, steps).db;
            && Fail(t, c) == t && CancelClaimed(t, c) == t && Retry(t, c, delay) == t && Heartbeat(t, c, lease) == t
            && CompleteImport(t, c, result) == t && CompletePublish(t, c, queries).0 == t && SetConnectorRunBytes(t, c, bytes).0 == t
  {
    hide Sound, Exec, Fenced, ClaimsFit, PublishedOnce, Shown, GrantAll;
    ReachableIsSafe(steps);
  }

  /** A job is cancelled only after someone asked for it. */
  lemma {:induction false} CancelledOnlyOnRequest(steps: seq<Step>, id: Id)
    requires id in Exec(INITIAL, steps).db.jobs && Exec(INITIAL, steps).db.jobs[id].status.Cancelled?
    ensures Exec(INITIAL, steps).db.jobs[id].cancelRequested
  {
    hide Sound, Exec, Fenced, ClaimsFit, PublishedFinal, PublishedOnce, Shown;
    ReachableIsSafe(steps);
  }

  // ---------- fencing

  /** Whatever a busy worker changes in the job table is the row it claimed last, under the attempt it was given. */
  lemma {:induction false} OnlyLatestClaimActs(steps: seq<Step>, w: Worker, a: WorkerAction)
    requires var s := Exec(INITIAL, steps); Enabled(s, w, a) && At(s, w).Busy? && ActWorker(s, w, a).db.jobs != s.db.jobs
    ensures var s := Exec(INITIAL, steps); var c := At(s, w).claim;
            && Holds(s.db.jobs, c)
            && s.db.jobs[c.job].attempts == c.attempt
            && ActWorker(s, w, a).db.jobs == s.db.jobs[c.job := ActWorker(s, w, a).db.jobs[c.job]]
  {
    hide Sound, Exec, PublishedFinal, PublishedOnce, Shown, EnqueueDueConnector, FromManifest, ClaimsFit, StoredBytes;
    var s := Exec(INITIAL, steps);
    ReachableIsSafe(steps);
    SafeParts(s);
    var c := At(s, w).claim;
    ClaimWorker(s, w);
    if a.PublishRelease? {
      ReleaseTouchesOneJob(s.db, c, a.queries);
    }
  }

  lemma {:induction false} ClaimWorker(s: System, w: Worker)
    requires ClaimsFit(s) && At(s, w).Busy?
    ensures At(s, w).claim.worker == w && ClaimFits(s.db, At(s, w).claim)
  {
  }

  lemma {:induction false} ReleaseTouchesOneJob(t: Tables, c: Claim, queries: seq<PublishedQuery>)
    ensures var t' := CompletePublish(t, c, queries).0;
            t'.jobs != t.jobs ==> Holds(t.jobs, c) && c.job in t'.jobs && t'.jobs == t.jobs[c.job := t'.jobs[c.job]]
  {
    if PublishCompletes(t, c) {
      GrantAllLeavesJobs(t, c.tenant, t.jobs[c.job].target, queries);
    }
  }

  lemma {:induction false} GrantAllLeavesJobs(t: Tables, tenant: Id, d: Id, queries: seq<PublishedQuery>)
    ensures var r := GrantAll(t, tenant, d, queries); r.Some? ==> r.value.jobs == t.jobs && r.value.deployments == t.deployments
    decreases |queries|
  {
    hide FindQuery, RevisionSlots;
    if queries != [] {
      var saved := SaveRevision(t, tenant, queries[0].name, queries[0].sql, queries[0].types);
      GrantAllLeavesJobs(saved.tables.(grants := saved.tables.grants + {Grant(tenant, d, saved.revision)}), tenant, d, queries[1..]);
    }
  }
}
