/**
 Which deployment an app shows: in every run the one of its latest release or rollback, and what a release and a
 rollback leave behind.
*/
module Currents {
  import opened Wrappers
  import opened Manifests
  import opened Schema
  import opened Transitions
  import opened Consistency
  import opened JobsStaySound
  import opened RowsStaySound
  import opened QueriesStaySound
  import opened Protocol
  import opened SoundRuns
  import opened Evolution
  import opened Safety
  import opened Guarantees
  import opened Persistence

  // ---------- what a release and a rollback leave

  /** Of all apps only this one has another current deployment, and it has nothing else new. */
  predicate Repointed(apps: map<Id, App>, apps': map<Id, App>, app: Id, d: Id)
  {
    && app in apps && app in apps' && apps'[app] == App(apps[app].tenant, apps[app].slug, Some(d))
    && apps'.Keys == apps.Keys && forall other :: other in apps && other != app ==> apps'[other] == apps[other]
  }

  /** A release that answers Ok: its deployment and job succeeded, and its app points at it; no other row of them changes. */
  lemma {:induction false} ReleaseLeaves(t: Tables, c: Claim, queries: seq<PublishedQuery>)
    requires Sound(t) && ClaimFits(t, c) && CompletePublish(t, c, queries).1.Ok?
    ensures var t' := CompletePublish(t, c, queries).0;
            && c.target in t.deployments && c.job in t.jobs && c.job in t'.jobs && c.target in t'.deployments
            && Repointed(t.apps, t'.apps, t.deployments[c.target].app, c.target)
            && t'.jobs == t.jobs[c.job := t'.jobs[c.job]] && t'.jobs[c.job].status.Succeeded? && t'.jobs[c.job].lease.None?
            && t'.deployments == t.deployments[c.target := t'.deployments[c.target]] && t'.deployments[c.target].status.Succeeded?
            && t'.runs == t.runs && t'.datasets == t.datasets && t'.connectors == t.connectors && t'.now == t.now
  {
    hide Sound, GrantAll;
    ReleaseHeld(t, c, queries);
    GrantAllLeavesRest(t, c.tenant, c.target, queries);
    GrantAllLeavesJobs(t, c.tenant, c.target, queries);
    GrantAllLeavesApps(t, c.tenant, c.target, queries);
    DeploymentsApp(t, c.target);
  }

  lemma {:induction false} ReleaseHeld(t: Tables, c: Claim, queries: seq<PublishedQuery>)
    requires ClaimFits(t, c) && CompletePublish(t, c, queries).1.Ok?
    ensures PublishCompletes(t, c) && t.jobs[c.job].target == c.target && GrantAll(t, c.tenant, c.target, queries).Some?
  {
    hide GrantAll;
  }

  lemma {:induction false} DeploymentsApp(t: Tables, d: Id)
    requires Sound(t) && d in t.deployments
    ensures t.deployments[d].app in t.apps && t.deployments[d].app < t.nextId
  {
    hide JobsSound, RunRows, DatasetRows, ConnectorRows, QueriesSound, GrantsSound;
  }

  lemma {:induction false} GrantAllLeavesRest(t: Tables, tenant: Id, d: Id, queries: seq<PublishedQuery>)
    ensures var r := GrantAll(t, tenant, d, queries);
            r.Some? ==> r.value.runs == t.runs && r.value.datasets == t.datasets && r.value.connectors == t.connectors && r.value.now == t.now
    decreases |queries|
  {
    hide FindQuery, RevisionSlots;
    if queries != [] {
      var saved := SaveRevision(t, tenant, queries[0].name, queries[0].sql, queries[0].types);
      GrantAllLeavesRest(saved.tables.(grants := saved.tables.grants + {Grant(tenant, d, saved.revision)}), tenant, d, queries[1..]);
    }
  }

  /** In every reachable state: right after a release that answers Ok, its app shows it, and no other app shows something else. */
  lemma {:induction false} PublishMakesCurrent(steps: seq<Step>, elapsed: nat, w: Worker, queries: seq<PublishedQuery>, replyLost: bool)
    requires var s := Exec(INITIAL, steps); var s1 := s.(db := Later(s.db, elapsed));
             Enabled(s1, w, PublishRelease(queries, replyLost)) && CompletePublish(s1.db, At(s1, w).claim, queries).1.Ok?
    ensures var s := Exec(INITIAL, steps); var c := At(s, w).claim; var t, t' := s.db, Apply(s, Work(elapsed, w, PublishRelease(queries, replyLost))).db;
            && c.target in t.deployments && c.target in t'.deployments && c.job in t'.jobs
            && Repointed(t.apps, t'.apps, t.deployments[c.target].app, c.target)
            && t'.deployments[c.target].status.Succeeded? && t'.jobs[c.job].status.Succeeded? && t'.jobs[c.job].lease.None?
  {
    hide Safe, Exec, Sound, CompletePublish, FromManifest, Repointed, ClaimFits;
    var s := Exec(INITIAL, steps);
    var s1 := s.(db := Later(s.db, elapsed));
    ReachableIsSafe(steps);
    LaterStaysSafe(s, elapsed);
    SafeParts(s1);
    ClaimWorker(s1, w);
    ReleaseLeaves(s1.db, At(s1, w).claim, queries);
  }

  lemma {:induction false} RollbackCases(t: Tables, tenant: Id, d: Id)
    requires Sound(t)
    ensures var r := Rollback(t, tenant, d);
            if d in t.deployments && t.deployments[d].tenant == tenant && t.deployments[d].status.Succeeded?
            then r.1 == Ok(()) && r.0 == t.(apps := r.0.apps) && Repointed(t.apps, r.0.apps, t.deployments[d].app, d)
            else r == (t, Err(NoRows))
  {
    hide Sound;
    if d in t.deployments { DeploymentsApp(t, d); }
  }

  /**
   In every reachable state: a tenant's rollback to a succeeded deployment of its own makes the app show it and changes no
   other row; any other rollback finds no row and changes none.
  */
  lemma {:induction false} RollbackLeads(steps: seq<Step>, elapsed: nat, tenant: Id, d: Id)
    ensures var s := Exec(INITIAL, steps); var t := Later(s.db, elapsed); var t' := Apply(s, User(elapsed, tenant, RollBack(d))).db;
            if d in t.deployments && t.deployments[d].tenant == tenant && t.deployments[d].status.Succeeded?
            then Rollback(t, tenant, d).1 == Ok(()) && t' == t.(apps := t'.apps) && Repointed(t.apps, t'.apps, t.deployments[d].app, d)
            else Rollback(t, tenant, d).1 == Err(NoRows) && t' == t
  {
    hide Safe, Exec, Sound, Rollback, Repointed, Said;
    var s := Exec(INITIAL, steps);
    ReachableIsSafe(steps);
    LaterStaysSafe(s, elapsed);
    SafeParts(s.(db := Later(s.db, elapsed)));
    RollbackCases(Later(s.db, elapsed), tenant, d);
  }

  // ---------- the latest of a run

  predicate PointsTo(e: Event, app: Id)
  {
    (e.Published? && e.outcome.Release? && e.outcome.app == app) || (e.Restored? && e.app == app)
  }

  /** The deployment of the latest release or rollback of the app. */
  function LatestFor(log: seq<Event>, app: Id): Option<Id>
  {
    if log == [] then None
    else
      var last := log[|log| - 1];
      if PointsTo(last, app) then Some(if last.Published? then last.outcome.deployment else last.current)
      else LatestFor(log[..|log| - 1], app)
  }

  lemma {:induction false} LatestForAppend(log: seq<Event>, e: Event, app: Id)
    ensures LatestFor(log + [e], app) ==
            if PointsTo(e, app) then Some(if e.Published? then e.outcome.deployment else e.current) else LatestFor(log, app)
  {
    assert (log + [e])[..|log|] == log;
  }

  /** Every app shows its latest. */
  ghost predicate Current(apps: map<Id, App>, log: seq<Event>, next: Id)
  {
    && (forall app :: app in apps ==> apps[app].current == LatestFor(log, app))
    && (forall app :: app >= next ==> LatestFor(log, app).None?)
  }

  /** Apps show what they showed, and new ones nothing. */
  ghost predicate CurrentsStay(apps: map<Id, App>, apps': map<Id, App>, next: Id)
  {
    forall app :: app in apps' ==>
      if app in apps then apps'[app].current == apps[app].current else app >= next && apps'[app].current.None?
  }

  lemma {:induction false} StaysCurrent(t: Tables, t': Tables, log: seq<Event>, more: seq<Event>)
    requires Current(t.apps, log, t.nextId) && CurrentsStay(t.apps, t'.apps, t.nextId) && t.nextId <= t'.nextId
    requires more == [] || (|more| == 1 && forall app :: !PointsTo(more[0], app))
    ensures Current(t'.apps, log + more, t'.nextId)
  {
    hide PointsTo;
    forall app ensures LatestFor(log + more, app) == LatestFor(log, app) {
      if more == [] { assert log + more == log; } else {
        assert more == [more[0]];
        LatestForAppend(log, more[0], app);
      }
    }
  }

  lemma {:induction false} PointingStaysCurrent(t: Tables, t': Tables, log: seq<Event>, e: Event, app: Id, d: Id)
    requires Current(t.apps, log, t.nextId) && t.nextId <= t'.nextId && app < t.nextId && Repointed(t.apps, t'.apps, app, d)
    requires PointsTo(e, app) && forall other :: PointsTo(e, other) ==> other == app
    requires d == if e.Published? then e.outcome.deployment else e.current
    ensures Current(t'.apps, log + [e], t'.nextId)
  {
    forall other ensures LatestFor(log + [e], other) == if other == app then Some(d) else LatestFor(log, other) {
      LatestForAppend(log, e, other);
    }
  }

  lemma {:induction false} CreateReleaseCurrents(t: Tables, tenant: Id, m: Manifest, checksum: Checksum, bytes: int, key: Key)
    requires Sound(t)
    ensures CurrentsStay(t.apps, CreateDeployment(t, tenant, m, checksum, bytes, key).0.apps, t.nextId)
  {
    hide Sound, FindJob, FindApp, QuotaAllows, DeploymentSlots;
    Unused(t, t.nextId);
  }

  lemma {:induction false} DropAppCurrents(t: Tables, tenant: Id, slug: string)
    ensures CurrentsStay(t.apps, DeleteApp(t, tenant, slug).0.apps, t.nextId)
  {
    hide FindApp, AppBusy;
  }

  lemma {:induction false} SameCurrents(apps: map<Id, App>, next: Id)
    ensures CurrentsStay(apps, apps, next)
  {
  }

  lemma {:induction false} UserStaysCurrent(s: System, tenant: Id, a: UserAction)
    requires Safe(s) && Current(s.db.apps, s.log, s.db.nextId)
    ensures var t' := ActUser(s.db, tenant, a); Current(t'.apps, s.log + Said(s.db, tenant, a), t'.nextId)
  {
    hide Safe, Sound, ClaimsFit, Fenced, Evolves, Current, CurrentsStay, JobsEvolve, DeploymentsEvolve, CreateDatasetUpload, Queue,
         CreateConnector, UpdateConnector, DeleteConnector, CreateConnectorJob, CancelJob, CreateDeployment, Rollback,
         SaveQueryRevision, DeleteQuery, DeleteDataset, DeleteApp, Repointed;
    var t, t' := s.db, ActUser(s.db, tenant, a);
    SafeParts(s);
    UserEvolves(t, tenant, a);
    EvolvesParts(t, t', None, None);
    UserLeavesApps(t, tenant, a);
    SameCurrents(t.apps, t.nextId);
    match a
    case RollBack(d) =>
      RollbackCases(t, tenant, d);
      if Rollback(t, tenant, d).1.Ok? {
        DeploymentsApp(t, d);
        PointingStaysCurrent(t, t', s.log, Restored(t.deployments[d].app, d), t.deployments[d].app, d);
      } else {
        StaysCurrent(t, t', s.log, []);
      }
    case Cancel(_) => StaysCurrent(t, t', s.log, Said(t, tenant, a));
    case CreateRelease(m, checksum, bytes, key) =>
      CreateReleaseCurrents(t, tenant, m, checksum, bytes, key);
      StaysCurrent(t, t', s.log, []);
    case DropApp(slug) =>
      DropAppCurrents(t, tenant, slug);
      StaysCurrent(t, t', s.log, []);
    case _ => StaysCurrent(t, t', s.log, []);
  }

  lemma {:induction false} WorkLeavesApps(s: System, w: Worker, a: WorkerAction)
    requires Enabled(s, w, a) && !a.PublishRelease?
    ensures ActWorker(s, w, a).db.apps == s.db.apps
  {
    hide EnqueueDueConnector, Heartbeat, SetConnectorRunBytes, CompletePublish, CompleteImport, CancelClaimed, Retry,
         Fail, FromManifest, OtherLive, WithRunStatus, WithDeploymentStatus;
    var c := if At(s, w).Busy? then At(s, w).claim else Claim(0, 0, 0, AppPublish, w, 0);
    match a
    case Enqueue(connector) => EnqueueLeavesApps(s.db, connector);
    case RenewBeat(lease, _) => HeldLeavesApps(s.db, c, lease, 0);
    case SetBytes(bytes) => BytesLeaveApps(s.db, c, bytes);
    case PublishSnapshot(result, _) => ImportLeavesApps(s.db, c, result);
    case CancelMine => HeldLeavesApps(s.db, c, 0, 0);
    case RetryMine(delay) => HeldLeavesApps(s.db, c, 0, delay);
    case FailMine => HeldLeavesApps(s.db, c, 0, 0);
    case _ =>
  }

  lemma {:induction false} EnqueueLeavesApps(t: Tables, connector: Id)
    ensures EnqueueDueConnector(t, connector).0.apps == t.apps
  {
    hide FindJob, QueueFull;
  }

  lemma {:induction false} HeldLeavesApps(t: Tables, c: Claim, lease: Time, delay: Time)
    ensures Heartbeat(t, c, lease).apps == CancelClaimed(t, c).apps == Fail(t, c).apps == Retry(t, c, delay).apps == t.apps
  {
    hide WithRunStatus, WithDeploymentStatus;
  }

  lemma {:induction false} BytesLeaveApps(t: Tables, c: Claim, bytes: int)
    ensures SetConnectorRunBytes(t, c, bytes).0.apps == t.apps
  {
    hide StoredBytes;
  }

  lemma {:induction false} ImportLeavesApps(t: Tables, c: Claim, result: ImportResult)
    ensures CompleteImport(t, c, result).apps == t.apps
  {
    hide WithRunStatus, WithDeploymentStatus;
  }

  lemma {:induction false} WorkPointsNowhere(s: System, w: Worker, a: WorkerAction)
    requires Enabled(s, w, a) && !a.PublishRelease?
    ensures var log' := ActWorker(s, w, a).log;
            log' == s.log || (log' == s.log + [log'[|s.log|]] && forall app :: !PointsTo(log'[|s.log|], app))
  {
    hide EnqueueDueConnector, Take, Heartbeat, SetConnectorRunBytes, CompletePublish, CompleteImport, CancelClaimed,
         Retry, Fail, FromManifest;
  }

  lemma {:induction false} WorkStaysCurrent(s: System, w: Worker, a: WorkerAction)
    requires Safe(s) && Enabled(s, w, a) && Current(s.db.apps, s.log, s.db.nextId)
    ensures var s' := ActWorker(s, w, a); Current(s'.db.apps, s'.log, s'.db.nextId)
  {
    hide Safe, Sound, ClaimFits, Evolves, Current, CurrentsStay, JobsEvolve, DeploymentsEvolve, EnqueueDueConnector, Take, Heartbeat,
         SetConnectorRunBytes, CompletePublish, CompleteImport, CancelClaimed, Retry, Fail, FromManifest, Repointed;
    var s' := ActWorker(s, w, a);
    SafeParts(s);
    WorkEvolves(s, w, a);
    EvolvesParts(s.db, s'.db, ClaimedBy(a), PublishedBy(s, w, a));
    SameCurrents(s.db.apps, s.db.nextId);
    if a.PublishRelease? {
      ReleaseStaysCurrent(s, w, a);
    } else {
      WorkLeavesApps(s, w, a);
      WorkPointsNowhere(s, w, a);
      var more := if s'.log == s.log then [] else [s'.log[|s.log|]];
      assert s'.log == s.log + more;
      StaysCurrent(s.db, s'.db, s.log, more);
    }
  }

  lemma {:induction false} ReleaseStaysCurrent(s: System, w: Worker, a: WorkerAction)
    requires Safe(s) && Enabled(s, w, a) && a.PublishRelease? && Current(s.db.apps, s.log, s.db.nextId)
    requires s.db.nextId <= ActWorker(s, w, a).db.nextId
    ensures var s' := ActWorker(s, w, a); Current(s'.db.apps, s'.log, s'.db.nextId)
  {
    hide Safe, Sound, ClaimFits, Current, CurrentsStay, CompletePublish, FromManifest, Repointed;
    var c := At(s, w).claim;
    SafeParts(s);
    ClaimWorker(s, w);
    if CompletePublish(s.db, c, a.queries).1.Ok? {
      ReleaseLeaves(s.db, c, a.queries);
      ReleaseHeld(s.db, c, a.queries);
      DeploymentsApp(s.db, c.target);
      var app := s.db.deployments[c.target].app;
      PointingStaysCurrent(s.db, ActWorker(s, w, a).db, s.log, Published(c.job, Release(c.target, app)), app, c.target);
    } else {
      RefusedRelease(s.db, c, a.queries);
    }
  }

  lemma {:induction false} RefusedRelease(t: Tables, c: Claim, queries: seq<PublishedQuery>)
    requires CompletePublish(t, c, queries).1.Err?
    ensures CompletePublish(t, c, queries).0 == t
  {
    hide GrantAll;
  }

  lemma {:induction false} StepStaysCurrent(s: System, step: Step)
    requires Safe(s) && Current(s.db.apps, s.log, s.db.nextId)
    ensures var s' := Apply(s, step); Current(s'.db.apps, s'.log, s'.db.nextId)
  {
    hide Safe, Current, ActUser, ActWorker, Enabled, Said;
    var s1 := s.(db := Later(s.db, step.elapsed));
    LaterStaysSafe(s, step.elapsed);
    match step
    case User(_, tenant, a) => UserStaysCurrent(s1, tenant, a);
    case Work(_, w, a) => if Enabled(s1, w, a) { WorkStaysCurrent(s1, w, a); }
  }

  lemma {:induction false} RunStaysCurrent(s: System, steps: seq<Step>)
    requires Safe(s) && Current(s.db.apps, s.log, s.db.nextId)
    ensures var s' := Exec(s, steps); Current(s'.db.apps, s'.log, s'.db.nextId)
    decreases |steps|
  {
    hide Safe, Current, Apply;
    if steps != [] {
      StepStaysSafe(s, steps[0]);
      StepStaysCurrent(s, steps[0]);
      RunStaysCurrent(Apply(s, steps[0]), steps[1..]);
    }
  }

  /** In every reachable state an app shows the deployment of its latest release or rollback, and none if there was none. */
  lemma {:induction false} AppShowsLatest(steps: seq<Step>, app: Id)
    requires app in Exec(INITIAL, steps).db.apps
    ensures var s := Exec(INITIAL, steps); s.db.apps[app].current == LatestFor(s.log, app)
  {
    hide Safe, Exec, LatestFor;
    InitialIsSafe();
    NothingCurrent();
    RunStaysCurrent(INITIAL, steps);
  }

  lemma {:induction false} NothingCurrent()
    ensures Current(INITIAL.db.apps, INITIAL.log, INITIAL.db.nextId)
  {
  }
}
