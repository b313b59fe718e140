/** The schedule of connectors in every run: the keys fired for a connector go strictly up, and stay in the job table. */
module Schedule {
  import opened Wrappers
  import opened Manifests
  import opened Schema
  import opened Transitions
  import opened Consistency
  import opened JobsStaySound
  import opened RowsStaySound
  import opened Protocol
  import opened SoundRuns
  import opened Evolution
  import opened Safety
  import opened Guarantees
  import opened Exclusion
  import opened Persistence

  // ---------- what a transaction does to the schedule

  /** A connector keeps its tenant and dataset; next_sync_at stays or is set from the clock. */
  ghost predicate TimesMove(connectors: map<Id, Connector>, connectors': map<Id, Connector>, next: Id, now: Time)
  {
    forall id :: id in connectors' ==>
      if id in connectors
      then connectors'[id].tenant == connectors[id].tenant && connectors'[id].dataset == connectors[id].dataset
           && (connectors'[id].nextSyncAt == connectors[id].nextSyncAt || connectors'[id].nextSyncAt >= now)
      else id >= next
  }

  ghost predicate NoNewKey(jobs: map<Id, Job>, jobs': map<Id, Job>)
  {
    forall id :: id in jobs' && jobs'[id].kind.ConnectorSync? && jobs'[id].key.Scheduled? ==>
      id in jobs && jobs[id].kind.ConnectorSync? && jobs[id].key == jobs'[id].key
  }

  lemma {:induction false} SameTimes(connectors: map<Id, Connector>, next: Id, now: Time)
    ensures TimesMove(connectors, connectors, next, now)
  {
  }

  predicate TouchesConnectors(a: UserAction) { a.NewConnector? || a.EditConnector? || a.DropConnector? || a.DropDataset? }

  lemma {:induction false} UserLeavesConnectors(t: Tables, tenant: Id, a: UserAction)
    requires !TouchesConnectors(a)
    ensures ActUser(t, tenant, a).connectors == t.connectors
  {
    hide FindJob, FindJobFor, FindDataset, FindApp, FindQuery, QuotaAllows, QueueFull, DeploymentSlots, RevisionSlots,
         AppBusy, QueryInUse, WithRunStatus, WithDeploymentStatus;
  }

  lemma {:induction false} UserMovesTimes(t: Tables, tenant: Id, a: UserAction)
    requires Sound(t) && TouchesConnectors(a)
    ensures TimesMove(t.connectors, ActUser(t, tenant, a).connectors, t.nextId, t.now)
  {
    hide Sound, CreateConnector, UpdateConnector, DeleteConnector, DeleteDataset, TimesMove;
    match a
    case NewConnector(slug, dataset, enabled, refreshMinutes) => CreateMovesTimes(t, tenant, slug, dataset, enabled, refreshMinutes);
    case EditConnector(slug, enabled, refreshMinutes) => UpdateMovesTimes(t, tenant, slug, enabled, refreshMinutes);
    case DropConnector(slug) => DropMovesTimes(t, tenant, slug, false);
    case DropDataset(slug, dropped) => DropMovesTimes(t, tenant, slug, dropped);
  }

  lemma {:induction false} CreateMovesTimes(t: Tables, tenant: Id, slug: string, dataset: string, enabled: bool, refreshMinutes: int)
    requires Sound(t)
    ensures TimesMove(t.connectors, CreateConnector(t, tenant, slug, dataset, enabled, refreshMinutes).0.connectors, t.nextId, t.now)
  {
    hide Sound, FindDataset;
    Unused(t, t.nextId + 1);
  }

  lemma {:induction false} UpdateMovesTimes(t: Tables, tenant: Id, slug: string, enabled: bool, refreshMinutes: int)
    ensures TimesMove(t.connectors, UpdateConnector(t, tenant, slug, enabled, refreshMinutes).0.connectors, t.nextId, t.now)
  {
    hide FindConnector;
    FoundConnector(t.connectors, tenant, slug);
  }

  lemma {:induction false} DropMovesTimes(t: Tables, tenant: Id, slug: string, dropped: bool)
    ensures TimesMove(t.connectors, DeleteConnector(t, tenant, slug).0.connectors, t.nextId, t.now)
    ensures TimesMove(t.connectors, DeleteDataset(t, tenant, slug, dropped).0.connectors, t.nextId, t.now)
  {
    hide FindDataset, FindConnector, DatasetBusy, ForgetConnectors;
  }

  lemma {:induction false} SameKeys(jobs: map<Id, Job>)
    ensures NoNewKey(jobs, jobs)
  {
  }

  lemma {:induction false} RowMakesNoKey(jobs: map<Id, Job>, id: Id, job: Job)
    requires !(job.kind.ConnectorSync? && job.key.Scheduled?) || (id in jobs && jobs[id].kind == job.kind && jobs[id].key == job.key)
    ensures NoNewKey(jobs, jobs[id := job])
  {
  }

  lemma {:induction false} UserMakesNoKey(t: Tables, tenant: Id, a: UserAction)
    ensures NoNewKey(t.jobs, ActUser(t, tenant, a).jobs)
  {
    hide NoNewKey, Queue, CancelJob, CreateDatasetUpload, CreateDeployment, CreateConnectorJob, CreateConnector,
         UpdateConnector, DeleteConnector, SaveQueryRevision, DeleteQuery, DeleteDataset, DeleteApp;
    SameKeys(t.jobs);
    match a
    case CreateUpload(slug, format, bytes, key) => UploadMakesNoKey(t, tenant, slug, format, bytes, key);
    case FinishUpload(run) => QueueMakesNoKey(t, false, run);
    case SyncNow(connector, request) => SyncMakesNoKey(t, tenant, connector, request);
    case Cancel(job) => CancelMakesNoKey(t, tenant, job);
    case CreateRelease(m, checksum, bytes, key) => ReleaseMakesNoKey(t, tenant, m, checksum, bytes, key);
    case FinishRelease(d) => QueueMakesNoKey(t, true, d);
    case DropDataset(slug, dropped) => DropMakesNoKey(t, tenant, slug, dropped);
    case DropApp(slug) => DropMakesNoKey(t, tenant, slug, false);
    case _ => OthersLeaveJobs(t, tenant, a);
  }

  lemma {:induction false} FewerKeys(jobs: map<Id, Job>, jobs': map<Id, Job>)
    requires forall id :: id in jobs' ==> id in jobs && jobs'[id] == jobs[id]
    ensures NoNewKey(jobs, jobs')
  {
  }

  lemma {:induction false} DropMakesNoKey(t: Tables, tenant: Id, slug: string, dropped: bool)
    ensures NoNewKey(t.jobs, DeleteDataset(t, tenant, slug, dropped).0.jobs)
    ensures NoNewKey(t.jobs, DeleteApp(t, tenant, slug).0.jobs)
  {
    hide NoNewKey, FindDataset, FindApp, DatasetBusy, AppBusy, ForgetConnectors;
    FewerKeys(t.jobs, DeleteDataset(t, tenant, slug, dropped).0.jobs);
    FewerKeys(t.jobs, DeleteApp(t, tenant, slug).0.jobs);
  }

  lemma {:induction false} UploadMakesNoKey(t: Tables, tenant: Id, slug: string, format: Format, bytes: int, key: Key)
    ensures NoNewKey(t.jobs, CreateDatasetUpload(t, tenant, slug, format, bytes, key).0.jobs)
  {
    hide NoNewKey, FindJob, FindDataset, QuotaAllows;
    SameKeys(t.jobs);
    RowMakesNoKey(t.jobs, t.nextId + 2, Job(tenant, DatasetImport, key, t.nextId + 1, AwaitingUpload, t.now, None, 0, false));
  }

  lemma {:induction false} ReleaseMakesNoKey(t: Tables, tenant: Id, m: Manifest, checksum: Checksum, bytes: int, key: Key)
    ensures NoNewKey(t.jobs, CreateDeployment(t, tenant, m, checksum, bytes, key).0.jobs)
  {
    hide NoNewKey, FindJob, FindApp, QuotaAllows, DeploymentSlots;
    SameKeys(t.jobs);
    RowMakesNoKey(t.jobs, t.nextId + 2, Job(tenant, AppPublish, key, t.nextId + 1, AwaitingUpload, t.now, None, 0, false));
  }

  lemma {:induction false} SyncMakesNoKey(t: Tables, tenant: Id, connector: Id, request: string)
    ensures NoNewKey(t.jobs, CreateConnectorJob(t, tenant, connector, Manual(request)).0.jobs)
  {
    hide NoNewKey, FindJob, QueueFull;
    SameKeys(t.jobs);
    RowMakesNoKey(t.jobs, t.nextId + 1, Job(tenant, ConnectorSync, Manual(request), t.nextId, Queued, t.now, None, 0, false));
  }

  lemma {:induction false} QueueMakesNoKey(t: Tables, publish: bool, target: Id)
    ensures NoNewKey(t.jobs, Queue(t, publish, target).jobs)
  {
    hide FindJobFor, WithRunStatus, WithDeploymentStatus;
    FoundJobFor(t.jobs, publish, target);
  }

  lemma {:induction false} CancelMakesNoKey(t: Tables, tenant: Id, id: Id)
    ensures NoNewKey(t.jobs, CancelJob(t, tenant, id).0.jobs)
  {
    hide NoNewKey, WithRunStatus, WithDeploymentStatus;
    SameKeys(t.jobs);
    if id in t.jobs {
      var marked := t.jobs[id].(cancelRequested := true);
      RowMakesNoKey(t.jobs, id, marked);
      RowMakesNoKey(t.jobs, id, marked.(status := Cancelled));
    }
  }

  /** The same connectors, and no scheduled key that was not there. */
  ghost predicate LeavesSchedule(t: Tables, t': Tables)
  {
    t'.connectors == t.connectors && NoNewKey(t.jobs, t'.jobs)
  }

  lemma {:induction false} SameSchedule(t: Tables)
    ensures LeavesSchedule(t, t)
  {
  }

  lemma {:induction false} MoveLeavesSchedule(t: Tables, id: Id, job: Job)
    requires id in t.jobs && job.kind == t.jobs[id].kind && job.key == t.jobs[id].key
    ensures LeavesSchedule(t, Move(t, id, job)) && LeavesSchedule(t, t.(jobs := t.jobs[id := job]))
  {
    hide WithRunStatus, WithDeploymentStatus;
  }

  lemma {:induction false} HeldLeavesSchedule(t: Tables, c: Claim, lease: Time, delay: Time, bytes: int)
    ensures LeavesSchedule(t, Heartbeat(t, c, lease)) && LeavesSchedule(t, CancelClaimed(t, c)) && LeavesSchedule(t, Fail(t, c))
    ensures LeavesSchedule(t, Retry(t, c, delay)) && LeavesSchedule(t, SetConnectorRunBytes(t, c, bytes).0)
  {
    hide StoredBytes, Move, LeavesSchedule;
    SameSchedule(t);
    BytesLeaveSchedule(t, c, bytes);
    if Holds(t.jobs, c) {
      var job := t.jobs[c.job];
      MoveLeavesSchedule(t, c.job, job.(lease := Some(Lease(c.worker, t.now + lease))));
      MoveLeavesSchedule(t, c.job, job.(status := Cancelled, lease := None));
      MoveLeavesSchedule(t, c.job, job.(status := Failed, lease := None));
      MoveLeavesSchedule(t, c.job, job.(status := Queued, lease := None, availableAt := t.now + delay));
    }
  }

  lemma {:induction false} BytesLeaveSchedule(t: Tables, c: Claim, bytes: int)
    ensures LeavesSchedule(t, SetConnectorRunBytes(t, c, bytes).0)
  {
    hide StoredBytes;
  }

  lemma {:induction false} ImportLeavesSchedule(t: Tables, c: Claim, result: ImportResult)
    ensures LeavesSchedule(t, CompleteImport(t, c, result))
  {
    hide WithRunStatus, WithDeploymentStatus;
  }

  lemma {:induction false} WorkLeavesSchedule(s: System, w: Worker, a: WorkerAction)
    requires Enabled(s, w, a) && !a.Enqueue?
    ensures ActWorker(s, w, a).db.connectors == s.db.connectors && NoNewKey(s.db.jobs, ActWorker(s, w, a).db.jobs)
  {
    hide StoredBytes, CompletePublish, FromManifest, Move, Heartbeat, CancelClaimed, Fail, Retry, SetConnectorRunBytes,
         CompleteImport, OtherLive, NoNewKey;
    var t := s.db;
    var me := At(s, w);
    SameSchedule(t);
    match a
    case ClaimJob(_, id, lease) =>
      MoveLeavesSchedule(t, id, t.jobs[id].(status := Running, lease := Some(Lease(w, t.now + lease)), attempts := t.jobs[id].attempts + 1));
    case RenewBeat(lease, _) => HeldLeavesSchedule(t, me.claim, lease, 0, 0);
    case SetBytes(bytes) => HeldLeavesSchedule(t, me.claim, 0, 0, bytes);
    case PublishSnapshot(result, _) => ImportLeavesSchedule(t, me.claim, result);
    case PublishRelease(queries, _) => ReleaseLeavesSchedule(t, me.claim, queries);
    case CancelMine => HeldLeavesSchedule(t, me.claim, 0, 0, 0);
    case RetryMine(delay) => HeldLeavesSchedule(t, me.claim, 0, delay, 0);
    case FailMine => HeldLeavesSchedule(t, me.claim, 0, 0, 0);
    case _ =>
  }

  lemma {:induction false} ReleaseLeavesSchedule(t: Tables, c: Claim, queries: seq<PublishedQuery>)
    ensures LeavesSchedule(t, CompletePublish(t, c, queries).0)
  {
    hide GrantAll;
    if PublishCompletes(t, c) {
      GrantAllLeavesJobs(t, c.tenant, t.jobs[c.job].target, queries);
      GrantAllLeavesConnectors(t, c.tenant, t.jobs[c.job].target, queries);
    }
  }

  lemma {:induction false} GrantAllLeavesConnectors(t: Tables, tenant: Id, d: Id, queries: seq<PublishedQuery>)
    ensures var r := GrantAll(t, tenant, d, queries); r.Some? ==> r.value.connectors == t.connectors
    decreases |queries|
  {
    hide FindQuery, RevisionSlots;
    if queries != [] {
      var saved := SaveRevision(t, tenant, queries[0].name, queries[0].sql, queries[0].types);
      GrantAllLeavesConnectors(saved.tables.(grants := saved.tables.grants + {Grant(tenant, d, saved.revision)}), tenant, d, queries[1..]);
    }
  }

  // ---------- the invariant

  /** Everything fired for a connector was due by the clock of its transaction, and no later than the connector's next time. */
  ghost predicate FiredBefore(log: seq<Event>, connectors: map<Id, Connector>, next: Id, now: Time)
  {
    forall i :: 0 <= i < |log| && log[i].Fired? ==>
      && log[i].connector < next
      && log[i].at <= log[i].clock <= now
      && (log[i].connector in connectors ==> log[i].at <= connectors[log[i].connector].nextSyncAt)
  }

  /** The times fired for a connector go up. */
  ghost predicate FiredInOrder(log: seq<Event>)
  {
    forall i, j :: 0 <= i < j < |log| && log[i].Fired? && log[j].Fired? && log[i].connector == log[j].connector ==> log[i].at < log[j].at
  }

  ghost predicate HasFired(log: seq<Event>, connector: Id, at: Time)
  {
    exists i :: 0 <= i < |log| && log[i].Fired? && log[i].connector == connector && log[i].at == at
  }

  /** A scheduled key in the job table was fired. */
  ghost predicate KeysFired(jobs: map<Id, Job>, log: seq<Event>)
  {
    forall id :: id in jobs && jobs[id].kind.ConnectorSync? && jobs[id].key.Scheduled? ==>
      HasFired(log, jobs[id].key.connector, jobs[id].key.at)
  }

  /** The job of a fired key, on a run of the connector's dataset. */
  predicate FiredJob(jobs: map<Id, Job>, runs: map<Id, SyncRun>, job: Id, row: Connector, key: Key)
  {
    && KeyedJob(jobs, job, row.tenant, ConnectorSync, key)
    && jobs[job].target in runs && runs[jobs[job].target].dataset == row.dataset
  }

  ghost predicate KeptFor(jobs: map<Id, Job>, runs: map<Id, SyncRun>, row: Connector, key: Key)
  {
    exists job :: FiredJob(jobs, runs, job, row, key)
  }

  /** As long as a connector is there, so is the job of every key fired for it. */
  ghost predicate FiredKept(log: seq<Event>, connectors: map<Id, Connector>, jobs: map<Id, Job>, runs: map<Id, SyncRun>)
  {
    forall i :: 0 <= i < |log| && log[i].Fired? && log[i].connector in connectors ==>
      KeptFor(jobs, runs, connectors[log[i].connector], Scheduled(log[i].connector, log[i].at))
  }

  ghost predicate OnSchedule(s: System)
  {
    && FiredBefore(s.log, s.db.connectors, s.db.nextId, s.db.now)
    && FiredInOrder(s.log)
    && KeysFired(s.db.jobs, s.log)
    && FiredKept(s.log, s.db.connectors, s.db.jobs, s.db.runs)
  }

  // ---------- transactions that fire nothing

  lemma {:induction false} FiredStaysBefore(log: seq<Event>, t: Tables, t': Tables)
    requires FiredBefore(log, t.connectors, t.nextId, t.now) && t.nextId <= t'.nextId && t.now == t'.now
    requires TimesMove(t.connectors, t'.connectors, t.nextId, t.now)
    ensures FiredBefore(log, t'.connectors, t'.nextId, t'.now)
  {
  }

  lemma {:induction false} KeysStayFired(log: seq<Event>, jobs: map<Id, Job>, jobs': map<Id, Job>)
    requires KeysFired(jobs, log) && NoNewKey(jobs, jobs')
    ensures KeysFired(jobs', log)
  {
  }

  /** A sync job goes only with its dataset, and the connector with it. */
  lemma {:induction false} StaysKept(t: Tables, t': Tables, claimed: Option<Id>, published: Option<Id>, c: Id, key: Key)
    requires Evolves(t, t', claimed, published) && JobsStay(t.jobs, t'.jobs, t'.runs, t'.deployments)
    requires c in t.connectors && c in t'.connectors && TimesMove(t.connectors, t'.connectors, t.nextId, t.now)
    requires t'.connectors[c].dataset in t'.datasets
    requires KeptFor(t.jobs, t.runs, t.connectors[c], key)
    ensures KeptFor(t'.jobs, t'.runs, t'.connectors[c], key)
  {
    hide DatasetsEvolve, DeploymentsEvolve;
    var job :| FiredJob(t.jobs, t.runs, job, t.connectors[c], key);
    assert FiredJob(t'.jobs, t'.runs, job, t'.connectors[c], key);
  }

  lemma {:induction false} ConnectorDataset(t: Tables, c: Id)
    requires Sound(t) && c in t.connectors
    ensures t.connectors[c].dataset in t.datasets && c < t.nextId && t.connectors[c].refreshMinutes >= 1
  {
    hide JobsSound, RunRows, DatasetRows, AppsSound, QueriesSound, GrantsSound;
  }

  lemma {:induction false} FiredStaysKept(log: seq<Event>, t: Tables, t': Tables, claimed: Option<Id>, published: Option<Id>)
    requires FiredKept(log, t.connectors, t.jobs, t.runs) && FiredBefore(log, t.connectors, t.nextId, t.now)
    requires Sound(t') && Evolves(t, t', claimed, published) && JobsStay(t.jobs, t'.jobs, t'.runs, t'.deployments)
    requires TimesMove(t.connectors, t'.connectors, t.nextId, t.now)
    ensures FiredKept(log, t'.connectors, t'.jobs, t'.runs)
  {
    hide Sound, Evolves, JobsStay, KeptFor;
    forall i | 0 <= i < |log| && log[i].Fired? && log[i].connector in t'.connectors
      ensures KeptFor(t'.jobs, t'.runs, t'.connectors[log[i].connector], Scheduled(log[i].connector, log[i].at)) {
      ConnectorDataset(t', log[i].connector);
      StaysKept(t, t', claimed, published, log[i].connector, Scheduled(log[i].connector, log[i].at));
    }
  }

  lemma {:induction false} OtherEvent(log: seq<Event>, e: Event, t: Tables)
    requires !e.Fired? && FiredBefore(log, t.connectors, t.nextId, t.now) && FiredInOrder(log) && KeysFired(t.jobs, log)
    requires FiredKept(log, t.connectors, t.jobs, t.runs)
    ensures FiredBefore(log + [e], t.connectors, t.nextId, t.now) && FiredInOrder(log + [e]) && KeysFired(t.jobs, log + [e])
    ensures FiredKept(log + [e], t.connectors, t.jobs, t.runs)
  {
    hide KeptFor;
    forall id | id in t.jobs && t.jobs[id].kind.ConnectorSync? && t.jobs[id].key.Scheduled?
      ensures HasFired(log + [e], t.jobs[id].key.connector, t.jobs[id].key.at) {
      FiredAppend(log, e, t.jobs[id].key.connector, t.jobs[id].key.at);
    }
  }

  lemma {:induction false} FiredAppend(log: seq<Event>, e: Event, c: Id, at: Time)
    ensures HasFired(log + [e], c, at) <==> HasFired(log, c, at) || (e.Fired? && e.connector == c && e.at == at)
  {
    var log' := log + [e];
    if HasFired(log, c, at) {
      var i :| 0 <= i < |log| && log[i].Fired? && log[i].connector == c && log[i].at == at;
      assert log'[i] == log[i];
    }
    assert log'[|log|] == e;
  }

  // ---------- enqueueing

  /** The connector's next key was fired already, so that its next enqueue is stuck. */
  ghost predicate Clashed(s: System, id: Id)
  {
    id in s.db.connectors && HasFired(s.log, id, s.db.connectors[id].nextSyncAt)
  }

  /** The next key is taken exactly when it was fired before. */
  lemma {:induction false} TakenIffFired(s: System, id: Id)
    requires OnSchedule(s) && id in s.db.connectors
    ensures var row := s.db.connectors[id];
            FindJob(s.db.jobs, row.tenant, ConnectorSync, Scheduled(id, row.nextSyncAt)).Some? <==> Clashed(s, id)
  {
    hide FiredBefore, FiredInOrder;
    var row := s.db.connectors[id];
    var key := Scheduled(id, row.nextSyncAt);
    if Clashed(s, id) {
      assert KeptFor(s.db.jobs, s.db.runs, row, key);
      var job :| FiredJob(s.db.jobs, s.db.runs, job, row, key);
      assert KeyedJob(s.db.jobs, job, row.tenant, ConnectorSync, key);
    }
  }

  /** What an enqueue does, by due time, room and clash. */
  lemma {:induction false} EnqueueCases(s: System, id: Id)
    requires OnSchedule(s)
    ensures var outcome := EnqueueDueConnector(s.db, id).1;
            && (outcome.NothingDue? <==> !Due(s.db, id))
            && (outcome.Postponed? <==> Due(s.db, id) && QueueFull(s.db, s.db.connectors[id].tenant))
            && (outcome.Aborted? <==> Due(s.db, id) && !QueueFull(s.db, s.db.connectors[id].tenant) && Clashed(s, id))
            && (outcome.Enqueued? <==> Due(s.db, id) && !QueueFull(s.db, s.db.connectors[id].tenant) && !Clashed(s, id))
  {
    hide QueueFull, FindJob, OnSchedule, Clashed;
    if Due(s.db, id) { TakenIffFired(s, id); }
  }

  /** The rows an enqueue leaves. */
  lemma {:induction false} EnqueueRows(t: Tables, id: Id)
    ensures EnqueueDueConnector(t, id).1.NothingDue? <==> !Due(t, id)
    ensures var r := EnqueueDueConnector(t, id); var row := if Due(t, id) then t.connectors[id] else Connector(0, 0, "", false, 0, 0);
            match r.1
            case NothingDue => r.0 == t
            case Aborted => r.0 == t
            case Postponed => r.0 == t.(connectors := t.connectors[id := row.(nextSyncAt := t.now + MINUTE)])
            case Enqueued(job) =>
              && job == t.nextId + 1
              && r.0 == t.(connectors := t.connectors[id := row.(nextSyncAt := t.now + row.refreshMinutes * MINUTE)],
                           runs := t.runs[t.nextId := SyncRun(row.tenant, row.dataset, Some(id), Queued, Json, 0, None)],
                           jobs := t.jobs[job := Job(row.tenant, ConnectorSync, Scheduled(id, row.nextSyncAt), t.nextId, Queued, t.now, None, 0, false)],
                           nextId := t.nextId + 2)
  {
    hide FindJob, QueueFull;
  }

  lemma {:induction false} EnqueueMovesTimes(t: Tables, id: Id)
    requires Sound(t)
    ensures TimesMove(t.connectors, EnqueueDueConnector(t, id).0.connectors, t.nextId, t.now)
  {
    hide Sound, EnqueueDueConnector;
    EnqueueRows(t, id);
    if Due(t, id) { ConnectorDataset(t, id); }
  }

  lemma {:induction false} FireBefore(log: seq<Event>, connectors: map<Id, Connector>, next: Id, now: Time, e: Event)
    requires FiredBefore(log, connectors, next, now) && e.Fired? && e.connector < next && e.at <= e.clock <= now
    requires e.connector in connectors ==> e.at <= connectors[e.connector].nextSyncAt
    ensures FiredBefore(log + [e], connectors, next, now)
  {
  }

  /** The new key is above the connector's old ones, because they are no higher and the key was free. */
  lemma {:induction false} FireInOrder(s: System, id: Id, clock: Time)
    requires OnSchedule(s) && id in s.db.connectors && !Clashed(s, id)
    ensures FiredInOrder(s.log + [Fired(id, s.db.connectors[id].nextSyncAt, clock)])
  {
    hide KeysFired, FiredKept;
    forall i | 0 <= i < |s.log| && s.log[i].Fired? && s.log[i].connector == id
      ensures s.log[i].at < s.db.connectors[id].nextSyncAt {
      assert s.log[i].at != s.db.connectors[id].nextSyncAt;
    }
  }

  lemma {:induction false} FireKey(jobs: map<Id, Job>, log: seq<Event>, id: Id, job: Job, e: Event)
    requires KeysFired(jobs, log) && e.Fired? && (job.kind.ConnectorSync? && job.key.Scheduled? ==> job.key == Scheduled(e.connector, e.at))
    ensures KeysFired(jobs[id := job], log + [e])
  {
    hide HasFired;
    var jobs' := jobs[id := job];
    forall k | k in jobs' && jobs'[k].kind.ConnectorSync? && jobs'[k].key.Scheduled?
      ensures HasFired(log + [e], jobs'[k].key.connector, jobs'[k].key.at) {
      FiredAppend(log, e, jobs'[k].key.connector, jobs'[k].key.at);
    }
  }

  lemma {:induction false} FireKept(log: seq<Event>, connectors: map<Id, Connector>, jobs: map<Id, Job>, runs: map<Id, SyncRun>, e: Event, job: Id)
    requires FiredKept(log, connectors, jobs, runs) && e.Fired?
    requires e.connector in connectors && FiredJob(jobs, runs, job, connectors[e.connector], Scheduled(e.connector, e.at))
    ensures FiredKept(log + [e], connectors, jobs, runs)
  {
    assert KeptFor(jobs, runs, connectors[e.connector], Scheduled(e.connector, e.at));
    hide KeptFor, FiredJob;
  }

  lemma {:induction false} EnqueueStaysOnSchedule(s: System, w: Worker, id: Id)
    requires OnSchedule(s) && Safe(s) && Enabled(s, w, Enqueue(id)) && EnqueueDueConnector(s.db, id).1.Enqueued?
    ensures OnSchedule(ActWorker(s, w, Enqueue(id)))
  {
    hide Safe, Sound, Evolves, JobsStay, TimesMove, EnqueueDueConnector, FiredBefore, FiredInOrder, KeysFired, FiredKept, Clashed;
    var t, r := s.db, EnqueueDueConnector(s.db, id);
    EnqueueCases(s, id);
    EnqueueRows(t, id);
    var e := Fired(id, t.connectors[id].nextSyncAt, t.now);
    SafeParts(s);
    EnqueueMovesTimes(t, id);
    WorkStaysSafe(s, w, Enqueue(id));
    SafeParts(ActWorker(s, w, Enqueue(id)));
    EnqueueDueConnectorEvolves(t, id);
    EvolvesParts(t, r.0, None, None);
    WorkJobsStay(s, w, Enqueue(id));
    ConnectorDataset(t, id);
    FiredStaysBefore(s.log, t, r.0);
    FireBefore(s.log, r.0.connectors, r.0.nextId, r.0.now, e);
    FireInOrder(s, id, t.now);
    FireKey(t.jobs, s.log, t.nextId + 1, r.0.jobs[t.nextId + 1], e);
    FiredStaysKept(s.log, t, r.0, None, None);
    FireKept(s.log, r.0.connectors, r.0.jobs, r.0.runs, e, t.nextId + 1);
  }

  // ---------- steps and runs

  /** A transaction that fires nothing. */
  lemma {:induction false} QuietStaysOnSchedule(s: System, t': Tables, log': seq<Event>, claimed: Option<Id>, published: Option<Id>)
    requires OnSchedule(s) && Sound(t') && Evolves(s.db, t', claimed, published)
    requires JobsStay(s.db.jobs, t'.jobs, t'.runs, t'.deployments)
    requires TimesMove(s.db.connectors, t'.connectors, s.db.nextId, s.db.now) && NoNewKey(s.db.jobs, t'.jobs)
    requires log' == s.log || exists e: Event :: !e.Fired? && log' == s.log + [e]
    ensures FiredBefore(log', t'.connectors, t'.nextId, t'.now) && FiredInOrder(log') && KeysFired(t'.jobs, log')
    ensures FiredKept(log', t'.connectors, t'.jobs, t'.runs)
  {
    hide Sound, Evolves, JobsStay, TimesMove, NoNewKey, FiredBefore, FiredInOrder, KeysFired, FiredKept;
    EvolvesParts(s.db, t', claimed, published);
    SameClock(s.db, t', claimed, published);
    FiredStaysBefore(s.log, s.db, t');
    KeysStayFired(s.log, s.db.jobs, t'.jobs);
    FiredStaysKept(s.log, s.db, t', claimed, published);
    if log' != s.log {
      var e: Event :| !e.Fired? && log' == s.log + [e];
      OtherEvent(s.log, e, t');
    }
  }

  lemma {:induction false} LaterStaysOnSchedule(s: System, elapsed: nat)
    requires OnSchedule(s)
    ensures OnSchedule(s.(db := Later(s.db, elapsed)))
  {
    hide FiredInOrder, KeysFired, FiredKept;
  }

  lemma {:induction false} WorkStaysOnSchedule(s: System, w: Worker, a: WorkerAction)
    requires OnSchedule(s) && Safe(s) && Enabled(s, w, a)
    ensures OnSchedule(ActWorker(s, w, a))
  {
    hide Safe, Sound, ClaimsFit, Fenced, Evolves, Enabled, JobsStay, TimesMove, NoNewKey, FiredBefore, FiredInOrder,
         KeysFired, FiredKept, EnqueueDueConnector, Take, Heartbeat, SetConnectorRunBytes, CompletePublish,
         CompleteImport, CancelClaimed, Retry, Fail, FromManifest;
    var s' := ActWorker(s, w, a);
    if a.Enqueue? && EnqueueDueConnector(s.db, a.connector).1.Enqueued? {
      EnqueueStaysOnSchedule(s, w, a.connector);
    } else {
      SafeParts(s);
      WorkStaysSafe(s, w, a);
      SafeParts(s');
      WorkEvolves(s, w, a);
      WorkJobsStay(s, w, a);
      if a.Enqueue? {
        EnqueueMovesTimes(s.db, a.connector);
        EnqueueRows(s.db, a.connector);
        SameKeys(s.db.jobs);
      } else {
        SameTimes(s.db.connectors, s.db.nextId, s.db.now);
        WorkLeavesSchedule(s, w, a);
      }
      if s'.log != s.log { assert s'.log == s.log + [s'.log[|s.log|]]; }
      QuietStaysOnSchedule(s, s'.db, s'.log, ClaimedBy(a), PublishedBy(s, w, a));
    }
  }

  lemma {:induction false} UserStaysOnSchedule(s: System, tenant: Id, a: UserAction)
    requires OnSchedule(s) && Safe(s)
    ensures OnSchedule(s.(db := ActUser(s.db, tenant, a), log := s.log + Said(s.db, tenant, a)))
  {
    hide Safe, Sound, ClaimsFit, Fenced, Evolves, ActUser, Said, JobsStay, TimesMove, NoNewKey, FiredBefore, FiredInOrder,
         KeysFired, FiredKept;
    var t' := ActUser(s.db, tenant, a);
    SafeParts(s);
    UserStaysSafe(s, tenant, a);
    SafeParts(s.(db := t'));
    UserEvolves(s.db, tenant, a);
    UserJobsStay(s.db, tenant, a);
    UserMakesNoKey(s.db, tenant, a);
    if TouchesConnectors(a) { UserMovesTimes(s.db, tenant, a); }
    else {
      UserLeavesConnectors(s.db, tenant, a);
      SameTimes(s.db.connectors, s.db.nextId, s.db.now);
    }
    SaidIsShort(s.db, tenant, a);
    var log' := s.log + Said(s.db, tenant, a);
    if Said(s.db, tenant, a) == [] { assert log' == s.log; } else { assert log' == s.log + [Said(s.db, tenant, a)[0]]; }
    QuietStaysOnSchedule(s, t', log', None, None);
  }

  lemma {:induction false} StepStaysOnSchedule(s: System, step: Step)
    requires Safe(s) && OnSchedule(s)
    ensures OnSchedule(Apply(s, step))
  {
    hide Safe, OnSchedule, ActUser, ActWorker, Enabled, Said;
    var s1 := s.(db := Later(s.db, step.elapsed));
    LaterStaysSafe(s, step.elapsed);
    LaterStaysOnSchedule(s, step.elapsed);
    match step
    case User(_, tenant, a) => UserStaysOnSchedule(s1, tenant, a);
    case Work(_, w, a) => if Enabled(s1, w, a) { WorkStaysOnSchedule(s1, w, a); }
  }

  lemma {:induction false} RunStaysOnSchedule(s: System, steps: seq<Step>)
    requires Safe(s) && OnSchedule(s)
    ensures OnSchedule(Exec(s, steps))
    decreases |steps|
  {
    hide Safe, Apply, OnSchedule;
    if steps != [] {
      StepStaysSafe(s, steps[0]);
      StepStaysOnSchedule(s, steps[0]);
      RunStaysOnSchedule(Apply(s, steps[0]), steps[1..]);
    }
  }

  lemma {:induction false} ReachableIsOnSchedule(steps: seq<Step>)
    ensures Safe(Exec(INITIAL, steps)) && OnSchedule(Exec(INITIAL, steps))
  {
    hide Safe, Exec;
    InitialIsSafe();
    ReachableIsSafe(steps);
    RunStaysOnSchedule(INITIAL, steps);
  }

  /** The scheduled keys of a connector go strictly up, in every run. */
  lemma {:induction false} ScheduledKeysGoUp(steps: seq<Step>, i: nat, j: nat)
    requires var log := Exec(INITIAL, steps).log;
             i < j < |log| && log[i].Fired? && log[j].Fired? && log[i].connector == log[j].connector
    ensures var log := Exec(INITIAL, steps).log; log[i].at < log[j].at
  {
    hide Safe, Exec, FiredBefore, KeysFired, FiredKept;
    ReachableIsOnSchedule(steps);
  }
}
