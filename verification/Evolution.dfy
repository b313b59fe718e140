/** How one transaction may change a row that exists before it, and what rows it may add. */
module Evolution {
  import opened Wrappers
  import opened Manifests
  import opened Schema
  import opened Transitions
  import opened Consistency
  import opened JobsStaySound
  import opened RowsStaySound
  import opened QueriesStaySound
  import opened SoundRuns
  import opened Protocol

  /** RetryConnectorJob's own conditions. */
  predicate MayRequeue(a: Job) { a.status.Running? && a.kind.ConnectorSync? && a.attempts < 3 }

  /**
   Identity fixed, attempts and the cancellation mark never go back, only a marked job is cancelled, only a
   connector job in its first two attempts goes back to the queue, a finished row never changes.
  */
  predicate JobEvolves(a: Job, b: Job)
  {
    && SameJob(a, b)
    && a.attempts <= b.attempts
    && (a.cancelRequested ==> b.cancelRequested)
    && (b.status.Cancelled? ==> b.cancelRequested || a.status.Cancelled?)
    && (b.status.AwaitingUpload? ==> a.status.AwaitingUpload?)
    && (b.status.Queued? ==> a.status.Queued? || a.status.AwaitingUpload? || MayRequeue(a))
    && (!a.status.Active() ==> b == a)
  }

  /** Evolves without being claimed: same attempts, and a lease only if the same worker already had it. */
  predicate Unclaimed(a: Job, b: Job)
  {
    && a.attempts == b.attempts
    && (b.status.Running? ==> a.status.Running?)
    && (b.lease.Some? ==> a.lease.Some? && a.lease.value.holder == b.lease.value.holder)
  }

  predicate Claimed(a: Job, b: Job)
  {
    b.attempts == a.attempts + 1 && b.status.Running? && (a.status.Queued? || a.status.Running?)
  }

  predicate FreshJob(job: Job)
  {
    job.attempts == 0 && job.lease.None? && !job.cancelRequested && (job.status.AwaitingUpload? || job.status.Queued?)
  }

  ghost predicate JobsEvolve(jobs: map<Id, Job>, jobs': map<Id, Job>, next: Id, claimed: Option<Id>)
  {
    forall id :: id in jobs' ==>
      if id in jobs then JobEvolves(jobs[id], jobs'[id])
                         && (if claimed == Some(id) then Claimed(jobs[id], jobs'[id]) else Unclaimed(jobs[id], jobs'[id]))
      else id >= next && FreshJob(jobs'[id])
  }

  predicate RunEvolves(a: SyncRun, b: SyncRun)
  {
    && a.tenant == b.tenant && a.dataset == b.dataset && a.format == b.format
    && (a.status.Succeeded? ==> b == a.(connector := b.connector))
  }

  ghost predicate RunsEvolve(runs: map<Id, SyncRun>, runs': map<Id, SyncRun>, datasets': map<Id, Dataset>, next: Id)
  {
    && (forall r :: r in runs && runs[r].dataset in datasets' ==> r in runs')
    && (forall r :: r in runs' ==> if r in runs then RunEvolves(runs[r], runs'[r]) else r >= next)
  }

  /** Only the named dataset may show something new. */
  ghost predicate DatasetsEvolve(datasets: map<Id, Dataset>, datasets': map<Id, Dataset>, next: Id, published: Option<Id>)
  {
    forall d :: d in datasets' ==>
      if d in datasets
      then datasets'[d].tenant == datasets[d].tenant && datasets'[d].slug == datasets[d].slug
           && (published == Some(d) || datasets'[d].current == datasets[d].current)
      else d >= next && datasets'[d].current.None?
  }

  predicate DeploymentEvolves(a: Deployment, b: Deployment)
  {
    b == a.(status := b.status) && (a.status.Succeeded? ==> b.status.Succeeded?)
  }

  ghost predicate DeploymentsEvolve(deployments: map<Id, Deployment>, deployments': map<Id, Deployment>, apps': map<Id, App>, next: Id)
  {
    && (forall d :: d in deployments && deployments[d].app in apps' ==> d in deployments')
    && (forall d :: d in deployments' ==>
          if d in deployments then DeploymentEvolves(deployments[d], deployments'[d])
          else d >= next && deployments'[d].status.AwaitingUpload?)
  }

  ghost predicate Evolves(t: Tables, t': Tables, claimed: Option<Id>, published: Option<Id>)
  {
    && t.nextId <= t'.nextId && t'.now == t.now
    && JobsEvolve(t.jobs, t'.jobs, t.nextId, claimed)
    && RunsEvolve(t.runs, t'.runs, t'.datasets, t.nextId)
    && DatasetsEvolve(t.datasets, t'.datasets, t.nextId, published)
    && DeploymentsEvolve(t.deployments, t'.deployments, t'.apps, t.nextId)
  }

  lemma {:induction false} EvolvesRefl(t: Tables)
    ensures Evolves(t, t, None, None)
  {
  }

  lemma {:induction false} PartsRefl(t: Tables)
    ensures JobsEvolve(t.jobs, t.jobs, t.nextId, None)
    ensures forall datasets' :: RunsEvolve(t.runs, t.runs, datasets', t.nextId)
    ensures DatasetsEvolve(t.datasets, t.datasets, t.nextId, None)
    ensures forall apps' :: DeploymentsEvolve(t.deployments, t.deployments, apps', t.nextId)
  {
  }

  lemma {:induction false} MoveEvolves(t: Tables, id: Id, job: Job, claimed: Option<Id>)
    requires Sound(t) && Movable(t.jobs, id, job) && t.jobs[id].status.Active()
    requires JobEvolves(t.jobs[id], job)
    requires if claimed.Some? then claimed == Some(id) && Claimed(t.jobs[id], job) else Unclaimed(t.jobs[id], job)
    ensures Evolves(t, Move(t, id, job), claimed, None)
  {
    hide Sound;
    RowFacts(t, id);
  }

  lemma {:induction false} TouchEvolves(t: Tables, id: Id, job: Job)
    requires Sound(t) && Movable(t.jobs, id, job) && t.jobs[id].status.Active()
    requires JobEvolves(t.jobs[id], job) && Unclaimed(t.jobs[id], job)
    ensures Evolves(t, t.(jobs := t.jobs[id := job]), None, None)
  {
    hide Sound;
  }

  lemma {:induction false} QueueEvolves(t: Tables, publish: bool, target: Id)
    requires Sound(t)
    requires if publish then target in t.deployments && t.deployments[target].status.AwaitingUpload?
             else target in t.runs && t.runs[target].status.AwaitingUpload?
    ensures Evolves(t, Queue(t, publish, target), None, None)
  {
    hide Sound, FindJobFor, Evolves;
    FoundJobFor(t.jobs, publish, target);
    EvolvesRefl(t);
    var found := FindJobFor(t.jobs, publish, target);
    if found.Some? {
      RowFacts(t, found.value);
      MoveEvolves(t, found.value, t.jobs[found.value].(status := Queued, availableAt := t.now), None);
    }
  }

  lemma {:induction false} TakeEvolves(t: Tables, id: Id, worker: Worker, lease: Time, kind: Kind)
    requires Sound(t) && Claimable(t.jobs, t.now, kind, id)
    ensures Evolves(t, Take(t, id, worker, lease), Some(id), None)
  {
    hide Sound, Evolves;
    RowFacts(t, id);
    MoveEvolves(t, id, t.jobs[id].(status := Running, lease := Some(Lease(worker, t.now + lease)),
                                   attempts := t.jobs[id].attempts + 1), Some(id));
  }

  lemma {:induction false} EndEvolves(t: Tables, c: Claim, lease: Time, delay: Time)
    requires Sound(t)
    ensures Evolves(t, Heartbeat(t, c, lease), None, None)
    ensures Evolves(t, Fail(t, c), None, None)
    ensures CancelRequested(t, c) || !Holds(t.jobs, c) ==> Evolves(t, CancelClaimed(t, c), None, None)
    ensures MayRetry(t, c) && t.jobs[c.job].kind.ConnectorSync? ==> Evolves(t, Retry(t, c, delay), None, None)
  {
    hide Sound, Evolves;
    EvolvesRefl(t);
    if Holds(t.jobs, c) {
      var job := t.jobs[c.job];
      RowFacts(t, c.job);
      TouchEvolves(t, c.job, job.(lease := Some(Lease(c.worker, t.now + lease))));
      MoveEvolves(t, c.job, job.(status := Failed, lease := None), None);
      if job.cancelRequested { MoveEvolves(t, c.job, job.(status := Cancelled, lease := None), None); }
      if MayRequeue(job) { MoveEvolves(t, c.job, job.(status := Queued, lease := None, availableAt := t.now + delay), None); }
    }
  }

  lemma {:induction false} CancelJobEvolves(t: Tables, tenant: Id, id: Id)
    requires Sound(t)
    ensures Evolves(t, CancelJob(t, tenant, id).0, None, None)
  {
    hide Sound, Evolves;
    EvolvesRefl(t);
    if id in t.jobs && t.jobs[id].tenant == tenant && t.jobs[id].status.Active() {
      RowFacts(t, id);
      if t.jobs[id].status.Running? {
        TouchEvolves(t, id, t.jobs[id].(cancelRequested := true));
      } else {
        MoveEvolves(t, id, t.jobs[id].(status := Cancelled, cancelRequested := true), None);
      }
    }
  }

  lemma {:induction false} CompleteImportEvolves(t: Tables, c: Claim, result: ImportResult)
    requires Sound(t) && ImportCompletes(t, c)
    ensures Evolves(t, CompleteImport(t, c, result), None, Some(t.runs[t.jobs[c.job].target].dataset))
  {
    hide Sound;
    RowFacts(t, c.job);
  }

  lemma {:induction false} SetConnectorRunBytesEvolves(t: Tables, c: Claim, bytes: int)
    requires Sound(t) && ClaimFits(t, c) && ForRun(c.kind)
    ensures Evolves(t, SetConnectorRunBytes(t, c, bytes).0, None, None)
  {
    hide Sound, StoredBytes, JobsEvolve, RunsEvolve, DatasetsEvolve, DeploymentsEvolve;
    PartsRefl(t);
    if c.job in t.jobs { RowFacts(t, c.job); }
    if SetConnectorRunBytes(t, c, bytes).0 != t { RunRowEvolves(t.runs, c.target, t.runs[c.target].(bytes := bytes), t.datasets, t.nextId); }
  }

  // ---------- adding and rewriting rows

  lemma {:induction false} AddJobEvolves(jobs: map<Id, Job>, next: Id, id: Id, job: Job)
    requires id !in jobs && id >= next && FreshJob(job)
    ensures JobsEvolve(jobs, jobs[id := job], next, None)
  {
  }

  lemma {:induction false} JobRowEvolves(jobs: map<Id, Job>, next: Id, id: Id, job: Job)
    requires id in jobs && JobEvolves(jobs[id], job) && Unclaimed(jobs[id], job)
    ensures JobsEvolve(jobs, jobs[id := job], next, None)
  {
  }

  lemma {:induction false} RunRowEvolves(runs: map<Id, SyncRun>, r: Id, run: SyncRun, datasets': map<Id, Dataset>, next: Id)
    requires if r in runs then RunEvolves(runs[r], run) else r >= next
    ensures RunsEvolve(runs, runs[r := run], datasets', next)
  {
  }

  lemma {:induction false} ForgetEvolves(runs: map<Id, SyncRun>, gone: set<Id>, datasets': map<Id, Dataset>, next: Id)
    ensures RunsEvolve(runs, ForgetConnectors(runs, gone), datasets', next)
  {
  }

  lemma {:induction false} AddDatasetEvolves(datasets: map<Id, Dataset>, next: Id, d: Id, row: Dataset)
    requires d !in datasets && d >= next && row.current.None?
    ensures DatasetsEvolve(datasets, datasets[d := row], next, None)
  {
  }

  lemma {:induction false} AddDeploymentEvolves(deployments: map<Id, Deployment>, next: Id, d: Id, row: Deployment, apps': map<Id, App>)
    requires d !in deployments && d >= next && row.status.AwaitingUpload?
    ensures DeploymentsEvolve(deployments, deployments[d := row], apps', next)
  {
  }

  lemma {:induction false} DeploymentRowEvolves(deployments: map<Id, Deployment>, next: Id, job: Job, apps': map<Id, App>)
    requires job.status.Succeeded?
    ensures DeploymentsEvolve(deployments, WithDeploymentStatus(deployments, job), apps', next)
  {
  }

  lemma {:induction false} CreateDatasetUploadEvolves(t: Tables, tenant: Id, slug: string, format: Format, bytes: int, key: Key)
    requires Sound(t)
    ensures Evolves(t, CreateDatasetUpload(t, tenant, slug, format, bytes, key).0, None, None)
  {
    hide Sound, FindJob, FindDataset, QuotaAllows, JobsEvolve, RunsEvolve, DatasetsEvolve, DeploymentsEvolve;
    PartsRefl(t);
    var t' := CreateDatasetUpload(t, tenant, slug, format, bytes, key).0;
    if t' != t {
      var id, r := t.nextId + 2, t.nextId + 1;
      Unused(t, t.nextId);
      Unused(t, r);
      Unused(t, id);
      AddJobEvolves(t.jobs, t.nextId, id, t'.jobs[id]);
      RunRowEvolves(t.runs, r, t'.runs[r], t'.datasets, t.nextId);
      AddDatasetEvolves(t.datasets, t.nextId, t.nextId, Dataset(tenant, slug, None));
    }
  }

  lemma {:induction false} CreateConnectorEvolves(t: Tables, tenant: Id, slug: string, datasetSlug: string, enabled: bool, refreshMinutes: int)
    requires Sound(t)
    ensures Evolves(t, CreateConnector(t, tenant, slug, datasetSlug, enabled, refreshMinutes).0, None, None)
  {
    hide Sound, FindDataset;
    Unused(t, t.nextId);
    EvolvesRefl(t);
  }

  lemma {:induction false} UpdateConnectorEvolves(t: Tables, tenant: Id, slug: string, enabled: bool, refreshMinutes: int)
    ensures Evolves(t, UpdateConnector(t, tenant, slug, enabled, refreshMinutes).0, None, None)
  {
    hide FindConnector, JobsEvolve, RunsEvolve, DatasetsEvolve, DeploymentsEvolve;
    PartsRefl(t);
  }

  lemma {:induction false} DeleteConnectorEvolves(t: Tables, tenant: Id, slug: string)
    ensures Evolves(t, DeleteConnector(t, tenant, slug).0, None, None)
  {
    hide FindConnector, ForgetConnectors, JobsEvolve, RunsEvolve, DatasetsEvolve, DeploymentsEvolve;
    PartsRefl(t);
    var found := FindConnector(t.connectors, tenant, slug);
    if found.Some? { ForgetEvolves(t.runs, {found.value}, t.datasets, t.nextId); }
  }

  lemma {:induction false} CreateConnectorJobEvolves(t: Tables, tenant: Id, connector: Id, key: Key)
    requires Sound(t)
    ensures Evolves(t, CreateConnectorJob(t, tenant, connector, key).0, None, None)
  {
    hide Sound, FindJob, QueueFull, JobsEvolve, RunsEvolve, DatasetsEvolve, DeploymentsEvolve;
    PartsRefl(t);
    var t' := CreateConnectorJob(t, tenant, connector, key).0;
    if t' != t {
      var id, r := t.nextId + 1, t.nextId;
      Unused(t, r);
      Unused(t, id);
      AddJobEvolves(t.jobs, t.nextId, id, t'.jobs[id]);
      RunRowEvolves(t.runs, r, t'.runs[r], t.datasets, t.nextId);
    }
  }

  lemma {:induction false} EnqueueDueConnectorEvolves(t: Tables, id: Id)
    requires Sound(t)
    ensures Evolves(t, EnqueueDueConnector(t, id).0, None, None)
  {
    hide Sound, CreateConnectorJob, QueueFull, JobsEvolve, RunsEvolve, DatasetsEvolve, DeploymentsEvolve;
    EvolvesRefl(t);
    if Due(t, id) { CreateConnectorJobEvolves(t, t.connectors[id].tenant, id, Scheduled(id, t.connectors[id].nextSyncAt)); }
  }

  lemma {:induction false} CreateDeploymentEvolves(t: Tables, tenant: Id, m: Manifest, checksum: Checksum, bytes: int, key: Key)
    requires Sound(t)
    ensures Evolves(t, CreateDeployment(t, tenant, m, checksum, bytes, key).0, None, None)
  {
    hide Sound, FindJob, FindApp, QuotaAllows, DeploymentSlots, JobsEvolve, RunsEvolve, DatasetsEvolve,
         DeploymentsEvolve;
    PartsRefl(t);
    var t' := CreateDeployment(t, tenant, m, checksum, bytes, key).0;
    if t' != t {
      var id, d := t.nextId + 2, t.nextId + 1;
      Unused(t, d);
      Unused(t, id);
      AddJobEvolves(t.jobs, t.nextId, id, t'.jobs[id]);
      AddDeploymentEvolves(t.deployments, t.nextId, d, t'.deployments[d], t'.apps);
    }
  }

  // ---------- publishing, rolling back, saved queries

  lemma {:induction false} PromoteEvolves(t: Tables, id: Id)
    requires id in t.jobs && t.jobs[id].target in t.deployments && t.jobs[id].kind.AppPublish? && t.jobs[id].status.Active()
    ensures Evolves(t, Promote(t, id), None, None)
  {
    hide JobsEvolve, RunsEvolve, DatasetsEvolve, DeploymentsEvolve;
    PartsRefl(t);
    var done := t.jobs[id].(status := Succeeded, lease := None);
    JobRowEvolves(t.jobs, t.nextId, id, done);
    DeploymentRowEvolves(t.deployments, t.nextId, done, Promote(t, id).apps);
  }

  lemma {:induction false} CompletePublishEvolves(t: Tables, c: Claim, queries: seq<PublishedQuery>)
    requires Sound(t) && DistinctNames(queries)
    ensures Evolves(t, CompletePublish(t, c, queries).0, None, None)
  {
    hide Sound, GrantAll, RowsGrow, Unnamed, SoundWhileGranting, JobsEvolve, RunsEvolve, DatasetsEvolve,
         DeploymentsEvolve, Promote;
    EvolvesRefl(t);
    if PublishCompletes(t, c) {
      var d := t.jobs[c.job].target;
      SoundIsSoundWhileGranting(t);
      RowFacts(t, c.job);
      forall q | q in queries ensures Unnamed(t, d, q.name) { SettledIsUnnamed(t, d, q.name); }
      GrantAllKeeps(t, c.tenant, d, queries);
      var granted := GrantAll(t, c.tenant, d, queries);
      if granted.Some? {
        PromoteEvolves(granted.value, c.job);
        GrantedEvolves(t, granted.value, Promote(granted.value, c.job));
      }
    }
  }

  /** Granting touches no table that Evolves speaks of. */
  lemma {:induction false} GrantedEvolves(t: Tables, t1: Tables, t2: Tables)
    requires t1 == t.(grants := t1.grants, queries := t1.queries, revisions := t1.revisions, nextId := t1.nextId) && t.nextId <= t1.nextId
    requires Evolves(t1, t2, None, None)
    ensures Evolves(t, t2, None, None)
  {
  }

  lemma {:induction false} RollbackEvolves(t: Tables, tenant: Id, d: Id)
    ensures Evolves(t, Rollback(t, tenant, d).0, None, None)
  {
    hide JobsEvolve, RunsEvolve, DatasetsEvolve;
    EvolvesRefl(t);
  }

  lemma {:induction false} SaveQueryRevisionEvolves(t: Tables, tenant: Id, slug: string, sql: string, types: ParameterTypes)
    ensures Evolves(t, SaveQueryRevision(t, tenant, slug, sql, types).0, None, None)
  {
    hide FindQuery, RevisionSlots, JobsEvolve, RunsEvolve, DatasetsEvolve, DeploymentsEvolve;
    EvolvesRefl(t);
    PartsRefl(t);
  }

  lemma {:induction false} DeleteQueryEvolves(t: Tables, tenant: Id, slug: string)
    ensures Evolves(t, DeleteQuery(t, tenant, slug).0, None, None)
  {
    hide FindQuery, QueryInUse, JobsEvolve, RunsEvolve, DatasetsEvolve, DeploymentsEvolve;
    EvolvesRefl(t);
    PartsRefl(t);
  }

  // ---------- deleting

  lemma {:induction false} RemoveDatasetEvolves(t: Tables, d: Id)
    ensures Evolves(t, RemoveDataset(t, d), None, None)
  {
  }

  lemma {:induction false} DeleteDatasetEvolves(t: Tables, tenant: Id, slug: string, dropped: bool)
    ensures Evolves(t, DeleteDataset(t, tenant, slug, dropped).0, None, None)
  {
    hide FindDataset, RemoveDataset, DatasetBusy, Evolves;
    EvolvesRefl(t);
    var found := FindDataset(t.datasets, tenant, slug);
    if found.Some? { RemoveDatasetEvolves(t, found.value); }
  }

  lemma {:induction false} RemoveAppEvolves(t: Tables, app: Id)
    ensures Evolves(t, RemoveApp(t, app), None, None)
  {
  }

  lemma {:induction false} DeleteAppEvolves(t: Tables, tenant: Id, slug: string)
    ensures Evolves(t, DeleteApp(t, tenant, slug).0, None, None)
  {
    hide FindApp, RemoveApp, AppBusy, Evolves;
    EvolvesRefl(t);
    var found := FindApp(t.apps, tenant, slug);
    if found.Some? { RemoveAppEvolves(t, found.value); }
  }

  // ---------- fencing

  /** The lease is this worker's only under its latest claim, and it cancels only what was asked to be cancelled. */
  ghost predicate FencedRow(job: Job, me: WorkerState)
    requires me.Busy?
  {
    && me.claim.attempt <= job.attempts
    && (job.lease.Some? && job.lease.value.holder == me.claim.worker ==> job.attempts == me.claim.attempt)
    && (me.phase.Cancelling? || me.beat.SawCancel? ==> job.cancelRequested)
  }

  ghost predicate Fenced(s: System)
  {
    forall w :: At(s, w).Busy? && At(s, w).claim.job in s.db.jobs ==> FencedRow(s.db.jobs[At(s, w).claim.job], At(s, w))
  }

  // ---------- steps of the protocol

  lemma {:induction false} UserEvolves(t: Tables, tenant: Id, a: UserAction)
    requires Sound(t)
    ensures Evolves(t, ActUser(t, tenant, a), None, None)
  {
    hide Sound, Evolves, CreateDatasetUpload, Queue, CreateConnector, UpdateConnector, DeleteConnector,
         CreateConnectorJob, CancelJob, CreateDeployment, Rollback, SaveQueryRevision, DeleteQuery, DeleteDataset,
         DeleteApp;
    EvolvesRefl(t);
    match a
    case CreateUpload(slug, format, bytes, key) => CreateDatasetUploadEvolves(t, tenant, slug, format, bytes, key);
    case FinishUpload(run) =>
      if run in t.runs && t.runs[run].tenant == tenant && t.runs[run].status.AwaitingUpload? { QueueEvolves(t, false, run); }
    case NewConnector(slug, dataset, enabled, refreshMinutes) => CreateConnectorEvolves(t, tenant, slug, dataset, enabled, refreshMinutes);
    case EditConnector(slug, enabled, refreshMinutes) => UpdateConnectorEvolves(t, tenant, slug, enabled, refreshMinutes);
    case DropConnector(slug) => DeleteConnectorEvolves(t, tenant, slug);
    case SyncNow(connector, request) => CreateConnectorJobEvolves(t, tenant, connector, Manual(request));
    case Cancel(job) => CancelJobEvolves(t, tenant, job);
    case CreateRelease(manifest, checksum, bytes, key) => CreateDeploymentEvolves(t, tenant, manifest, checksum, bytes, key);
    case FinishRelease(d) =>
      if d in t.deployments && t.deployments[d].tenant == tenant && t.deployments[d].status.AwaitingUpload? { QueueEvolves(t, true, d); }
    case RollBack(deployment) => RollbackEvolves(t, tenant, deployment);
    case SaveQuery(slug, sql, types) => SaveQueryRevisionEvolves(t, tenant, slug, sql, types);
    case DropQuery(slug) => DeleteQueryEvolves(t, tenant, slug);
    case DropDataset(slug, dropped) => DeleteDatasetEvolves(t, tenant, slug, dropped);
    case DropApp(slug) => DeleteAppEvolves(t, tenant, slug);
  }

  /** The job a step claims. */
  function ClaimedBy(a: WorkerAction): Option<Id>
  {
    if a.ClaimJob? then Some(a.id) else None
  }

  /** The dataset a step publishes to. */
  function PublishedBy(s: System, w: Worker, a: WorkerAction): Option<Id>
    requires Enabled(s, w, a)
  {
    if a.PublishSnapshot? && ImportCompletes(s.db, At(s, w).claim)
    then Some(s.db.runs[s.db.jobs[At(s, w).claim.job].target].dataset) else None
  }

  lemma {:induction false} WorkEvolves(s: System, w: Worker, a: WorkerAction)
    requires Sound(s.db) && ClaimsFit(s) && Fenced(s) && Enabled(s, w, a)
    ensures Evolves(s.db, ActWorker(s, w, a).db, ClaimedBy(a), PublishedBy(s, w, a))
  {
    hide Sound, Evolves, EnqueueDueConnector, Take, Heartbeat, SetConnectorRunBytes, CompletePublish, CancelClaimed,
         Retry, Fail, FromManifest;
    var t := s.db;
    var me := At(s, w);
    EvolvesRefl(t);
    match a
    case Enqueue(connector) => EnqueueDueConnectorEvolves(t, connector);
    case ClaimJob(kind, id, lease) => TakeEvolves(t, id, w, lease, kind);
    case RenewBeat(lease, broken) => EndEvolves(t, me.claim, lease, 0);
    case SetBytes(bytes) => SetConnectorRunBytesEvolves(t, me.claim, bytes);
    case PublishSnapshot(result, _) => if ImportCompletes(t, me.claim) { CompleteImportEvolves(t, me.claim, result); }
    case PublishRelease(queries, _) =>
      if PublishCompletes(t, me.claim) {
        ManifestNamesDistinct(t.deployments[me.claim.target].manifest, queries);
        CompletePublishEvolves(t, me.claim, queries);
      } else {
        CompletePublishRefused(t, me.claim, queries);
      }
    case CancelMine => EndEvolves(t, me.claim, 0, 0);
    case RetryMine(delay) => EndEvolves(t, me.claim, 0, delay);
    case FailMine => EndEvolves(t, me.claim, 0, 0);
    case _ =>
  }
}
