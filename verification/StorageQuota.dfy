/** The stored bytes of a tenant never exceed its quota. */
module StorageQuota {
  import opened Wrappers
  import opened Manifests
  import opened Schema
  import opened Transitions
  import opened Consistency
  import opened JobsStaySound
  import opened RowsStaySound
  import opened Protocol
  import opened Safety
  import opened Guarantees
  import opened Totals

  ghost predicate TenantWithin(runs: map<Id, SyncRun>, deployments: map<Id, Deployment>, tenant: Id)
  {
    StoredBytes(runs, deployments, tenant, None) <= MAX_TENANT_STORED_BYTES
  }

  ghost predicate Within(runs: map<Id, SyncRun>, deployments: map<Id, Deployment>)
  {
    forall tenant: Id :: TenantWithin(runs, deployments, tenant)
  }

  /** Rows only disappear or change in columns the quota does not read. */
  ghost predicate NoNewBytes(runs: map<Id, SyncRun>, runs': map<Id, SyncRun>, deployments: map<Id, Deployment>, deployments': map<Id, Deployment>)
  {
    && (forall r :: r in runs' ==> r in runs && runs'[r].tenant == runs[r].tenant && runs'[r].bytes == runs[r].bytes)
    && (forall d :: d in deployments' ==> d in deployments && deployments'[d].tenant == deployments[d].tenant
                                          && deployments'[d].bytes == deployments[d].bytes)
  }

  lemma {:induction false} NoNewBytesKeeps(runs: map<Id, SyncRun>, runs': map<Id, SyncRun>, deployments: map<Id, Deployment>, deployments': map<Id, Deployment>)
    requires Within(runs, deployments) && NoNewBytes(runs, runs', deployments, deployments')
    ensures Within(runs', deployments')
  {
    forall tenant: Id ensures TenantWithin(runs', deployments', tenant) {
      TotalMonotone(RunWeights(runs', tenant, None), RunWeights(runs, tenant, None));
      TotalMonotone(DeploymentWeights(deployments', tenant), DeploymentWeights(deployments, tenant));
      assert TenantWithin(runs, deployments, tenant);
    }
  }

  lemma {:induction false} AddRunWithin(runs: map<Id, SyncRun>, deployments: map<Id, Deployment>, r: Id, run: SyncRun)
    requires Within(runs, deployments) && r !in runs
    requires StoredBytes(runs, deployments, run.tenant, None) <= MAX_TENANT_STORED_BYTES - run.bytes
    ensures Within(runs[r := run], deployments)
  {
    var runs' := runs[r := run];
    forall tenant: Id ensures TenantWithin(runs', deployments, tenant) {
      assert TenantWithin(runs, deployments, tenant);
      var weights, weights' := RunWeights(runs, tenant, None), RunWeights(runs[r := run], tenant, None);
      if run.tenant == tenant {
        assert weights' == weights[r := run.bytes];
        TotalInsert(weights, r, run.bytes);
      } else {
        assert weights' == weights;
      }
    }
  }

  lemma {:induction false} AddDeploymentWithin(runs: map<Id, SyncRun>, deployments: map<Id, Deployment>, d: Id, row: Deployment)
    requires Within(runs, deployments) && d !in deployments
    requires StoredBytes(runs, deployments, row.tenant, None) <= MAX_TENANT_STORED_BYTES - row.bytes
    ensures Within(runs, deployments[d := row])
  {
    var deployments' := deployments[d := row];
    forall tenant: Id ensures TenantWithin(runs, deployments', tenant) {
      assert TenantWithin(runs, deployments, tenant);
      var weights, weights' := DeploymentWeights(deployments, tenant), DeploymentWeights(deployments[d := row], tenant);
      if row.tenant == tenant {
        assert weights' == weights[d := row.bytes];
        TotalInsert(weights, d, row.bytes);
      } else {
        assert weights' == weights;
      }
    }
  }

  lemma {:induction false} SetBytesWithin(runs: map<Id, SyncRun>, deployments: map<Id, Deployment>, r: Id, bytes: nat)
    requires Within(runs, deployments) && r in runs
    requires StoredBytes(runs, deployments, runs[r].tenant, Some(r)) <= MAX_TENANT_STORED_BYTES - bytes
    ensures Within(runs[r := runs[r].(bytes := bytes)], deployments)
  {
    var runs' := runs[r := runs[r].(bytes := bytes)];
    forall tenant: Id ensures TenantWithin(runs', deployments, tenant) {
      assert TenantWithin(runs, deployments, tenant);
      var weights' := RunWeights(runs', tenant, None);
      if runs[r].tenant == tenant {
        TotalRemove(weights', r);
        assert weights' - {r} == RunWeights(runs, tenant, Some(r));
      } else {
        assert weights' == RunWeights(runs, tenant, None);
      }
    }
  }

  // ---------- transactions

  lemma {:induction false} UploadWithin(t: Tables, tenant: Id, slug: string, format: Format, bytes: int, key: Key)
    requires Sound(t) && Within(t.runs, t.deployments)
    ensures var t' := CreateDatasetUpload(t, tenant, slug, format, bytes, key).0; Within(t'.runs, t'.deployments)
  {
    hide Sound, FindJob, FindDataset, Within, StoredBytes;
    var t' := CreateDatasetUpload(t, tenant, slug, format, bytes, key).0;
    if t' != t {
      Unused(t, t.nextId + 1);
      AddRunWithin(t.runs, t.deployments, t.nextId + 1, t'.runs[t.nextId + 1]);
    }
  }

  lemma {:induction false} ReleaseWithin(t: Tables, tenant: Id, m: Manifest, checksum: Checksum, bytes: int, key: Key)
    requires Sound(t) && Within(t.runs, t.deployments)
    ensures var t' := CreateDeployment(t, tenant, m, checksum, bytes, key).0; Within(t'.runs, t'.deployments)
  {
    hide Sound, FindJob, FindApp, Within, StoredBytes, DeploymentSlots;
    var t' := CreateDeployment(t, tenant, m, checksum, bytes, key).0;
    if t' != t {
      Unused(t, t.nextId + 1);
      AddDeploymentWithin(t.runs, t.deployments, t.nextId + 1, t'.deployments[t.nextId + 1]);
    }
  }

  lemma {:induction false} ConnectorJobWithin(t: Tables, tenant: Id, connector: Id, key: Key)
    requires Sound(t) && Within(t.runs, t.deployments)
    ensures var t' := CreateConnectorJob(t, tenant, connector, key).0; Within(t'.runs, t'.deployments)
  {
    hide Sound, FindJob, QueueFull, StoredBytes;
    var t' := CreateConnectorJob(t, tenant, connector, key).0;
    if t' != t {
      Unused(t, t.nextId);
      assert TenantWithin(t.runs, t.deployments, tenant);
      AddRunWithin(t.runs, t.deployments, t.nextId, t'.runs[t.nextId]);
    }
  }

  lemma {:induction false} EnqueueWithin(t: Tables, id: Id)
    requires Sound(t) && Within(t.runs, t.deployments)
    ensures var t' := EnqueueDueConnector(t, id).0; Within(t'.runs, t'.deployments)
  {
    hide Sound, CreateConnectorJob, QueueFull, Within;
    if Due(t, id) { ConnectorJobWithin(t, t.connectors[id].tenant, id, Scheduled(id, t.connectors[id].nextSyncAt)); }
  }

  lemma {:induction false} SetConnectorRunBytesWithin(t: Tables, c: Claim, bytes: int)
    requires Within(t.runs, t.deployments)
    ensures var t' := SetConnectorRunBytes(t, c, bytes).0; Within(t'.runs, t'.deployments)
  {
    hide Within, StoredBytes;
    if SetConnectorRunBytes(t, c, bytes).1.Ok? { SetBytesWithin(t.runs, t.deployments, c.target, bytes); }
  }

  lemma {:induction false} MoveBytes(t: Tables, job: Job)
    ensures NoNewBytes(t.runs, WithRunStatus(t.runs, job), t.deployments, WithDeploymentStatus(t.deployments, job))
  {
  }

  lemma {:induction false} SameBytes(t: Tables)
    ensures NoNewBytes(t.runs, t.runs, t.deployments, t.deployments)
  {
  }

  lemma {:induction false} ImportBytes(t: Tables, c: Claim, result: ImportResult)
    ensures var t' := CompleteImport(t, c, result); NoNewBytes(t.runs, t'.runs, t.deployments, t'.deployments)
  {
  }

  lemma {:induction false} ReleaseBytes(t: Tables, c: Claim, queries: seq<PublishedQuery>)
    ensures var t' := CompletePublish(t, c, queries).0; NoNewBytes(t.runs, t'.runs, t.deployments, t'.deployments)
  {
    hide GrantAll;
    if PublishCompletes(t, c) {
      GrantAllLeavesRows(t, c.tenant, t.jobs[c.job].target, queries);
    }
  }

  lemma {:induction false} GrantAllLeavesRows(t: Tables, tenant: Id, d: Id, queries: seq<PublishedQuery>)
    ensures var r := GrantAll(t, tenant, d, queries); r.Some? ==> r.value.runs == t.runs && r.value.deployments == t.deployments
    decreases |queries|
  {
    hide FindQuery, RevisionSlots;
    if queries != [] {
      var saved := SaveRevision(t, tenant, queries[0].name, queries[0].sql, queries[0].types);
      GrantAllLeavesRows(saved.tables.(grants := saved.tables.grants + {Grant(tenant, d, saved.revision)}), tenant, d, queries[1..]);
    }
  }

  lemma {:induction false} RemoveBytes(t: Tables, gone: Id)
    ensures NoNewBytes(t.runs, RemoveDataset(t, gone).runs, t.deployments, RemoveDataset(t, gone).deployments)
    ensures NoNewBytes(t.runs, RemoveApp(t, gone).runs, t.deployments, RemoveApp(t, gone).deployments)
    ensures forall ids :: NoNewBytes(t.runs, ForgetConnectors(t.runs, ids), t.deployments, t.deployments)
  {
  }

  lemma {:induction false} QueueBytes(t: Tables, publish: bool, target: Id)
    ensures NoNewBytes(t.runs, Queue(t, publish, target).runs, t.deployments, Queue(t, publish, target).deployments)
  {
    hide FindJobFor, NoNewBytes, WithRunStatus, WithDeploymentStatus;
    SameBytes(t);
    FoundJobFor(t.jobs, publish, target);
    var found := FindJobFor(t.jobs, publish, target);
    if found.Some? { MoveBytes(t, t.jobs[found.value].(status := Queued, availableAt := t.now)); }
  }

  lemma {:induction false} CancelBytes(t: Tables, tenant: Id, id: Id)
    ensures var t' := CancelJob(t, tenant, id).0; NoNewBytes(t.runs, t'.runs, t.deployments, t'.deployments)
  {
    hide NoNewBytes, WithRunStatus, WithDeploymentStatus;
    SameBytes(t);
    if id in t.jobs { MoveBytes(t, t.jobs[id].(status := Cancelled, cancelRequested := true)); }
  }

  lemma {:induction false} ConnectorBytes(t: Tables, tenant: Id, a: UserAction)
    requires a.NewConnector? || a.EditConnector? || a.DropConnector?
    ensures var t' := ActUser(t, tenant, a); NoNewBytes(t.runs, t'.runs, t.deployments, t'.deployments)
  {
    hide NoNewBytes, CreateConnector, UpdateConnector, DeleteConnector;
    match a
    case NewConnector(slug, dataset, enabled, refreshMinutes) => NewConnectorBytes(t, tenant, slug, dataset, enabled, refreshMinutes);
    case EditConnector(slug, enabled, refreshMinutes) => EditConnectorBytes(t, tenant, slug, enabled, refreshMinutes);
    case DropConnector(slug) => DropConnectorBytes(t, tenant, slug);
  }

  lemma {:induction false} NewConnectorBytes(t: Tables, tenant: Id, slug: string, dataset: string, enabled: bool, refreshMinutes: int)
    ensures var t' := CreateConnector(t, tenant, slug, dataset, enabled, refreshMinutes).0; NoNewBytes(t.runs, t'.runs, t.deployments, t'.deployments)
  {
    hide NoNewBytes, FindDataset;
    SameBytes(t);
  }

  lemma {:induction false} EditConnectorBytes(t: Tables, tenant: Id, slug: string, enabled: bool, refreshMinutes: int)
    ensures var t' := UpdateConnector(t, tenant, slug, enabled, refreshMinutes).0; NoNewBytes(t.runs, t'.runs, t.deployments, t'.deployments)
  {
    hide NoNewBytes, FindConnector;
    SameBytes(t);
  }

  lemma {:induction false} DropConnectorBytes(t: Tables, tenant: Id, slug: string)
    ensures var t' := DeleteConnector(t, tenant, slug).0; NoNewBytes(t.runs, t'.runs, t.deployments, t'.deployments)
  {
    hide NoNewBytes, FindConnector, ForgetConnectors;
    SameBytes(t);
    RemoveBytes(t, 0);
  }

  lemma {:induction false} EditBytes(t: Tables, tenant: Id, a: UserAction)
    requires a.NewConnector? || a.EditConnector? || a.DropConnector? || a.RollBack? || a.SaveQuery? || a.DropQuery?
    ensures var t' := ActUser(t, tenant, a); NoNewBytes(t.runs, t'.runs, t.deployments, t'.deployments)
  {
    hide NoNewBytes, FindQuery, QueryInUse, RevisionSlots, CreateConnector, UpdateConnector, DeleteConnector;
    SameBytes(t);
    if a.NewConnector? || a.EditConnector? || a.DropConnector? { ConnectorBytes(t, tenant, a); }
  }

  lemma {:induction false} DropBytes(t: Tables, tenant: Id, a: UserAction)
    requires a.DropDataset? || a.DropApp?
    ensures var t' := ActUser(t, tenant, a); NoNewBytes(t.runs, t'.runs, t.deployments, t'.deployments)
  {
    hide NoNewBytes, FindApp, FindDataset, AppBusy, DatasetBusy, RemoveApp, RemoveDataset;
    SameBytes(t);
    if a.DropDataset? {
      if FindDataset(t.datasets, tenant, a.slug).Some? { RemoveBytes(t, FindDataset(t.datasets, tenant, a.slug).value); }
    } else {
      if FindApp(t.apps, tenant, a.slug).Some? { RemoveBytes(t, FindApp(t.apps, tenant, a.slug).value); }
    }
  }

  /** The transactions that may add bytes. */
  predicate Stores(a: UserAction) { a.CreateUpload? || a.CreateRelease? || a.SyncNow? }

  lemma {:induction false} UserBytes(t: Tables, tenant: Id, a: UserAction)
    requires !Stores(a)
    ensures var t' := ActUser(t, tenant, a); NoNewBytes(t.runs, t'.runs, t.deployments, t'.deployments)
  {
    hide NoNewBytes, CreateDatasetUpload, CreateDeployment, CreateConnectorJob, Queue, CancelJob, CreateConnector,
         UpdateConnector, DeleteConnector, Rollback, SaveQueryRevision, DeleteQuery, DeleteDataset, DeleteApp;
    SameBytes(t);
    match a
    case FinishUpload(run) => QueueBytes(t, false, run);
    case FinishRelease(deployment) => QueueBytes(t, true, deployment);
    case Cancel(job) => CancelBytes(t, tenant, job);
    case DropDataset(_, _) => DropBytes(t, tenant, a);
    case DropApp(_) => DropBytes(t, tenant, a);
    case _ => EditBytes(t, tenant, a);
  }

  lemma {:induction false} UserWithin(t: Tables, tenant: Id, a: UserAction)
    requires Sound(t) && Within(t.runs, t.deployments)
    ensures var t' := ActUser(t, tenant, a); Within(t'.runs, t'.deployments)
  {
    hide Sound, Within, NoNewBytes, CreateDatasetUpload, CreateDeployment, CreateConnectorJob, Queue, CancelJob,
         CreateConnector, UpdateConnector, DeleteConnector, Rollback, SaveQueryRevision, DeleteQuery, DeleteDataset,
         DeleteApp;
    var t' := ActUser(t, tenant, a);
    match a
    case CreateUpload(slug, format, bytes, key) => UploadWithin(t, tenant, slug, format, bytes, key);
    case CreateRelease(m, checksum, bytes, key) => ReleaseWithin(t, tenant, m, checksum, bytes, key);
    case SyncNow(connector, request) => ConnectorJobWithin(t, tenant, connector, Manual(request));
    case _ =>
      UserBytes(t, tenant, a);
      NoNewBytesKeeps(t.runs, t'.runs, t.deployments, t'.deployments);
  }

  lemma {:induction false} WorkBytes(s: System, w: Worker, a: WorkerAction)
    requires Enabled(s, w, a) && !a.Enqueue? && !a.SetBytes?
    ensures var t' := ActWorker(s, w, a).db; NoNewBytes(s.db.runs, t'.runs, s.db.deployments, t'.deployments)
  {
    hide NoNewBytes, EnqueueDueConnector, SetConnectorRunBytes, CompleteImport, CompletePublish, FromManifest,
         WithRunStatus, WithDeploymentStatus;
    var t := s.db;
    var me := At(s, w);
    SameBytes(t);
    match a
    case PublishSnapshot(result, _) => ImportBytes(t, me.claim, result);
    case PublishRelease(queries, _) => ReleaseBytes(t, me.claim, queries);
    case ClaimJob(_, id, lease) =>
      MoveBytes(t, t.jobs[id].(status := Running, lease := Some(Lease(w, t.now + lease)), attempts := t.jobs[id].attempts + 1));
    case RetryMine(delay) =>
      if MayRetry(t, me.claim) { MoveBytes(t, t.jobs[me.claim.job].(status := Queued, lease := None, availableAt := t.now + delay)); }
    case CancelMine => if Holds(t.jobs, me.claim) { MoveBytes(t, t.jobs[me.claim.job].(status := Cancelled, lease := None)); }
    case FailMine => if Holds(t.jobs, me.claim) { MoveBytes(t, t.jobs[me.claim.job].(status := Failed, lease := None)); }
    case _ =>
  }

  lemma {:induction false} WorkWithin(s: System, w: Worker, a: WorkerAction)
    requires Sound(s.db) && Within(s.db.runs, s.db.deployments) && Enabled(s, w, a)
    ensures var t' := ActWorker(s, w, a).db; Within(t'.runs, t'.deployments)
  {
    hide Sound, Within, NoNewBytes, EnqueueDueConnector, SetConnectorRunBytes, Take, Heartbeat, CompleteImport,
         CompletePublish, CancelClaimed, Retry, Fail, FromManifest;
    var t, t' := s.db, ActWorker(s, w, a).db;
    match a
    case Enqueue(connector) => EnqueueWithin(t, connector);
    case SetBytes(bytes) => SetConnectorRunBytesWithin(t, At(s, w).claim, bytes);
    case _ =>
      WorkBytes(s, w, a);
      NoNewBytesKeeps(t.runs, t'.runs, t.deployments, t'.deployments);
  }

  lemma {:induction false} RunStaysWithin(s: System, steps: seq<Step>)
    requires Safe(s) && Within(s.db.runs, s.db.deployments)
    ensures Within(Exec(s, steps).db.runs, Exec(s, steps).db.deployments)
    decreases |steps|
  {
    hide Safe, Within, ActUser, ActWorker, Enabled;
    if steps != [] {
      var step := steps[0];
      var s1 := s.(db := Later(s.db, step.elapsed));
      LaterStaysSafe(s, step.elapsed);
      SafeParts(s1);
      match step {
        case User(_, tenant, action) => UserWithin(s1.db, tenant, action);
        case Work(_, w, work) => if Enabled(s1, w, work) { WorkWithin(s1, w, work); }
      }
      StepStaysSafe(s, step);
      RunStaysWithin(Apply(s, step), steps[1..]);
    }
  }

  /** In every run each tenant's runs and deployments hold at most 10 GiB, so the check's int64 arithmetic is exact. */
  lemma {:induction false} StoredWithinQuota(steps: seq<Step>, tenant: Id, additional: int)
    requires 0 <= additional <= MAX_INT64
    ensures var t := Exec(INITIAL, steps).db;
            && StoredBytes(t.runs, t.deployments, tenant, None) <= MAX_TENANT_STORED_BYTES < MAX_INT64
            && -MAX_INT64 <= MAX_TENANT_STORED_BYTES - additional <= MAX_INT64
  {
    hide Safe, Exec, StoredBytes;
    InitialIsSafe();
    InitiallyWithin();
    RunStaysWithin(INITIAL, steps);
    assert TenantWithin(Exec(INITIAL, steps).db.runs, Exec(INITIAL, steps).db.deployments, tenant);
  }

  lemma {:induction false} InitiallyWithin()
    ensures Within(INITIAL.db.runs, INITIAL.db.deployments)
  {
    forall tenant: Id ensures TenantWithin(map[], map[], tenant) {
      assert RunWeights(map[], tenant, None) == map[] && DeploymentWeights(map[], tenant) == map[];
    }
  }

  // ---------- repeating a create

  lemma {:induction false} FoundKey(jobs: map<Id, Job>, id: Id)
    requires UniqueKeys(jobs) && id in jobs
    ensures FindJob(jobs, jobs[id].tenant, jobs[id].kind, jobs[id].key) == Some(id)
  {
    var job := jobs[id];
    assert KeyedJob(jobs, id, job.tenant, job.kind, job.key);
    var found := FindJob(jobs, job.tenant, job.kind, job.key).value;
    assert SameKey(jobs[found], jobs[id]);
  }

  lemma {:induction false} KeysUnique(t: Tables)
    requires Sound(t)
    ensures UniqueKeys(t.jobs)
  {
    hide Bounded, RunRows, DatasetRows, ConnectorRows, AppsSound, QueriesSound, GrantsSound;
  }

  lemma {:induction false} FoundJobKeyed(jobs: map<Id, Job>, tenant: Id, kind: Kind, key: Key)
    ensures var found := FindJob(jobs, tenant, kind, key); found.Some? ==> KeyedJob(jobs, found.value, tenant, kind, key)
  {
  }
}
