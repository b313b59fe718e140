/** In every reachable state the tables are sound. */
module SoundRuns {
  import opened Wrappers
  import opened Manifests
  import opened Schema
  import opened Transitions
  import opened Consistency
  import opened JobsStaySound
  import opened RowsStaySound
  import opened QueriesStaySound
  import opened Protocol

  lemma {:induction false} LaterKeeps(t: Tables, elapsed: nat)
    requires Sound(t)
    ensures Sound(Later(t, elapsed))
  {
    hide Bounded, JobsSound, RunRows, DatasetRows, ConnectorRows, AppsSound, QueriesSound, GrantsSound;
    SucceededBounds(t, Later(t, elapsed));
  }

  lemma {:induction false} UserKeeps(t: Tables, tenant: Id, a: UserAction)
    requires Sound(t)
    ensures Sound(ActUser(t, tenant, a))
  {
    hide Sound, CreateDatasetUpload, Queue, CreateConnector, UpdateConnector, DeleteConnector, CreateConnectorJob,
         CancelJob, CreateDeployment, Rollback, SaveQueryRevision, DeleteQuery, DeleteDataset, DeleteApp;
    match a
    case CreateUpload(slug, format, bytes, key) => CreateDatasetUploadKeeps(t, tenant, slug, format, bytes, key);
    case FinishUpload(run) =>
      if run in t.runs && t.runs[run].tenant == tenant && t.runs[run].status.AwaitingUpload? { QueueKeeps(t, false, run); }
    case NewConnector(slug, dataset, enabled, refreshMinutes) => CreateConnectorKeeps(t, tenant, slug, dataset, enabled, refreshMinutes);
    case EditConnector(slug, enabled, refreshMinutes) => UpdateConnectorKeeps(t, tenant, slug, enabled, refreshMinutes);
    case DropConnector(slug) => DeleteConnectorKeeps(t, tenant, slug);
    case SyncNow(connector, request) => CreateConnectorJobKeeps(t, tenant, connector, Manual(request));
    case Cancel(job) => CancelJobKeeps(t, tenant, job);
    case CreateRelease(manifest, checksum, bytes, key) => CreateDeploymentKeeps(t, tenant, manifest, checksum, bytes, key);
    case FinishRelease(d) =>
      if d in t.deployments && t.deployments[d].tenant == tenant && t.deployments[d].status.AwaitingUpload? { QueueKeeps(t, true, d); }
    case RollBack(deployment) => RollbackKeeps(t, tenant, deployment);
    case SaveQuery(slug, sql, types) => SaveQueryRevisionKeeps(t, tenant, slug, sql, types);
    case DropQuery(slug) => DeleteQueryKeeps(t, tenant, slug);
    case DropDataset(slug, dropped) => DeleteDatasetKeeps(t, tenant, slug, dropped);
    case DropApp(slug) => DeleteAppKeeps(t, tenant, slug);
  }

  lemma {:induction false} ManifestNamesDistinct(m: Manifest, queries: seq<PublishedQuery>)
    requires FromManifest(m, queries)
    ensures DistinctNames(queries)
  {
  }

  /** The claim of a busy worker speaks of the row it names, if that row is still there. */
  ghost predicate ClaimFits(t: Tables, c: Claim)
  {
    && c.job < t.nextId
    && (c.job in t.jobs ==>
          t.jobs[c.job].tenant == c.tenant && t.jobs[c.job].kind == c.kind && t.jobs[c.job].target == c.target)
  }

  ghost predicate ClaimsFit(s: System)
  {
    forall w :: At(s, w).Busy? ==> At(s, w).claim.worker == w && ClaimFits(s.db, At(s, w).claim)
  }

  lemma {:induction false} WorkKeeps(s: System, w: Worker, a: WorkerAction)
    requires Sound(s.db) && ClaimsFit(s) && Enabled(s, w, a)
    ensures Sound(ActWorker(s, w, a).db)
  {
    hide Sound, EnqueueDueConnector, Take, Heartbeat, SetConnectorRunBytes, CompleteImport, CompletePublish,
         CancelClaimed, Retry, Fail, FromManifest;
    var t := s.db;
    var me := At(s, w);
    match a
    case Enqueue(connector) => EnqueueDueConnectorKeeps(t, connector);
    case ClaimJob(kind, id, lease) => TakeKeeps(t, id, w, lease, kind);
    case RenewBeat(lease, broken) => HeartbeatKeeps(t, me.claim, lease);
    case SetBytes(bytes) => SetConnectorRunBytesKeeps(t, me.claim, bytes);
    case PublishSnapshot(result, _) => CompleteImportKeeps(t, me.claim, result);
    case PublishRelease(queries, _) =>
      if PublishCompletes(t, me.claim) {
        ManifestNamesDistinct(t.deployments[me.claim.target].manifest, queries);
        CompletePublishKeeps(t, me.claim, queries);
      } else {
        CompletePublishRefused(t, me.claim, queries);
      }
    case CancelMine => CancelClaimedKeeps(t, me.claim);
    case RetryMine(delay) => RetryKeeps(t, me.claim, delay);
    case FailMine => FailKeeps(t, me.claim);
    case _ =>
  }

  lemma {:induction false} CompletePublishRefused(t: Tables, c: Claim, queries: seq<PublishedQuery>)
    requires !PublishCompletes(t, c)
    ensures CompletePublish(t, c, queries) == (t, Err(LeaseLost))
  {
  }
}
