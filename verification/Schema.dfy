/**
 The rows the control plane keeps in PostgreSQL, one map from primary key to row a table.
 Times are whole microseconds; identifiers come from one counter, because newID draws values that never repeat.
*/
module Schema {
  import opened Wrappers
  import opened Manifests
  import Numbering
  import Totals

  type Id = nat
  type Time = int
  type Worker = string
  type Checksum = string

  const SECOND: Time := 1_000_000
  const MINUTE: Time := 60_000_000
  const MAX_TENANT_STORED_BYTES: int := 10_737_418_240
  const MAX_QUEUED_JOBS := 100
  const MAX_SQL_LENGTH := 1_048_576
  const MAX_DEPLOYMENT_BYTES := 26_214_400
  const MAX_INT64: int := 0x7FFF_FFFF_FFFF_FFFF

  datatype Status = AwaitingUpload | Queued | Running | Succeeded | Failed | Cancelled
  {
    predicate Active() { AwaitingUpload? || Queued? || Running? }
  }

  datatype Kind = DatasetImport | ConnectorSync | AppPublish

  datatype Format = Csv | Parquet | Json

  /** Idempotency keys: a client's own text, "manual:" and a request id, "scheduled:" with connector and time. */
  datatype Key = Client(text: string) | Manual(request: string) | Scheduled(connector: Id, at: Time)

  datatype Lease = Lease(holder: Worker, expires: Time)

  /** target is sync_run_id for the two import kinds and deployment_id for a publish. */
  datatype Job = Job(
    tenant: Id, kind: Kind, key: Key, target: Id, status: Status, availableAt: Time,
    lease: Option<Lease>, attempts: nat, cancelRequested: bool)

  datatype ImportResult = ImportResult(snapshot: int, rows: int, schema: string)

  datatype SyncRun = SyncRun(
    tenant: Id, dataset: Id, connector: Option<Id>, status: Status, format: Format,
    bytes: nat, result: Option<ImportResult>)

  /** The four columns of a dataset that CompleteImportJob writes together. */
  datatype Publication = Publication(result: ImportResult, bytes: nat)

  datatype Dataset = Dataset(tenant: Id, slug: string, current: Option<Publication>)

  datatype App = App(tenant: Id, slug: string, current: Option<Id>)

  datatype Deployment = Deployment(
    tenant: Id, app: Id, previous: Option<Id>, version: nat, status: Status,
    checksum: Checksum, bytes: nat, manifest: Manifest)

  datatype Query = Query(tenant: Id, slug: string, current: Option<Id>)

  datatype Revision = Revision(tenant: Id, query: Id, version: nat, sql: string, types: ParameterTypes)

  datatype Grant = Grant(tenant: Id, deployment: Id, revision: Id)

  datatype Connector = Connector(
    tenant: Id, dataset: Id, slug: string, enabled: bool, refreshMinutes: int, nextSyncAt: Time)

  datatype Tables = Tables(
    jobs: map<Id, Job>, runs: map<Id, SyncRun>, datasets: map<Id, Dataset>,
    apps: map<Id, App>, deployments: map<Id, Deployment>,
    queries: map<Id, Query>, revisions: map<Id, Revision>, grants: set<Grant>,
    connectors: map<Id, Connector>, nextId: Id, now: Time)

  const EMPTY := Tables(map[], map[], map[], map[], map[], map[], map[], {}, map[], 0, 0)

  datatype DbError = NoRows | Conflict | LeaseLost | QuotaExceeded | Rejected

  /** What a worker carries away from a claim: the ImportJob and PublishJob records. */
  datatype Claim = Claim(job: Id, tenant: Id, target: Id, kind: Kind, worker: Worker, attempt: nat)

  datatype PublishedQuery = PublishedQuery(name: string, sql: string, types: ParameterTypes)

  // ---------- WHERE clauses

  /** status = 'running' AND leased_by = worker, for the claimed row. */
  predicate Holds(jobs: map<Id, Job>, c: Claim)
  {
    && c.job in jobs
    && jobs[c.job].tenant == c.tenant
    && jobs[c.job].status.Running?
    && jobs[c.job].lease.Some?
    && jobs[c.job].lease.value.holder == c.worker
  }

  predicate ForRun(kind: Kind) { kind.DatasetImport? || kind.ConnectorSync? }

  /** Running under a lease that has not expired. */
  predicate Live(job: Job, now: Time)
  {
    job.status.Running? && job.lease.Some? && job.lease.value.expires >= now
  }

  /** The NOT EXISTS clause of the two import claims. */
  predicate OtherLive(jobs: map<Id, Job>, now: Time, id: Id)
    requires id in jobs
  {
    exists other :: other in jobs && other != id && jobs[other].tenant == jobs[id].tenant
                    && ForRun(jobs[other].kind) && Live(jobs[other], now)
  }

  predicate Claimable(jobs: map<Id, Job>, now: Time, kind: Kind, id: Id)
  {
    && id in jobs
    && jobs[id].kind == kind
    && jobs[id].availableAt <= now
    && (jobs[id].status.Queued?
        || (jobs[id].status.Running? && jobs[id].lease.Some? && jobs[id].lease.value.expires < now))
    && (kind.AppPublish? || !OtherLive(jobs, now, id))
  }

  // ---------- SELECT by a unique key

  predicate KeyedJob(jobs: map<Id, Job>, id: Id, tenant: Id, kind: Kind, key: Key)
  {
    id in jobs && jobs[id].tenant == tenant && jobs[id].kind == kind && jobs[id].key == key
  }

  ghost function FindJob(jobs: map<Id, Job>, tenant: Id, kind: Kind, key: Key): Option<Id>
  {
    if exists id :: KeyedJob(jobs, id, tenant, kind, key)
    then var id :| KeyedJob(jobs, id, tenant, kind, key); Some(id) else None
  }

  /** The job whose sync_run_id or deployment_id is the given row. */
  predicate JobFor(jobs: map<Id, Job>, id: Id, publish: bool, target: Id)
  {
    id in jobs && jobs[id].kind.AppPublish? == publish && jobs[id].target == target
  }

  ghost function FindJobFor(jobs: map<Id, Job>, publish: bool, target: Id): Option<Id>
  {
    if exists id :: JobFor(jobs, id, publish, target)
    then var id :| JobFor(jobs, id, publish, target); Some(id) else None
  }

  predicate NamedDataset(datasets: map<Id, Dataset>, id: Id, tenant: Id, slug: string)
  {
    id in datasets && datasets[id].tenant == tenant && datasets[id].slug == slug
  }

  ghost function FindDataset(datasets: map<Id, Dataset>, tenant: Id, slug: string): Option<Id>
  {
    if exists id :: NamedDataset(datasets, id, tenant, slug)
    then var id :| NamedDataset(datasets, id, tenant, slug); Some(id) else None
  }

  predicate NamedApp(apps: map<Id, App>, id: Id, tenant: Id, slug: string)
  {
    id in apps && apps[id].tenant == tenant && apps[id].slug == slug
  }

  ghost function FindApp(apps: map<Id, App>, tenant: Id, slug: string): Option<Id>
  {
    if exists id :: NamedApp(apps, id, tenant, slug)
    then var id :| NamedApp(apps, id, tenant, slug); Some(id) else None
  }

  predicate NamedQuery(queries: map<Id, Query>, id: Id, tenant: Id, slug: string)
  {
    id in queries && queries[id].tenant == tenant && queries[id].slug == slug
  }

  ghost function FindQuery(queries: map<Id, Query>, tenant: Id, slug: string): Option<Id>
  {
    if exists id :: NamedQuery(queries, id, tenant, slug)
    then var id :| NamedQuery(queries, id, tenant, slug); Some(id) else None
  }

  predicate NamedConnector(connectors: map<Id, Connector>, id: Id, tenant: Id, slug: string)
  {
    id in connectors && connectors[id].tenant == tenant && connectors[id].slug == slug
  }

  ghost function FindConnector(connectors: map<Id, Connector>, tenant: Id, slug: string): Option<Id>
  {
    if exists id :: NamedConnector(connectors, id, tenant, slug)
    then var id :| NamedConnector(connectors, id, tenant, slug); Some(id) else None
  }

  // ---------- aggregates

  function RunWeights(runs: map<Id, SyncRun>, tenant: Id, excluded: Option<Id>): map<Id, nat>
  {
    map id | id in runs && runs[id].tenant == tenant && excluded != Some(id) :: runs[id].bytes
  }

  function DeploymentWeights(deployments: map<Id, Deployment>, tenant: Id): map<Id, nat>
  {
    map id | id in deployments && deployments[id].tenant == tenant :: deployments[id].bytes
  }

  ghost function StoredBytes(runs: map<Id, SyncRun>, deployments: map<Id, Deployment>, tenant: Id, excluded: Option<Id>): nat
  {
    Totals.Total(RunWeights(runs, tenant, excluded)) + Totals.Total(DeploymentWeights(deployments, tenant))
  }

  function DeploymentSlots(deployments: map<Id, Deployment>): map<Id, Numbering.Slot>
  {
    map id | id in deployments :: Numbering.Slot(deployments[id].app, deployments[id].version)
  }

  function RevisionSlots(revisions: map<Id, Revision>): map<Id, Numbering.Slot>
  {
    map id | id in revisions :: Numbering.Slot(revisions[id].query, revisions[id].version)
  }

  function ActiveJobs(jobs: map<Id, Job>, tenant: Id): set<Id>
  {
    set id | id in jobs && jobs[id].tenant == tenant && jobs[id].status.Active()
  }
}
