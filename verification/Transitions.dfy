/**
 What each transaction of internal/db does to the tables, as a function from the tables before to the
 tables after. A transaction that returns an error leaves the tables as they were.
*/
module Transitions {
  import opened Wrappers
  import opened Manifests
  import opened Schema
  import Numbering

  function WithRunStatus(runs: map<Id, SyncRun>, job: Job): map<Id, SyncRun>
  {
    if !job.kind.AppPublish? && job.target in runs
    then runs[job.target := runs[job.target].(status := job.status)] else runs
  }

  function WithDeploymentStatus(deployments: map<Id, Deployment>, job: Job): map<Id, Deployment>
  {
    if job.kind.AppPublish? && job.target in deployments
    then deployments[job.target := deployments[job.target].(status := job.status)] else deployments
  }

  /** Replaces a job row and gives its sync run or deployment the same status. */
  function Move(t: Tables, id: Id, job: Job): Tables
  {
    t.(jobs := t.jobs[id := job], runs := WithRunStatus(t.runs, job), deployments := WithDeploymentStatus(t.deployments, job))
  }

  // ---------- quota

  ghost predicate QuotaAllows(t: Tables, tenant: Id, additional: int, excluded: Option<Id>)
  {
    additional >= 0 && StoredBytes(t.runs, t.deployments, tenant, excluded) <= MAX_TENANT_STORED_BYTES - additional
  }

  // ---------- uploads and imports

  datatype Upload = Upload(dataset: Id, run: Id, job: Id)

  ghost function CreateDatasetUpload(t: Tables, tenant: Id, slug: string, format: Format, bytes: int, key: Key)
    : (r: (Tables, Result<Upload, DbError>))
  {
    match FindJob(t.jobs, tenant, DatasetImport, key)
    case Some(id) =>
      var run := t.jobs[id].target;
      if run !in t.runs || t.runs[run].dataset !in t.datasets then (t, Err(NoRows))
      else if t.datasets[t.runs[run].dataset].slug != slug || t.runs[run].format != format || t.runs[run].bytes != bytes
      then (t, Err(Conflict))
      else (t, Ok(Upload(t.runs[run].dataset, run, id)))
    case None =>
      if !QuotaAllows(t, tenant, bytes, None) then (t, Err(QuotaExceeded))
      else
        var found := FindDataset(t.datasets, tenant, slug);
        var dataset := if found.Some? then found.value else t.nextId;
        var run, job := t.nextId + 1, t.nextId + 2;
        var t' := t.(
          datasets := if found.Some? then t.datasets else t.datasets[dataset := Dataset(tenant, slug, None)],
          runs := t.runs[run := SyncRun(tenant, dataset, None, AwaitingUpload, format, bytes, None)],
          jobs := t.jobs[job := Job(tenant, DatasetImport, key, run, AwaitingUpload, t.now, None, 0, false)],
          nextId := t.nextId + 3);
        (t', Ok(Upload(dataset, run, job)))
  }

  ghost function CompleteDatasetUpload(t: Tables, tenant: Id, run: Id): Tables
  {
    if run in t.runs && t.runs[run].tenant == tenant && t.runs[run].status.AwaitingUpload?
    then Queue(t, false, run) else t
  }

  ghost function CompleteDeploymentUpload(t: Tables, tenant: Id, deployment: Id): Tables
  {
    if deployment in t.deployments && t.deployments[deployment].tenant == tenant
       && t.deployments[deployment].status.AwaitingUpload?
    then Queue(t, true, deployment) else t
  }

  ghost function Queue(t: Tables, publish: bool, target: Id): Tables
  {
    match FindJobFor(t.jobs, publish, target)
    case Some(id) => Move(t, id, t.jobs[id].(status := Queued, availableAt := t.now))
    case None => t
  }

  function ClaimOf(t: Tables, id: Id, worker: Worker): Claim
    requires id in t.jobs
  {
    Claim(id, t.jobs[id].tenant, t.jobs[id].target, t.jobs[id].kind, worker, t.jobs[id].attempts + 1)
  }

  function Take(t: Tables, id: Id, worker: Worker, lease: Time): Tables
    requires id in t.jobs
  {
    Move(t, id, t.jobs[id].(status := Running, lease := Some(Lease(worker, t.now + lease)),
                            attempts := t.jobs[id].attempts + 1))
  }

  function Heartbeat(t: Tables, c: Claim, lease: Time): Tables
  {
    if Holds(t.jobs, c)
    then t.(jobs := t.jobs[c.job := t.jobs[c.job].(lease := Some(Lease(c.worker, t.now + lease)))])
    else t
  }

  predicate MayComplete(t: Tables, c: Claim)
  {
    Holds(t.jobs, c) && !t.jobs[c.job].cancelRequested
  }

  predicate ImportCompletes(t: Tables, c: Claim)
  {
    MayComplete(t, c) && ForRun(t.jobs[c.job].kind) && t.jobs[c.job].target in t.runs
  }

  function CompleteImport(t: Tables, c: Claim, result: ImportResult): Tables
  {
    if ImportCompletes(t, c) then
      var job := t.jobs[c.job];
      var run := t.runs[job.target];
      var t1 := Move(t, c.job, job.(status := Succeeded, lease := None));
      t1.(
        runs := t1.runs[job.target := t1.runs[job.target].(result := Some(result))],
        datasets := if run.dataset in t.datasets
                    then t.datasets[run.dataset := t.datasets[run.dataset].(current := Some(Publication(result, run.bytes)))]
                    else t.datasets)
    else t
  }

  function Fail(t: Tables, c: Claim): Tables
  {
    if Holds(t.jobs, c) then Move(t, c.job, t.jobs[c.job].(status := Failed, lease := None)) else t
  }

  // ---------- cancellation

  function CancelJob(t: Tables, tenant: Id, id: Id): (r: (Tables, Result<(), DbError>))
  {
    if id !in t.jobs || t.jobs[id].tenant != tenant then (t, Err(NoRows))
    else match t.jobs[id].status
      case AwaitingUpload | Queued =>
        (Move(t, id, t.jobs[id].(status := Cancelled, cancelRequested := true)), Ok(()))
      case Running => (t.(jobs := t.jobs[id := t.jobs[id].(cancelRequested := true)]), Ok(()))
      case Succeeded | Failed | Cancelled => (t, Err(Conflict))
  }

  function CancelClaimed(t: Tables, c: Claim): Tables
  {
    if Holds(t.jobs, c) then Move(t, c.job, t.jobs[c.job].(status := Cancelled, lease := None)) else t
  }

  // ---------- connectors

  ghost function CreateConnector(t: Tables, tenant: Id, slug: string, datasetSlug: string, enabled: bool, refreshMinutes: int)
    : (r: (Tables, Result<Id, DbError>))
  {
    var found := FindDataset(t.datasets, tenant, datasetSlug);
    var dataset := if found.Some? then found.value else t.nextId;
    var id := t.nextId + 1;
    if !(1 <= refreshMinutes <= 10080) then (t, Err(Rejected))
    else if exists other :: other in t.connectors && t.connectors[other].tenant == tenant
                            && (t.connectors[other].slug == slug || t.connectors[other].dataset == dataset)
    then (t, Err(Conflict))
    else
      (t.(
        datasets := if found.Some? then t.datasets else t.datasets[dataset := Dataset(tenant, datasetSlug, None)],
        connectors := t.connectors[id := Connector(tenant, dataset, slug, enabled, refreshMinutes, t.now)],
        nextId := t.nextId + 2), Ok(id))
  }

  ghost function UpdateConnector(t: Tables, tenant: Id, slug: string, enabled: bool, refreshMinutes: int)
    : (r: (Tables, Result<Id, DbError>))
  {
    match FindConnector(t.connectors, tenant, slug)
    case None => (t, Err(NoRows))
    case Some(id) =>
      if !(1 <= refreshMinutes <= 10080) then (t, Err(Rejected))
      else
        var row := t.connectors[id];
        var next := if enabled && t.now < row.nextSyncAt then t.now else row.nextSyncAt;
        (t.(connectors := t.connectors[id := row.(enabled := enabled, refreshMinutes := refreshMinutes, nextSyncAt := next)]), Ok(id))
  }

  /** ON DELETE SET NULL (connector_id). */
  function ForgetConnectors(runs: map<Id, SyncRun>, gone: set<Id>): map<Id, SyncRun>
  {
    map id | id in runs ::
      if runs[id].connector.Some? && runs[id].connector.value in gone then runs[id].(connector := None) else runs[id]
  }

  ghost function DeleteConnector(t: Tables, tenant: Id, slug: string): (r: (Tables, Result<(), DbError>))
  {
    match FindConnector(t.connectors, tenant, slug)
    case None => (t, Err(NoRows))
    case Some(id) =>
      if exists job :: job in t.jobs && ForRun(t.jobs[job].kind) && t.jobs[job].target in t.runs
                       && t.runs[t.jobs[job].target].connector == Some(id)
                       && (t.jobs[job].status.Queued? || t.jobs[job].status.Running?)
      then (t, Err(Conflict))
      else (t.(connectors := t.connectors - {id}, runs := ForgetConnectors(t.runs, {id})), Ok(()))
  }

  predicate QueueFull(t: Tables, tenant: Id)
  {
    |ActiveJobs(t.jobs, tenant)| >= MAX_QUEUED_JOBS
  }

  ghost function CreateConnectorJob(t: Tables, tenant: Id, connector: Id, key: Key): (r: (Tables, Result<Id, DbError>))
  {
    if connector !in t.connectors || t.connectors[connector].tenant != tenant then (t, Err(NoRows))
    else if QueueFull(t, tenant) || FindJob(t.jobs, tenant, ConnectorSync, key).Some? then (t, Err(Conflict))
    else
      var run, job := t.nextId, t.nextId + 1;
      (t.(
        runs := t.runs[run := SyncRun(tenant, t.connectors[connector].dataset, Some(connector), Queued, Json, 0, None)],
        jobs := t.jobs[job := Job(tenant, ConnectorSync, key, run, Queued, t.now, None, 0, false)],
        nextId := t.nextId + 2), Ok(job))
  }

  predicate Due(t: Tables, id: Id)
  {
    id in t.connectors && t.connectors[id].enabled && t.connectors[id].nextSyncAt <= t.now
  }

  datatype Enqueued = NothingDue | Postponed | Aborted | Enqueued(job: Id)

  /**
   A full queue postpones the connector by a minute. A repeated key would be a failed INSERT, after which
   PostgreSQL refuses the UPDATE that follows in the same transaction, so nothing changes.
  */
  ghost function EnqueueDueConnector(t: Tables, id: Id): (r: (Tables, Enqueued))
  {
    if !Due(t, id) then (t, NothingDue)
    else
      var row := t.connectors[id];
      if QueueFull(t, row.tenant)
      then (t.(connectors := t.connectors[id := row.(nextSyncAt := t.now + MINUTE)]), Postponed)
      else
        var created := CreateConnectorJob(t, row.tenant, id, Scheduled(id, row.nextSyncAt));
        if created.1.Err? then (t, Aborted)
        else (created.0.(connectors := t.connectors[id := row.(nextSyncAt := t.now + row.refreshMinutes * MINUTE)]),
              Enqueued.Enqueued(created.1.value))
  }

  ghost function SetConnectorRunBytes(t: Tables, c: Claim, bytes: int): (r: (Tables, Result<(), DbError>))
  {
    if !QuotaAllows(t, c.tenant, bytes, Some(c.target)) then (t, Err(QuotaExceeded))
    else if c.target in t.runs && t.runs[c.target].tenant == c.tenant
         && c.job in t.jobs && t.jobs[c.job].status.Running? && t.jobs[c.job].lease.Some?
         && t.jobs[c.job].lease.value.holder == c.worker
    then (t.(runs := t.runs[c.target := t.runs[c.target].(bytes := bytes)]), Ok(()))
    else (t, Err(LeaseLost))
  }

  predicate MayRetry(t: Tables, c: Claim)
  {
    Holds(t.jobs, c) && t.jobs[c.job].attempts < 3
  }

  function Retry(t: Tables, c: Claim, delay: Time): Tables
  {
    if MayRetry(t, c)
    then Move(t, c.job, t.jobs[c.job].(status := Queued, lease := None, availableAt := t.now + delay))
    else t
  }

  // ---------- saved queries

  datatype Saved = Saved(tables: Tables, revision: Id, created: bool)

  predicate Unchanged(t: Tables, query: Id, sql: string, types: ParameterTypes)
  {
    && query in t.queries
    && t.queries[query].current.Some?
    && t.queries[query].current.value in t.revisions
    && t.revisions[t.queries[query].current.value].sql == sql
    && t.revisions[t.queries[query].current.value].types == types
  }

  ghost function SaveRevision(t: Tables, tenant: Id, slug: string, sql: string, types: ParameterTypes): Saved
  {
    var found := FindQuery(t.queries, tenant, slug);
    var query := if found.Some? then found.value else t.nextId;
    if Unchanged(t, query, sql, types) then Saved(t, t.queries[query].current.value, false)
    else
      var revision := t.nextId + 1;
      var version := Numbering.Next(RevisionSlots(t.revisions), query);
      Saved(t.(
              queries := t.queries[query := Query(tenant, slug, Some(revision))],
              revisions := t.revisions[revision := Revision(tenant, query, version, sql, types)],
              nextId := t.nextId + 2), revision, true)
  }

  predicate StorableSql(sql: string) { 1 <= |sql| <= MAX_SQL_LENGTH }

  ghost function SaveQueryRevision(t: Tables, tenant: Id, slug: string, sql: string, types: ParameterTypes)
    : (r: (Tables, Result<Id, DbError>))
  {
    var saved := SaveRevision(t, tenant, slug, sql, types);
    if saved.created && !StorableSql(sql) then (t, Err(Rejected)) else (saved.tables, Ok(saved.revision))
  }

  predicate QueryInUse(t: Tables, tenant: Id, query: Id, slug: string)
  {
    || (exists g :: g in t.grants && g.tenant == tenant && g.revision in t.revisions && t.revisions[g.revision].query == query)
    || (exists job :: job in t.jobs && t.jobs[job].kind.AppPublish? && t.jobs[job].status.Active()
                      && t.jobs[job].target in t.deployments && t.deployments[t.jobs[job].target].tenant == tenant
                      && Declares(t.deployments[t.jobs[job].target].manifest, slug))
  }

  predicate Declares(m: Manifest, name: string)
  {
    exists i :: 0 <= i < |m.queries| && m.queries[i].name == name
  }

  ghost function DeleteQuery(t: Tables, tenant: Id, slug: string): (r: (Tables, Result<(), DbError>))
  {
    match FindQuery(t.queries, tenant, slug)
    case None => (t, Err(NoRows))
    case Some(query) =>
      if QueryInUse(t, tenant, query, slug) then (t, Err(Conflict))
      else (t.(queries := t.queries - {query},
               revisions := map id | id in t.revisions && t.revisions[id].query != query :: t.revisions[id]), Ok(()))
  }

  // ---------- deployments

  ghost function CreateDeployment(t: Tables, tenant: Id, m: Manifest, checksum: Checksum, bytes: int, key: Key)
    : (r: (Tables, Result<Id, DbError>))
  {
    match FindJob(t.jobs, tenant, AppPublish, key)
    case Some(id) =>
      var d := t.jobs[id].target;
      if d !in t.deployments || t.deployments[d].app !in t.apps then (t, Err(NoRows))
      else if t.apps[t.deployments[d].app].slug != m.app.slug || t.deployments[d].bytes != bytes
           || t.deployments[d].manifest != m || t.deployments[d].checksum != checksum
      then (t, Err(Conflict))
      else (t, Ok(d))
    case None =>
      if !QuotaAllows(t, tenant, bytes, None) then (t, Err(QuotaExceeded))
      else if !(1 <= bytes <= MAX_DEPLOYMENT_BYTES) then (t, Err(Rejected))
      else
        var found := FindApp(t.apps, tenant, m.app.slug);
        var app := if found.Some? then found.value else t.nextId;
        var previous := if found.Some? then t.apps[app].current else None;
        var version := Numbering.Next(DeploymentSlots(t.deployments), app);
        var d, job := t.nextId + 1, t.nextId + 2;
        (t.(
          apps := if found.Some? then t.apps else t.apps[app := App(tenant, m.app.slug, None)],
          deployments := t.deployments[d := Deployment(tenant, app, previous, version, AwaitingUpload, checksum, bytes, m)],
          jobs := t.jobs[job := Job(tenant, AppPublish, key, d, AwaitingUpload, t.now, None, 0, false)],
          nextId := t.nextId + 3), Ok(d))
  }

  /** Saves and grants the queries one by one; None when a CHECK or primary key stops the transaction. */
  ghost function GrantAll(t: Tables, tenant: Id, deployment: Id, queries: seq<PublishedQuery>): Option<Tables>
    decreases |queries|
  {
    if queries == [] then Some(t)
    else
      var saved := SaveRevision(t, tenant, queries[0].name, queries[0].sql, queries[0].types);
      var grant := Grant(tenant, deployment, saved.revision);
      if (saved.created && !StorableSql(queries[0].sql)) || grant in saved.tables.grants then None
      else GrantAll(saved.tables.(grants := saved.tables.grants + {grant}), tenant, deployment, queries[1..])
  }

  predicate PublishCompletes(t: Tables, c: Claim)
  {
    MayComplete(t, c) && t.jobs[c.job].kind.AppPublish? && t.jobs[c.job].target in t.deployments
  }

  /** Marks the deployment succeeded and makes it the app's current one. */
  function Promote(t: Tables, id: Id): Tables
    requires id in t.jobs && t.jobs[id].target in t.deployments
  {
    var job := t.jobs[id];
    var app := t.deployments[job.target].app;
    var t1 := Move(t, id, job.(status := Succeeded, lease := None));
    if app in t.apps then t1.(apps := t.apps[app := t.apps[app].(current := Some(job.target))]) else t1
  }

  ghost function CompletePublish(t: Tables, c: Claim, queries: seq<PublishedQuery>): (r: (Tables, Result<(), DbError>))
  {
    if !PublishCompletes(t, c) then (t, Err(LeaseLost))
    else match GrantAll(t, c.tenant, t.jobs[c.job].target, queries)
      case None => (t, Err(Rejected))
      case Some(granted) =>
        if c.job in granted.jobs && granted.jobs[c.job].target in granted.deployments
        then (Promote(granted, c.job), Ok(())) else (t, Err(LeaseLost))
  }

  function Rollback(t: Tables, tenant: Id, deployment: Id): (r: (Tables, Result<(), DbError>))
  {
    if deployment !in t.deployments || t.deployments[deployment].tenant != tenant
       || !t.deployments[deployment].status.Succeeded? || t.deployments[deployment].app !in t.apps
    then (t, Err(NoRows))
    else
      var app := t.deployments[deployment].app;
      (t.(apps := t.apps[app := t.apps[app].(current := Some(deployment))]), Ok(()))
  }

  // ---------- deletions and their cascades

  predicate DatasetBusy(t: Tables, dataset: Id)
  {
    exists job :: job in t.jobs && ForRun(t.jobs[job].kind) && t.jobs[job].target in t.runs
                  && t.runs[t.jobs[job].target].dataset == dataset && t.jobs[job].status.Active()
  }

  ghost function DeleteDataset(t: Tables, tenant: Id, slug: string, dropped: bool): (r: (Tables, Result<(), DbError>))
  {
    match FindDataset(t.datasets, tenant, slug)
    case None => (t, Err(NoRows))
    case Some(dataset) =>
      if DatasetBusy(t, dataset) then (t, Err(Conflict))
      else if !dropped then (t, Err(Rejected))
      else (RemoveDataset(t, dataset), Ok(()))
  }

  function RemoveDataset(t: Tables, dataset: Id): Tables
  {
    var connectors := set id | id in t.connectors && t.connectors[id].dataset == dataset;
    var runs := set id | id in t.runs && t.runs[id].dataset == dataset;
    t.(
      datasets := t.datasets - {dataset},
      connectors := t.connectors - connectors,
      runs := ForgetConnectors(t.runs - runs, connectors),
      jobs := map id | id in t.jobs && !(ForRun(t.jobs[id].kind) && t.jobs[id].target in runs) :: t.jobs[id])
  }

  predicate AppBusy(t: Tables, app: Id)
  {
    exists job :: job in t.jobs && t.jobs[job].kind.AppPublish? && t.jobs[job].target in t.deployments
                  && t.deployments[t.jobs[job].target].app == app && t.jobs[job].status.Active()
  }

  ghost function DeleteApp(t: Tables, tenant: Id, slug: string): (r: (Tables, Result<(), DbError>))
  {
    match FindApp(t.apps, tenant, slug)
    case None => (t, Err(NoRows))
    case Some(app) =>
      if AppBusy(t, app) then (t, Err(Conflict)) else (RemoveApp(t, app), Ok(()))
  }

  function RemoveApp(t: Tables, app: Id): Tables
  {
    var deployments := set id | id in t.deployments && t.deployments[id].app == app;
    t.(
      apps := t.apps - {app},
      deployments := t.deployments - deployments,
      grants := (set g | g in t.grants && g.deployment !in deployments),
      jobs := map id | id in t.jobs && !(t.jobs[id].kind.AppPublish? && t.jobs[id].target in deployments) :: t.jobs[id])
  }
}
