/** What stays while the rows around it stay: a job goes only with the row it works on, an app keeps its name. */
module Persistence {
  import opened Wrappers
  import opened Manifests
  import opened Schema
  import opened Transitions
  import opened Consistency
  import opened JobsStaySound
  import opened RowsStaySound
  import opened Protocol
  import opened Guarantees

  // ---------- jobs

  /** The row the job works on is gone. */
  predicate Orphaned(job: Job, runs: map<Id, SyncRun>, deployments: map<Id, Deployment>)
  {
    if job.kind.AppPublish? then job.target !in deployments else job.target !in runs
  }

  ghost predicate JobsStay(jobs: map<Id, Job>, jobs': map<Id, Job>, runs': map<Id, SyncRun>, deployments': map<Id, Deployment>)
  {
    forall id :: id in jobs ==> id in jobs' || Orphaned(jobs[id], runs', deployments')
  }

  lemma {:induction false} MoreJobsStay(jobs: map<Id, Job>, jobs': map<Id, Job>, runs': map<Id, SyncRun>, deployments': map<Id, Deployment>)
    requires jobs.Keys <= jobs'.Keys
    ensures JobsStay(jobs, jobs', runs', deployments')
  {
  }

  predicate TouchesUploads(a: UserAction)
  {
    a.CreateUpload? || a.FinishUpload? || a.CreateRelease? || a.FinishRelease? || a.SyncNow? || a.Cancel?
  }

  lemma {:induction false} UploadAddsJobs(t: Tables, tenant: Id, slug: string, format: Format, bytes: int, key: Key)
    ensures t.jobs.Keys <= CreateDatasetUpload(t, tenant, slug, format, bytes, key).0.jobs.Keys
  {
    hide FindJob, FindDataset, QuotaAllows;
  }

  lemma {:induction false} ReleaseAddsJobs(t: Tables, tenant: Id, m: Manifest, checksum: Checksum, bytes: int, key: Key)
    ensures t.jobs.Keys <= CreateDeployment(t, tenant, m, checksum, bytes, key).0.jobs.Keys
  {
    hide FindJob, FindApp, QuotaAllows, DeploymentSlots;
  }

  lemma {:induction false} MovesKeepJobs(t: Tables, tenant: Id, id: Id, publish: bool)
    ensures t.jobs.Keys == Queue(t, publish, id).jobs.Keys == CancelJob(t, tenant, id).0.jobs.Keys
  {
    hide FindJobFor, WithRunStatus, WithDeploymentStatus;
    FoundJobFor(t.jobs, publish, id);
  }

  lemma {:induction false} UploadsAddJobs(t: Tables, tenant: Id, a: UserAction)
    requires TouchesUploads(a)
    ensures t.jobs.Keys <= ActUser(t, tenant, a).jobs.Keys
  {
    hide CreateDatasetUpload, CreateDeployment, Queue, CancelJob, FindJob, QueueFull;
    match a
    case CreateUpload(slug, format, bytes, key) => UploadAddsJobs(t, tenant, slug, format, bytes, key);
    case FinishUpload(run) => MovesKeepJobs(t, tenant, run, false);
    case CreateRelease(m, checksum, bytes, key) => ReleaseAddsJobs(t, tenant, m, checksum, bytes, key);
    case FinishRelease(d) => MovesKeepJobs(t, tenant, d, true);
    case Cancel(id) => MovesKeepJobs(t, tenant, id, false);
    case SyncNow(_, _) =>
  }

  lemma {:induction false} OthersLeaveJobs(t: Tables, tenant: Id, a: UserAction)
    requires !TouchesUploads(a) && !a.DropDataset? && !a.DropApp?
    ensures ActUser(t, tenant, a).jobs == t.jobs
  {
    hide FindDataset, FindQuery, FindConnector, QueryInUse, ForgetConnectors, SaveQueryRevision;
    if a.SaveQuery? { SaveLeavesJobs(t, tenant, a.slug, a.sql, a.types); }
  }

  lemma {:induction false} SaveLeavesJobs(t: Tables, tenant: Id, slug: string, sql: string, types: ParameterTypes)
    ensures SaveQueryRevision(t, tenant, slug, sql, types).0.jobs == t.jobs
  {
    hide FindQuery, RevisionSlots;
  }

  lemma {:induction false} UserJobsStay(t: Tables, tenant: Id, a: UserAction)
    ensures var t' := ActUser(t, tenant, a); JobsStay(t.jobs, t'.jobs, t'.runs, t'.deployments)
  {
    hide JobsStay, ActUser, RemoveDataset, RemoveApp, FindDataset, FindApp, DatasetBusy, AppBusy;
    var t' := ActUser(t, tenant, a);
    if a.DropDataset? {
      DropDatasetJobs(t, tenant, a.slug, a.dropped);
    } else if a.DropApp? {
      DropAppJobs(t, tenant, a.slug);
    } else {
      if TouchesUploads(a) { UploadsAddJobs(t, tenant, a); } else { OthersLeaveJobs(t, tenant, a); }
      MoreJobsStay(t.jobs, t'.jobs, t'.runs, t'.deployments);
    }
  }

  lemma {:induction false} DropDatasetJobs(t: Tables, tenant: Id, slug: string, dropped: bool)
    ensures var t' := DeleteDataset(t, tenant, slug, dropped).0; JobsStay(t.jobs, t'.jobs, t'.runs, t'.deployments)
    ensures ActUser(t, tenant, DropDataset(slug, dropped)) == DeleteDataset(t, tenant, slug, dropped).0
  {
    hide FindDataset, DatasetBusy;
  }

  lemma {:induction false} DropAppJobs(t: Tables, tenant: Id, slug: string)
    ensures var t' := DeleteApp(t, tenant, slug).0; JobsStay(t.jobs, t'.jobs, t'.runs, t'.deployments)
    ensures ActUser(t, tenant, DropApp(slug)) == DeleteApp(t, tenant, slug).0
  {
    hide FindApp, AppBusy;
  }

  lemma {:induction false} WorkAddsJobs(s: System, w: Worker, a: WorkerAction)
    requires Enabled(s, w, a)
    ensures s.db.jobs.Keys <= ActWorker(s, w, a).db.jobs.Keys
  {
    hide FindJob, QueueFull, StoredBytes, CompletePublish, FromManifest, WithRunStatus, WithDeploymentStatus;
    if a.PublishRelease? { ReleaseTouchesOneJob(s.db, At(s, w).claim, a.queries); }
  }

  lemma {:induction false} WorkJobsStay(s: System, w: Worker, a: WorkerAction)
    requires Enabled(s, w, a)
    ensures var t' := ActWorker(s, w, a).db; JobsStay(s.db.jobs, t'.jobs, t'.runs, t'.deployments)
  {
    hide JobsStay, ActWorker, Enabled;
    WorkAddsJobs(s, w, a);
    var t' := ActWorker(s, w, a).db;
    MoreJobsStay(s.db.jobs, t'.jobs, t'.runs, t'.deployments);
  }

  // ---------- apps

  ghost predicate AppsStay(apps: map<Id, App>, apps': map<Id, App>, next: Id)
  {
    forall id :: id in apps' ==>
      if id in apps then apps'[id].tenant == apps[id].tenant && apps'[id].slug == apps[id].slug else id >= next
  }

  lemma {:induction false} ReleaseApps(t: Tables, tenant: Id, m: Manifest, checksum: Checksum, bytes: int, key: Key)
    requires Sound(t)
    ensures AppsStay(t.apps, CreateDeployment(t, tenant, m, checksum, bytes, key).0.apps, t.nextId)
  {
    hide Sound, FindJob, FindApp, QuotaAllows, DeploymentSlots;
    Unused(t, t.nextId);
  }

  lemma {:induction false} UserAppsStay(t: Tables, tenant: Id, a: UserAction)
    requires Sound(t)
    ensures AppsStay(t.apps, ActUser(t, tenant, a).apps, t.nextId)
  {
    hide Sound, CreateDatasetUpload, CreateDeployment, Queue, CreateConnector, UpdateConnector, DeleteConnector, CancelJob,
         CreateConnectorJob, SaveQueryRevision, DeleteQuery, DeleteDataset, FindApp, AppBusy;
    UserLeavesApps(t, tenant, a);
    if a.CreateRelease? { ReleaseApps(t, tenant, a.manifest, a.checksum, a.bytes, a.key); }
  }

  lemma {:induction false} UserLeavesApps(t: Tables, tenant: Id, a: UserAction)
    ensures !a.CreateRelease? && !a.RollBack? && !a.DropApp? ==> ActUser(t, tenant, a).apps == t.apps
  {
    hide FindJob, FindJobFor, FindDataset, FindApp, FindQuery, FindConnector, QuotaAllows, QueueFull, DeploymentSlots,
         RevisionSlots, QueryInUse, WithRunStatus, WithDeploymentStatus, ForgetConnectors, DatasetBusy;
  }

  lemma {:induction false} WorkAppsStay(s: System, w: Worker, a: WorkerAction)
    requires Enabled(s, w, a)
    ensures AppsStay(s.db.apps, ActWorker(s, w, a).db.apps, s.db.nextId)
  {
    hide FindJob, QueueFull, StoredBytes, CompletePublish, FromManifest, WithRunStatus, WithDeploymentStatus;
    if a.PublishRelease? { PublishApps(s.db, At(s, w).claim, a.queries); }
  }

  lemma {:induction false} PublishApps(t: Tables, c: Claim, queries: seq<PublishedQuery>)
    ensures AppsStay(t.apps, CompletePublish(t, c, queries).0.apps, t.nextId)
  {
    hide GrantAll;
    if PublishCompletes(t, c) { GrantAllLeavesApps(t, c.tenant, t.jobs[c.job].target, queries); }
  }

  lemma {:induction false} GrantAllLeavesApps(t: Tables, tenant: Id, d: Id, queries: seq<PublishedQuery>)
    ensures var r := GrantAll(t, tenant, d, queries); r.Some? ==> r.value.apps == t.apps
    decreases |queries|
  {
    hide FindQuery, RevisionSlots;
    if queries != [] {
      var saved := SaveRevision(t, tenant, queries[0].name, queries[0].sql, queries[0].types);
      GrantAllLeavesApps(saved.tables.(grants := saved.tables.grants + {Grant(tenant, d, saved.revision)}), tenant, d, queries[1..]);
    }
  }
}
