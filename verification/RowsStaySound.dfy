/** Every transaction that creates, edits or deletes rows around the jobs keeps the tables sound. */
module RowsStaySound {
  import opened Wrappers
  import opened Manifests
  import opened Schema
  import opened Transitions
  import opened Consistency
  import opened JobsStaySound
  import Numbering

  // ---------- adding a job with its row

  lemma {:induction false} AddJobKeeps(
    jobs: map<Id, Job>, runs: map<Id, SyncRun>, deployments: map<Id, Deployment>,
    id: Id, job: Job, runs': map<Id, SyncRun>, deployments': map<Id, Deployment>)
    requires JobsSound(jobs, runs, deployments)
    requires id !in jobs && JobRow(job, runs', deployments')
    requires forall other :: other in jobs ==> !SameTarget(jobs[other], job) && !SameKey(jobs[other], job)
    requires forall r :: r in runs ==> r in runs' && runs'[r] == runs[r]
    requires forall d :: d in deployments ==> d in deployments' && deployments'[d] == deployments[d]
    requires forall r :: r in runs' && r !in runs ==> !job.kind.AppPublish? && job.target == r
    requires forall d :: d in deployments' && d !in deployments ==> job.kind.AppPublish? && job.target == d
    ensures JobsSound(jobs[id := job], runs', deployments')
  {
    var jobs' := jobs[id := job];
    forall other | other in jobs' ensures JobRow(jobs'[other], runs', deployments') {
      if other != id { assert JobRow(jobs[other], runs, deployments); }
    }
    AddJobKeepsUnique(jobs, id, job);
    JobsStayAttached(jobs, jobs', runs, deployments, runs, deployments);
    forall r | r in runs' ensures HasJob(jobs', false, r) {
      assert r !in runs ==> JobFor(jobs', id, false, r);
      assert r in runs ==> HasJob(jobs', false, r);
    }
    forall d | d in deployments' ensures HasJob(jobs', true, d) {
      assert d !in deployments ==> JobFor(jobs', id, true, d);
      assert d in deployments ==> HasJob(jobs', true, d);
    }
  }

  lemma {:induction false} AddJobKeepsUnique(jobs: map<Id, Job>, id: Id, job: Job)
    requires OneJobEach(jobs) && UniqueKeys(jobs) && id !in jobs
    requires forall other :: other in jobs ==> !SameTarget(jobs[other], job) && !SameKey(jobs[other], job)
    ensures OneJobEach(jobs[id := job]) && UniqueKeys(jobs[id := job])
  {
    var jobs' := jobs[id := job];
    forall a, b | a in jobs' && b in jobs' && SameTarget(jobs'[a], jobs'[b]) ensures a == b {
      assert a != id && b != id ==> SameTarget(jobs[a], jobs[b]);
      assert a == id && b != id ==> SameTarget(jobs[b], job);
    }
    forall a, b | a in jobs' && b in jobs' && SameKey(jobs'[a], jobs'[b]) ensures a == b {
      assert a != id && b != id ==> SameKey(jobs[a], jobs[b]);
      assert a == id && b != id ==> SameKey(jobs[b], job);
    }
  }

  /** No job points at an identifier that was never issued. */
  lemma {:induction false} FreshTarget(t: Tables, job: Job)
    requires Sound(t) && job.target >= t.nextId
    ensures forall other :: other in t.jobs ==> !SameTarget(t.jobs[other], job)
  {
    hide DatasetRows, ConnectorRows, AppsSound, QueriesSound, GrantsSound, RunRows;
    forall other | other in t.jobs ensures !SameTarget(t.jobs[other], job) {
      assert JobRow(t.jobs[other], t.runs, t.deployments);
    }
  }

  lemma {:induction false} FreshKey(jobs: map<Id, Job>, job: Job)
    requires FindJob(jobs, job.tenant, job.kind, job.key).None?
    ensures forall other :: other in jobs ==> !SameKey(jobs[other], job)
  {
    forall other | other in jobs ensures !SameKey(jobs[other], job) {
      assert !KeyedJob(jobs, other, job.tenant, job.kind, job.key);
    }
  }

  lemma {:induction false} GrowsBounded(t: Tables, t': Tables)
    requires Bounded(t) && t.nextId <= t'.nextId
    requires Below(t'.jobs.Keys - t.jobs.Keys, t'.nextId) && Below(t'.runs.Keys - t.runs.Keys, t'.nextId)
    requires Below(t'.datasets.Keys - t.datasets.Keys, t'.nextId) && Below(t'.apps.Keys - t.apps.Keys, t'.nextId)
    requires Below(t'.deployments.Keys - t.deployments.Keys, t'.nextId)
    requires Below(t'.queries.Keys - t.queries.Keys, t'.nextId)
    requires Below(t'.revisions.Keys - t.revisions.Keys, t'.nextId)
    requires Below(t'.connectors.Keys - t.connectors.Keys, t'.nextId)
    ensures Bounded(t')
  {
    GrowsBelow(t.jobs.Keys, t'.jobs.Keys, t.nextId, t'.nextId);
    GrowsBelow(t.runs.Keys, t'.runs.Keys, t.nextId, t'.nextId);
    GrowsBelow(t.datasets.Keys, t'.datasets.Keys, t.nextId, t'.nextId);
    GrowsBelow(t.apps.Keys, t'.apps.Keys, t.nextId, t'.nextId);
    GrowsBelow(t.deployments.Keys, t'.deployments.Keys, t.nextId, t'.nextId);
    GrowsBelow(t.queries.Keys, t'.queries.Keys, t.nextId, t'.nextId);
    GrowsBelow(t.revisions.Keys, t'.revisions.Keys, t.nextId, t'.nextId);
    GrowsBelow(t.connectors.Keys, t'.connectors.Keys, t.nextId, t'.nextId);
  }

  lemma {:induction false} GrowsBelow(keys: set<Id>, keys': set<Id>, next: Id, next': Id)
    requires Below(keys, next) && next <= next' && Below(keys' - keys, next')
    ensures Below(keys', next')
  {
    forall id | id in keys' ensures id < next' {
      assert id !in keys ==> id in keys' - keys;
    }
  }

  lemma {:induction false} Unused(t: Tables, id: Id)
    requires Sound(t) && id >= t.nextId
    ensures id !in t.jobs && id !in t.runs && id !in t.datasets && id !in t.apps && id !in t.deployments
    ensures id !in t.queries && id !in t.revisions && id !in t.connectors
  {
    hide JobsSound, RunRows, DatasetRows, ConnectorRows, AppsSound, QueriesSound, GrantsSound;
  }

  // ---------- datasets

  lemma {:induction false} FoundDataset(datasets: map<Id, Dataset>, tenant: Id, slug: string)
    ensures var found := FindDataset(datasets, tenant, slug);
            if found.Some? then NamedDataset(datasets, found.value, tenant, slug)
            else forall id :: id in datasets ==> !SameDataset(datasets[id], Dataset(tenant, slug, None))
  {
    if FindDataset(datasets, tenant, slug).None? {
      forall id | id in datasets ensures !SameDataset(datasets[id], Dataset(tenant, slug, None)) {
        assert !NamedDataset(datasets, id, tenant, slug);
      }
    }
  }

  lemma {:induction false} NewDatasetKeeps(t: Tables, id: Id, tenant: Id, slug: string)
    requires RunRows(t.runs, t.datasets) && ConnectorRows(t.connectors, t.datasets) && DatasetRows(t.datasets)
    requires id !in t.datasets
    requires forall other :: other in t.datasets ==> !SameDataset(t.datasets[other], Dataset(tenant, slug, None))
    ensures var datasets' := t.datasets[id := Dataset(tenant, slug, None)];
            RunRows(t.runs, datasets') && ConnectorRows(t.connectors, datasets') && DatasetRows(datasets')
  {
    var row := Dataset(tenant, slug, None);
    var datasets' := t.datasets[id := row];
    forall a, b | a in datasets' && b in datasets' && SameDataset(datasets'[a], datasets'[b]) ensures a == b {
      assert a != id && b != id ==> SameDataset(t.datasets[a], t.datasets[b]);
      assert a == id && b != id ==> SameDataset(t.datasets[b], row);
    }
    forall a, b | a in t.connectors && b in t.connectors && SameConnector(t.connectors[a], t.connectors[b]) ensures a == b {
    }
  }

  lemma {:induction false} NewRunKeeps(runs: map<Id, SyncRun>, datasets: map<Id, Dataset>, r: Id, run: SyncRun)
    requires RunRows(runs, datasets) && run.dataset in datasets && datasets[run.dataset].tenant == run.tenant
    requires run.result.None? && !run.status.Succeeded?
    ensures RunRows(runs[r := run], datasets)
  {
  }

  lemma {:induction false} CreateDatasetUploadKeeps(t: Tables, tenant: Id, slug: string, format: Format, bytes: int, key: Key)
    requires Sound(t)
    ensures Sound(CreateDatasetUpload(t, tenant, slug, format, bytes, key).0)
  {
    hide Bounded, JobsSound, RunRows, DatasetRows, ConnectorRows, AppsSound, QueriesSound, GrantsSound, FindDataset,
         FindJob, QuotaAllows;
    var t' := CreateDatasetUpload(t, tenant, slug, format, bytes, key).0;
    if t' != t {
      var id, r := t.nextId + 2, t.nextId + 1;
      Unused(t, t.nextId);
      Unused(t, r);
      Unused(t, id);
      FreshTarget(t, t'.jobs[id]);
      FreshKey(t.jobs, t'.jobs[id]);
      FoundDataset(t.datasets, tenant, slug);
      AddJobKeeps(t.jobs, t.runs, t.deployments, id, t'.jobs[id], t'.runs, t'.deployments);
      if FindDataset(t.datasets, tenant, slug).None? { NewDatasetKeeps(t, t.nextId, tenant, slug); }
      NewRunKeeps(t.runs, t'.datasets, r, t'.runs[r]);
      GrowsBounded(t, t');
    }
  }

  // ---------- connectors

  lemma {:induction false} CreateConnectorJobKeeps(t: Tables, tenant: Id, connector: Id, key: Key)
    requires Sound(t)
    ensures Sound(CreateConnectorJob(t, tenant, connector, key).0)
  {
    hide Bounded, JobsSound, RunRows, DatasetRows, ConnectorRows, AppsSound, QueriesSound, GrantsSound, FindJob,
         QueueFull;
    var t' := CreateConnectorJob(t, tenant, connector, key).0;
    if t' != t {
      var r, id := t.nextId, t.nextId + 1;
      Unused(t, r);
      Unused(t, id);
      ConnectorFacts(t, connector);
      FreshTarget(t, t'.jobs[id]);
      FreshKey(t.jobs, t'.jobs[id]);
      AddJobKeeps(t.jobs, t.runs, t.deployments, id, t'.jobs[id], t'.runs, t'.deployments);
      NewRunKeeps(t.runs, t.datasets, r, t'.runs[r]);
      GrowsBounded(t, t');
    }
  }

  lemma {:induction false} ConnectorFacts(t: Tables, id: Id)
    requires Sound(t) && id in t.connectors
    ensures t.connectors[id].dataset in t.datasets
    ensures t.datasets[t.connectors[id].dataset].tenant == t.connectors[id].tenant && 1 <= t.connectors[id].refreshMinutes
  {
    hide JobsSound, RunRows, DatasetRows, AppsSound, QueriesSound, GrantsSound;
  }

  lemma {:induction false} ConnectorRowKeeps(t: Tables, id: Id, row: Connector)
    requires Sound(t) && id in t.connectors && 1 <= row.refreshMinutes
    requires row.tenant == t.connectors[id].tenant && row.dataset == t.connectors[id].dataset && row.slug == t.connectors[id].slug
    ensures Sound(t.(connectors := t.connectors[id := row]))
  {
    hide Bounded, JobsSound, RunRows, DatasetRows, AppsSound, QueriesSound, GrantsSound;
    var connectors' := t.connectors[id := row];
    SucceededBounds(t, t.(connectors := connectors'));
    forall a, b | a in connectors' && b in connectors' && SameConnector(connectors'[a], connectors'[b]) ensures a == b {
      assert SameConnector(t.connectors[a], t.connectors[b]);
    }
  }

  lemma {:induction false} EnqueueDueConnectorKeeps(t: Tables, id: Id)
    requires Sound(t)
    ensures Sound(EnqueueDueConnector(t, id).0)
  {
    hide Sound, CreateConnectorJob, QueueFull;
    if Due(t, id) {
      var row := t.connectors[id];
      ConnectorFacts(t, id);
      var key := Scheduled(id, row.nextSyncAt);
      CreateConnectorJobKeeps(t, row.tenant, id, key);
      CreateConnectorJobFrame(t, row.tenant, id, key);
      ConnectorRowKeeps(t, id, row.(nextSyncAt := t.now + MINUTE));
      ConnectorRowKeeps(CreateConnectorJob(t, row.tenant, id, key).0, id, row.(nextSyncAt := t.now + row.refreshMinutes * MINUTE));
    }
  }

  lemma {:induction false} CreateConnectorJobFrame(t: Tables, tenant: Id, connector: Id, key: Key)
    ensures CreateConnectorJob(t, tenant, connector, key).0.connectors == t.connectors
  {
  }

  lemma {:induction false} UpdateConnectorKeeps(t: Tables, tenant: Id, slug: string, enabled: bool, refreshMinutes: int)
    requires Sound(t)
    ensures Sound(UpdateConnector(t, tenant, slug, enabled, refreshMinutes).0)
  {
    hide Sound;
    var t' := UpdateConnector(t, tenant, slug, enabled, refreshMinutes).0;
    if t' != t {
      var id := FindConnector(t.connectors, tenant, slug).value;
      ConnectorRowKeeps(t, id, t'.connectors[id]);
    }
  }

  lemma {:induction false} CreateConnectorKeeps(t: Tables, tenant: Id, slug: string, datasetSlug: string, enabled: bool, refreshMinutes: int)
    requires Sound(t)
    ensures Sound(CreateConnector(t, tenant, slug, datasetSlug, enabled, refreshMinutes).0)
  {
    hide Bounded, JobsSound, RunRows, DatasetRows, ConnectorRows, AppsSound, QueriesSound, GrantsSound, FindDataset;
    var t' := CreateConnector(t, tenant, slug, datasetSlug, enabled, refreshMinutes).0;
    if t' != t {
      var id := t.nextId + 1;
      Unused(t, t.nextId);
      Unused(t, id);
      FoundDataset(t.datasets, tenant, datasetSlug);
      if FindDataset(t.datasets, tenant, datasetSlug).None? { NewDatasetKeeps(t, t.nextId, tenant, datasetSlug); }
      NewConnectorKeeps(t.connectors, t'.datasets, id, t'.connectors[id]);
      GrowsBounded(t, t');
    }
  }

  lemma {:induction false} NewConnectorKeeps(connectors: map<Id, Connector>, datasets: map<Id, Dataset>, id: Id, row: Connector)
    requires ConnectorRows(connectors, datasets) && id !in connectors
    requires row.dataset in datasets && datasets[row.dataset].tenant == row.tenant && 1 <= row.refreshMinutes
    requires forall other :: other in connectors ==> !SameConnector(connectors[other], row)
    ensures ConnectorRows(connectors[id := row], datasets)
  {
    var connectors' := connectors[id := row];
    forall a, b | a in connectors' && b in connectors' && SameConnector(connectors'[a], connectors'[b]) ensures a == b {
      assert a != id && b != id ==> SameConnector(connectors[a], connectors[b]);
      assert a == id && b != id ==> SameConnector(connectors[b], row);
    }
  }

  lemma {:induction false} ForgetKeepsJobs(
    jobs: map<Id, Job>, runs: map<Id, SyncRun>, deployments: map<Id, Deployment>, gone: set<Id>)
    requires JobsSound(jobs, runs, deployments)
    ensures JobsSound(jobs, ForgetConnectors(runs, gone), deployments)
  {
    var runs' := ForgetConnectors(runs, gone);
    forall id | id in jobs ensures JobRow(jobs[id], runs', deployments) {
      assert JobRow(jobs[id], runs, deployments);
    }
    SameJobsStayUnique(jobs, jobs);
    JobsStayAttached(jobs, jobs, runs, deployments, runs', deployments);
  }

  lemma {:induction false} RunBytesKeepJobs(
    jobs: map<Id, Job>, runs: map<Id, SyncRun>, deployments: map<Id, Deployment>, r: Id, bytes: nat)
    requires JobsSound(jobs, runs, deployments) && r in runs
    ensures JobsSound(jobs, runs[r := runs[r].(bytes := bytes)], deployments)
  {
    ResultKeepsJobs(jobs, runs, deployments, r, runs[r].(bytes := bytes));
  }

  lemma {:induction false} SetConnectorRunBytesKeeps(t: Tables, c: Claim, bytes: int)
    requires Sound(t)
    ensures Sound(SetConnectorRunBytes(t, c, bytes).0)
  {
    hide Bounded, JobsSound, DatasetRows, ConnectorRows, AppsSound, QueriesSound, GrantsSound, StoredBytes;
    var t' := SetConnectorRunBytes(t, c, bytes).0;
    if t' != t {
      RunBytesKeepJobs(t.jobs, t.runs, t.deployments, c.target, bytes);
      SucceededBounds(t, t');
    }
  }

  lemma {:induction false} ShrinksBounded(t: Tables, t': Tables)
    requires Bounded(t) && t'.nextId == t.nextId
    requires t'.jobs.Keys <= t.jobs.Keys && t'.runs.Keys <= t.runs.Keys && t'.datasets.Keys <= t.datasets.Keys
    requires t'.apps.Keys <= t.apps.Keys && t'.deployments.Keys <= t.deployments.Keys && t'.queries.Keys <= t.queries.Keys
    requires t'.revisions.Keys <= t.revisions.Keys && t'.connectors.Keys <= t.connectors.Keys
    ensures Bounded(t')
  {
  }

  lemma {:induction false} FewerConnectors(connectors: map<Id, Connector>, connectors': map<Id, Connector>, datasets: map<Id, Dataset>, datasets': map<Id, Dataset>)
    requires ConnectorRows(connectors, datasets)
    requires forall id :: id in connectors' ==> id in connectors && connectors'[id] == connectors[id]
    requires forall id :: id in connectors' ==> connectors'[id].dataset in datasets'
    requires forall d :: d in datasets' ==> d in datasets && datasets'[d] == datasets[d]
    ensures ConnectorRows(connectors', datasets')
  {
    forall a, b | a in connectors' && b in connectors' && SameConnector(connectors'[a], connectors'[b]) ensures a == b {
      assert SameConnector(connectors[a], connectors[b]);
    }
  }

  lemma {:induction false} DeleteConnectorKeeps(t: Tables, tenant: Id, slug: string)
    requires Sound(t)
    ensures Sound(DeleteConnector(t, tenant, slug).0)
  {
    hide Bounded, JobsSound, DatasetRows, ConnectorRows, AppsSound, QueriesSound, GrantsSound, FindConnector;
    var t' := DeleteConnector(t, tenant, slug).0;
    if t' != t {
      var id := FindConnector(t.connectors, tenant, slug).value;
      ForgetKeepsJobs(t.jobs, t.runs, t.deployments, {id});
      ConnectorsPoint(t);
      FewerConnectors(t.connectors, t'.connectors, t.datasets, t.datasets);
      ShrinksBounded(t, t');
    }
  }

  lemma {:induction false} ConnectorsPoint(t: Tables)
    requires Sound(t)
    ensures forall id :: id in t.connectors ==> t.connectors[id].dataset in t.datasets
  {
    hide JobsSound, RunRows, DatasetRows, AppsSound, QueriesSound, GrantsSound;
  }

  // ---------- deleting a dataset

  lemma {:induction false} FewerJobs(
    jobs: map<Id, Job>, runs: map<Id, SyncRun>, deployments: map<Id, Deployment>,
    jobs': map<Id, Job>, runs': map<Id, SyncRun>, deployments': map<Id, Deployment>)
    requires JobsSound(jobs, runs, deployments)
    requires forall id :: id in jobs' ==> id in jobs && jobs'[id] == jobs[id]
    requires forall r :: r in runs' ==> r in runs && runs'[r].tenant == runs[r].tenant && runs'[r].status == runs[r].status
    requires forall d :: d in deployments' ==> d in deployments && deployments'[d] == deployments[d]
    requires forall id :: id in jobs ==>
               (id in jobs' <==> if jobs[id].kind.AppPublish? then jobs[id].target in deployments' else jobs[id].target in runs')
    ensures JobsSound(jobs', runs', deployments')
  {
    forall id | id in jobs' ensures JobRow(jobs'[id], runs', deployments') {
      assert JobRow(jobs[id], runs, deployments);
    }
    SameJobsStayUnique(jobs, jobs');
    forall r | r in runs' ensures HasJob(jobs', false, r) {
      assert HasJob(jobs, false, r);
      var id :| JobFor(jobs, id, false, r);
      assert JobFor(jobs', id, false, r);
    }
    forall d | d in deployments' ensures HasJob(jobs', true, d) {
      assert HasJob(jobs, true, d);
      var id :| JobFor(jobs, id, true, d);
      assert JobFor(jobs', id, true, d);
    }
  }

  lemma {:induction false} TargetsExist(t: Tables)
    requires Sound(t)
    ensures forall id :: id in t.jobs ==> if t.jobs[id].kind.AppPublish? then t.jobs[id].target in t.deployments else t.jobs[id].target in t.runs
  {
    hide RunRows, DatasetRows, ConnectorRows, AppsSound, QueriesSound, GrantsSound;
    forall id | id in t.jobs ensures if t.jobs[id].kind.AppPublish? then t.jobs[id].target in t.deployments else t.jobs[id].target in t.runs {
      assert JobRow(t.jobs[id], t.runs, t.deployments);
    }
  }

  lemma {:induction false} FewerDatasets(datasets: map<Id, Dataset>, d: Id)
    requires DatasetRows(datasets)
    ensures DatasetRows(datasets - {d})
  {
    var datasets' := datasets - {d};
    forall a, b | a in datasets' && b in datasets' && SameDataset(datasets'[a], datasets'[b]) ensures a == b {
      assert SameDataset(datasets[a], datasets[b]);
    }
  }

  lemma {:induction false} FewerRuns(runs: map<Id, SyncRun>, datasets: map<Id, Dataset>, d: Id, runs': map<Id, SyncRun>)
    requires RunRows(runs, datasets)
    requires forall r :: r in runs' ==> r in runs && runs'[r] == runs[r].(connector := runs'[r].connector) && runs[r].dataset != d
    ensures RunRows(runs', datasets - {d})
  {
  }

  lemma {:induction false} RemoveDatasetKeeps(t: Tables, d: Id)
    requires Sound(t)
    ensures Sound(RemoveDataset(t, d))
  {
    hide Bounded, JobsSound, RunRows, DatasetRows, ConnectorRows, AppsSound, QueriesSound, GrantsSound;
    var t' := RemoveDataset(t, d);
    TargetsExist(t);
    FewerJobs(t.jobs, t.runs, t.deployments, t'.jobs, t'.runs, t'.deployments);
    FewerDatasets(t.datasets, d);
    FewerRuns(t.runs, t.datasets, d, t'.runs);
    ConnectorsPoint(t);
    FewerConnectors(t.connectors, t'.connectors, t.datasets, t'.datasets);
    ShrinksBounded(t, t');
  }

  lemma {:induction false} DeleteDatasetKeeps(t: Tables, tenant: Id, slug: string, dropped: bool)
    requires Sound(t)
    ensures Sound(DeleteDataset(t, tenant, slug, dropped).0)
  {
    hide Sound, FindDataset, RemoveDataset, DatasetBusy;
    var found := FindDataset(t.datasets, tenant, slug);
    if found.Some? { RemoveDatasetKeeps(t, found.value); }
  }

  // ---------- deployments

  lemma {:induction false} FoundApp(apps: map<Id, App>, tenant: Id, slug: string)
    ensures var found := FindApp(apps, tenant, slug);
            if found.Some? then NamedApp(apps, found.value, tenant, slug)
            else forall id :: id in apps ==> !SameApp(apps[id], App(tenant, slug, None))
  {
    if FindApp(apps, tenant, slug).None? {
      forall id | id in apps ensures !SameApp(apps[id], App(tenant, slug, None)) {
        assert !NamedApp(apps, id, tenant, slug);
      }
    }
  }

  lemma {:induction false} NewAppKeeps(apps: map<Id, App>, deployments: map<Id, Deployment>, id: Id, tenant: Id, slug: string)
    requires AppsSound(apps, deployments) && id !in apps
    requires forall other :: other in apps ==> !SameApp(apps[other], App(tenant, slug, None))
    ensures AppsSound(apps[id := App(tenant, slug, None)], deployments)
  {
    var apps' := apps[id := App(tenant, slug, None)];
    forall other | other in apps' ensures CurrentOk(other, apps'[other], deployments) {
      assert other != id ==> CurrentOk(other, apps[other], deployments);
    }
    forall a, b | a in apps' && b in apps' && SameApp(apps'[a], apps'[b]) ensures a == b {
      assert a != id && b != id ==> SameApp(apps[a], apps[b]);
      assert a == id && b != id ==> SameApp(apps[b], apps'[id]);
    }
  }

  lemma {:induction false} NewDeploymentKeeps(apps: map<Id, App>, deployments: map<Id, Deployment>, d: Id, row: Deployment)
    requires AppsSound(apps, deployments) && d !in deployments
    requires row.app in apps && apps[row.app].tenant == row.tenant && row.previous == apps[row.app].current
    requires row.version == Numbering.Next(DeploymentSlots(deployments), row.app)
    ensures AppsSound(apps, deployments[d := row])
  {
    hide Numbering.Numbered, Numbering.Next, DeploymentSlots;
    var deployments' := deployments[d := row];
    NewVersionNumbered(deployments, d, row);
    NextIsAbove(deployments, row.app);
    forall other | other in deployments' ensures PreviousOk(deployments'[other], deployments') {
      if other == d {
        assert CurrentOk(row.app, apps[row.app], deployments);
      } else {
        assert PreviousOk(deployments[other], deployments);
      }
    }
    forall id | id in apps ensures CurrentOk(id, apps[id], deployments') {
      assert CurrentOk(id, apps[id], deployments);
    }
    forall a, b | a in apps && b in apps && SameApp(apps[a], apps[b]) ensures a == b {
    }
  }

  lemma {:induction false} NewVersionNumbered(deployments: map<Id, Deployment>, d: Id, row: Deployment)
    requires Numbering.Numbered(DeploymentSlots(deployments)) && d !in deployments
    requires row.version == Numbering.Next(DeploymentSlots(deployments), row.app)
    ensures Numbering.Numbered(DeploymentSlots(deployments[d := row]))
  {
    hide Numbering.Numbered, Numbering.Next;
    Numbering.InsertKeepsNumbered(DeploymentSlots(deployments), d, row.app);
    assert DeploymentSlots(deployments[d := row]) == DeploymentSlots(deployments)[d := Numbering.Slot(row.app, row.version)];
  }

  lemma {:induction false} NextIsAbove(deployments: map<Id, Deployment>, app: Id)
    ensures forall d :: d in deployments && deployments[d].app == app
                        ==> deployments[d].version < Numbering.Next(DeploymentSlots(deployments), app)
  {
    var slots := DeploymentSlots(deployments);
    var next := Numbering.Next(slots, app);
    forall d | d in deployments && deployments[d].app == app ensures deployments[d].version < next {
      assert slots[d].version in Numbering.VersionsOf(slots, app);
    }
  }

  lemma {:induction false} NewDeploymentGrants(grants: set<Grant>, deployments: map<Id, Deployment>, d: Id, row: Deployment, revisions: map<Id, Revision>)
    requires GrantsSound(grants, deployments, revisions) && d !in deployments
    ensures GrantsSound(grants, deployments[d := row], revisions)
  {
    forall g | g in grants ensures GrantRow(g, deployments[d := row], revisions) {
      assert GrantRow(g, deployments, revisions);
    }
  }

  lemma {:induction false} CreateDeploymentKeeps(t: Tables, tenant: Id, m: Manifest, checksum: Checksum, bytes: int, key: Key)
    requires Sound(t)
    ensures Sound(CreateDeployment(t, tenant, m, checksum, bytes, key).0)
  {
    hide Bounded, JobsSound, RunRows, DatasetRows, ConnectorRows, AppsSound, QueriesSound, GrantsSound, FindApp,
         FindJob, QuotaAllows, DeploymentSlots;
    var t' := CreateDeployment(t, tenant, m, checksum, bytes, key).0;
    if t' != t {
      var id, d := t.nextId + 2, t.nextId + 1;
      Unused(t, t.nextId);
      Unused(t, d);
      Unused(t, id);
      FreshTarget(t, t'.jobs[id]);
      FreshKey(t.jobs, t'.jobs[id]);
      FoundApp(t.apps, tenant, m.app.slug);
      AddJobKeeps(t.jobs, t.runs, t.deployments, id, t'.jobs[id], t'.runs, t'.deployments);
      if FindApp(t.apps, tenant, m.app.slug).None? { NewAppKeeps(t.apps, t.deployments, t.nextId, tenant, m.app.slug); }
      NewDeploymentKeeps(t'.apps, t.deployments, d, t'.deployments[d]);
      NewDeploymentGrants(t.grants, t.deployments, d, t'.deployments[d], t.revisions);
      GrowsBounded(t, t');
    }
  }

  lemma {:induction false} PointKeepsApps(apps: map<Id, App>, deployments: map<Id, Deployment>, d: Id)
    requires AppsSound(apps, deployments)
    requires d in deployments && deployments[d].status.Succeeded? && deployments[d].app in apps
    ensures var app := deployments[d].app; AppsSound(apps[app := apps[app].(current := Some(d))], deployments)
  {
    var app := deployments[d].app;
    var apps' := apps[app := apps[app].(current := Some(d))];
    forall id | id in apps' ensures CurrentOk(id, apps'[id], deployments) {
      assert CurrentOk(id, apps[id], deployments);
    }
    forall a, b | a in apps' && b in apps' && SameApp(apps'[a], apps'[b]) ensures a == b {
      assert SameApp(apps[a], apps[b]);
    }
  }

  lemma {:induction false} RollbackKeeps(t: Tables, tenant: Id, d: Id)
    requires Sound(t)
    ensures Sound(Rollback(t, tenant, d).0)
  {
    hide Bounded, JobsSound, RunRows, DatasetRows, ConnectorRows, AppsSound, QueriesSound, GrantsSound;
    var t' := Rollback(t, tenant, d).0;
    if t' != t {
      PointKeepsApps(t.apps, t.deployments, d);
      SucceededBounds(t, t');
    }
  }

  // ---------- deleting an app

  lemma {:induction false} RemoveAppRows(apps: map<Id, App>, deployments: map<Id, Deployment>, app: Id, deployments': map<Id, Deployment>)
    requires AppsSound(apps, deployments)
    requires deployments' == map d | d in deployments && deployments[d].app != app :: deployments[d]
    ensures AppsSound(apps - {app}, deployments')
  {
    Numbering.RemoveKeepsNumbered(DeploymentSlots(deployments), DeploymentSlots(deployments'), app);
    forall d | d in deployments' ensures PreviousOk(deployments'[d], deployments') {
      assert PreviousOk(deployments[d], deployments);
    }
    forall id | id in apps && id != app ensures CurrentOk(id, apps[id], deployments') {
      assert CurrentOk(id, apps[id], deployments);
    }
    var apps' := apps - {app};
    forall a, b | a in apps' && b in apps' && SameApp(apps'[a], apps'[b]) ensures a == b {
      assert SameApp(apps[a], apps[b]);
    }
  }

  lemma {:induction false} FewerGrants(grants: set<Grant>, grants': set<Grant>, deployments: map<Id, Deployment>, deployments': map<Id, Deployment>, revisions: map<Id, Revision>)
    requires GrantsSound(grants, deployments, revisions) && grants' <= grants
    requires forall g :: g in grants' ==> g.deployment in deployments'
    requires forall d :: d in deployments' ==> d in deployments && deployments'[d] == deployments[d]
    ensures GrantsSound(grants', deployments', revisions)
  {
    forall g | g in grants' ensures GrantRow(g, deployments', revisions) {
      assert GrantRow(g, deployments, revisions);
    }
  }

  lemma {:induction false} GrantsPoint(t: Tables)
    requires Sound(t)
    ensures forall g :: g in t.grants ==> g.deployment in t.deployments
  {
    hide Bounded, JobsSound, RunRows, DatasetRows, ConnectorRows, AppsSound, QueriesSound;
  }

  lemma {:induction false} RemoveAppKeeps(t: Tables, app: Id)
    requires Sound(t)
    ensures Sound(RemoveApp(t, app))
  {
    hide Bounded, JobsSound, RunRows, DatasetRows, ConnectorRows, AppsSound, QueriesSound, GrantsSound;
    var t' := RemoveApp(t, app);
    TargetsExist(t);
    GrantsPoint(t);
    FewerJobs(t.jobs, t.runs, t.deployments, t'.jobs, t'.runs, t'.deployments);
    RemoveAppRows(t.apps, t.deployments, app, t'.deployments);
    FewerGrants(t.grants, t'.grants, t.deployments, t'.deployments, t.revisions);
    ShrinksBounded(t, t');
  }

  lemma {:induction false} DeleteAppKeeps(t: Tables, tenant: Id, slug: string)
    requires Sound(t)
    ensures Sound(DeleteApp(t, tenant, slug).0)
  {
    hide Sound, FindApp, RemoveApp, AppBusy;
    var found := FindApp(t.apps, tenant, slug);
    if found.Some? { RemoveAppKeeps(t, found.value); }
  }

  lemma {:induction false} FoundConnector(connectors: map<Id, Connector>, tenant: Id, slug: string)
    ensures var found := FindConnector(connectors, tenant, slug); found.Some? ==> NamedConnector(connectors, found.value, tenant, slug)
  {
  }
}
