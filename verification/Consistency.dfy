/** What holds of the tables between transactions. */
module Consistency {
  import opened Wrappers
  import opened Schema
  import Numbering

  // ---------- the invariant, table by table

  ghost predicate Below(keys: set<Id>, next: Id)
  {
    forall id :: id in keys ==> id < next
  }

  /** Every identifier in use was issued. */
  ghost predicate Bounded(t: Tables)
  {
    && Below(t.jobs.Keys, t.nextId) && Below(t.runs.Keys, t.nextId) && Below(t.datasets.Keys, t.nextId)
    && Below(t.apps.Keys, t.nextId) && Below(t.deployments.Keys, t.nextId) && Below(t.queries.Keys, t.nextId)
    && Below(t.revisions.Keys, t.nextId) && Below(t.connectors.Keys, t.nextId)
  }

  predicate RowOk(job: Job)
  {
    (job.lease.Some? <==> job.status.Running?) && (job.cancelRequested ==> !job.status.Succeeded?)
  }

  /** A job and the row it works on agree on tenant and status. */
  ghost predicate JobRow(job: Job, runs: map<Id, SyncRun>, deployments: map<Id, Deployment>)
  {
    && RowOk(job)
    && (if job.kind.AppPublish?
        then job.target in deployments && deployments[job.target].tenant == job.tenant
             && deployments[job.target].status == job.status
        else job.target in runs && runs[job.target].tenant == job.tenant && runs[job.target].status == job.status)
  }

  ghost predicate JobRows(jobs: map<Id, Job>, runs: map<Id, SyncRun>, deployments: map<Id, Deployment>)
  {
    forall id :: id in jobs ==> JobRow(jobs[id], runs, deployments)
  }

  predicate SameTarget(a: Job, b: Job)
  {
    a.kind.AppPublish? == b.kind.AppPublish? && a.target == b.target
  }

  ghost predicate OneJobEach(jobs: map<Id, Job>)
  {
    forall a, b {:trigger SameTarget(jobs[a], jobs[b])} | a in jobs && b in jobs && SameTarget(jobs[a], jobs[b]) :: a == b
  }

  ghost predicate HasJob(jobs: map<Id, Job>, publish: bool, target: Id)
  {
    exists id :: JobFor(jobs, id, publish, target)
  }

  ghost predicate AllHaveJobs(jobs: map<Id, Job>, runs: map<Id, SyncRun>, deployments: map<Id, Deployment>)
  {
    && (forall id :: id in runs ==> HasJob(jobs, false, id))
    && (forall id :: id in deployments ==> HasJob(jobs, true, id))
  }

  predicate SameKey(a: Job, b: Job)
  {
    a.tenant == b.tenant && a.kind == b.kind && a.key == b.key
  }

  ghost predicate UniqueKeys(jobs: map<Id, Job>)
  {
    forall a, b {:trigger SameKey(jobs[a], jobs[b])} | a in jobs && b in jobs && SameKey(jobs[a], jobs[b]) :: a == b
  }

  ghost predicate RunRows(runs: map<Id, SyncRun>, datasets: map<Id, Dataset>)
  {
    forall id :: id in runs ==>
      && runs[id].dataset in datasets && datasets[runs[id].dataset].tenant == runs[id].tenant
      && (runs[id].result.Some? <==> runs[id].status.Succeeded?)
  }

  predicate SameDataset(a: Dataset, b: Dataset) { a.tenant == b.tenant && a.slug == b.slug }

  ghost predicate DatasetRows(datasets: map<Id, Dataset>)
  {
    forall a, b {:trigger SameDataset(datasets[a], datasets[b])} |
      a in datasets && b in datasets && SameDataset(datasets[a], datasets[b]) :: a == b
  }

  /** The current deployment of an app is one of its own, and succeeded. */
  ghost predicate CurrentOk(app: Id, row: App, deployments: map<Id, Deployment>)
  {
    row.current.Some? ==>
      var d := row.current.value;
      d in deployments && deployments[d].app == app && deployments[d].tenant == row.tenant && deployments[d].status.Succeeded?
  }

  predicate SameApp(a: App, b: App) { a.tenant == b.tenant && a.slug == b.slug }

  ghost predicate AppRows(apps: map<Id, App>, deployments: map<Id, Deployment>)
  {
    && (forall id :: id in apps ==> CurrentOk(id, apps[id], deployments))
    && (forall a, b {:trigger SameApp(apps[a], apps[b])} | a in apps && b in apps && SameApp(apps[a], apps[b]) :: a == b)
  }

  /** A deployment follows an earlier version of the same app. */
  ghost predicate PreviousOk(row: Deployment, deployments: map<Id, Deployment>)
  {
    row.previous.Some? ==>
      var p := row.previous.value;
      p in deployments && deployments[p].app == row.app && deployments[p].version < row.version
  }

  ghost predicate DeploymentRows(deployments: map<Id, Deployment>, apps: map<Id, App>)
  {
    && (forall id :: id in deployments ==>
          && deployments[id].app in apps && apps[deployments[id].app].tenant == deployments[id].tenant
          && PreviousOk(deployments[id], deployments))
    && Numbering.Numbered(DeploymentSlots(deployments))
  }

  predicate SameText(a: Revision, b: Revision) { a.sql == b.sql && a.types == b.types }

  /** A query points at its highest revision, and has one. */
  ghost predicate QueryCurrent(query: Id, row: Query, revisions: map<Id, Revision>)
  {
    && row.current.Some?
    && row.current.value in revisions
    && revisions[row.current.value].query == query
    && (forall r :: r in revisions && revisions[r].query == query ==> revisions[r].version <= revisions[row.current.value].version)
  }

  predicate SameQuery(a: Query, b: Query) { a.tenant == b.tenant && a.slug == b.slug }

  ghost predicate QueryRows(queries: map<Id, Query>, revisions: map<Id, Revision>)
  {
    && (forall id :: id in queries ==> QueryCurrent(id, queries[id], revisions))
    && (forall a, b {:trigger SameQuery(queries[a], queries[b])} |
          a in queries && b in queries && SameQuery(queries[a], queries[b]) :: a == b)
  }

  predicate Follows(a: Revision, b: Revision) { a.query == b.query && b.version == a.version + 1 }

  ghost predicate RevisionRows(revisions: map<Id, Revision>, queries: map<Id, Query>)
  {
    && (forall id :: id in revisions ==>
          revisions[id].query in queries && queries[revisions[id].query].tenant == revisions[id].tenant)
    && (forall a, b {:trigger Follows(revisions[a], revisions[b])} |
          a in revisions && b in revisions && Follows(revisions[a], revisions[b]) :: !SameText(revisions[a], revisions[b]))
    && Numbering.Numbered(RevisionSlots(revisions))
  }

  ghost predicate GrantRow(g: Grant, deployments: map<Id, Deployment>, revisions: map<Id, Revision>)
  {
    && g.deployment in deployments && deployments[g.deployment].tenant == g.tenant
    && g.revision in revisions && revisions[g.revision].tenant == g.tenant
  }

  /** Two grants of one deployment for one query. */
  predicate SameGrant(g: Grant, h: Grant, revisions: map<Id, Revision>)
    requires g.revision in revisions && h.revision in revisions
  {
    g.deployment == h.deployment && revisions[g.revision].query == revisions[h.revision].query
  }

  ghost predicate GrantRows(grants: set<Grant>, deployments: map<Id, Deployment>, revisions: map<Id, Revision>)
  {
    && (forall g :: g in grants ==> GrantRow(g, deployments, revisions))
    && (forall g, h {:trigger SameGrant(g, h, revisions)} |
          g in grants && h in grants && SameGrant(g, h, revisions) :: g == h)
  }

  ghost predicate GrantsSettled(grants: set<Grant>, deployments: map<Id, Deployment>)
  {
    forall g :: g in grants ==> g.deployment in deployments && deployments[g.deployment].status.Succeeded?
  }

  predicate SameConnector(a: Connector, b: Connector) { a.tenant == b.tenant && a.slug == b.slug }

  ghost predicate ConnectorRows(connectors: map<Id, Connector>, datasets: map<Id, Dataset>)
  {
    && (forall id :: id in connectors ==>
          && connectors[id].dataset in datasets && datasets[connectors[id].dataset].tenant == connectors[id].tenant
          && 1 <= connectors[id].refreshMinutes)
    && (forall a, b {:trigger SameConnector(connectors[a], connectors[b])} |
          a in connectors && b in connectors && SameConnector(connectors[a], connectors[b]) :: a == b)
  }

  ghost predicate JobsSound(jobs: map<Id, Job>, runs: map<Id, SyncRun>, deployments: map<Id, Deployment>)
  {
    && JobRows(jobs, runs, deployments)
    && OneJobEach(jobs)
    && AllHaveJobs(jobs, runs, deployments)
    && UniqueKeys(jobs)
  }

  ghost predicate AppsSound(apps: map<Id, App>, deployments: map<Id, Deployment>)
  {
    AppRows(apps, deployments) && DeploymentRows(deployments, apps)
  }

  ghost predicate QueriesSound(queries: map<Id, Query>, revisions: map<Id, Revision>)
  {
    QueryRows(queries, revisions) && RevisionRows(revisions, queries)
  }

  ghost predicate GrantsSound(grants: set<Grant>, deployments: map<Id, Deployment>, revisions: map<Id, Revision>)
  {
    GrantRows(grants, deployments, revisions) && GrantsSettled(grants, deployments)
  }

  ghost predicate Sound(t: Tables)
  {
    && Bounded(t)
    && JobsSound(t.jobs, t.runs, t.deployments)
    && RunRows(t.runs, t.datasets)
    && DatasetRows(t.datasets)
    && ConnectorRows(t.connectors, t.datasets)
    && AppsSound(t.apps, t.deployments)
    && QueriesSound(t.queries, t.revisions)
    && GrantsSound(t.grants, t.deployments, t.revisions)
  }
}
