/** Every transaction that touches a job keeps the tables sound. */
module JobsStaySound {
  import opened Wrappers
  import opened Schema
  import opened Transitions
  import opened Consistency

  /** The identity columns of a job never change. */
  predicate SameJob(a: Job, b: Job)
  {
    a.tenant == b.tenant && a.kind == b.kind && a.key == b.key && a.target == b.target
  }

  predicate Movable(jobs: map<Id, Job>, id: Id, job: Job)
  {
    id in jobs && SameJob(jobs[id], job) && RowOk(job)
  }

  // ---------- moving one job

  lemma {:induction false} RowFacts(t: Tables, id: Id)
    requires Sound(t) && id in t.jobs
    ensures JobRow(t.jobs[id], t.runs, t.deployments)
  {
  }

  lemma {:induction false} MovedRow(
    jobs: map<Id, Job>, runs: map<Id, SyncRun>, deployments: map<Id, Deployment>, id: Id, job: Job, other: Id)
    requires JobRows(jobs, runs, deployments) && OneJobEach(jobs)
    requires Movable(jobs, id, job) && other in jobs
    ensures JobRow(jobs[id := job][other], WithRunStatus(runs, job), WithDeploymentStatus(deployments, job))
  {
    assert JobRow(jobs[id], runs, deployments);
    if other != id {
      assert JobRow(jobs[other], runs, deployments);
      assert !SameTarget(jobs[other], jobs[id]);
    }
  }

  /** Rewriting rows under the same identity keeps targets and keys unique. */
  lemma {:induction false} SameJobsStayUnique(jobs: map<Id, Job>, jobs': map<Id, Job>)
    requires OneJobEach(jobs) && UniqueKeys(jobs)
    requires forall id :: id in jobs' ==> id in jobs && SameJob(jobs[id], jobs'[id])
    ensures OneJobEach(jobs') && UniqueKeys(jobs')
  {
    forall a, b | a in jobs' && b in jobs' && SameTarget(jobs'[a], jobs'[b]) ensures a == b {
      assert SameTarget(jobs[a], jobs[b]);
    }
    forall a, b | a in jobs' && b in jobs' && SameKey(jobs'[a], jobs'[b]) ensures a == b {
      assert SameKey(jobs[a], jobs[b]);
    }
  }

  /** Rewriting rows under the same identity leaves every run and deployment its job. */
  lemma {:induction false} JobsStayAttached(
    jobs: map<Id, Job>, jobs': map<Id, Job>, runs: map<Id, SyncRun>, deployments: map<Id, Deployment>,
    runs': map<Id, SyncRun>, deployments': map<Id, Deployment>)
    requires AllHaveJobs(jobs, runs, deployments)
    requires forall id :: id in jobs ==> id in jobs' && SameTarget(jobs[id], jobs'[id])
    requires runs'.Keys <= runs.Keys && deployments'.Keys <= deployments.Keys
    ensures AllHaveJobs(jobs', runs', deployments')
  {
    forall r | r in runs' ensures HasJob(jobs', false, r) {
      assert HasJob(jobs, false, r);
      var id :| JobFor(jobs, id, false, r);
      assert JobFor(jobs', id, false, r);
    }
    forall d | d in deployments' ensures HasJob(jobs', true, d) {
      assert HasJob(jobs, true, d);
      var id :| JobFor(jobs, id, true, d);
      assert JobFor(jobs', id, true, d);
    }
  }

  lemma {:induction false} MoveKeepsJobs(
    jobs: map<Id, Job>, runs: map<Id, SyncRun>, deployments: map<Id, Deployment>, id: Id, job: Job)
    requires JobsSound(jobs, runs, deployments) && Movable(jobs, id, job)
    ensures JobsSound(jobs[id := job], WithRunStatus(runs, job), WithDeploymentStatus(deployments, job))
  {
    forall other | other in jobs
      ensures JobRow(jobs[id := job][other], WithRunStatus(runs, job), WithDeploymentStatus(deployments, job)) {
      MovedRow(jobs, runs, deployments, id, job, other);
    }
    SameJobsStayUnique(jobs, jobs[id := job]);
    JobsStayAttached(jobs, jobs[id := job], runs, deployments, WithRunStatus(runs, job), WithDeploymentStatus(deployments, job));
  }

  /** Deployments keep every column but the status, and a succeeded one stays so. */
  ghost predicate DeploymentsCarry(deployments: map<Id, Deployment>, deployments': map<Id, Deployment>)
  {
    && deployments'.Keys == deployments.Keys
    && forall d :: d in deployments ==>
         && deployments'[d] == deployments[d].(status := deployments'[d].status)
         && (deployments[d].status.Succeeded? ==> deployments'[d].status.Succeeded?)
  }

  lemma {:induction false} CarryKeepsApps(apps: map<Id, App>, deployments: map<Id, Deployment>, deployments': map<Id, Deployment>)
    requires AppsSound(apps, deployments) && DeploymentsCarry(deployments, deployments')
    ensures AppsSound(apps, deployments')
  {
    assert DeploymentSlots(deployments') == DeploymentSlots(deployments);
    forall d | d in deployments' ensures PreviousOk(deployments'[d], deployments') {
      assert PreviousOk(deployments[d], deployments);
    }
    forall id | id in apps ensures CurrentOk(id, apps[id], deployments') {
      assert CurrentOk(id, apps[id], deployments);
    }
  }

  lemma {:induction false} CarryKeepsGrants(
    grants: set<Grant>, deployments: map<Id, Deployment>, deployments': map<Id, Deployment>, revisions: map<Id, Revision>)
    requires GrantsSound(grants, deployments, revisions) && DeploymentsCarry(deployments, deployments')
    ensures GrantsSound(grants, deployments', revisions)
  {
    forall g | g in grants ensures GrantRow(g, deployments', revisions) {
      assert GrantRow(g, deployments, revisions);
    }
  }

  lemma {:induction false} MoveCarries(deployments: map<Id, Deployment>, job: Job)
    requires job.kind.AppPublish? && job.target in deployments ==> !deployments[job.target].status.Succeeded?
    ensures DeploymentsCarry(deployments, WithDeploymentStatus(deployments, job))
  {
  }

  lemma {:induction false} MoveKeepsRuns(runs: map<Id, SyncRun>, datasets: map<Id, Dataset>, job: Job)
    requires RunRows(runs, datasets)
    requires !job.kind.AppPublish? && job.target in runs ==> !runs[job.target].status.Succeeded? && !job.status.Succeeded?
    ensures RunRows(WithRunStatus(runs, job), datasets)
  {
  }

  lemma {:induction false} MoveKeepsBounds(t: Tables, id: Id, job: Job)
    requires Bounded(t) && id in t.jobs
    ensures Bounded(Move(t, id, job))
  {
    var t' := Move(t, id, job);
    assert t'.jobs.Keys == t.jobs.Keys && t'.runs.Keys == t.runs.Keys && t'.deployments.Keys == t.deployments.Keys;
  }

  /** Moving an unfinished job to another unfinished, a failed or a cancelled status. */
  lemma {:induction false} MoveKeeps(t: Tables, id: Id, job: Job)
    requires Sound(t) && Movable(t.jobs, id, job)
    requires t.jobs[id].status.Active() && !job.status.Succeeded?
    ensures Sound(Move(t, id, job))
  {
    hide Bounded, JobsSound, RunRows, DatasetRows, ConnectorRows, AppsSound, QueriesSound, GrantsSound;
    RowFacts(t, id);
    assert Bounded(Move(t, id, job)) by { MoveKeepsBounds(t, id, job); }
    MoveKeepsJobs(t.jobs, t.runs, t.deployments, id, job);
    MoveKeepsRuns(t.runs, t.datasets, job);
    MoveCarries(t.deployments, job);
    CarryKeepsApps(t.apps, t.deployments, WithDeploymentStatus(t.deployments, job));
    CarryKeepsGrants(t.grants, t.deployments, WithDeploymentStatus(t.deployments, job), t.revisions);
  }

  /** Rewriting a job row without touching its status. */
  lemma {:induction false} TouchKeeps(t: Tables, id: Id, job: Job)
    requires Sound(t) && Movable(t.jobs, id, job) && job.status == t.jobs[id].status
    ensures Sound(t.(jobs := t.jobs[id := job]))
  {
    hide Bounded, JobsSound, RunRows, DatasetRows, ConnectorRows, AppsSound, QueriesSound, GrantsSound;
    RowFacts(t, id);
    MoveKeepsBounds(t, id, job);
    MoveKeepsJobs(t.jobs, t.runs, t.deployments, id, job);
    assert WithRunStatus(t.runs, job) == t.runs;
    assert WithDeploymentStatus(t.deployments, job) == t.deployments;
  }

  // ---------- steps that move a job

  lemma {:induction false} FoundJobFor(jobs: map<Id, Job>, publish: bool, target: Id)
    ensures FindJobFor(jobs, publish, target).Some? ==> JobFor(jobs, FindJobFor(jobs, publish, target).value, publish, target)
    ensures HasJob(jobs, publish, target) ==> FindJobFor(jobs, publish, target).Some?
  {
  }

  lemma {:induction false} QueueKeeps(t: Tables, publish: bool, target: Id)
    requires Sound(t)
    requires if publish then target in t.deployments && t.deployments[target].status.AwaitingUpload?
             else target in t.runs && t.runs[target].status.AwaitingUpload?
    ensures Sound(Queue(t, publish, target))
  {
    hide Sound, FindJobFor;
    FoundJobFor(t.jobs, publish, target);
    var found := FindJobFor(t.jobs, publish, target);
    if found.Some? {
      var id := found.value;
      RowFacts(t, id);
      MoveKeeps(t, id, t.jobs[id].(status := Queued, availableAt := t.now));
    }
  }

  lemma {:induction false} TakeKeeps(t: Tables, id: Id, worker: Worker, lease: Time, kind: Kind)
    requires Sound(t) && Claimable(t.jobs, t.now, kind, id)
    ensures Sound(Take(t, id, worker, lease))
  {
    hide Sound;
    RowFacts(t, id);
    MoveKeeps(t, id, t.jobs[id].(status := Running, lease := Some(Lease(worker, t.now + lease)),
                                 attempts := t.jobs[id].attempts + 1));
  }

  lemma {:induction false} HeartbeatKeeps(t: Tables, c: Claim, lease: Time)
    requires Sound(t)
    ensures Sound(Heartbeat(t, c, lease))
  {
    hide Sound;
    if Holds(t.jobs, c) {
      RowFacts(t, c.job);
      TouchKeeps(t, c.job, t.jobs[c.job].(lease := Some(Lease(c.worker, t.now + lease))));
    }
  }

  lemma {:induction false} FailKeeps(t: Tables, c: Claim)
    requires Sound(t)
    ensures Sound(Fail(t, c))
  {
    hide Sound;
    if Holds(t.jobs, c) {
      RowFacts(t, c.job);
      MoveKeeps(t, c.job, t.jobs[c.job].(status := Failed, lease := None));
    }
  }

  lemma {:induction false} CancelClaimedKeeps(t: Tables, c: Claim)
    requires Sound(t)
    ensures Sound(CancelClaimed(t, c))
  {
    hide Sound;
    if Holds(t.jobs, c) {
      RowFacts(t, c.job);
      MoveKeeps(t, c.job, t.jobs[c.job].(status := Cancelled, lease := None));
    }
  }

  lemma {:induction false} RetryKeeps(t: Tables, c: Claim, delay: Time)
    requires Sound(t)
    ensures Sound(Retry(t, c, delay))
  {
    hide Sound;
    if MayRetry(t, c) {
      RowFacts(t, c.job);
      MoveKeeps(t, c.job, t.jobs[c.job].(status := Queued, lease := None, availableAt := t.now + delay));
    }
  }

  lemma {:induction false} CancelJobKeeps(t: Tables, tenant: Id, id: Id)
    requires Sound(t)
    ensures Sound(CancelJob(t, tenant, id).0)
  {
    hide Sound;
    if id in t.jobs && t.jobs[id].tenant == tenant && t.jobs[id].status.Active() {
      RowFacts(t, id);
      if t.jobs[id].status.Running? {
        TouchKeeps(t, id, t.jobs[id].(cancelRequested := true));
      } else {
        MoveKeeps(t, id, t.jobs[id].(status := Cancelled, cancelRequested := true));
      }
    }
  }

  // ---------- publishing a snapshot

  lemma {:induction false} ResultKeepsJobs(
    jobs: map<Id, Job>, runs: map<Id, SyncRun>, deployments: map<Id, Deployment>, r: Id, run: SyncRun)
    requires JobsSound(jobs, runs, deployments)
    requires r in runs && run.status == runs[r].status && run.tenant == runs[r].tenant
    ensures JobsSound(jobs, runs[r := run], deployments)
  {
    forall id | id in jobs ensures JobRow(jobs[id], runs[r := run], deployments) {
      assert JobRow(jobs[id], runs, deployments);
    }
    SameJobsStayUnique(jobs, jobs);
    JobsStayAttached(jobs, jobs, runs, deployments, runs[r := run], deployments);
  }

  lemma {:induction false} CurrentKeepsDatasets(datasets: map<Id, Dataset>, d: Id, row: Dataset)
    requires DatasetRows(datasets) && d in datasets && row.tenant == datasets[d].tenant && row.slug == datasets[d].slug
    ensures DatasetRows(datasets[d := row])
  {
    var datasets' := datasets[d := row];
    forall a, b | a in datasets' && b in datasets' && SameDataset(datasets'[a], datasets'[b]) ensures a == b {
      assert SameDataset(datasets[a], datasets[b]);
    }
  }

  lemma {:induction false} CompleteImportKeeps(t: Tables, c: Claim, result: ImportResult)
    requires Sound(t)
    ensures Sound(CompleteImport(t, c, result))
  {
    hide Bounded, JobsSound, RunRows, DatasetRows, ConnectorRows, AppsSound, QueriesSound, GrantsSound;
    if ImportCompletes(t, c) {
      var job := t.jobs[c.job];
      var done := job.(status := Succeeded, lease := None);
      var r := job.target;
      var t' := CompleteImport(t, c, result);
      RowFacts(t, c.job);
      RunFacts(t, r);
      MoveKeepsBounds(t, c.job, done);
      assert Bounded(t') by { SucceededBounds(Move(t, c.job, done), t'); }
      MoveKeepsJobs(t.jobs, t.runs, t.deployments, c.job, done);
      var runs1 := WithRunStatus(t.runs, done);
      ResultKeepsJobs(t'.jobs, runs1, t.deployments, r, runs1[r].(result := Some(result)));
      var d := t.runs[r].dataset;
      var row := t.datasets[d].(current := Some(Publication(result, t.runs[r].bytes)));
      CurrentKeepsDatasets(t.datasets, d, row);
      CurrentKeepsRows(t, d, row);
      ResultKeepsRuns(t.runs, t'.datasets, r, done, result);
    }
  }

  lemma {:induction false} RunFacts(t: Tables, r: Id)
    requires Sound(t) && r in t.runs
    ensures t.runs[r].dataset in t.datasets && t.datasets[t.runs[r].dataset].tenant == t.runs[r].tenant
  {
  }

  lemma {:induction false} SucceededBounds(t: Tables, t': Tables)
    requires Bounded(t) && t'.nextId == t.nextId
    requires t'.jobs.Keys == t.jobs.Keys && t'.runs.Keys == t.runs.Keys && t'.datasets.Keys == t.datasets.Keys
    requires t'.apps.Keys == t.apps.Keys && t'.deployments.Keys == t.deployments.Keys && t'.queries.Keys == t.queries.Keys
    requires t'.revisions.Keys == t.revisions.Keys && t'.connectors.Keys == t.connectors.Keys
    ensures Bounded(t')
  {
  }

  lemma {:induction false} CurrentKeepsRows(t: Tables, d: Id, row: Dataset)
    requires RunRows(t.runs, t.datasets) && ConnectorRows(t.connectors, t.datasets)
    requires d in t.datasets && row.tenant == t.datasets[d].tenant
    ensures RunRows(t.runs, t.datasets[d := row]) && ConnectorRows(t.connectors, t.datasets[d := row])
  {
    forall a, b | a in t.connectors && b in t.connectors && SameConnector(t.connectors[a], t.connectors[b]) ensures a == b {
    }
  }

  lemma {:induction false} ResultKeepsRuns(runs: map<Id, SyncRun>, datasets: map<Id, Dataset>, r: Id, done: Job, result: ImportResult)
    requires RunRows(runs, datasets) && r in runs && done.target == r && !done.kind.AppPublish? && done.status.Succeeded?
    ensures var runs1 := WithRunStatus(runs, done); RunRows(runs1[r := runs1[r].(result := Some(result))], datasets)
  {
  }

  lemma {:induction false} ClaimBelow(t: Tables, id: Id)
    requires Sound(t) && id in t.jobs
    ensures id < t.nextId
  {
    hide JobsSound, RunRows, DatasetRows, ConnectorRows, AppsSound, QueriesSound, GrantsSound;
  }

  lemma {:induction false} OneJob(t: Tables)
    requires Sound(t)
    ensures OneJobEach(t.jobs)
  {
    hide RunRows, DatasetRows, ConnectorRows, AppsSound, QueriesSound, GrantsSound, Bounded;
  }
}
