/** An accepted create keeps its answer: in every later state its key leads to the same row or to a conflict. */
module Idempotency {
  import opened Wrappers
  import opened Manifests
  import opened Schema
  import opened Transitions
  import opened Consistency
  import opened JobsStaySound
  import opened RowsStaySound
  import opened Protocol
  import opened SoundRuns
  import opened Evolution
  import opened Safety
  import opened Guarantees
  import opened StorageQuota
  import opened Persistence
  import Databases

  // ---------- the bytes of an upload never change

  lemma {:induction false} UserBytesStay(t: Tables, tenant: Id, a: UserAction, r: Id)
    requires Sound(t) && r in t.runs
    ensures var t' := ActUser(t, tenant, a); r in t'.runs ==> t'.runs[r].bytes == t.runs[r].bytes
  {
    hide Sound, CreateDatasetUpload, CreateDeployment, Queue, CancelJob, CreateConnector, UpdateConnector,
         DeleteConnector, Rollback, SaveQueryRevision, DeleteQuery, DeleteDataset, DeleteApp, CreateConnectorJob;
    if Stores(a) {
      match a
      case CreateUpload(slug, format, bytes, key) => UploadAddsRun(t, tenant, slug, format, bytes, key, r);
      case CreateRelease(m, checksum, bytes, key) => ReleaseLeavesRuns(t, tenant, m, checksum, bytes, key);
      case SyncNow(connector, request) => SyncAddsRun(t, tenant, connector, Manual(request), r);
    } else {
      UserBytes(t, tenant, a);
    }
  }

  lemma {:induction false} UploadAddsRun(t: Tables, tenant: Id, slug: string, format: Format, bytes: int, key: Key, r: Id)
    requires Sound(t) && r in t.runs
    ensures var t' := CreateDatasetUpload(t, tenant, slug, format, bytes, key).0; r in t'.runs && t'.runs[r] == t.runs[r]
  {
    hide Sound, FindJob, FindDataset, QuotaAllows;
    Unused(t, t.nextId + 1);
  }

  lemma {:induction false} ReleaseLeavesRuns(t: Tables, tenant: Id, m: Manifest, checksum: Checksum, bytes: int, key: Key)
    ensures CreateDeployment(t, tenant, m, checksum, bytes, key).0.runs == t.runs
  {
    hide FindJob, FindApp, QuotaAllows, DeploymentSlots;
  }

  lemma {:induction false} SyncAddsRun(t: Tables, tenant: Id, connector: Id, key: Key, r: Id)
    requires Sound(t) && r in t.runs
    ensures var t' := CreateConnectorJob(t, tenant, connector, key).0; r in t'.runs && t'.runs[r] == t.runs[r]
  {
    hide Sound, FindJob, QueueFull;
    Unused(t, t.nextId);
  }

  lemma {:induction false} EnqueueAddsRun(t: Tables, connector: Id, r: Id)
    requires Sound(t) && r in t.runs
    ensures var t' := EnqueueDueConnector(t, connector).0; r in t'.runs && t'.runs[r] == t.runs[r]
  {
    hide Sound, CreateConnectorJob, QueueFull;
    if Due(t, connector) { SyncAddsRun(t, t.connectors[connector].tenant, connector, Scheduled(connector, t.connectors[connector].nextSyncAt), r); }
  }

  /** SetConnectorRunBytes writes to the run of a connector job, which is no upload's run. */
  lemma {:induction false} SetBytesElsewhere(t: Tables, c: Claim, bytes: int, job: Id)
    requires Sound(t) && ClaimFits(t, c) && c.kind.ConnectorSync? && job in t.jobs && t.jobs[job].kind.DatasetImport?
    ensures var r := t.jobs[job].target; var t' := SetConnectorRunBytes(t, c, bytes).0;
            r in t.runs ==> r in t'.runs && t'.runs[r] == t.runs[r]
  {
    hide Sound, QuotaAllows;
    OneJob(t);
    if c.job in t.jobs && t.jobs[job].target == c.target { assert SameTarget(t.jobs[job], t.jobs[c.job]); }
  }

  lemma {:induction false} WorkBytesStay(s: System, w: Worker, a: WorkerAction, job: Id)
    requires Sound(s.db) && ClaimsFit(s) && Enabled(s, w, a) && job in s.db.jobs && s.db.jobs[job].kind.DatasetImport?
    ensures var r := s.db.jobs[job].target; var t' := ActWorker(s, w, a).db;
            r in s.db.runs && r in t'.runs ==> t'.runs[r].bytes == s.db.runs[r].bytes
  {
    hide Sound, ClaimFits, EnqueueDueConnector, SetConnectorRunBytes, Take, Heartbeat, CompleteImport, CompletePublish,
         CancelClaimed, Retry, Fail, FromManifest;
    var r := s.db.jobs[job].target;
    if a.Enqueue? {
      if r in s.db.runs { EnqueueAddsRun(s.db, a.connector, r); }
    } else if a.SetBytes? {
      SetBytesElsewhere(s.db, At(s, w).claim, a.bytes, job);
    } else {
      WorkBytes(s, w, a);
    }
  }

  // ---------- uploads

  /** The upload's job, as long as it is there, leads to what was accepted. */
  ghost predicate UploadStands(t: Tables, tenant: Id, slug: string, format: Format, bytes: int, key: Key, u: Upload)
  {
    && u.job < t.nextId
    && (u.job in t.jobs ==>
          && KeyedJob(t.jobs, u.job, tenant, DatasetImport, key) && t.jobs[u.job].target == u.run
          && u.run in t.runs && t.runs[u.run].dataset == u.dataset && t.runs[u.run].format == format && t.runs[u.run].bytes == bytes
          && u.dataset in t.datasets && t.datasets[u.dataset].slug == slug)
  }

  lemma {:induction false} AcceptedUploadStands(t: Tables, tenant: Id, slug: string, format: Format, bytes: int, key: Key)
    requires Sound(t) && CreateDatasetUpload(t, tenant, slug, format, bytes, key).1.Ok?
    ensures var r := CreateDatasetUpload(t, tenant, slug, format, bytes, key);
            r.1.value.job in r.0.jobs && UploadStands(r.0, tenant, slug, format, bytes, key, r.1.value)
  {
    hide Sound, QuotaAllows, FindJob, FindDataset, CreateDatasetUpload;
    Databases.UploadCases(t, tenant, slug, format, bytes, key);
    var found := FindJob(t.jobs, tenant, DatasetImport, key);
    if found.Some? { ClaimBelow(t, found.value); }
    FoundDataset(t.datasets, tenant, slug);
  }

  /** One transaction later. */
  lemma {:induction false} UploadStillStands(
    t: Tables, t': Tables, claimed: Option<Id>, published: Option<Id>,
    tenant: Id, slug: string, format: Format, bytes: int, key: Key, u: Upload)
    requires UploadStands(t, tenant, slug, format, bytes, key, u) && Sound(t') && Evolves(t, t', claimed, published)
    requires u.job in t.jobs && u.run in t.runs && u.run in t'.runs ==> t'.runs[u.run].bytes == t.runs[u.run].bytes
    requires u.job in t.jobs ==> u.run < t.nextId && u.dataset < t.nextId
    ensures UploadStands(t', tenant, slug, format, bytes, key, u)
  {
    hide Sound;
    if u.job in t'.jobs {
      RowFacts(t', u.job);
      RunFacts(t', u.run);
    }
  }

  lemma {:induction false} IssuedRows(t: Tables, job: Id)
    requires Sound(t) && job in t.jobs && !t.jobs[job].kind.AppPublish?
    ensures var r := t.jobs[job].target; r in t.runs && r < t.nextId && t.runs[r].dataset < t.nextId
  {
    hide Sound;
    RowFacts(t, job);
    RunBelow(t, t.jobs[job].target);
    RunIdBelow(t, t.jobs[job].target);
  }

  lemma {:induction false} RunIdBelow(t: Tables, r: Id)
    requires Sound(t) && r in t.runs
    ensures r < t.nextId
  {
    hide JobsSound, RunRows, DatasetRows, ConnectorRows, AppsSound, QueriesSound, GrantsSound;
  }

  lemma {:induction false} StepKeepsUpload(s: System, step: Step, tenant: Id, slug: string, format: Format, bytes: int, key: Key, u: Upload)
    requires Safe(s) && UploadStands(s.db, tenant, slug, format, bytes, key, u)
    ensures UploadStands(Apply(s, step).db, tenant, slug, format, bytes, key, u)
  {
    hide Safe, Sound, ClaimsFit, Fenced, Evolves, ActUser, ActWorker, Enabled;
    var s1 := s.(db := Later(s.db, step.elapsed));
    LaterStaysSafe(s, step.elapsed);
    StepStaysSafe(s, step);
    SafeParts(s1);
    SafeParts(Apply(s, step));
    if u.job in s1.db.jobs { IssuedRows(s1.db, u.job); }
    match step
    case User(_, who, a) =>
      UserEvolves(s1.db, who, a);
      if u.job in s1.db.jobs { UserBytesStay(s1.db, who, a, u.run); }
      UploadStillStands(s1.db, ActUser(s1.db, who, a), None, None, tenant, slug, format, bytes, key, u);
    case Work(_, w, a) =>
      if Enabled(s1, w, a) {
        WorkEvolves(s1, w, a);
        if u.job in s1.db.jobs { WorkBytesStay(s1, w, a, u.job); }
        UploadStillStands(s1.db, ActWorker(s1, w, a).db, ClaimedBy(a), PublishedBy(s1, w, a), tenant, slug, format, bytes, key, u);
      }
  }

  lemma {:induction false} RunKeepsUpload(s: System, steps: seq<Step>, tenant: Id, slug: string, format: Format, bytes: int, key: Key, u: Upload)
    requires Safe(s) && UploadStands(s.db, tenant, slug, format, bytes, key, u)
    ensures UploadStands(Exec(s, steps).db, tenant, slug, format, bytes, key, u)
    decreases |steps|
  {
    hide Safe, Apply, UploadStands;
    if steps != [] {
      StepStaysSafe(s, steps[0]);
      StepKeepsUpload(s, steps[0], tenant, slug, format, bytes, key, u);
      RunKeepsUpload(Apply(s, steps[0]), steps[1..], tenant, slug, format, bytes, key, u);
    }
  }

  lemma {:induction false} StandingUploadAnswers(
    t: Tables, tenant: Id, slug: string, format: Format, bytes: int, key: Key, u: Upload, slug': string, format': Format, bytes': int)
    requires Sound(t) && u.job in t.jobs && UploadStands(t, tenant, slug, format, bytes, key, u)
    ensures CreateDatasetUpload(t, tenant, slug', format', bytes', key) ==
            (t, if slug' == slug && format' == format && bytes' == bytes then Ok(u) else Err(Conflict))
  {
    hide Sound, FindJob, FindDataset, QuotaAllows;
    Databases.KeyedIsFound(t, u.job, tenant, DatasetImport, key);
  }

  /**
   Once CreateDatasetUpload has accepted an upload, the same key changes nothing in any later state that still has
   the upload's job: the same arguments get the same upload, others a conflict. So no repeat is ever charged.
  */
  lemma {:induction false} RepeatedUploadIsFree(
    before: seq<Step>, elapsed: nat, after: seq<Step>, tenant: Id, slug: string, format: Format, bytes: int, key: Key, u: Upload,
    slug': string, format': Format, bytes': int)
    requires CreateDatasetUpload(Later(Exec(INITIAL, before).db, elapsed), tenant, slug, format, bytes, key).1 == Ok(u)
    requires u.job in Exec(INITIAL, before + [User(elapsed, tenant, CreateUpload(slug, format, bytes, key))] + after).db.jobs
    ensures var t := Exec(INITIAL, before + [User(elapsed, tenant, CreateUpload(slug, format, bytes, key))] + after).db;
            CreateDatasetUpload(t, tenant, slug', format', bytes', key) ==
            (t, if slug' == slug && format' == format && bytes' == bytes then Ok(u) else Err(Conflict))
  {
    hide Safe, Sound, Exec, CreateDatasetUpload, UploadStands, ClaimsFit, Fenced;
    var step := User(elapsed, tenant, CreateUpload(slug, format, bytes, key));
    var s := Exec(INITIAL, before);
    ReachableIsSafe(before);
    LaterStaysSafe(s, elapsed);
    SafeParts(s.(db := Later(s.db, elapsed)));
    AcceptedUploadStands(Later(s.db, elapsed), tenant, slug, format, bytes, key);
    StepStaysSafe(s, step);
    RunKeepsUpload(Apply(s, step), after, tenant, slug, format, bytes, key, u);
    ExecSplit(before, step, after);
    ReachableIsSafe(before + [step] + after);
    var s' := Exec(INITIAL, before + [step] + after);
    SafeParts(s');
    StandingUploadAnswers(s'.db, tenant, slug, format, bytes, key, u, slug', format', bytes');
  }

  lemma {:induction false} ExecSplit(before: seq<Step>, step: Step, after: seq<Step>)
    ensures Exec(INITIAL, before + [step] + after) == Exec(Apply(Exec(INITIAL, before), step), after)
  {
    hide Exec, Apply;
    ExecConcat(INITIAL, before + [step], after);
    ExecAppend(INITIAL, before, step);
  }

  // ---------- deployments

  /** The deployment, as long as it is there, has its job, and leads to what was accepted. */
  ghost predicate ReleaseStands(t: Tables, tenant: Id, m: Manifest, checksum: Checksum, bytes: int, key: Key, job: Id, d: Id)
  {
    && job < t.nextId && d < t.nextId
    && (d in t.deployments ==>
          && KeyedJob(t.jobs, job, tenant, AppPublish, key) && t.jobs[job].target == d
          && t.deployments[d].bytes == bytes && t.deployments[d].manifest == m && t.deployments[d].checksum == checksum
          && t.deployments[d].app in t.apps && t.deployments[d].app < t.nextId && t.apps[t.deployments[d].app].slug == m.app.slug)
  }

  lemma {:induction false} AcceptedReleaseStands(t: Tables, tenant: Id, m: Manifest, checksum: Checksum, bytes: int, key: Key) returns (job: Id)
    requires Sound(t) && CreateDeployment(t, tenant, m, checksum, bytes, key).1.Ok?
    ensures var r := CreateDeployment(t, tenant, m, checksum, bytes, key);
            ReleaseStands(r.0, tenant, m, checksum, bytes, key, job, r.1.value)
  {
    hide Sound, QuotaAllows, FindJob, FindApp, DeploymentSlots, CreateDeployment;
    Databases.DeploymentCases(t, tenant, m, checksum, bytes, key);
    var found := FindJob(t.jobs, tenant, AppPublish, key);
    FoundJobKeyed(t.jobs, tenant, AppPublish, key);
    FoundApp(t.apps, tenant, m.app.slug);
    if found.Some? {
      job := found.value;
      ClaimBelow(t, job);
      IssuedDeployment(t, t.jobs[job].target);
    } else {
      job := t.nextId + 2;
      AppsIssued(t);
    }
  }

  lemma {:induction false} IssuedDeployment(t: Tables, d: Id)
    requires Sound(t) && d in t.deployments
    ensures d < t.nextId && t.deployments[d].app < t.nextId && t.deployments[d].app in t.apps
  {
    hide JobsSound, RunRows, DatasetRows, ConnectorRows, QueriesSound, GrantsSound;
  }

  lemma {:induction false} AppsIssued(t: Tables)
    requires Sound(t)
    ensures forall id :: id in t.apps ==> id < t.nextId
  {
    hide JobsSound, RunRows, DatasetRows, ConnectorRows, AppsSound, QueriesSound, GrantsSound;
  }

  lemma {:induction false} ReleaseStillStands(
    t: Tables, t': Tables, claimed: Option<Id>, published: Option<Id>,
    tenant: Id, m: Manifest, checksum: Checksum, bytes: int, key: Key, job: Id, d: Id)
    requires ReleaseStands(t, tenant, m, checksum, bytes, key, job, d) && Sound(t') && Evolves(t, t', claimed, published)
    requires JobsStay(t.jobs, t'.jobs, t'.runs, t'.deployments) && AppsStay(t.apps, t'.apps, t.nextId)
    ensures ReleaseStands(t', tenant, m, checksum, bytes, key, job, d)
  {
    hide Sound, RunsEvolve, DatasetsEvolve;
    if d in t'.deployments { IssuedDeployment(t', d); }
  }

  lemma {:induction false} StepKeepsRelease(s: System, step: Step, tenant: Id, m: Manifest, checksum: Checksum, bytes: int, key: Key, job: Id, d: Id)
    requires Safe(s) && ReleaseStands(s.db, tenant, m, checksum, bytes, key, job, d)
    ensures ReleaseStands(Apply(s, step).db, tenant, m, checksum, bytes, key, job, d)
  {
    hide Safe, Sound, ClaimsFit, Fenced, Evolves, JobsStay, AppsStay, ActUser, ActWorker, Enabled;
    var s1 := s.(db := Later(s.db, step.elapsed));
    LaterStaysSafe(s, step.elapsed);
    StepStaysSafe(s, step);
    SafeParts(s1);
    SafeParts(Apply(s, step));
    match step
    case User(_, who, a) =>
      UserEvolves(s1.db, who, a);
      UserJobsStay(s1.db, who, a);
      UserAppsStay(s1.db, who, a);
      ReleaseStillStands(s1.db, ActUser(s1.db, who, a), None, None, tenant, m, checksum, bytes, key, job, d);
    case Work(_, w, a) =>
      if Enabled(s1, w, a) {
        WorkEvolves(s1, w, a);
        WorkJobsStay(s1, w, a);
        WorkAppsStay(s1, w, a);
        ReleaseStillStands(s1.db, ActWorker(s1, w, a).db, ClaimedBy(a), PublishedBy(s1, w, a), tenant, m, checksum, bytes, key, job, d);
      }
  }

  lemma {:induction false} RunKeepsRelease(s: System, steps: seq<Step>, tenant: Id, m: Manifest, checksum: Checksum, bytes: int, key: Key, job: Id, d: Id)
    requires Safe(s) && ReleaseStands(s.db, tenant, m, checksum, bytes, key, job, d)
    ensures ReleaseStands(Exec(s, steps).db, tenant, m, checksum, bytes, key, job, d)
    decreases |steps|
  {
    hide Safe, Apply, ReleaseStands;
    if steps != [] {
      StepStaysSafe(s, steps[0]);
      StepKeepsRelease(s, steps[0], tenant, m, checksum, bytes, key, job, d);
      RunKeepsRelease(Apply(s, steps[0]), steps[1..], tenant, m, checksum, bytes, key, job, d);
    }
  }

  lemma {:induction false} StandingReleaseAnswers(
    t: Tables, tenant: Id, m: Manifest, checksum: Checksum, bytes: int, key: Key, job: Id, d: Id, m': Manifest, checksum': Checksum, bytes': int)
    requires Sound(t) && d in t.deployments && ReleaseStands(t, tenant, m, checksum, bytes, key, job, d)
    ensures CreateDeployment(t, tenant, m', checksum', bytes', key) ==
            (t, if m' == m && checksum' == checksum && bytes' == bytes then Ok(d) else Err(Conflict))
  {
    hide Sound, FindJob, FindApp, QuotaAllows, DeploymentSlots;
    Databases.KeyedIsFound(t, job, tenant, AppPublish, key);
  }

  /** The same for an accepted deployment, in any later state that still has it. */
  lemma {:induction false} RepeatedDeploymentIsFree(
    before: seq<Step>, elapsed: nat, after: seq<Step>, tenant: Id, m: Manifest, checksum: Checksum, bytes: int, key: Key, d: Id,
    m': Manifest, checksum': Checksum, bytes': int)
    requires CreateDeployment(Later(Exec(INITIAL, before).db, elapsed), tenant, m, checksum, bytes, key).1 == Ok(d)
    requires d in Exec(INITIAL, before + [User(elapsed, tenant, CreateRelease(m, checksum, bytes, key))] + after).db.deployments
    ensures var t := Exec(INITIAL, before + [User(elapsed, tenant, CreateRelease(m, checksum, bytes, key))] + after).db;
            CreateDeployment(t, tenant, m', checksum', bytes', key) ==
            (t, if m' == m && checksum' == checksum && bytes' == bytes then Ok(d) else Err(Conflict))
  {
    hide Safe, Sound, Exec, CreateDeployment, ReleaseStands, ClaimsFit, Fenced;
    var step := User(elapsed, tenant, CreateRelease(m, checksum, bytes, key));
    var s := Exec(INITIAL, before);
    ReachableIsSafe(before);
    LaterStaysSafe(s, elapsed);
    SafeParts(s.(db := Later(s.db, elapsed)));
    var job := AcceptedReleaseStands(Later(s.db, elapsed), tenant, m, checksum, bytes, key);
    StepStaysSafe(s, step);
    RunKeepsRelease(Apply(s, step), after, tenant, m, checksum, bytes, key, job, d);
    ExecSplit(before, step, after);
    ReachableIsSafe(before + [step] + after);
    var s' := Exec(INITIAL, before + [step] + after);
    SafeParts(s');
    StandingReleaseAnswers(s'.db, tenant, m, checksum, bytes, key, job, d, m', checksum', bytes');
  }
}
