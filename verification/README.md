# A verified model of the oort control plane

This project models the parts of the oort repository that keep tenants' data and apps consistent, and proves what
they promise. It has six parts.

- **The leased job protocol** (`internal/db`, `internal/jobs`). `Schema` holds the rows of the PostgreSQL tables,
  `Transitions` says what each transaction does to them, and `Databases.Database` is the code of those
  transactions, statement by statement over mutable tables, proved equal to the transitions. `Protocol` adds the
  workers: every worker is a program counter of the run loop and its heartbeat, and a run is any sequence of user
  transactions, worker steps, crashes and clock ticks. `Workers.Cluster` is the code of all of them
  over one database: each statement does its step of the protocol, and the loop is composed of them in the source's
  order with any steps of others in between, each one allowed when its turn comes (`WorkerLoops` is what a worker can
  rely on meanwhile). `Consistency` is the invariant of the tables, `JobsStaySound`, `RowsStaySound` and
  `QueriesStaySound` show that every transaction keeps it, `Evolution` and `Persistence` say how rows may
  change and what stays, and `Safety`, `Guarantees`, `Releases`, `StorageQuota`, `Idempotency`, `Leases`, `Exclusion`,
  `Schedule`, `Clashes`, `Retrying`, `Endings`, `Currents`, `Connections` and `Refinement` prove the promises for every run
  from empty tables. `Effects` says row by row what requests and claims leave, in any consistent tables, which those of a
  reachable state are (`Effects.ReachableIsSound`).
- **SQL masking and validation** (`internal/queryexec`). `Lexing` has a reference lexer and the in-place scan proved
  against it, and `Stretches` says what it makes of each construct; `Validation` and `Revalidation` have the rules of
  acceptance and their stability, and `Acceptance` states them by positions of the text; `QueryExec` has the request
  frame, the child's second validation, the publish job's checks and the bounded result stream.
- **JSON Pointer and the page loop** (`internal/connector`): `Slashes`, `Pointers`, `Fetching`.
- **App host names** (`internal/runtime`, `internal/server`): `Hosts`.
- **Invitations** (`internal/db/invitations.go`): `Invitations` for the transactions and the life cycle over runs,
  `Memberships` for who becomes a member with which role, `Invitees.Tables` for their code.
- **Bundles** (`internal/manifest`): `Manifests`, `Paths`, `Bundles`, `BundleTrips`, `Reading`, and `Publishing`, which ties a
  bundle to what a publish job completes with.

`dafny verify dfyconfig.toml` checks everything.

## How to read the results

A run is `Exec(INITIAL, steps)` for any list of steps; each step carries how far the clock moved before it. A step its
worker cannot take changes only the clock, so quantifying over all lists covers every interleaving. The log records
what was published, stopped, rolled back to, requeued and enqueued; nothing reads it. A completion can commit and lose
its reply; for any other statement a lost reply is the step followed by a crash, a failing heartbeat check or a failing
body, which are steps too.
Workers have distinct WorkerIDs, because they are the keys of one map; fencing by `leased_by` rests on that.

Some promises hold only under a condition, and the code then does what is stated here.

- Two imports of one tenant can be live together when a heartbeat lands after its lease expired
  (`Exclusion.LateHeartbeatMakesTwoLive`), because the heartbeat's statement does not test the expiry.
  `Leases.HeartbeatExcludesIff` says when one heartbeat keeps the exclusion, `Exclusion.ExclusiveRunIff` when a whole
  run does.
- A scheduled key can be taken already: an edit that enables a connector in the same microsecond as an enqueue at its own
  due time sets the next sync back to that time. Every later enqueue then aborts, until the connector is deleted or an
  enqueue finds the queue full (`Clashes.SameInstantClashes`, `Clashes.EnqueueOutcomes`, `Clashes.ClashIsPermanent`).
- RetryConnectorJob is two statements outside a transaction. A claim between them lets the second one overwrite a newer
  status of the run (`Retrying.LateRetryBreaksMirror`, `Retrying.MirrorAfterIff`); the protocol takes both as one step.
- Hosts round trip only for app slugs without two dashes in a row (`Hosts.ParsePrinted`), which the manifest demands.
- Array indexes with a sign or leading zeros are accepted beyond RFC 6901 (`Pointers.SelectsIff`).
- The app directory `..` passes the manifest's check, but its bundles cannot be read (`BundleTrips.ParentNeverReads`).
- A kept query text that ends in a `;` inside a trailing line comment loses that `;` when it is validated again
  (`Revalidation.ValidateAgain`, `Revalidation.SemicolonIsKept`).

## Model

| member | source | states |
|---|---|---|
| Refinement.PublishOnceOrNothing | internal/db/datasets.go:271-309 | Whatever step comes next in any run is one step of the publish-once ledger: at most one job goes from open to its single outcome, every other job stays, opens under a new identifier, is dropped, or is deleted after that; only the published dataset shows something else |
| Refinement.StepRefines | internal/jobs/jobs.go:122-194 | The same for one step from any safe state, with the log event as the ledger's label |
| Refinement.SucceededIffPublished | internal/db/deployments.go:237-288 | In every reachable state a job has status succeeded exactly when the run published it |
| Guarantees.PublishesAtMostOnce | internal/db/datasets.go:276-280 | No run publishes one job twice, whatever leases expire, workers crash or replies get lost |
| Guarantees.CancelledNeverPublishes | internal/db/operations.go:122-144 | Once cancel_requested_at is set, neither the past nor any future of the run publishes the job |
| Guarantees.DatasetShowsLatest | internal/db/datasets.go:288-302 | A dataset row shows snapshot, rows, schema and bytes of the latest publication for it, and so does the sync run that made it |
| Guarantees.JobMirrorsItsRow | internal/db/operations.go:119-142 | In every reachable state a job and its one sync run or deployment have the same status, and no two jobs share a row |
| Guarantees.FinishedIsFinal | internal/db/operations.go:140-142 | A succeeded, failed or cancelled job row never changes again while it exists |
| Guarantees.EpilogueIsHarmless | internal/jobs/jobs.go:287-308 | After a publication no failure, cancellation, retry, heartbeat, byte count or second completion under any claim of the job changes any table |
| Guarantees.CancelledOnlyOnRequest | internal/db/operations.go:164-187 | A job is cancelled only if someone asked for it |
| Endings.JobEndedAsLogged | internal/db/operations.go:104-187 | In every reachable state a job is cancelled exactly when its ending was a cancellation, by its user while it waited or by its worker, failed exactly when its worker recorded a failure, and succeeded exactly when it was published |
| Endings.EndingLeaves | internal/db/operations.go:164-187 | In every reachable state a worker's cancellation of a job it holds leaves job and row cancelled and unleased, its failure leaves both failed, and no other row changes; without the lease nothing does |
| Endings.CancelAnswers | internal/db/operations.go:104-150 | A user's cancellation leaves a waiting job and its row cancelled, a running job marked and otherwise as it was, and is refused for any other |
| Currents.AppShowsLatest | internal/db/deployments.go:270-273 | In every reachable state an app shows the deployment of its latest release or rollback in the log, and none if there was none |
| Currents.PublishMakesCurrent | internal/db/deployments.go:266-284 | In every reachable state a release that answers Ok makes its deployment the one its app shows, job and deployment succeeded, and changes no other app |
| Currents.RollbackLeads | internal/db/deployments.go:317-348 | In every reachable state a rollback to a succeeded deployment of the tenant makes its app show that one and changes no other row; any other rollback finds no row and changes none |
| Connections.SyncHasConnector | internal/db/connectors.go:217-226 | In every reachable state a queued or running sync still has its connector, of its tenant and dataset, through deletions, cascades and retries |
| Connections.DetailsIffHeld | internal/db/connectors.go:367-384 | In every reachable state the query for a sync's details finds them exactly when the worker holds the job, so its lost-lease answer never hides a missing connector |
| Guarantees.OnlyLatestClaimActs | internal/db/datasets.go:311-322 | A busy worker's action that changes the job table changes exactly the row of its claim, which still runs under the attempt number it was given: fencing by worker name is enough |
| Safety.ReachableIsSafe | internal/jobs/jobs.go:77-120 | Soundness of the tables, fencing, publication at most once and the datasets' contents hold together in every reachable state |
| SoundRuns.WorkKeeps | internal/db/migrations/001_init.sql:125-357 | Every worker transaction keeps the foreign keys, unique keys, statuses and numbering that the tables rely on |
| SoundRuns.UserKeeps | internal/db/migrations/001_init.sql:125-357 | So does every user transaction, deletes with their cascades included |
| Evolution.WorkEvolves | internal/db/connectors.go:407-421 | How a worker's transaction may change rows: attempts and cancel marks never go back, only an unfinished connector job in its first two attempts returns to the queue, finished rows stay |
| Releases.GrantsArePinned | internal/db/runtime.go:93-114 | Once a publish took effect, RuntimeQuery answers the published SQL and types for each declared name, and nothing for any other name, in every later state in which the deployment exists |
| Releases.RuntimeQueryIsTheRow | internal/db/runtime.go:96-101 | The runtime's three-way join has at most one row for a name, and the answer is that row |
| QueriesStaySound.CompletePublishDeclares | internal/db/deployments.go:255-265 | A publish that takes effect resolves each listed query to its text and types, and no unlisted name |
| QueriesStaySound.CompletePublishPins | internal/db/queries.go:104-159 | Publishing one deployment leaves what every other succeeded deployment resolves untouched |
| QueriesStaySound.DeleteQueryPins | internal/db/queries.go:68-84 | Deleting a query removes nothing that a deployment resolves |
| Releases.CurrentIsReleased | internal/db/deployments.go:266-273 | An app's current deployment is absent or a succeeded deployment of that app and tenant, through publishes, rollbacks and deletes |
| Releases.DeploymentVersions | internal/db/deployments.go:87-91 | The versions of an app's deployments are exactly 1 to n, and the next one gets n + 1 |
| Releases.RevisionVersions | internal/db/queries.go:116-158 | The versions of a query's revisions are exactly 1 to n, its current revision is the highest, and neighbours differ in SQL or types |
| Releases.RollbackChainEnds | internal/db/deployments.go:82-86 | Following previous deployments goes strictly down in version, so the chain ends after at most as many steps as the version says |
| Numbering.VersionsAreOneToN | internal/db/queries.go:131-135 | Numbering every new row with the highest version plus one leaves no gap and no repeat per owner |
| StorageQuota.StoredWithinQuota | internal/db/db.go:79-94 | For every tenant the bytes of all sync runs and deployments stay within 10 GiB in every reachable state, and neither the sum nor the comparison leaves the 64-bit range |
| Idempotency.RepeatedUploadIsFree | internal/db/datasets.go:77-95 | Once an upload was accepted, its key changes no table in any later state of any run that still has the job: the same arguments get the same upload, others a conflict |
| Idempotency.RepeatedDeploymentIsFree | internal/db/deployments.go:55-72 | The same for an accepted deployment, in any later state that still has it |
| Leases.RequeuedAtMostTwice | internal/db/connectors.go:409-412 | RetryConnectorJob requeues a job at most twice in any run |
| Leases.MeasureFalls | internal/jobs/jobs.go:420-431 | Without a takeover, remaining attempts and status give each job a measure within 0 to 7 that never rises and falls with every change of status or attempts |
| Leases.ClaimsAreBounded | internal/db/connectors.go:350-352 | When no lease is taken over, a connector job is claimed at most three times and an import or publish at most once |
| Leases.ClaimFindsTenantFree | internal/db/datasets.go:208-213 | In every run, whatever heartbeats did before: right after a claim of an import or sync no other such job of its tenant is live |
| Leases.HeartbeatExcludesIff | internal/db/datasets.go:258-262 | A heartbeat that takes effect keeps the tenant's exclusion exactly when it lands by the lease's expiry or finds no rival, since its statement does not test the expiry |
| Exclusion.ExclusiveRunIff | internal/db/datasets.go:196-221 | No two imports or syncs of a tenant are live together in any state of a run exactly when each of its landing heartbeats is in time or finds no rival |
| Exclusion.OneLiveImportPerTenant | internal/db/datasets.go:196-221 | If every heartbeat lands by its lease's expiry, no two imports or syncs of a tenant are ever live together |
| Exclusion.LateHeartbeatMakesTwoLive | internal/db/datasets.go:258-262 | A run of eight steps in which a late heartbeat makes two imports of one tenant live |
| Schedule.ScheduledKeysGoUp | internal/db/connectors.go:317-331 | In every run the scheduled keys of a connector go strictly up over enqueues, postponements and edits, even within one microsecond |
| Clashes.EnqueueOutcomes | internal/db/connectors.go:306-334 | In every state an enqueue does nothing, postpones, aborts or enqueues exactly as due time, queue and clash say; it aborts exactly when it is due with room in the queue after a clashing edit that no deletion or full queue has freed the connector from |
| Clashes.ClashedIff | internal/db/connectors.go:186-189 | In every run a connector's next key is one already fired exactly since an enabling edit in the same instant as an enqueue at its own due time, until the connector is deleted or its enqueue finds the queue full |
| Clashes.ClashIsPermanent | internal/db/connectors.go:321-329 | Time, further edits and further enqueues leave a clashed connector stuck |
| Clashes.SameInstantClashes | internal/db/connectors.go:186-189 | A run of three steps after which the connector is due, its queue has room, and its enqueue aborts |
| Clashes.OnlyAFullQueuePostpones | internal/db/connectors.go:318-329 | When the clock moves before every transaction no enqueue aborts: a due connector is postponed by a full queue and enqueued otherwise |
| Databases.Database.CheckStorageQuota | internal/db/db.go:79-94 | Allows exactly the amounts that keep the tenant's sum within the limit |
| Databases.SumOf | internal/db/db.go:85-87 | The summing loop gives the total of a column whatever order it takes the rows in |
| Databases.NextVersion | internal/db/deployments.go:87-91 | The maximum search gives the next version of an owner, also for an owner without rows |
| Databases.QueuedRow | internal/db/datasets.go:153-162 | The two updates of an upload's completion reach exactly the row and its one job |
| Databases.Database.CreateDatasetUpload | internal/db/datasets.go:69-145 | Tables and answer are those of the upload transition, which an earlier upload under the key, the quota or a new dataset decides; the tables stay sound |
| Databases.Database.CompleteDatasetUpload | internal/db/datasets.go:147-172 | Queues the run and its job if the run awaits its upload, else changes nothing |
| Databases.Database.ClaimJob | internal/db/datasets.go:196-237 | Takes some claimable job for the worker, or finds that there is none; the claim describes the row |
| Databases.Database.HeartbeatJob | internal/db/datasets.go:258-269 | Renews the lease of a job that is still held, else reports the lost lease |
| Databases.Database.CompleteImportJob | internal/db/datasets.go:271-309 | Dataset, run and job change together, only for a held job without a cancel mark |
| Databases.Database.FailJob | internal/db/datasets.go:311-336 | Job and row fail together, only for a held job |
| Databases.Database.CancelJob | internal/db/operations.go:104-152 | Cancels a waiting job with its row, marks a running one, refuses a finished one |
| Databases.Database.CancelClaimedJob | internal/db/operations.go:164-187 | Carries out the worker's cancellation (Endings.EndingLeaves says what it leaves), or reports the lost lease |
| Databases.Database.CreateConnector | internal/db/connectors.go:59-104 | Dataset and connector appear together, or nothing does when a key or check refuses the connector |
| Databases.Database.UpdateConnector | internal/db/connectors.go:149-200 | An enabled connector becomes due no later than now; a disabled one keeps its time |
| Databases.Database.DeleteConnector | internal/db/connectors.go:202-238 | Refused while a sync waits or runs, else runs lose their reference |
| Databases.Database.CreateConnectorJob | internal/db/connectors.go:261-298 | Run and job appear together unless the connector is missing, the queue is full or the key is taken |
| Databases.Database.EnqueueDueConnector | internal/db/connectors.go:300-335 | Some due connector is enqueued and rescheduled, postponed by a minute when the queue is full, or left as it was |
| Databases.Database.SetConnectorRunBytes | internal/db/connectors.go:386-405 | The run's bytes change only within the quota without the run itself, and only while the job is held |
| Databases.Database.RetryConnectorJob | internal/db/connectors.go:407-421 | Requeues job and run exactly for a held job in its first two attempts |
| Databases.Database.SaveRevision | internal/db/queries.go:104-159 | Keeps the current revision for the same text and types, else adds the next one and makes it current |
| Databases.Database.SaveQueryRevision | internal/db/queries.go:30-53 | The saved query, or no change when the text fails its check |
| Databases.Database.DeleteQuery | internal/db/queries.go:55-94 | Refused while a grant or an unfinished publish names the query, else the query and its revisions go |
| Databases.Database.CreateDeployment | internal/db/deployments.go:45-122 | App, deployment and job appear together with the next version and the app's current deployment as previous, or the one under the key is returned |
| Databases.Database.CompleteDeploymentUpload | internal/db/deployments.go:124-149 | Queues the deployment and its job if it awaits its upload, else changes nothing |
| Databases.Database.CompletePublishJob | internal/db/deployments.go:237-288 | The loop over the queries saves and grants each, then deployment, app and job change together (Currents.PublishMakesCurrent); any failure undoes all of it |
| Databases.Database.RollbackDeployment | internal/db/deployments.go:317-348 | Carries out the rollback (Currents.RollbackLeads says where it leads), or finds no row |
| Databases.Database.DeleteDataset | internal/db/resources.go:11-67 | Refused while a job of the dataset is unfinished, else dataset, runs, connectors and jobs go together |
| Databases.Database.DeleteApp | internal/db/resources.go:94-129 | Refused while a publish of the app is unfinished, else app, deployments, grants and jobs go together |
| Effects.FinishedUploadIsQueued | internal/db/deployments.go:124-149 | In every reachable state a finished upload, of a file or of a bundle, leaves its one job and its row queued and available now if the row waited for it, and otherwise changes nothing |
| Effects.ClaimLeaves | internal/db/datasets.go:205-236 | The job runs under the worker's lease as its next attempt with its run or deployment, and the claim the worker carries away holds it |
| Effects.RetryLeaves | internal/db/connectors.go:407-421 | Job and run are queued, free and available after the delay in the first two attempts of a held job; otherwise nothing changes |
| Effects.ImportLeaves | internal/db/datasets.go:271-309 | Job and run succeed, the run has the result and its dataset shows it with the run's bytes, and no other row changes; without lease or with a cancel mark nothing does |
| Effects.BytesLeave | internal/db/connectors.go:386-405 | The size is stored exactly when the tenant's other bytes leave room in 10 GiB and the job is held, and the refusals differ by the quota |
| Effects.ConnectorCreated | internal/db/connectors.go:59-104 | The connector loads the dataset of the name asked for, made if there was none, and is due at once; refused by the interval or when slug or dataset is taken |
| Effects.ConnectorEdited | internal/db/connectors.go:186-189 | What was asked is stored; enabled, the next sync is the earlier of its time and now, disabled, its time |
| Effects.ConnectorDropped | internal/db/connectors.go:202-238 | The connector goes unless a sync of its own is queued or running; its runs stay without it |
| Effects.SyncRequested | internal/db/connectors.go:261-298 | A sync is queued at once for a connector of the tenant, with fewer than 100 jobs that wait or run and a new key |
| Effects.QuerySaved | internal/db/queries.go:104-159 | After a save the query of the slug shows the text and types asked for, and no other query and no older revision has changed |
| Effects.QueryDropped | internal/db/queries.go:55-94 | The query goes with all its revisions unless a deployment has a grant on one or an unfinished publish names it |
| Effects.ReleaseRepeated | internal/db/deployments.go:55-72 | A known key answers with its deployment exactly for the same app, size, manifest and checksum, and changes nothing |
| Effects.ReleaseCreated | internal/db/deployments.go:73-122 | The new deployment follows the one its app shows, above every version of the app, and waits with its job; refused over the quota or the size of a bundle |
| Effects.DatasetDropped | internal/db/resources.go:11-67 | The dataset goes with exactly its connectors, runs and their jobs, and other runs forget those connectors; refused while one of the jobs waits or runs |
| Effects.AppDropped | internal/db/resources.go:94-129 | The app goes with exactly its deployments, their grants and jobs; refused while one of the jobs waits or runs |
| Workers.Cluster.Perform | internal/jobs/jobs.go:77-124 | The code carries out any step of the protocol, by any user or worker, and leads exactly where the protocol says |
| Workers.Cluster.CheckBeat | internal/jobs/jobs.go:321-329 | The heartbeat's cancellation check is the protocol's step |
| Workers.Cluster.RenewBeat | internal/jobs/jobs.go:330-333 | The heartbeat's renewal is the protocol's step |
| Workers.Cluster.SetBytes | internal/jobs/jobs.go:385-387 | Recording the fetched bytes is the protocol's step; a refusal ends the body with an error |
| Workers.Cluster.PublishSnapshot | internal/jobs/jobs.go:272-286 | Completing an import is the protocol's step, whether or not the reply arrives |
| Workers.Cluster.PublishRelease | internal/jobs/jobs.go:171-173 | Completing a publish is the protocol's step |
| Workers.Cluster.JoinBeat | internal/jobs/jobs.go:288-289 | Ending and joining the heartbeat is the protocol's step |
| Workers.Cluster.LookForCancel | internal/jobs/jobs.go:290-297 | The look for a cancellation is the protocol's step, and decides what comes next as the source does |
| Workers.Cluster.CancelMine | internal/jobs/jobs.go:291 | Cancelling the claimed job is the protocol's step |
| Workers.Cluster.RetryMine | internal/jobs/jobs.go:420-431 | Trying a sync again is the protocol's step, and says whether it was |
| Workers.Cluster.FailMine | internal/jobs/jobs.go:298-303 | Recording a failure is the protocol's step |
| Workers.Cluster.Enqueue | internal/jobs/jobs.go:78-80 | The top of the loop takes the protocol's enqueue step for some due connector, and none only when none is due |
| Workers.Cluster.Claim | internal/jobs/jobs.go:81-108 | A claim of the loop is the protocol's step for some claimable job, and fails only when there is none |
| Workers.Cluster.Meanwhile | internal/jobs/jobs.go:241-246 | Any steps of users, other workers and its heartbeat between two statements leave a worker's claim, phase and body, its deployment's manifest and what was published as they were, and give it no lease |
| Workers.Cluster.Finish | internal/jobs/jobs.go:406-437 | Join, look, then cancel, retry or fail, in this order and with anything in between; unless the last answer is lost, the worker no longer holds the job |
| Workers.Cluster.RunImport | internal/jobs/jobs.go:241-308 | All of runImport, every statement allowed by the protocol when its turn comes, whatever others do in between |
| Workers.Cluster.RunConnector | internal/jobs/jobs.go:338-437 | The same for runConnector, the byte count before the completion |
| Workers.Cluster.RunPublish | internal/jobs/jobs.go:122-194 | The same for runPublish: the queries checked against the manifest read at the start still fit the deployment when it completes |
| Workers.Cluster.RunOnce | internal/jobs/jobs.go:77-124 | One pass of the loop: the worker's own steps come in the source's order, and a worker that held no job holds none after it unless an answer was lost |
| Workers.Cluster.Run | internal/jobs/jobs.go:77-124 | Pass after pass, a worker whose answers are heard holds no job between two of them |
| Retrying.TogetherTheyRetry | internal/db/connectors.go:407-421 | The two statements of RetryConnectorJob, with nothing in between, are the protocol's one retry |
| Retrying.MirrorAfterIff | internal/db/connectors.go:416-419 | After the second statement job and run agree exactly when the job is queued then |
| Retrying.LateRetryBreaksMirror | internal/db/connectors.go:416-419 | A claim and completion between the two statements leave a succeeded job whose run says queued |
| Workers.RetryDelay | internal/jobs/jobs.go:421-424 | The server's delay or the square of the attempts in seconds, never more than 30 seconds |
| Lexing.MaskInPlace | internal/queryexec/queryexec.go:188-242 | The in-place scan leaves the masked text of the reference lexer, or its error |
| Lexing.MaskedIsPlain | internal/queryexec/queryexec.go:189-241 | The masked text has the same length, keeps each code byte, blanks each literal and comment byte, and holds no quote, ';', "--" or "/*" |
| Stretches.QuotedStretch | internal/queryexec/queryexec.go:194-217 | A literal or quoted name in code is blanked to its closing quote, and code goes on behind it |
| Stretches.DoubledQuote | internal/queryexec/queryexec.go:202-206 | Two quotes inside a literal are one of its characters |
| Stretches.LineStretch | internal/queryexec/queryexec.go:218-222 | A line comment is blanked up to the line feed, which is code |
| Stretches.BlockStretch | internal/queryexec/queryexec.go:223-236 | A block comment is blanked to its first end, and does not nest |
| Stretches.OpenIsRefused | internal/queryexec/queryexec.go:215-239 | A literal or block comment without its end is refused |
| Lexing.PlainMasksToItself | internal/queryexec/queryexec.go:189-241 | Masking plain code changes nothing |
| Revalidation.ReadableAgain | internal/queryexec/queryexec.go:177-187 | Masking a masked text only trims it; blank text is refused |
| Revalidation.ValidateAgain | internal/queryexec/queryexec.go:138-175 | The kept text is accepted again with the same parameters and types, and is kept as it is unless it ends in a ';', which then lies in a trailing line comment |
| Revalidation.SemicolonIsKept | internal/queryexec/queryexec.go:177-181 | A text ending in ";;" inside a line comment is kept with one ';', and without it when validated again |
| QueryExec.ReadableSql | internal/queryexec/queryexec.go:177-243 | Trimming, the refusals of empty, NUL and dollar-quoted text, and the scan give the readable text of the specification |
| QueryExec.ValidateQuery | internal/queryexec/queryexec.go:138-175 | The loops accept and refuse as Acceptance.AcceptedExactly says, with the first refusal in the source's order |
| Acceptance.AcceptedExactly | internal/queryexec/queryexec.go:138-175 | A query is accepted exactly when it is readable, its first word is select or with, none of its words, by their positions, is one of the 21 forbidden ones in any case, its $references are the given parameters, and every value has a type |
| Acceptance.AcceptedKeeps | internal/queryexec/queryexec.go:166-174 | What an accepted query hands on is the part of the text inside white space and one final semicolon, and the type of each parameter |
| Acceptance.ReadableExactly | internal/queryexec/queryexec.go:177-243 | A text is readable exactly when something is kept of it, without NUL, dollar quote, semicolon in code or open literal or comment; only what is no code is blanked |
| Acceptance.TypeOfEachKind | internal/queryexec/queryexec.go:245-275 | The type of each kind of value: a float is an integer exactly when it is whole, an integer must fit 64 bits, a decimal its range; null and composites have none |
| QueryExec.StoredQueryAccepts | internal/queryexec/queryexec.go:152-173 | A stored text accepts exactly the typed values for the parameters it was stored with |
| QueryExec.SamplesHaveTheirTypes | internal/jobs/jobs.go:196-211 | Sample values have the declared types exactly when every declared type is one of the four known ones |
| QueryExec.CheckQueries | internal/jobs/jobs.go:155-169 | The publish loop keeps every bundled query's cleaned text under its declared types and order, or stops exactly when one does not validate to them |
| QueryExec.PublishedQueryAccepts | internal/runtime/runtime.go:168-172 | A published query runs with exactly the parameters that have the types its manifest declares |
| QueryExec.ChildRunsWhatServerAccepted | internal/queryexec/duckdb.go:161-167 | The child process refuses nothing the server accepted within its limits, and runs the same text but for a ';' in a final line comment |
| QueryExec.FrameRoundTrip | internal/queryexec/queryexec.go:106-136 | A framed request is read back as sent, whatever follows it |
| QueryExec.Uint32RoundTrip | internal/queryexec/queryexec.go:114-116 | The four header bytes give the length back |
| QueryExec.LimitWriter.Write | internal/queryexec/queryexec.go:318-332 | Never more than the limit is written, and the first error stays, whether the limit's or the writer's |
| QueryExec.StreamQuery | internal/queryexec/duckdb.go:271-327 | It succeeds exactly when the rows to show can be read, no error ends them unseen, the whole fits in maxBytes and no write fails; then the first maxRows rows are written with truncated true exactly when there were more, otherwise a part of that |
| Publishing.CheckBundle | internal/jobs/jobs.go:129-170 | A publish job goes on exactly with an intact, readable bundle of the deployment's manifest whose every query validates to its declared types, and what it hands to CompletePublishJob fits that manifest name by name and type by type |
| Pointers.TwoPassIsDecode | internal/connector/fetch.go:154 | Replacing "~1" and then "~0" equals the one left-to-right decoding of RFC 6901, section 4, on every text |
| Pointers.OtherOrderIsWrong | internal/connector/fetch.go:154 | The other order of the two replacements reads "~01" as a slash |
| Pointers.PrintParses | internal/connector/fetch.go:149-154 | Printed tokens parse back to those tokens, and the print is a pointer the API accepts up to its length limit |
| Pointers.ParsePrints | internal/server/connectors_api.go:220-237 | Every accepted pointer is the print of its tokens, so pointers and token lists match one to one |
| Pointers.Pointer | internal/connector/fetch.go:145-173 | The loop returns what evaluating the pointer's tokens one by one returns, errors included |
| Pointers.ValidPointer | internal/server/connectors_api.go:220-237 | The scan accepts exactly the texts of at most 1000 bytes that are empty or begin with a slash and have only whole escapes |
| Pointers.EvaluateFollowsTokens | internal/connector/fetch.go:152-171 | Evaluating a printed token list follows exactly those tokens, for every document and canonical array index |
| Pointers.SelectsIff | internal/connector/fetch.go:162-167 | The connector returns what the standard selects, and more exactly when an array is entered by a signed or zero-padded index |
| Pointers.SignedIndexIsFollowed | internal/connector/fetch.go:163 | "+0" enters an array although the standard has no such index |
| Fetching.Fetch | internal/connector/fetch.go:76-143 | Success writes every record of a chain of at most 100 pages in order, each page the server's answer to the cursor before it; counters match the whole lines written, nothing over 100 MiB is written, and each error says what was wrong with the next page, record or write |
| Hosts.ParsePrinted | internal/runtime/runtime.go:54-71 | The runtime reads back app and tenant of a printed host, with or without port, exactly when the app slug has no two dashes in a row |
| Hosts.PrintParsed | internal/server/server.go:815-820 | Every accepted host is, normalised, the one printed from what it was read as |
| Hosts.OneHostEach | internal/runtime/runtime.go:58-70 | Accepted hosts are read as the same app and tenant exactly when they are the same name |
| Invitations.AcceptedFromLatest | internal/db/invitations.go:354-371 | In every run an acceptance uses the token issued last for that invitation, before its expiry, for the invited address and with the tenant and role it was issued with, and with nothing about the invitation in between |
| Invitations.AcceptedIsFinal | internal/db/invitations.go:107-113 | Nothing happens to an invitation after it was accepted |
| Invitations.OldTokenIsRefused | internal/db/invitations.go:334-352 | A token followed by a renewal, a withdrawal, a new issue or an acceptance is refused on both ways, so old login attempts open nothing |
| Memberships.AcceptanceGrants | internal/db/invitations.go:354-371 | In every run an acceptance makes the user of the invited address a member of the inviting tenant with the role of the invitation as issued last, and a refused one changes nothing |
| Memberships.MembersJoined | internal/db/invitations.go:61-73 | In every reachable state exactly the users that accepted an invitation or were added are members, each with the role it was invited or added with |
| Memberships.AdditionGrants | internal/db/invitations.go:45-134 | In every reachable state an addition makes an existing user a member with the role asked for, an invitation stores tenant, address and role for seven days, and only an owner brings in owners |
| Memberships.ChangesOf | internal/db/invitations.go:199-252 | Renewing keeps address, tenant and role under a new token for a week, withdrawing only marks; both drop exactly the login attempts of the invitation, for an open one and one who may |
| Invitations.ActKeeps | internal/db/invitations.go:199-252 | Every transaction keeps the life cycle: fresh tokens, withdrawal only of an open invitation, acceptance only of one |
| Invitees.Tables.AddMemberOrInvite | internal/db/invitations.go:45-134 | A known user is added and an open invitation withdrawn with its login attempts; otherwise a new or replaced invitation, unless one is open or accepted |
| Invitees.Tables.CreateInvitationOIDCAttempt | internal/db/invitations.go:175-197 | A login attempt only for a pending invitation, bound to its token |
| Invitees.Tables.ConsumeOIDCAttempt | internal/db/identities.go:164-178 | An unexpired attempt is used up |
| Invitees.Tables.RenewInvitation | internal/db/invitations.go:199-227 | A new token and term for an open invitation, whose login attempts go |
| Invitees.Tables.RevokeInvitation | internal/db/invitations.go:229-252 | Ends an open invitation with its login attempts |
| Invitees.Tables.AcceptLocalInvitation | internal/db/invitations.go:254-278 | User, membership with the invited role (Memberships.AcceptanceGrants) and mark together, or no change at all |
| Invitees.Tables.AcceptOIDCInvitation | internal/db/invitations.go:280-332 | The same for an identity whose address is the invited one; conflicts undo everything |
| Paths.SafePathIff | internal/manifest/manifest.go:305-308 | Apart from "..", a path is safe exactly when it has no backslash and every segment names something |
| Paths.SafeBelow | internal/manifest/manifest.go:225-228 | Joining a safe path below a safe directory adds a slash and stays safe |
| Bundles.ValidateManifest | internal/manifest/manifest.go:70-106 | The loops accept exactly the manifests that meet all the rules, no name and no file used twice |
| Bundles.BuildBundle | internal/manifest/manifest.go:108-179 | Manifest first, then every file of the app directory and of the queries, or the first refusal |
| Bundles.ReadFiles | internal/manifest/manifest.go:251-290 | The running total and map collect exactly the entries, or stop at the first bad one |
| Bundles.ReadBundle | internal/manifest/manifest.go:181-218 | Manifest and query texts, or the refusal the source gives |
| BundleTrips.RoundTripIff | internal/manifest/manifest.go:181-218 | A built bundle reads back to the same manifest and query texts exactly when the archive is within the limit, the app directory holds an index.html and every name is safe |
| BundleTrips.ReadsBack | internal/manifest/manifest.go:204-217 | The text read for each query is the bundled file it declares |
| BundleTrips.ParentNeverReads | internal/manifest/manifest.go:305-308 | The app directory ".." passes as safe, but no bundle of it can be read |
| BundleTrips.ServesWhatWasBundled | internal/manifest/manifest.go:220-249 | A request for a safe path serves the file bundled under the app directory and nothing else; the empty path serves index.html |
| Reading.ReadExactly | internal/manifest/manifest.go:181-290 | Any archive is read exactly when its entries are distinct safe regular files within the limits and one is oort.json with a manifest that meets all the rules, its index and query files are there, and nothing else is; then that manifest and those texts come back |
| Reading.BuildExactly | internal/manifest/manifest.go:108-179 | A bundle is built exactly when the manifest meets all the rules, the directory and query files exist, no file lies outside the project, and it keeps within 1000 files and 25 MiB |
| Reading.RulesIff | internal/manifest/manifest.go:70-106 | The rules of the manifest written out: slugs, names, parameter names and types character by character, query files that end in .sql, no name and no file twice |

## Left out

- PostgreSQL's locking and isolation: each transaction is one atomic step, so nothing is said about interleavings inside a transaction or about write skew under READ COMMITTED.
- Databases.Database.ClaimJob: any claimable job, without the ORDER BY available_at: `FOR UPDATE SKIP LOCKED LIMIT 1` passes over the rows other transactions have locked, so the oldest one is not promised.
- Databases.Database.EnqueueDueConnector: any due connector, without the ORDER BY next_sync_at, for the same reason.
- Workers.Cluster.Enqueue: any due connector, as in EnqueueDueConnector.
- Workers.Cluster.Claim: any claimable job, as in ClaimJob; a claim whose reply is lost is a claim followed by a crash.
- Databases.Database.RetryConnectorJob: the two statements are one step of the protocol, so what is said of runs assumes that nothing falls between them. When a claim and a completion do, the second statement overwrites the newer status of the run, and job and run disagree from then on; `Retrying` shows it.
- Guarantees.JobMirrorsItsRow: with the retry as one step, as just said.
- The DuckLake table is committed before CompleteImportJob, so what is said about publication is about the datasets row, not about the lake.
- now() is the start of a transaction in PostgreSQL; here it is the moment of the step, so clocks never run against the order of the steps.
- newID and newSecret are one counter whose values never repeat; a token and its hash are the same value.
- Columns that no decision reads: error texts, creation and start times, sync_runs.cancel_requested_at, object keys, URLs, secrets, audit rows, job logs.
- CHECK constraints on slugs and on the length of idempotency keys, which the handlers enforce before.
- Tenants, the memberships of ordinary login and the runtime's sessions: RuntimeDeployment is covered only by what the current deployment of an app can be.
- A key clash in CreateConnectorJob's second INSERT and one found before it are the same refusal here.
- S3 transfer, DuckDB, zip compression, JSON encoding and hashing: parameters or abstract functions; a download is intact or not.
- BuildBundle's sorting: any order of the file names serves; symbolic links and other irregular files, which stop the build, are not in the project model.
- The nil and the empty parameter map of a query are the same map here.
- White space is the six ASCII characters, and lower case is ASCII, so trimming and folding of other Unicode characters are not covered.
- Float64 parameters beyond the 64-bit integers, NaN and infinities: a Go float is a real number here.
- NormalizeEmail's address grammar: the address arrives normalised or as no address.
- The names of parameters in error messages, and which of several refused parameters is named.
- Fetch's transport: redirects, status codes, timeouts and the 10 MiB limit of a page are one failed page.
- AppendJobLog: numbers a job's log lines under its row lock, the same way as versions are numbered.
- HTTP handlers, listings, migrations, the CLI, DNS and IP filtering of connectors, retry classification of HTTP errors.
