# Verified model of the knowledge service

This project models how the knowledge service ingests documents asynchronously, and proves what its protocol keeps over
every run. It also covers the stores that share its transactions (versioned documents, blob storage, the vector index,
conversations), the AMQP channel cache and two data migrations.

`dafny verify dfyconfig.toml` checks everything.

## How it is organised

**Values first.** `Store` has the three tables, the systems outside the database (queue, event log, vector index, blobs)
and the transaction: the rows a use case would commit, its outside effects in order, and what it raised. `UseCases` gives
every use case and the worker as a function from the rows it reads to such a transaction. `Protocol` makes the running
service a state machine over seven kinds of step. Every step carries a *fuse*: it may be cut before any of its outside
calls or at its commit, in which case the rows roll back, the effects already made stay, and a delivered message goes back
to the queue. The worker's behaviour is an arbitrary script of `advance` calls, valid or not, caught or not, with an
arbitrary ending; parser, splitter, embedder and hash are arbitrary functions that may fail.

**Then the statements.** `Jobs.ProcessingJob`, `Sessions`, `Repositories`, `Services`, `Consumer`, `Requests`, `Chat`,
`ChannelCache.RabbitMQJobQueue` and `Migrations.Schema` are the same code as the service writes it: objects whose fields
are assigned, loops, early returns, exceptions as outcomes. Each method is proved to leave exactly what the corresponding
function says, for every position of the fuse; `Consumer.WorkerProcess.RunUntilIdle` is the consuming loop itself, proved
to stop with every job finished.

**Then the theorems** about all runs: `Reachability` (the invariant `Good`), `Draining`, `JobSteps`, `EventTrace`,
`IndexContents`, `Searchable`, `Catalogue`, `Duplicates`, `Orphans`, `Workload`, `Ingestion`, `Announcements`, `Tenancy`,
`VersionRaces`, `Turns`, `Overlaps`, `DeleteRaces`, `ChannelCache`, `Migrations`. Three modules say what the functions
compute without calling them, from the input or the row alone: `Chunks` (which points and index entries stored bytes
should give), `Outcomes` (every column and effect of a committed request) and `Attempts` (every column of an attempted
job's row).

## What `Good` says

In every state reachable by any interleaving of steps, faults, cuts and redeliveries (`Reachability.RunsKeepGood`):

- keys and references agree; every storage path names its own version, so no two versions share one;
- each job record is consistent, QUEUED, COMPLETED or FAILED, and within the retry budget;
- at most one active job per document and job type;
- a document is DELETED exactly when `deleted_at` is set; a COMPLETED ingestion's document is PROCESSED or DELETED, and a
  PROCESSED document has a COMPLETED ingestion;
- the version numbers of every document are exactly 1..n, and its pointer is on n;
- every QUEUED job has a message on the queue;
- every committed version's bytes load back with the recorded size and checksum;
- the vector index is the replay of the upserts ever made, each of which carried the chunks of a recorded version.

## Hypotheses

- One consumer handles one message at a time. `Overlaps` gives the executor's attempts to several consumers at once. With
  one attempt in flight a job is attempted at most b = max_retries - retry_count + 1 times
  (`Overlaps.SerialStaysInBudget`); with at most c in flight, at most Most(c, b) times, where Most(c, b) is
  1 + Most(c - 1, b) + Most(c, b - 1) and nothing for no consumers or no attempts (`Overlaps.OverlapIsBounded`), and some
  schedule makes exactly that many (`Overlaps.BoundIsMet`). Copies of the message are not counted there: a retry is published
  before the commit of the attempt that grants it, so another consumer can take it while the row still shows the old count,
  and the broker may redeliver; c attempts in flight need c copies.
- A creating request commits before its message is delivered. `Hypotheses.LateCommitCoveredIff` says, for every schedule
  between enqueueing and commit, exactly when coverage survives without it: while the copies of the message, redeliveries
  included, outnumber the acknowledged deliveries. `Hypotheses.CommitBeforeDeliveryCovers` is the case the hypothesis
  grants, `Hypotheses.DeliveryBeforeCommitStrands` a run that loses the job, and `Hypotheses.LateUploadCoveredIff` the same
  exact condition for the upload, whose open transaction holds document and version rows too.
- Requests that check and then insert run one after the other, except where a unique index protects them (`VersionRaces`,
  `Turns`). Without that, `Hypotheses.InterleavedChecksCollideIff` says exactly when two creations break the one-active-job
  rule, and `Duplicates.InterleavedUploadsDedupIff` exactly when two uploads break the uniqueness of checksums.
- Deliveries and requests on one document run one after the other, although the worker is a process of its own.
  `DeleteRaces` drops this for one document: over every schedule of attempts, deletions and updates that read, decide and
  commit later, the document ends DELETED exactly with a deletion time unless some deletion committed and an attempt was
  the last to write the status (`DeleteRaces.DeletedStatusIff`). An attempt can do that only with a document it read
  before, not yet PROCESSED (`DeleteRaces.OverwritesOnlyStale`); of the four overlapping orders of one attempt and one
  deletion, those where the attempt commits first are harmless (`DeleteRaces.OverlapKeepsDeletionIff`).
- AMQP channel identities are not reused (`ChannelCache`); a closed channel may come back.
- uuid4 values are fresh, uuid5 is injective (the hashed name stands for the id), and the registry is the one of
  `app/workers/composition.py`: the ingestion pipeline serves ingestion jobs and nothing else.

## Where the code does not do what its documentation says

- `ARQUITECTURA.md:198` says a duplicate document is never admitted twice. Over all runs of serialised uploads, deletions,
  updates and processing that holds (`Catalogue.RunsKeepDedup`). Two ways around it remain:
  - Two uploads of the same bytes that both look for the checksum before either inserts both commit, since no index on the
    checksum stops the second. `Duplicates.InterleavedUploadsDedupIff`: from any sound deduplicated state, two uploads that
    both passed their check keep checksums unique if and only if their tenants or contents differ.
    `Duplicates.SimultaneousUploadsAdmitted` is such a pair, spelled out. Today's routes reach it.
  - Adding a version does not look at checksums (`Duplicates.AddVersionOutcome`): from any reachable state it keeps them
    unique if and only if no other live document of the tenant holds that content (`Duplicates.AddVersionDedupIff`), and
    `Duplicates.DuplicateAdmitted` spells out three requests after which two live documents hold the same file. That use
    case is complete but has no route yet (`app/application/documents/use_cases/add_document_version.py:3-5`).
- `app/domain/documents/storage_policy.py:3-4` says storage keys are reconstructable. They are if and only if the extension
  does not itself contain a slash, a version id and a dot (`Keys.VersionKeyRoundTrip`); such an extension makes the key name
  another version (`Keys.MarkedExtensionMisnames`). No upload has one (`Keys.AcceptedKeyNames`).
- `ARQUITECTURA.md:729` describes an upload failing because its job is a duplicate. `Catalogue.UploadOutcome` shows that
  branch cannot be reached from an upload.
- `alembic/versions/c3d9e1f42a76_typed_metadata_and_source_type.py:8` calls the migration fully backward compatible. The
  service can load a migrated document's metadata if and only if the legacy value was an object of strings
  (`Migrations.WrappedLoadsIff`; `Migrations.NumericPropertyStopsLoading` is a value that no longer loads).
- `app/application/documents/use_cases/upload_document.py:4-6` lists storing before checksumming; the code hashes and
  looks for a duplicate first, and the model follows the code.

## Model

| member | source | states |
|---|---|---|
| Jobs.ProcessingJob.DoStart | app/domain/documents/jobs.py:81-89 | refused unless QUEUED and then nothing changes; otherwise RUNNING with worker, start time, zero progress and no error |
| Jobs.ProcessingJob.DoAdvance | app/domain/documents/jobs.py:91-98 | refused for a non-phase or a job not under way; otherwise the phase, with progress clamped to 0..100 |
| Jobs.ProcessingJob.DoComplete | app/domain/documents/jobs.py:100-107 | refused on terminal jobs; otherwise COMPLETED at 100 with no error |
| Jobs.ProcessingJob.DoFail | app/domain/documents/jobs.py:109-115 | refused on terminal jobs; otherwise FAILED with message and finish time |
| Jobs.ProcessingJob.DoCancel | app/domain/documents/jobs.py:117-122 | refused on terminal jobs; otherwise CANCELLED with finish time |
| Jobs.ProcessingJob.DoRetry | app/domain/documents/jobs.py:128-138 | refused unless FAILED; otherwise QUEUED, one more retry, all traces of the attempt cleared |
| Jobs.HistoriesKeepRecord | app/domain/documents/jobs.py:81-138 | along every history of attempted transitions: terminal iff finished_at, FAILED iff error_message, worker iff started_at, QUEUED means no progress or times, progress in 0..100 and 100 when COMPLETED; retry_count grows by exactly the FAILED to QUEUED steps |
| Jobs.FinishedStaysFinished | app/domain/documents/jobs.py:100-138 | COMPLETED and CANCELLED are absorbing, FAILED too as long as retry is not called |
| Jobs.ActiveOrTerminal | app/shared/constants.py:40-61 | every status is active or terminal and none is both |
| Keys.VersionKeyRoundTrip | app/domain/documents/storage_policy.py:20-33 | year, month, document, version and normalized extension can be read back from a key, for every tenant and every extension, if and only if the extension does not itself contain a slash, a version id and a dot |
| Keys.VersionKeyNames | app/domain/documents/storage_policy.py:20-33 | which version a key names, for every extension: its own, or the one a file name inside the extension names |
| Keys.AcceptedKeyNames | app/application/documents/validation.py:29-40 | with any extension an upload can have a key names its own version, so keys of distinct versions never collide |
| Keys.MarkedExtensionMisnames | app/domain/documents/storage_policy.py:29-33 | an extension that makes a key name another version |
| Prelude.StripDotsIs | app/domain/documents/storage_policy.py:29 | exactly the leading dots of an extension go |
| Keys.ChunkNameInjective | app/application/documents/use_cases/process_document.py:25-26 | equal chunk names mean equal document and equal chunk index |
| UseCases.AcceptedIff | app/application/documents/validation.py:21-40 | a file is accepted if and only if it is non-empty, within the size limit, and its lower-cased last extension, which holds no dot, and its type are allowed; a name without a dot never is |
| Sessions.Database.Open | app/infrastructure/persistence/sqlalchemy/session.py:41-46 | a new session starts from the committed rows |
| Sessions.Database.Leave | app/infrastructure/persistence/sqlalchemy/session.py:41-50 | commits exactly when nothing was raised and the commit is reached; otherwise the committed rows stay and the session's changes are gone |
| Sessions.SessionFinishes | app/infrastructure/persistence/sqlalchemy/session.py:41-50 | running any use case in a session and leaving it is one protocol step: rows commit or roll back as a whole, effects already made stay |
| Repositories.JobRepository.Add | app/infrastructure/persistence/sqlalchemy/repositories/processing_job_repository.py:60-62 | inserts the row unless the key exists or the document does not |
| Repositories.JobRepository.Get | app/infrastructure/persistence/sqlalchemy/repositories/processing_job_repository.py:64-70 | the tenant's job as a fresh object, or nothing |
| Repositories.JobRepository.Update | app/infrastructure/persistence/sqlalchemy/repositories/processing_job_repository.py:72-84 | rewrites the mutable columns of an existing row and nothing else |
| Repositories.JobRepository.GetActiveByType | app/infrastructure/persistence/sqlalchemy/repositories/processing_job_repository.py:86-95 | finds a job exactly when the slot of document and type is taken |
| Repositories.DocumentRepository.Add | app/infrastructure/persistence/sqlalchemy/repositories/document_repository.py:120-125 | both rows in one flush, or neither when a key or the unique version number is taken |
| Repositories.DocumentRepository.AddVersion | app/infrastructure/persistence/sqlalchemy/repositories/document_repository.py:127-135 | the version row and the document's pointer and status, or nothing on a duplicate number |
| Repositories.DocumentRepository.Get | app/infrastructure/persistence/sqlalchemy/repositories/document_repository.py:137-147 | the tenant's live document as a fresh object, or nothing |
| Repositories.DocumentRepository.LoadVersion | app/infrastructure/persistence/sqlalchemy/repositories/document_repository.py:114-118 | the version a pointer names, or nothing |
| Repositories.DocumentRepository.GetByChecksum | app/infrastructure/persistence/sqlalchemy/repositories/document_repository.py:149-168 | finds a live document of the tenant exactly when one has a version with that checksum |
| Repositories.DocumentRepository.ListVersions | app/infrastructure/persistence/sqlalchemy/repositories/document_repository.py:215-222 | all versions of the document, each once, highest number first |
| Repositories.DocumentRepository.Update | app/infrastructure/persistence/sqlalchemy/repositories/document_repository.py:224-234 | rewrites the mutable columns, metadata included, of an existing row of the same tenant |
| Services.CreateProcessingJobUseCase.Execute | app/application/processing/use_cases/create_processing_job.py:38-71 | conflict when the slot is taken; otherwise row, event, message in that order, for every point of interruption |
| Services.UploadDocumentUseCase.Execute | app/application/documents/use_cases/upload_document.py:54-130 | refused for the file or for a known checksum; otherwise bytes, rows, event and ingestion job, for every point of interruption; `Outcomes.UploadWrites` says which values |
| Services.UploadDocumentUseCase.Register | app/application/documents/use_cases/upload_document.py:79-130 | from the stored bytes on: what is written, published and enqueued, and where it can stop |
| Services.NumberAfter | app/application/documents/use_cases/add_document_version.py:58-61 | 1 for no versions, else one above the highest listed number |
| Services.NumberAfterIsNext | app/application/documents/use_cases/add_document_version.py:58-61 | computed over a listing, that is the next number of the document |
| Services.AddDocumentVersionUseCase.Execute | app/application/documents/use_cases/add_document_version.py:45-102 | not found, invalid, or a new version under the next number, for every point of interruption |
| Services.AddDocumentVersionUseCase.Attach | app/application/documents/use_cases/add_document_version.py:72-102 | bytes, version row with pointer move, event; a taken number raises after the bytes are stored |
| Services.DocumentUseCases.Delete | app/application/documents/use_cases/delete_document.py:26-40 | marks the live document DELETED with its time and announces it; no other row changes |
| Services.DocumentUseCases.UpdateMetadata | app/application/documents/use_cases/update_document_metadata.py:22-43 | the update request as one transaction, for every point of interruption; `Outcomes.UpdatedRow` says which columns it leaves |
| Consumer.ProcessDocumentUseCase.Points | app/application/documents/use_cases/process_document.py:64-76 | one point per chunk, under the chunk's id, with its vector, tenant, document, index and text |
| Consumer.ProcessDocumentUseCase.Execute | app/application/documents/use_cases/process_document.py:48-80 | every failure path leaves the rows alone; success upserts the points of the current version's bytes, if any, and marks the document PROCESSED; `Chunks.PointsCarryEveryChunk` says which points |
| Chunks.PointsCarryEveryChunk | app/application/documents/use_cases/process_document.py:56-76 | the pipeline makes points exactly of bytes that parse and whose chunks get one vector each; they are then one point per chunk, in order, with the chunk's id, vector, tenant, document, position and text |
| Consumer.WorkerExecutor.RunWorker | app/workers/executor.py:61-63 | any script of advance calls followed by the pipeline or any ending, on the job object in place |
| Consumer.WorkerExecutor.PublishFailed | app/workers/executor.py:85-94 | the failure event carries the job's ids, its error and its retry count, field by field |
| Consumer.WorkerExecutor.Close | app/workers/executor.py:63-83 | complete, or fail and then retry within the budget, written by one update followed by one effect |
| Consumer.WorkerExecutor.Execute | app/workers/executor.py:42-83 | the whole attempt on the object and in the session equals the executor function, for every point of interruption |
| Consumer.WorkerProcess.Process | scripts/run_worker.py:49-88 | unknown and no longer QUEUED jobs are skipped, others executed, in one session |
| Consumer.WorkerProcess.HandleMessage | scripts/run_worker.py:42-90 | handling one message is the protocol's delivery step: acknowledged exactly when committed, put back otherwise |
| Consumer.WorkerProcess.RunUntilIdle | scripts/run_worker.py:93-107 | the consuming loop, uninterrupted, empties the queue within retries left plus messages waiting and leaves every job COMPLETED or FAILED |
| Requests.Api.Leave | app/api/dependencies.py:152-155 | leaving the request's session is the protocol step of the use case it ran |
| Requests.Api.CreateJob | app/application/processing/use_cases/create_processing_job.py:38-71 | a creation run in a session of its own is the protocol's CreateJob step (uploads are its only caller today) |
| Requests.Api.Upload | app/api/dependencies.py:152-155 | an upload request is the protocol's Upload step |
| Requests.Api.AddVersion | app/application/documents/use_cases/add_document_version.py:45-102 | an add-version run in a session of its own is the protocol's AddVersion step (the use case has no route yet) |
| Requests.Api.Delete | app/api/dependencies.py:152-155 | a delete request is the protocol's Delete step |
| Requests.Api.UpdateMetadata | app/api/dependencies.py:152-155 | an update request is the protocol's UpdateMetadata step |
| Outcomes.UploadWrites | app/application/documents/use_cases/upload_document.py:55-129 | what a committed upload of a name with last extension e leaves, from its input: title, the table's type of lower-cased e, space, uploader and no metadata on the document; every column of version 1, its file name being id.e; a QUEUED job of default priority for that version; the bytes, two events in order, one message |
| Outcomes.AddedVersion | app/application/documents/use_cases/add_document_version.py:45-101 | every column of the version row a committed add-version leaves, its number one above the current version's, the pointer on it, its bytes and its event, and nothing else |
| Outcomes.DeletedRow | app/application/documents/use_cases/delete_document.py:26-40 | a committed deletion sets status and time of the tenant's live document, publishes one event, and changes nothing else |
| Outcomes.UpdatedRow | app/application/documents/use_cases/update_document_metadata.py:22-42 | after a committed update metadata, title and space are the requested values where given and the old ones otherwise, no other column or row differs, and the event carries the metadata on the row |
| Outcomes.RefusedIffNotThere | app/application/documents/use_cases/delete_document.py:27-29 | a deletion or update is refused exactly when the tenant has no such live document |
| Outcomes.CreatedJob | app/application/processing/use_cases/create_processing_job.py:46-70 | a committed creation leaves one QUEUED row with the requested priority, or the default one, and the requested version, one event and one message |
| Announcements.RunsKeepAnnounced | app/application/documents/use_cases/upload_document.py:79-119 | in every state of every run, cut and rolled-back steps included, each message is for a job whose creation was published before, and each version ever announced has an object stored under its name with the announced checksum |
| Announcements.EveryMessageWasAnnounced | app/application/processing/use_cases/create_processing_job.py:60-70 | from the empty service: every message on the queue has its JobCreated event in the log |
| Tenancy.StepSparesOthers | app/infrastructure/persistence/sqlalchemy/repositories/document_repository.py:137-147 | a step for one tenant, committed, refused or cut, changes no document, version, job, index entry or message of another, and publishes no event about it |
| Tenancy.TenantsAreIsolated | app/infrastructure/persistence/sqlalchemy/repositories/processing_job_repository.py:64-70 | after any run of other tenants' steps all of that is as it was |
| Executor.ScriptsStayUnderWay | app/domain/documents/jobs.py:91-98 | no sequence of advance calls leaves the running states or changes identity, worker or retry count |
| Executor.ProcessDocumentOutcome | app/application/documents/use_cases/process_document.py:48-80 | the pipeline changes no row unless it succeeds, and then one status; it upserts at most once, and then one point for every chunk of the stored bytes |
| Executor.WorkerPartOutcome | app/workers/executor.py:50-63 | while the worker runs, only the job's own row and possibly its document's status differ |
| Executor.SettleOutcome | app/workers/executor.py:63-83 | from any running state the closing transitions cannot be refused; the outcome is done, tried again within the budget, or given up with the budget spent |
| Executor.ExecuteOutcome | app/workers/executor.py:42-83 | totality: for every script and fault no guard fires outside the try, the committed status is QUEUED, COMPLETED or FAILED, and the exact rows and effects follow |
| Attempts.ScriptOutcome | app/domain/documents/jobs.py:91-98 | a script raises exactly when it reaches an uncaught call that names no phase; phase and progress are those of the last call before it that does, the progress brought into 0..100, and no other column changes |
| Attempts.ScriptedRaises | app/workers/executor.py:61-64 | a worker other than the pipeline raises exactly when its script does or it ends with an error of its own |
| Attempts.AttemptColumns | app/workers/executor.py:42-83 | every column of the row an attempt commits: worker, both times, progress and the message raised when done or given up, and nothing but one more retry when tried again |
| RowsKept.CreateJobKeepsRows | app/application/processing/use_cases/create_processing_job.py:38-71 | creating a job keeps every row invariant, one active job per slot included |
| RowsKept.RegisterKeepsRows | app/application/documents/use_cases/upload_document.py:79-130 | registering a document keeps every row invariant |
| RowsKept.AttachKeepsRows | app/application/documents/use_cases/add_document_version.py:72-102 | attaching the next version keeps numbers 1..n with the pointer on n |
| RowsKept.DeleteKeepsRows | app/application/documents/use_cases/delete_document.py:26-40 | deletion keeps every row invariant |
| RowsKept.HandleKeepsRows | scripts/run_worker.py:49-88 | a handled message keeps every row invariant: a retry never re-occupies a slot taken meanwhile, documents and jobs stay in step |
| OutsideKept.AttemptOutside | app/workers/executor.py:50-83 | what one attempt adds to queue and event log, by its fate |
| OutsideKept.DeliveryStaysCovered | scripts/run_worker.py:49-88 | after commit and acknowledgement every QUEUED job still has its message |
| OutsideKept.HandleCommits | scripts/run_worker.py:106-107 | after a committed delivery rows and outside agree again: coverage, stored bytes, index replay |
| Reachability.StepKeepsGood | scripts/run_worker.py:49-88 | every enabled step, committed, cut anywhere or refused, keeps the invariant |
| Reachability.RunsKeepGood | app/workers/executor.py:42-83 | every reachable state satisfies the invariant |
| Draining.TokensAddUp | app/workers/executor.py:65-68 | the measure is the sum over QUEUED jobs of max(0, max_retries - retry_count) |
| Draining.CommittedDelivery | scripts/run_worker.py:49-88 | an unfused delivery always commits, and what it does to rows and queue |
| Draining.DeliveryDecreases | app/workers/executor.py:42-83 | every committed delivery strictly decreases retries left plus messages waiting |
| Draining.DrainIsBounded | scripts/run_worker.py:104-107 | a rollback-free run of deliveries is no longer than the initial measure |
| Draining.DrainedIsFinished | scripts/run_worker.py:53-66 | with an empty queue every job is COMPLETED or FAILED |
| Workload.StepPays | app/workers/executor.py:42-83 | a committed delivery is paid for by the work there was, or by what a creation, redelivery or cut delivery adds |
| Workload.WorkloadIsBounded | scripts/run_worker.py:104-107 | over every interleaving, committed deliveries and the work left are at most the initial work plus 1 + max(0, max_retries) per creation and 1 per redelivery or cut delivery |
| JobSteps.JobAfterStep | app/workers/executor.py:42-83 | a step changes a committed job only by a committed attempt on it, and then to one of three fates |
| JobSteps.CreateJobOutcome | app/application/processing/use_cases/create_processing_job.py:38-60 | in every reachable state a creation is refused exactly when a QUEUED job of that document and type exists, or the document does not |
| JobSteps.FinishedJobIsFrozen | scripts/run_worker.py:57-66 | a finished job is the same at the end of every run |
| JobSteps.DeletedStaysUntouched | app/application/documents/use_cases/process_document.py:49-51 | no step changes a deleted document or upserts for it |
| JobSteps.DeletedForever | app/application/documents/use_cases/delete_document.py:27-33 | deletion is absorbing over every run |
| DeleteRaces.AloneIsUpdate | app/infrastructure/persistence/sqlalchemy/repositories/document_repository.py:224-234 | with nothing in between, the column-wise commit is the repository's update |
| DeleteRaces.DeletedStatusIff | app/application/documents/use_cases/delete_document.py:27-33 | over every interleaving of attempts, deletions and updates, status DELETED and deletion time agree at the end unless a deletion committed and an attempt wrote the status last |
| DeleteRaces.OverwritesOnlyStale | app/application/documents/use_cases/process_document.py:49-80 | an attempt that changes a deleted document read it before, not yet PROCESSED |
| DeleteRaces.OverlapKeepsDeletionIff | app/application/documents/use_cases/process_document.py:49-80 | of the four overlapping orders of an attempt and a deletion, the document stays DELETED exactly when the attempt commits first or had nothing to write |
| JobSteps.DeletedDocumentRun | app/workers/executor.py:61-72 | an ingestion QUEUED when its document is deleted ends FAILED with the budget spent at attempt number max_retries - retry_count + 1, not before, touching neither document nor index |
| EventTrace.AttemptExtendsTrace | app/workers/executor.py:50-83 | one attempt appends exactly its started event and, when final, its closing event to the trace |
| EventTrace.RunsAreTraced | app/workers/executor.py:42-94 | over every rollback-free run each job's events are Created, Started once per attempt, then at most one closing event matching its status |
| EventTrace.JobTrace | app/application/processing/use_cases/create_processing_job.py:62-69 | from the empty service, on the fields of the events: one JobCreated, at most max_retries + 1 JobStarted with the registered worker's name, and exactly when the job is finished a JobCompleted or a JobFailed whose ids, message and retry count are the committed row's columns |
| IndexContents.UpsertedAt | app/application/documents/use_cases/process_document.py:58-77 | an upsert overwrites exactly the ids of its own chunks |
| IndexContents.ReplayAt | app/application/documents/use_cases/process_document.py:58-77 | after any history the entry for a chunk is the last writer's, and there is one only if someone wrote it |
| IndexContents.EntryIsLatestUpsert | app/application/documents/use_cases/process_document.py:58-77 | the entry for (document, i) is chunk i of the parsed text of the most recently upserted version with more than i chunks, with its vector, recomputed from the bytes stored now; without such a version there is none |
| IndexContents.NoOtherEntries | app/application/documents/use_cases/process_document.py:64-76 | every entry sits under the id of the document and chunk its payload names |
| IndexContents.SingleVersionIndex | app/infrastructure/chunking/recursive_chunker.py:25-28 | the index of a single-version document is empty, or holds each chunk of the parsed text of its stored bytes under its position and nothing else |
| Searchable.PipelineIndexes | app/application/documents/use_cases/process_document.py:48-80 | a pipeline that returns has upserted one point for every chunk of the current version's bytes, and nothing when there is none |
| Searchable.RunsKeepIndexed | app/application/documents/use_cases/process_document.py:58-80 | in every reachable state each PROCESSED document has a version whose chunks, if any, were upserted |
| Searchable.ProcessedIsSearchable | app/application/documents/use_cases/process_document.py:79-80 | in every reachable state the index of a PROCESSED single-version document holds each chunk of its stored bytes and nothing else |
| Searchable.ProcessedHasEveryChunk | app/application/documents/use_cases/process_document.py:56-80 | the same with every value spelled out: entry i is there if and only if i is below the number of chunks of the parsed text, and has chunk i's vector, tenant, document, position and text |
| Catalogue.RunsKeepBytes | app/application/documents/use_cases/add_document_version.py:72-91 | no run changes a version row or a stored object |
| Catalogue.VersionIsForever | app/application/documents/use_cases/upload_document.py:69-109 | every version ever committed loads back, for ever, the same bytes with the recorded size and checksum |
| Catalogue.PathsAreDistinct | app/domain/documents/storage_policy.py:20-33 | committed versions never share a storage path |
| Orphans.NewObjectsAreNamed | app/application/documents/use_cases/upload_document.py:69-79 | every object a step adds to storage is named after the version id that step drew |
| Orphans.LeftoversStayUnreferenced | app/application/documents/use_cases/add_document_version.py:63-91 | whatever an operation that does not commit has added to storage, no version row refers to it, then or after any further run |
| Catalogue.AttachKeepsDedupIff | app/application/documents/use_cases/add_document_version.py:56-91 | attaching a version keeps checksums unique if and only if no other live document of the tenant holds that checksum |
| Catalogue.RunsKeepDedup | app/application/documents/use_cases/upload_document.py:61-67 | over every run without add-version, at most one live document per tenant holds a checksum |
| Duplicates.AddVersionOutcome | app/application/documents/use_cases/add_document_version.py:45-61 | an add-version request is refused for its document or its file only, never for its checksum |
| Duplicates.AddVersionDedupIff | app/application/documents/use_cases/add_document_version.py:45-91 | from any reachable state with unique checksums, an accepted add-version commits and keeps them unique if and only if no other live document of the tenant has that content |
| Duplicates.AdmissionDuplicates | app/application/documents/use_cases/add_document_version.py:56-91 | for any two acceptable files of one tenant with different checksums, three requests from the empty service admit the first twice |
| Duplicates.DuplicateAdmitted | app/application/documents/use_cases/add_document_version.py:56-91 | one such run with every value spelled out |
| Duplicates.InterleavedUploadsDedupIff | app/application/documents/use_cases/upload_document.py:63-109 | two uploads that both passed the checksum check before either inserted both commit, and checksums stay unique if and only if tenants or contents differ |
| Duplicates.SimultaneousUploadsAdmitted | app/application/documents/use_cases/upload_document.py:63-109 | one such pair with every value spelled out |
| Catalogue.UploadOutcome | app/application/documents/use_cases/upload_document.py:55-67 | an upload is refused exactly for its file or when a version of a live document of the tenant has its checksum; the job conflict is unreachable |
| Catalogue.DeletedContentIsFree | app/infrastructure/persistence/sqlalchemy/repositories/document_repository.py:149-168 | after a deletion the checksums of the document's versions are held by no live document of the tenant |
| Duplicates.ReuploadCommits | app/application/documents/use_cases/upload_document.py:63-67 | after deleting the document, an accepted upload of the same content commits |
| Ingestion.UploadIsIngested | app/workers/ingestion.py:23-24 | from any reachable state an accepted upload, delivered without mishap, leaves the job COMPLETED, the document PROCESSED and in the index each chunk of the uploaded bytes and nothing else of that document |
| Ingestion.UploadHasEveryChunk | app/application/documents/use_cases/process_document.py:56-80 | the same with every value spelled out, entry by entry |
| VersionRaces.InsertFitsIffNext | app/infrastructure/persistence/sqlalchemy/models.py:103-110 | the unique index lets an interleaved insert through if and only if its number is the next one |
| VersionRaces.InsertCommitsIffCurrent | app/application/documents/use_cases/add_document_version.py:58-91 | an interleaved insert commits if and only if the document's versions are still exactly those its request listed |
| VersionRaces.RacesKeepHistories | app/application/documents/use_cases/add_document_version.py:58-91 | however reads and inserts interleave, numbers stay exactly 1..n, the pointer on n, and existing versions unchanged |
| VersionRaces.RacesFromAnyState | app/application/documents/use_cases/add_document_version.py:58-91 | the same from every reachable state of the service |
| VersionRaces.AloneIsAddVersion | app/application/documents/use_cases/add_document_version.py:58-91 | with nothing in between, reading and inserting is the add-version request as one step |
| VersionRaces.ListingIs | app/infrastructure/persistence/sqlalchemy/repositories/document_repository.py:215-222 | list_versions then yields n, n-1, ..., 1 |
| Hypotheses.LateCommitCoveredIff | app/application/processing/use_cases/create_processing_job.py:60-70 | for every schedule between enqueueing and commit, all QUEUED jobs are covered afterwards if and only if the message's copies, redeliveries included, outnumber its acknowledged deliveries |
| Hypotheses.LateUploadCoveredIff | app/application/documents/use_cases/upload_document.py:109-129 | the same exact condition for an upload whose transaction is still open |
| Hypotheses.CommitBeforeDeliveryCovers | app/application/processing/use_cases/create_processing_job.py:60-70 | if its message is not delivered before the commit, the new job is covered whatever else happens |
| Hypotheses.DeliveryBeforeCommitStrands | scripts/run_worker.py:53-56 | a message delivered before the commit is skipped and the job is stranded |
| Hypotheses.InterleavedChecksCollideIff | app/application/processing/use_cases/create_processing_job.py:39-60 | two creations that both checked first keep one active job per slot if and only if their slots differ |
| Hypotheses.OverlappingAttemptsCountOnce | app/workers/executor.py:65-68 | two overlapping attempts both retried: the later commit overwrites the earlier and one retry is counted |
| Overlaps.ExecutorEnds | app/workers/executor.py:42-83 | the executor's outcome on the row it read is one of the endings overlapping attempts may have |
| Overlaps.SerialStaysInBudget | scripts/run_worker.py:104-107 | with one attempt at a time a job is attempted at most max_retries - retry_count + 1 times |
| Overlaps.OverlapIsBounded | app/workers/executor.py:63-68 | over every schedule with at most c attempts in flight, a job with b attempts left is attempted at most Most(c, b) times |
| Overlaps.BoundIsMet | app/workers/executor.py:63-68 | for every c and every row some schedule makes exactly that many attempts |
| Conversations.AppendFitsIff | app/infrastructure/persistence/sqlalchemy/models.py:188-190 | inserting from position n passes the unique index if and only if n is the current length or nothing is inserted |
| Conversations.SortIsSorted | app/infrastructure/persistence/sqlalchemy/repositories/conversation_repository.py:68-73 | the ordered query returns every row once, in order of seq |
| Conversations.UpdateThenGet | app/infrastructure/persistence/sqlalchemy/repositories/conversation_repository.py:63-95 | after update with an extension, get returns that very list, other conversations are untouched, and repeating is a no-op |
| Conversations.AddThenGet | app/infrastructure/persistence/sqlalchemy/repositories/conversation_repository.py:49-80 | after add, get returns the conversation |
| Turns.WindowIsLast | app/application/chat/use_cases/answer_question.py:49 | for every window, 0 and negative ones included, how many messages the slice has, and that they are the last ones in order |
| Turns.CommitsIffCurrent | app/application/chat/use_cases/answer_question.py:60-71 | a turn commits if and only if nothing was appended since it read |
| Turns.CommitAppends | app/application/chat/use_cases/answer_question.py:60-71 | a committed turn appends its question and answer to its conversation and changes no other |
| Turns.RunsKeepState | app/application/chat/use_cases/answer_question.py:47-71 | every interleaving keeps seq at 0..n-1 and each history equal to the transcript of committed turns |
| Turns.TurnsAreLinearizable | app/application/chat/use_cases/answer_question.py:47-71 | every committed turn stands directly after exactly the history it read, in a conversation of the tenant that asked, and its prompt is, line by line, the system line asked with, the window over that history and the question asked |
| Turns.TurnsWereAsked | app/application/chat/use_cases/answer_question.py:36-71 | each committed turn was asked by a move of the run, and its answer is one the model gave |
| Turns.ForeignIsRefused | app/application/chat/use_cases/answer_question.py:79-88 | a request opens the conversation, with its whole history, exactly when it is its own tenant's; otherwise it leaves everything as it was |
| Turns.LoadedByOwnTenantOnly | app/infrastructure/persistence/sqlalchemy/repositories/conversation_repository.py:63-80 | over every run a conversation with a committed turn is loaded, with the whole transcript, by the tenant that asked and by no other |
| Turns.HistoriesAlternate | app/application/chat/use_cases/answer_question.py:60-66 | histories built by turns alternate USER and ASSISTANT |
| Chat.ConversationRepository.InsertMissing | app/infrastructure/persistence/sqlalchemy/repositories/conversation_repository.py:92-95 | the loop inserts exactly the messages not stored, at their list positions |
| Chat.ConversationRepository.Add | app/infrastructure/persistence/sqlalchemy/repositories/conversation_repository.py:49-61 | parent row and all messages, or nothing on a clash |
| Chat.ConversationRepository.Update | app/infrastructure/persistence/sqlalchemy/repositories/conversation_repository.py:82-95 | only the missing messages; silent for an unknown conversation |
| Chat.ConversationRepository.Load | app/infrastructure/persistence/sqlalchemy/repositories/conversation_repository.py:63-80 | the tenant's conversation in seq order; nothing exactly when it is not there or belongs to another tenant |
| Chat.AnswerQuestionUseCase.Tail | app/application/chat/use_cases/answer_question.py:49 | Python's negative slice, window 0 and negative windows included |
| Chat.AnswerQuestionUseCase.Compose | app/application/chat/use_cases/answer_question.py:49-57 | system line, windowed history, question, in that order |
| Chat.AnswerQuestionUseCase.JoinContents | app/application/chat/use_cases/answer_question.py:45 | the results' contents with blank lines between them, a missing content being empty |
| Chat.ContextJoins | app/application/chat/use_cases/answer_question.py:45 | the context is a join: the two parts of any cut of the results, joined by a blank line |
| Chat.AnswerQuestionUseCase.Cite | app/application/chat/use_cases/answer_question.py:73 | one source reference per result, id and score, in order |
| Chat.AnswerQuestionUseCase.Execute | app/application/chat/use_cases/answer_question.py:36-88 | retrieval failure, not found, model failure, stale snapshot or reply: the prompt built from the tenant's results and the windowed history, what is stored, and the answer, conversation id and sources returned; another tenant's conversation is never answered from and never changed |
| Chat.AloneIsOpenThenFinish | app/application/chat/use_cases/answer_question.py:47-71 | a turn on an existing conversation that nobody interleaves with always commits |
| ChannelCache.RabbitMQJobQueue.Enter | app/infrastructure/queue/rabbitmq_job_queue.py:58-59 | a new coroutine starts before the first check |
| ChannelCache.RabbitMQJobQueue.GetChannel | app/infrastructure/queue/rabbitmq_job_queue.py:29-33 | first check: the call leaves with the channel cached for its URL if that is open, and waits for the lock otherwise |
| ChannelCache.RabbitMQJobQueue.EnterLock | app/infrastructure/queue/rabbitmq_job_queue.py:33-37 | second check under the lock, with the same outcome, or on to the connection |
| ChannelCache.RabbitMQJobQueue.OpenChannel | app/infrastructure/queue/rabbitmq_job_queue.py:37-38 | connected, the lock still held |
| ChannelCache.RabbitMQJobQueue.AbandonConnection | app/infrastructure/queue/rabbitmq_job_queue.py:33-38 | a failed connection releases the lock and caches nothing |
| ChannelCache.RabbitMQJobQueue.StoreChannel | app/infrastructure/queue/rabbitmq_job_queue.py:38-40 | the new channel is cached and the lock released |
| ChannelCache.RabbitMQJobQueue.EnsureQueue | app/infrastructure/queue/rabbitmq_job_queue.py:43-47 | declares only what is not remembered for this channel |
| ChannelCache.RabbitMQJobQueue.QueueDeclared | app/infrastructure/queue/rabbitmq_job_queue.py:47-48 | remembers a completed declaration |
| ChannelCache.RabbitMQJobQueue.AbandonDeclaration | app/infrastructure/queue/rabbitmq_job_queue.py:47 | a failed declaration is not remembered |
| ChannelCache.RabbitMQJobQueue.PublishMessage | app/infrastructure/queue/rabbitmq_job_queue.py:58-65 | publishes on the channel that was made ready |
| ChannelCache.RabbitMQJobQueue.ChannelClosed | app/infrastructure/queue/rabbitmq_job_queue.py:31-35 | a closed channel stays in the cache and is not used while closed |
| ChannelCache.RabbitMQJobQueue.ChannelRestored | app/infrastructure/queue/rabbitmq_job_queue.py:37-38 | a robust connection may restore a closed channel, which is then usable again |
| ChannelCache.RabbitMQJobQueue.Step | app/infrastructure/queue/rabbitmq_job_queue.py:29-65 | any legal segment, run on the object |
| ChannelCache.RabbitMQJobQueue.RunSchedule | app/infrastructure/queue/rabbitmq_job_queue.py:29-65 | any legal schedule of segments, run on the object from a fresh process, ends with mutual exclusion, bounded channels, every publish declared, every call on a channel of its own URL and every finished call published exactly once |
| ChannelCache.MutualExclusion | app/infrastructure/queue/rabbitmq_job_queue.py:33-40 | at most one coroutine is between the second check and the store |
| ChannelCache.ChannelsAreReplacedOnlyWhenClosed | app/infrastructure/queue/rabbitmq_job_queue.py:29-40 | channels ever stored for a URL number at most one more than those of them that ever closed, restored ones included |
| ChannelCache.PublishFollowsDeclaration | app/infrastructure/queue/rabbitmq_job_queue.py:58-65 | every publish comes after a completed declaration of its queue on its own channel |
| ChannelCache.ChannelsMatchUrls | app/infrastructure/queue/rabbitmq_job_queue.py:29-40 | over every schedule a call that was given a channel has one stored for its own URL |
| ChannelCache.ChecksGiveOpenChannels | app/infrastructure/queue/rabbitmq_job_queue.py:30-36 | both checks, in every reachable state: the call leaves with a channel exactly when one is cached for its URL and open at that moment, and then with that one |
| ChannelCache.EachCallPublishesOnce | app/infrastructure/queue/rabbitmq_job_queue.py:58-65 | over every schedule a finished call has published exactly once, to the queue it was made with, on a channel stored for its URL; any other call has published nothing |
| Migrations.Schema.InsertFirstVersions | alembic/versions/b7f2c9a4d1e8_document_versioning.py:89-100 | one version row, number 1, per document, with its physical columns |
| Migrations.Schema.WireIdentities | alembic/versions/b7f2c9a4d1e8_document_versioning.py:101-112 | every document gets its identity columns, each named from the legacy column it comes from, with its own version as current |
| Migrations.Schema.UpgradeVersioning | alembic/versions/b7f2c9a4d1e8_document_versioning.py:89-165 | the whole upgrade, table to tables; `Migrations.UpgradeKeepsEveryColumn` says where each column goes |
| Migrations.Schema.DowngradeVersioning | alembic/versions/b7f2c9a4d1e8_document_versioning.py:189-206 | the current version's columns come back onto each document, column by column, and NULLs where there is no current version |
| Migrations.Schema.UpgradeTyping | alembic/versions/c3d9e1f42a76_typed_metadata_and_source_type.py:31-92 | each source type is the one its extension has, or text for what is left on the legacy value; every field of the metadata skeleton around the old value; no other column changes |
| Migrations.Schema.DowngradeTyping | alembic/versions/c3d9e1f42a76_typed_metadata_and_source_type.py:95-105 | custom properties, or an empty object where there are none, and the legacy source type; no other column changes |
| Migrations.RoundTrip | alembic/versions/b7f2c9a4d1e8_document_versioning.py:89-206 | both revisions up and both down again return every legacy row unchanged |
| Migrations.UpAndDown | alembic/versions/c3d9e1f42a76_typed_metadata_and_source_type.py:31-105 | the four scripts one after the other give the original table back |
| Migrations.UpgradeKeepsEveryColumn | alembic/versions/b7f2c9a4d1e8_document_versioning.py:89-112 | every column of the legacy row is, after both upgrades, in a named column of the version row or the document, the uploader in both; metadata is the full skeleton around the old value |
| Migrations.UpgradeStartsHistories | alembic/versions/b7f2c9a4d1e8_document_versioning.py:89-112 | after the upgrade every document satisfies the running system's version invariant, with exactly version 1 current, title, creator and space from the legacy row, and a source type equal to from_extension of its dot-free extension |
| Migrations.SqlCaseAgreesIff | app/domain/documents/source_type.py:30-59 | on every extension, the SQL remapping equals from_extension if and only if no leading dot hides a known one |
| Migrations.AcceptedExtensionsAgree | app/application/documents/validation.py:29-40 | so the two agree on every extension an upload can store |
| Migrations.WrappedLoadsIff | alembic/versions/c3d9e1f42a76_typed_metadata_and_source_type.py:71-91 | migrated metadata loads as KnowledgeMetadata if and only if the legacy value was an object of strings |
| Migrations.NumericPropertyStopsLoading | app/domain/documents/metadata.py:62-79 | a legacy value whose document the service can no longer load |

## Left out

- Concurrent consumers in `Protocol`: deliveries are handled one at a time, as one worker process does; `Overlaps` models several on one job, rows and retry counts only, without counting messages.
- Interleaving inside use cases beyond those `VersionRaces`, `Turns`, `ChannelCache`, `Overlaps`, `DeleteRaces`, `Duplicates` and `Hypotheses` take apart: elsewhere requests are atomic steps, apart from being cut short.
- Turns, VersionRaces and ChannelCache interleave steps as functions on values, because other requests run between a coroutine's awaits; `Chat` and `RabbitMQJobQueue` hold the statements between them.
- VersionRaces.RacesKeepHistories: an interleaved insert writes only the columns the request changed, as the ORM does with unchanged attributes; whole-document updates stay serialised.
- Tenancy.TenantsAreIsolated: says that a tenant's rows, entries, messages and events stay as they were, not that its requests are answered as before; a job created for another tenant's document, which no caller does today, holds that document's slot.
- Stale chunks: after an add-version the index is not claimed to match the current version, since the code neither removes old chunks nor reprocesses; `IndexContents.EntryIsLatestUpsert` says what it does hold.
- What an interrupted consumer process does next: it is taken to come back and receive the requeued message.
- The local filesystem storage adapter is not part of this model; storage is a map from keys to bytes.
- SQL isolation levels, row locks, connection pooling and column length limits.
- Qdrant's batch upsert is one atomic map update; collection creation is not modelled, and search is an arbitrary function of vector, limit and tenant.
- Hashing, uuid generation, PDF parsing, text splitting, embedding and the language model are arbitrary functions or fresh values.
- `created_at` and `updated_at`, page counts, version metadata and the storage provider column of the running tables; the migrations keep the last three.
- The validators of document metadata; a document holds metadata they have accepted, and storing it as JSON and loading it is taken to give it back.
- Texts of error messages are shortened; only their presence and their place in the record matter.
- `lower()` and `strip()` act on ASCII; JSON numbers are not renormalised by the migration's casts.
- Migrations.RoundTrip: restores rows, not the NOT NULL constraints and indexes the downgrade does not put back.
- `alembic/versions/d4e8f1a29b30_processing_job_pipeline.py`: its downgrade loses data and the rest renames a column.
- Pagination, settings, HTTP routing, error mapping and logging: nothing hard to state.
