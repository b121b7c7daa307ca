/** The use cases and the worker as functions from the rows they read to the transaction they attempt. */
module UseCases {
  import opened Prelude
  import opened Keys
  import opened Jobs
  import opened SourceTypes
  import opened Store

  // ---- configuration and libraries ---------------------------------------

  datatype UploadSettings = UploadSettings(
    maxSizeBytes: int, allowedExtensions: seq<string>, allowedMimeTypes: seq<string>)

  /** Deterministic but otherwise arbitrary library functions; None stands for an exception. */
  datatype Libraries = Libraries(
    sha256: Bytes -> string,
    parse: (Bytes, string) -> Option<string>,
    split: string -> seq<string>,
    embed: seq<string> -> Option<seq<seq<real>>>)

  /** A registered worker: the ingestion pipeline, or any other code that only advances the job. */
  datatype Worker = Ingestion(name: string) | Scripted(name: string)

  datatype Config = Config(
    maxRetries: int, defaultPriority: int, upload: UploadSettings, registry: map<JobType, Worker>, lib: Libraries)

  // ---- queries -----------------------------------------------------------

  function GetDocument(db: Tables, tenantId: string, documentId: Uuid): Option<Document> {
    if documentId in db.docs && db.docs[documentId].tenantId == tenantId && db.docs[documentId].deletedAt.None?
    then Some(db.docs[documentId]) else None
  }

  function GetJob(db: Tables, tenantId: string, jobId: Uuid): Option<Job> {
    if jobId in db.jobs && db.jobs[jobId].tenantId == tenantId then Some(db.jobs[jobId]) else None
  }

  /** A live document of the tenant has some version with this checksum (`get_by_checksum`). */
  predicate HoldsChecksum(db: Tables, tenantId: string, checksum: string) {
    exists v | v in db.versions :: Holder(db, tenantId, checksum, v)
  }

  predicate Holder(db: Tables, tenantId: string, checksum: string, v: Uuid)
    requires v in db.versions
  {
    && db.versions[v].checksum == checksum
    && db.versions[v].documentId in db.docs
    && db.docs[db.versions[v].documentId].tenantId == tenantId
    && db.docs[db.versions[v].documentId].deletedAt.None?
  }

  predicate Occupies(j: Job, documentId: Uuid, jobType: JobType) {
    j.documentId == documentId && j.jobType == jobType && IsActive(j.status)
  }

  predicate SlotTaken(db: Tables, documentId: Uuid, jobType: JobType) {
    exists j | j in db.jobs :: Occupies(db.jobs[j], documentId, jobType)
  }

  function VersionsOf(db: Tables, documentId: Uuid): set<Uuid> {
    set v | v in db.versions && db.versions[v].documentId == documentId
  }

  function Numbers(db: Tables, documentId: Uuid): set<int> {
    set v | v in db.versions && db.versions[v].documentId == documentId :: db.versions[v].number
  }

  function NextNumber(db: Tables, documentId: Uuid): int {
    if Numbers(db, documentId) == {} then 1 else MaxOf(Numbers(db, documentId)) + 1
  }

  // ---- row changes, with the constraints the database enforces -----------

  /** Primary key, and the unique index on (document_id, version_number). */
  predicate VersionFits(db: Tables, v: Version) {
    v.id !in db.versions && v.number !in Numbers(db, v.documentId)
  }

  /** Primary key, and the foreign key to the document. */
  predicate JobFits(db: Tables, j: Job) {
    j.id !in db.jobs && j.documentId in db.docs
  }

  /** `ProcessingJobRepository.update`: only the mutable columns of an existing row. */
  function SaveJob(db: Tables, j: Job): Tables {
    if j.id !in db.jobs then db
    else db.(jobs := db.jobs[j.id := db.jobs[j.id].(
      status := j.status, priority := j.priority, retryCount := j.retryCount, progress := j.progress,
      workerName := j.workerName, errorMessage := j.errorMessage,
      startedAt := j.startedAt, finishedAt := j.finishedAt)])
  }

  /** `DocumentRepository.update`. */
  function SaveDocument(db: Tables, d: Document): Tables {
    if d.id !in db.docs || db.docs[d.id].tenantId != d.tenantId then db
    else db.(docs := db.docs[d.id := db.docs[d.id].(
      title := d.title, knowledgeSpaceId := d.knowledgeSpaceId, status := d.status, metadata := d.metadata,
      currentVersionId := d.currentVersionId, deletedAt := d.deletedAt)])
  }

  /** `DocumentRepository.add_version`: the row, and the document's pointer and status. */
  function SaveVersion(db: Tables, d: Document, v: Version): Tables {
    var db1 := db.(versions := db.versions[v.id := v]);
    if d.id !in db.docs then db1
    else db1.(docs := db.docs[d.id := db.docs[d.id].(currentVersionId := d.currentVersionId, status := d.status)])
  }

  // ---- create a job (create_processing_job.py) ---------------------------

  datatype JobRequest = JobRequest(
    tenantId: string, documentId: Uuid, versionId: Option<Uuid>, jobType: JobType, priority: Option<int>)

  function RequestedJob(cfg: Config, r: JobRequest, id: Uuid): Job {
    NewJob(id, r.documentId, r.tenantId, r.jobType, r.versionId,
           if r.priority.Some? then r.priority.value else cfg.defaultPriority)
  }

  function CreateJobTx(cfg: Config, db: Tables, r: JobRequest, id: Uuid): Tx {
    var job := RequestedJob(cfg, r, id);
    if SlotTaken(db, r.documentId, r.jobType) then Tx(db, [], Some(Conflict))
    else if !JobFits(db, job) then Tx(db, [], Some(Integrity))
    else Tx(db.(jobs := db.jobs[id := job]),
            [Publish(JobCreated(id, r.documentId, r.tenantId, r.jobType)), Enqueue(Message(r.tenantId, id))],
            None)
  }

  // ---- upload, add version, update, delete -------------------------------

  datatype UploadInput = UploadInput(
    tenantId: string, originalFilename: string, content: Bytes, contentType: string, uploadedBy: Option<string>,
    knowledgeSpaceId: Option<Uuid>)

  /** `validate_upload`: the normalized extension, or a refusal. */
  function ValidateUpload(s: UploadSettings, filename: string, content: Bytes, contentType: string): (r: Result<string>)
    ensures r.Success? ==> '.' !in r.value
  {
    if content == [] then Failure("empty")
    else if |content| > s.maxSizeBytes then Failure("too large")
    else if '.' !in filename then Failure("no extension")
    else
      var extension := Lower(SplitLast(filename, '.').after);
      if extension !in s.allowedExtensions then Failure("extension not allowed")
      else if contentType !in s.allowedMimeTypes then Failure("type not allowed")
      else Success(extension)
  }

  /** What is accepted, in terms of the name's last extension; a name without a dot is refused. */
  lemma AcceptedIff(s: UploadSettings, stem: string, extension: string, content: Bytes, contentType: string)
    requires '.' !in extension
    ensures var r := ValidateUpload(s, stem + ['.'] + extension, content, contentType);
            && (r.Success? <==>
                  1 <= |content| <= s.maxSizeBytes && Lower(extension) in s.allowedExtensions
                  && contentType in s.allowedMimeTypes)
            && (r.Success? ==> r.value == Lower(extension))
    ensures ValidateUpload(s, extension, content, contentType).Failure?
  {
    SplitLastUndoesJoin(stem, '.', extension);
    assert (stem + ['.'] + extension)[|stem|] == '.';
  }

  function NewVersion(cfg: Config, u: UploadInput, extension: string, documentId: Uuid, versionId: Uuid, number: int,
                      at: Instant): Version
  {
    Version(versionId, documentId, number, u.originalFilename, versionId.text + "." + extension, extension, u.contentType,
            |u.content|, cfg.lib.sha256(u.content),
            VersionKey(u.tenantId, documentId, versionId, extension, at), u.uploadedBy)
  }

  function NewDocument(u: UploadInput, extension: string, documentId: Uuid, versionId: Uuid): Document {
    Document(documentId, u.tenantId, u.originalFilename, FromExtension(extension), u.knowledgeSpaceId,
             Some(versionId), Uploaded, NO_METADATA, u.uploadedBy, None)
  }

  function IngestionRequest(d: Document, v: Version): JobRequest {
    JobRequest(d.tenantId, d.id, Some(v.id), DocumentIngestion, None)
  }

  /** Save the bytes, insert document and version, announce, and create the ingestion job. */
  function RegisterTx(cfg: Config, db: Tables, d: Document, v: Version, content: Bytes, jobId: Uuid): Tx {
    var saved := [Save(v.storagePath, content)];
    if d.id in db.docs || !VersionFits(db, v) then Tx(db, saved, Some(Integrity))
    else
      var db1 := db.(docs := db.docs[d.id := d], versions := db.versions[v.id := v]);
      var announced := saved + [Publish(DocumentUploaded(d.id, d.tenantId, v.id, v.number, v.checksum))];
      var job := CreateJobTx(cfg, db1, IngestionRequest(d, v), jobId);
      Tx(job.db, announced + job.effects, job.problem)
  }

  function UploadTx(cfg: Config, db: Tables, u: UploadInput, documentId: Uuid, versionId: Uuid, jobId: Uuid,
                    at: Instant): Tx
  {
    var checked := ValidateUpload(cfg.upload, u.originalFilename, u.content, u.contentType);
    if checked.Failure? then Tx(db, [], Some(Invalid))
    else if HoldsChecksum(db, u.tenantId, cfg.lib.sha256(u.content)) then Tx(db, [], Some(Conflict))
    else RegisterTx(cfg, db, NewDocument(u, checked.value, documentId, versionId),
                    NewVersion(cfg, u, checked.value, documentId, versionId, 1, at), u.content, jobId)
  }

  /** Save the bytes, insert the version and move the document's pointer. */
  function AttachTx(db: Tables, d: Document, v: Version, content: Bytes): Tx {
    var saved := [Save(v.storagePath, content)];
    if !VersionFits(db, v) then Tx(db, saved, Some(Integrity))
    else Tx(SaveVersion(db, d.(currentVersionId := Some(v.id)), v),
            saved + [Publish(VersionAdded(d.id, d.tenantId, v.id, v.number, v.checksum))], None)
  }

  function AddVersionTx(cfg: Config, db: Tables, u: UploadInput, documentId: Uuid, versionId: Uuid, at: Instant): Tx {
    var found := GetDocument(db, u.tenantId, documentId);
    if found.None? then Tx(db, [], Some(NotFound))
    else
      var checked := ValidateUpload(cfg.upload, u.originalFilename, u.content, u.contentType);
      if checked.Failure? then Tx(db, [], Some(Invalid))
      else AttachTx(db, found.value,
                    NewVersion(cfg, u, checked.value, documentId, versionId, NextNumber(db, documentId), at), u.content)
  }

  function DeleteTx(db: Tables, tenantId: string, documentId: Uuid, at: Instant): Tx {
    var found := GetDocument(db, tenantId, documentId);
    if found.None? then Tx(db, [], Some(NotFound))
    else Tx(SaveDocument(db, found.value.(status := Deleted, deletedAt := Some(at))),
            [Publish(DocumentDeleted(documentId, tenantId))], None)
  }

  /** The fields an update request may carry; an absent one stays as it is, present metadata replaces the old whole. */
  datatype Changes = Changes(metadata: Option<KnowledgeMetadata>, title: Option<string>, space: Option<Uuid>)

  function Changed(d: Document, c: Changes): Document {
    var d1 := if c.metadata.Some? then d.(metadata := c.metadata.value) else d;
    var d2 := if c.title.Some? then d1.(title := c.title.value) else d1;
    if c.space.Some? then d2.(knowledgeSpaceId := c.space) else d2
  }

  function UpdateMetadataTx(db: Tables, tenantId: string, documentId: Uuid, c: Changes): Tx {
    var found := GetDocument(db, tenantId, documentId);
    if found.None? then Tx(db, [], Some(NotFound))
    else
      var d := Changed(found.value, c);
      Tx(SaveDocument(db, d), [Publish(MetadataUpdated(documentId, tenantId, d.metadata))], None)
  }

  // ---- process a document (process_document.py) --------------------------

  /** Chunks embedded and turned into points; `zip(strict=True)` refuses a length mismatch. */
  function PointsOf(lib: Libraries, tenantId: string, documentId: Uuid, content: Bytes, mimeType: string)
    : (r: Result<seq<Point>>)
  {
    var text := lib.parse(content, mimeType);
    if text.None? then Failure("parse")
    else
      var chunks := lib.split(text.value);
      if chunks == [] then Success([])
      else
        var vectors := lib.embed(chunks);
        if vectors.None? then Failure("embed")
        else if |vectors.value| != |chunks| then Failure("zip")
        else Success(seq(|chunks|, i requires 0 <= i < |chunks| =>
          Point(ChunkName(documentId, i), vectors.value[i], tenantId, documentId, i, chunks[i])))
  }

  /** A passing failure of storage, parser, model or index, before the upsert or after the index applied it. */
  datatype Fault = NoFault | BeforeUpsert(message: string) | AfterUpsert(message: string)

  datatype Ran = Ran(db: Tables, effects: seq<Effect>, raised: Option<string>)

  function ProcessDocument(lib: Libraries, db: Tables, blobs: map<string, Bytes>, tenantId: string, documentId: Uuid,
                           fault: Fault): Ran
  {
    var found := GetDocument(db, tenantId, documentId);
    if found.None? then Ran(db, [], Some("document not found"))
    else
      var current := found.value.currentVersionId;
      if current.None? || current.value !in db.versions then Ran(db, [], Some("no active version"))
      else
        var version := db.versions[current.value];
        if version.storagePath !in blobs then Ran(db, [], Some("missing object"))
        else
          var points := PointsOf(lib, tenantId, documentId, blobs[version.storagePath], version.mimeType);
          if fault.BeforeUpsert? then Ran(db, [], Some(fault.message))
          else if points.Failure? then Ran(db, [], Some(points.error))
          else
            var effects := if points.value == [] then []
                           else [Upsert(UpsertCall(documentId, version.id, points.value))];
            if fault.AfterUpsert? && points.value != [] then Ran(db, effects, Some(fault.message))
            else Ran(SaveDocument(db, found.value.(status := Processed)), effects, None)
  }

  // ---- run a job (executor.py) -------------------------------------------

  /** One `job.advance(...)`; `caught` when the worker handles the ValidationError itself. */
  datatype AdvanceCall = AdvanceCall(phase: Status, progress: int, caught: bool)

  /** What chance decides about one attempt: the worker's calls and ending, pipeline faults, and the clock. */
  datatype Chance = Chance(calls: seq<AdvanceCall>, ending: Option<string>, fault: Fault, began: Instant, ended: Instant)

  datatype Scripting = Scripting(job: Job, raised: Option<string>)

  function RunScript(j: Job, calls: seq<AdvanceCall>): Scripting
    decreases |calls|
  {
    if calls == [] then Scripting(j, None)
    else
      var r := Apply(j, Advance(calls[0].phase, calls[0].progress));
      if r.Failure? && !calls[0].caught then Scripting(j, Some(r.error))
      else RunScript(Attempted(j, Advance(calls[0].phase, calls[0].progress)), calls[1..])
  }

  /** `await worker.run(job)`. */
  function RunWorker(cfg: Config, db: Tables, blobs: map<string, Bytes>, worker: Worker, j: Job, c: Chance): Ran {
    var script := RunScript(j, c.calls);
    if script.raised.Some? then Ran(db, [], script.raised)
    else if worker.Ingestion? then ProcessDocument(cfg.lib, db, blobs, j.tenantId, j.documentId, c.fault)
    else Ran(db, [], c.ending)
  }

  datatype Executed = Executed(job: Job, tx: Tx)

  function StartedEvent(j: Job, worker: Worker): Event {
    JobStarted(j.id, j.documentId, j.tenantId, worker.name)
  }

  function CompletedEvent(j: Job): Event {
    JobCompleted(j.id, j.documentId, j.tenantId)
  }

  function FailedEvent(j: Job): Event {
    JobFailed(j.id, j.documentId, j.tenantId, if j.errorMessage.Some? then j.errorMessage.value else "", j.retryCount)
  }

  const NO_WORKER := "No worker registered for job type"

  datatype Settled = Settled(job: Job, last: Effect, problem: Option<Problem>)

  /** The transitions after the worker returned or raised, with the effect that closes the attempt. */
  function Settle(cfg: Config, running: Job, raised: Option<string>, ended: Instant): Settled {
    var requeue := Enqueue(Message(running.tenantId, running.id));
    if raised.None? then
      var completed := Apply(running, Complete(ended));
      if completed.Failure? then Settled(running, requeue, Some(Invalid))
      else Settled(completed.value, Publish(CompletedEvent(completed.value)), None)
    else
      var failed := Apply(running, Fail(raised.value, ended));
      if failed.Failure? then Settled(running, requeue, Some(Invalid))
      else if failed.value.retryCount < cfg.maxRetries then
        var again := Apply(failed.value, Retry);
        if again.Failure? then Settled(failed.value, requeue, Some(Invalid))
        else Settled(again.value, requeue, None)
      else Settled(failed.value, Publish(FailedEvent(failed.value)), None)
  }

  /** `WorkerExecutor.execute`; a guard firing outside the try would be the transaction's problem. */
  function Execute(cfg: Config, db: Tables, blobs: map<string, Bytes>, j: Job, c: Chance): Executed {
    if j.jobType !in cfg.registry then
      var failed := Apply(j, Fail(NO_WORKER, c.ended));
      if failed.Failure? then Executed(j, Tx(db, [], Some(Invalid)))
      else Executed(failed.value, Tx(SaveJob(db, failed.value), [Publish(FailedEvent(failed.value))], None))
    else
      var worker := cfg.registry[j.jobType];
      var started := Apply(j, Start(worker.name, c.began));
      if started.Failure? then Executed(j, Tx(db, [], Some(Invalid)))
      else
        var ran := RunWorker(cfg, SaveJob(db, started.value), blobs, worker, started.value, c);
        var done := [Publish(StartedEvent(j, worker))] + ran.effects;
        var settled := Settle(cfg, RunScript(started.value, c.calls).job, ran.raised, c.ended);
        if settled.problem.Some? then Executed(settled.job, Tx(ran.db, done, settled.problem))
        else Executed(settled.job, Tx(SaveJob(ran.db, settled.job), done + [settled.last], None))
  }

  // ---- handle a message (scripts/run_worker.py) --------------------------

  /** The message names a job that is visible and QUEUED; anything else is skipped and acknowledged. */
  predicate Runnable(db: Tables, m: Message) {
    GetJob(db, m.tenantId, m.jobId).Some? && db.jobs[m.jobId].status == Queued
  }

  function HandleTx(cfg: Config, db: Tables, blobs: map<string, Bytes>, m: Message, c: Chance): Tx {
    if Runnable(db, m) then Execute(cfg, db, blobs, db.jobs[m.jobId], c).tx
    else Tx(db, [], None)
  }
}
