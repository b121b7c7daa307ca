/** The use cases as statements over repositories and the systems outside, each tied to the transaction it stands for. */
module Services {
  import opened Prelude
  import opened Keys
  import opened Jobs
  import opened SourceTypes
  import opened Store
  import opened UseCases
  import opened Invariants
  import opened Sessions
  import opened Repositories
  import V = VersionRaces

  /** create_processing_job.py */
  class CreateProcessingJobUseCase {
    const cfg: Config
    const jobs: JobRepository
    const outside: Externals

    constructor (cfg: Config, jobs: JobRepository, outside: Externals)
      ensures this.cfg == cfg && this.jobs == jobs && this.outside == outside
    {
      this.cfg, this.jobs, this.outside := cfg, jobs, outside;
    }

    method Execute(data: JobRequest, id: Uuid) returns (r: Outcome<Job>)
      modifies jobs.session, outside
      ensures Ends(CreateJobTx(cfg, old(jobs.session.rows), data, id), old(outside.state), old(outside.fuse),
                   outside.state, outside.fuse, jobs.session.rows, r)
    {
      ghost var o, f, rows := outside.state, outside.fuse, jobs.session.rows;
      var active := jobs.GetActiveByType(data.documentId, data.jobType);
      if active.Some? { return Raised(Conflict); }

      var priority := if data.priority.Some? then data.priority.value else cfg.defaultPriority;
      var job := NewJob(id, data.documentId, data.tenantId, data.jobType, data.versionId, priority);
      var ok := jobs.Add(job);
      if !ok { return Raised(Integrity); }

      ghost var created, queued := Publish(JobCreated(id, data.documentId, data.tenantId, data.jobType)),
                                   Enqueue(Message(data.tenantId, id));
      assert CreateJobTx(cfg, rows, data, id).effects == [created] + [queued];
      ok := outside.PublishEvent(JobCreated(job.id, job.documentId, job.tenantId, job.jobType));
      if !ok {
        CutEarlier(o, f, [created], [queued], outside.state);
        return Interrupted;
      }
      ghost var o1, f1 := outside.state, outside.fuse;
      ok := outside.EnqueueJob(job.tenantId, job.id);
      if !ok {
        CutLater(o, f, [created], o1, f1, [queued], outside.state);
        return Interrupted;
      }
      DidBoth(o, f, [created], o1, f1, [queued], outside.state, outside.fuse);
      return Returned(job);
    }
  }

  /** upload_document.py */
  class UploadDocumentUseCase {
    const documents: DocumentRepository
    const createJob: CreateProcessingJobUseCase

    constructor (documents: DocumentRepository, createJob: CreateProcessingJobUseCase)
      ensures this.documents == documents && this.createJob == createJob
    {
      this.documents, this.createJob := documents, createJob;
    }

    /** Both repositories work in the request's one session. */
    predicate Wired() {
      documents.session == createJob.jobs.session
    }

    method Execute(data: UploadInput, documentId: Uuid, versionId: Uuid, jobId: Uuid, now: Instant)
      returns (r: Outcome<Document>)
      requires Wired()
      modifies documents.session, createJob.outside
      ensures Ends(UploadTx(createJob.cfg, old(documents.session.rows), data, documentId, versionId, jobId, now),
                   old(createJob.outside.state), old(createJob.outside.fuse),
                   createJob.outside.state, createJob.outside.fuse, documents.session.rows, r)
    {
      var cfg := createJob.cfg;
      var checked := ValidateUpload(cfg.upload, data.originalFilename, data.content, data.contentType);
      if checked.Failure? { return Raised(Invalid); }
      var checksum := cfg.lib.sha256(data.content);
      var existing := documents.GetByChecksum(data.tenantId, checksum);
      if existing.Some? { return Raised(Conflict); }

      var key := VersionKey(data.tenantId, documentId, versionId, checked.value, now);
      var version := Version(versionId, documentId, 1, data.originalFilename, versionId.text + "." + checked.value,
                             checked.value, data.contentType, |data.content|, checksum, key, data.uploadedBy);
      var document := Document(documentId, data.tenantId, data.originalFilename, FromExtension(checked.value),
                               data.knowledgeSpaceId, Some(versionId), Uploaded, NO_METADATA, data.uploadedBy, None);
      r := Register(document, version, data.content, jobId);
    }

    /** From storing the bytes on. */
    method Register(document: Document, version: Version, content: Bytes, jobId: Uuid) returns (r: Outcome<Document>)
      requires Wired()
      modifies documents.session, createJob.outside
      ensures Ends(RegisterTx(createJob.cfg, old(documents.session.rows), document, version, content, jobId),
                   old(createJob.outside.state), old(createJob.outside.fuse),
                   createJob.outside.state, createJob.outside.fuse, documents.session.rows, r)
    {
      var outside := createJob.outside;
      ghost var o, f, rows := outside.state, outside.fuse, documents.session.rows;
      ghost var saved := [Save(version.storagePath, content)];
      ghost var rest := RegisterTx(createJob.cfg, rows, document, version, content, jobId).effects[1..];
      assert RegisterTx(createJob.cfg, rows, document, version, content, jobId).effects == saved + rest;
      var ok := outside.SaveObject(version.storagePath, content);
      if !ok {
        CutEarlier(o, f, saved, rest, outside.state);
        return Interrupted;
      }
      ghost var o1, f1 := outside.state, outside.fuse;
      ok := documents.Add(document, version);
      if !ok { return Raised(Integrity); }
      ghost var rows1 := documents.session.rows;

      var uploaded := DocumentUploaded(document.id, document.tenantId, version.id, version.number, version.checksum);
      var request := JobRequest(document.tenantId, document.id, Some(version.id), DocumentIngestion, None);
      ghost var job := CreateJobTx(createJob.cfg, rows1, request, jobId);
      assert rest == [Publish(uploaded)] + job.effects;
      ok := outside.PublishEvent(uploaded);
      if !ok {
        CutEarlier(o1, f1, [Publish(uploaded)], job.effects, outside.state);
        CutLater(o, f, saved, o1, f1, rest, outside.state);
        return Interrupted;
      }
      ghost var o2, f2 := outside.state, outside.fuse;
      var created := createJob.Execute(request, jobId);
      if created.Interrupted? {
        CutLater(o1, f1, [Publish(uploaded)], o2, f2, job.effects, outside.state);
        CutLater(o, f, saved, o1, f1, rest, outside.state);
        return Interrupted;
      }
      DidBoth(o1, f1, [Publish(uploaded)], o2, f2, job.effects, outside.state, outside.fuse);
      DidBoth(o, f, saved, o1, f1, rest, outside.state, outside.fuse);
      if created.Raised? { return Raised(created.problem); }
      return Returned(document);
    }
  }

  /** The numbers in a listing are the document's numbers. */
  lemma ListedNumbers(db: Tables, d: Uuid, listed: seq<Version>)
    requires V.Lists(db, d, listed)
    ensures Numbers(db, d) == set i | 0 <= i < |listed| :: listed[i].number
  {
    forall n | n in Numbers(db, d)
      ensures exists i :: 0 <= i < |listed| && listed[i].number == n
    {
      var v :| v in db.versions && db.versions[v].documentId == d && db.versions[v].number == n;
      assert IsVersionOf(db.versions, d, v);
      assert db.versions[v] in listed;
    }
    forall i | 0 <= i < |listed|
      ensures listed[i].number in Numbers(db, d)
    {
      assert IsVersionOf(db.versions, d, listed[i].id);
    }
  }

  /** `max(v.version_number for v in existing_versions) + 1 if existing_versions else 1`. */
  method NumberAfter(listed: seq<Version>) returns (next: int)
    ensures listed == [] ==> next == 1
    ensures listed != [] ==> (exists i :: 0 <= i < |listed| && next == listed[i].number + 1)
                             && forall i | 0 <= i < |listed| :: listed[i].number < next
  {
    if listed == [] { return 1; }
    var top := listed[0].number;
    for k := 1 to |listed|
      invariant exists i :: 0 <= i < k && top == listed[i].number
      invariant forall i | 0 <= i < k :: listed[i].number <= top
    {
      if listed[k].number > top { top := listed[k].number; }
    }
    next := top + 1;
  }

  lemma NumberAfterIsNext(db: Tables, d: Uuid, listed: seq<Version>, next: int)
    requires V.Lists(db, d, listed)
    requires listed == [] ==> next == 1
    requires listed != [] ==> (exists i :: 0 <= i < |listed| && next == listed[i].number + 1)
                              && forall i | 0 <= i < |listed| :: listed[i].number < next
    ensures next == NextNumber(db, d)
  {
    ListedNumbers(db, d, listed);
    if listed == [] {
      assert Numbers(db, d) == {};
    } else {
      var i :| 0 <= i < |listed| && next == listed[i].number + 1;
      assert listed[i].number in Numbers(db, d);
      var m := MaxOf(Numbers(db, d));
      var k :| 0 <= k < |listed| && listed[k].number == m;
    }
  }

  /** add_document_version.py */
  class AddDocumentVersionUseCase {
    const cfg: Config
    const documents: DocumentRepository
    const outside: Externals

    constructor (cfg: Config, documents: DocumentRepository, outside: Externals)
      ensures this.cfg == cfg && this.documents == documents && this.outside == outside
    {
      this.cfg, this.documents, this.outside := cfg, documents, outside;
    }

    method Execute(data: UploadInput, documentId: Uuid, versionId: Uuid, now: Instant) returns (r: Outcome<Version>)
      requires DocKeys(documents.session.rows.docs) && VersionKeys(documents.session.rows.versions)
      modifies documents.session, outside
      ensures Ends(AddVersionTx(cfg, old(documents.session.rows), data, documentId, versionId, now),
                   old(outside.state), old(outside.fuse), outside.state, outside.fuse, documents.session.rows, r)
    {
      ghost var rows := documents.session.rows;
      var document := documents.Get(data.tenantId, documentId);
      if document == null { return Raised(NotFound); }
      var checked := ValidateUpload(cfg.upload, data.originalFilename, data.content, data.contentType);
      if checked.Failure? { return Raised(Invalid); }
      var checksum := cfg.lib.sha256(data.content);

      var existing := documents.ListVersions(document.id);
      var next := NumberAfter(existing);
      NumberAfterIsNext(rows, documentId, existing, next);
      var key := VersionKey(data.tenantId, document.id, versionId, checked.value, now);
      var version := Version(versionId, document.id, next, data.originalFilename, versionId.text + "." + checked.value,
                             checked.value, data.contentType, |data.content|, checksum, key, data.uploadedBy);
      r := Attach(document, version, data.content);
    }

    /** From storing the bytes on. */
    method Attach(document: KnowledgeDocument, version: Version, content: Bytes) returns (r: Outcome<Version>)
      modifies documents.session, outside, document
      ensures Ends(AttachTx(old(documents.session.rows), old(document.Record()), version, content),
                   old(outside.state), old(outside.fuse), outside.state, outside.fuse, documents.session.rows, r)
    {
      ghost var o, f, rows := outside.state, outside.fuse, documents.session.rows;
      ghost var effects := AttachTx(rows, document.Record(), version, content).effects;
      ghost var saved := [Save(version.storagePath, content)];
      assert effects == saved + effects[1..];
      var ok := outside.SaveObject(version.storagePath, content);
      if !ok {
        CutEarlier(o, f, saved, effects[1..], outside.state);
        return Interrupted;
      }
      ghost var o1, f1 := outside.state, outside.fuse;
      document.currentVersionId := Some(version.id);
      ok := documents.AddVersion(document, version);
      if !ok { return Raised(Integrity); }

      var added := VersionAdded(document.id, document.tenantId, version.id, version.number, version.checksum);
      assert effects == saved + [Publish(added)];
      ok := outside.PublishEvent(added);
      if !ok {
        CutLater(o, f, saved, o1, f1, [Publish(added)], outside.state);
        return Interrupted;
      }
      DidBoth(o, f, saved, o1, f1, [Publish(added)], outside.state, outside.fuse);
      return Returned(version);
    }
  }

  /** delete_document.py and update_document_metadata.py */
  class DocumentUseCases {
    const documents: DocumentRepository
    const outside: Externals

    constructor (documents: DocumentRepository, outside: Externals)
      ensures this.documents == documents && this.outside == outside
    {
      this.documents, this.outside := documents, outside;
    }

    method Delete(tenantId: string, documentId: Uuid, now: Instant) returns (r: Outcome<bool>)
      requires DocKeys(documents.session.rows.docs)
      modifies documents.session, outside
      ensures Ends(DeleteTx(old(documents.session.rows), tenantId, documentId, now),
                   old(outside.state), old(outside.fuse), outside.state, outside.fuse, documents.session.rows, r)
    {
      var document := documents.Get(tenantId, documentId);
      if document == null { return Raised(NotFound); }
      document.status := Deleted;
      document.deletedAt := Some(now);
      documents.Update(document);
      var ok := outside.PublishEvent(DocumentDeleted(document.id, document.tenantId));
      if !ok { return Interrupted; }
      return Returned(true);
    }

    method UpdateMetadata(tenantId: string, documentId: Uuid, changes: Changes) returns (r: Outcome<Document>)
      requires DocKeys(documents.session.rows.docs)
      modifies documents.session, outside
      ensures Ends(UpdateMetadataTx(old(documents.session.rows), tenantId, documentId, changes),
                   old(outside.state), old(outside.fuse), outside.state, outside.fuse, documents.session.rows, r)
    {
      var document := documents.Get(tenantId, documentId);
      if document == null { return Raised(NotFound); }
      if changes.metadata.Some? { document.metadata := changes.metadata.value; }
      if changes.title.Some? { document.title := changes.title.value; }
      if changes.space.Some? { document.knowledgeSpaceId := changes.space; }
      documents.Update(document);
      var ok := outside.PublishEvent(MetadataUpdated(document.id, document.tenantId, document.metadata));
      if !ok { return Interrupted; }
      return Returned(document.Record());
    }
  }
}
