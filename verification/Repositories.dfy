/** The SQLAlchemy repositories over a session, and the mutable document entity they load. */
module Repositories {
  import opened Prelude
  import opened Jobs
  import opened SourceTypes
  import opened Store
  import opened UseCases
  import opened Invariants
  import opened Sessions
  import opened VersionRaces

  /** `KnowledgeDocument` (app/domain/documents/entities.py); use cases assign its fields and hand it back. */
  class KnowledgeDocument {
    const id: Uuid
    const tenantId: string
    const sourceType: SourceType
    const createdBy: Option<string>
    var title: string
    var knowledgeSpaceId: Option<Uuid>
    var currentVersionId: Option<Uuid>
    var status: DocStatus
    var metadata: KnowledgeMetadata
    var deletedAt: Option<Instant>

    function Record(): Document
      reads this
    {
      Document(id, tenantId, title, sourceType, knowledgeSpaceId, currentVersionId, status, metadata, createdBy,
               deletedAt)
    }

    constructor (d: Document)
      ensures Record() == d
    {
      id, tenantId, sourceType, createdBy := d.id, d.tenantId, d.sourceType, d.createdBy;
      title, knowledgeSpaceId, currentVersionId := d.title, d.knowledgeSpaceId, d.currentVersionId;
      status, metadata, deletedAt := d.status, d.metadata, d.deletedAt;
    }
  }

  class JobRepository {
    const session: Session

    constructor (session: Session)
      ensures this.session == session
    {
      this.session := session;
    }

    /** The flush reports a duplicate key or a missing document. */
    method Add(j: Job) returns (ok: bool)
      modifies session
      ensures ok == JobFits(old(session.rows), j)
      ensures session.rows == if ok then old(session.rows).(jobs := old(session.rows).jobs[j.id := j]) else old(session.rows)
    {
      ok := j.id !in session.rows.jobs && j.documentId in session.rows.docs;
      if ok { session.rows := session.rows.(jobs := session.rows.jobs[j.id := j]); }
    }

    method Get(tenantId: string, jobId: Uuid) returns (job: ProcessingJob?)
      ensures job == null <==> GetJob(session.rows, tenantId, jobId).None?
      ensures job != null ==> fresh(job) && job.Record() == session.rows.jobs[jobId]
    {
      job := null;
      if jobId in session.rows.jobs && session.rows.jobs[jobId].tenantId == tenantId {
        job := new ProcessingJob(session.rows.jobs[jobId]);
      }
    }

    /** Only the mutable columns, and only of an existing row. */
    method Update(job: ProcessingJob)
      modifies session
      ensures session.rows == SaveJob(old(session.rows), job.Record())
    {
      if job.id !in session.rows.jobs { return; }
      var row := session.rows.jobs[job.id];
      row := row.(status := job.status, priority := job.priority);
      row := row.(retryCount := job.retryCount, progress := job.progress);
      row := row.(workerName := job.workerName, errorMessage := job.errorMessage);
      row := row.(startedAt := job.startedAt, finishedAt := job.finishedAt);
      session.rows := session.rows.(jobs := session.rows.jobs[job.id := row]);
    }

    method GetActiveByType(documentId: Uuid, jobType: JobType) returns (r: Option<Job>)
      ensures r.Some? <==> SlotTaken(session.rows, documentId, jobType)
      ensures r.Some? ==> Occupies(r.value, documentId, jobType) && r.value in session.rows.jobs.Values
    {
      if j :| j in session.rows.jobs && Occupies(session.rows.jobs[j], documentId, jobType) {
        r := Some(session.rows.jobs[j]);
      } else {
        r := None;
      }
    }
  }

  class DocumentRepository {
    const session: Session

    constructor (session: Session)
      ensures this.session == session
    {
      this.session := session;
    }

    /** Version row, then document row, in one flush. */
    method Add(d: Document, v: Version) returns (ok: bool)
      modifies session
      ensures ok == (d.id !in old(session.rows).docs && VersionFits(old(session.rows), v))
      ensures session.rows == if ok then old(session.rows).(docs := old(session.rows).docs[d.id := d],
                                                            versions := old(session.rows).versions[v.id := v])
                              else old(session.rows)
    {
      ok := d.id !in session.rows.docs && v.id !in session.rows.versions && v.number !in Numbers(session.rows, v.documentId);
      if ok {
        session.rows := session.rows.(versions := session.rows.versions[v.id := v]);
        session.rows := session.rows.(docs := session.rows.docs[d.id := d]);
      }
    }

    /** The new row, and two columns of the document. */
    method AddVersion(document: KnowledgeDocument, v: Version) returns (ok: bool)
      modifies session
      ensures ok == VersionFits(old(session.rows), v)
      ensures session.rows == if ok then SaveVersion(old(session.rows), document.Record(), v) else old(session.rows)
    {
      ok := v.id !in session.rows.versions && v.number !in Numbers(session.rows, v.documentId);
      if !ok { return; }
      session.rows := session.rows.(versions := session.rows.versions[v.id := v]);
      if document.id in session.rows.docs {
        var row := session.rows.docs[document.id];
        row := row.(currentVersionId := document.currentVersionId);
        row := row.(status := document.status);
        session.rows := session.rows.(docs := session.rows.docs[document.id := row]);
      }
    }

    method Get(tenantId: string, documentId: Uuid) returns (document: KnowledgeDocument?)
      ensures document == null <==> GetDocument(session.rows, tenantId, documentId).None?
      ensures document != null ==> fresh(document) && document.Record() == session.rows.docs[documentId]
    {
      document := null;
      if documentId in session.rows.docs {
        var row := session.rows.docs[documentId];
        if row.tenantId == tenantId && row.deletedAt.None? { document := new KnowledgeDocument(row); }
      }
    }

    /** `_load_version`. */
    method LoadVersion(versionId: Option<Uuid>) returns (v: Option<Version>)
      ensures v == if versionId.Some? && versionId.value in session.rows.versions
                   then Some(session.rows.versions[versionId.value]) else None
    {
      if versionId.None? { return None; }
      if versionId.value !in session.rows.versions { return None; }
      return Some(session.rows.versions[versionId.value]);
    }

    method GetByChecksum(tenantId: string, checksum: string) returns (r: Option<Document>)
      ensures r.Some? <==> HoldsChecksum(session.rows, tenantId, checksum)
      ensures r.Some? ==> exists v | v in session.rows.versions ::
                Holder(session.rows, tenantId, checksum, v) && session.rows.docs[session.rows.versions[v].documentId] == r.value
    {
      if v :| v in session.rows.versions && Holder(session.rows, tenantId, checksum, v) {
        r := Some(session.rows.docs[session.rows.versions[v].documentId]);
      } else {
        r := None;
      }
    }

    /** Rows of the document with the highest number first. */
    method ListVersions(documentId: Uuid) returns (listed: seq<Version>)
      requires VersionKeys(session.rows.versions)
      ensures Lists(session.rows, documentId, listed)
    {
      listed := [];
      var left := VersionsOf(session.rows, documentId);
      while left != {}
        invariant left <= VersionsOf(session.rows, documentId)
        invariant ListsBut(session.rows, documentId, left, listed)
        decreases |left|
      {
        TopExists(session.rows, left);
        var v :| v in left && forall u | u in left :: session.rows.versions[u].number <= session.rows.versions[v].number;
        ListOneMore(session.rows, documentId, left, listed, v);
        listed := listed + [session.rows.versions[v]];
        left := left - {v};
      }
    }

    /** Only the mutable columns, of an existing row of the same tenant. */
    method Update(document: KnowledgeDocument)
      modifies session
      ensures session.rows == SaveDocument(old(session.rows), document.Record())
    {
      if document.id !in session.rows.docs || session.rows.docs[document.id].tenantId != document.tenantId { return; }
      var row := session.rows.docs[document.id];
      row := row.(title := document.title);
      row := row.(knowledgeSpaceId := document.knowledgeSpaceId);
      row := row.(status := document.status);
      row := row.(metadata := document.metadata);
      row := row.(currentVersionId := document.currentVersionId);
      row := row.(deletedAt := document.deletedAt);
      session.rows := session.rows.(docs := session.rows.docs[document.id := row]);
    }
  }

  // ---- the ordered query -------------------------------------------------

  /** `listed` holds the document's versions except those left, highest number first, all at or above those left. */
  ghost predicate ListsBut(db: Tables, d: Uuid, left: set<Uuid>, listed: seq<Version>) {
    && (forall i | 0 <= i < |listed| ::
          IsVersionOf(db.versions, d, listed[i].id) && db.versions[listed[i].id] == listed[i] && listed[i].id !in left)
    && (forall v | IsVersionOf(db.versions, d, v) && v !in left :: db.versions[v] in listed)
    && (forall i, k | 0 <= i < k < |listed| :: listed[i].number >= listed[k].number && listed[i].id != listed[k].id)
    && (forall i, u | 0 <= i < |listed| && u in left && u in db.versions :: listed[i].number >= db.versions[u].number)
  }

  lemma TopExists(db: Tables, left: set<Uuid>)
    requires left != {} && left <= db.versions.Keys
    ensures exists v :: v in left && forall u | u in left :: db.versions[u].number <= db.versions[v].number
  {
    var numbers := set u | u in left :: db.versions[u].number;
    var some :| some in left;
    assert db.versions[some].number in numbers;
    var top := MaxOf(numbers);
    var v :| v in left && db.versions[v].number == top;
    forall u | u in left
      ensures db.versions[u].number <= top
    {
      assert db.versions[u].number in numbers;
    }
    assert v in left && forall u | u in left :: db.versions[u].number <= db.versions[v].number;
  }

  lemma ListOneMore(db: Tables, d: Uuid, left: set<Uuid>, listed: seq<Version>, v: Uuid)
    requires VersionKeys(db.versions) && left <= VersionsOf(db, d) && ListsBut(db, d, left, listed)
    requires v in left && forall u | u in left :: db.versions[u].number <= db.versions[v].number
    ensures ListsBut(db, d, left - {v}, listed + [db.versions[v]])
  {
    var more := listed + [db.versions[v]];
    assert IsVersionOf(db.versions, d, v);
    forall u | IsVersionOf(db.versions, d, u) && u !in left - {v}
      ensures db.versions[u] in more
    {
      if u == v { assert more[|listed|] == db.versions[v]; } else { assert db.versions[u] in listed; }
    }
  }
}
