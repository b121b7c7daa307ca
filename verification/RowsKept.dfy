/** Each use case, when it commits, keeps the row invariants. */
module RowsKept {
  import opened Prelude
  import opened Keys
  import opened Jobs
  import opened Store
  import opened UseCases
  import opened Executor
  import opened Invariants

  lemma RowsPointers(db: Tables)
    requires KeysOk(db) && Histories(db.docs, db.versions)
    ensures PointersOk(db)
  {
    forall d | d in db.docs && db.docs[d].currentVersionId.Some?
      ensures Heads(db.versions, d, db.docs[d].currentVersionId)
    {
      assert HistoryOf(db.docs, db.versions, d);
    }
  }

  // ---- changes to one table at a time ------------------------------------

  lemma NewJobKeepsJobs(cfg: Config, jobs: map<Uuid, Job>, k: Job)
    requires JobsOk(cfg, jobs) && OneActive(jobs) && k.id !in jobs
    requires RecordOk(k) && k.status == Queued && k.retryCount == 0
    requires forall j | j in jobs :: !Occupies(jobs[j], k.documentId, k.jobType)
    ensures JobsOk(cfg, jobs[k.id := k]) && OneActive(jobs[k.id := k])
  {
  }

  lemma NewJobKeepsStep(docs: map<Uuid, Document>, jobs: map<Uuid, Job>, k: Job)
    requires InStep(docs, jobs) && k.id !in jobs && k.status == Queued
    ensures InStep(docs, jobs[k.id := k])
  {
    var after := jobs[k.id := k];
    forall d | d in docs && docs[d].status == Processed
      ensures Ingested(after, d)
    {
      var j :| j in jobs && IngestionDone(jobs[j], d);
      assert IngestionDone(after[j], d);
    }
  }

  lemma AttemptKeepsJobs(cfg: Config, jobs: map<Uuid, Job>, j: Job, k: Job)
    requires JobsOk(cfg, jobs) && OneActive(jobs) && j.id in jobs && jobs[j.id] == j && j.status == Queued
    requires Became(cfg, j, k, FateOf(k))
    ensures JobsOk(cfg, jobs[j.id := k]) && OneActive(jobs[j.id := k])
  {
    var after := jobs[j.id := k];
    forall a, b | a in after && b in after && SameSlot(after[a], after[b])
      ensures a == b
    {
      assert SameSlot(jobs[a], jobs[b]);
    }
  }

  lemma AttemptKeepsStep(docs: map<Uuid, Document>, jobs: map<Uuid, Job>, j: Job, k: Job)
    requires InStep(docs, jobs) && j.id in jobs && jobs[j.id] == j && j.status == Queued
    requires !IngestionDone(k, k.documentId)
    ensures InStep(docs, jobs[j.id := k])
  {
    var after := jobs[j.id := k];
    forall d | d in docs && docs[d].status == Processed
      ensures Ingested(after, d)
    {
      var i :| i in jobs && IngestionDone(jobs[i], d);
      assert IngestionDone(after[i], d);
    }
  }

  lemma IngestionKeepsStep(docs: map<Uuid, Document>, jobs: map<Uuid, Job>, j: Job, k: Job)
    requires InStep(docs, jobs) && j.id in jobs && jobs[j.id] == j && j.status == Queued
    requires j.documentId in docs && IngestionDone(k, j.documentId)
    ensures InStep(docs[j.documentId := docs[j.documentId].(status := Processed)], jobs[j.id := k])
  {
    var d0 := j.documentId;
    var docs1 := docs[d0 := docs[d0].(status := Processed)];
    var after := jobs[j.id := k];
    forall d | d in docs1 && docs1[d].status == Processed
      ensures Ingested(after, d)
    {
      if d == d0 {
        assert IngestionDone(after[j.id], d);
      } else {
        var i :| i in jobs && IngestionDone(jobs[i], d);
        assert IngestionDone(after[i], d);
      }
    }
  }

  lemma HistoryCarries(versions: map<Uuid, Version>, after: map<Uuid, Version>, d: Uuid, current: Option<Uuid>)
    requires History(versions, d, current)
    requires forall v | v in versions :: v in after && after[v] == versions[v]
    requires forall v | v in after && v !in versions :: after[v].documentId != d
    ensures History(after, d, current)
  {
    forall v | IsVersionOf(after, d, v)
      ensures IsVersionOf(versions, d, v)
    {
    }
    forall i | 1 <= i <= versions[current.value].number
      ensures HasNumber(after, d, i)
    {
      assert HasNumber(versions, d, i);
      var u :| IsVersionOf(versions, d, u) && versions[u].number == i;
      assert IsVersionOf(after, d, u) && after[u] == versions[u];
    }
  }

  lemma FirstVersion(versions: map<Uuid, Version>, v: Version)
    requires v.number == 1 && forall u | u in versions :: versions[u].documentId != v.documentId
    ensures History(versions[v.id := v], v.documentId, Some(v.id))
  {
    var after := versions[v.id := v];
    assert IsVersionOf(after, v.documentId, v.id) && after[v.id].number == 1;
    assert HasNumber(after, v.documentId, 1);
  }

  lemma NextVersion(versions: map<Uuid, Version>, current: Option<Uuid>, v: Version)
    requires History(versions, v.documentId, current) && v.id !in versions
    requires v.number == versions[current.value].number + 1
    ensures History(versions[v.id := v], v.documentId, Some(v.id))
  {
    var after := versions[v.id := v];
    forall u | IsVersionOf(after, v.documentId, u)
      ensures u == v.id || IsVersionOf(versions, v.documentId, u)
    {
    }
    forall i | 1 <= i <= v.number
      ensures HasNumber(after, v.documentId, i)
    {
      if i == v.number {
        assert IsVersionOf(after, v.documentId, v.id) && after[v.id].number == i;
      } else {
        assert HasNumber(versions, v.documentId, i);
        var u :| IsVersionOf(versions, v.documentId, u) && versions[u].number == i;
        assert IsVersionOf(after, v.documentId, u) && after[u] == versions[u];
      }
    }
  }

  lemma RestOfHistoriesCarry(docs: map<Uuid, Document>, versions: map<Uuid, Version>, v: Version, pointer: Document)
    requires Histories(docs, versions) && v.id !in versions
    requires History(versions[v.id := v], v.documentId, pointer.currentVersionId)
    ensures Histories(docs[v.documentId := pointer], versions[v.id := v])
  {
    var docs1, after := docs[v.documentId := pointer], versions[v.id := v];
    forall d
      ensures HistoryOf(docs1, after, d)
    {
      assert HistoryOf(docs, versions, d);
      if d in docs && d != v.documentId {
        HistoryCarries(versions, after, d, docs[d].currentVersionId);
      }
    }
  }

  lemma NewPathKeepsPaths(versions: map<Uuid, Version>, v: Version)
    requires PathsOk(versions) && VersionIdIn(v.storagePath) == Some(v.id)
    ensures PathsOk(versions[v.id := v])
  {
    var after := versions[v.id := v];
    forall k
      ensures PathNamed(after, k)
    {
      assert PathNamed(versions, k);
    }
  }

  lemma SamePointersKeepHistories(docs: map<Uuid, Document>, docs1: map<Uuid, Document>, versions: map<Uuid, Version>)
    requires Histories(docs, versions) && docs1.Keys == docs.Keys
    requires forall d | d in docs :: docs1[d].currentVersionId == docs[d].currentVersionId
    ensures Histories(docs1, versions)
  {
    forall d
      ensures HistoryOf(docs1, versions, d)
    {
      assert HistoryOf(docs, versions, d);
    }
  }

  // ---- create a job ------------------------------------------------------

  lemma CreateJobKeepsRows(cfg: Config, db: Tables, r: JobRequest, id: Uuid)
    requires RowsOk(cfg, db)
    ensures RowsOk(cfg, CreateJobTx(cfg, db, r, id).db)
  {
    if CreateJobTx(cfg, db, r, id).problem.None? {
      var job := RequestedJob(cfg, r, id);
      NewJobKeepsJobs(cfg, db.jobs, job);
      NewJobKeepsStep(db.docs, db.jobs, job);
    }
  }

  // ---- update and delete -------------------------------------------------

  lemma DeleteKeepsRows(cfg: Config, db: Tables, tenantId: string, documentId: Uuid, at: Instant)
    requires RowsOk(cfg, db)
    ensures RowsOk(cfg, DeleteTx(db, tenantId, documentId, at).db)
  {
    if GetDocument(db, tenantId, documentId).Some? {
      var d := db.docs[documentId].(status := Deleted, deletedAt := Some(at));
      var docs1 := db.docs[documentId := d];
      assert DeleteTx(db, tenantId, documentId, at).db == db.(docs := docs1);
      SamePointersKeepHistories(db.docs, docs1, db.versions);
      assert InStep(docs1, db.jobs);
    }
  }

  lemma UpdateMetadataKeepsRows(cfg: Config, db: Tables, tenantId: string, documentId: Uuid, c: Changes)
    requires RowsOk(cfg, db)
    ensures RowsOk(cfg, UpdateMetadataTx(db, tenantId, documentId, c).db)
  {
    if GetDocument(db, tenantId, documentId).Some? {
      var after := UpdateMetadataTx(db, tenantId, documentId, c).db;
      var d := after.docs[documentId];
      assert after == db.(docs := db.docs[documentId := d]);
      assert d.status == db.docs[documentId].status && d.deletedAt == db.docs[documentId].deletedAt;
      SamePointersKeepHistories(db.docs, after.docs, db.versions);
      SameStatusKeepsStep(db.docs, db.jobs, d);
    }
  }

  // ---- upload ------------------------------------------------------------

  /** A new document with its version 1 extends the version histories. */
  lemma NewDocumentKeepsRows(cfg: Config, db: Tables, d: Document, v: Version)
    requires RowsOk(cfg, db)
    requires d.id !in db.docs && v.id !in db.versions
    requires v.documentId == d.id && v.number == 1 && d.currentVersionId == Some(v.id)
    requires d.status == Uploaded && d.deletedAt.None? && VersionIdIn(v.storagePath) == Some(v.id)
    ensures RowsOk(cfg, db.(docs := db.docs[d.id := d], versions := db.versions[v.id := v]))
  {
    NewPathKeepsPaths(db.versions, v);
    FirstVersion(db.versions, v);
    RestOfHistoriesCarry(db.docs, db.versions, v, d);
    assert InStep(db.docs[d.id := d], db.jobs);
  }

  lemma RegisterKeepsRows(cfg: Config, db: Tables, d: Document, v: Version, content: Bytes, jobId: Uuid)
    requires RowsOk(cfg, db)
    requires v.documentId == d.id && v.number == 1 && d.currentVersionId == Some(v.id)
    requires d.status == Uploaded && d.deletedAt.None? && VersionIdIn(v.storagePath) == Some(v.id)
    ensures RowsOk(cfg, RegisterTx(cfg, db, d, v, content, jobId).db)
  {
    if d.id !in db.docs && VersionFits(db, v) {
      NewDocumentKeepsRows(cfg, db, d, v);
      CreateJobKeepsRows(cfg, db.(docs := db.docs[d.id := d], versions := db.versions[v.id := v]),
                         IngestionRequest(d, v), jobId);
    }
  }

  // ---- add a version -----------------------------------------------------

  /** With numbers 1..n recorded, the next number is n + 1, and it is free. */
  lemma NextNumberFollows(db: Tables, d: Uuid, current: Option<Uuid>)
    requires History(db.versions, d, current)
    ensures NextNumber(db, d) == db.versions[current.value].number + 1
    ensures NextNumber(db, d) !in Numbers(db, d)
  {
    assert db.versions[current.value].number in Numbers(db, d);
    forall n | n in Numbers(db, d)
      ensures n <= db.versions[current.value].number
    {
      var v :| v in db.versions && db.versions[v].documentId == d && db.versions[v].number == n;
      assert IsVersionOf(db.versions, d, v);
    }
  }

  /** The row `number n + 1` and the pointer to it extend one history and leave the others alone. */
  lemma SaveVersionKeepsHistories(db: Tables, d: Document, v: Version)
    requires Histories(db.docs, db.versions)
    requires d.id in db.docs && v.id !in db.versions && v.documentId == d.id && d.currentVersionId == Some(v.id)
    requires v.number == NextNumber(db, d.id)
    ensures Histories(db.docs[d.id := d], db.versions[v.id := v])
  {
    assert HistoryOf(db.docs, db.versions, d.id);
    NextNumberFollows(db, d.id, db.docs[d.id].currentVersionId);
    NextVersion(db.versions, db.docs[d.id].currentVersionId, v);
    RestOfHistoriesCarry(db.docs, db.versions, v, d);
  }

  /** A row whose status and deletion time stay keeps documents and jobs in step. */
  lemma SameStatusKeepsStep(docs: map<Uuid, Document>, jobs: map<Uuid, Job>, d: Document)
    requires InStep(docs, jobs) && StatusesOk(docs)
    requires d.id in docs && d.status == docs[d.id].status && d.deletedAt == docs[d.id].deletedAt
    ensures InStep(docs[d.id := d], jobs) && StatusesOk(docs[d.id := d])
  {
    var after := docs[d.id := d];
    forall e | e in after && after[e].status == Processed
      ensures Ingested(jobs, e)
    {
      assert docs[e].status == Processed;
    }
  }

  lemma PointerMoveKeepsRows(cfg: Config, db: Tables, d: Document, v: Version)
    requires RowsOk(cfg, db)
    requires d.id in db.docs && d.status == db.docs[d.id].status && d.deletedAt == db.docs[d.id].deletedAt
    requires v.id !in db.versions && v.documentId == d.id && d.currentVersionId == Some(v.id)
    requires v.number == NextNumber(db, d.id) && VersionIdIn(v.storagePath) == Some(v.id)
    ensures RowsOk(cfg, db.(docs := db.docs[d.id := d], versions := db.versions[v.id := v]))
  {
    NewPathKeepsPaths(db.versions, v);
    SaveVersionKeepsHistories(db, d, v);
    SameStatusKeepsStep(db.docs, db.jobs, d);
  }

  lemma SaveVersionIs(db: Tables, d: Document, v: Version)
    requires d.id in db.docs && d == db.docs[d.id].(currentVersionId := d.currentVersionId)
    ensures SaveVersion(db, d, v) == db.(docs := db.docs[d.id := d], versions := db.versions[v.id := v])
  {
  }

  lemma AttachKeepsRows(cfg: Config, db: Tables, d: Document, v: Version, content: Bytes)
    requires RowsOk(cfg, db)
    requires d.id in db.docs && db.docs[d.id] == d && v.documentId == d.id && v.number == NextNumber(db, d.id)
    requires VersionIdIn(v.storagePath) == Some(v.id)
    ensures RowsOk(cfg, AttachTx(db, d, v, content).db)
  {
    if VersionFits(db, v) {
      var moved := d.(currentVersionId := Some(v.id));
      SaveVersionIs(db, moved, v);
      PointerMoveKeepsRows(cfg, db, moved, v);
    }
  }

  // ---- handle a message --------------------------------------------------

  /** A worker is registered under its own job type, so the pipeline runs for ingestion jobs only. */
  predicate IngestsOnlyIngestions(cfg: Config) {
    forall t | t in cfg.registry && cfg.registry[t].Ingestion? :: t == DocumentIngestion
  }

  lemma AttemptKeepsRows(cfg: Config, db: Tables, j: Job, k: Job)
    requires RowsOk(cfg, db)
    requires j.id in db.jobs && db.jobs[j.id] == j && j.status == Queued && Became(cfg, j, k, FateOf(k))
    requires !IngestionDone(k, k.documentId)
    ensures RowsOk(cfg, db.(jobs := db.jobs[j.id := k]))
  {
    AttemptKeepsJobs(cfg, db.jobs, j, k);
    AttemptKeepsStep(db.docs, db.jobs, j, k);
  }

  lemma IngestionKeepsRows(cfg: Config, db: Tables, j: Job, k: Job)
    requires RowsOk(cfg, db)
    requires j.id in db.jobs && db.jobs[j.id] == j && j.status == Queued && Became(cfg, j, k, FateOf(k))
    requires j.documentId in db.docs && db.docs[j.documentId].deletedAt.None? && IngestionDone(k, j.documentId)
    ensures RowsOk(cfg, Tables(db.docs[j.documentId := db.docs[j.documentId].(status := Processed)], db.versions,
                               db.jobs[j.id := k]))
  {
    var docs1 := db.docs[j.documentId := db.docs[j.documentId].(status := Processed)];
    AttemptKeepsJobs(cfg, db.jobs, j, k);
    IngestionKeepsStep(db.docs, db.jobs, j, k);
    SamePointersKeepHistories(db.docs, docs1, db.versions);
  }

  lemma HandleKeepsRows(cfg: Config, db: Tables, blobs: map<string, Bytes>, m: Message, c: Chance)
    requires RowsOk(cfg, db) && Standard(cfg) && IngestsOnlyIngestions(cfg)
    ensures RowsOk(cfg, HandleTx(cfg, db, blobs, m, c).db)
  {
    if Runnable(db, m) {
      var j := db.jobs[m.jobId];
      RowsPointers(db);
      ExecuteOutcome(cfg, db, blobs, j, c);
      WorkerPartOutcome(cfg, db, blobs, j, c);
      var k := Execute(cfg, db, blobs, j, c).job;
      if IngestionDone(k, k.documentId) {
        IngestionKeepsRows(cfg, db, j, k);
      } else {
        AttemptKeepsRows(cfg, db, j, k);
      }
    }
  }
}
