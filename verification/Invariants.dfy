/** What holds in every committed state of the service. */
module Invariants {
  import opened Prelude
  import opened Keys
  import opened Jobs
  import opened Store
  import opened UseCases
  import opened Executor

  // ---- rows --------------------------------------------------------------

  ghost predicate KeysOk(db: Tables) {
    DocKeys(db.docs) && VersionKeys(db.versions) && JobKeys(db.jobs)
  }

  ghost predicate DocKeys(docs: map<Uuid, Document>) {
    forall k | k in docs :: docs[k].id == k
  }

  ghost predicate VersionKeys(versions: map<Uuid, Version>) {
    forall k | k in versions :: versions[k].id == k
  }

  ghost predicate JobKeys(jobs: map<Uuid, Job>) {
    forall k | k in jobs :: jobs[k].id == k
  }

  ghost predicate RefsOk(db: Tables) {
    VersionRefs(db.docs, db.versions) && JobRefs(db.docs, db.jobs)
  }

  ghost predicate VersionRefs(docs: map<Uuid, Document>, versions: map<Uuid, Version>) {
    forall v | v in versions :: versions[v].documentId in docs
  }

  ghost predicate JobRefs(docs: map<Uuid, Document>, jobs: map<Uuid, Job>) {
    forall j | j in jobs :: jobs[j].documentId in docs
  }

  /** Retries ever spent stay within the configured budget, and are granted to served job types only. */
  ghost predicate WithinBudget(cfg: Config, j: Job) {
    j.retryCount > 0 ==> j.retryCount <= cfg.maxRetries && j.jobType in cfg.registry
  }

  ghost predicate Settled(s: Status) {
    s == Queued || s == Completed || s == Failed
  }

  /** No committed job is RUNNING or in a phase, and each record is consistent. */
  ghost predicate JobsOk(cfg: Config, jobs: map<Uuid, Job>) {
    forall j | j in jobs ::
      RecordOk(jobs[j]) && Settled(jobs[j].status) && WithinBudget(cfg, jobs[j])
  }

  ghost predicate SameSlot(a: Job, b: Job) {
    a.documentId == b.documentId && a.jobType == b.jobType && IsActive(a.status) && IsActive(b.status)
  }

  /** At most one active job per document and job type. */
  ghost predicate OneActive(jobs: map<Uuid, Job>) {
    forall a, b | a in jobs && b in jobs && SameSlot(jobs[a], jobs[b]) :: a == b
  }

  ghost predicate StatusesOk(docs: map<Uuid, Document>) {
    forall d | d in docs ::
      && (docs[d].status == Uploaded || docs[d].status == Processed || docs[d].status == Deleted)
      && (docs[d].status == Deleted <==> docs[d].deletedAt.Some?)
  }

  ghost predicate IngestionDone(j: Job, d: Uuid) {
    j.documentId == d && j.jobType == DocumentIngestion && j.status == Completed
  }

  ghost predicate Ingested(jobs: map<Uuid, Job>, d: Uuid) {
    exists j | j in jobs :: IngestionDone(jobs[j], d)
  }

  ghost predicate ProcessedOrDeleted(docs: map<Uuid, Document>, d: Uuid) {
    d in docs && (docs[d].status == Processed || docs[d].status == Deleted)
  }

  /** A completed ingestion's document is PROCESSED or DELETED, and a PROCESSED document has a completed ingestion. */
  ghost predicate InStep(docs: map<Uuid, Document>, jobs: map<Uuid, Job>) {
    && (forall j | j in jobs && IngestionDone(jobs[j], jobs[j].documentId) :: ProcessedOrDeleted(docs, jobs[j].documentId))
    && (forall d | d in docs && docs[d].status == Processed :: Ingested(jobs, d))
  }

  ghost predicate IsVersionOf(versions: map<Uuid, Version>, d: Uuid, v: Uuid) {
    v in versions && versions[v].documentId == d
  }

  ghost predicate HasNumber(versions: map<Uuid, Version>, d: Uuid, n: int) {
    exists v :: IsVersionOf(versions, d, v) && versions[v].number == n
  }

  ghost predicate NumberedUpTo(versions: map<Uuid, Version>, d: Uuid, n: int) {
    && (forall v | IsVersionOf(versions, d, v) :: 1 <= versions[v].number <= n)
    && (forall i | 1 <= i <= n :: HasNumber(versions, d, i))
    && (forall v, u | IsVersionOf(versions, d, v) && IsVersionOf(versions, d, u)
                      && versions[v].number == versions[u].number :: v == u)
  }

  ghost predicate Heads(versions: map<Uuid, Version>, d: Uuid, current: Option<Uuid>) {
    current.Some? && IsVersionOf(versions, d, current.value)
  }

  /** The document's version numbers are exactly 1..n, without repetition, and its pointer names version n. */
  ghost predicate History(versions: map<Uuid, Version>, d: Uuid, current: Option<Uuid>) {
    Heads(versions, d, current) && NumberedUpTo(versions, d, versions[current.value].number)
  }

  ghost predicate HistoryOf(docs: map<Uuid, Document>, versions: map<Uuid, Version>, d: Uuid) {
    d in docs ==> History(versions, d, docs[d].currentVersionId)
  }

  ghost predicate Histories(docs: map<Uuid, Document>, versions: map<Uuid, Version>) {
    forall d {:trigger HistoryOf(docs, versions, d)} :: HistoryOf(docs, versions, d)
  }

  predicate PathNamed(versions: map<Uuid, Version>, v: Uuid) {
    v in versions ==> VersionIdIn(versions[v].storagePath) == Some(v)
  }

  /** A version's storage path names that version, so no two versions share one. */
  ghost predicate PathsOk(versions: map<Uuid, Version>) {
    forall v {:trigger PathNamed(versions, v)} :: PathNamed(versions, v)
  }

  ghost predicate RowsOk(cfg: Config, db: Tables) {
    && KeysOk(db) && PathsOk(db.versions) && RefsOk(db) && JobsOk(cfg, db.jobs) && OneActive(db.jobs)
    && StatusesOk(db.docs) && InStep(db.docs, db.jobs) && Histories(db.docs, db.versions)
  }

  /** Only the ingestion pipeline is registered for ingestion jobs (app/workers/composition.py). */
  predicate Standard(cfg: Config) {
    DocumentIngestion in cfg.registry ==> cfg.registry[DocumentIngestion].Ingestion?
  }

  // ---- rows against the outside ------------------------------------------

  /** Every QUEUED job has a message that will lead the consumer to it. */
  ghost predicate Covered(db: Tables, messages: multiset<Message>) {
    forall j | j in db.jobs && db.jobs[j].status == Queued :: Message(db.jobs[j].tenantId, j) in messages
  }

  /** The key names one of these versions. */
  predicate Named(key: string, ids: set<Uuid>) {
    VersionIdIn(key).Some? && VersionIdIn(key).value in ids
  }

  ghost predicate BlobIdsOk(blobs: map<string, Bytes>, issued: set<Uuid>) {
    forall key {:trigger Named(key, issued)} :: key in blobs ==> Named(key, issued)
  }

  /** The version's bytes load back with the recorded length and checksum. */
  predicate StoredAs(lib: Libraries, v: Version, blobs: map<string, Bytes>) {
    && v.storagePath in blobs
    && |blobs[v.storagePath]| == v.size
    && lib.sha256(blobs[v.storagePath]) == v.checksum
  }

  ghost predicate Stored(lib: Libraries, db: Tables, blobs: map<string, Bytes>) {
    forall v | v in db.versions :: StoredAs(lib, db.versions[v], blobs)
  }

  /** The index a history of upserts builds from nothing. */
  function Replay(calls: seq<UpsertCall>): map<string, Point> {
    if calls == [] then map[] else Upserted(Replay(calls[..|calls| - 1]), calls[|calls| - 1].points)
  }

  predicate CallOk(lib: Libraries, db: Tables, o: Outside, i: nat) {
    i < |o.upserts| ==> FaithfulCall(lib, db, o.blobs, o.upserts[i])
  }

  /** Every upsert ever made carried the points of a recorded version's bytes, as they are stored now. */
  ghost predicate CallsOk(lib: Libraries, db: Tables, o: Outside) {
    forall i: nat {:trigger CallOk(lib, db, o, i)} :: CallOk(lib, db, o, i)
  }

  ghost predicate OutsideOk(cfg: Config, db: Tables, o: Outside, issued: set<Uuid>) {
    && Covered(db, o.messages)
    && BlobIdsOk(o.blobs, issued)
    && Stored(cfg.lib, db, o.blobs)
    && o.index == Replay(o.upserts)
    && CallsOk(cfg.lib, db, o)
  }

  ghost predicate IdsOk(w: World) {
    w.db.docs.Keys <= w.issued && w.db.versions.Keys <= w.issued && w.db.jobs.Keys <= w.issued
  }

  ghost predicate Good(cfg: Config, w: World) {
    IdsOk(w) && RowsOk(cfg, w.db) && OutsideOk(cfg, w.db, w.out, w.issued)
  }
}
