/** The persistent tables, the systems outside the database, and the transaction that ties a use case to both. */
module Store {
  import opened Prelude
  import opened Jobs
  import opened SourceTypes

  // ---- tables (app/infrastructure/persistence/sqlalchemy/models.py) ------

  datatype DocStatus = Uploaded | InProcessing | Processed | ProcessingFailed | Deleted

  /** `KnowledgeMetadata`, as it is once its validators accepted it. */
  datatype KnowledgeMetadata = KnowledgeMetadata(
    language: Option<string>, author: Option<string>, organization: Option<string>, department: Option<string>,
    category: Option<string>, tags: seq<string>, keywords: seq<string>, securityLevel: Option<string>,
    retentionPolicy: Option<string>, createdByApplication: Option<string>, documentCreatedAt: Option<Instant>,
    documentModifiedAt: Option<Instant>, customProperties: map<string, string>)

  const NO_METADATA := KnowledgeMetadata(
    None, None, None, None, None, [], [], None, None, None, None, None, map[])

  datatype Document = Document(
    id: Uuid, tenantId: string, title: string, sourceType: SourceType, knowledgeSpaceId: Option<Uuid>,
    currentVersionId: Option<Uuid>, status: DocStatus, metadata: KnowledgeMetadata, createdBy: Option<string>,
    deletedAt: Option<Instant>)

  datatype Version = Version(
    id: Uuid, documentId: Uuid, number: int, originalFilename: string, filename: string, extension: string,
    mimeType: string, size: nat, checksum: string, storagePath: string, uploadedBy: Option<string>)

  datatype Tables = Tables(docs: map<Uuid, Document>, versions: map<Uuid, Version>, jobs: map<Uuid, Job>)

  const NO_ROWS := Tables(map[], map[], map[])

  // ---- outside the database ----------------------------------------------

  datatype Message = Message(tenantId: string, jobId: Uuid)

  datatype Event =
    | DocumentUploaded(documentId: Uuid, tenantId: string, versionId: Uuid, number: int, checksum: string)
    | VersionAdded(documentId: Uuid, tenantId: string, versionId: Uuid, number: int, checksum: string)
    | DocumentDeleted(documentId: Uuid, tenantId: string)
    | MetadataUpdated(documentId: Uuid, tenantId: string, metadata: KnowledgeMetadata)
    | JobCreated(jobId: Uuid, documentId: Uuid, tenantId: string, jobType: JobType)
    | JobStarted(jobId: Uuid, documentId: Uuid, tenantId: string, worker: string)
    | JobCompleted(jobId: Uuid, documentId: Uuid, tenantId: string)
    | JobFailed(jobId: Uuid, documentId: Uuid, tenantId: string, message: string, retryCount: nat)

  datatype Point = Point(
    id: string, vector: seq<real>, tenantId: string, documentId: Uuid, chunkIndex: nat, content: string)

  datatype UpsertCall = UpsertCall(documentId: Uuid, versionId: Uuid, points: seq<Point>)

  datatype Effect =
    | Publish(event: Event)
    | Enqueue(message: Message)
    | Upsert(call: UpsertCall)
    | Save(key: string, content: Bytes)

  /** Queue, event log, vector index (with the calls that built it) and blob storage. */
  datatype Outside = Outside(
    messages: multiset<Message>, events: seq<Event>, index: map<string, Point>, upserts: seq<UpsertCall>,
    blobs: map<string, Bytes>)

  const NOTHING_OUTSIDE := Outside(multiset{}, [], map[], [], map[])

  /** `VectorRepository.upsert`: points are keyed by their id. */
  function Upserted(index: map<string, Point>, points: seq<Point>): map<string, Point> {
    if points == [] then index
    else
      var n := |points| - 1;
      Upserted(index, points[..n])[points[n].id := points[n]]
  }

  function Perform(o: Outside, e: Effect): Outside {
    match e
    case Publish(event) => o.(events := o.events + [event])
    case Enqueue(message) => o.(messages := o.messages + multiset{message})
    case Upsert(call) => o.(index := Upserted(o.index, call.points), upserts := o.upserts + [call])
    case Save(key, content) => o.(blobs := o.blobs[key := content])
  }

  function PerformAll(o: Outside, es: seq<Effect>): Outside
    decreases |es|
  {
    if es == [] then o else Perform(PerformAll(o, es[..|es| - 1]), es[|es| - 1])
  }

  lemma PerformOneMore(o: Outside, es: seq<Effect>, e: Effect)
    ensures PerformAll(o, es + [e]) == Perform(PerformAll(o, es), e)
  {
    assert (es + [e])[..|es|] == es;
  }

  lemma {:induction false} PerformInTwoParts(o: Outside, es: seq<Effect>, fs: seq<Effect>)
    ensures PerformAll(o, es + fs) == PerformAll(PerformAll(o, es), fs)
    decreases |fs|
  {
    if fs == [] {
      assert es + fs == es;
    } else {
      var n := |fs| - 1;
      assert es + fs == (es + fs[..n]) + [fs[n]];
      PerformOneMore(o, es + fs[..n], fs[n]);
      PerformInTwoParts(o, es, fs[..n]);
    }
  }

  lemma PerformSingle(o: Outside, e: Effect)
    ensures PerformAll(o, [e]) == Perform(o, e)
  {
    assert [e] == [] + [e];
    PerformOneMore(o, [], e);
  }

  /** Queue, log and history only grow, and every enqueued message is on the queue. */
  lemma {:induction false} EffectsOnlyAdd(o: Outside, es: seq<Effect>)
    ensures var p := PerformAll(o, es);
            && o.messages <= p.messages
            && o.events <= p.events
            && o.upserts <= p.upserts
            && o.blobs.Keys <= p.blobs.Keys
            && forall e | e in es && e.Enqueue? :: e.message in p.messages
    decreases |es|
  {
    if es == [] {
    } else {
      var n := |es| - 1;
      EffectsOnlyAdd(o, es[..n]);
      assert forall e | e in es :: e in es[..n] || e == es[n];
    }
  }

  // ---- one transaction (app/infrastructure/persistence/sqlalchemy/session.py) ----

  datatype Problem = NotFound | Invalid | Conflict | Integrity

  /** A use case run in a session: the rows it would commit, its outside effects in order, and what it raised. */
  datatype Tx = Tx(db: Tables, effects: seq<Effect>, problem: Option<Problem>)

  /** The whole system as others can observe it; `issued` are the uuid4 values ever drawn. */
  datatype World = World(db: Tables, out: Outside, issued: set<Uuid>)

  /** How many of `n` outside calls are reached when the fuse blows before call number `fuse`. */
  function Reached(fuse: Option<nat>, n: nat): nat {
    if fuse.Some? && fuse.value < n then fuse.value else n
  }

  /** The commit itself is the call after the last effect. */
  predicate Survives(fuse: Option<nat>, n: nat) {
    fuse.Some? ==> fuse.value > n
  }

  /** Commit on success, rollback on any exception; effects outside the database are never taken back. */
  function Finish(w: World, tx: Tx, fuse: Option<nat>, drawn: set<Uuid>): World {
    var n := |tx.effects|;
    World(if tx.problem.None? && Survives(fuse, n) then tx.db else w.db,
          PerformAll(w.out, tx.effects[..Reached(fuse, n)]),
          w.issued + drawn)
  }
}
