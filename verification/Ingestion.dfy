/** One document's way through the service when nothing goes wrong: uploaded, delivered, indexed. */
module Ingestion {
  import opened Prelude
  import opened Keys
  import opened Jobs
  import opened Store
  import opened UseCases
  import opened Chunks
  import opened Executor
  import opened Invariants
  import opened RowsKept
  import opened OutsideKept
  import opened Protocol
  import opened Reachability
  import opened IndexContents
  import opened JobSteps

  /** The rows, the bytes and the message of a freshly committed upload. */
  predicate FreshlyUploaded(w: World, u: UploadInput, d: Uuid, v: Uuid, j: Uuid) {
    && d in w.db.docs && w.db.docs[d].tenantId == u.tenantId && w.db.docs[d].deletedAt.None?
    && w.db.docs[d].currentVersionId == Some(v)
    && v in w.db.versions && w.db.versions[v].id == v && w.db.versions[v].mimeType == u.contentType
    && w.db.versions[v].storagePath in w.out.blobs && w.out.blobs[w.db.versions[v].storagePath] == u.content
    && j in w.db.jobs && w.db.jobs[j].id == j && w.db.jobs[j].documentId == d && w.db.jobs[j].tenantId == u.tenantId
    && w.db.jobs[j].jobType == DocumentIngestion && w.db.jobs[j].status == Queued
    && Message(u.tenantId, j) in w.out.messages
  }

  lemma RegisteredState(cfg: Config, w: World, x: World, u: UploadInput, d: Document, v: Version, j: Uuid)
    requires RegisterTx(cfg, w.db, d, v, u.content, j).problem.None?
    requires var tx := RegisterTx(cfg, w.db, d, v, u.content, j); x.db == tx.db && x.out == PerformAll(w.out, tx.effects)
    requires d.tenantId == u.tenantId && d.deletedAt.None? && d.currentVersionId == Some(v.id) && v.mimeType == u.contentType
    ensures FreshlyUploaded(x, u, d.id, v.id, j)
  {
    var es := RegisterTx(cfg, w.db, d, v, u.content, j).effects;
    RegisterEffects(cfg, w.db, d, v, u.content, j);
    OneSave(w.out, es);
    EffectsOnlyAdd(w.out, es);
    var queued := Enqueue(Message(d.tenantId, j));
    assert es[|es| - 1] == queued;
    assert queued in es;
  }

  lemma UploadedState(cfg: Config, w: World, s: Step)
    requires s.Upload? && s.fuse.None? && Transaction(cfg, w, s).problem.None?
    ensures FreshlyUploaded(Next(cfg, w, s), s.input, s.documentId, s.versionId, s.jobId)
  {
    UncutStep(cfg, w, s, Transaction(cfg, w, s));
    var u := s.input;
    var ext := ValidateUpload(cfg.upload, u.originalFilename, u.content, u.contentType).value;
    RegisteredState(cfg, w, Next(cfg, w, s), u, NewDocument(u, ext, s.documentId, s.versionId),
                   NewVersion(cfg, u, ext, s.documentId, s.versionId, 1, s.at), s.jobId);
  }

  /** Nothing passing goes wrong, and the pipeline's worker reports no phases. */
  predicate Smooth(c: Chance) {
    c.calls == [] && c.fault.NoFault?
  }

  lemma WorkerSucceeds(cfg: Config, w: World, u: UploadInput, d: Uuid, v: Uuid, j: Uuid, c: Chance)
    requires PointersOk(w.db) && FreshlyUploaded(w, u, d, v, j) && Smooth(c)
    requires DocumentIngestion in cfg.registry && cfg.registry[DocumentIngestion].Ingestion?
    requires Indexable(cfg.lib, u.content, u.contentType)
    ensures var part := WorkerPart(cfg, w.db, w.out.blobs, w.db.jobs[j], c);
            && part.raised.None?
            && if cfg.lib.split(cfg.lib.parse(u.content, u.contentType).value) == [] then part.effects == []
               else |part.effects| == 1 && part.effects[0].Upsert?
                    && Carries(cfg.lib, u.tenantId, d, u.content, u.contentType, part.effects[0].call.points)
  {
    var job := w.db.jobs[j];
    var worker := cfg.registry[DocumentIngestion];
    var started := job.(status := Running, workerName := Some(worker.name), startedAt := Some(c.began),
                        progress := 0, errorMessage := None);
    StartingLeaves(w.db, job, started);
    PointsCarryEveryChunk(cfg.lib, u.tenantId, d, u.content, u.contentType);
  }

  lemma IndexBetween(o: Outside, a: Effect, part: seq<Effect>, z: Effect)
    requires a.Publish? && !z.Upsert? && |part| <= 1 && forall e | e in part :: e.Upsert?
    ensures PerformAll(o, [a] + part + [z]).index
         == if part == [] then o.index else Upserted(o.index, part[0].call.points)
  {
    PerformOneMore(o, [a] + part, z);
    PerformInTwoParts(o, [a], part);
    PerformSingle(o, a);
    if part != [] {
      assert part == [part[0]] && part[0].Upsert?;
      PerformSingle(Perform(o, a), part[0]);
    }
  }

  /** Rows and index after delivering a message whose attempt succeeds. */
  lemma DeliveredWorld(cfg: Config, w: World, m: Message, c: Chance, part: Ran, y: World)
    requires Good(cfg, w) && Runnable(w.db, m) && w.db.jobs[m.jobId].jobType in cfg.registry
    requires part == WorkerPart(cfg, w.db, w.out.blobs, w.db.jobs[m.jobId], c) && part.raised.None?
    requires y == Next(cfg, w, Deliver(m, c, None))
    ensures y.db.docs == part.db.docs && m.jobId in y.db.jobs && y.db.jobs[m.jobId].status == Completed
    ensures |part.effects| <= 1 && forall e | e in part.effects :: e.Upsert?
    ensures y.out.index == if part.effects == [] then w.out.index else Upserted(w.out.index, part.effects[0].call.points)
  {
    var j := w.db.jobs[m.jobId];
    var e := Execute(cfg, w.db, w.out.blobs, j, c);
    RowsPointers(w.db);
    ExecuteOutcome(cfg, w.db, w.out.blobs, j, c);
    WorkerPartOutcome(cfg, w.db, w.out.blobs, j, c);
    CompletedWorld(cfg, w, m, c, part, e.tx, e.job, y);
  }

  lemma CompletedWorld(cfg: Config, w: World, m: Message, c: Chance, part: Ran, tx: Tx, k: Job, y: World)
    requires tx == HandleTx(cfg, w.db, w.out.blobs, m, c) && y == Next(cfg, w, Deliver(m, c, None))
    requires m.jobId in w.db.jobs && w.db.jobs[m.jobId].jobType in cfg.registry && k.status == Completed
    requires |part.effects| <= 1 && forall e | e in part.effects :: e.Upsert?
    requires tx.problem.None?
    requires tx.effects == [Publish(StartedEvent(w.db.jobs[m.jobId], cfg.registry[w.db.jobs[m.jobId].jobType]))]
                           + part.effects + [Publish(CompletedEvent(k))]
    requires tx.db.docs == part.db.docs && tx.db.jobs == w.db.jobs[m.jobId := k]
    ensures y.db == tx.db
    ensures y.out.index == if part.effects == [] then w.out.index else Upserted(w.out.index, part.effects[0].call.points)
  {
    UncutStep(cfg, w, Deliver(m, c, None), tx);
    var j := w.db.jobs[m.jobId];
    IndexBetween(w.out, Publish(StartedEvent(j, cfg.registry[j.jobType])), part.effects, Publish(CompletedEvent(k)));
  }

  /** No entry under the chunk ids of a document that is not there yet. */
  lemma UnknownHasNoEntries(cfg: Config, w: World, d: Uuid, i: nat)
    requires Good(cfg, w) && d !in w.db.docs
    ensures ChunkName(d, i) !in w.out.index
  {
    EntryIsLatestUpsert(cfg, w, d, i);
  }

  lemma {:induction false} IndexUntouched(o: Outside, es: seq<Effect>)
    requires forall i | 0 <= i < |es| :: !es[i].Upsert?
    ensures PerformAll(o, es).index == o.index
    decreases |es|
  {
    if es == [] {
    } else {
      IndexUntouched(o, es[..|es| - 1]);
    }
  }

  /**
   * From any good state: an accepted upload puts its message on the queue, and one smooth delivery of it leaves the job
   * COMPLETED, the document PROCESSED, and under the document's chunk ids the chunks of the uploaded bytes, each of them
   * and nothing else.
   */
  lemma UploadIsIngested(cfg: Config, w: World, s: Step, c: Chance)
    requires Good(cfg, w) && Wired(cfg) && DocumentIngestion in cfg.registry && Enabled(w, s)
    requires s.Upload? && s.fuse.None? && Transaction(cfg, w, s).problem.None? && Smooth(c)
    requires Indexable(cfg.lib, s.input.content, s.input.contentType)
    ensures var x := Next(cfg, w, s);
            var m := Message(s.input.tenantId, s.jobId);
            var y := Next(cfg, x, Deliver(m, c, None));
            && m in x.out.messages
            && s.jobId in y.db.jobs && y.db.jobs[s.jobId].status == Completed
            && s.documentId in y.db.docs && y.db.docs[s.documentId].status == Processed
            && ShowsExactly(cfg.lib, y.out.index, s.input.tenantId, s.documentId, s.input.content, s.input.contentType)
  {
    var x := Next(cfg, w, s);
    UploadedState(cfg, w, s);
    StepKeepsGood(cfg, w, s);
    UploadLeavesIndex(cfg, w, s, x);
    var y := Next(cfg, x, Deliver(Message(s.input.tenantId, s.jobId), c, None));
    forall i: nat ensures ChunkName(s.documentId, i) !in x.out.index { UnknownHasNoEntries(cfg, w, s.documentId, i); }
    SmoothDelivery(cfg, x, s.input, s.documentId, s.versionId, s.jobId, c, y);
  }

  lemma UploadLeavesIndex(cfg: Config, w: World, s: Step, x: World)
    requires DocKeys(w.db.docs) && s.Upload? && s.fuse.None? && x == Next(cfg, w, s)
    ensures x.out.index == w.out.index
  {
    RequestSummary(cfg, w, s);
    UncutStep(cfg, w, s, Transaction(cfg, w, s));
    IndexUntouched(w.out, Transaction(cfg, w, s).effects);
  }

  lemma SmoothDelivery(cfg: Config, x: World, u: UploadInput, d: Uuid, v: Uuid, j: Uuid, c: Chance, y: World)
    requires Good(cfg, x) && Wired(cfg) && DocumentIngestion in cfg.registry && Smooth(c)
    requires FreshlyUploaded(x, u, d, v, j) && Indexable(cfg.lib, u.content, u.contentType)
    requires forall i: nat :: ChunkName(d, i) !in x.out.index
    requires y == Next(cfg, x, Deliver(Message(u.tenantId, j), c, None))
    ensures j in y.db.jobs && y.db.jobs[j].status == Completed
    ensures d in y.db.docs && y.db.docs[d].status == Processed
    ensures ShowsExactly(cfg.lib, y.out.index, u.tenantId, d, u.content, u.contentType)
  {
    var part := WorkerPart(cfg, x.db, x.out.blobs, x.db.jobs[j], c);
    RowsPointers(x.db);
    WorkerSucceeds(cfg, x, u, d, v, j, c);
    WorkerPartOutcome(cfg, x.db, x.out.blobs, x.db.jobs[j], c);
    DeliveredWorld(cfg, x, Message(u.tenantId, j), c, part, y);
    if part.effects != [] {
      PointsLand(cfg.lib, x.out.index, u.tenantId, d, u.content, u.contentType, part.effects[0].call.points);
    }
  }

  lemma PointsLand(lib: Libraries, index: map<string, Point>, tenantId: string, d: Uuid, content: Bytes, mimeType: string,
                   points: seq<Point>)
    requires Carries(lib, tenantId, d, content, mimeType, points) && forall i: nat :: ChunkName(d, i) !in index
    ensures ShowsExactly(lib, Upserted(index, points), tenantId, d, content, mimeType)
  {
    forall i: nat
      ensures ChunkName(d, i) in Upserted(index, points) <==> i < |points|
      ensures ChunkName(d, i) in Upserted(index, points) ==>
                ShowsChunk(lib, Upserted(index, points), tenantId, d, content, mimeType, i)
    {
      UpsertedAt(index, d, points, d, i);
    }
  }

  /** The ingested document with every value spelled out: its text, the text's chunks, their vectors, an entry for each. */
  lemma UploadHasEveryChunk(cfg: Config, w: World, s: Step, c: Chance, text: string, vectors: seq<seq<real>>, i: nat)
    requires Good(cfg, w) && Wired(cfg) && DocumentIngestion in cfg.registry && Enabled(w, s)
    requires s.Upload? && s.fuse.None? && Transaction(cfg, w, s).problem.None? && Smooth(c)
    requires cfg.lib.parse(s.input.content, s.input.contentType) == Some(text)
    requires cfg.lib.embed(cfg.lib.split(text)) == Some(vectors) && |vectors| == |cfg.lib.split(text)|
    ensures var d := s.documentId;
            var index := Next(cfg, Next(cfg, w, s), Deliver(Message(s.input.tenantId, s.jobId), c, None)).out.index;
            && (ChunkName(d, i) in index <==> i < |vectors|)
            && (i < |vectors| ==>
                  index[ChunkName(d, i)] ==
                    Point(ChunkName(d, i), vectors[i], s.input.tenantId, d, i, cfg.lib.split(text)[i]))
  {
    UploadIsIngested(cfg, w, s, c);
  }
}
