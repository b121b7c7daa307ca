/** PROCESSED means indexed: in every reachable state, not only right after the processing. */
module Searchable {
  import opened Prelude
  import opened Keys
  import opened Jobs
  import opened Store
  import opened UseCases
  import opened Chunks
  import opened Executor
  import opened Invariants
  import opened RowsKept
  import opened OutsideKept
  import opened Protocol
  import opened Reachability
  import opened IndexContents
  import opened Catalogue

  predicate WasUpserted(calls: seq<UpsertCall>, d: Uuid, v: Uuid) {
    exists k | 0 <= k < |calls| :: calls[k].documentId == d && calls[k].versionId == v
  }

  /** The bytes can be indexed, and unless they have no chunks they have been upserted. */
  predicate Submitted(lib: Libraries, content: Bytes, mimeType: string, calls: seq<UpsertCall>, d: Uuid, v: Uuid) {
    && Indexable(lib, content, mimeType)
    && (lib.split(lib.parse(content, mimeType).value) == [] || WasUpserted(calls, d, v))
  }

  /** The version's stored bytes make chunks, and unless there are none they have been upserted. */
  predicate IndexedVersion(cfg: Config, w: World, d: Uuid, v: Uuid) {
    && d in w.db.docs && v in w.db.versions && w.db.versions[v].documentId == d
    && w.db.versions[v].storagePath in w.out.blobs
    && Submitted(cfg.lib, w.out.blobs[w.db.versions[v].storagePath], w.db.versions[v].mimeType, w.out.upserts, d, v)
  }

  ghost predicate IsIndexed(cfg: Config, w: World, d: Uuid) {
    d in w.db.docs && w.db.docs[d].status == Processed ==> exists v :: IndexedVersion(cfg, w, d, v)
  }

  ghost predicate AllIndexed(cfg: Config, w: World) {
    forall d {:trigger IsIndexed(cfg, w, d)} :: IsIndexed(cfg, w, d)
  }

  /** Rows, bytes and upserts only grow, so an indexed version stays one. */
  lemma StaysIndexed(cfg: Config, w: World, x: World, d: Uuid, v: Uuid)
    requires IndexedVersion(cfg, w, d, v)
    requires Grows(w.db, x.db) && BytesStay(w.out.blobs, x.out.blobs) && w.out.upserts <= x.out.upserts
    ensures IndexedVersion(cfg, x, d, v)
  {
    if WasUpserted(w.out.upserts, d, v) {
      var k :| 0 <= k < |w.out.upserts| && w.out.upserts[k].documentId == d && w.out.upserts[k].versionId == v;
      assert x.out.upserts[k] == w.out.upserts[k];
    }
  }

  // ---- only a delivery makes a document PROCESSED ------------------------

  predicate WasProcessed(db: Tables, after: Tables, d: Uuid) {
    d in after.docs && after.docs[d].status == Processed ==> d in db.docs && db.docs[d].status == Processed
  }

  lemma RegisterProcessesNothing(cfg: Config, db: Tables, d: Document, v: Version, content: Bytes, jobId: Uuid, e: Uuid)
    requires d.status != Processed
    ensures WasProcessed(db, RegisterTx(cfg, db, d, v, content, jobId).db, e)
  {
  }

  lemma AttachProcessesNothing(db: Tables, d: Document, v: Version, content: Bytes, e: Uuid)
    requires d.id in db.docs && db.docs[d.id] == d
    ensures WasProcessed(db, AttachTx(db, d, v, content).db, e)
  {
  }

  lemma SavingProcessesNothing(db: Tables, d: Document, e: Uuid)
    requires d.status == Processed ==> d.id in db.docs && db.docs[d.id].status == Processed
    ensures WasProcessed(db, SaveDocument(db, d), e)
  {
  }

  lemma UploadProcessesNothing(cfg: Config, db: Tables, u: UploadInput, d: Uuid, v: Uuid, j: Uuid, at: Instant, e: Uuid)
    ensures WasProcessed(db, UploadTx(cfg, db, u, d, v, j, at).db, e)
  {
    var checked := ValidateUpload(cfg.upload, u.originalFilename, u.content, u.contentType);
    if checked.Success? {
      RegisterProcessesNothing(cfg, db, NewDocument(u, checked.value, d, v), NewVersion(cfg, u, checked.value, d, v, 1, at),
                               u.content, j, e);
    }
  }

  lemma AddVersionProcessesNothing(cfg: Config, db: Tables, u: UploadInput, d: Uuid, v: Uuid, at: Instant, e: Uuid)
    requires DocKeys(db.docs)
    ensures WasProcessed(db, AddVersionTx(cfg, db, u, d, v, at).db, e)
  {
    var checked := ValidateUpload(cfg.upload, u.originalFilename, u.content, u.contentType);
    if checked.Success? && GetDocument(db, u.tenantId, d).Some? {
      AttachProcessesNothing(db, db.docs[d], NewVersion(cfg, u, checked.value, d, v, NextNumber(db, d), at), u.content, e);
    }
  }

  lemma RequestProcessesNothing(cfg: Config, w: World, s: Step, e: Uuid)
    requires DocKeys(w.db.docs) && !s.Redeliver? && !s.Deliver?
    ensures WasProcessed(w.db, Transaction(cfg, w, s).db, e)
  {
    match s
    case CreateJob(_, _, _) =>
    case Upload(u, d, v, j, at, _) => UploadProcessesNothing(cfg, w.db, u, d, v, j, at, e);
    case AddVersion(u, d, v, at, _) => AddVersionProcessesNothing(cfg, w.db, u, d, v, at, e);
    case Delete(tenantId, d, at, _) =>
      if GetDocument(w.db, tenantId, d).Some? {
        SavingProcessesNothing(w.db, w.db.docs[d].(status := Deleted, deletedAt := Some(at)), e);
      }
    case UpdateMetadata(tenantId, d, changes, _) =>
      if GetDocument(w.db, tenantId, d).Some? { SavingProcessesNothing(w.db, Changed(w.db.docs[d], changes), e); }
  }

  /** The effects upsert exactly the chunks of these bytes, and nothing when there are none. */
  predicate UpsertsChunks(lib: Libraries, tenantId: string, d: Uuid, v: Uuid, content: Bytes, mimeType: string,
                          effects: seq<Effect>)
  {
    && Indexable(lib, content, mimeType)
    && if lib.split(lib.parse(content, mimeType).value) == [] then effects == []
       else && |effects| == 1 && effects[0].Upsert? && effects[0].call.documentId == d && effects[0].call.versionId == v
            && Carries(lib, tenantId, d, content, mimeType, effects[0].call.points)
  }

  /** A pipeline that returns has upserted all chunks of the current version's bytes. */
  lemma PipelineIndexes(lib: Libraries, db: Tables, blobs: map<string, Bytes>, tenantId: string, d: Uuid, fault: Fault)
    requires VersionKeys(db.versions) && ProcessDocument(lib, db, blobs, tenantId, d, fault).raised.None?
    ensures GetDocument(db, tenantId, d).Some? && db.docs[d].currentVersionId.Some?
    ensures var v := db.docs[d].currentVersionId.value;
            && v in db.versions && db.versions[v].storagePath in blobs
            && UpsertsChunks(lib, tenantId, d, v, blobs[db.versions[v].storagePath], db.versions[v].mimeType,
                             ProcessDocument(lib, db, blobs, tenantId, d, fault).effects)
  {
    var v := db.docs[d].currentVersionId.value;
    PointsCarryEveryChunk(lib, tenantId, d, blobs[db.versions[v].storagePath], db.versions[v].mimeType);
  }

  lemma AttemptIndexes(cfg: Config, db: Tables, blobs: map<string, Bytes>, j: Job, c: Chance, part: Ran)
    requires RowsOk(cfg, db) && j.id in db.jobs && db.jobs[j.id] == j && part == WorkerPart(cfg, db, blobs, j, c)
    requires part.raised.None? && part.db.docs != db.docs
    ensures GetDocument(db, j.tenantId, j.documentId).Some? && db.docs[j.documentId].currentVersionId.Some?
    ensures part.db.docs == db.docs[j.documentId := db.docs[j.documentId].(status := Processed)]
    ensures var v := db.docs[j.documentId].currentVersionId.value;
            && v in db.versions && db.versions[v].storagePath in blobs
            && UpsertsChunks(cfg.lib, j.tenantId, j.documentId, v, blobs[db.versions[v].storagePath],
                             db.versions[v].mimeType, part.effects)
  {
    var worker := cfg.registry[j.jobType];
    var started := j.(status := Running, workerName := Some(worker.name), startedAt := Some(c.began),
                      progress := 0, errorMessage := None);
    RowsPointers(db);
    WorkerPartOutcome(cfg, db, blobs, j, c);
    StartingLeaves(db, j, started);
    PipelineIndexes(cfg.lib, SaveJob(db, started), blobs, j.tenantId, j.documentId, c.fault);
  }

  lemma {:induction false} EffectRecorded(o: Outside, es: seq<Effect>, call: UpsertCall)
    requires Upsert(call) in es
    ensures call in PerformAll(o, es).upserts
    decreases |es|
  {
    var n := |es| - 1;
    if es[n] == Upsert(call) {
      assert PerformAll(o, es).upserts == PerformAll(o, es[..n]).upserts + [call];
    } else {
      EffectRecorded(o, es[..n], call);
      assert PerformAll(o, es[..n]).upserts <= PerformAll(o, es).upserts;
    }
  }

  // ---- one step, all runs ------------------------------------------------

  lemma UpsertsGrow(cfg: Config, w: World, s: Step, x: World)
    requires x == Next(cfg, w, s)
    ensures w.out.upserts <= x.out.upserts
  {
    if !s.Redeliver? {
      var tx := Transaction(cfg, w, s);
      NextIs(cfg, w, s, tx);
      EffectsOnlyAdd(w.out, tx.effects[..Reached(s.fuse, |tx.effects|)]);
    }
  }

  /** A delivery that changes a document's row is a committed attempt: its rows and its upserts are there afterwards. */
  lemma DeliveryLeaves(cfg: Config, w: World, s: Step, x: World, tx: Tx)
    requires s.Deliver? && x == Next(cfg, w, s) && tx == HandleTx(cfg, w.db, w.out.blobs, s.message, s.chance)
    requires x.db.docs != w.db.docs
    ensures x.db == tx.db && forall call | Upsert(call) in tx.effects :: call in x.out.upserts
  {
    NextIs(cfg, w, s, tx);
    assert tx.effects[..|tx.effects|] == tx.effects;
    forall call | Upsert(call) in tx.effects
      ensures call in x.out.upserts
    {
      EffectRecorded(w.out, tx.effects, call);
    }
  }

  lemma AttemptEffectsAre(cfg: Config, db: Tables, blobs: map<string, Bytes>, m: Message, c: Chance, part: Ran, tx: Tx)
    requires RowsOk(cfg, db) && Runnable(db, m) && part == WorkerPart(cfg, db, blobs, db.jobs[m.jobId], c)
    requires tx == HandleTx(cfg, db, blobs, m, c)
    ensures tx.db.docs == part.db.docs && (part.raised.Some? ==> part.db.docs == db.docs)
    ensures forall call | Upsert(call) in part.effects :: Upsert(call) in tx.effects
  {
    RowsPointers(db);
    ExecuteOutcome(cfg, db, blobs, db.jobs[m.jobId], c);
    WorkerPartOutcome(cfg, db, blobs, db.jobs[m.jobId], c);
  }

  /** A document that becomes PROCESSED by a delivery is indexed at its current version. */
  lemma DeliveryIndexes(cfg: Config, w: World, s: Step, x: World, d: Uuid)
    requires Good(cfg, w) && s.Deliver? && x == Next(cfg, w, s) && d in x.db.docs && x.db.docs[d].status == Processed
    requires !(d in w.db.docs && w.db.docs[d].status == Processed)
    requires Grows(w.db, x.db) && BytesStay(w.out.blobs, x.out.blobs)
    ensures exists v :: IndexedVersion(cfg, x, d, v)
  {
    var tx := HandleTx(cfg, w.db, w.out.blobs, s.message, s.chance);
    DeliveryLeaves(cfg, w, s, x, tx);
    assert Runnable(w.db, s.message);
    var j := w.db.jobs[s.message.jobId];
    var part := WorkerPart(cfg, w.db, w.out.blobs, j, s.chance);
    AttemptEffectsAre(cfg, w.db, w.out.blobs, s.message, s.chance, part, tx);
    AttemptIndexes(cfg, w.db, w.out.blobs, j, s.chance, part);
    if part.effects != [] { assert part.effects[0].call in x.out.upserts; }
    CurrentIsIndexed(cfg, w, x, d);
  }

  lemma CurrentIsIndexed(cfg: Config, w: World, x: World, d: Uuid)
    requires Histories(w.db.docs, w.db.versions) && d in w.db.docs && w.db.docs[d].currentVersionId.Some?
    requires Grows(w.db, x.db) && BytesStay(w.out.blobs, x.out.blobs)
    requires var v := w.db.docs[d].currentVersionId.value;
             && v in w.db.versions && w.db.versions[v].storagePath in w.out.blobs
             && Submitted(cfg.lib, w.out.blobs[w.db.versions[v].storagePath], w.db.versions[v].mimeType, x.out.upserts, d, v)
    ensures exists v :: IndexedVersion(cfg, x, d, v)
  {
    var v := w.db.docs[d].currentVersionId.value;
    assert HistoryOf(w.db.docs, w.db.versions, d);
    assert IndexedVersion(cfg, x, d, v);
  }

  lemma StepKeepsIndexed(cfg: Config, w: World, s: Step)
    requires Good(cfg, w) && Wired(cfg) && Enabled(w, s) && AllIndexed(cfg, w)
    ensures AllIndexed(cfg, Next(cfg, w, s))
  {
    var x := Next(cfg, w, s);
    StepKeepsBytes(cfg, w, s);
    UpsertsGrow(cfg, w, s, x);
    forall d
      ensures IsIndexed(cfg, x, d)
    {
      if d in x.db.docs && x.db.docs[d].status == Processed {
        assert IsIndexed(cfg, w, d);
        if d in w.db.docs && w.db.docs[d].status == Processed {
          var v :| IndexedVersion(cfg, w, d, v);
          StaysIndexed(cfg, w, x, d, v);
        } else if s.Deliver? {
          DeliveryIndexes(cfg, w, s, x, d);
        } else {
          NextIs(cfg, w, s, Transaction(cfg, w, s));
          RequestProcessesNothing(cfg, w, s, d);
        }
      }
    }
  }

  /** In every reachable state each PROCESSED document has a version whose chunks, if any, were upserted. */
  lemma {:induction false} RunsKeepIndexed(cfg: Config, w: World, steps: seq<Step>)
    requires Good(cfg, w) && Wired(cfg) && Possible(cfg, w, steps) && AllIndexed(cfg, w)
    ensures AllIndexed(cfg, Run(cfg, w, steps)) && Good(cfg, Run(cfg, w, steps))
    decreases |steps|
  {
    if steps == [] {
    } else {
      StepKeepsIndexed(cfg, w, steps[0]);
      StepKeepsGood(cfg, w, steps[0]);
      RunsKeepIndexed(cfg, Next(cfg, w, steps[0]), steps[1..]);
    }
  }

  lemma EmptyIsIndexed(cfg: Config)
    ensures AllIndexed(cfg, EMPTY)
  {
  }

  /** PROCESSED means searchable: while a PROCESSED document has one version, the index holds exactly all its chunks. */
  lemma ProcessedIsSearchable(cfg: Config, steps: seq<Step>, d: Uuid, v: Uuid)
    requires Wired(cfg) && Possible(cfg, EMPTY, steps)
    requires var w := Run(cfg, EMPTY, steps);
             && d in w.db.docs && w.db.docs[d].status == Processed && OnlyVersion(w.db, d, v)
    ensures ShowsOnly(cfg, Run(cfg, EMPTY, steps), d, v)
  {
    var w := Run(cfg, EMPTY, steps);
    EmptyIsGood(cfg);
    EmptyIsIndexed(cfg);
    RunsKeepIndexed(cfg, EMPTY, steps);
    assert IsIndexed(cfg, w, d);
    var u :| IndexedVersion(cfg, w, d, u);
    OnlyVersionIndexed(cfg, w, d, u);
  }

  lemma OnlyVersionIndexed(cfg: Config, w: World, d: Uuid, v: Uuid)
    requires Good(cfg, w) && IndexedVersion(cfg, w, d, v) && OnlyVersion(w.db, d, v)
    ensures ShowsOnly(cfg, w, d, v)
  {
    if WasUpserted(w.out.upserts, d, v) {
      var k :| 0 <= k < |w.out.upserts| && w.out.upserts[k].documentId == d && w.out.upserts[k].versionId == v;
      UpsertedOnlyVersion(cfg, w, d, v, k);
    } else {
      SingleVersionIndex(cfg, w, d, v);
    }
  }

  /** The same with every value spelled out: the text of the bytes, its chunks, their vectors, and the entry of each. */
  lemma ProcessedHasEveryChunk(cfg: Config, steps: seq<Step>, d: Uuid, v: Uuid, text: string, vectors: seq<seq<real>>)
    requires Wired(cfg) && Possible(cfg, EMPTY, steps)
    requires var w := Run(cfg, EMPTY, steps);
             && d in w.db.docs && w.db.docs[d].status == Processed
             && v in w.db.versions && OnlyVersion(w.db, d, v) && w.db.versions[v].storagePath in w.out.blobs
             && cfg.lib.parse(w.out.blobs[w.db.versions[v].storagePath], w.db.versions[v].mimeType) == Some(text)
             && cfg.lib.embed(cfg.lib.split(text)) == Some(vectors)
    ensures var w := Run(cfg, EMPTY, steps);
            var chunks := cfg.lib.split(text);
            && (chunks != [] ==> |vectors| == |chunks|)
            && (forall i: nat :: ChunkName(d, i) in w.out.index <==> i < |chunks|)
            && forall i: nat | i < |chunks| ::
                 w.out.index[ChunkName(d, i)] ==
                   Point(ChunkName(d, i), vectors[i], w.db.docs[d].tenantId, d, i, chunks[i])
  {
    ProcessedIsSearchable(cfg, steps, d, v);
    var w := Run(cfg, EMPTY, steps);
    forall i: nat | i < |cfg.lib.split(text)|
      ensures ChunkName(d, i) in w.out.index
      ensures w.out.index[ChunkName(d, i)] ==
                Point(ChunkName(d, i), vectors[i], w.db.docs[d].tenantId, d, i, cfg.lib.split(text)[i])
    {
      assert ChunkName(d, i) in w.out.index;
    }
  }
}
