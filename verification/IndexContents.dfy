/** What the vector index holds after any history of processing attempts, retried, rolled back or cut short. */
module IndexContents {
  import opened Prelude
  import opened Keys
  import opened Store
  import opened UseCases
  import opened Chunks
  import opened Executor
  import opened Invariants

  /** The points of one call carry the chunk ids of its document, in order. */
  predicate Identified(call: UpsertCall) {
    forall i | 0 <= i < |call.points| :: call.points[i].id == ChunkName(call.documentId, i)
  }

  /** Index of the last call that wrote chunk i of document d; -1 when none did. */
  function LastWriter(calls: seq<UpsertCall>, d: Uuid, i: nat): (k: int)
    ensures -1 <= k < |calls|
    ensures k >= 0 ==> calls[k].documentId == d && i < |calls[k].points|
    ensures forall h | k < h < |calls| :: calls[h].documentId != d || |calls[h].points| <= i
  {
    if calls == [] then -1
    else if calls[|calls| - 1].documentId == d && i < |calls[|calls| - 1].points| then |calls| - 1
    else LastWriter(calls[..|calls| - 1], d, i)
  }

  /** One upsert overwrites exactly the ids of its own points. */
  lemma {:induction false} UpsertedAt(index: map<string, Point>, d: Uuid, points: seq<Point>, e: Uuid, i: nat)
    requires forall k | 0 <= k < |points| :: points[k].id == ChunkName(d, k)
    ensures e == d && i < |points| ==>
              ChunkName(e, i) in Upserted(index, points) && Upserted(index, points)[ChunkName(e, i)] == points[i]
    ensures !(e == d && i < |points|) ==>
              (ChunkName(e, i) in Upserted(index, points) <==> ChunkName(e, i) in index)
              && (ChunkName(e, i) in index ==> Upserted(index, points)[ChunkName(e, i)] == index[ChunkName(e, i)])
    decreases |points|
  {
    if points == [] {
    } else {
      var n := |points| - 1;
      UpsertedAt(index, d, points[..n], e, i);
      if ChunkName(e, i) == ChunkName(d, n) {
        ChunkNameInjective(e, i, d, n);
      }
    }
  }

  /** For every document and chunk number, the replayed index holds the last writer's point, and only then any. */
  lemma {:induction false} ReplayAt(calls: seq<UpsertCall>, d: Uuid, i: nat)
    requires forall k | 0 <= k < |calls| :: Identified(calls[k])
    ensures ChunkName(d, i) in Replay(calls) <==> LastWriter(calls, d, i) >= 0
    ensures LastWriter(calls, d, i) >= 0 ==> Replay(calls)[ChunkName(d, i)] == calls[LastWriter(calls, d, i)].points[i]
    decreases |calls|
  {
    if calls == [] {
    } else {
      var n := |calls| - 1;
      ReplayAt(calls[..n], d, i);
      assert Identified(calls[n]);
      UpsertedAt(Replay(calls[..n]), calls[n].documentId, calls[n].points, d, i);
    }
  }

  predicate IsChunkName(key: string, p: Point) {
    key == p.id && p.id == ChunkName(p.documentId, p.chunkIndex)
  }

  lemma {:induction false} UpsertedKeys(index: map<string, Point>, points: seq<Point>)
    requires forall key | key in index :: IsChunkName(key, index[key])
    requires forall k | 0 <= k < |points| :: IsChunkName(points[k].id, points[k])
    ensures forall key | key in Upserted(index, points) :: IsChunkName(key, Upserted(index, points)[key])
    decreases |points|
  {
    if points == [] {
    } else {
      UpsertedKeys(index, points[..|points| - 1]);
    }
  }

  /** Every entry sits under the chunk id of the document and chunk number in its own payload. */
  lemma {:induction false} ReplayKeys(calls: seq<UpsertCall>)
    requires forall k, i | 0 <= k < |calls| && 0 <= i < |calls[k].points| :: IsChunkName(calls[k].points[i].id, calls[k].points[i])
    ensures forall key | key in Replay(calls) :: IsChunkName(key, Replay(calls)[key])
    decreases |calls|
  {
    if calls == [] {
    } else {
      ReplayKeys(calls[..|calls| - 1]);
      UpsertedKeys(Replay(calls[..|calls| - 1]), calls[|calls| - 1].points);
    }
  }

  lemma FaithfulCallsAreIdentified(lib: Libraries, db: Tables, blobs: map<string, Bytes>, call: UpsertCall)
    requires FaithfulCall(lib, db, blobs, call)
    ensures Identified(call)
    ensures forall i | 0 <= i < |call.points| ::
              IsChunkName(call.points[i].id, call.points[i]) && call.points[i].documentId == call.documentId
  {
  }

  lemma AllIdentified(cfg: Config, w: World)
    requires Good(cfg, w)
    ensures forall k | 0 <= k < |w.out.upserts| :: Identified(w.out.upserts[k])
    ensures forall k, i | 0 <= k < |w.out.upserts| && 0 <= i < |w.out.upserts[k].points| ::
              IsChunkName(w.out.upserts[k].points[i].id, w.out.upserts[k].points[i])
  {
    forall k | 0 <= k < |w.out.upserts|
      ensures Identified(w.out.upserts[k])
      ensures forall i | 0 <= i < |w.out.upserts[k].points| ::
                IsChunkName(w.out.upserts[k].points[i].id, w.out.upserts[k].points[i])
    {
      assert CallOk(cfg.lib, w.db, w.out, k);
      FaithfulCallsAreIdentified(cfg.lib, w.db, w.out.blobs, w.out.upserts[k]);
    }
  }

  /** The index entry for chunk i of document d is chunk i of the bytes stored now for version v. */
  predicate ShowsVersion(cfg: Config, w: World, d: Uuid, v: Uuid, i: nat) {
    && d in w.db.docs && v in w.db.versions && w.db.versions[v].documentId == d
    && w.db.versions[v].storagePath in w.out.blobs
    && ShowsChunk(cfg.lib, w.out.index, w.db.docs[d].tenantId, d, w.out.blobs[w.db.versions[v].storagePath],
                  w.db.versions[v].mimeType, i)
  }

  /** The chunks of a version's stored bytes are what the index holds for the document, all of them and no other. */
  ghost predicate ShowsOnly(cfg: Config, w: World, d: Uuid, v: Uuid) {
    && d in w.db.docs && v in w.db.versions && w.db.versions[v].storagePath in w.out.blobs
    && ShowsExactly(cfg.lib, w.out.index, w.db.docs[d].tenantId, d, w.out.blobs[w.db.versions[v].storagePath],
                    w.db.versions[v].mimeType)
  }

  /**
   * In every good state the entry for (document, i) is chunk i of the most recently upserted version that has more
   * than i chunks, recomputed from the bytes stored now; without such a version there is no entry.
   */
  lemma EntryIsLatestUpsert(cfg: Config, w: World, d: Uuid, i: nat)
    requires Good(cfg, w)
    ensures var k := LastWriter(w.out.upserts, d, i);
            if k < 0 then ChunkName(d, i) !in w.out.index
            else w.out.upserts[k].documentId == d && ShowsVersion(cfg, w, d, w.out.upserts[k].versionId, i)
  {
    AllIdentified(cfg, w);
    ReplayAt(w.out.upserts, d, i);
    var k := LastWriter(w.out.upserts, d, i);
    if k >= 0 {
      assert CallOk(cfg.lib, w.db, w.out, k);
    }
  }

  /** A document's entries are only those under its own chunk ids. */
  lemma NoOtherEntries(cfg: Config, w: World, key: string)
    requires Good(cfg, w) && key in w.out.index
    ensures key == ChunkName(w.out.index[key].documentId, w.out.index[key].chunkIndex)
  {
    AllIdentified(cfg, w);
    ReplayKeys(w.out.upserts);
  }

  /** Each chunk of a version that was upserted has an entry. */
  lemma UpsertedHasEntry(cfg: Config, w: World, d: Uuid, v: Uuid, k: nat, i: nat)
    requires Good(cfg, w) && k < |w.out.upserts| && w.out.upserts[k].documentId == d && w.out.upserts[k].versionId == v
    ensures FaithfulCall(cfg.lib, w.db, w.out.blobs, w.out.upserts[k])
    ensures i < |w.out.upserts[k].points| ==> ChunkName(d, i) in w.out.index
  {
    assert CallOk(cfg.lib, w.db, w.out, k);
    EntryIsLatestUpsert(cfg, w, d, i);
    if i < |w.out.upserts[k].points| { assert LastWriter(w.out.upserts, d, i) >= k; }
  }

  ghost predicate OnlyVersion(db: Tables, d: Uuid, v: Uuid) {
    forall u | u in db.versions && db.versions[u].documentId == d :: u == v
  }

  /** Once a document's only version has been upserted, the index holds exactly that version's chunks. */
  lemma UpsertedOnlyVersion(cfg: Config, w: World, d: Uuid, v: Uuid, k: nat)
    requires Good(cfg, w) && OnlyVersion(w.db, d, v)
    requires k < |w.out.upserts| && w.out.upserts[k].documentId == d
    ensures ShowsOnly(cfg, w, d, v)
  {
    assert CallOk(cfg.lib, w.db, w.out, k);
    forall i: nat
      ensures ChunkName(d, i) in w.out.index <==> i < |w.out.upserts[k].points|
      ensures ChunkName(d, i) in w.out.index ==> ShowsVersion(cfg, w, d, v, i)
    {
      UpsertedHasEntry(cfg, w, d, v, k, i);
      EntryIsLatestUpsert(cfg, w, d, i);
    }
  }

  /** While a document has a single version, its part of the index is empty or exactly that version's chunks. */
  lemma SingleVersionIndex(cfg: Config, w: World, d: Uuid, v: Uuid)
    requires Good(cfg, w) && OnlyVersion(w.db, d, v)
    ensures (forall i: nat :: ChunkName(d, i) !in w.out.index) || ShowsOnly(cfg, w, d, v)
  {
    if i: nat :| ChunkName(d, i) in w.out.index {
      EntryIsLatestUpsert(cfg, w, d, i);
      UpsertedOnlyVersion(cfg, w, d, v, LastWriter(w.out.upserts, d, i));
    }
  }
}
