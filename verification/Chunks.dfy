/** What indexing a document means, said without the pipeline: which points a call carries and which the index shows. */
module Chunks {
  import opened Prelude
  import opened Keys
  import opened Store
  import opened UseCases

  /** The bytes parse, and their chunks, if there are any, get one vector each. */
  predicate Indexable(lib: Libraries, content: Bytes, mimeType: string) {
    && lib.parse(content, mimeType).Some?
    && var chunks := lib.split(lib.parse(content, mimeType).value);
       chunks == [] || (lib.embed(chunks).Some? && |lib.embed(chunks).value| == |chunks|)
  }

  /** One point for every chunk of the text of these bytes: its id, vector, tenant, document, position and text. */
  predicate Carries(lib: Libraries, tenantId: string, d: Uuid, content: Bytes, mimeType: string, points: seq<Point>) {
    && Indexable(lib, content, mimeType)
    && var chunks := lib.split(lib.parse(content, mimeType).value);
       && |points| == |chunks|
       && forall i | 0 <= i < |points| ::
            points[i] == Point(ChunkName(d, i), lib.embed(chunks).value[i], tenantId, d, i, chunks[i])
  }

  /** The entry for chunk i of a document, made from these bytes. */
  predicate ShowsChunk(lib: Libraries, index: map<string, Point>, tenantId: string, d: Uuid, content: Bytes,
                       mimeType: string, i: nat)
  {
    && Indexable(lib, content, mimeType)
    && var chunks := lib.split(lib.parse(content, mimeType).value);
       && i < |chunks| && ChunkName(d, i) in index
       && index[ChunkName(d, i)] == Point(ChunkName(d, i), lib.embed(chunks).value[i], tenantId, d, i, chunks[i])
  }

  /** Under the chunk ids of a document the index holds the chunks of these bytes, each of them and nothing else. */
  ghost predicate ShowsExactly(lib: Libraries, index: map<string, Point>, tenantId: string, d: Uuid, content: Bytes,
                               mimeType: string)
  {
    && Indexable(lib, content, mimeType)
    && forall i: nat ::
         && (ChunkName(d, i) in index <==> i < |lib.split(lib.parse(content, mimeType).value)|)
         && (ChunkName(d, i) in index ==> ShowsChunk(lib, index, tenantId, d, content, mimeType, i))
  }

  /** The pipeline makes points exactly of indexable bytes, and then one for every chunk. */
  lemma PointsCarryEveryChunk(lib: Libraries, tenantId: string, d: Uuid, content: Bytes, mimeType: string)
    ensures PointsOf(lib, tenantId, d, content, mimeType).Success? <==> Indexable(lib, content, mimeType)
    ensures forall points :: PointsOf(lib, tenantId, d, content, mimeType) == Success(points)
                             <==> Carries(lib, tenantId, d, content, mimeType, points)
  {
    if Indexable(lib, content, mimeType) {
      var made := PointsOf(lib, tenantId, d, content, mimeType).value;
      forall points | Carries(lib, tenantId, d, content, mimeType, points)
        ensures points == made
      {
        assert forall i | 0 <= i < |points| :: points[i] == made[i];
      }
    }
  }
}
