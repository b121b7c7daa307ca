/** app/domain/documents/storage_policy.py and the chunk ids of process_document.py: names built from identifiers. */
module Keys {
  import opened Prelude

  function JoinPath(parts: seq<string>): string
    requires parts != []
  {
    if |parts| == 1 then parts[0] else JoinPath(parts[..|parts| - 1]) + ['/'] + parts[|parts| - 1]
  }

  lemma JoinOneMore(parts: seq<string>, last: string)
    requires parts != []
    ensures JoinPath(parts + [last]) == JoinPath(parts) + ['/'] + last
  {
    assert (parts + [last])[..|parts|] == parts;
  }

  function FileName(versionId: Uuid, extension: string): string {
    versionId.text + ['.'] + Lower(StripDots(extension))
  }

  /** `build_document_version_key`. */
  function VersionKey(tenantId: string, documentId: Uuid, versionId: Uuid, extension: string, at: Instant): string {
    JoinPath(["documents", tenantId, Padded(at.year, 4), Padded(at.month, 2), documentId.text,
              FileName(versionId, extension)])
  }

  datatype KeyParts = KeyParts(
    root: string, year: int, month: int, documentId: string, versionId: string, extension: string)

  /** A slash, a version id and a dot stand at p: the start of a file name. */
  predicate MarkAt(s: string, p: int) {
    0 <= p && p + 38 <= |s| && s[p] == '/' && IsUuid(s[p + 1..p + 37]) && s[p + 37] == '.'
  }

  function LastMarkBelow(s: string, n: nat): (p: int)
    ensures -1 <= p < n && (p >= 0 ==> MarkAt(s, p))
    ensures forall q | p < q < n :: !MarkAt(s, q)
  {
    if n == 0 then -1 else if MarkAt(s, n - 1) then n - 1 else LastMarkBelow(s, n - 1)
  }

  /** Where the last file name of that form starts; -1 when there is none. */
  function LastMark(s: string): (p: int)
    ensures -1 <= p && (p >= 0 ==> MarkAt(s, p))
    ensures forall q | p < q :: !MarkAt(s, q)
  {
    LastMarkBelow(s, |s|)
  }

  /** The version a key belongs to, when it belongs to one. */
  function VersionIdIn(key: string): Option<Uuid> {
    var p := LastMark(key);
    if p < 0 then None else Some(Uuid(key[p + 1..p + 37]))
  }

  /** The folder read from its right end. */
  function FolderParts(folder: string, versionId: string, extension: string): KeyParts {
    var document := SplitLast(folder, '/');
    var month := SplitLast(document.before, '/');
    var year := SplitLast(month.before, '/');
    KeyParts(year.before, DecimalValue(year.after), DecimalValue(month.after), document.after, versionId, extension)
  }

  /** Reads a version key around its last file name. */
  function ParseVersionKey(key: string): Option<KeyParts> {
    var p := LastMark(key);
    if p < 0 then None else Some(FolderParts(key[..p], key[p + 1..p + 37], key[p + 38..]))
  }

  lemma LastMarkIs(s: string, p: int)
    requires MarkAt(s, p) && forall q | p < q :: !MarkAt(s, q)
    ensures LastMark(s) == p
  {
    assert !(LastMark(s) < p);
  }

  /** Without a dot there is no mark. */
  lemma NoDotNoMark(s: string)
    requires '.' !in s
    ensures LastMark(s) == -1
  {
    forall p
      ensures !MarkAt(s, p)
    {
      if 0 <= p && p + 38 <= |s| { assert s[p + 37] in s; }
    }
  }

  /** Marks of a key lie at its file name or inside the extension. */
  lemma MarksOfKey(folder: string, versionId: Uuid, ext: string, q: int)
    requires q >= 0
    ensures var key := folder + ['/'] + versionId.text + ['.'] + ext;
            && MarkAt(key, |folder|)
            && (0 < q < 38 ==> !MarkAt(key, |folder| + q))
            && (q >= 38 ==> (MarkAt(key, |folder| + q) <==> MarkAt(ext, q - 38)))
  {
    var key := folder + ['/'] + versionId.text + ['.'] + ext;
    var f := |folder|;
    assert key[f] == '/' && key[f + 37] == '.' && key[f + 1..f + 37] == versionId.text;
    if 0 < q < 37 {
      UuidHasNo(versionId, '/');
      assert key[f + q] == versionId.text[q - 1];
    }
    if q >= 38 && f + q + 38 <= |key| {
      assert key[f + q..f + q + 38] == ext[q - 38..q];
      assert key[f + q] == key[f + q..f + q + 38][0] && key[f + q + 37] == key[f + q..f + q + 38][37];
      assert key[f + q + 1..f + q + 37] == key[f + q..f + q + 38][1..37];
      assert ext[q - 38 + 1..q - 38 + 37] == ext[q - 38..q][1..37];
    }
  }

  lemma LastMarkOfKey(folder: string, versionId: Uuid, ext: string)
    ensures var key := folder + ['/'] + versionId.text + ['.'] + ext;
            LastMark(key) == if LastMark(ext) < 0 then |folder| else |folder| + 38 + LastMark(ext)
  {
    var key := folder + ['/'] + versionId.text + ['.'] + ext;
    var f, p := |folder|, if LastMark(ext) < 0 then |folder| else |folder| + 38 + LastMark(ext);
    MarksOfKey(folder, versionId, ext, p - f);
    forall q | p < q
      ensures !MarkAt(key, q)
    {
      MarksOfKey(folder, versionId, ext, q - f);
    }
    LastMarkIs(key, p);
  }

  /** The key as one join: everything before the file name, a slash, the file name. */
  lemma VersionKeyIs(tenantId: string, documentId: Uuid, versionId: Uuid, extension: string, at: Instant)
    ensures var root := "documents/" + tenantId;
            var folder := root + ['/'] + Padded(at.year, 4) + ['/'] + Padded(at.month, 2) + ['/'] + documentId.text;
            VersionKey(tenantId, documentId, versionId, extension, at) == folder + ['/'] + FileName(versionId, extension)
  {
    var year, month := Padded(at.year, 4), Padded(at.month, 2);
    var root := ["documents", tenantId];
    assert JoinPath(root) == "documents/" + tenantId by {
      JoinOneMore(["documents"], tenantId);
      assert root == ["documents"] + [tenantId] && "documents" + ['/'] == "documents/";
    }
    JoinOneMore(root, year);
    JoinOneMore(root + [year], month);
    JoinOneMore(root + [year] + [month], documentId.text);
    var folder := root + [year] + [month] + [documentId.text];
    JoinOneMore(folder, FileName(versionId, extension));
    assert ["documents", tenantId, year, month, documentId.text, FileName(versionId, extension)]
        == folder + [FileName(versionId, extension)];
  }

  /** The pieces around the last file name, when the extension holds no file name of its own. */
  lemma CutAtFile(folder: string, versionId: Uuid, ext: string)
    ensures var key := folder + ['/'] + versionId.text + ['.'] + ext;
            key[..|folder|] == folder && key[|folder| + 1..|folder| + 37] == versionId.text && key[|folder| + 38..] == ext
  {
  }

  /** The folder, taken apart from the right. */
  lemma FolderOfKey(root: string, year: string, month: string, documentId: Uuid)
    requires '/' !in year && '/' !in month
    ensures var toYear := root + ['/'] + year;
            var toMonth := toYear + ['/'] + month;
            && SplitLast(toMonth + ['/'] + documentId.text, '/') == Halves(toMonth, documentId.text)
            && SplitLast(toMonth, '/') == Halves(toYear, month)
            && SplitLast(toYear, '/') == Halves(root, year)
  {
    UuidHasNo(documentId, '/');
    SplitLastUndoesJoin(root + ['/'] + year + ['/'] + month, '/', documentId.text);
    SplitLastUndoesJoin(root + ['/'] + year, '/', month);
    SplitLastUndoesJoin(root, '/', year);
  }

  lemma FolderPartsAre(root: string, year: string, month: string, documentId: Uuid, versionId: string, ext: string)
    requires '/' !in year && '/' !in month
    ensures FolderParts(root + ['/'] + year + ['/'] + month + ['/'] + documentId.text, versionId, ext)
         == KeyParts(root, DecimalValue(year), DecimalValue(month), documentId.text, versionId, ext)
  {
    FolderOfKey(root, year, month, documentId);
  }

  /** What is read back from a folder and a file name, and that it is the extension only without a mark inside. */
  lemma ParseAroundFile(folder: string, versionId: Uuid, ext: string)
    ensures var parsed := ParseVersionKey(folder + ['/'] + versionId.text + ['.'] + ext);
            && parsed.Some?
            && (LastMark(ext) < 0 ==> parsed == Some(FolderParts(folder, versionId.text, ext)))
            && (LastMark(ext) >= 0 ==> parsed.value.extension != ext)
  {
    var key := folder + ['/'] + versionId.text + ['.'] + ext;
    LastMarkOfKey(folder, versionId, ext);
    if LastMark(ext) < 0 {
      CutAtFile(folder, versionId, ext);
    } else {
      assert |key[LastMark(key) + 38..]| < |ext|;
    }
  }

  /** The parts come back exactly when the extension holds no file name of its own. */
  lemma ParseParts(root: string, year: string, month: string, documentId: Uuid, versionId: Uuid, ext: string)
    requires '/' !in year && '/' !in month
    ensures ParseVersionKey(root + ['/'] + year + ['/'] + month + ['/'] + documentId.text + ['/'] + versionId.text
                            + ['.'] + ext)
         == Some(KeyParts(root, DecimalValue(year), DecimalValue(month), documentId.text, versionId.text, ext))
       <==> LastMark(ext) < 0
  {
    ParseAroundFile(root + ['/'] + year + ['/'] + month + ['/'] + documentId.text, versionId, ext);
    FolderPartsAre(root, year, month, documentId, versionId.text, ext);
  }

  lemma Reassociate(folder: string, name: string, ext: string)
    ensures folder + ['/'] + (name + ['.'] + ext) == folder + ['/'] + name + ['.'] + ext
  {
  }

  /** The key as the concatenation that `ParseParts` takes apart. */
  lemma VersionKeyForm(tenantId: string, documentId: Uuid, versionId: Uuid, extension: string, at: Instant)
    ensures VersionKey(tenantId, documentId, versionId, extension, at)
         == "documents/" + tenantId + ['/'] + Padded(at.year, 4) + ['/'] + Padded(at.month, 2) + ['/'] + documentId.text
            + ['/'] + versionId.text + ['.'] + Lower(StripDots(extension))
  {
    VersionKeyIs(tenantId, documentId, versionId, extension, at);
    Reassociate("documents/" + tenantId + ['/'] + Padded(at.year, 4) + ['/'] + Padded(at.month, 2) + ['/']
                + documentId.text, versionId.text, Lower(StripDots(extension)));
  }

  lemma PaddedHasNoSlash(n: nat, width: nat)
    ensures '/' !in Padded(n, width)
  {
  }

  /**
   * The documented promise that keys are reconstructable holds, for every tenant, exactly when the extension does not
   * itself contain a slash, a version id and a dot.
   */
  lemma VersionKeyRoundTrip(tenantId: string, documentId: Uuid, versionId: Uuid, extension: string, at: Instant)
    ensures ParseVersionKey(VersionKey(tenantId, documentId, versionId, extension, at))
         == Some(KeyParts("documents/" + tenantId, at.year, at.month, documentId.text, versionId.text,
                          Lower(StripDots(extension))))
       <==> LastMark(Lower(StripDots(extension))) < 0
  {
    VersionKeyForm(tenantId, documentId, versionId, extension, at);
    PaddedHasNoSlash(at.year, 4);
    PaddedHasNoSlash(at.month, 2);
    ParseParts("documents/" + tenantId, Padded(at.year, 4), Padded(at.month, 2), documentId, versionId,
               Lower(StripDots(extension)));
    PaddedRoundTrip(at.year, 4);
    PaddedRoundTrip(at.month, 2);
  }

  lemma IdInKey(folder: string, versionId: Uuid, ext: string)
    ensures VersionIdIn(folder + ['/'] + versionId.text + ['.'] + ext)
         == if LastMark(ext) < 0 then Some(versionId) else VersionIdIn(ext)
  {
    var key := folder + ['/'] + versionId.text + ['.'] + ext;
    LastMarkOfKey(folder, versionId, ext);
    var p := LastMark(ext);
    if p < 0 {
      CutAtFile(folder, versionId, ext);
    } else {
      assert key[|folder| + 38..] == ext;
      assert key[|folder| + 38 + p + 1..|folder| + 38 + p + 37] == ext[p + 1..p + 37];
    }
  }

  /** The version a key names, for every extension. */
  lemma VersionKeyNames(tenantId: string, documentId: Uuid, versionId: Uuid, extension: string, at: Instant)
    ensures VersionIdIn(VersionKey(tenantId, documentId, versionId, extension, at))
         == if LastMark(Lower(StripDots(extension))) < 0 then Some(versionId)
            else VersionIdIn(Lower(StripDots(extension)))
  {
    VersionKeyForm(tenantId, documentId, versionId, extension, at);
    IdInKey("documents/" + tenantId + ['/'] + Padded(at.year, 4) + ['/'] + Padded(at.month, 2) + ['/'] + documentId.text,
            versionId, Lower(StripDots(extension)));
  }

  /** Every extension an upload can have is one that names its own version. */
  lemma AcceptedKeyNames(tenantId: string, documentId: Uuid, versionId: Uuid, extension: string, at: Instant)
    requires '.' !in extension
    ensures VersionIdIn(VersionKey(tenantId, documentId, versionId, extension, at)) == Some(versionId)
  {
    NoDotsToStrip(extension);
    NoDotNoMark(Lower(StripDots(extension)));
    VersionKeyNames(tenantId, documentId, versionId, extension, at);
  }

  lemma NoDotsToStrip(extension: string)
    requires '.' !in extension
    ensures StripDots(extension) == extension && '.' !in Lower(extension)
  {
    forall i | 0 <= i < |extension|
      ensures Lower(extension)[i] != '.'
    {
      assert extension[i] in extension;
    }
  }

  lemma HexIsLower(c: char)
    requires c in HEX
    ensures LowerChar(c) == c
  {
    assert forall i | 0 <= i < |HEX| :: !('A' <= HEX[i] <= 'Z');
  }

  lemma UuidIsLower(u: Uuid)
    ensures Lower(u.text) == u.text
  {
    forall i | 0 <= i < 36
      ensures LowerChar(u.text[i]) == u.text[i]
    {
      HexIsLower(u.text[i]);
    }
  }

  /** An extension with a file name inside makes the key name that file's version instead. */
  lemma MarkedExtensionMisnames(tenantId: string, documentId: Uuid, versionId: Uuid, other: Uuid, at: Instant)
    ensures VersionIdIn(VersionKey(tenantId, documentId, versionId, "a" + ['/'] + other.text + ['.'] + "pdf", at))
         == Some(other)
  {
    var ext := "a" + ['/'] + other.text + ['.'] + "pdf";
    UuidIsLower(other);
    assert StripDots(ext) == ext && Lower(ext) == ext by {
      assert ext[0] == 'a';
      forall i | 0 <= i < |ext|
        ensures LowerChar(ext[i]) == ext[i]
      {
        if 2 <= i < 38 { assert ext[i] == other.text[i - 2] && Lower(other.text)[i - 2] == other.text[i - 2]; }
      }
    }
    LastMarkOfKey("a", other, "pdf");
    NoDotNoMark("pdf");
    IdInKey("a", other, "pdf");
    VersionKeyNames(tenantId, documentId, versionId, ext, at);
  }

  /** The name hashed by `_chunk_vector_id`; uuid5 is taken to be injective, so the name stands for the id. */
  function ChunkName(documentId: Uuid, index: nat): string {
    "knowledge-chunk:" + documentId.text + ":" + Decimal(index)
  }

  /** Distinct (document, chunk index) pairs have distinct point ids. */
  lemma ChunkNameInjective(d1: Uuid, i1: nat, d2: Uuid, i2: nat)
    requires ChunkName(d1, i1) == ChunkName(d2, i2)
    ensures d1 == d2 && i1 == i2
  {
    var p1, p2 := "knowledge-chunk:" + d1.text, "knowledge-chunk:" + d2.text;
    assert ChunkName(d1, i1) == p1 + [':'] + Decimal(i1);
    assert ChunkName(d2, i2) == p2 + [':'] + Decimal(i2);
    SplitLastUndoesJoin(p1, ':', Decimal(i1));
    SplitLastUndoesJoin(p2, ':', Decimal(i2));
    assert d1.text == p1[16..] && d2.text == p2[16..];
    DecimalRoundTrip(i1);
    DecimalRoundTrip(i2);
  }
}
