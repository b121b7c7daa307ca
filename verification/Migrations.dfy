/**
 * Alembic revisions b7f2c9a4d1e8 (documents split into identity and versions) and c3d9e1f42a76 (typed metadata and
 * source types): in-place table changes with inverses.
 */
module Migrations {
  import opened Prelude
  import opened SourceTypes
  import S = Store
  import I = Invariants
  import U = UseCases

  // ---- tables ------------------------------------------------------------

  datatype Json =
    | JNull | JBool(flag: bool) | JNumber(number: real) | JString(text: string)
    | JArray(items: seq<Json>) | JObject(fields: map<string, Json>)

  /** A group of columns: not in the table, added but still NULL, or filled. */
  datatype Columns<T> = Absent | AllNull | Filled(values: T)

  datatype Physical = Physical(
    originalFilename: string, filename: string, extension: string, mimeType: string, size: int, checksum: string,
    storageProvider: string, storagePath: string, pageCount: Option<int>, uploadedBy: Option<string>,
    collectionId: Option<Uuid>)

  datatype Identity = Identity(
    title: string, sourceType: string, currentVersionId: Option<Uuid>, createdBy: Option<string>,
    knowledgeSpaceId: Option<Uuid>)

  datatype DocumentRow = DocumentRow(
    tenantId: string, status: string, metadata: Json, deletedAt: Option<Instant>,
    physical: Columns<Physical>, identity: Columns<Identity>)

  datatype VersionRow = VersionRow(
    documentId: Uuid, number: int, originalFilename: string, filename: string, extension: string, mimeType: string,
    size: int, checksum: string, storageProvider: string, storagePath: string, pageCount: Option<int>,
    metadata: Json, uploadedBy: Option<string>)

  type Documents = map<Uuid, DocumentRow>
  type Versions = map<Uuid, VersionRow>

  /** The schema of revision 098482a100da: physical columns, all of them filled, and no identity columns. */
  predicate Legacy(docs: Documents) {
    forall d | d in docs :: docs[d].physical.Filled? && docs[d].identity.Absent?
  }

  /** The schema after b7f2c9a4d1e8. */
  predicate Split(docs: Documents) {
    forall d | d in docs :: docs[d].physical.Absent? && docs[d].identity.Filled?
  }

  /** `gen_random_uuid()`, once per document. */
  predicate FreshIds(ids: map<Uuid, Uuid>, docs: Documents) {
    ids.Keys == docs.Keys && forall c, d | c in ids && d in ids && ids[c] == ids[d] :: c == d
  }

  // ---- what each revision does to one row --------------------------------

  function FirstVersion(d: Uuid, row: DocumentRow): VersionRow
    requires row.physical.Filled?
  {
    var p := row.physical.values;
    VersionRow(d, 1, p.originalFilename, p.filename, p.extension, p.mimeType, p.size, p.checksum, p.storageProvider,
               p.storagePath, p.pageCount, row.metadata, p.uploadedBy)
  }

  function Wired(row: DocumentRow, version: Uuid): DocumentRow
    requires row.physical.Filled?
  {
    var p := row.physical.values;
    row.(identity := Filled(Identity(p.originalFilename, "file_upload", Some(version), p.uploadedBy, p.collectionId)))
  }

  function SplitRow(row: DocumentRow, version: Uuid): DocumentRow
    requires row.physical.Filled?
  {
    Wired(row, version).(physical := Absent)
  }

  /** The physical columns of the current version, back on the document. */
  function Refilled(row: DocumentRow, versions: Versions): DocumentRow
    requires row.identity.Filled?
  {
    var i := row.identity.values;
    if i.currentVersionId.None? || i.currentVersionId.value !in versions then row.(physical := AllNull)
    else
      var v := versions[i.currentVersionId.value];
      row.(physical := Filled(Physical(v.originalFilename, v.filename, v.extension, v.mimeType, v.size, v.checksum,
                                       v.storageProvider, v.storagePath, v.pageCount, v.uploadedBy, i.knowledgeSpaceId)))
  }

  function MergedRow(row: DocumentRow, versions: Versions): DocumentRow
    requires row.identity.Filled?
  {
    Refilled(row, versions).(identity := Absent)
  }

  /** The WHEN branches of the remapping; no value stands in two of them. */
  const SQL_CASES: map<string, string> := map[
    "pdf" := "pdf", "doc" := "word", "docx" := "word", "rtf" := "word",
    "xls" := "excel", "xlsx" := "excel", "csv" := "excel", "ppt" := "powerpoint", "pptx" := "powerpoint",
    "md" := "markdown", "markdown" := "markdown", "txt" := "text", "html" := "html", "htm" := "html",
    "png" := "image", "jpg" := "image", "jpeg" := "image", "gif" := "image", "webp" := "image", "tiff" := "image",
    "eml" := "email", "msg" := "email"]

  /** `CASE lower(v.extension) ... ELSE 'text' END`. */
  function SqlCase(extension: string): string {
    if Lower(extension) in SQL_CASES then SQL_CASES[Lower(extension)] else "text"
  }

  /** First the CASE over the current version, then the default for what is left on the legacy value. */
  function RemappedSource(i: Identity, versions: Versions): string {
    var first := if i.currentVersionId.Some? && i.currentVersionId.value in versions
                 then SqlCase(versions[i.currentVersionId.value].extension) else i.sourceType;
    if first == "file_upload" then "text" else first
  }

  /** The skeleton of `KnowledgeMetadata` around the free-form value. */
  function Wrap(metadata: Json): Json {
    JObject(map[
      "language" := JNull, "author" := JNull, "organization" := JNull, "department" := JNull, "category" := JNull,
      "tags" := JArray([]), "keywords" := JArray([]), "security_level" := JNull, "retention_policy" := JNull,
      "created_by_application" := JNull, "document_created_at" := JNull, "document_modified_at" := JNull,
      "custom_properties" := metadata])
  }

  /** `COALESCE(metadata -> 'custom_properties', '{}')`: a JSON null is a value, only a missing key is not. */
  function Unwrap(metadata: Json): Json {
    if metadata.JObject? && "custom_properties" in metadata.fields then metadata.fields["custom_properties"]
    else JObject(map[])
  }

  function TypedRow(row: DocumentRow, versions: Versions): DocumentRow
    requires row.identity.Filled?
  {
    var i := row.identity.values;
    row.(identity := Filled(i.(sourceType := RemappedSource(i, versions))), metadata := Wrap(row.metadata))
  }

  function UntypedRow(row: DocumentRow): DocumentRow
    requires row.identity.Filled?
  {
    row.(identity := Filled(row.identity.values.(sourceType := "file_upload")), metadata := Unwrap(row.metadata))
  }

  function CaseRow(row: DocumentRow, versions: Versions): (r: DocumentRow)
    requires row.identity.Filled?
    ensures r.identity.Filled?
  {
    var i := row.identity.values;
    if i.currentVersionId.None? || i.currentVersionId.value !in versions then row
    else row.(identity := Filled(i.(sourceType := SqlCase(versions[i.currentVersionId.value].extension))))
  }

  function DefaultRow(row: DocumentRow): (r: DocumentRow)
    requires row.identity.Filled?
    ensures r.identity.Filled?
  {
    var i := row.identity.values;
    if i.sourceType == "file_upload" then row.(identity := Filled(i.(sourceType := "text"))) else row
  }

  function Reshaped(row: DocumentRow): DocumentRow {
    row.(metadata := Wrap(row.metadata))
  }

  // ---- whole tables ------------------------------------------------------

  function SplitDocuments(docs: Documents, ids: map<Uuid, Uuid>): Documents
    requires Legacy(docs) && FreshIds(ids, docs)
  {
    map d | d in docs :: SplitRow(docs[d], ids[d])
  }

  /** Every drawn id holds the first version of the one document it was drawn for. */
  predicate FirstVersions(docs: Documents, ids: map<Uuid, Uuid>, versions: Versions)
    requires Legacy(docs) && FreshIds(ids, docs)
  {
    && versions.Keys == ids.Values
    && forall d | d in docs :: ids[d] in versions && versions[ids[d]] == FirstVersion(d, docs[d])
  }

  function MergedDocuments(docs: Documents, versions: Versions): Documents
    requires Split(docs)
  {
    map d | d in docs :: MergedRow(docs[d], versions)
  }

  function TypedDocuments(docs: Documents, versions: Versions): Documents
    requires Split(docs)
  {
    map d | d in docs :: TypedRow(docs[d], versions)
  }

  function UntypedDocuments(docs: Documents): Documents
    requires Split(docs)
  {
    map d | d in docs :: UntypedRow(docs[d])
  }

  /** The rows of all documents but those still left are inserted. */
  ghost predicate Inserted(docs: Documents, ids: map<Uuid, Uuid>, left: set<Uuid>, versions: Versions)
    requires ids.Keys == docs.Keys
  {
    && (forall v | v in versions :: v in ids.Values)
    && forall d | d in docs && d !in left ::
         docs[d].physical.Filled? && ids[d] in versions && versions[ids[d]] == FirstVersion(d, docs[d])
  }

  lemma InsertOne(docs: Documents, ids: map<Uuid, Uuid>, left: set<Uuid>, versions: Versions, d: Uuid)
    requires FreshIds(ids, docs) && Inserted(docs, ids, left, versions) && d in left && d in docs && docs[d].physical.Filled?
    ensures Inserted(docs, ids, left - {d}, versions[ids[d] := FirstVersion(d, docs[d])])
  {
    var row := FirstVersion(d, docs[d]);
    var after := versions[ids[d] := row];
    forall e | e in docs && e !in left - {d}
      ensures docs[e].physical.Filled? && ids[e] in after && after[ids[e]] == FirstVersion(e, docs[e])
    {
      if e != d { assert ids[e] != ids[d]; }
    }
  }

  /** Every version row belongs to the document its id was drawn for. */
  ghost predicate Owned(ids: map<Uuid, Uuid>, versions: Versions) {
    forall v | v in versions :: versions[v].documentId in ids && ids[versions[v].documentId] == v
  }

  lemma AllInserted(docs: Documents, ids: map<Uuid, Uuid>, versions: Versions)
    requires ids.Keys == docs.Keys && Inserted(docs, ids, {}, versions)
    ensures versions.Keys == ids.Values && Owned(ids, versions)
  {
    forall v | v in ids.Values
      ensures v in versions && versions[v].documentId in ids && ids[versions[v].documentId] == v
    {
      var d :| d in ids && ids[d] == v;
    }
  }

  ghost predicate WiredAt(before: Documents, ids: map<Uuid, Uuid>, left: set<Uuid>, docs: Documents, d: Uuid)
    requires ids.Keys == before.Keys == docs.Keys
  {
    d in before ==>
      before[d].physical.Filled? && docs[d] == if ids[d] in left then before[d] else Wired(before[d], ids[d])
  }

  /** Documents are wired to their version, except those whose version is still left. */
  ghost predicate AllWired(before: Documents, ids: map<Uuid, Uuid>, left: set<Uuid>, docs: Documents)
    requires ids.Keys == before.Keys == docs.Keys
  {
    forall d {:trigger WiredAt(before, ids, left, docs, d)} :: WiredAt(before, ids, left, docs, d)
  }

  lemma NothingWired(docs: Documents, ids: map<Uuid, Uuid>)
    requires ids.Keys == docs.Keys && forall d | d in docs :: docs[d].physical.Filled?
    ensures AllWired(docs, ids, ids.Values, docs)
  {
  }

  lemma WireOne(before: Documents, ids: map<Uuid, Uuid>, left: set<Uuid>, docs: Documents, d: Uuid)
    requires FreshIds(ids, before) && docs.Keys == before.Keys && AllWired(before, ids, left, docs)
    requires d in docs && ids[d] in left
    ensures docs[d].physical.Filled?
    ensures AllWired(before, ids, left - {ids[d]}, docs[d := Wired(docs[d], ids[d])])
  {
    assert WiredAt(before, ids, left, docs, d);
    var rest, after := left - {ids[d]}, docs[d := Wired(docs[d], ids[d])];
    forall e
      ensures WiredAt(before, ids, rest, after, e)
    {
      assert WiredAt(before, ids, left, docs, e);
    }
  }

  lemma InsertedFromAdded(before: Documents, ids: map<Uuid, Uuid>, added: Documents, versions: Versions)
    requires Legacy(before) && FreshIds(ids, before)
    requires added == map d | d in before :: before[d].(identity := AllNull)
    requires versions.Keys == ids.Values && Inserted(added, ids, {}, versions)
    ensures FirstVersions(before, ids, versions)
  {
    forall d | d in before
      ensures ids[d] in versions && versions[ids[d]] == FirstVersion(d, before[d])
    {
      assert added[d] == before[d].(identity := AllNull);
    }
  }

  lemma SplitRowInSteps(row: DocumentRow, version: Uuid)
    requires row.physical.Filled?
    ensures Wired(row.(identity := AllNull), version).(physical := Absent) == SplitRow(row, version)
  {
  }

  /** The statements of the revision together. */
  lemma SplitInSteps(before: Documents, ids: map<Uuid, Uuid>, added: Documents, wired: Documents, after: Documents)
    requires Legacy(before) && FreshIds(ids, before)
    requires added == map d | d in before :: before[d].(identity := AllNull)
    requires wired.Keys == added.Keys && AllWired(added, ids, {}, wired)
    requires after == map d | d in wired :: wired[d].(physical := Absent)
    ensures after == SplitDocuments(before, ids)
  {
    forall d | d in before
      ensures after[d] == SplitRow(before[d], ids[d])
    {
      assert WiredAt(added, ids, {}, wired, d);
      SplitRowInSteps(before[d], ids[d]);
    }
  }

  lemma TypedInSteps(row: DocumentRow, versions: Versions)
    requires row.identity.Filled?
    ensures Reshaped(DefaultRow(CaseRow(row, versions))) == TypedRow(row, versions)
  {
  }

  lemma TypedTables(before: Documents, versions: Versions, cased: Documents, filled: Documents, after: Documents)
    requires Split(before)
    requires cased == map d | d in before :: CaseRow(before[d], versions)
    requires filled == map d | d in cased :: DefaultRow(cased[d])
    requires after == map d | d in filled :: Reshaped(filled[d])
    ensures after == TypedDocuments(before, versions)
  {
    forall d | d in before
      ensures after[d] == TypedRow(before[d], versions)
    {
      TypedInSteps(before[d], versions);
    }
  }

  /** The physical columns are those of this version, and the collection is the space. */
  predicate TakenFrom(p: Physical, v: VersionRow, space: Option<Uuid>) {
    && p.originalFilename == v.originalFilename && p.filename == v.filename && p.extension == v.extension
    && p.mimeType == v.mimeType && p.size == v.size && p.checksum == v.checksum && p.storageProvider == v.storageProvider
    && p.storagePath == v.storagePath && p.pageCount == v.pageCount && p.uploadedBy == v.uploadedBy
    && p.collectionId == space
  }

  /** The row is back in the legacy form: the columns of its current version, or NULLs when it has none. */
  predicate IsLegacyAgain(row: DocumentRow, versions: Versions, after: DocumentRow)
    requires row.identity.Filled?
  {
    var i := row.identity.values;
    && after.tenantId == row.tenantId && after.status == row.status && after.metadata == row.metadata
    && after.deletedAt == row.deletedAt && after.identity.Absent?
    && if i.currentVersionId.Some? && i.currentVersionId.value in versions
       then after.physical.Filled?
            && TakenFrom(after.physical.values, versions[i.currentVersionId.value], i.knowledgeSpaceId)
       else after.physical.AllNull?
  }

  lemma MergedIsLegacy(docs: Documents, versions: Versions)
    requires Split(docs)
    ensures forall d | d in docs :: IsLegacyAgain(docs[d], versions, MergedDocuments(docs, versions)[d])
  {
  }

  const NULLABLE_FIELDS := [
    "language", "author", "organization", "department", "category", "security_level", "retention_policy",
    "created_by_application", "document_created_at", "document_modified_at"]
  const LIST_FIELDS := ["tags", "keywords"]

  predicate HasField(metadata: Json, name: string, value: Json) {
    metadata.JObject? && name in metadata.fields && metadata.fields[name] == value
  }

  /** Every field of `KnowledgeMetadata`, none of them set but the custom properties, which are the free-form value. */
  predicate IsWrapped(wrapped: Json, metadata: Json) {
    && (forall name | name in NULLABLE_FIELDS :: HasField(wrapped, name, JNull))
    && (forall name | name in LIST_FIELDS :: HasField(wrapped, name, JArray([])))
    && HasField(wrapped, "custom_properties", metadata)
  }

  lemma WrapsNullableFields(metadata: Json)
    ensures forall name | name in NULLABLE_FIELDS :: HasField(Wrap(metadata), name, JNull)
  {
  }

  lemma WrapsEveryField(metadata: Json)
    ensures IsWrapped(Wrap(metadata), metadata)
  {
    WrapsNullableFields(metadata);
    assert forall name | name in LIST_FIELDS :: HasField(Wrap(metadata), name, JArray([]));
  }

  /** After the typing: the metadata wrapped, and the type its extension has, or text for what is left on the legacy value. */
  predicate IsTyped(row: DocumentRow, versions: Versions, after: DocumentRow)
    requires row.identity.Filled?
  {
    var i := row.identity.values;
    && after.identity.Filled? && IsWrapped(after.metadata, row.metadata)
    && after == row.(identity := Filled(i.(sourceType := after.identity.values.sourceType)), metadata := after.metadata)
    && after.identity.values.sourceType ==
         if i.currentVersionId.Some? && i.currentVersionId.value in versions
         then SqlCase(versions[i.currentVersionId.value].extension)
         else if i.sourceType == "file_upload" then "text" else i.sourceType
  }

  ghost predicate AllTyped(docs: Documents, versions: Versions, after: Documents)
    requires Split(docs)
  {
    after.Keys == docs.Keys && forall d | d in docs :: IsTyped(docs[d], versions, after[d])
  }

  lemma RowsAreTyped(docs: Documents, versions: Versions, after: Documents)
    requires Split(docs) && after == TypedDocuments(docs, versions)
    ensures AllTyped(docs, versions, after)
  {
    forall d | d in docs
      ensures IsTyped(docs[d], versions, after[d])
    {
      RowIsTyped(docs[d], versions);
    }
  }

  lemma RowIsTyped(row: DocumentRow, versions: Versions)
    requires row.identity.Filled?
    ensures IsTyped(row, versions, TypedRow(row, versions))
  {
    WrapsEveryField(row.metadata);
    var i := row.identity.values;
    if i.currentVersionId.Some? && i.currentVersionId.value in versions {
      CaseIsNeverLegacy(versions[i.currentVersionId.value].extension);
    }
  }

  /** After undoing it: the legacy source type, and the custom properties, or an empty object where there were none. */
  predicate IsUntyped(row: DocumentRow, after: DocumentRow)
    requires row.identity.Filled?
  {
    && after == row.(identity := Filled(row.identity.values.(sourceType := "file_upload")), metadata := after.metadata)
    && if row.metadata.JObject? && "custom_properties" in row.metadata.fields
       then HasField(row.metadata, "custom_properties", after.metadata) else after.metadata == JObject(map[])
  }

  /** The two tables the revisions change in place, statement by statement. */
  class Schema {
    var documents: Documents
    var versions: Versions

    constructor (docs: Documents)
      ensures documents == docs && versions == map[]
    {
      documents, versions := docs, map[];
    }

    /** `INSERT INTO knowledge_document_versions ... SELECT gen_random_uuid(), id, 1, ...`. */
    method InsertFirstVersions(ids: map<Uuid, Uuid>)
      requires versions == map[] && FreshIds(ids, documents)
      requires forall d | d in documents :: documents[d].physical.Filled?
      modifies this`versions
      ensures versions.Keys == ids.Values && Inserted(documents, ids, {}, versions) && Owned(ids, versions)
    {
      var left := documents.Keys;
      while left != {}
        invariant left <= documents.Keys && Inserted(documents, ids, left, versions)
        decreases |left|
      {
        var d :| d in left;
        InsertOne(documents, ids, left, versions, d);
        versions := versions[ids[d] := FirstVersion(d, documents[d])];
        left := left - {d};
      }
      AllInserted(documents, ids, versions);
    }

    /** `UPDATE knowledge_documents ... FROM knowledge_document_versions v WHERE v.document_id = d.id`. */
    method WireIdentities(ids: map<Uuid, Uuid>)
      requires FreshIds(ids, documents) && versions.Keys == ids.Values && Owned(ids, versions)
      requires forall d | d in documents :: documents[d].physical.Filled?
      modifies this`documents
      ensures documents.Keys == old(documents).Keys && AllWired(old(documents), ids, {}, documents)
      ensures forall d | d in documents ::
                var p := old(documents)[d].physical.values;
                documents[d] == old(documents)[d].(
                  identity := Filled(Identity(p.originalFilename, "file_upload", Some(ids[d]), p.uploadedBy, p.collectionId)))
    {
      ghost var before := documents;
      var left := versions.Keys;
      NothingWired(documents, ids);
      while left != {}
        invariant left <= versions.Keys && documents.Keys == before.Keys && AllWired(before, ids, left, documents)
        decreases |left|
      {
        var v :| v in left;
        var d := versions[v].documentId;
        WireOne(before, ids, left, documents, d);
        documents := documents[d := Wired(documents[d], v)];
        left := left - {v};
      }
      forall d | d in documents
        ensures documents[d] == Wired(before[d], ids[d])
      {
        assert WiredAt(before, ids, {}, documents, d);
      }
    }

    /** b7f2c9a4d1e8 `upgrade`. */
    method UpgradeVersioning(ids: map<Uuid, Uuid>)
      requires Legacy(documents) && versions == map[] && FreshIds(ids, documents)
      modifies this
      ensures documents == SplitDocuments(old(documents), ids)
      ensures FirstVersions(old(documents), ids, versions)
    {
      ghost var before := documents;
      documents := map d | d in documents :: documents[d].(identity := AllNull);
      ghost var added := documents;
      InsertFirstVersions(ids);
      WireIdentities(ids);
      ghost var wired := documents;
      documents := map d | d in documents :: documents[d].(physical := Absent);
      InsertedFromAdded(before, ids, added, versions);
      SplitInSteps(before, ids, added, wired, documents);
    }

    /** b7f2c9a4d1e8 `downgrade`. */
    method DowngradeVersioning()
      requires Split(documents)
      modifies this
      ensures documents == MergedDocuments(old(documents), old(versions)) && versions == map[]
      ensures documents.Keys == old(documents).Keys
      ensures forall d | d in documents :: IsLegacyAgain(old(documents)[d], old(versions), documents[d])
    {
      ghost var before, rows := documents, versions;
      documents := map d | d in documents :: documents[d].(physical := AllNull);
      var left := documents.Keys;
      while left != {}
        invariant versions == rows && left <= documents.Keys == before.Keys
        invariant forall d | d in before ::
                    documents[d] == if d in left then before[d].(physical := AllNull) else Refilled(before[d], rows)
        decreases |left|
      {
        var d :| d in left;
        var i := documents[d].identity.values;
        if i.currentVersionId.Some? && i.currentVersionId.value in versions {
          var v := versions[i.currentVersionId.value];
          documents := documents[d := documents[d].(
            physical := Filled(Physical(v.originalFilename, v.filename, v.extension, v.mimeType, v.size, v.checksum,
                                        v.storageProvider, v.storagePath, v.pageCount, v.uploadedBy,
                                        i.knowledgeSpaceId)))];
        }
        left := left - {d};
      }
      documents := map d | d in documents :: documents[d].(identity := Absent);
      versions := map[];
      assert documents == MergedDocuments(before, rows);
      MergedIsLegacy(before, rows);
    }

    /** c3d9e1f42a76 `upgrade`. */
    method UpgradeTyping()
      requires Split(documents)
      modifies this`documents
      ensures documents == TypedDocuments(old(documents), versions)
      ensures AllTyped(old(documents), versions, documents)
    {
      ghost var before := documents;
      documents := map d | d in documents :: CaseRow(documents[d], versions);
      ghost var cased := documents;
      documents := map d | d in documents :: DefaultRow(documents[d]);
      ghost var filled := documents;
      documents := map d | d in documents :: Reshaped(documents[d]);
      TypedTables(before, versions, cased, filled, documents);
      RowsAreTyped(before, versions, documents);
    }

    /** c3d9e1f42a76 `downgrade`. */
    method DowngradeTyping()
      requires Split(documents)
      modifies this`documents
      ensures documents == UntypedDocuments(old(documents))
      ensures documents.Keys == old(documents).Keys
      ensures forall d | d in documents :: IsUntyped(old(documents)[d], documents[d])
    {
      ghost var before := documents;
      documents := map d | d in documents :: documents[d].(metadata := Unwrap(documents[d].metadata));
      documents := map d | d in documents ::
        documents[d].(identity := Filled(documents[d].identity.values.(sourceType := "file_upload")));
      assert documents == UntypedDocuments(before);
    }
  }

  // ---- the theorems ------------------------------------------------------

  lemma UnwrapUndoesWrap(metadata: Json)
    ensures Unwrap(Wrap(metadata)) == metadata
  {
  }

  lemma RetypedRow(row: DocumentRow, versions: Versions)
    requires row.identity.Filled? && row.identity.values.sourceType == "file_upload"
    ensures UntypedRow(TypedRow(row, versions)) == row
  {
    UnwrapUndoesWrap(row.metadata);
  }

  lemma TypingRoundTrip(docs: Documents, versions: Versions)
    requires Split(docs) && forall d | d in docs :: docs[d].identity.values.sourceType == "file_upload"
    ensures UntypedDocuments(TypedDocuments(docs, versions)) == docs
  {
    forall d | d in docs
      ensures UntypedRow(TypedRow(docs[d], versions)) == docs[d]
    {
      RetypedRow(docs[d], versions);
    }
  }

  lemma VersioningRoundTrip(docs: Documents, ids: map<Uuid, Uuid>, versions: Versions)
    requires Legacy(docs) && FreshIds(ids, docs) && FirstVersions(docs, ids, versions)
    ensures MergedDocuments(SplitDocuments(docs, ids), versions) == docs
  {
    forall d | d in docs
      ensures MergedRow(SplitRow(docs[d], ids[d]), versions) == docs[d]
    {
      assert versions[ids[d]] == FirstVersion(d, docs[d]);
    }
  }

  /** Both revisions up and both down again return every legacy row unchanged. */
  lemma RoundTrip(docs: Documents, ids: map<Uuid, Uuid>, versions: Versions)
    requires Legacy(docs) && FreshIds(ids, docs) && FirstVersions(docs, ids, versions)
    ensures var up := TypedDocuments(SplitDocuments(docs, ids), versions);
            MergedDocuments(UntypedDocuments(up), versions) == docs
  {
    TypingRoundTrip(SplitDocuments(docs, ids), versions);
    VersioningRoundTrip(docs, ids, versions);
  }

  method UpAndDown(docs: Documents, ids: map<Uuid, Uuid>) returns (after: Documents)
    requires Legacy(docs) && FreshIds(ids, docs)
    ensures after == docs
  {
    var schema := new Schema(docs);
    schema.UpgradeVersioning(ids);
    schema.UpgradeTyping();
    ghost var versions := schema.versions;
    schema.DowngradeTyping();
    schema.DowngradeVersioning();
    RoundTrip(docs, ids, versions);
    after := schema.documents;
  }

  /** The rows as the service reads them (`_version_to_entity`). */
  function Loaded(versions: Versions): map<Uuid, S.Version>
    requires forall v | v in versions :: versions[v].size >= 0
  {
    map v | v in versions ::
      S.Version(v, versions[v].documentId, versions[v].number, versions[v].originalFilename, versions[v].filename,
                versions[v].extension, versions[v].mimeType, versions[v].size, versions[v].checksum,
                versions[v].storagePath, versions[v].uploadedBy)
  }

  lemma OneVersionEach(docs: Documents, ids: map<Uuid, Uuid>, versions: Versions, v: Uuid)
    requires Legacy(docs) && FreshIds(ids, docs) && FirstVersions(docs, ids, versions) && v in versions
    ensures versions[v].number == 1 && versions[v].documentId in docs && ids[versions[v].documentId] == v
  {
    var d :| d in ids && ids[d] == v;
  }

  lemma OneVersionHistory(docs: Documents, ids: map<Uuid, Uuid>, versions: Versions, d: Uuid)
    requires Legacy(docs) && FreshIds(ids, docs) && FirstVersions(docs, ids, versions) && d in docs
    requires forall v | v in versions :: versions[v].size >= 0
    ensures I.History(Loaded(versions), d, Some(ids[d])) && Loaded(versions)[ids[d]].number == 1
  {
    var loaded := Loaded(versions);
    assert versions[ids[d]] == FirstVersion(d, docs[d]);
    assert I.IsVersionOf(loaded, d, ids[d]) && loaded[ids[d]].number == 1;
    forall v | I.IsVersionOf(loaded, d, v)
      ensures v == ids[d]
    {
      OneVersionEach(docs, ids, versions, v);
    }
    assert I.HasNumber(loaded, d, 1);
  }

  /**
   * Nothing is lost on the way up: the version row has each physical column of the legacy document, its metadata and who
   * uploaded it, and the document has title, creator and space from the columns they were kept in.
   */
  lemma UpgradeKeepsEveryColumn(docs: Documents, ids: map<Uuid, Uuid>, versions: Versions, d: Uuid)
    requires Legacy(docs) && FreshIds(ids, docs) && FirstVersions(docs, ids, versions) && d in docs
    ensures ids[d] in versions
    ensures var legacy, p, v := docs[d], docs[d].physical.values, versions[ids[d]];
            && v.documentId == d && v.number == 1 && v.originalFilename == p.originalFilename && v.filename == p.filename
            && v.extension == p.extension && v.mimeType == p.mimeType && v.size == p.size && v.checksum == p.checksum
            && v.storageProvider == p.storageProvider && v.storagePath == p.storagePath && v.pageCount == p.pageCount
            && v.metadata == legacy.metadata && v.uploadedBy == p.uploadedBy
    ensures var legacy, p, row := docs[d], docs[d].physical.values, TypedDocuments(SplitDocuments(docs, ids), versions)[d];
            && row.tenantId == legacy.tenantId && row.status == legacy.status && row.deletedAt == legacy.deletedAt
            && row.physical.Absent? && row.identity.Filled?
            && row.identity.values.title == p.originalFilename && row.identity.values.createdBy == p.uploadedBy
            && row.identity.values.knowledgeSpaceId == p.collectionId
            && row.identity.values.currentVersionId == Some(ids[d])
            && IsWrapped(row.metadata, legacy.metadata)
  {
    assert versions[ids[d]] == FirstVersion(d, docs[d]);
    WrapsEveryField(docs[d].metadata);
  }

  /**
   * After the upgrade every document's history is the running system's invariant: exactly version 1, and it is current;
   * its source type is the one `SourceType.from_extension` gives to its dot-free extension.
   */
  lemma UpgradeStartsHistories(docs: Documents, ids: map<Uuid, Uuid>, versions: Versions, d: Uuid)
    requires Legacy(docs) && FreshIds(ids, docs) && FirstVersions(docs, ids, versions) && d in docs
    requires forall v | v in versions :: versions[v].size >= 0
    ensures var row := TypedDocuments(SplitDocuments(docs, ids), versions)[d].identity.values;
            && I.History(Loaded(versions), d, row.currentVersionId)
            && Loaded(versions)[row.currentVersionId.value].number == 1
            && row.sourceType == SqlCase(docs[d].physical.values.extension)
            && ('.' !in docs[d].physical.values.extension ==>
                  row.sourceType == SourceText(FromExtension(docs[d].physical.values.extension)))
            && row.title == docs[d].physical.values.originalFilename
            && row.createdBy == docs[d].physical.values.uploadedBy
            && row.knowledgeSpaceId == docs[d].physical.values.collectionId
  {
    UpgradeKeepsEveryColumn(docs, ids, versions, d);
    OneVersionHistory(docs, ids, versions, d);
    assert versions[ids[d]] == FirstVersion(d, docs[d]);
    CaseIsNeverLegacy(docs[d].physical.values.extension);
    SqlCaseAgreesIff(docs[d].physical.values.extension);
  }

  lemma CaseIsNeverLegacy(extension: string)
    ensures SqlCase(extension) != "file_upload"
  {
  }

  function SourceText(t: SourceType): string {
    match t
    case Pdf => "pdf" case Word => "word" case Excel => "excel" case Powerpoint => "powerpoint"
    case Markdown => "markdown" case Text => "text" case Html => "html" case Image => "image" case Email => "email"
    case Notion => "notion" case Confluence => "confluence" case Github => "github" case Database => "database"
    case Api => "api" case Web => "web"
  }

  /** The SQL remapping and `SourceType.from_extension` agree unless a leading dot hides a known extension from SQL. */
  lemma SqlCaseAgreesIff(extension: string)
    ensures SqlCase(extension) == SourceText(FromExtension(extension))
       <==> (!(extension != "" && extension[0] == '.') || FromExtension(extension) == Text)
  {
    var e := Lower(extension);
    TablesAgree(e);
    if extension != "" && extension[0] == '.' {
      assert e[0] == '.';
      NoCaseStartsWithDot(e);
      TextIsText(FromExtension(extension));
    } else {
      assert StripDots(extension) == extension;
    }
  }

  /** Uploads only ever store extensions on which the two agree. */
  lemma AcceptedExtensionsAgree(settings: U.UploadSettings, filename: string, content: Bytes, contentType: string)
    requires U.ValidateUpload(settings, filename, content, contentType).Success?
    ensures var extension := U.ValidateUpload(settings, filename, content, contentType).value;
            SqlCase(extension) == SourceText(FromExtension(extension))
  {
    SqlCaseAgreesIff(U.ValidateUpload(settings, filename, content, contentType).value);
  }

  lemma TablesAgree(e: string)
    ensures e in SQL_CASES <==> e in EXTENSION_MAP
    ensures e in SQL_CASES ==> SQL_CASES[e] == SourceText(EXTENSION_MAP[e])
  {
  }

  lemma NoCaseStartsWithDot(e: string)
    requires e != "" && e[0] == '.'
    ensures e !in SQL_CASES
  {
  }

  lemma TextIsText(t: SourceType)
    ensures SourceText(t) == "text" <==> t == Text
  {
    assert SourceText(t)[0] == 't' ==> t == Text;
  }

  // ---- does the upgraded metadata load? ----------------------------------

  predicate IsTextMap(value: Json) {
    value.JObject? && forall name | name in value.fields :: value.fields[name].JString?
  }

  /** One field of `KnowledgeMetadata`; what its validator says of a value that is neither null nor empty is arbitrary. */
  predicate FieldLoads(accepts: (string, Json) -> bool, name: string, value: Json) {
    if name == "custom_properties" then IsTextMap(value)
    else if name in LIST_FIELDS then value == JArray([]) || accepts(name, value)
    else name in NULLABLE_FIELDS && (value == JNull || accepts(name, value))
  }

  /** `KnowledgeMetadata.model_validate`, with unknown fields forbidden. */
  predicate Loads(accepts: (string, Json) -> bool, metadata: Json) {
    metadata.JObject? && forall name | name in metadata.fields :: FieldLoads(accepts, name, metadata.fields[name])
  }

  /** The wrapped metadata is readable by the service exactly when the legacy value was an object of strings. */
  lemma WrappedLoadsIff(accepts: (string, Json) -> bool, metadata: Json)
    ensures Loads(accepts, Wrap(metadata)) <==> IsTextMap(metadata)
  {
    var w := Wrap(metadata);
    assert w.fields["custom_properties"] == metadata;
    forall name | name in w.fields && name != "custom_properties"
      ensures FieldLoads(accepts, name, w.fields[name])
    {
    }
    assert FieldLoads(accepts, "custom_properties", metadata) <==> IsTextMap(metadata);
  }

  /** Legacy metadata the service can no longer read after the upgrade: a page count kept as a number. */
  lemma NumericPropertyStopsLoading(accepts: (string, Json) -> bool)
    ensures !Loads(accepts, Wrap(JObject(map["pages" := JNumber(3.0)])))
  {
    WrappedLoadsIff(accepts, JObject(map["pages" := JNumber(3.0)]));
    assert !JObject(map["pages" := JNumber(3.0)]).fields["pages"].JString?;
  }
}
