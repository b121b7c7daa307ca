/** What each committed request leaves behind, column by column and effect by effect, read off its input alone. */
module Outcomes {
  import opened Prelude
  import opened Keys
  import opened Jobs
  import opened SourceTypes
  import opened Store
  import opened UseCases
  import opened Invariants
  import opened RowsKept
  import opened Protocol
  import opened Reachability

  lemma CommittedStep(cfg: Config, w: World, s: Step, tx: Tx)
    requires !s.Redeliver? && !s.Deliver? && tx == Transaction(cfg, w, s) && Commits(cfg, w, s)
    ensures Next(cfg, w, s).db == tx.db && Next(cfg, w, s).out == PerformAll(w.out, tx.effects)
  {
    NextIs(cfg, w, s, tx);
    assert tx.effects[..|tx.effects|] == tx.effects;
  }

  lemma TwoEffects(o: Outside, a: Effect, b: Effect)
    ensures PerformAll(o, [a, b]) == Perform(Perform(o, a), b)
  {
    assert [a, b] == [a] + [b];
    PerformOneMore(o, [a], b);
    PerformSingle(o, a);
  }

  lemma FourEffects(o: Outside, a: Effect, b: Effect, c: Effect, d: Effect)
    ensures PerformAll(o, [a, b, c, d]) == Perform(Perform(Perform(Perform(o, a), b), c), d)
  {
    TwoEffects(o, a, b);
    assert [a, b, c] == [a, b] + [c] && [a, b, c, d] == [a, b, c] + [d];
    PerformOneMore(o, [a, b], c);
    PerformOneMore(o, [a, b, c], d);
  }

  lemma LowerTwice(s: string)
    ensures Lower(Lower(s)) == Lower(s)
  {
  }

  /** Any name with a dot, cut at its last one: accepted exactly with the lower-cased rest as extension. */
  lemma AcceptedExtension(cfg: Config, u: UploadInput, stem: string, ext: string)
    requires u.originalFilename == stem + ['.'] + ext && '.' !in ext
    requires ValidateUpload(cfg.upload, u.originalFilename, u.content, u.contentType).Success?
    ensures ValidateUpload(cfg.upload, u.originalFilename, u.content, u.contentType).value == Lower(ext)
    ensures StripDots(Lower(ext)) == Lower(ext) && Lower(Lower(ext)) == Lower(ext)
  {
    AcceptedIff(cfg.upload, stem, ext, u.content, u.contentType);
    LowerTwice(ext);
  }

  /** The source type the table gives to a lower-cased extension, and plain text when it is not in the table. */
  function TableType(ext: string): SourceType {
    if ext in EXTENSION_MAP then EXTENSION_MAP[ext] else Text
  }

  /** No field set. */
  predicate IsBlank(m: KnowledgeMetadata) {
    && m.language.None? && m.author.None? && m.organization.None? && m.department.None? && m.category.None?
    && m.tags == [] && m.keywords == [] && m.securityLevel.None? && m.retentionPolicy.None?
    && m.createdByApplication.None? && m.documentCreatedAt.None? && m.documentModifiedAt.None?
    && m.customProperties == map[]
  }

  // ---- upload ------------------------------------------------------------

  lemma RegisteredIs(cfg: Config, db: Tables, d: Document, v: Version, content: Bytes, j: Uuid, tx: Tx)
    requires tx == RegisterTx(cfg, db, d, v, content, j) && tx.problem.None?
    ensures tx.db.docs == db.docs[d.id := d] && tx.db.versions == db.versions[v.id := v]
    ensures tx.db.jobs == db.jobs[j :=
              Job(j, d.id, d.tenantId, DocumentIngestion, Some(v.id), cfg.defaultPriority, Queued, 0, 0, None, None, None, None)]
    ensures tx.effects == [Save(v.storagePath, content),
                           Publish(DocumentUploaded(d.id, d.tenantId, v.id, v.number, v.checksum)),
                           Publish(JobCreated(j, d.id, d.tenantId, DocumentIngestion)), Enqueue(Message(d.tenantId, j))]
  {
  }

  lemma UploadIs(cfg: Config, db: Tables, u: UploadInput, d: Uuid, v: Uuid, j: Uuid, at: Instant, e: string, row: Document,
                 version: Version)
    requires ValidateUpload(cfg.upload, u.originalFilename, u.content, u.contentType) == Success(e)
    requires StripDots(e) == e && Lower(e) == e && UploadTx(cfg, db, u, d, v, j, at).problem.None?
    requires row == Document(d, u.tenantId, u.originalFilename, TableType(e), u.knowledgeSpaceId, Some(v), Uploaded,
                             NO_METADATA, u.uploadedBy, None)
    requires version == Version(v, d, 1, u.originalFilename, v.text + "." + e, e, u.contentType, |u.content|,
                                cfg.lib.sha256(u.content), VersionKey(u.tenantId, d, v, e, at), u.uploadedBy)
    ensures UploadTx(cfg, db, u, d, v, j, at) == RegisterTx(cfg, db, row, version, u.content, j)
  {
  }

  /**
   * A committed upload of a name `stem.ext`. Rows: one document titled with that name, of the type its extension has in
   * the table; one version, number 1, that records what came in; one QUEUED ingestion job of default priority for it.
   * Outside: the bytes under the version's key, two events in this order, one message, and nothing in the index.
   */
  lemma UploadWrites(cfg: Config, w: World, s: Step, stem: string, ext: string)
    requires s.Upload? && Commits(cfg, w, s) && s.input.originalFilename == stem + ['.'] + ext && '.' !in ext
    ensures var x, u := Next(cfg, w, s), s.input;
            var e := Lower(ext);
            && s.documentId in x.db.docs && IsBlank(x.db.docs[s.documentId].metadata)
            && x.db.docs == w.db.docs[s.documentId :=
                 Document(s.documentId, u.tenantId, u.originalFilename, TableType(e), u.knowledgeSpaceId, Some(s.versionId),
                          Uploaded, x.db.docs[s.documentId].metadata, u.uploadedBy, None)]
            && x.db.versions == w.db.versions[s.versionId :=
                 Version(s.versionId, s.documentId, 1, u.originalFilename, s.versionId.text + "." + e, e, u.contentType,
                         |u.content|, cfg.lib.sha256(u.content), VersionKey(u.tenantId, s.documentId, s.versionId, e, s.at),
                         u.uploadedBy)]
            && x.db.jobs == w.db.jobs[s.jobId :=
                 Job(s.jobId, s.documentId, u.tenantId, DocumentIngestion, Some(s.versionId), cfg.defaultPriority, Queued, 0, 0,
                     None, None, None, None)]
    ensures var o, u := w.out, s.input;
            var checksum := cfg.lib.sha256(u.content);
            Next(cfg, w, s).out ==
              Outside(o.messages + multiset{Message(u.tenantId, s.jobId)},
                      o.events + [DocumentUploaded(s.documentId, u.tenantId, s.versionId, 1, checksum),
                                  JobCreated(s.jobId, s.documentId, u.tenantId, DocumentIngestion)],
                      o.index, o.upserts,
                      o.blobs[VersionKey(u.tenantId, s.documentId, s.versionId, Lower(ext), s.at) := u.content])
  {
    var u, e := s.input, Lower(ext);
    var row := Document(s.documentId, u.tenantId, u.originalFilename, TableType(e), u.knowledgeSpaceId, Some(s.versionId),
                        Uploaded, NO_METADATA, u.uploadedBy, None);
    var version := Version(s.versionId, s.documentId, 1, u.originalFilename, s.versionId.text + "." + e, e, u.contentType,
                           |u.content|, cfg.lib.sha256(u.content), VersionKey(u.tenantId, s.documentId, s.versionId, e, s.at),
                           u.uploadedBy);
    CommittedStep(cfg, w, s, Transaction(cfg, w, s));
    AcceptedExtension(cfg, u, stem, ext);
    UploadIs(cfg, w.db, u, s.documentId, s.versionId, s.jobId, s.at, e, row, version);
    RegisteredIs(cfg, w.db, row, version, u.content, s.jobId, Transaction(cfg, w, s));
    RegisteredOutside(w.out, row, version, u.content, s.jobId);
  }

  lemma RegisteredOutside(o: Outside, d: Document, v: Version, content: Bytes, j: Uuid)
    ensures PerformAll(o, [Save(v.storagePath, content),
                           Publish(DocumentUploaded(d.id, d.tenantId, v.id, v.number, v.checksum)),
                           Publish(JobCreated(j, d.id, d.tenantId, DocumentIngestion)), Enqueue(Message(d.tenantId, j))])
         == Outside(o.messages + multiset{Message(d.tenantId, j)},
                    o.events + [DocumentUploaded(d.id, d.tenantId, v.id, v.number, v.checksum),
                                JobCreated(j, d.id, d.tenantId, DocumentIngestion)],
                    o.index, o.upserts, o.blobs[v.storagePath := content])
  {
    var uploaded := DocumentUploaded(d.id, d.tenantId, v.id, v.number, v.checksum);
    var created := JobCreated(j, d.id, d.tenantId, DocumentIngestion);
    FourEffects(o, Save(v.storagePath, content), Publish(uploaded), Publish(created), Enqueue(Message(d.tenantId, j)));
    assert o.events + [uploaded] + [created] == o.events + [uploaded, created];
  }

  // ---- add version -------------------------------------------------------

  /** The rows after a committed add-version: the next version row, with what came in, and the pointer on it. */
  predicate VersionRowsAre(cfg: Config, db: Tables, after: Tables, s: Step, e: string, number: int)
    requires s.AddVersion?
  {
    var u, d := s.input, s.documentId;
    && d in db.docs && db.docs[d].tenantId == u.tenantId && db.docs[d].deletedAt.None?
    && after == Tables(
         db.docs[d := db.docs[d].(currentVersionId := Some(s.versionId))],
         db.versions[s.versionId :=
           Version(s.versionId, d, number, u.originalFilename, s.versionId.text + "." + e, e, u.contentType, |u.content|,
                   cfg.lib.sha256(u.content), VersionKey(u.tenantId, d, s.versionId, e, s.at), u.uploadedBy)],
         db.jobs)
  }

  /** Outside: the bytes under the version's key and one event. */
  predicate VersionOutsideIs(cfg: Config, o: Outside, after: Outside, s: Step, e: string, number: int)
    requires s.AddVersion?
  {
    var u, d := s.input, s.documentId;
    after == Outside(o.messages, o.events + [VersionAdded(d, u.tenantId, s.versionId, number, cfg.lib.sha256(u.content))],
                     o.index, o.upserts, o.blobs[VersionKey(u.tenantId, d, s.versionId, e, s.at) := u.content])
  }

  /** The next version of the document: the one after its current version. */
  predicate IsNextNumber(db: Tables, d: Uuid, number: int) {
    && d in db.docs && db.docs[d].currentVersionId.Some? && db.docs[d].currentVersionId.value in db.versions
    && number == db.versions[db.docs[d].currentVersionId.value].number + 1
  }

  /** A committed add-version writes the version after the current one, stores its bytes and announces it; no more. */
  lemma AddedVersion(cfg: Config, w: World, s: Step, stem: string, ext: string, number: int)
    requires DocKeys(w.db.docs) && Histories(w.db.docs, w.db.versions) && s.AddVersion? && Commits(cfg, w, s)
    requires s.input.originalFilename == stem + ['.'] + ext && '.' !in ext && IsNextNumber(w.db, s.documentId, number)
    ensures VersionRowsAre(cfg, w.db, Next(cfg, w, s).db, s, Lower(ext), number)
    ensures VersionOutsideIs(cfg, w.out, Next(cfg, w, s).out, s, Lower(ext), number)
  {
    var tx := Transaction(cfg, w, s);
    CommittedStep(cfg, w, s, tx);
    AcceptedExtension(cfg, s.input, stem, ext);
    NumberIsNext(w.db, s.documentId, number);
    AttachedRows(cfg, w.db, s, tx, Lower(ext));
    AttachedEffects(cfg, w.db, w.out, s, tx, Lower(ext));
  }

  lemma NumberIsNext(db: Tables, d: Uuid, number: int)
    requires Histories(db.docs, db.versions) && IsNextNumber(db, d, number)
    ensures NextNumber(db, d) == number
  {
    assert HistoryOf(db.docs, db.versions, d);
    NextNumberFollows(db, d, db.docs[d].currentVersionId);
  }

  lemma AttachedRows(cfg: Config, db: Tables, s: Step, tx: Tx, e: string)
    requires DocKeys(db.docs) && s.AddVersion? && tx.problem.None?
    requires tx == AddVersionTx(cfg, db, s.input, s.documentId, s.versionId, s.at)
    requires ValidateUpload(cfg.upload, s.input.originalFilename, s.input.content, s.input.contentType) == Success(e)
    ensures VersionRowsAre(cfg, db, tx.db, s, e, NextNumber(db, s.documentId))
  {
    var d := db.docs[s.documentId];
    var v := NewVersion(cfg, s.input, e, d.id, s.versionId, NextNumber(db, d.id), s.at);
    assert SaveVersion(db, d.(currentVersionId := Some(v.id)), v).docs == db.docs[d.id := d.(currentVersionId := Some(v.id))];
  }

  lemma AttachedEffects(cfg: Config, db: Tables, o: Outside, s: Step, tx: Tx, e: string)
    requires DocKeys(db.docs) && s.AddVersion? && tx.problem.None?
    requires tx == AddVersionTx(cfg, db, s.input, s.documentId, s.versionId, s.at)
    requires ValidateUpload(cfg.upload, s.input.originalFilename, s.input.content, s.input.contentType) == Success(e)
    ensures VersionOutsideIs(cfg, o, PerformAll(o, tx.effects), s, e, NextNumber(db, s.documentId))
  {
    var u, d := s.input, s.documentId;
    var save := Save(VersionKey(u.tenantId, d, s.versionId, e, s.at), u.content);
    var added := VersionAdded(d, u.tenantId, s.versionId, NextNumber(db, d), cfg.lib.sha256(u.content));
    assert tx.effects == [save, Publish(added)];
    TwoEffects(o, save, Publish(added));
  }

  // ---- delete, update metadata -------------------------------------------

  /** A committed deletion: the tenant's live document gets status and time, nothing else changes, one event says so. */
  lemma DeletedRow(cfg: Config, w: World, s: Step)
    requires DocKeys(w.db.docs) && s.Delete? && Commits(cfg, w, s)
    ensures var x, d := Next(cfg, w, s), s.documentId;
            && d in w.db.docs && w.db.docs[d].tenantId == s.tenantId && w.db.docs[d].deletedAt.None?
            && x.db == w.db.(docs := w.db.docs[d := w.db.docs[d].(status := Deleted, deletedAt := Some(s.at))])
            && x.out == w.out.(events := w.out.events + [DocumentDeleted(d, s.tenantId)])
  {
    var tx := Transaction(cfg, w, s);
    CommittedStep(cfg, w, s, tx);
    PerformSingle(w.out, tx.effects[0]);
    assert tx.effects == [tx.effects[0]];
  }

  /** The row after an update: each field as requested, or as it was, and no other column. */
  predicate UpdatedAs(before: Document, after: Document, c: Changes) {
    && after.metadata == (match c.metadata case Some(m) => m case None => before.metadata)
    && after.title == (match c.title case Some(t) => t case None => before.title)
    && after.knowledgeSpaceId == (match c.space case Some(k) => Some(k) case None => before.knowledgeSpaceId)
    && after == before.(metadata := after.metadata, title := after.title, knowledgeSpaceId := after.knowledgeSpaceId)
  }

  lemma SavedRow(db: Tables, before: Document, after: Document, c: Changes)
    requires before.id in db.docs && db.docs[before.id] == before && UpdatedAs(before, after, c)
    ensures SaveDocument(db, after) == db.(docs := db.docs[before.id := after])
  {
    assert SaveDocument(db, after).docs[before.id] == after;
  }

  /**
   * A committed update: metadata, title and space are the requested ones where given and the old ones otherwise, no other
   * column and no other row changes, and the event carries the metadata now on the row.
   */
  lemma UpdatedRow(cfg: Config, w: World, s: Step)
    requires DocKeys(w.db.docs) && s.UpdateMetadata? && Commits(cfg, w, s)
    ensures var x, d := Next(cfg, w, s), s.documentId;
            && d in w.db.docs && w.db.docs[d].tenantId == s.tenantId && w.db.docs[d].deletedAt.None?
            && d in x.db.docs && UpdatedAs(w.db.docs[d], x.db.docs[d], s.changes)
            && x.db == w.db.(docs := w.db.docs[d := x.db.docs[d]])
            && x.out == w.out.(events := w.out.events + [MetadataUpdated(d, s.tenantId, x.db.docs[d].metadata)])
  {
    var tx, before := Transaction(cfg, w, s), w.db.docs[s.documentId];
    CommittedStep(cfg, w, s, tx);
    SavedRow(w.db, before, Changed(before, s.changes), s.changes);
    PerformSingle(w.out, tx.effects[0]);
    assert tx.effects == [tx.effects[0]];
  }

  /** A deletion or an update is refused exactly when the tenant has no such live document. */
  lemma RefusedIffNotThere(cfg: Config, w: World, s: Step)
    requires s.Delete? || s.UpdateMetadata?
    ensures Transaction(cfg, w, s).problem ==
              if s.documentId in w.db.docs && w.db.docs[s.documentId].tenantId == s.tenantId
                 && w.db.docs[s.documentId].deletedAt.None?
              then None else Some(NotFound)
  {
  }

  // ---- create a job ------------------------------------------------------

  /** A committed creation: one QUEUED row with the requested priority or the default one, its event, its message. */
  lemma CreatedJob(cfg: Config, w: World, s: Step)
    requires s.CreateJob? && Commits(cfg, w, s)
    ensures var x, r, o := Next(cfg, w, s), s.request, w.out;
            var priority := match r.priority case Some(p) => p case None => cfg.defaultPriority;
            && x.db == w.db.(jobs := w.db.jobs[s.jobId :=
                 Job(s.jobId, r.documentId, r.tenantId, r.jobType, r.versionId, priority, Queued, 0, 0, None, None, None, None)])
            && x.out == o.(messages := o.messages + multiset{Message(r.tenantId, s.jobId)},
                           events := o.events + [JobCreated(s.jobId, r.documentId, r.tenantId, r.jobType)])
  {
    var tx := Transaction(cfg, w, s);
    CommittedStep(cfg, w, s, tx);
    assert tx.effects == [tx.effects[0], tx.effects[1]];
    TwoEffects(w.out, tx.effects[0], tx.effects[1]);
  }
}
