/** When the same content can be admitted twice, and when it can be uploaded again. */
module Duplicates {
  import opened Prelude
  import opened Keys
  import opened Store
  import opened UseCases
  import opened Invariants
  import opened RowsKept
  import opened Protocol
  import opened Reachability
  import opened Catalogue

  predicate Accepted(cfg: Config, u: UploadInput) {
    ValidateUpload(cfg.upload, u.originalFilename, u.content, u.contentType).Success?
  }

  // ---- adding a version --------------------------------------------------

  /** An add-version request is refused for its document or its file only; its checksum plays no part. */
  lemma AddVersionOutcome(cfg: Config, w: World, s: Step)
    requires Good(cfg, w) && Enabled(w, s) && s.AddVersion?
    ensures Transaction(cfg, w, s).problem ==
              if !(LiveIn(w.db, s.documentId) && w.db.docs[s.documentId].tenantId == s.input.tenantId) then Some(NotFound)
              else if !Accepted(cfg, s.input) then Some(Invalid) else None
  {
    if GetDocument(w.db, s.input.tenantId, s.documentId).Some? {
      assert HistoryOf(w.db.docs, w.db.versions, s.documentId);
      NextNumberFollows(w.db, s.documentId, w.db.docs[s.documentId].currentVersionId);
    }
  }

  /** From any reachable state with unique checksums: they stay unique exactly when no other live document has this content. */
  lemma AddVersionDedupIff(cfg: Config, w: World, s: Step)
    requires Good(cfg, w) && Deduplicated(w.db) && Enabled(w, s) && s.AddVersion? && s.fuse.None?
    requires GetDocument(w.db, s.input.tenantId, s.documentId).Some? && Accepted(cfg, s.input)
    ensures Commits(cfg, w, s)
    ensures Deduplicated(Next(cfg, w, s).db)
       <==> HeldOnlyBy(w.db, s.input.tenantId, cfg.lib.sha256(s.input.content), s.documentId)
  {
    var d := w.db.docs[s.documentId];
    var ext := ValidateUpload(cfg.upload, s.input.originalFilename, s.input.content, s.input.contentType).value;
    var v := NewVersion(cfg, s.input, ext, s.documentId, s.versionId, NextNumber(w.db, s.documentId), s.at);
    AddVersionOutcome(cfg, w, s);
    UncutStep(cfg, w, s, Transaction(cfg, w, s));
    AttachKeepsDedupIff(w.db, d, v, s.input.content);
  }

  // ---- a run that admits a duplicate -------------------------------------

  /** A live document of the tenant with a version of this checksum. */
  predicate Live(db: Tables, d: Uuid, v: Uuid, tenantId: string, checksum: string) {
    && d in db.docs && db.docs[d].tenantId == tenantId && db.docs[d].deletedAt.None?
    && v in db.versions && db.versions[v].documentId == d && db.versions[v].checksum == checksum
  }

  predicate OneMore(db: Tables, after: Tables, d: Uuid, v: Uuid) {
    && after.docs.Keys == db.docs.Keys + {d} && after.versions.Keys == db.versions.Keys + {v}
    && (forall e | e in db.docs && e != d :: after.docs[e] == db.docs[e])
    && (forall u | u in db.versions && u != v :: after.versions[u] == db.versions[u])
  }

  lemma RegisteredRows(cfg: Config, db: Tables, d: Document, v: Version, content: Bytes, jobId: Uuid)
    requires RegisterTx(cfg, db, d, v, content, jobId).problem.None? && v.documentId == d.id && d.deletedAt.None?
    ensures var after := RegisterTx(cfg, db, d, v, content, jobId).db;
            OneMore(db, after, d.id, v.id) && Live(after, d.id, v.id, d.tenantId, v.checksum)
  {
  }

  /** What a committed upload leaves in the document and version tables. */
  lemma UploadedRows(cfg: Config, w: World, s: Step, x: World)
    requires s.Upload? && s.fuse.None? && Transaction(cfg, w, s).problem.None? && x == Next(cfg, w, s)
    ensures OneMore(w.db, x.db, s.documentId, s.versionId)
    ensures Live(x.db, s.documentId, s.versionId, s.input.tenantId, cfg.lib.sha256(s.input.content))
  {
    var u := s.input;
    var ext := ValidateUpload(cfg.upload, u.originalFilename, u.content, u.contentType).value;
    UncutStep(cfg, w, s, Transaction(cfg, w, s));
    RegisteredRows(cfg, w.db, NewDocument(u, ext, s.documentId, s.versionId),
                   NewVersion(cfg, u, ext, s.documentId, s.versionId, 1, s.at), u.content, s.jobId);
  }

  /** An acceptable upload of content nobody holds commits, and keeps what held. */
  lemma FreshUpload(cfg: Config, w: World, s: Step, x: World)
    requires Good(cfg, w) && Deduplicated(w.db) && Wired(cfg) && Enabled(w, s)
    requires s.Upload? && s.fuse.None? && Accepted(cfg, s.input) && x == Next(cfg, w, s)
    requires !HoldsChecksum(w.db, s.input.tenantId, cfg.lib.sha256(s.input.content))
    ensures Good(cfg, x) && Deduplicated(x.db) && x.issued == w.issued + Drawn(s)
    ensures OneMore(w.db, x.db, s.documentId, s.versionId)
    ensures Live(x.db, s.documentId, s.versionId, s.input.tenantId, cfg.lib.sha256(s.input.content))
  {
    UploadOutcome(cfg, w, s);
    UploadedRows(cfg, w, s, x);
    StepKeepsGood(cfg, w, s);
    StepKeepsDedup(cfg, w, s);
    UncutStep(cfg, w, s, Transaction(cfg, w, s));
    NextIs(cfg, w, s, Transaction(cfg, w, s));
  }

  lemma NothingHeld(tenantId: string, checksum: string)
    ensures !HoldsChecksum(EMPTY.db, tenantId, checksum)
  {
  }

  lemma OtherContentIsFree(db: Tables, d: Uuid, v: Uuid, tenantId: string, checksum: string, other: string)
    requires OneMore(EMPTY.db, db, d, v) && Live(db, d, v, tenantId, checksum) && checksum != other
    ensures !HoldsChecksum(db, tenantId, other)
  {
    assert db.versions.Keys == {v};
  }

  lemma StillHeld(db: Tables, after: Tables, d: Uuid, v: Uuid, tenantId: string, checksum: string, e: Uuid, u: Uuid)
    requires OneMore(db, after, e, u) && Live(db, d, v, tenantId, checksum) && d != e && v != u
    ensures !HeldOnlyBy(after, tenantId, checksum, e)
  {
    assert Holder(after, tenantId, checksum, v) && after.versions[v].documentId == d;
  }

  /** Two uploads in a row, and a third step on ids not drawn yet. */
  predicate FreshSteps(s1: Step, s2: Step, s3: Step) {
    && s1.Upload? && s2.Upload? && s3.AddVersion? && s1.fuse.None? && s2.fuse.None? && s3.fuse.None?
    && Enabled(EMPTY, s1) && Enabled(EMPTY, s2) && Drawn(s1) !! Drawn(s2) && s3.versionId !in Drawn(s1) + Drawn(s2)
  }

  lemma FreshStepsEnabled(s1: Step, s2: Step, s3: Step, w: World, x: World)
    requires FreshSteps(s1, s2, s3) && w.issued == Drawn(s1) && x.issued == Drawn(s1) + Drawn(s2)
    ensures Enabled(w, s2) && Enabled(x, s3) && s1.documentId != s2.documentId && s1.versionId != s2.versionId
  {
    assert s1.documentId in Drawn(s1) && s1.versionId in Drawn(s1) && s2.documentId in Drawn(s2) && s2.versionId in Drawn(s2);
  }

  lemma AfterFirst(cfg: Config, s1: Step, w: World, other: string)
    requires s1.Upload? && s1.fuse.None? && Enabled(EMPTY, s1) && Wired(cfg) && Accepted(cfg, s1.input)
    requires w == Next(cfg, EMPTY, s1) && cfg.lib.sha256(s1.input.content) != other
    ensures Good(cfg, w) && Deduplicated(w.db) && w.issued == Drawn(s1)
    ensures Live(w.db, s1.documentId, s1.versionId, s1.input.tenantId, cfg.lib.sha256(s1.input.content))
    ensures !HoldsChecksum(w.db, s1.input.tenantId, other)
  {
    EmptyIsGood(cfg);
    assert EMPTY.issued + Drawn(s1) == Drawn(s1);
    NothingHeld(s1.input.tenantId, cfg.lib.sha256(s1.input.content));
    FreshUpload(cfg, EMPTY, s1, w);
    OtherContentIsFree(w.db, s1.documentId, s1.versionId, s1.input.tenantId, cfg.lib.sha256(s1.input.content), other);
  }

  lemma LiveIsFound(db: Tables, d: Uuid, v: Uuid, tenantId: string, checksum: string)
    requires Live(db, d, v, tenantId, checksum)
    ensures GetDocument(db, tenantId, d).Some?
  {
  }

  /** The second upload goes through, and the first one's content is still held elsewhere. */
  lemma TwoUploads(cfg: Config, s1: Step, s2: Step, s3: Step, w: World, x: World)
    requires FreshSteps(s1, s2, s3) && Wired(cfg) && w == Next(cfg, EMPTY, s1) && x == Next(cfg, w, s2)
    requires Accepted(cfg, s1.input) && Accepted(cfg, s2.input) && s1.input.tenantId == s2.input.tenantId
    requires cfg.lib.sha256(s1.input.content) != cfg.lib.sha256(s2.input.content)
    ensures Good(cfg, x) && Deduplicated(x.db) && Enabled(w, s2) && Enabled(x, s3)
    ensures GetDocument(x.db, s2.input.tenantId, s2.documentId).Some?
    ensures !HeldOnlyBy(x.db, s1.input.tenantId, cfg.lib.sha256(s1.input.content), s2.documentId)
  {
    var t, first, second := s1.input.tenantId, cfg.lib.sha256(s1.input.content), cfg.lib.sha256(s2.input.content);
    AfterFirst(cfg, s1, w, second);
    FreshStepsEnabled(s1, s2, s3, w, w.(issued := Drawn(s1) + Drawn(s2)));
    FreshUpload(cfg, w, s2, x);
    FreshStepsEnabled(s1, s2, s3, w, x);
    LiveIsFound(x.db, s2.documentId, s2.versionId, t, second);
    StillHeld(w.db, x.db, s1.documentId, s1.versionId, t, first, s2.documentId, s2.versionId);
  }

  /** For any two acceptable files of one tenant with different checksums, three requests admit the first file twice. */
  lemma AdmissionDuplicates(cfg: Config, s1: Step, s2: Step, s3: Step)
    requires FreshSteps(s1, s2, s3) && Wired(cfg) && s3.input == s1.input && s3.documentId == s2.documentId
    requires Accepted(cfg, s1.input) && Accepted(cfg, s2.input) && s1.input.tenantId == s2.input.tenantId
    requires cfg.lib.sha256(s1.input.content) != cfg.lib.sha256(s2.input.content)
    ensures Possible(cfg, EMPTY, [s1, s2, s3]) && !Deduplicated(Run(cfg, EMPTY, [s1, s2, s3]).db)
  {
    var w := Next(cfg, EMPTY, s1);
    var x := Next(cfg, w, s2);
    TwoUploads(cfg, s1, s2, s3, w, x);
    AddVersionDedupIff(cfg, x, s3);
    ThreeSteps(cfg, EMPTY, s1, s2, s3);
  }

  lemma ThreeSteps(cfg: Config, w: World, s1: Step, s2: Step, s3: Step)
    requires Enabled(w, s1) && Enabled(Next(cfg, w, s1), s2) && Enabled(Next(cfg, Next(cfg, w, s1), s2), s3)
    ensures Possible(cfg, w, [s1, s2, s3])
    ensures Run(cfg, w, [s1, s2, s3]) == Next(cfg, Next(cfg, Next(cfg, w, s1), s2), s3)
  {
    var x := Next(cfg, w, s1);
    var y := Next(cfg, x, s2);
    assert [s1, s2, s3][1..] == [s2, s3] && [s2, s3][1..] == [s3] && [s3][1..] == [];
    assert Run(cfg, y, [s3]) == Next(cfg, y, s3) && Possible(cfg, y, [s3]);
    assert Run(cfg, x, [s2, s3]) == Next(cfg, y, s3) && Possible(cfg, x, [s2, s3]);
  }

  // ---- one such run, spelled out -----------------------------------------

  /** The id whose text is one hexadecimal digit, 36 times. */
  function SomeId(k: nat): (u: Uuid)
    requires k < |HEX|
    ensures u.text[0] == HEX[k]
  {
    Uuid(Repeat(HEX[k], 36))
  }

  const PLAIN := Config(
    0, 0, UploadSettings(10, ["pdf"], ["application/pdf"]), map[],
    Libraries(content => if |content| == 1 then "one" else "more", (content, mimeType) => None, text => [], chunks => None))

  const SHORT := UploadInput("acme", "short" + ['.'] + "pdf", [1], "application/pdf", None, None)
  const LONG := UploadInput("acme", "long" + ['.'] + "pdf", [1, 2], "application/pdf", None, None)
  const DAY := Instant(2026, 7, 0)

  function UploadShort(): Step { Upload(SHORT, SomeId(0), SomeId(1), SomeId(2), DAY, None) }
  function UploadLong(): Step { Upload(LONG, SomeId(3), SomeId(4), SomeId(5), DAY, None) }
  function AddShortAgain(): Step { AddVersion(SHORT, SomeId(3), SomeId(6), DAY, None) }

  lemma PlainAccepts()
    ensures Accepted(PLAIN, SHORT) && Accepted(PLAIN, LONG)
  {
    assert Lower("pdf") == "pdf" && "pdf" in PLAIN.upload.allowedExtensions;
    assert "application/pdf" in PLAIN.upload.allowedMimeTypes;
    AcceptedIff(PLAIN.upload, "short", "pdf", SHORT.content, SHORT.contentType);
    AcceptedIff(PLAIN.upload, "long", "pdf", LONG.content, LONG.contentType);
  }

  /** Two small files, seven ids: after three requests two live documents of the tenant hold the same content. */
  lemma DuplicateAdmitted()
    ensures var steps := [UploadShort(), UploadLong(), AddShortAgain()];
            Possible(PLAIN, EMPTY, steps) && !Deduplicated(Run(PLAIN, EMPTY, steps).db)
  {
    PlainAccepts();
    SpelledOut();
    DifferentSums();
    AdmissionDuplicates(PLAIN, UploadShort(), UploadLong(), AddShortAgain());
  }

  lemma DifferentSums()
    ensures PLAIN.lib.sha256(SHORT.content) != PLAIN.lib.sha256(LONG.content)
  {
    assert PLAIN.lib.sha256(SHORT.content) == "one" && PLAIN.lib.sha256(LONG.content) == "more";
    assert "one"[0] != "more"[0];
  }

  lemma SomeIdsDiffer(k: nat, l: nat)
    requires k < l < 7
    ensures SomeId(k) != SomeId(l)
  {
    assert HEX[0] == '0' && HEX[1] == '1' && HEX[2] == '2' && HEX[3] == '3' && HEX[4] == '4' && HEX[5] == '5' && HEX[6] == '6';
    assert HEX[k] as int == '0' as int + k && HEX[l] as int == '0' as int + l;
  }

  lemma DistinctIdsAreFresh(ids: seq<Uuid>, a: UploadInput, b: UploadInput, at: Instant)
    requires |ids| == 7 && forall k, l | 0 <= k < l < 7 :: ids[k] != ids[l]
    ensures FreshSteps(Upload(a, ids[0], ids[1], ids[2], at, None), Upload(b, ids[3], ids[4], ids[5], at, None),
                       AddVersion(a, ids[3], ids[6], at, None))
  {
  }

  lemma SpelledOut()
    ensures FreshSteps(UploadShort(), UploadLong(), AddShortAgain())
  {
    var ids := seq(7, k requires 0 <= k < 7 => SomeId(k));
    forall k, l | 0 <= k < l < 7
      ensures ids[k] != ids[l]
    {
      SomeIdsDiffer(k, l);
    }
    DistinctIdsAreFresh(ids, SHORT, LONG, DAY);
  }

  // ---- two uploads at once -----------------------------------------------

  /** What an upload writes once its check is behind it, into the rows as they are by then. */
  function LateInsert(cfg: Config, db: Tables, s: Step): Tx
    requires s.Upload? && Accepted(cfg, s.input)
  {
    var u := s.input;
    var ext := ValidateUpload(cfg.upload, u.originalFilename, u.content, u.contentType).value;
    RegisterTx(cfg, db, NewDocument(u, ext, s.documentId, s.versionId),
               NewVersion(cfg, u, ext, s.documentId, s.versionId, 1, s.at), u.content, s.jobId)
  }

  /** The upload is acceptable, draws new ids, and found nobody holding its content. */
  predicate PassedCheck(cfg: Config, db: Tables, s: Step) {
    && s.Upload? && Accepted(cfg, s.input)
    && NewIds(db, s) && !Held(cfg, db, s)
  }

  predicate NewIds(db: Tables, s: Step)
    requires s.Upload?
  {
    s.documentId !in db.docs && s.versionId !in db.versions && s.jobId !in db.jobs
  }

  predicate Held(cfg: Config, db: Tables, s: Step)
    requires s.Upload?
  {
    HoldsChecksum(db, s.input.tenantId, cfg.lib.sha256(s.input.content))
  }

  predicate SameContent(cfg: Config, s1: Step, s2: Step)
    requires s1.Upload? && s2.Upload?
  {
    s1.input.tenantId == s2.input.tenantId && cfg.lib.sha256(s1.input.content) == cfg.lib.sha256(s2.input.content)
  }

  lemma LateInsertRows(cfg: Config, db: Tables, s: Step)
    requires s.Upload? && Accepted(cfg, s.input) && LateInsert(cfg, db, s).problem.None?
    ensures OneMore(db, LateInsert(cfg, db, s).db, s.documentId, s.versionId)
    ensures Live(LateInsert(cfg, db, s).db, s.documentId, s.versionId, s.input.tenantId, cfg.lib.sha256(s.input.content))
    ensures LateInsert(cfg, db, s).db.jobs.Keys == db.jobs.Keys + {s.jobId}
  {
    var u := s.input;
    var ext := ValidateUpload(cfg.upload, u.originalFilename, u.content, u.contentType).value;
    RegisteredRows(cfg, db, NewDocument(u, ext, s.documentId, s.versionId),
                   NewVersion(cfg, u, ext, s.documentId, s.versionId, 1, s.at), u.content, s.jobId);
  }

  lemma LateInsertSucceeds(cfg: Config, db: Tables, s: Step)
    requires RowsOk(cfg, db) && s.Upload? && Accepted(cfg, s.input)
    requires s.documentId !in db.docs && s.versionId !in db.versions && s.jobId !in db.jobs
    ensures LateInsert(cfg, db, s).problem.None? && RowsOk(cfg, LateInsert(cfg, db, s).db)
  {
    var u := s.input;
    var ext := ValidateUpload(cfg.upload, u.originalFilename, u.content, u.contentType).value;
    var d := NewDocument(u, ext, s.documentId, s.versionId);
    var v := NewVersion(cfg, u, ext, s.documentId, s.versionId, 1, s.at);
    RegisterSucceeds(cfg, db, d, v, u.content, s.jobId);
    AcceptedKeyNames(u.tenantId, s.documentId, s.versionId, ext, s.at);
    RegisterKeepsRows(cfg, db, d, v, u.content, s.jobId);
  }

  lemma LateInsertKeepsDedup(cfg: Config, db: Tables, s: Step)
    requires Deduplicated(db) && VersionRefs(db.docs, db.versions) && s.Upload? && Accepted(cfg, s.input)
    requires !HoldsChecksum(db, s.input.tenantId, cfg.lib.sha256(s.input.content))
    ensures Deduplicated(LateInsert(cfg, db, s).db)
  {
    var u := s.input;
    var ext := ValidateUpload(cfg.upload, u.originalFilename, u.content, u.contentType).value;
    RegisterKeepsDedup(cfg, db, NewDocument(u, ext, s.documentId, s.versionId),
                       NewVersion(cfg, u, ext, s.documentId, s.versionId, 1, s.at), u.content, s.jobId);
  }

  /** After one insert, content nobody held before is held exactly if it is what was inserted. */
  lemma HeldAfterInsert(db: Tables, after: Tables, d: Uuid, v: Uuid, t1: string, c1: string, t2: string, c2: string)
    requires OneMore(db, after, d, v) && Live(after, d, v, t1, c1) && VersionRefs(db.docs, db.versions)
    requires d !in db.docs && v !in db.versions && !HoldsChecksum(db, t2, c2)
    ensures HoldsChecksum(after, t2, c2) <==> t1 == t2 && c1 == c2
  {
    forall h | h in after.versions && h != v
      ensures !Holder(after, t2, c2, h)
    {
      assert !Holder(db, t2, c2, h);
    }
    if t1 == t2 && c1 == c2 { assert Holder(after, t2, c2, v); }
  }

  lemma TwiceHeld(db: Tables, after: Tables, d1: Uuid, v1: Uuid, d2: Uuid, v2: Uuid, t: string, c: string)
    requires Live(db, d1, v1, t, c) && OneMore(db, after, d2, v2) && Live(after, d2, v2, t, c) && d1 != d2 && v1 != v2
    ensures !Deduplicated(after)
  {
    assert Twins(after, v1, v2);
  }

  predicate LiveUpload(cfg: Config, db: Tables, s: Step)
    requires s.Upload?
  {
    Live(db, s.documentId, s.versionId, s.input.tenantId, cfg.lib.sha256(s.input.content))
  }

  /** The first of the two inserts. */
  lemma FirstInsert(cfg: Config, db: Tables, s: Step, mid: Tables)
    requires RowsOk(cfg, db) && Deduplicated(db) && PassedCheck(cfg, db, s) && mid == LateInsert(cfg, db, s).db
    ensures LateInsert(cfg, db, s).problem.None? && RowsOk(cfg, mid) && Deduplicated(mid)
    ensures OneMore(db, mid, s.documentId, s.versionId) && mid.jobs.Keys == db.jobs.Keys + {s.jobId}
    ensures LiveUpload(cfg, mid, s)
  {
    LateInsertSucceeds(cfg, db, s);
    LateInsertRows(cfg, db, s);
    LateInsertKeepsDedup(cfg, db, s);
  }

  /** What it means for the check the other made before it. */
  lemma CheckIsStale(cfg: Config, db: Tables, s: Step, mid: Tables, other: Step)
    requires VersionRefs(db.docs, db.versions) && s.Upload? && NewIds(db, s)
    requires OneMore(db, mid, s.documentId, s.versionId) && mid.jobs.Keys == db.jobs.Keys + {s.jobId}
    requires LiveUpload(cfg, mid, s) && other.Upload? && NewIds(db, other) && !Held(cfg, db, other)
    requires s.documentId != other.documentId && s.versionId != other.versionId && s.jobId != other.jobId
    ensures NewIds(mid, other) && (Held(cfg, mid, other) <==> SameContent(cfg, s, other))
  {
    HeldAfterInsert(db, mid, s.documentId, s.versionId, s.input.tenantId, cfg.lib.sha256(s.input.content),
                    other.input.tenantId, cfg.lib.sha256(other.input.content));
  }

  /** The second insert, given whether its content is held by now. */
  lemma SecondInsert(cfg: Config, mid: Tables, first: Step, s: Step, after: Tables)
    requires RowsOk(cfg, mid) && Deduplicated(mid) && s.Upload? && Accepted(cfg, s.input) && after == LateInsert(cfg, mid, s).db
    requires NewIds(mid, s) && first.Upload? && LiveUpload(cfg, mid, first)
    requires Held(cfg, mid, s) <==> SameContent(cfg, first, s)
    ensures LateInsert(cfg, mid, s).problem.None? && (Deduplicated(after) <==> !SameContent(cfg, first, s))
  {
    LateInsertSucceeds(cfg, mid, s);
    if SameContent(cfg, first, s) {
      LateInsertRows(cfg, mid, s);
      TwiceHeld(mid, after, first.documentId, first.versionId, s.documentId, s.versionId, s.input.tenantId,
                cfg.lib.sha256(s.input.content));
    } else {
      LateInsertKeepsDedup(cfg, mid, s);
    }
  }

  /**
   * Two uploads that both checked before either inserted: both commit, and checksums stay unique if and only if their
   * tenants or their contents differ. No index on the checksum stops the second.
   */
  lemma InterleavedUploadsDedupIff(cfg: Config, db: Tables, s1: Step, s2: Step, mid: Tables, after: Tables)
    requires RowsOk(cfg, db) && Deduplicated(db) && PassedCheck(cfg, db, s1) && PassedCheck(cfg, db, s2)
    requires s1.documentId != s2.documentId && s1.versionId != s2.versionId && s1.jobId != s2.jobId
    requires mid == LateInsert(cfg, db, s1).db && after == LateInsert(cfg, mid, s2).db
    ensures LateInsert(cfg, db, s1).problem.None? && LateInsert(cfg, mid, s2).problem.None?
    ensures Deduplicated(after) <==> !SameContent(cfg, s1, s2)
  {
    FirstInsert(cfg, db, s1, mid);
    CheckIsStale(cfg, db, s1, mid, s2);
    SecondInsert(cfg, mid, s1, s2, after);
  }

  function UploadShortAgain(): Step { Upload(SHORT, SomeId(3), SomeId(4), SomeId(5), DAY, None) }

  /** The same small file posted twice at once to the empty service is admitted twice. */
  lemma SimultaneousUploadsAdmitted()
    ensures PassedCheck(PLAIN, EMPTY.db, UploadShort()) && PassedCheck(PLAIN, EMPTY.db, UploadShortAgain())
    ensures var first := LateInsert(PLAIN, EMPTY.db, UploadShort());
            var second := LateInsert(PLAIN, first.db, UploadShortAgain());
            first.problem.None? && second.problem.None? && !Deduplicated(second.db)
  {
    PlainAccepts();
    NothingHeld(SHORT.tenantId, PLAIN.lib.sha256(SHORT.content));
    EmptyIsGood(PLAIN);
    SomeIdsDiffer(0, 3);
    SomeIdsDiffer(1, 4);
    SomeIdsDiffer(2, 5);
    var mid := LateInsert(PLAIN, EMPTY.db, UploadShort()).db;
    InterleavedUploadsDedupIff(PLAIN, EMPTY.db, UploadShort(), UploadShortAgain(), mid,
                               LateInsert(PLAIN, mid, UploadShortAgain()).db);
  }

  // ---- after a deletion --------------------------------------------------

  /** Once the only live document with some content is deleted, the next upload of that content commits. */
  lemma ReuploadCommits(cfg: Config, w: World, gone: Step, v: Uuid, again: Step)
    requires Good(cfg, w) && Wired(cfg) && Deduplicated(w.db)
    requires gone.Delete? && gone.fuse.None? && GetDocument(w.db, gone.tenantId, gone.documentId).Some?
    requires v in w.db.versions && w.db.versions[v].documentId == gone.documentId
    requires again.Upload? && again.fuse.None? && Enabled(Next(cfg, w, gone), again)
    requires again.input.tenantId == gone.tenantId && Accepted(cfg, again.input)
    requires cfg.lib.sha256(again.input.content) == w.db.versions[v].checksum
    ensures Commits(cfg, Next(cfg, w, gone), again)
  {
    var x := Next(cfg, w, gone);
    StepKeepsGood(cfg, w, gone);
    UncutStep(cfg, w, gone, Transaction(cfg, w, gone));
    DeletedContentIsFree(cfg, w.db, gone.documentId, v, gone.at);
    UploadOutcome(cfg, x, again);
  }
}
