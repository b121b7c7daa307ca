/** Documents over whole runs: bytes that stay faithful, paths that never collide, checksums that stay unique. */
module Catalogue {
  import opened Prelude
  import opened Jobs
  import opened Store
  import opened UseCases
  import opened Invariants
  import opened OutsideKept
  import opened Protocol
  import opened Reachability
  import opened JobSteps

  // ---- stored bytes ------------------------------------------------------

  /** No step, committed or cut short, changes a version row or an object already stored. */
  lemma StepKeepsBytes(cfg: Config, w: World, s: Step)
    requires Good(cfg, w) && Enabled(w, s)
    ensures Grows(w.db, Next(cfg, w, s).db) && BytesStay(w.out.blobs, Next(cfg, w, s).out.blobs)
  {
    if !s.Redeliver? {
      StepGrows(cfg, w, s);
      NextIs(cfg, w, s, Transaction(cfg, w, s));
      CutStepKeepsOutside(cfg, w, s, Reached(s.fuse, |Transaction(cfg, w, s).effects|));
    }
  }

  lemma StepGrows(cfg: Config, w: World, s: Step)
    requires RowsOk(cfg, w.db) && !s.Redeliver?
    ensures Grows(w.db, Transaction(cfg, w, s).db)
  {
    if s.Deliver? {
      HandleGrows(cfg, w.db, w.out.blobs, s.message, s.chance);
    } else {
      RequestSummary(cfg, w, s);
    }
  }

  lemma {:induction false} RunsKeepBytes(cfg: Config, w: World, steps: seq<Step>)
    requires Good(cfg, w) && Wired(cfg) && Possible(cfg, w, steps)
    ensures Grows(w.db, Run(cfg, w, steps).db) && BytesStay(w.out.blobs, Run(cfg, w, steps).out.blobs)
    ensures Good(cfg, Run(cfg, w, steps))
    decreases |steps|
  {
    if steps == [] {
    } else {
      StepKeepsBytes(cfg, w, steps[0]);
      StepKeepsGood(cfg, w, steps[0]);
      RunsKeepBytes(cfg, Next(cfg, w, steps[0]), steps[1..]);
    }
  }

  /** A version ever committed keeps its row, and its bytes load back unchanged with the recorded size and checksum. */
  lemma VersionIsForever(cfg: Config, w: World, steps: seq<Step>, v: Uuid)
    requires Good(cfg, w) && Wired(cfg) && Possible(cfg, w, steps) && v in w.db.versions
    ensures var x := Run(cfg, w, steps);
            var row := w.db.versions[v];
            && v in x.db.versions && x.db.versions[v] == row
            && row.storagePath in w.out.blobs && row.storagePath in x.out.blobs
            && x.out.blobs[row.storagePath] == w.out.blobs[row.storagePath]
            && |x.out.blobs[row.storagePath]| == row.size
            && cfg.lib.sha256(x.out.blobs[row.storagePath]) == row.checksum
  {
    RunsKeepBytes(cfg, w, steps);
    assert StoredAs(cfg.lib, w.db.versions[v], w.out.blobs);
  }

  lemma PathsAreDistinct(cfg: Config, db: Tables, v: Uuid, u: Uuid)
    requires RowsOk(cfg, db) && v in db.versions && u in db.versions && v != u
    ensures db.versions[v].storagePath != db.versions[u].storagePath
  {
    assert PathNamed(db.versions, v) && PathNamed(db.versions, u);
  }

  // ---- checksums ---------------------------------------------------------

  predicate LiveIn(db: Tables, d: Uuid) {
    d in db.docs && db.docs[d].deletedAt.None?
  }

  /** Two version rows of live documents of one tenant with the same checksum. */
  predicate Twins(db: Tables, v: Uuid, u: Uuid) {
    && v in db.versions && u in db.versions && db.versions[v].checksum == db.versions[u].checksum
    && LiveIn(db, db.versions[v].documentId) && LiveIn(db, db.versions[u].documentId)
    && db.docs[db.versions[v].documentId].tenantId == db.docs[db.versions[u].documentId].tenantId
  }

  /** At most one live document per tenant holds a given checksum. */
  ghost predicate Deduplicated(db: Tables) {
    forall v, u {:trigger Twins(db, v, u)} :: Twins(db, v, u) ==> db.versions[v].documentId == db.versions[u].documentId
  }

  lemma FewerLiveKeepsDedup(db: Tables, after: Tables)
    requires Deduplicated(db) && after.versions == db.versions
    requires forall d | LiveIn(after, d) :: LiveIn(db, d) && after.docs[d].tenantId == db.docs[d].tenantId
    ensures Deduplicated(after)
  {
    forall v, u | Twins(after, v, u)
      ensures db.versions[v].documentId == db.versions[u].documentId
    {
      assert LiveIn(after, db.versions[v].documentId) && LiveIn(after, db.versions[u].documentId);
      assert Twins(db, v, u);
    }
  }

  lemma RegisterKeepsDedup(cfg: Config, db: Tables, d: Document, v: Version, content: Bytes, jobId: Uuid)
    requires Deduplicated(db) && VersionRefs(db.docs, db.versions) && v.documentId == d.id
    requires !HoldsChecksum(db, d.tenantId, v.checksum)
    ensures Deduplicated(RegisterTx(cfg, db, d, v, content, jobId).db)
  {
    var after := RegisterTx(cfg, db, d, v, content, jobId).db;
    if d.id !in db.docs && VersionFits(db, v) {
      forall a, b | Twins(after, a, b)
        ensures after.versions[a].documentId == after.versions[b].documentId
      {
        if a != v.id && b != v.id {
          assert Twins(db, a, b);
        } else if a != v.id {
          assert Holder(db, d.tenantId, v.checksum, a);
        } else if b != v.id {
          assert Holder(db, d.tenantId, v.checksum, b);
        }
      }
    }
  }

  /** All live holders of the checksum in the tenant are versions of this document. */
  ghost predicate HeldOnlyBy(db: Tables, tenantId: string, checksum: string, d: Uuid) {
    forall h | h in db.versions && Holder(db, tenantId, checksum, h) :: db.versions[h].documentId == d
  }

  /** Attaching a version keeps checksums unique exactly when no other live document of the tenant holds its checksum. */
  lemma AttachKeepsDedupIff(db: Tables, d: Document, v: Version, content: Bytes)
    requires Deduplicated(db) && VersionRefs(db.docs, db.versions)
    requires d.id in db.docs && db.docs[d.id] == d && d.deletedAt.None? && v.documentId == d.id && VersionFits(db, v)
    ensures Deduplicated(AttachTx(db, d, v, content).db) <==> HeldOnlyBy(db, d.tenantId, v.checksum, d.id)
  {
    var after := AttachTx(db, d, v, content).db;
    assert forall h | h in db.versions :: after.versions[h] == db.versions[h];
    if Deduplicated(after) {
      forall h | h in db.versions && Holder(db, d.tenantId, v.checksum, h)
        ensures db.versions[h].documentId == d.id
      {
        assert Twins(after, h, v.id);
      }
    }
    if HeldOnlyBy(db, d.tenantId, v.checksum, d.id) {
      forall a, b | Twins(after, a, b)
        ensures after.versions[a].documentId == after.versions[b].documentId
      {
        if a != v.id && b != v.id {
          assert Twins(db, a, b);
        } else if a != v.id {
          assert Holder(db, d.tenantId, v.checksum, a);
        } else if b != v.id {
          assert Holder(db, d.tenantId, v.checksum, b);
        }
      }
    }
  }

  lemma UploadKeepsDedup(cfg: Config, db: Tables, u: UploadInput, d: Uuid, v: Uuid, j: Uuid, at: Instant)
    requires Deduplicated(db) && VersionRefs(db.docs, db.versions)
    ensures Deduplicated(UploadTx(cfg, db, u, d, v, j, at).db)
  {
    var checked := ValidateUpload(cfg.upload, u.originalFilename, u.content, u.contentType);
    if checked.Success? && !HoldsChecksum(db, u.tenantId, cfg.lib.sha256(u.content)) {
      RegisterKeepsDedup(cfg, db, NewDocument(u, checked.value, d, v), NewVersion(cfg, u, checked.value, d, v, 1, at),
                         u.content, j);
    }
  }

  /** Rewriting a document never makes it live again. */
  lemma SaveDocumentKeepsDedup(db: Tables, d: Document)
    requires Deduplicated(db) && (d.id in db.docs ==> db.docs[d.id].deletedAt.None?)
    ensures Deduplicated(SaveDocument(db, d))
  {
    FewerLiveKeepsDedup(db, SaveDocument(db, d));
  }

  lemma UpdateKeepsDedup(db: Tables, tenantId: string, d: Uuid, c: Changes)
    requires Deduplicated(db) && DocKeys(db.docs)
    ensures Deduplicated(UpdateMetadataTx(db, tenantId, d, c).db)
  {
    if GetDocument(db, tenantId, d).Some? {
      SaveDocumentKeepsDedup(db, Changed(db.docs[d], c));
    }
  }

  lemma DeliveryKeepsDedup(cfg: Config, db: Tables, blobs: map<string, Bytes>, m: Message, c: Chance)
    requires RowsOk(cfg, db) && Deduplicated(db)
    ensures Deduplicated(HandleTx(cfg, db, blobs, m, c).db)
  {
    if Runnable(db, m) {
      AttemptSummary(cfg, db, blobs, m, c);
      FewerLiveKeepsDedup(db, HandleTx(cfg, db, blobs, m, c).db);
    }
  }

  lemma StepKeepsDedup(cfg: Config, w: World, s: Step)
    requires RowsOk(cfg, w.db) && Deduplicated(w.db) && !s.AddVersion? && !s.Redeliver?
    ensures Deduplicated(Transaction(cfg, w, s).db)
  {
    match s
    case CreateJob(_, _, _) => FewerLiveKeepsDedup(w.db, Transaction(cfg, w, s).db);
    case Upload(u, d, v, j, at, _) => UploadKeepsDedup(cfg, w.db, u, d, v, j, at);
    case Delete(tenantId, d, at, _) =>
      if GetDocument(w.db, tenantId, d).Some? {
        SaveDocumentKeepsDedup(w.db, w.db.docs[d].(status := Deleted, deletedAt := Some(at)));
      }
    case UpdateMetadata(tenantId, d, changes, _) => UpdateKeepsDedup(w.db, tenantId, d, changes);
    case Deliver(m, c, _) => DeliveryKeepsDedup(cfg, w.db, w.out.blobs, m, c);
  }

  predicate NoAddVersion(steps: seq<Step>) {
    forall i | 0 <= i < |steps| :: !steps[i].AddVersion?
  }

  /** Over every run of uploads, deletions, updates and processing, checksums stay unique among live documents. */
  lemma {:induction false} RunsKeepDedup(cfg: Config, w: World, steps: seq<Step>)
    requires Good(cfg, w) && Wired(cfg) && Possible(cfg, w, steps) && NoAddVersion(steps) && Deduplicated(w.db)
    ensures Deduplicated(Run(cfg, w, steps).db)
    decreases |steps|
  {
    if steps == [] {
    } else {
      if !steps[0].Redeliver? { StepKeepsDedup(cfg, w, steps[0]); }
      StepKeepsGood(cfg, w, steps[0]);
      RunsKeepDedup(cfg, Next(cfg, w, steps[0]), steps[1..]);
    }
  }

  /** A version with this content of a live document of the tenant. */
  predicate IsCopy(db: Tables, v: Uuid, tenantId: string, checksum: string) {
    && v in db.versions && db.versions[v].checksum == checksum && LiveIn(db, db.versions[v].documentId)
    && db.docs[db.versions[v].documentId].tenantId == tenantId
  }

  lemma CopyIsHolder(db: Tables, tenantId: string, checksum: string)
    ensures HoldsChecksum(db, tenantId, checksum) <==> exists v :: IsCopy(db, v, tenantId, checksum)
  {
    if v :| v in db.versions && Holder(db, tenantId, checksum, v) {
      assert IsCopy(db, v, tenantId, checksum);
    }
    if v :| IsCopy(db, v, tenantId, checksum) {
      assert Holder(db, tenantId, checksum, v);
    }
  }

  /** An upload can be refused for its file or its checksum only: the job-conflict branch is unreachable from here. */
  lemma UploadOutcome(cfg: Config, w: World, s: Step)
    requires Good(cfg, w) && Enabled(w, s) && s.Upload?
    ensures var u := s.input;
            Transaction(cfg, w, s).problem ==
              if ValidateUpload(cfg.upload, u.originalFilename, u.content, u.contentType).Failure? then Some(Invalid)
              else if exists v :: IsCopy(w.db, v, u.tenantId, cfg.lib.sha256(u.content)) then Some(Conflict)
              else None
  {
    CopyIsHolder(w.db, s.input.tenantId, cfg.lib.sha256(s.input.content));
    var u := s.input;
    var checked := ValidateUpload(cfg.upload, u.originalFilename, u.content, u.contentType);
    if checked.Success? && !HoldsChecksum(w.db, u.tenantId, cfg.lib.sha256(u.content)) {
      RegisterSucceeds(cfg, w.db, NewDocument(u, checked.value, s.documentId, s.versionId),
                       NewVersion(cfg, u, checked.value, s.documentId, s.versionId, 1, s.at), u.content, s.jobId);
    }
  }

  lemma RegisterSucceeds(cfg: Config, db: Tables, d: Document, v: Version, content: Bytes, jobId: Uuid)
    requires RowsOk(cfg, db) && d.id !in db.docs && v.id !in db.versions && jobId !in db.jobs && v.documentId == d.id
    ensures RegisterTx(cfg, db, d, v, content, jobId).problem.None?
  {
    assert v.number !in Numbers(db, d.id);
    var db1 := db.(docs := db.docs[d.id := d], versions := db.versions[v.id := v]);
    assert !SlotTaken(db1, d.id, DocumentIngestion);
  }

  /** Once the only live holder of a checksum is deleted, its content can be uploaded again. */
  lemma DeletedContentIsFree(cfg: Config, db: Tables, d: Uuid, v: Uuid, at: Instant)
    requires RowsOk(cfg, db) && Deduplicated(db) && LiveIn(db, d)
    requires v in db.versions && db.versions[v].documentId == d
    ensures !HoldsChecksum(DeleteTx(db, db.docs[d].tenantId, d, at).db, db.docs[d].tenantId, db.versions[v].checksum)
  {
    var after := DeleteTx(db, db.docs[d].tenantId, d, at).db;
    forall h | h in after.versions
      ensures !Holder(after, db.docs[d].tenantId, db.versions[v].checksum, h)
    {
      if Holder(after, db.docs[d].tenantId, db.versions[v].checksum, h) {
        assert Twins(db, h, v);
      }
    }
  }
}
