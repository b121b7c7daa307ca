/** Bytes saved by an operation that did not commit: no row refers to them, then or ever after. */
module Orphans {
  import opened Prelude
  import opened Keys
  import opened Store
  import opened UseCases
  import opened Invariants
  import opened OutsideKept
  import opened Protocol
  import opened Reachability
  import opened JobSteps

  // ---- which objects a step can add --------------------------------------

  lemma {:induction false} NothingSaved(o: Outside, es: seq<Effect>)
    requires forall e | e in es :: !e.Save?
    ensures PerformAll(o, es).blobs == o.blobs
    decreases |es|
  {
    if es == [] {
    } else {
      var n := |es| - 1;
      assert es[n] in es;
      NothingSaved(o, es[..n]);
    }
  }

  /** When the bytes are saved first, any prefix of the effects adds at most their key. */
  lemma CutSave(o: Outside, es: seq<Effect>, key: string, content: Bytes, n: nat)
    requires SavesFirst(es, key, content) && n <= |es|
    ensures PerformAll(o, es[..n]).blobs.Keys <= o.blobs.Keys + {key}
  {
    if n > 0 {
      OneSave(o, es[..n]);
    }
  }

  lemma UploadSaves(cfg: Config, w: World, s: Step, n: nat)
    requires s.Upload? && BlobIdsOk(w.out.blobs, w.issued) && s.versionId !in w.issued
    requires n <= |Transaction(cfg, w, s).effects|
    ensures forall key | key in PerformAll(w.out, Transaction(cfg, w, s).effects[..n]).blobs && key !in w.out.blobs ::
              VersionIdIn(key) == Some(s.versionId)
  {
    var u := s.input;
    var es := Transaction(cfg, w, s).effects;
    if es == [] {
      assert es[..n] == [];
    } else {
      var ext := ValidateUpload(cfg.upload, u.originalFilename, u.content, u.contentType).value;
      var v := NewVersion(cfg, u, ext, s.documentId, s.versionId, 1, s.at);
      RegisterEffects(cfg, w.db, NewDocument(u, ext, s.documentId, s.versionId), v, u.content, s.jobId);
      FreshKey(cfg, w.out.blobs, w.issued, u, ext, s.documentId, s.versionId, 1, s.at);
      CutSave(w.out, es, v.storagePath, u.content, n);
    }
  }

  lemma AddVersionSaves(cfg: Config, w: World, s: Step, n: nat)
    requires s.AddVersion? && BlobIdsOk(w.out.blobs, w.issued) && s.versionId !in w.issued
    requires n <= |Transaction(cfg, w, s).effects|
    ensures forall key | key in PerformAll(w.out, Transaction(cfg, w, s).effects[..n]).blobs && key !in w.out.blobs ::
              VersionIdIn(key) == Some(s.versionId)
  {
    var u := s.input;
    var es := Transaction(cfg, w, s).effects;
    if es == [] {
      assert es[..n] == [];
    } else {
      var ext := ValidateUpload(cfg.upload, u.originalFilename, u.content, u.contentType).value;
      var number := NextNumber(w.db, s.documentId);
      var v := NewVersion(cfg, u, ext, s.documentId, s.versionId, number, s.at);
      AttachEffects(w.db, w.db.docs[s.documentId], v, u.content);
      FreshKey(cfg, w.out.blobs, w.issued, u, ext, s.documentId, s.versionId, number, s.at);
      CutSave(w.out, es, v.storagePath, u.content, n);
    }
  }

  lemma OthersSaveNothing(cfg: Config, w: World, s: Step)
    requires RowsOk(cfg, w.db) && !s.Redeliver? && !s.Upload? && !s.AddVersion?
    ensures forall e | e in Transaction(cfg, w, s).effects :: !e.Save?
  {
    if s.Deliver? {
      HandleEffectsFit(cfg, w.db, w.out.blobs, w.issued, s.message, s.chance);
    }
  }

  /** Every object a step adds, committed or not, is named after the version id the step drew. */
  lemma NewObjectsAreNamed(cfg: Config, w: World, s: Step, key: string)
    requires Good(cfg, w) && Enabled(w, s)
    requires key in Next(cfg, w, s).out.blobs && key !in w.out.blobs
    ensures (s.Upload? || s.AddVersion?) && VersionIdIn(key) == Some(s.versionId)
  {
    if !s.Redeliver? {
      var tx := Transaction(cfg, w, s);
      var n := Reached(s.fuse, |tx.effects|);
      NextIs(cfg, w, s, tx);
      if s.Upload? {
        UploadSaves(cfg, w, s, n);
      } else if s.AddVersion? {
        AddVersionSaves(cfg, w, s, n);
      } else {
        OthersSaveNothing(cfg, w, s);
        assert forall e | e in tx.effects[..n] :: e in tx.effects;
        NothingSaved(w.out, tx.effects[..n]);
      }
    }
  }

  // ---- ids that never become a row ---------------------------------------

  lemma NoVersionUnderOldId(cfg: Config, w: World, s: Step, id: Uuid)
    requires RowsOk(cfg, w.db) && Enabled(w, s) && id in w.issued && id !in w.db.versions
    ensures id in Next(cfg, w, s).issued && id !in Next(cfg, w, s).db.versions
  {
    if !s.Redeliver? {
      NextIs(cfg, w, s, Transaction(cfg, w, s));
      if s.Deliver? {
        HandleGrows(cfg, w.db, w.out.blobs, s.message, s.chance);
      } else {
        RequestSummary(cfg, w, s);
      }
    }
  }

  /** A version id drawn by an operation that left no row never names a row. */
  lemma {:induction false} VersionNeverAppears(cfg: Config, w: World, steps: seq<Step>, id: Uuid)
    requires Good(cfg, w) && Wired(cfg) && Possible(cfg, w, steps) && id in w.issued && id !in w.db.versions
    ensures id !in Run(cfg, w, steps).db.versions && Good(cfg, Run(cfg, w, steps))
    decreases |steps|
  {
    if steps == [] {
    } else {
      NoVersionUnderOldId(cfg, w, steps[0], id);
      StepKeepsGood(cfg, w, steps[0]);
      VersionNeverAppears(cfg, Next(cfg, w, steps[0]), steps[1..], id);
    }
  }

  /**
   * Whatever an operation that does not commit has added to storage, no version row refers to it: not in the state it
   * leaves, and not after any further run.
   */
  lemma LeftoversStayUnreferenced(cfg: Config, w: World, s: Step, steps: seq<Step>, key: string, v: Uuid)
    requires Good(cfg, w) && Wired(cfg) && Enabled(w, s) && !s.Redeliver? && !Commits(cfg, w, s)
    requires key in Next(cfg, w, s).out.blobs && key !in w.out.blobs
    requires Possible(cfg, Next(cfg, w, s), steps) && v in Run(cfg, Next(cfg, w, s), steps).db.versions
    ensures Next(cfg, w, s).db == w.db
    ensures Run(cfg, Next(cfg, w, s), steps).db.versions[v].storagePath != key
  {
    var x := Next(cfg, w, s);
    NewObjectsAreNamed(cfg, w, s, key);
    NextIs(cfg, w, s, Transaction(cfg, w, s));
    StepKeepsGood(cfg, w, s);
    assert s.versionId in Drawn(s);
    VersionNeverAppears(cfg, x, steps, s.versionId);
    assert PathNamed(Run(cfg, x, steps).db.versions, v);
  }
}
