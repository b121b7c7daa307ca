/** Every reachable state of the service is good, whatever the interleaving of steps, faults and rollbacks. */
module Reachability {
  import opened Prelude
  import opened Keys
  import opened Store
  import opened UseCases
  import opened Executor
  import opened Invariants
  import opened RowsKept
  import opened OutsideKept
  import opened Protocol

  /** The registry of app/workers/composition.py: the pipeline serves ingestion jobs, and only those. */
  predicate Wired(cfg: Config) {
    Standard(cfg) && IngestsOnlyIngestions(cfg)
  }

  /** A step in terms of its transaction: what is committed, and which effects were reached. */
  lemma NextIs(cfg: Config, w: World, s: Step, tx: Tx)
    requires !s.Redeliver? && tx == Transaction(cfg, w, s)
    ensures var n := |tx.effects|;
            var done := tx.problem.None? && Survives(s.fuse, n);
            var after := World(if done then tx.db else w.db, PerformAll(w.out, tx.effects[..Reached(s.fuse, n)]),
                               w.issued + Drawn(s));
            Next(cfg, w, s) == if s.Deliver? && done then Acknowledged(after, s.message) else after
  {
  }

  lemma UncutStep(cfg: Config, w: World, s: Step, tx: Tx)
    requires !s.Redeliver? && s.fuse.None? && tx == Transaction(cfg, w, s)
    ensures var x := Next(cfg, w, s);
            && x.db == (if tx.problem.None? then tx.db else w.db)
            && x.out.events == PerformAll(w.out, tx.effects).events
            && (!s.Deliver? ==> x.out == PerformAll(w.out, tx.effects))
            && (s.Deliver? && tx.problem.None? ==>
                  x.out == PerformAll(w.out, tx.effects).(
                    messages := PerformAll(w.out, tx.effects).messages - multiset{s.message}))
  {
    NextIs(cfg, w, s, tx);
    assert tx.effects[..|tx.effects|] == tx.effects;
  }

  lemma UploadKeepsRows(cfg: Config, db: Tables, u: UploadInput, d: Uuid, v: Uuid, j: Uuid, at: Instant)
    requires RowsOk(cfg, db)
    ensures RowsOk(cfg, UploadTx(cfg, db, u, d, v, j, at).db)
  {
    var checked := ValidateUpload(cfg.upload, u.originalFilename, u.content, u.contentType);
    if checked.Success? {
      AcceptedKeyNames(u.tenantId, d, v, checked.value, at);
      RegisterKeepsRows(cfg, db, NewDocument(u, checked.value, d, v), NewVersion(cfg, u, checked.value, d, v, 1, at),
                        u.content, j);
    }
  }

  lemma AddVersionKeepsRows(cfg: Config, db: Tables, u: UploadInput, d: Uuid, v: Uuid, at: Instant)
    requires RowsOk(cfg, db)
    ensures RowsOk(cfg, AddVersionTx(cfg, db, u, d, v, at).db)
  {
    var checked := ValidateUpload(cfg.upload, u.originalFilename, u.content, u.contentType);
    if checked.Success? && GetDocument(db, u.tenantId, d).Some? {
      AcceptedKeyNames(u.tenantId, d, v, checked.value, at);
      AttachKeepsRows(cfg, db, db.docs[d], NewVersion(cfg, u, checked.value, d, v, NextNumber(db, d), at), u.content);
    }
  }

  lemma StepKeepsRows(cfg: Config, w: World, s: Step)
    requires RowsOk(cfg, w.db) && Wired(cfg) && !s.Redeliver?
    ensures RowsOk(cfg, Transaction(cfg, w, s).db)
  {
    match s
    case CreateJob(request, jobId, _) => CreateJobKeepsRows(cfg, w.db, request, jobId);
    case Upload(u, d, v, j, at, _) => UploadKeepsRows(cfg, w.db, u, d, v, j, at);
    case AddVersion(u, d, v, at, _) => AddVersionKeepsRows(cfg, w.db, u, d, v, at);
    case Delete(tenantId, d, at, _) => DeleteKeepsRows(cfg, w.db, tenantId, d, at);
    case UpdateMetadata(tenantId, d, changes, _) => UpdateMetadataKeepsRows(cfg, w.db, tenantId, d, changes);
    case Deliver(m, c, _) => HandleKeepsRows(cfg, w.db, w.out.blobs, m, c);
  }

  predicate Within(db: Tables, ids: set<Uuid>) {
    db.docs.Keys <= ids && db.versions.Keys <= ids && db.jobs.Keys <= ids
  }

  lemma RegisterWithin(cfg: Config, db: Tables, ids: set<Uuid>, d: Document, v: Version, content: Bytes, j: Uuid)
    requires Within(db, ids) && d.id in ids && v.id in ids && j in ids
    ensures Within(RegisterTx(cfg, db, d, v, content, j).db, ids)
  {
  }

  lemma AttachWithin(db: Tables, ids: set<Uuid>, d: Document, v: Version, content: Bytes)
    requires Within(db, ids) && v.id in ids
    ensures Within(AttachTx(db, d, v, content).db, ids)
  {
  }

  lemma SaveDocumentWithin(db: Tables, ids: set<Uuid>, d: Document)
    requires Within(db, ids)
    ensures Within(SaveDocument(db, d), ids)
  {
  }

  lemma HandleWithin(cfg: Config, db: Tables, ids: set<Uuid>, blobs: map<string, Bytes>, m: Message, c: Chance)
    requires Within(db, ids) && RowsOk(cfg, db)
    ensures Within(HandleTx(cfg, db, blobs, m, c).db, ids)
  {
    if Runnable(db, m) {
      RowsPointers(db);
      ExecuteOutcome(cfg, db, blobs, db.jobs[m.jobId], c);
      WorkerPartOutcome(cfg, db, blobs, db.jobs[m.jobId], c);
    }
  }

  lemma UploadWithin(cfg: Config, db: Tables, ids: set<Uuid>, u: UploadInput, d: Uuid, v: Uuid, j: Uuid, at: Instant)
    requires Within(db, ids) && d in ids && v in ids && j in ids
    ensures Within(UploadTx(cfg, db, u, d, v, j, at).db, ids)
  {
    var checked := ValidateUpload(cfg.upload, u.originalFilename, u.content, u.contentType);
    if checked.Success? {
      RegisterWithin(cfg, db, ids, NewDocument(u, checked.value, d, v), NewVersion(cfg, u, checked.value, d, v, 1, at),
                     u.content, j);
    }
  }

  lemma AddVersionWithin(cfg: Config, db: Tables, ids: set<Uuid>, u: UploadInput, d: Uuid, v: Uuid, at: Instant)
    requires Within(db, ids) && v in ids
    ensures Within(AddVersionTx(cfg, db, u, d, v, at).db, ids)
  {
    var checked := ValidateUpload(cfg.upload, u.originalFilename, u.content, u.contentType);
    if checked.Success? && GetDocument(db, u.tenantId, d).Some? {
      AttachWithin(db, ids, db.docs[d], NewVersion(cfg, u, checked.value, d, v, NextNumber(db, d), at), u.content);
    }
  }

  /** Rows are only ever inserted under ids the step itself drew. */
  lemma StepDrawsIds(cfg: Config, w: World, s: Step)
    requires Within(w.db, w.issued) && RowsOk(cfg, w.db) && !s.Redeliver?
    ensures Within(Transaction(cfg, w, s).db, w.issued + Drawn(s))
  {
    var ids := w.issued + Drawn(s);
    assert Within(w.db, ids);
    match s
    case CreateJob(_, _, _) =>
    case Upload(u, d, v, j, at, _) => UploadWithin(cfg, w.db, ids, u, d, v, j, at);
    case AddVersion(u, d, v, at, _) => AddVersionWithin(cfg, w.db, ids, u, d, v, at);
    case Delete(_, d, at, _) =>
      if d in w.db.docs { SaveDocumentWithin(w.db, ids, w.db.docs[d].(status := Deleted, deletedAt := Some(at))); }
    case UpdateMetadata(_, _, _, _) => UpdateWithin(w.db, ids, s);
    case Deliver(m, c, _) => HandleWithin(cfg, w.db, ids, w.out.blobs, m, c);
  }

  lemma UpdateWithin(db: Tables, ids: set<Uuid>, s: Step)
    requires s.UpdateMetadata? && Within(db, ids)
    ensures Within(UpdateMetadataTx(db, s.tenantId, s.documentId, s.changes).db, ids)
  {
  }

  predicate Announces(es: seq<Effect>) {
    forall i | 0 <= i < |es| :: es[i].Publish? || es[i].Enqueue?
  }

  /** Creations, deletions and updates only publish and enqueue. */
  lemma QuietEffects(cfg: Config, w: World, s: Step)
    requires s.CreateJob? || s.Delete? || s.UpdateMetadata?
    ensures Announces(Transaction(cfg, w, s).effects)
  {
  }

  lemma CutAnnouncements(cfg: Config, w: World, es: seq<Effect>, issued: set<Uuid>, n: nat)
    requires OutsideOk(cfg, w.db, w.out, issued) && Announces(es) && n <= |es|
    ensures OutsideOk(cfg, w.db, PerformAll(w.out, es[..n]), issued)
    ensures BytesStay(w.out.blobs, PerformAll(w.out, es[..n]).blobs)
  {
    EffectsKeepOutside(cfg, w.db, w.out, issued, es[..n]);
  }

  /** Any prefix of a step's effects is harmless while the rows stay as they were. */
  lemma CutStepKeepsOutside(cfg: Config, w: World, s: Step, n: nat)
    requires Good(cfg, w) && Enabled(w, s) && !s.Redeliver?
    requires n <= |Transaction(cfg, w, s).effects|
    ensures OutsideOk(cfg, w.db, PerformAll(w.out, Transaction(cfg, w, s).effects[..n]), w.issued + Drawn(s))
    ensures BytesStay(w.out.blobs, PerformAll(w.out, Transaction(cfg, w, s).effects[..n]).blobs)
  {
    var issued := w.issued + Drawn(s);
    MoreIssued(cfg, w.db, w.out, w.issued, Drawn(s));
    match s
    case Upload(u, d, v, j, at, _) => CutUpload(cfg, w, u, d, v, j, at, issued, n);
    case AddVersion(u, d, v, at, _) => CutAddVersion(cfg, w, u, d, v, at, issued, n);
    case Deliver(m, c, _) => CutDelivery(cfg, w, m, c, issued, n);
    case CreateJob(_, _, _) =>
      QuietEffects(cfg, w, s);
      CutAnnouncements(cfg, w, Transaction(cfg, w, s).effects, issued, n);
    case Delete(_, _, _, _) =>
      QuietEffects(cfg, w, s);
      CutAnnouncements(cfg, w, Transaction(cfg, w, s).effects, issued, n);
    case UpdateMetadata(_, _, _, _) =>
      QuietEffects(cfg, w, s);
      CutAnnouncements(cfg, w, Transaction(cfg, w, s).effects, issued, n);
  }

  lemma CutDelivery(cfg: Config, w: World, m: Message, c: Chance, issued: set<Uuid>, n: nat)
    requires RowsOk(cfg, w.db) && OutsideOk(cfg, w.db, w.out, issued)
    requires n <= |HandleTx(cfg, w.db, w.out.blobs, m, c).effects|
    ensures OutsideOk(cfg, w.db, PerformAll(w.out, HandleTx(cfg, w.db, w.out.blobs, m, c).effects[..n]), issued)
    ensures BytesStay(w.out.blobs, PerformAll(w.out, HandleTx(cfg, w.db, w.out.blobs, m, c).effects[..n]).blobs)
  {
    var all := HandleTx(cfg, w.db, w.out.blobs, m, c).effects;
    HandleEffectsFit(cfg, w.db, w.out.blobs, issued, m, c);
    forall i | 0 <= i < n
      ensures !all[..n][i].Save? && Fits(cfg, w.db, w.out.blobs, issued, all[..n][i])
    {
      assert all[i] in all;
    }
    EffectsKeepOutside(cfg, w.db, w.out, issued, all[..n]);
  }

  lemma CutUpload(cfg: Config, w: World, u: UploadInput, d: Uuid, v: Uuid, j: Uuid, at: Instant, issued: set<Uuid>, n: nat)
    requires OutsideOk(cfg, w.db, w.out, w.issued) && OutsideOk(cfg, w.db, w.out, issued)
    requires v !in w.issued && v in issued
    requires n <= |UploadTx(cfg, w.db, u, d, v, j, at).effects|
    ensures OutsideOk(cfg, w.db, PerformAll(w.out, UploadTx(cfg, w.db, u, d, v, j, at).effects[..n]), issued)
    ensures BytesStay(w.out.blobs, PerformAll(w.out, UploadTx(cfg, w.db, u, d, v, j, at).effects[..n]).blobs)
  {
    var es := UploadTx(cfg, w.db, u, d, v, j, at).effects;
    if es != [] {
      var ext := ValidateUpload(cfg.upload, u.originalFilename, u.content, u.contentType).value;
      var version := NewVersion(cfg, u, ext, d, v, 1, at);
      FreshKey(cfg, w.out.blobs, w.issued, u, ext, d, v, 1, at);
      RegisterEffects(cfg, w.db, NewDocument(u, ext, d, v), version, u.content, j);
      CutSaves(cfg, w.db, w.out, issued, es, version.storagePath, u.content, n);
    } else {
      assert es[..n] == [];
    }
  }

  lemma CutAddVersion(cfg: Config, w: World, u: UploadInput, d: Uuid, v: Uuid, at: Instant, issued: set<Uuid>, n: nat)
    requires OutsideOk(cfg, w.db, w.out, w.issued) && OutsideOk(cfg, w.db, w.out, issued)
    requires v !in w.issued && v in issued
    requires n <= |AddVersionTx(cfg, w.db, u, d, v, at).effects|
    ensures OutsideOk(cfg, w.db, PerformAll(w.out, AddVersionTx(cfg, w.db, u, d, v, at).effects[..n]), issued)
    ensures BytesStay(w.out.blobs, PerformAll(w.out, AddVersionTx(cfg, w.db, u, d, v, at).effects[..n]).blobs)
  {
    var es := AddVersionTx(cfg, w.db, u, d, v, at).effects;
    if es != [] {
      var ext := ValidateUpload(cfg.upload, u.originalFilename, u.content, u.contentType).value;
      var version := NewVersion(cfg, u, ext, d, v, NextNumber(w.db, d), at);
      FreshKey(cfg, w.out.blobs, w.issued, u, ext, d, v, NextNumber(w.db, d), at);
      AttachEffects(w.db, w.db.docs[d], version, u.content);
      CutSaves(cfg, w.db, w.out, issued, es, version.storagePath, u.content, n);
    } else {
      assert es[..n] == [];
    }
  }

  lemma CutSaves(cfg: Config, db: Tables, o: Outside, issued: set<Uuid>, es: seq<Effect>, key: string, content: Bytes, n: nat)
    requires OutsideOk(cfg, db, o, issued) && n <= |es|
    requires SavesFirst(es, key, content) && Named(key, issued) && key !in o.blobs
    ensures OutsideOk(cfg, db, PerformAll(o, es[..n]), issued)
    ensures BytesStay(o.blobs, PerformAll(o, es[..n]).blobs)
  {
    SavesFirstFits(cfg, db, o, issued, es[..n], key, content);
  }

  lemma CommittedUpload(cfg: Config, w: World, u: UploadInput, d: Uuid, v: Uuid, j: Uuid, at: Instant, issued: set<Uuid>)
    requires OutsideOk(cfg, w.db, w.out, w.issued) && OutsideOk(cfg, w.db, w.out, issued)
    requires v !in w.issued && v in issued && UploadTx(cfg, w.db, u, d, v, j, at).problem.None?
    ensures var tx := UploadTx(cfg, w.db, u, d, v, j, at);
            OutsideOk(cfg, tx.db, PerformAll(w.out, tx.effects), issued)
  {
    var ext := ValidateUpload(cfg.upload, u.originalFilename, u.content, u.contentType).value;
    FreshKey(cfg, w.out.blobs, w.issued, u, ext, d, v, 1, at);
    RegisterCommits(cfg, w.db, w.out, issued, NewDocument(u, ext, d, v), NewVersion(cfg, u, ext, d, v, 1, at), u.content, j);
  }

  lemma CommittedAddVersion(cfg: Config, w: World, u: UploadInput, d: Uuid, v: Uuid, at: Instant, issued: set<Uuid>)
    requires KeysOk(w.db) && OutsideOk(cfg, w.db, w.out, w.issued) && OutsideOk(cfg, w.db, w.out, issued)
    requires v !in w.issued && v in issued && AddVersionTx(cfg, w.db, u, d, v, at).problem.None?
    ensures var tx := AddVersionTx(cfg, w.db, u, d, v, at);
            OutsideOk(cfg, tx.db, PerformAll(w.out, tx.effects), issued)
  {
    var ext := ValidateUpload(cfg.upload, u.originalFilename, u.content, u.contentType).value;
    var number := NextNumber(w.db, d);
    FreshKey(cfg, w.out.blobs, w.issued, u, ext, d, v, number, at);
    AttachCommits(cfg, w.db, w.out, issued, w.db.docs[d], NewVersion(cfg, u, ext, d, v, number, at), u.content);
  }

  lemma CommittedDelete(cfg: Config, w: World, tenantId: string, d: Uuid, at: Instant, issued: set<Uuid>)
    requires OutsideOk(cfg, w.db, w.out, issued) && DeleteTx(w.db, tenantId, d, at).problem.None?
    ensures var tx := DeleteTx(w.db, tenantId, d, at);
            OutsideOk(cfg, tx.db, PerformAll(w.out, tx.effects), issued)
  {
    DocumentCommit(cfg, w.db, w.out, issued, w.db.docs[d].(status := Deleted, deletedAt := Some(at)),
                   DocumentDeleted(d, tenantId));
  }

  lemma CommittedUpdate(cfg: Config, w: World, tenantId: string, d: Uuid, c: Changes, issued: set<Uuid>)
    requires OutsideOk(cfg, w.db, w.out, issued) && UpdateMetadataTx(w.db, tenantId, d, c).problem.None?
    ensures var tx := UpdateMetadataTx(w.db, tenantId, d, c);
            OutsideOk(cfg, tx.db, PerformAll(w.out, tx.effects), issued)
  {
    var after := Changed(w.db.docs[d], c);
    DocumentCommit(cfg, w.db, w.out, issued, after, MetadataUpdated(d, tenantId, after.metadata));
  }

  /** A committed request carries the agreement over to the new rows. */
  lemma CommittedRequestKeepsOutside(cfg: Config, w: World, s: Step, issued: set<Uuid>)
    requires Good(cfg, w) && Enabled(w, s) && !s.Redeliver? && !s.Deliver? && Transaction(cfg, w, s).problem.None?
    requires OutsideOk(cfg, w.db, w.out, issued) && issued == w.issued + Drawn(s)
    ensures var tx := Transaction(cfg, w, s);
            OutsideOk(cfg, tx.db, PerformAll(w.out, tx.effects), issued)
  {
    match s
    case CreateJob(request, jobId, _) => CreateJobCommits(cfg, w.db, w.out, issued, request, jobId);
    case Upload(u, d, v, j, at, _) => CommittedUpload(cfg, w, u, d, v, j, at, issued);
    case AddVersion(u, d, v, at, _) => CommittedAddVersion(cfg, w, u, d, v, at, issued);
    case Delete(tenantId, d, at, _) => CommittedDelete(cfg, w, tenantId, d, at, issued);
    case UpdateMetadata(tenantId, d, changes, _) => CommittedUpdate(cfg, w, tenantId, d, changes, issued);
  }

  /** A committed step carries the agreement over to the new rows. */
  lemma CommittedStepKeepsOutside(cfg: Config, w: World, s: Step)
    requires Good(cfg, w) && Enabled(w, s) && !s.Redeliver? && Transaction(cfg, w, s).problem.None?
    ensures var tx := Transaction(cfg, w, s);
            var p := PerformAll(w.out, tx.effects);
            OutsideOk(cfg, tx.db, if s.Deliver? then p.(messages := p.messages - multiset{s.message}) else p,
                      w.issued + Drawn(s))
  {
    MoreIssued(cfg, w.db, w.out, w.issued, Drawn(s));
    if s.Deliver? {
      HandleCommits(cfg, w.db, w.out, w.issued + Drawn(s), s.message, s.chance);
    } else {
      CommittedRequestKeepsOutside(cfg, w, s, w.issued + Drawn(s));
    }
  }

  /** Rewriting one document row, with one announcement. */
  lemma DocumentCommit(cfg: Config, db: Tables, o: Outside, issued: set<Uuid>, d: Document, e: Event)
    requires OutsideOk(cfg, db, o, issued)
    ensures OutsideOk(cfg, SaveDocument(db, d), PerformAll(o, [Publish(e)]), issued)
  {
    PerformSingle(o, Publish(e));
    EffectKeepsOutside(cfg, db, o, issued, Publish(e));
    var p := Perform(o, Publish(e));
    AfterDelivery(cfg, db, SaveDocument(db, d), p, p.messages, issued);
  }

  lemma RedeliveryKeepsGood(cfg: Config, w: World, s: Step)
    requires Good(cfg, w) && s.Redeliver?
    ensures Good(cfg, Next(cfg, w, s))
  {
    AfterDelivery(cfg, w.db, w.db, w.out, w.out.messages + multiset{s.message}, w.issued);
  }

  lemma CutStepKeepsGood(cfg: Config, w: World, s: Step)
    requires Good(cfg, w) && Enabled(w, s) && !s.Redeliver? && !Commits(cfg, w, s)
    ensures Good(cfg, Next(cfg, w, s))
  {
    CutStepKeepsOutside(cfg, w, s, Reached(s.fuse, |Transaction(cfg, w, s).effects|));
  }

  lemma CommittedStepKeepsGood(cfg: Config, w: World, s: Step)
    requires Good(cfg, w) && Wired(cfg) && Enabled(w, s) && !s.Redeliver? && Commits(cfg, w, s)
    ensures Good(cfg, Next(cfg, w, s))
  {
    var tx := Transaction(cfg, w, s);
    StepKeepsRows(cfg, w, s);
    StepDrawsIds(cfg, w, s);
    CommittedStepKeepsOutside(cfg, w, s);
    assert tx.effects[..|tx.effects|] == tx.effects;
  }

  lemma StepKeepsGood(cfg: Config, w: World, s: Step)
    requires Good(cfg, w) && Wired(cfg) && Enabled(w, s)
    ensures Good(cfg, Next(cfg, w, s))
  {
    if s.Redeliver? {
      RedeliveryKeepsGood(cfg, w, s);
    } else if Commits(cfg, w, s) {
      CommittedStepKeepsGood(cfg, w, s);
    } else {
      CutStepKeepsGood(cfg, w, s);
    }
  }

  lemma EmptyIsGood(cfg: Config)
    ensures Good(cfg, EMPTY)
  {
  }

  /** The invariant of every run. */
  lemma {:induction false} RunsKeepGood(cfg: Config, w: World, steps: seq<Step>)
    requires Good(cfg, w) && Wired(cfg) && Possible(cfg, w, steps)
    ensures Good(cfg, Run(cfg, w, steps))
    decreases |steps|
  {
    if steps == [] {
    } else {
      StepKeepsGood(cfg, w, steps[0]);
      RunsKeepGood(cfg, Next(cfg, w, steps[0]), steps[1..]);
    }
  }
}
