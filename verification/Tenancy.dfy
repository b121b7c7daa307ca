/** What belongs to one tenant is left alone by every step and every run of the others. */
module Tenancy {
  import opened Prelude
  import opened Jobs
  import opened Store
  import opened UseCases
  import opened Executor
  import opened Invariants
  import opened RowsKept
  import opened Protocol
  import opened Reachability
  import opened IndexContents
  import opened JobSteps
  import opened Outcomes

  /** The tenant a request or a message speaks for. */
  function TenantOf(s: Step): string {
    match s
    case CreateJob(request, _, _) => request.tenantId
    case Upload(input, _, _, _, _, _) => input.tenantId
    case AddVersion(input, _, _, _, _) => input.tenantId
    case Delete(tenantId, _, _, _) => tenantId
    case UpdateMetadata(tenantId, _, _, _) => tenantId
    case Deliver(message, _, _) => message.tenantId
    case Redeliver(message) => message.tenantId
  }

  // ---- what belongs to a tenant ------------------------------------------

  predicate OwnsDocument(db: Tables, t: string, d: Uuid) {
    d in db.docs && db.docs[d].tenantId == t
  }

  predicate OwnsVersion(db: Tables, t: string, v: Uuid) {
    v in db.versions && OwnsDocument(db, t, db.versions[v].documentId)
  }

  predicate OwnsJob(db: Tables, t: string, j: Uuid) {
    j in db.jobs && db.jobs[j].tenantId == t
  }

  predicate OwnsEntry(index: map<string, Point>, t: string, key: string) {
    key in index && index[key].tenantId == t
  }

  /** The tenant's documents, versions and jobs are the same rows in both. */
  ghost predicate SameRows(db: Tables, after: Tables, t: string) {
    && (forall d :: OwnsDocument(db, t, d) || OwnsDocument(after, t, d) ==>
          d in db.docs && d in after.docs && after.docs[d] == db.docs[d])
    && (forall v :: OwnsVersion(db, t, v) || OwnsVersion(after, t, v) ==>
          v in db.versions && v in after.versions && after.versions[v] == db.versions[v])
    && (forall j :: OwnsJob(db, t, j) || OwnsJob(after, t, j) ==>
          j in db.jobs && j in after.jobs && after.jobs[j] == db.jobs[j])
  }

  ghost predicate SameEntries(index: map<string, Point>, after: map<string, Point>, t: string) {
    forall key :: OwnsEntry(index, t, key) || OwnsEntry(after, t, key) ==>
                    key in index && key in after && after[key] == index[key]
  }

  /** Its index entries and messages are the same, and no event about it was published in between. */
  ghost predicate SameOutside(o: Outside, after: Outside, t: string) {
    && SameEntries(o.index, after.index, t)
    && (forall m: Message | m.tenantId == t :: after.messages[m] == o.messages[m])
    && o.events <= after.events
    && forall i | |o.events| <= i < |after.events| :: after.events[i].tenantId != t
  }

  // ---- effects -----------------------------------------------------------

  /** The effect is about another tenant, and an upsert takes no entry of this one's. */
  ghost predicate Spares(o: Outside, e: Effect, t: string) {
    match e
    case Publish(event) => event.tenantId != t
    case Enqueue(m) => m.tenantId != t
    case Save(_, _) => true
    case Upsert(call) =>
      forall k | 0 <= k < |call.points| :: call.points[k].tenantId != t && !OwnsEntry(o.index, t, call.points[k].id)
  }

  lemma {:induction false} UpsertSpares(index: map<string, Point>, points: seq<Point>, t: string)
    requires forall k | 0 <= k < |points| :: points[k].tenantId != t && !OwnsEntry(index, t, points[k].id)
    ensures SameEntries(index, Upserted(index, points), t)
    decreases |points|
  {
    if points == [] {
    } else {
      var n := |points| - 1;
      UpsertSpares(index, points[..n], t);
      assert !OwnsEntry(Upserted(index, points[..n]), t, points[n].id);
    }
  }

  lemma EffectSpares(o: Outside, p: Outside, e: Effect, t: string)
    requires SameOutside(o, p, t) && Spares(o, e, t)
    ensures SameOutside(o, Perform(p, e), t)
  {
    if e.Upsert? {
      forall k | 0 <= k < |e.call.points|
        ensures !OwnsEntry(p.index, t, e.call.points[k].id)
      {
        assert !OwnsEntry(o.index, t, e.call.points[k].id);
      }
      UpsertSpares(p.index, e.call.points, t);
    }
  }

  lemma {:induction false} EffectsSpare(o: Outside, es: seq<Effect>, t: string)
    requires AllSpare(o, es, t)
    ensures SameOutside(o, PerformAll(o, es), t)
    decreases |es|
  {
    if es == [] {
    } else {
      var n := |es| - 1;
      EffectsSpare(o, es[..n], t);
      assert Spares(o, es[n], t);
      EffectSpares(o, PerformAll(o, es[..n]), es[n], t);
    }
  }

  /** An upsert for another tenant's document takes only entries of that document. */
  lemma UpsertOfOther(cfg: Config, w: World, e: Effect, t: string)
    requires Good(cfg, w) && e.Upsert? && FaithfulCall(cfg.lib, w.db, w.out.blobs, e.call)
    requires w.db.docs[e.call.documentId].tenantId != t
    ensures Spares(w.out, e, t)
  {
    forall k | 0 <= k < |e.call.points|
      ensures e.call.points[k].tenantId != t && !OwnsEntry(w.out.index, t, e.call.points[k].id)
    {
      EntryIsLatestUpsert(cfg, w, e.call.documentId, k);
    }
  }

  lemma DeliverySpares(cfg: Config, w: World, m: Message, c: Chance, t: string, i: nat)
    requires Good(cfg, w) && m.tenantId != t && i < |HandleTx(cfg, w.db, w.out.blobs, m, c).effects|
    ensures Spares(w.out, HandleTx(cfg, w.db, w.out.blobs, m, c).effects[i], t)
  {
    var j := w.db.jobs[m.jobId];
    var part := WorkerPart(cfg, w.db, w.out.blobs, j, c);
    RowsPointers(w.db);
    ExecuteOutcome(cfg, w.db, w.out.blobs, j, c);
    WorkerPartOutcome(cfg, w.db, w.out.blobs, j, c);
    AttemptSpares(cfg, w, j, c, part, Execute(cfg, w.db, w.out.blobs, j, c).job, t, i);
  }

  lemma AttemptSpares(cfg: Config, w: World, j: Job, c: Chance, part: Ran, k: Job, t: string, i: nat)
    requires Good(cfg, w) && j.tenantId != t && SameIdentity(j, k) && part == WorkerPart(cfg, w.db, w.out.blobs, j, c)
    requires forall e | e in part.effects ::
               e.Upsert? && e.call.documentId == j.documentId && FaithfulCall(cfg.lib, w.db, w.out.blobs, e.call)
               && GetDocument(w.db, j.tenantId, j.documentId).Some?
    requires i < |AllEffects(cfg, w.db, w.out.blobs, j, c, k)|
    ensures Spares(w.out, AllEffects(cfg, w.db, w.out.blobs, j, c, k)[i], t)
  {
    var e := AllEffects(cfg, w.db, w.out.blobs, j, c, k)[i];
    if e.Upsert? {
      assert e in part.effects;
      UpsertOfOther(cfg, w, e, t);
    }
  }

  ghost predicate AllSpare(o: Outside, es: seq<Effect>, t: string) {
    forall i | 0 <= i < |es| :: Spares(o, es[i], t)
  }

  lemma RegisterSpares(cfg: Config, db: Tables, o: Outside, d: Document, v: Version, content: Bytes, j: Uuid, t: string)
    requires d.tenantId != t
    ensures AllSpare(o, RegisterTx(cfg, db, d, v, content, j).effects, t)
  {
  }

  lemma AttachSpares(db: Tables, o: Outside, d: Document, v: Version, content: Bytes, t: string)
    requires d.tenantId != t
    ensures AllSpare(o, AttachTx(db, d, v, content).effects, t)
  {
  }

  lemma UploadSpares(cfg: Config, w: World, u: UploadInput, d: Uuid, v: Uuid, j: Uuid, at: Instant, t: string)
    requires u.tenantId != t
    ensures AllSpare(w.out, UploadTx(cfg, w.db, u, d, v, j, at).effects, t)
  {
    var checked := ValidateUpload(cfg.upload, u.originalFilename, u.content, u.contentType);
    if checked.Success? {
      RegisterSpares(cfg, w.db, w.out, NewDocument(u, checked.value, d, v), NewVersion(cfg, u, checked.value, d, v, 1, at),
                     u.content, j, t);
    }
  }

  lemma AddVersionSpares(cfg: Config, w: World, u: UploadInput, d: Uuid, v: Uuid, at: Instant, t: string)
    requires u.tenantId != t
    ensures AllSpare(w.out, AddVersionTx(cfg, w.db, u, d, v, at).effects, t)
  {
    var checked := ValidateUpload(cfg.upload, u.originalFilename, u.content, u.contentType);
    if checked.Success? && GetDocument(w.db, u.tenantId, d).Some? {
      AttachSpares(w.db, w.out, w.db.docs[d], NewVersion(cfg, u, checked.value, d, v, NextNumber(w.db, d), at), u.content, t);
    }
  }

  lemma RequestSpares(cfg: Config, w: World, s: Step, t: string)
    requires !s.Redeliver? && !s.Deliver? && TenantOf(s) != t
    ensures AllSpare(w.out, Transaction(cfg, w, s).effects, t)
  {
    match s
    case CreateJob(_, _, _) =>
    case Upload(u, d, v, j, at, _) => UploadSpares(cfg, w, u, d, v, j, at, t);
    case AddVersion(u, d, v, at, _) => AddVersionSpares(cfg, w, u, d, v, at, t);
    case Delete(_, _, _, _) =>
    case UpdateMetadata(_, _, _, _) =>
  }

  lemma StepSparesOutside(cfg: Config, w: World, s: Step, t: string)
    requires Good(cfg, w) && TenantOf(s) != t
    ensures SameOutside(w.out, Next(cfg, w, s).out, t)
  {
    if !s.Redeliver? {
      var tx := Transaction(cfg, w, s);
      var n := Reached(s.fuse, |tx.effects|);
      NextIs(cfg, w, s, tx);
      forall i | 0 <= i < n
        ensures Spares(w.out, tx.effects[..n][i], t)
      {
        if s.Deliver? { DeliverySpares(cfg, w, s.message, s.chance, t, i); } else { RequestSpares(cfg, w, s, t); }
      }
      EffectsSpare(w.out, tx.effects[..n], t);
    }
  }

  // ---- rows --------------------------------------------------------------

  /** Only one tenant's rows differ, and documents keep their tenant. */
  ghost predicate TouchesOnly(db: Tables, after: Tables, tenantId: string) {
    && (forall d | d in db.docs :: d in after.docs && after.docs[d].tenantId == db.docs[d].tenantId)
    && (forall d | d in after.docs && after.docs[d].tenantId != tenantId :: d in db.docs && after.docs[d] == db.docs[d])
    && (forall v | v in db.versions :: v in after.versions && after.versions[v] == db.versions[v])
    && (forall v | v in after.versions && v !in db.versions :: OwnsDocument(after, tenantId, after.versions[v].documentId))
    && (forall j | j in db.jobs :: j in after.jobs && after.jobs[j].tenantId == db.jobs[j].tenantId)
    && (forall j | j in after.jobs && after.jobs[j].tenantId != tenantId :: j in db.jobs && after.jobs[j] == db.jobs[j])
  }

  lemma OthersKeepRows(db: Tables, after: Tables, tenantId: string, t: string)
    requires TouchesOnly(db, after, tenantId) && VersionRefs(db.docs, db.versions) && t != tenantId
    ensures SameRows(db, after, t)
  {
  }

  lemma NameHasExtension(filename: string) returns (stem: string, ext: string)
    requires '.' in filename
    ensures filename == stem + ['.'] + ext && '.' !in ext
  {
    var p := LastIndex(filename, '.');
    stem, ext := filename[..p], filename[p + 1..];
  }

  lemma NewRowsTouch(db: Tables, after: Tables, d: Document, v: Version, j: Job, tenantId: string)
    requires d.id !in db.docs && v.id !in db.versions && j.id !in db.jobs
    requires d.tenantId == tenantId && v.documentId == d.id && j.tenantId == tenantId
    requires after == Tables(db.docs[d.id := d], db.versions[v.id := v], db.jobs[j.id := j])
    ensures TouchesOnly(db, after, tenantId)
  {
  }

  lemma UploadTouches(cfg: Config, w: World, s: Step)
    requires Good(cfg, w) && Enabled(w, s) && s.Upload? && Commits(cfg, w, s)
    ensures TouchesOnly(w.db, Next(cfg, w, s).db, s.input.tenantId)
  {
    var stem, ext := NameHasExtension(s.input.originalFilename);
    var after := Next(cfg, w, s).db;
    UploadWrites(cfg, w, s, stem, ext);
    NewRowsTouch(w.db, after, after.docs[s.documentId], after.versions[s.versionId], after.jobs[s.jobId], s.input.tenantId);
  }

  lemma NewVersionTouches(db: Tables, after: Tables, d: Document, v: Version)
    requires d.id in db.docs && db.docs[d.id].tenantId == d.tenantId && v.id !in db.versions && v.documentId == d.id
    requires after == Tables(db.docs[d.id := d], db.versions[v.id := v], db.jobs)
    ensures TouchesOnly(db, after, d.tenantId)
  {
  }

  lemma AddVersionTouches(cfg: Config, w: World, s: Step)
    requires Good(cfg, w) && Enabled(w, s) && s.AddVersion? && Commits(cfg, w, s)
    ensures TouchesOnly(w.db, Next(cfg, w, s).db, s.input.tenantId)
  {
    var stem, ext := NameHasExtension(s.input.originalFilename);
    var after := Next(cfg, w, s).db;
    assert HistoryOf(w.db.docs, w.db.versions, s.documentId);
    AddedVersion(cfg, w, s, stem, ext, w.db.versions[w.db.docs[s.documentId].currentVersionId.value].number + 1);
    NewVersionTouches(w.db, after, after.docs[s.documentId], after.versions[s.versionId]);
  }

  lemma AttemptTouches(db: Tables, after: Tables, j: Job, k: Job)
    requires j.id in db.jobs && db.jobs[j.id] == j && SameIdentity(j, k)
    requires after.versions == db.versions && after.jobs == db.jobs[j.id := k]
    requires after.docs == db.docs
          || (GetDocument(db, j.tenantId, j.documentId).Some?
              && after.docs == db.docs[j.documentId := db.docs[j.documentId].(status := Processed)])
    ensures TouchesOnly(db, after, j.tenantId)
  {
  }

  lemma DeliveryTouches(cfg: Config, w: World, s: Step, tx: Tx)
    requires RowsOk(cfg, w.db) && s.Deliver? && Commits(cfg, w, s) && tx == Transaction(cfg, w, s)
    ensures TouchesOnly(w.db, tx.db, s.message.tenantId)
  {
    if Runnable(w.db, s.message) {
      var j := w.db.jobs[s.message.jobId];
      AttemptSummary(cfg, w.db, w.out.blobs, s.message, s.chance);
      AttemptTouches(w.db, tx.db, j, Execute(cfg, w.db, w.out.blobs, j, s.chance).job);
    }
  }

  lemma CommittedStepTouches(cfg: Config, w: World, s: Step)
    requires Good(cfg, w) && Enabled(w, s) && !s.Redeliver? && Commits(cfg, w, s)
    ensures TouchesOnly(w.db, Next(cfg, w, s).db, TenantOf(s))
  {
    match s
    case CreateJob(_, _, _) => CreatedJob(cfg, w, s);
    case Upload(_, _, _, _, _, _) => UploadTouches(cfg, w, s);
    case AddVersion(_, _, _, _, _) => AddVersionTouches(cfg, w, s);
    case Delete(_, _, _, _) => DeletedRow(cfg, w, s);
    case UpdateMetadata(_, _, _, _) => UpdatedRow(cfg, w, s);
    case Deliver(_, _, _) =>
      var tx := Transaction(cfg, w, s);
      NextIs(cfg, w, s, tx);
      DeliveryTouches(cfg, w, s, tx);
  }

  /** A step for one tenant, committed, refused or cut, changes no row, entry or message of another and announces none. */
  lemma StepSparesOthers(cfg: Config, w: World, s: Step, t: string)
    requires Good(cfg, w) && Enabled(w, s) && TenantOf(s) != t
    ensures SameRows(w.db, Next(cfg, w, s).db, t) && SameOutside(w.out, Next(cfg, w, s).out, t)
  {
    StepSparesOutside(cfg, w, s, t);
    if !s.Redeliver? && Commits(cfg, w, s) {
      CommittedStepTouches(cfg, w, s);
      OthersKeepRows(w.db, Next(cfg, w, s).db, TenantOf(s), t);
    } else if !s.Redeliver? {
      NextIs(cfg, w, s, Transaction(cfg, w, s));
    }
  }

  /** Tenants are isolated: after any run of other tenants' steps everything of this tenant's is as it was. */
  lemma {:induction false} TenantsAreIsolated(cfg: Config, w: World, steps: seq<Step>, t: string)
    requires Good(cfg, w) && Wired(cfg) && Possible(cfg, w, steps)
    requires forall i | 0 <= i < |steps| :: TenantOf(steps[i]) != t
    ensures SameRows(w.db, Run(cfg, w, steps).db, t) && SameOutside(w.out, Run(cfg, w, steps).out, t)
    decreases |steps|
  {
    if steps == [] {
    } else {
      var x := Next(cfg, w, steps[0]);
      StepSparesOthers(cfg, w, steps[0], t);
      StepKeepsGood(cfg, w, steps[0]);
      TenantsAreIsolated(cfg, x, steps[1..], t);
      var y := Run(cfg, x, steps[1..]);
      RowsAcross(w.db, x.db, y.db, t);
      OutsideAcross(w.out, x.out, y.out, t);
    }
  }

  lemma RowsAcross(a: Tables, b: Tables, c: Tables, t: string)
    requires SameRows(a, b, t) && SameRows(b, c, t)
    ensures SameRows(a, c, t)
  {
  }

  lemma OutsideAcross(a: Outside, b: Outside, c: Outside, t: string)
    requires SameOutside(a, b, t) && SameOutside(b, c, t)
    ensures SameOutside(a, c, t)
  {
    forall i | |a.events| <= i < |c.events|
      ensures c.events[i].tenantId != t
    {
      if i < |b.events| { assert c.events[i] == b.events[i]; }
    }
  }
}
