/** Each step, committed or cut short anywhere, keeps queue, blobs and index in agreement with the rows. */
module OutsideKept {
  import opened Prelude
  import opened Keys
  import opened Jobs
  import opened Store
  import opened UseCases
  import opened Executor
  import opened Invariants
  import opened RowsKept

  // ---- effects on the rows as they were ----------------------------------

  /** An effect the invariants tolerate: bytes go under a fresh version's key, upserts carry stored bytes' points. */
  predicate Fits(cfg: Config, db: Tables, blobs: map<string, Bytes>, issued: set<Uuid>, e: Effect) {
    && (e.Save? ==> Named(e.key, issued) && e.key !in blobs)
    && (e.Upsert? ==> FaithfulCall(cfg.lib, db, blobs, e.call))
  }

  ghost predicate BytesStay(blobs: map<string, Bytes>, after: map<string, Bytes>) {
    forall key | key in blobs :: key in after && after[key] == blobs[key]
  }

  lemma BytesStayFaithful(lib: Libraries, db: Tables, o: Outside, after: Outside)
    requires CallsOk(lib, db, o) && after.upserts == o.upserts && BytesStay(o.blobs, after.blobs)
    ensures CallsOk(lib, db, after)
  {
    forall i: nat
      ensures CallOk(lib, db, after, i)
    {
      assert CallOk(lib, db, o, i);
    }
  }

  lemma EffectKeepsOutside(cfg: Config, db: Tables, o: Outside, issued: set<Uuid>, e: Effect)
    requires OutsideOk(cfg, db, o, issued)
    requires Fits(cfg, db, o.blobs, issued, e)
    ensures OutsideOk(cfg, db, Perform(o, e), issued)
    ensures BytesStay(o.blobs, Perform(o, e).blobs)
  {
    var p := Perform(o, e);
    if e.Upsert? {
      assert p.upserts[..|p.upserts| - 1] == o.upserts;
      forall i: nat
        ensures CallOk(cfg.lib, db, p, i)
      {
        assert CallOk(cfg.lib, db, o, i);
      }
    } else {
      BytesStayFaithful(cfg.lib, db, o, p);
      if e.Save? {
        forall key
          ensures key in p.blobs ==> Named(key, issued)
        {
          assert key in o.blobs ==> Named(key, issued);
        }
      }
    }
  }

  lemma {:induction false} EffectsKeepOutside(cfg: Config, db: Tables, o: Outside, issued: set<Uuid>, es: seq<Effect>)
    requires OutsideOk(cfg, db, o, issued)
    requires forall i | 0 <= i < |es| :: Fits(cfg, db, o.blobs, issued, es[i])
    requires forall i, k | 0 <= i < k < |es| && es[i].Save? && es[k].Save? :: es[i].key != es[k].key
    ensures OutsideOk(cfg, db, PerformAll(o, es), issued)
    ensures BytesStay(o.blobs, PerformAll(o, es).blobs)
    decreases |es|
  {
    if es == [] {
    } else {
      var n := |es| - 1;
      EffectsKeepOutside(cfg, db, o, issued, es[..n]);
      assert Fits(cfg, db, o.blobs, issued, es[n]);
      NewKeys(o, es[..n]);
      EffectKeepsOutside(cfg, db, PerformAll(o, es[..n]), issued, es[n]);
    }
  }

  lemma {:induction false} NewKeys(o: Outside, es: seq<Effect>)
    ensures forall key | key in PerformAll(o, es).blobs && key !in o.blobs ::
              exists i :: 0 <= i < |es| && es[i].Save? && es[i].key == key
    decreases |es|
  {
    if es == [] {
    } else {
      var n := |es| - 1;
      NewKeys(o, es[..n]);
      forall key | key in PerformAll(o, es).blobs && key !in o.blobs
        ensures exists i :: 0 <= i < |es| && es[i].Save? && es[i].key == key
      {
        if key in PerformAll(o, es[..n]).blobs {
          var i :| 0 <= i < n && es[..n][i].Save? && es[..n][i].key == key;
          assert es[i].Save? && es[i].key == key;
        } else {
          assert es[n].Save? && es[n].key == key;
        }
      }
    }
  }

  lemma MoreIssued(cfg: Config, db: Tables, o: Outside, issued: set<Uuid>, drawn: set<Uuid>)
    requires OutsideOk(cfg, db, o, issued)
    ensures OutsideOk(cfg, db, o, issued + drawn)
  {
    forall key
      ensures key in o.blobs ==> Named(key, issued + drawn)
    {
      assert key in o.blobs ==> Named(key, issued);
    }
  }

  // ---- from the old rows to the committed ones ---------------------------

  /** Version rows are never changed or removed, documents never change tenant or disappear. */
  ghost predicate Grows(db: Tables, after: Tables) {
    && (forall v | v in db.versions :: v in after.versions && after.versions[v] == db.versions[v])
    && (forall d | d in db.docs :: d in after.docs && after.docs[d].tenantId == db.docs[d].tenantId)
  }

  lemma CallsStayFaithful(lib: Libraries, db: Tables, after: Tables, o: Outside)
    requires CallsOk(lib, db, o) && Grows(db, after)
    ensures CallsOk(lib, after, o)
  {
    forall i: nat
      ensures CallOk(lib, after, o, i)
    {
      assert CallOk(lib, db, o, i);
    }
  }

  lemma {:induction false} OneSave(o: Outside, es: seq<Effect>)
    requires es != [] && es[0].Save? && forall i | 1 <= i < |es| :: !es[i].Save?
    ensures PerformAll(o, es).blobs == o.blobs[es[0].key := es[0].content]
    decreases |es|
  {
    var n := |es| - 1;
    if n == 0 {
      assert es[..n] == [];
    } else {
      OneSave(o, es[..n]);
    }
  }

  // ---- create, upload, add version ---------------------------------------

  lemma CreateJobCommits(cfg: Config, db: Tables, o: Outside, issued: set<Uuid>, r: JobRequest, id: Uuid)
    requires OutsideOk(cfg, db, o, issued)
    ensures var tx := CreateJobTx(cfg, db, r, id);
            OutsideOk(cfg, tx.db, PerformAll(o, tx.effects), issued)
  {
    var tx := CreateJobTx(cfg, db, r, id);
    EffectsKeepOutside(cfg, db, o, issued, tx.effects);
    EffectsOnlyAdd(o, tx.effects);
    if tx.problem.None? {
      assert tx.effects[1] in tx.effects;
      CallsStayFaithful(cfg.lib, db, tx.db, PerformAll(o, tx.effects));
    }
  }

  /** Recording a version whose bytes have just been saved. */
  lemma NewVersionIsStored(cfg: Config, db: Tables, after: Tables, o: Outside, issued: set<Uuid>, v: Version)
    requires OutsideOk(cfg, db, o, issued)
    requires after.versions == db.versions[v.id := v] && Grows(db, after) && after.jobs == db.jobs
    requires StoredAs(cfg.lib, v, o.blobs)
    ensures OutsideOk(cfg, after, o, issued)
  {
    CallsStayFaithful(cfg.lib, db, after, o);
  }

  /** One save, then only announcements. */
  predicate SavesFirst(es: seq<Effect>, key: string, content: Bytes) {
    es != [] ==> es[0] == Save(key, content) && forall i | 1 <= i < |es| :: es[i].Publish? || es[i].Enqueue?
  }

  lemma SavesFirstAllFit(cfg: Config, db: Tables, blobs: map<string, Bytes>, issued: set<Uuid>, es: seq<Effect>, key: string,
                         content: Bytes)
    requires SavesFirst(es, key, content) && Named(key, issued) && key !in blobs
    ensures forall i | 0 <= i < |es| :: Fits(cfg, db, blobs, issued, es[i]) && (es[i].Save? ==> i == 0)
  {
    forall i | 0 <= i < |es|
      ensures Fits(cfg, db, blobs, issued, es[i]) && (es[i].Save? ==> i == 0)
    {
      if i > 0 { assert es[i].Publish? || es[i].Enqueue?; }
    }
  }

  lemma SavesFirstFits(cfg: Config, db: Tables, o: Outside, issued: set<Uuid>, es: seq<Effect>, key: string, content: Bytes)
    requires OutsideOk(cfg, db, o, issued)
    requires SavesFirst(es, key, content) && Named(key, issued) && key !in o.blobs
    ensures OutsideOk(cfg, db, PerformAll(o, es), issued)
    ensures es != [] ==> PerformAll(o, es).blobs == o.blobs[key := content]
    ensures BytesStay(o.blobs, PerformAll(o, es).blobs)
  {
    SavesFirstAllFit(cfg, db, o.blobs, issued, es, key, content);
    EffectsKeepOutside(cfg, db, o, issued, es);
    if es != [] {
      OneSave(o, es);
    }
  }

  lemma RegisterEffects(cfg: Config, db: Tables, d: Document, v: Version, content: Bytes, jobId: Uuid)
    ensures SavesFirst(RegisterTx(cfg, db, d, v, content, jobId).effects, v.storagePath, content)
  {
  }

  lemma AttachEffects(db: Tables, d: Document, v: Version, content: Bytes)
    ensures SavesFirst(AttachTx(db, d, v, content).effects, v.storagePath, content)
  {
  }

  lemma RegisterCommits(cfg: Config, db: Tables, o: Outside, issued: set<Uuid>, d: Document, v: Version, content: Bytes,
                        jobId: Uuid)
    requires OutsideOk(cfg, db, o, issued)
    requires Named(v.storagePath, issued) && v.storagePath !in o.blobs
    requires v.size == |content| && v.checksum == cfg.lib.sha256(content)
    requires RegisterTx(cfg, db, d, v, content, jobId).problem.None?
    ensures var tx := RegisterTx(cfg, db, d, v, content, jobId);
            OutsideOk(cfg, tx.db, PerformAll(o, tx.effects), issued)
  {
    var db1 := db.(docs := db.docs[d.id := d], versions := db.versions[v.id := v]);
    var first := [Save(v.storagePath, content)] + [Publish(DocumentUploaded(d.id, d.tenantId, v.id, v.number, v.checksum))];
    SavesFirstFits(cfg, db, o, issued, first, v.storagePath, content);
    NewVersionIsStored(cfg, db, db1, PerformAll(o, first), issued, v);
    CreateJobCommits(cfg, db1, PerformAll(o, first), issued, IngestionRequest(d, v), jobId);
    PerformInTwoParts(o, first, CreateJobTx(cfg, db1, IngestionRequest(d, v), jobId).effects);
  }

  lemma AttachCommits(cfg: Config, db: Tables, o: Outside, issued: set<Uuid>, d: Document, v: Version, content: Bytes)
    requires OutsideOk(cfg, db, o, issued)
    requires d.id in db.docs && db.docs[d.id] == d
    requires Named(v.storagePath, issued) && v.storagePath !in o.blobs
    requires v.size == |content| && v.checksum == cfg.lib.sha256(content)
    requires AttachTx(db, d, v, content).problem.None?
    ensures var tx := AttachTx(db, d, v, content);
            OutsideOk(cfg, tx.db, PerformAll(o, tx.effects), issued)
  {
    var tx := AttachTx(db, d, v, content);
    SavesFirstFits(cfg, db, o, issued, tx.effects, v.storagePath, content);
    SaveVersionIs(db, d.(currentVersionId := Some(v.id)), v);
    NewVersionIsStored(cfg, db, tx.db, PerformAll(o, tx.effects), issued, v);
  }

  // ---- fresh keys --------------------------------------------------------

  /** A version drawn afresh gets a key under which nothing was ever saved. */
  lemma FreshKey(cfg: Config, blobs: map<string, Bytes>, issued: set<Uuid>, u: UploadInput, extension: string, d: Uuid,
                 v: Uuid, number: int, at: Instant)
    requires BlobIdsOk(blobs, issued) && v !in issued && '.' !in extension
    ensures var key := NewVersion(cfg, u, extension, d, v, number, at).storagePath;
            key !in blobs && VersionIdIn(key) == Some(v)
  {
    AcceptedKeyNames(u.tenantId, d, v, extension, at);
    var key := NewVersion(cfg, u, extension, d, v, number, at).storagePath;
    assert key in blobs ==> Named(key, issued);
  }

  // ---- deliveries --------------------------------------------------------

  /** Start event, at most one upsert, closing effect: what they do to queue, log and blobs. */
  lemma AttemptEffects(o: Outside, a: Effect, part: seq<Effect>, z: Effect)
    requires |part| <= 1 && forall e | e in part :: e.Upsert?
    ensures var p := PerformAll(o, [a] + part + [z]);
            var q := Perform(Perform(o, a), z);
            p.messages == q.messages && p.events == q.events && p.blobs == q.blobs
  {
    PerformOneMore(o, [a] + part, z);
    PerformInTwoParts(o, [a], part);
    PerformSingle(o, a);
    if part != [] {
      assert part == [part[0]];
      PerformSingle(Perform(o, a), part[0]);
    }
  }

  /** Queue, log and blobs after the whole attempt on a job. */
  lemma AttemptOutside(cfg: Config, db: Tables, o: Outside, j: Job, c: Chance)
    requires PointersOk(db) && j.id in db.jobs && db.jobs[j.id] == j && j.status == Queued && RecordOk(j)
    ensures var x := Execute(cfg, db, o.blobs, j, c);
            var p := PerformAll(o, x.tx.effects);
            && p.messages == o.messages + (if FateOf(x.job) == TriedAgain then multiset{Message(j.tenantId, j.id)} else multiset{})
            && p.events == o.events
                 + (if j.jobType in cfg.registry then [StartedEvent(j, cfg.registry[j.jobType])] else [])
                 + (match FateOf(x.job)
                    case Done => [CompletedEvent(x.job)]
                    case TriedAgain => []
                    case GivenUp => [FailedEvent(x.job)])
            && p.blobs == o.blobs
  {
    ExecuteOutcome(cfg, db, o.blobs, j, c);
    WorkerPartOutcome(cfg, db, o.blobs, j, c);
    AllEffectsOutside(cfg, db, o, j, c, Execute(cfg, db, o.blobs, j, c).job, WorkerPart(cfg, db, o.blobs, j, c).effects);
  }

  lemma AllEffectsOutside(cfg: Config, db: Tables, o: Outside, j: Job, c: Chance, k: Job, part: seq<Effect>)
    requires part == WorkerPart(cfg, db, o.blobs, j, c).effects && |part| <= 1 && forall e | e in part :: e.Upsert?
    ensures var q := if j.jobType in cfg.registry then Perform(o, Publish(StartedEvent(j, cfg.registry[j.jobType]))) else o;
            var p := PerformAll(o, AllEffects(cfg, db, o.blobs, j, c, k));
            var r := Perform(q, LastEffect(j, k));
            p.messages == r.messages && p.events == r.events && p.blobs == r.blobs
  {
    if j.jobType in cfg.registry {
      AttemptEffects(o, Publish(StartedEvent(j, cfg.registry[j.jobType])), part, LastEffect(j, k));
    } else {
      PerformSingle(o, LastEffect(j, k));
    }
  }

  lemma HandleEffectsFit(cfg: Config, db: Tables, blobs: map<string, Bytes>, issued: set<Uuid>, m: Message, c: Chance)
    requires RowsOk(cfg, db)
    ensures forall e | e in HandleTx(cfg, db, blobs, m, c).effects :: !e.Save? && Fits(cfg, db, blobs, issued, e)
  {
    if Runnable(db, m) {
      RowsPointers(db);
      ExecuteOutcome(cfg, db, blobs, db.jobs[m.jobId], c);
      WorkerPartOutcome(cfg, db, blobs, db.jobs[m.jobId], c);
      var k := Execute(cfg, db, blobs, db.jobs[m.jobId], c).job;
      AttemptEffectsFit(cfg, db, blobs, issued, db.jobs[m.jobId], c, k, WorkerPart(cfg, db, blobs, db.jobs[m.jobId], c).effects);
    }
  }

  lemma AttemptEffectsFit(cfg: Config, db: Tables, blobs: map<string, Bytes>, issued: set<Uuid>, j: Job, c: Chance, k: Job,
                          part: seq<Effect>)
    requires part == WorkerPart(cfg, db, blobs, j, c).effects
    requires forall e | e in part :: e.Upsert? && FaithfulCall(cfg.lib, db, blobs, e.call)
    ensures forall e | e in AllEffects(cfg, db, blobs, j, c, k) :: !e.Save? && Fits(cfg, db, blobs, issued, e)
  {
    forall e | e in AllEffects(cfg, db, blobs, j, c, k)
      ensures !e.Save? && Fits(cfg, db, blobs, issued, e)
    {
      if !e.Publish? && e != LastEffect(j, k) { assert e in part; }
    }
  }

  /** After the commit and the acknowledgement every QUEUED job still has its message. */
  lemma DeliveryStaysCovered(cfg: Config, db: Tables, o: Outside, m: Message, c: Chance)
    requires RowsOk(cfg, db) && Covered(db, o.messages) && m in o.messages
    ensures var tx := HandleTx(cfg, db, o.blobs, m, c);
            tx.problem.None? && Covered(tx.db, PerformAll(o, tx.effects).messages - multiset{m})
  {
    if Runnable(db, m) {
      RowsPointers(db);
      ExecuteOutcome(cfg, db, o.blobs, db.jobs[m.jobId], c);
      AttemptOutside(cfg, db, o, db.jobs[m.jobId], c);
    }
  }

  lemma HandleCommits(cfg: Config, db: Tables, o: Outside, issued: set<Uuid>, m: Message, c: Chance)
    requires RowsOk(cfg, db) && OutsideOk(cfg, db, o, issued) && m in o.messages
    ensures var tx := HandleTx(cfg, db, o.blobs, m, c);
            var p := PerformAll(o, tx.effects);
            OutsideOk(cfg, tx.db, p.(messages := p.messages - multiset{m}), issued)
  {
    var tx := HandleTx(cfg, db, o.blobs, m, c);
    var p := PerformAll(o, tx.effects);
    HandleEffectsFit(cfg, db, o.blobs, issued, m, c);
    EffectsKeepOutside(cfg, db, o, issued, tx.effects);
    DeliveryStaysCovered(cfg, db, o, m, c);
    HandleGrows(cfg, db, o.blobs, m, c);
    AfterDelivery(cfg, db, tx.db, p, p.messages - multiset{m}, issued);
  }

  lemma AfterDelivery(cfg: Config, db: Tables, after: Tables, o: Outside, messages: multiset<Message>, issued: set<Uuid>)
    requires OutsideOk(cfg, db, o, issued) && Covered(after, messages)
    requires Grows(db, after) && after.versions == db.versions
    ensures OutsideOk(cfg, after, o.(messages := messages), issued)
  {
    BytesStayFaithful(cfg.lib, db, o, o.(messages := messages));
    CallsStayFaithful(cfg.lib, db, after, o.(messages := messages));
  }

  lemma HandleGrows(cfg: Config, db: Tables, blobs: map<string, Bytes>, m: Message, c: Chance)
    requires RowsOk(cfg, db)
    ensures Grows(db, HandleTx(cfg, db, blobs, m, c).db)
    ensures HandleTx(cfg, db, blobs, m, c).db.versions == db.versions
  {
    if Runnable(db, m) {
      RowsPointers(db);
      ExecuteOutcome(cfg, db, blobs, db.jobs[m.jobId], c);
      WorkerPartOutcome(cfg, db, blobs, db.jobs[m.jobId], c);
    }
  }
}
