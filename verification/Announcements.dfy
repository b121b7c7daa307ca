/**
 * The order of effects, over every run with cuts anywhere: a message never waits for a job that was not announced, and no
 * version is announced whose bytes are not stored.
 */
module Announcements {
  import opened Prelude
  import opened Keys
  import opened Jobs
  import opened Store
  import opened UseCases
  import opened Executor
  import opened Invariants
  import opened RowsKept
  import opened OutsideKept
  import opened Protocol
  import opened Reachability

  predicate CreatedIn(events: seq<Event>, m: Message) {
    exists k :: 0 <= k < |events| && events[k].JobCreated? && events[k].jobId == m.jobId && events[k].tenantId == m.tenantId
  }

  predicate KeptUnder(lib: Libraries, blobs: map<string, Bytes>, key: string, v: Uuid, checksum: string) {
    key in blobs && VersionIdIn(key) == Some(v) && lib.sha256(blobs[key]) == checksum
  }

  /** A version is announced with the checksum of an object stored under its own name. */
  ghost predicate Backed(lib: Libraries, blobs: map<string, Bytes>, e: Event) {
    e.DocumentUploaded? || e.VersionAdded? ==> exists key :: KeptUnder(lib, blobs, key, e.versionId, e.checksum)
  }

  ghost predicate Announced(lib: Libraries, o: Outside) {
    && (forall m | m in o.messages :: CreatedIn(o.events, m))
    && forall i | 0 <= i < |o.events| :: Backed(lib, o.blobs, o.events[i])
  }

  // ---- effects in their turn ---------------------------------------------

  /** Performing the effect now breaks no promise. */
  ghost predicate Due(lib: Libraries, o: Outside, e: Effect) {
    match e
    case Publish(event) => Backed(lib, o.blobs, event)
    case Enqueue(m) => CreatedIn(o.events, m)
    case Save(key, _) => key !in o.blobs
    case Upsert(_) => true
  }

  lemma StillCreated(events: seq<Event>, e: Event, m: Message)
    requires CreatedIn(events, m)
    ensures CreatedIn(events + [e], m)
  {
    var k :| 0 <= k < |events| && events[k].JobCreated? && events[k].jobId == m.jobId && events[k].tenantId == m.tenantId;
    assert (events + [e])[k] == events[k];
  }

  lemma StillBacked(lib: Libraries, blobs: map<string, Bytes>, key: string, content: Bytes, e: Event)
    requires Backed(lib, blobs, e) && key !in blobs
    ensures Backed(lib, blobs[key := content], e)
  {
    if e.DocumentUploaded? || e.VersionAdded? {
      var k :| KeptUnder(lib, blobs, k, e.versionId, e.checksum);
      assert KeptUnder(lib, blobs[key := content], k, e.versionId, e.checksum);
    }
  }

  lemma DueKeepsAnnounced(lib: Libraries, o: Outside, e: Effect)
    requires Announced(lib, o) && Due(lib, o, e)
    ensures Announced(lib, Perform(o, e))
  {
    var p := Perform(o, e);
    if e.Publish? {
      forall m | m in p.messages ensures CreatedIn(p.events, m) { StillCreated(o.events, e.event, m); }
    }
    if e.Save? {
      forall i | 0 <= i < |p.events| ensures Backed(lib, p.blobs, p.events[i]) {
        StillBacked(lib, o.blobs, e.key, e.content, o.events[i]);
      }
    }
  }

  /** Every effect is due when its turn comes. */
  ghost predicate InTurn(lib: Libraries, o: Outside, es: seq<Effect>) {
    forall i | 0 <= i < |es| :: Due(lib, PerformAll(o, es[..i]), es[i])
  }

  lemma {:induction false} CutKeepsAnnounced(lib: Libraries, o: Outside, es: seq<Effect>, n: nat)
    requires Announced(lib, o) && InTurn(lib, o, es) && n <= |es|
    ensures Announced(lib, PerformAll(o, es[..n]))
    decreases n
  {
    if n == 0 {
    } else {
      CutKeepsAnnounced(lib, o, es, n - 1);
      assert es[..n] == es[..n - 1] + [es[n - 1]];
      PerformOneMore(o, es[..n - 1], es[n - 1]);
      DueKeepsAnnounced(lib, PerformAll(o, es[..n - 1]), es[n - 1]);
    }
  }

  // ---- the steps ---------------------------------------------------------

  /** Save, announce the version, announce the job, enqueue: each is due once those before it are done. */
  lemma RegisterInTurn(cfg: Config, db: Tables, o: Outside, d: Document, v: Version, content: Bytes, j: Uuid)
    requires v.storagePath !in o.blobs && VersionIdIn(v.storagePath) == Some(v.id) && v.checksum == cfg.lib.sha256(content)
    ensures InTurn(cfg.lib, o, RegisterTx(cfg, db, d, v, content, j).effects)
  {
    var es := RegisterTx(cfg, db, d, v, content, j).effects;
    var save := Save(v.storagePath, content);
    var uploaded := DocumentUploaded(d.id, d.tenantId, v.id, v.number, v.checksum);
    assert es[..0] == [] && es[..1] == [save];
    PerformSingle(o, save);
    assert KeptUnder(cfg.lib, Perform(o, save).blobs, v.storagePath, v.id, v.checksum);
    if |es| > 2 {
      var created := JobCreated(j, d.id, d.tenantId, DocumentIngestion);
      assert es[..2] == [save, Publish(uploaded)] && es[..3] == es[..2] + [Publish(created)];
      PerformOneMore(o, es[..2], Publish(created));
      assert Last(PerformAll(o, es[..3]).events) == created;
    }
  }

  function Last(events: seq<Event>): Event
    requires events != []
  {
    events[|events| - 1]
  }

  lemma AttachInTurn(cfg: Config, db: Tables, o: Outside, d: Document, v: Version, content: Bytes)
    requires v.storagePath !in o.blobs && VersionIdIn(v.storagePath) == Some(v.id) && v.checksum == cfg.lib.sha256(content)
    ensures InTurn(cfg.lib, o, AttachTx(db, d, v, content).effects)
  {
    var es := AttachTx(db, d, v, content).effects;
    assert es[..0] == [] && es[..1] == [Save(v.storagePath, content)];
    PerformSingle(o, Save(v.storagePath, content));
    assert KeptUnder(cfg.lib, Perform(o, es[0]).blobs, v.storagePath, v.id, v.checksum);
  }

  /** The bytes go under a new key that names their version. */
  lemma NewVersionIsNew(cfg: Config, w: World, u: UploadInput, ext: string, d: Uuid, id: Uuid, at: Instant, v: Version)
    requires BlobIdsOk(w.out.blobs, w.issued) && id !in w.issued && v == NewVersion(cfg, u, ext, d, id, v.number, at)
    requires ValidateUpload(cfg.upload, u.originalFilename, u.content, u.contentType) == Success(ext)
    ensures v.storagePath !in w.out.blobs && VersionIdIn(v.storagePath) == Some(v.id)
    ensures v.checksum == cfg.lib.sha256(u.content)
  {
    AcceptedKeyNames(u.tenantId, d, id, ext, at);
    FreshKey(cfg, w.out.blobs, w.issued, u, ext, d, id, v.number, at);
  }

  lemma UploadInTurn(cfg: Config, w: World, u: UploadInput, d: Uuid, id: Uuid, j: Uuid, at: Instant)
    requires BlobIdsOk(w.out.blobs, w.issued) && id !in w.issued
    ensures InTurn(cfg.lib, w.out, UploadTx(cfg, w.db, u, d, id, j, at).effects)
  {
    var checked := ValidateUpload(cfg.upload, u.originalFilename, u.content, u.contentType);
    if checked.Success? {
      var v := NewVersion(cfg, u, checked.value, d, id, 1, at);
      NewVersionIsNew(cfg, w, u, checked.value, d, id, at, v);
      RegisterInTurn(cfg, w.db, w.out, NewDocument(u, checked.value, d, id), v, u.content, j);
    }
  }

  lemma AddVersionInTurn(cfg: Config, w: World, u: UploadInput, d: Uuid, id: Uuid, at: Instant)
    requires BlobIdsOk(w.out.blobs, w.issued) && id !in w.issued
    ensures InTurn(cfg.lib, w.out, AddVersionTx(cfg, w.db, u, d, id, at).effects)
  {
    var checked := ValidateUpload(cfg.upload, u.originalFilename, u.content, u.contentType);
    if checked.Success? && GetDocument(w.db, u.tenantId, d).Some? {
      var v := NewVersion(cfg, u, checked.value, d, id, NextNumber(w.db, d), at);
      NewVersionIsNew(cfg, w, u, checked.value, d, id, at, v);
      AttachInTurn(cfg, w.db, w.out, w.db.docs[d], v, u.content);
    }
  }

  lemma CreateJobInTurn(cfg: Config, w: World, s: Step)
    requires s.CreateJob?
    ensures InTurn(cfg.lib, w.out, Transaction(cfg, w, s).effects)
  {
    var es := Transaction(cfg, w, s).effects;
    if es != [] {
      assert es[..1] == [es[0]];
      PerformSingle(w.out, es[0]);
      assert Last(Perform(w.out, es[0]).events) == es[0].event;
    }
  }

  /** Due now and at any later time: no version is announced, nothing saved, and any message was announced before. */
  ghost predicate Steady(o: Outside, e: Effect) {
    match e
    case Publish(event) => !event.DocumentUploaded? && !event.VersionAdded?
    case Enqueue(m) => CreatedIn(o.events, m)
    case Save(_, _) => false
    case Upsert(_) => true
  }

  lemma {:induction false} EventsGrow(o: Outside, es: seq<Effect>, m: Message)
    requires CreatedIn(o.events, m)
    ensures CreatedIn(PerformAll(o, es).events, m)
    decreases |es|
  {
    if es == [] {
    } else {
      var n := |es| - 1;
      EventsGrow(o, es[..n], m);
      if es[n].Publish? { StillCreated(PerformAll(o, es[..n]).events, es[n].event, m); }
    }
  }

  lemma SteadyInTurn(lib: Libraries, o: Outside, es: seq<Effect>)
    requires forall i | 0 <= i < |es| :: Steady(o, es[i])
    ensures InTurn(lib, o, es)
  {
    forall i | 0 <= i < |es|
      ensures Due(lib, PerformAll(o, es[..i]), es[i])
    {
      assert Steady(o, es[i]);
      if es[i].Enqueue? { EventsGrow(o, es[..i], es[i].message); }
    }
  }

  lemma AttemptIsSteady(cfg: Config, db: Tables, o: Outside, j: Job, c: Chance, k: Job, i: nat)
    requires CreatedIn(o.events, Message(j.tenantId, j.id)) && forall e | e in WorkerPart(cfg, db, o.blobs, j, c).effects :: e.Upsert?
    requires i < |AllEffects(cfg, db, o.blobs, j, c, k)|
    ensures Steady(o, AllEffects(cfg, db, o.blobs, j, c, k)[i])
  {
    var e := AllEffects(cfg, db, o.blobs, j, c, k)[i];
    if e != LastEffect(j, k) && !e.Publish? {
      assert e in WorkerPart(cfg, db, o.blobs, j, c).effects;
    }
  }

  lemma DeliveryInTurn(cfg: Config, w: World, m: Message, c: Chance)
    requires RowsOk(cfg, w.db) && m in w.out.messages && Announced(cfg.lib, w.out)
    ensures InTurn(cfg.lib, w.out, HandleTx(cfg, w.db, w.out.blobs, m, c).effects)
  {
    if Runnable(w.db, m) {
      var j := w.db.jobs[m.jobId];
      var x := Execute(cfg, w.db, w.out.blobs, j, c);
      RowsPointers(w.db);
      ExecuteOutcome(cfg, w.db, w.out.blobs, j, c);
      WorkerPartOutcome(cfg, w.db, w.out.blobs, j, c);
      forall i | 0 <= i < |x.tx.effects|
        ensures Steady(w.out, x.tx.effects[i])
      {
        AttemptIsSteady(cfg, w.db, w.out, j, c, x.job, i);
      }
      SteadyInTurn(cfg.lib, w.out, x.tx.effects);
    }
  }

  lemma StepInTurn(cfg: Config, w: World, s: Step)
    requires Good(cfg, w) && Enabled(w, s) && !s.Redeliver? && Announced(cfg.lib, w.out)
    ensures InTurn(cfg.lib, w.out, Transaction(cfg, w, s).effects)
  {
    match s
    case CreateJob(_, _, _) => CreateJobInTurn(cfg, w, s);
    case Upload(u, d, v, j, at, _) => UploadInTurn(cfg, w, u, d, v, j, at);
    case AddVersion(u, d, v, at, _) => AddVersionInTurn(cfg, w, u, d, v, at);
    case Delete(_, _, _, _) => SteadyInTurn(cfg.lib, w.out, Transaction(cfg, w, s).effects);
    case UpdateMetadata(_, _, _, _) => SteadyInTurn(cfg.lib, w.out, Transaction(cfg, w, s).effects);
    case Deliver(m, c, _) => DeliveryInTurn(cfg, w, m, c);
  }

  /** A committed, refused or cut step keeps every promise made outside. */
  lemma StepKeepsAnnounced(cfg: Config, w: World, s: Step)
    requires Good(cfg, w) && Enabled(w, s) && Announced(cfg.lib, w.out)
    ensures Announced(cfg.lib, Next(cfg, w, s).out)
  {
    if !s.Redeliver? {
      var tx := Transaction(cfg, w, s);
      NextIs(cfg, w, s, tx);
      StepInTurn(cfg, w, s);
      CutKeepsAnnounced(cfg.lib, w.out, tx.effects, Reached(s.fuse, |tx.effects|));
    }
  }

  /**
   * In every state of every run, rollbacks and cuts included: each message on the queue is for a job whose creation was
   * published before, and each version ever announced has an object stored under its name with the announced checksum.
   */
  lemma {:induction false} RunsKeepAnnounced(cfg: Config, w: World, steps: seq<Step>)
    requires Good(cfg, w) && Wired(cfg) && Possible(cfg, w, steps) && Announced(cfg.lib, w.out)
    ensures Announced(cfg.lib, Run(cfg, w, steps).out)
    decreases |steps|
  {
    if steps == [] {
    } else {
      StepKeepsAnnounced(cfg, w, steps[0]);
      StepKeepsGood(cfg, w, steps[0]);
      RunsKeepAnnounced(cfg, Next(cfg, w, steps[0]), steps[1..]);
    }
  }

  /** Read off the empty start. */
  lemma EveryMessageWasAnnounced(cfg: Config, steps: seq<Step>, m: Message)
    requires Wired(cfg) && Possible(cfg, EMPTY, steps) && m in Run(cfg, EMPTY, steps).out.messages
    ensures var events := Run(cfg, EMPTY, steps).out.events;
            exists k :: 0 <= k < |events| && events[k].JobCreated? && events[k].jobId == m.jobId
                        && events[k].tenantId == m.tenantId
  {
    EmptyIsGood(cfg);
    RunsKeepAnnounced(cfg, EMPTY, steps);
    assert CreatedIn(Run(cfg, EMPTY, steps).out.events, m);
  }
}
