/**
 * What the steps of `Protocol` take for granted about creations, and exactly what is lost without it: a creating request
 * commits before its message is delivered, and requests for one slot check and insert one after the other. Uploads that
 * interleave are in `Duplicates`, overlapping attempts in `Overlaps`, deletions during an attempt in `DeleteRaces`.
 */
module Hypotheses {
  import opened Prelude
  import opened Jobs
  import opened Store
  import opened UseCases
  import opened Executor
  import opened Invariants
  import opened RowsKept
  import opened Protocol
  import opened Reachability
  import opened JobSteps

  // ---- the message of a creation still in flight -------------------------

  /** Event and message are out, the row is not committed yet. */
  function InFlight(cfg: Config, w: World, r: JobRequest, id: Uuid): World {
    World(w.db, PerformAll(w.out, CreateJobTx(cfg, w.db, r, id).effects), w.issued + {id})
  }

  /** The commit arriving after whatever happened in between. */
  function LateCommit(cfg: Config, x: World, r: JobRequest, id: Uuid): World {
    x.(db := x.db.(jobs := x.db.jobs[id := RequestedJob(cfg, r, id)]))
  }

  lemma OwnMessageCovers(cfg: Config, x: World, r: JobRequest, id: Uuid)
    requires Covered(x.db, x.out.messages) && id !in x.db.jobs
    ensures Covered(LateCommit(cfg, x, r, id).db, LateCommit(cfg, x, r, id).out.messages)
       <==> Message(r.tenantId, id) in x.out.messages
  {
    var y := LateCommit(cfg, x, r, id);
    assert y.db.jobs[id] == RequestedJob(cfg, r, id);
    assert forall j | j in x.db.jobs :: y.db.jobs[j] == x.db.jobs[j];
  }

  /** How often the broker redelivers the message. */
  function Redeliveries(steps: seq<Step>, m: Message): nat {
    if steps == [] then 0
    else (if steps[0].Redeliver? && steps[0].message == m then 1 else 0) + Redeliveries(steps[1..], m)
  }

  predicate Acknowledges(cfg: Config, w: World, s: Step, m: Message) {
    s.Deliver? && s.message == m && Commits(cfg, w, s)
  }

  /** How often the consumer takes the message off the queue for good. */
  function Acknowledgements(cfg: Config, w: World, steps: seq<Step>, m: Message): nat
    decreases |steps|
  {
    if steps == [] then 0
    else (if Acknowledges(cfg, w, steps[0], m) then 1 else 0) + Acknowledgements(cfg, Next(cfg, w, steps[0]), steps[1..], m)
  }

  lemma {:induction false} SameCount(o: Outside, es: seq<Effect>, m: Message)
    requires Enqueue(m) !in es
    ensures PerformAll(o, es).messages[m] == o.messages[m]
    decreases |es|
  {
    if es == [] {
    } else {
      var n := |es| - 1;
      assert es[n] in es;
      SameCount(o, es[..n], m);
    }
  }

  lemma AttemptEnqueues(cfg: Config, db: Tables, blobs: map<string, Bytes>, j: Job, c: Chance, m: Message)
    requires RowsOk(cfg, db) && j.id in db.jobs && db.jobs[j.id] == j && j.status == Queued && m.jobId != j.id
    ensures Enqueue(m) !in Execute(cfg, db, blobs, j, c).tx.effects
  {
    RowsPointers(db);
    ExecuteOutcome(cfg, db, blobs, j, c);
    WorkerPartOutcome(cfg, db, blobs, j, c);
  }

  lemma RegisterEnqueues(cfg: Config, db: Tables, d: Document, v: Version, content: Bytes, jobId: Uuid, m: Message)
    requires m.jobId != jobId
    ensures Enqueue(m) !in RegisterTx(cfg, db, d, v, content, jobId).effects
  {
  }

  lemma UploadEnqueues(cfg: Config, db: Tables, u: UploadInput, d: Uuid, v: Uuid, j: Uuid, at: Instant, m: Message)
    requires m.jobId != j
    ensures Enqueue(m) !in UploadTx(cfg, db, u, d, v, j, at).effects
  {
    var checked := ValidateUpload(cfg.upload, u.originalFilename, u.content, u.contentType);
    if checked.Success? {
      RegisterEnqueues(cfg, db, NewDocument(u, checked.value, d, v), NewVersion(cfg, u, checked.value, d, v, 1, at),
                       u.content, j, m);
    }
  }

  lemma RequestEnqueuesOwn(cfg: Config, w: World, s: Step, m: Message)
    requires !s.Redeliver? && !s.Deliver? && m.jobId !in Drawn(s)
    ensures Enqueue(m) !in Transaction(cfg, w, s).effects
  {
    match s
    case Upload(u, d, v, j, at, _) => UploadEnqueues(cfg, w.db, u, d, v, j, at, m);
    case _ =>
  }

  /** Only the creation of a job, or a retry of its row, enqueues a message for it. */
  lemma NoStepEnqueues(cfg: Config, w: World, s: Step, m: Message)
    requires RowsOk(cfg, w.db) && !s.Redeliver? && m.jobId !in w.db.jobs && m.jobId !in Drawn(s)
    ensures Enqueue(m) !in Transaction(cfg, w, s).effects
  {
    if !s.Deliver? {
      RequestEnqueuesOwn(cfg, w, s, m);
    } else if Runnable(w.db, s.message) {
      AttemptEnqueues(cfg, w.db, w.out.blobs, w.db.jobs[s.message.jobId], s.chance, m);
    }
  }

  lemma CountAfterStep(cfg: Config, w: World, s: Step, m: Message, x: World)
    requires RowsOk(cfg, w.db) && Enabled(w, s) && m.jobId in w.issued && m.jobId !in w.db.jobs
    requires x == Next(cfg, w, s)
    ensures x.out.messages[m] + (if Acknowledges(cfg, w, s, m) then 1 else 0)
         == w.out.messages[m] + (if s.Redeliver? && s.message == m then 1 else 0)
  {
    if !s.Redeliver? {
      var tx := Transaction(cfg, w, s);
      var reached := tx.effects[..Reached(s.fuse, |tx.effects|)];
      NextIs(cfg, w, s, tx);
      NoStepEnqueues(cfg, w, s, m);
      assert forall e | e in reached :: e in tx.effects;
      SameCount(w.out, reached, m);
    }
  }

  /** While its job is not committed, a message's copies are those at the start, plus redeliveries, less acknowledgements. */
  lemma {:induction false} CountAfterRun(cfg: Config, w: World, steps: seq<Step>, m: Message)
    requires Good(cfg, w) && Wired(cfg) && Possible(cfg, w, steps) && m.jobId in w.issued && m.jobId !in w.db.jobs
    ensures var x := Run(cfg, w, steps);
            && m.jobId !in x.db.jobs && Covered(x.db, x.out.messages)
            && x.out.messages[m] + Acknowledgements(cfg, w, steps, m) == w.out.messages[m] + Redeliveries(steps, m)
    decreases |steps|
  {
    if steps == [] {
    } else {
      var x := Next(cfg, w, steps[0]);
      CountAfterStep(cfg, w, steps[0], m, x);
      NoJobUnderOldId(cfg, w, steps[0], m.jobId);
      StepKeepsGood(cfg, w, steps[0]);
      CountAfterRun(cfg, x, steps[1..], m);
    }
  }

  /**
   * For every schedule between the enqueueing and the commit: every QUEUED job is covered after the commit if and only if
   * the copies of the new job's message, redeliveries included, outnumber the deliveries already acknowledged.
   */
  lemma LateCommitCoveredIff(cfg: Config, w: World, r: JobRequest, id: Uuid, steps: seq<Step>)
    requires Good(cfg, w) && Wired(cfg) && id !in w.issued && CreateJobTx(cfg, w.db, r, id).problem.None?
    requires Possible(cfg, InFlight(cfg, w, r, id), steps)
    ensures var m := Message(r.tenantId, id);
            var f := InFlight(cfg, w, r, id);
            var y := LateCommit(cfg, Run(cfg, f, steps), r, id);
            Covered(y.db, y.out.messages) <==>
              w.out.messages[m] + 1 + Redeliveries(steps, m) > Acknowledgements(cfg, f, steps, m)
  {
    var f := InFlight(cfg, w, r, id);
    InFlightIsGood(cfg, w, r, id);
    InFlightMessages(cfg, w, r, id);
    CountAfterRun(cfg, f, steps, Message(r.tenantId, id));
    OwnMessageCovers(cfg, Run(cfg, f, steps), r, id);
  }

  // ---- the same for an upload, whose transaction also holds document and version ----

  /** The upload interrupted at its commit. */
  function CutAtCommit(cfg: Config, w: World, s: Step): Step
    requires s.Upload?
  {
    Upload(s.input, s.documentId, s.versionId, s.jobId, s.at, Some(|Transaction(cfg, w, s).effects|))
  }

  /** Everything an upload does outside the database, its commit still to come. */
  function UploadInFlight(cfg: Config, w: World, s: Step): World
    requires s.Upload?
  {
    Next(cfg, w, CutAtCommit(cfg, w, s))
  }

  function UploadedJob(cfg: Config, s: Step): Job
    requires s.Upload?
  {
    NewJob(s.jobId, s.documentId, s.input.tenantId, DocumentIngestion, Some(s.versionId), cfg.defaultPriority)
  }

  /** The upload's three rows arriving after whatever happened in between. */
  function LateUpload(cfg: Config, x: World, s: Step, d: Document, v: Version): World
    requires s.Upload?
  {
    x.(db := Tables(x.db.docs[s.documentId := d], x.db.versions[s.versionId := v],
                    x.db.jobs[s.jobId := UploadedJob(cfg, s)]))
  }

  lemma OwnMessageCoversUpload(cfg: Config, x: World, s: Step, d: Document, v: Version)
    requires s.Upload? && Covered(x.db, x.out.messages) && s.jobId !in x.db.jobs
    ensures Covered(LateUpload(cfg, x, s, d, v).db, LateUpload(cfg, x, s, d, v).out.messages)
       <==> Message(s.input.tenantId, s.jobId) in x.out.messages
  {
    var y := LateUpload(cfg, x, s, d, v);
    assert y.db.jobs[s.jobId] == UploadedJob(cfg, s);
    assert forall j | j in x.db.jobs :: y.db.jobs[j] == x.db.jobs[j];
  }

  lemma CreateJobMessages(cfg: Config, db: Tables, o: Outside, r: JobRequest, id: Uuid)
    requires CreateJobTx(cfg, db, r, id).problem.None?
    ensures PerformAll(o, CreateJobTx(cfg, db, r, id).effects).messages == o.messages + multiset{Message(r.tenantId, id)}
  {
    var es := CreateJobTx(cfg, db, r, id).effects;
    assert es == [es[0]] + [es[1]];
    PerformOneMore(o, [es[0]], es[1]);
    PerformSingle(o, es[0]);
  }

  lemma RegisterMessages(cfg: Config, db: Tables, o: Outside, d: Document, v: Version, content: Bytes, jobId: Uuid)
    requires RegisterTx(cfg, db, d, v, content, jobId).problem.None?
    ensures PerformAll(o, RegisterTx(cfg, db, d, v, content, jobId).effects).messages
         == o.messages + multiset{Message(d.tenantId, jobId)}
  {
    var db1 := db.(docs := db.docs[d.id := d], versions := db.versions[v.id := v]);
    var save, publish := Save(v.storagePath, content), Publish(DocumentUploaded(d.id, d.tenantId, v.id, v.number, v.checksum));
    PerformSingle(o, save);
    PerformOneMore(o, [save], publish);
    PerformInTwoParts(o, [save] + [publish], CreateJobTx(cfg, db1, IngestionRequest(d, v), jobId).effects);
    CreateJobMessages(cfg, db1, PerformAll(o, [save] + [publish]), IngestionRequest(d, v), jobId);
  }

  lemma UploadMessages(cfg: Config, db: Tables, o: Outside, u: UploadInput, d: Uuid, v: Uuid, j: Uuid, at: Instant)
    requires UploadTx(cfg, db, u, d, v, j, at).problem.None?
    ensures PerformAll(o, UploadTx(cfg, db, u, d, v, j, at).effects).messages == o.messages + multiset{Message(u.tenantId, j)}
  {
    var ext := ValidateUpload(cfg.upload, u.originalFilename, u.content, u.contentType).value;
    RegisterMessages(cfg, db, o, NewDocument(u, ext, d, v), NewVersion(cfg, u, ext, d, v, 1, at), u.content, j);
  }

  lemma UploadInFlightIs(cfg: Config, w: World, s: Step, f: World)
    requires Good(cfg, w) && Wired(cfg) && Enabled(w, s) && s.Upload? && Transaction(cfg, w, s).problem.None?
    requires f == UploadInFlight(cfg, w, s)
    ensures Good(cfg, f) && s.jobId in f.issued && s.jobId !in f.db.jobs
    ensures f.out.messages == w.out.messages + multiset{Message(s.input.tenantId, s.jobId)}
  {
    var tx, cut := Transaction(cfg, w, s), CutAtCommit(cfg, w, s);
    assert Drawn(cut) == Drawn(s) && s.jobId in Drawn(s);
    assert tx.effects[..|tx.effects|] == tx.effects;
    NextIs(cfg, w, cut, tx);
    StepKeepsGood(cfg, w, cut);
    UploadMessages(cfg, w.db, w.out, s.input, s.documentId, s.versionId, s.jobId, s.at);
  }

  /** The same exact condition for the request that creates jobs in the running service. */
  lemma LateUploadCoveredIff(cfg: Config, w: World, s: Step, steps: seq<Step>, d: Document, v: Version)
    requires Good(cfg, w) && Wired(cfg) && Enabled(w, s) && s.Upload? && Transaction(cfg, w, s).problem.None?
    requires Possible(cfg, UploadInFlight(cfg, w, s), steps)
    ensures var m := Message(s.input.tenantId, s.jobId);
            var f := UploadInFlight(cfg, w, s);
            var y := LateUpload(cfg, Run(cfg, f, steps), s, d, v);
            Covered(y.db, y.out.messages) <==>
              w.out.messages[m] + 1 + Redeliveries(steps, m) > Acknowledgements(cfg, f, steps, m)
  {
    var f := UploadInFlight(cfg, w, s);
    UploadInFlightIs(cfg, w, s, f);
    CountAfterRun(cfg, f, steps, Message(s.input.tenantId, s.jobId));
    OwnMessageCoversUpload(cfg, Run(cfg, f, steps), s, d, v);
  }

  predicate NeverDelivers(steps: seq<Step>, m: Message) {
    forall i | 0 <= i < |steps| :: !(steps[i].Deliver? && steps[i].message == m)
  }

  lemma {:induction false} NothingAcknowledged(cfg: Config, w: World, steps: seq<Step>, m: Message)
    requires NeverDelivers(steps, m)
    ensures Acknowledgements(cfg, w, steps, m) == 0
    decreases |steps|
  {
    if steps == [] {
    } else {
      NothingAcknowledged(cfg, Next(cfg, w, steps[0]), steps[1..], m);
    }
  }

  /** With the hypothesis: whatever else happens before the commit, the new job is covered. */
  lemma CommitBeforeDeliveryCovers(cfg: Config, w: World, r: JobRequest, id: Uuid, steps: seq<Step>)
    requires Good(cfg, w) && Wired(cfg) && id !in w.issued && CreateJobTx(cfg, w.db, r, id).problem.None?
    requires Possible(cfg, InFlight(cfg, w, r, id), steps) && NeverDelivers(steps, Message(r.tenantId, id))
    ensures var y := LateCommit(cfg, Run(cfg, InFlight(cfg, w, r, id), steps), r, id);
            Covered(y.db, y.out.messages)
  {
    LateCommitCoveredIff(cfg, w, r, id, steps);
    NothingAcknowledged(cfg, InFlight(cfg, w, r, id), steps, Message(r.tenantId, id));
  }

  lemma InFlightIsGood(cfg: Config, w: World, r: JobRequest, id: Uuid)
    requires Good(cfg, w) && Wired(cfg) && id !in w.issued && CreateJobTx(cfg, w.db, r, id).problem.None?
    ensures Good(cfg, InFlight(cfg, w, r, id))
  {
    var s := CreateJob(r, id, Some(2));
    var tx := CreateJobTx(cfg, w.db, r, id);
    assert tx.effects[..2] == tx.effects;
    assert Next(cfg, w, s) == InFlight(cfg, w, r, id);
    StepKeepsGood(cfg, w, s);
  }

  lemma InFlightMessages(cfg: Config, w: World, r: JobRequest, id: Uuid)
    requires CreateJobTx(cfg, w.db, r, id).problem.None?
    ensures InFlight(cfg, w, r, id).out.messages == w.out.messages + multiset{Message(r.tenantId, id)}
  {
    CreateJobMessages(cfg, w.db, w.out, r, id);
  }

  lemma NoJobUnderOldId(cfg: Config, w: World, s: Step, id: Uuid)
    requires RowsOk(cfg, w.db) && Enabled(w, s) && id in w.issued && id !in w.db.jobs
    ensures id in Next(cfg, w, s).issued && id !in Next(cfg, w, s).db.jobs
  {
    if !s.Redeliver? {
      NextIs(cfg, w, s, Transaction(cfg, w, s));
      if s.Deliver? {
        if Runnable(w.db, s.message) { AttemptSummary(cfg, w.db, w.out.blobs, s.message, s.chance); }
      } else {
        RequestSummary(cfg, w, s);
      }
    }
  }

  /** Without it: delivered while in flight, the message is skipped as unknown and the job is stranded QUEUED. */
  lemma DeliveryBeforeCommitStrands(cfg: Config, w: World, r: JobRequest, id: Uuid, c: Chance)
    requires Good(cfg, w) && Wired(cfg) && id !in w.issued && CreateJobTx(cfg, w.db, r, id).problem.None?
    requires Message(r.tenantId, id) !in w.out.messages
    ensures var f := InFlight(cfg, w, r, id);
            var s := Deliver(Message(r.tenantId, id), c, None);
            var y := LateCommit(cfg, Next(cfg, f, s), r, id);
            && Enabled(f, s) && y.db.jobs[id].status == Queued && !Covered(y.db, y.out.messages)
  {
    var f := InFlight(cfg, w, r, id);
    var m := Message(r.tenantId, id);
    var s := Deliver(m, c, None);
    InFlightMessages(cfg, w, r, id);
    assert Acknowledges(cfg, f, s, m);
    assert Run(cfg, f, [s]) == Next(cfg, f, s);
    assert Acknowledgements(cfg, f, [s], m) == 1;
    LateCommitCoveredIff(cfg, w, r, id, [s]);
  }

  // ---- two creations for one slot ----------------------------------------

  /** Both requests checked before either inserted: one active job per slot survives exactly when the slots differ. */
  lemma InterleavedChecksCollideIff(cfg: Config, db: Tables, r1: JobRequest, id1: Uuid, r2: JobRequest, id2: Uuid)
    requires OneActive(db.jobs) && id1 != id2
    requires CreateJobTx(cfg, db, r1, id1).problem.None? && CreateJobTx(cfg, db, r2, id2).problem.None?
    ensures OneActive(db.jobs[id1 := RequestedJob(cfg, r1, id1)][id2 := RequestedJob(cfg, r2, id2)])
       <==> !(r1.documentId == r2.documentId && r1.jobType == r2.jobType)
  {
    var after := db.jobs[id1 := RequestedJob(cfg, r1, id1)][id2 := RequestedJob(cfg, r2, id2)];
    if OneActive(after) {
      assert SameSlot(after[id1], after[id2]) ==> id1 == id2;
    } else {
      assert forall i | i in db.jobs :: after[i] == db.jobs[i] && FreeOf(db.jobs[i], r1) && FreeOf(db.jobs[i], r2);
      var a, b :| a in after && b in after && SameSlot(after[a], after[b]) && a != b;
    }
  }

  predicate FreeOf(j: Job, r: JobRequest) {
    !Occupies(j, r.documentId, r.jobType)
  }

  // ---- two consumers at once ---------------------------------------------

  /**
   * The retry message is out before the commit, so a second consumer may run the job from the same row. When both
   * attempts are granted a retry, the later commit overwrites the earlier one: two attempts ran, one retry is counted.
   */
  lemma OverlappingAttemptsCountOnce(cfg: Config, db: Tables, blobs: map<string, Bytes>, j: Job, c1: Chance, c2: Chance,
                                     first: Executed, second: Executed)
    requires RowsOk(cfg, db) && j.id in db.jobs && db.jobs[j.id] == j && j.status == Queued
    requires first == Execute(cfg, db, blobs, j, c1) && FateOf(first.job) == TriedAgain
    requires second == Execute(cfg, db, blobs, j, c2) && FateOf(second.job) == TriedAgain
    ensures SaveJob(second.tx.db, first.job) == first.tx.db
    ensures first.job.retryCount == j.retryCount + 1 && second.job.retryCount == j.retryCount + 1
  {
    RowsPointers(db);
    RetriedRows(cfg, db, blobs, j, c1, first);
    RetriedRows(cfg, db, blobs, j, c2, second);
    assert SaveJob(second.tx.db, first.job).jobs[j.id] == first.job;
  }

  lemma RetriedRows(cfg: Config, db: Tables, blobs: map<string, Bytes>, j: Job, c: Chance, x: Executed)
    requires PointersOk(db) && JobsOk(cfg, db.jobs) && j.id in db.jobs && db.jobs[j.id] == j && j.status == Queued
    requires x == Execute(cfg, db, blobs, j, c) && FateOf(x.job) == TriedAgain
    ensures x.tx.db == db.(jobs := db.jobs[j.id := x.job]) && Became(cfg, j, x.job, TriedAgain)
  {
    ExecuteOutcome(cfg, db, blobs, j, c);
    WorkerPartOutcome(cfg, db, blobs, j, c);
  }
}
