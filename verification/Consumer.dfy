/** The worker process as statements: the pipeline, the executor, the message handler and the consuming loop. */
module Consumer {
  import opened Prelude
  import opened Keys
  import opened Jobs
  import opened Store
  import opened UseCases
  import opened Invariants
  import opened Sessions
  import opened Repositories
  import P = Protocol
  import R = Reachability
  import D = Draining

  /** How a worker's run ends; CutOff is the interruption of the whole process. */
  datatype Attempt = Finished | Threw(message: string) | CutOff

  predicate RanAs(ran: Ran, o: Outside, fuse: Option<nat>, after: Outside, left: Option<nat>, rows: Tables, r: Attempt) {
    match r
    case Finished => ran.raised.None? && rows == ran.db && Did(o, fuse, ran.effects, after, left)
    case Threw(message) => ran.raised == Some(message) && rows == ran.db && Did(o, fuse, ran.effects, after, left)
    case CutOff => CutIn(o, fuse, ran.effects, after)
  }

  /** process_document.py */
  class ProcessDocumentUseCase {
    const lib: Libraries
    const documents: DocumentRepository
    const outside: Externals

    constructor (lib: Libraries, documents: DocumentRepository, outside: Externals)
      ensures this.lib == lib && this.documents == documents && this.outside == outside
    {
      this.lib, this.documents, this.outside := lib, documents, outside;
    }

    method Points(tenantId: string, documentId: Uuid, chunks: seq<string>, vectors: seq<seq<real>>) returns (points: seq<Point>)
      requires |chunks| == |vectors|
      ensures |points| == |chunks|
      ensures forall i | 0 <= i < |chunks| ::
                points[i] == Point(ChunkName(documentId, i), vectors[i], tenantId, documentId, i, chunks[i])
    {
      points := [];
      for k := 0 to |chunks|
        invariant |points| == k
        invariant forall i | 0 <= i < k ::
                    points[i] == Point(ChunkName(documentId, i), vectors[i], tenantId, documentId, i, chunks[i])
      {
        points := points + [Point(ChunkName(documentId, k), vectors[k], tenantId, documentId, k, chunks[k])];
      }
    }

    method Execute(tenantId: string, documentId: Uuid, fault: Fault) returns (r: Attempt)
      requires DocKeys(documents.session.rows.docs)
      modifies documents.session, outside
      ensures RanAs(ProcessDocument(lib, old(documents.session.rows), old(outside.state.blobs), tenantId, documentId, fault),
                    old(outside.state), old(outside.fuse), outside.state, outside.fuse, documents.session.rows, r)
    {
      ghost var rows, blobs := documents.session.rows, outside.state.blobs;
      var document := documents.Get(tenantId, documentId);
      if document == null { return Threw("document not found"); }
      var active := documents.LoadVersion(document.currentVersionId);
      if active.None? { return Threw("no active version"); }
      var version := active.value;

      if version.storagePath !in outside.state.blobs { return Threw("missing object"); }
      var content := outside.state.blobs[version.storagePath];
      if fault.BeforeUpsert? { return Threw(fault.message); }
      var parsed := lib.parse(content, version.mimeType);
      if parsed.None? { return Threw("parse"); }
      var chunks := lib.split(parsed.value);
      if chunks != [] {
        var vectors := lib.embed(chunks);
        if vectors.None? { return Threw("embed"); }
        if |vectors.value| != |chunks| { return Threw("zip"); }
        var points := Points(tenantId, document.id, chunks, vectors.value);
        assert points == PointsOf(lib, tenantId, documentId, content, version.mimeType).value;
        var ok := outside.UpsertPoints(UpsertCall(document.id, version.id, points));
        if !ok { return CutOff; }
        if fault.AfterUpsert? { return Threw(fault.message); }
      }
      document.status := Processed;
      documents.Update(document);
      return Finished;
    }
  }

  /** executor.py */
  class WorkerExecutor {
    const cfg: Config
    const jobs: JobRepository
    const pipeline: ProcessDocumentUseCase

    constructor (cfg: Config, jobs: JobRepository, pipeline: ProcessDocumentUseCase)
      ensures this.cfg == cfg && this.jobs == jobs && this.pipeline == pipeline
    {
      this.cfg, this.jobs, this.pipeline := cfg, jobs, pipeline;
    }

    /** One session for both repositories, and the configured libraries. */
    ghost predicate Wired()
      reads jobs.session
    {
      && jobs.session == pipeline.documents.session && pipeline.lib == cfg.lib
      && DocKeys(jobs.session.rows.docs)
    }

    method RunWorker(worker: Worker, job: ProcessingJob, c: Chance) returns (r: Attempt)
      requires Wired()
      modifies job, jobs.session, pipeline.outside
      ensures RanAs(UseCases.RunWorker(cfg, old(jobs.session.rows), old(pipeline.outside.state.blobs), worker,
                                       old(job.Record()), c),
                    old(pipeline.outside.state), old(pipeline.outside.fuse),
                    pipeline.outside.state, pipeline.outside.fuse, jobs.session.rows, r)
      ensures job.Record() == RunScript(old(job.Record()), c.calls).job
    {
      ghost var begun := job.Record();
      var k := 0;
      while k < |c.calls|
        invariant k <= |c.calls|
        invariant RunScript(job.Record(), c.calls[k..]) == RunScript(begun, c.calls)
        invariant job.id == begun.id && job.tenantId == begun.tenantId && job.documentId == begun.documentId
        invariant jobs.session.rows == old(jobs.session.rows)
        invariant pipeline.outside.state == old(pipeline.outside.state) && pipeline.outside.fuse == old(pipeline.outside.fuse)
      {
        var call := c.calls[k];
        assert c.calls[k..][0] == call && c.calls[k..][1..] == c.calls[k + 1..];
        var ok := job.DoAdvance(call.phase, call.progress);
        if !ok && !call.caught {
          return Threw(if !IsPhase(call.phase) then "not a processing phase" else "cannot advance");
        }
        k := k + 1;
      }
      assert c.calls[k..] == [];
      if worker.Ingestion? {
        r := pipeline.Execute(job.tenantId, job.documentId, c.fault);
      } else if c.ending.Some? {
        r := Threw(c.ending.value);
      } else {
        r := Finished;
      }
    }

    method PublishFailed(job: ProcessingJob) returns (ok: bool)
      modifies pipeline.outside
      ensures var message := if job.errorMessage.Some? then job.errorMessage.value else "";
              var e := [Publish(JobFailed(job.id, job.documentId, job.tenantId, message, job.retryCount))];
              if ok then Did(old(pipeline.outside.state), old(pipeline.outside.fuse), e, pipeline.outside.state, pipeline.outside.fuse)
              else CutIn(old(pipeline.outside.state), old(pipeline.outside.fuse), e, pipeline.outside.state)
    {
      ok := pipeline.outside.PublishEvent(
        JobFailed(job.id, job.documentId, job.tenantId,
                  if job.errorMessage.Some? then job.errorMessage.value else "", job.retryCount));
    }

    /** After the worker: complete, or fail and retry while the budget lasts. */
    method Close(job: ProcessingJob, raised: Option<string>, ended: Instant) returns (r: Outcome<bool>)
      modifies job, jobs.session, pipeline.outside
      ensures var s := Settle(cfg, old(job.Record()), raised, ended);
              && Ends(if s.problem.Some? then Tx(old(jobs.session.rows), [], s.problem)
                      else Tx(SaveJob(old(jobs.session.rows), s.job), [s.last], None),
                      old(pipeline.outside.state), old(pipeline.outside.fuse),
                      pipeline.outside.state, pipeline.outside.fuse, jobs.session.rows, r)
              && (!r.Interrupted? ==> job.Record() == s.job)
    {
      var outside := pipeline.outside;
      var ok;
      if raised.Some? {
        ok := job.DoFail(raised.value, ended);
        if !ok { return Raised(Invalid); }
        if job.CanRetry(cfg.maxRetries) {
          ok := job.DoRetry();
          jobs.Update(job);
          ok := outside.EnqueueJob(job.tenantId, job.id);
        } else {
          jobs.Update(job);
          ok := PublishFailed(job);
        }
      } else {
        ok := job.DoComplete(ended);
        if !ok { return Raised(Invalid); }
        jobs.Update(job);
        ok := outside.PublishEvent(JobCompleted(job.id, job.documentId, job.tenantId));
      }
      if ok { return Returned(true); } else { return Interrupted; }
    }

    method Execute(job: ProcessingJob, c: Chance) returns (r: Outcome<bool>)
      requires Wired()
      modifies job, jobs.session, pipeline.outside
      ensures var x := UseCases.Execute(cfg, old(jobs.session.rows), old(pipeline.outside.state.blobs), old(job.Record()), c);
              && Ends(x.tx, old(pipeline.outside.state), old(pipeline.outside.fuse),
                      pipeline.outside.state, pipeline.outside.fuse, jobs.session.rows, r)
              && (!r.Interrupted? ==> job.Record() == x.job)
    {
      var outside := pipeline.outside;
      var ok;
      if job.jobType !in cfg.registry {
        ok := job.DoFail(NO_WORKER, c.ended);
        if !ok { return Raised(Invalid); }
        jobs.Update(job);
        ok := PublishFailed(job);
        if ok { return Returned(true); } else { return Interrupted; }
      }
      ghost var o, f, j := outside.state, outside.fuse, job.Record();
      var worker := cfg.registry[job.jobType];
      ok := job.DoStart(worker.name, c.began);
      if !ok { return Raised(Invalid); }
      jobs.Update(job);

      ghost var begun, rows := job.Record(), jobs.session.rows;
      ghost var ran := UseCases.RunWorker(cfg, rows, o.blobs, worker, begun, c);
      ghost var settled := Settle(cfg, RunScript(begun, c.calls).job, ran.raised, c.ended);
      ghost var first := [Publish(StartedEvent(j, worker))];
      ghost var last := if settled.problem.Some? then [] else [settled.last];
      assert UseCases.Execute(cfg, old(jobs.session.rows), o.blobs, j, c).tx.effects == first + (ran.effects + last);
      ok := outside.PublishEvent(JobStarted(job.id, job.documentId, job.tenantId, worker.name));
      if !ok {
        CutEarlier(o, f, first, ran.effects + last, outside.state);
        return Interrupted;
      }
      ghost var o1, f1 := outside.state, outside.fuse;
      DidOne(o, f, first[0]);
      var attempt := RunWorker(worker, job, c);
      ghost var o2, f2 := outside.state, outside.fuse;
      if attempt.CutOff? {
        CutEarlier(o1, f1, ran.effects, last, o2);
        CutLater(o, f, first, o1, f1, ran.effects + last, o2);
        return Interrupted;
      }
      r := Close(job, if attempt.Threw? then Some(attempt.message) else None, c.ended);
      if r.Interrupted? {
        CutLater(o1, f1, ran.effects, o2, f2, last, outside.state);
        CutLater(o, f, first, o1, f1, ran.effects + last, outside.state);
      } else {
        DidBoth(o1, f1, ran.effects, o2, f2, last, outside.state, outside.fuse);
        DidBoth(o, f, first, o1, f1, ran.effects + last, outside.state, outside.fuse);
      }
    }
  }

  /** The session's body ran as the handler's transaction. */
  predicate HandlerEnds(cfg: Config, db: Tables, o: Outside, fuse: Option<nat>, m: Message, c: Chance, after: Outside,
                      left: Option<nat>, rows: Tables, r: Outcome<bool>)
  {
    Ends(HandleTx(cfg, db, o.blobs, m, c), o, fuse, after, left, rows, r)
  }

  /** `x` is the world after delivering the message, and `acked` whether the delivery committed. */
  predicate Delivered(cfg: Config, w: World, m: Message, c: Chance, fuse: Option<nat>, x: World, acked: bool) {
    x == P.Next(cfg, w, P.Deliver(m, c, fuse)) && acked == P.Commits(cfg, w, P.Deliver(m, c, fuse))
  }

  lemma DeliveryIs(cfg: Config, w: World, m: Message, c: Chance, fuse: Option<nat>, tx: Tx)
    requires tx == HandleTx(cfg, w.db, w.out.blobs, m, c)
    ensures var done := tx.problem.None? && Survives(fuse, |tx.effects|);
            var after := Finish(w, tx, fuse, {});
            Delivered(cfg, w, m, c, fuse, if done then P.Acknowledged(after, m) else after, done)
  {
  }

  lemma DeliveryFinishes(cfg: Config, w: World, m: Message, c: Chance, fuse: Option<nat>, after: Outside,
                         left: Option<nat>, rows: Tables, r: Outcome<bool>, x: World)
    requires HandlerEnds(cfg, w.db, w.out, fuse, m, c, after, left, rows, r)
    requires var done := r.Returned? && left != Some(0);
             x == World(if done then rows else w.db,
                        if done then after.(messages := after.messages - multiset{m}) else after, w.issued)
    ensures Delivered(cfg, w, m, c, fuse, x, r.Returned? && left != Some(0))
  {
    var tx := HandleTx(cfg, w.db, w.out.blobs, m, c);
    DeliveryIs(cfg, w, m, c, fuse, tx);
    SessionFinishes(w, tx, fuse, after, left, rows, r, {});
    assert w.issued + {} == w.issued;
  }

  lemma NeverCut(cfg: Config, w: World, m: Message, c: Chance, after: Outside, left: Option<nat>, rows: Tables,
                 r: Outcome<bool>)
    requires HandlerEnds(cfg, w.db, w.out, None, m, c, after, left, rows, r)
    ensures left.None?
  {
  }

  /** scripts/run_worker.py */
  class WorkerProcess {
    const cfg: Config
    const database: Database
    const outside: Externals

    constructor (cfg: Config, database: Database, outside: Externals)
      ensures this.cfg == cfg && this.database == database && this.outside == outside
    {
      this.cfg, this.database, this.outside := cfg, database, outside;
    }

    /** The system as others see it; `issued` are the ids drawn so far. */
    ghost function Seen(issued: set<Uuid>): World
      reads database, outside
    {
      World(database.committed, outside.state, issued)
    }

    /** The body of the session: an unknown or no longer QUEUED job is skipped. */
    method Process(session: Session, m: Message, c: Chance) returns (r: Outcome<bool>)
      requires DocKeys(session.rows.docs) && JobKeys(session.rows.jobs)
      modifies session, outside
      ensures HandlerEnds(cfg, old(session.rows), old(outside.state), old(outside.fuse), m, c,
                        outside.state, outside.fuse, session.rows, r)
    {
      var jobs := new JobRepository(session);
      var documents := new DocumentRepository(session);
      var job := jobs.Get(m.tenantId, m.jobId);
      if job == null { return Returned(false); }
      if job.status != Queued { return Returned(false); }
      var pipeline := new ProcessDocumentUseCase(cfg.lib, documents, outside);
      var executor := new WorkerExecutor(cfg, jobs, pipeline);
      r := executor.Execute(job, c);
    }

    /** One message in one session; acknowledged only after the commit, put back otherwise. */
    method HandleMessage(m: Message, c: Chance, ghost issued: set<Uuid>) returns (acked: bool)
      requires DocKeys(database.committed.docs) && JobKeys(database.committed.jobs)
      modifies database, outside
      ensures Delivered(cfg, old(Seen(issued)), m, c, old(outside.fuse), Seen(issued), acked)
      ensures old(outside.fuse).None? ==> outside.fuse.None?
    {
      ghost var w, f := Seen(issued), outside.fuse;
      var session := database.Open();
      var r := Process(session, m, c);
      ghost var after, left, rows := outside.state, outside.fuse, session.rows;
      if f.None? { NeverCut(cfg, w, m, c, after, left, rows, r); }
      acked := database.Leave(session, outside, !r.Returned?);
      if acked {
        outside.state := outside.state.(messages := outside.state.messages - multiset{m});
      }
      DeliveryFinishes(cfg, w, m, c, f, after, left, rows, r, Seen(issued));
    }

    /** One uninterrupted message of the loop: the invariant stays, and there is less left to do. */
    method HandleNext(m: Message, c: Chance, ghost issued: set<Uuid>)
      requires Good(cfg, Seen(issued)) && R.Wired(cfg) && outside.fuse.None? && m in outside.state.messages
      modifies database, outside
      ensures Good(cfg, Seen(issued)) && outside.fuse.None?
      ensures D.Measure(cfg, Seen(issued)) < D.Measure(cfg, old(Seen(issued)))
    {
      ghost var w := Seen(issued);
      D.DrainStep(cfg, w, P.Deliver(m, c, None), P.Next(cfg, w, P.Deliver(m, c, None)));
      var acked := HandleMessage(m, c, issued);
    }

    /**
     * `_run_forever`, until the queue is empty: without interruptions it gets there within the retries left plus the
     * messages waiting, and leaves every job COMPLETED or FAILED.
     */
    method RunUntilIdle(chances: nat -> Chance, ghost issued: set<Uuid>) returns (handled: nat)
      requires Good(cfg, Seen(issued)) && R.Wired(cfg) && outside.fuse.None?
      modifies database, outside
      ensures outside.state.messages == multiset{} && Good(cfg, Seen(issued))
      ensures handled <= D.Measure(cfg, old(Seen(issued)))
      ensures forall j | j in database.committed.jobs ::
                database.committed.jobs[j].status == Completed || database.committed.jobs[j].status == Failed
    {
      handled := 0;
      while outside.state.messages != multiset{}
        invariant Good(cfg, Seen(issued)) && outside.fuse.None?
        invariant handled + D.Measure(cfg, Seen(issued)) <= D.Measure(cfg, old(Seen(issued)))
        decreases D.Measure(cfg, Seen(issued))
      {
        var m :| m in outside.state.messages;
        HandleNext(m, chances(handled), issued);
        handled := handled + 1;
      }
      D.DrainedIsFinished(cfg, Seen(issued));
    }
  }
}
