/** What a single step can do to one job, one document and one version, over all kinds of step. */
module JobSteps {
  import opened Prelude
  import opened Jobs
  import opened Store
  import opened UseCases
  import opened Executor
  import opened Invariants
  import opened RowsKept
  import opened OutsideKept
  import opened Protocol
  import opened Reachability

  // ---- requests: every step but deliveries -------------------------------

  /** Jobs, versions and deleted documents are as they were, and documents keep their tenant. */
  ghost predicate OldRowsKept(db: Tables, after: Tables) {
    && (forall j | j in db.jobs :: j in after.jobs && after.jobs[j] == db.jobs[j])
    && Grows(db, after)
    && (forall d | d in db.docs && db.docs[d].deletedAt.Some? :: after.docs[d] == db.docs[d])
  }

  predicate NoUpserts(es: seq<Effect>) {
    forall i | 0 <= i < |es| :: !es[i].Upsert?
  }

  lemma CreateJobSummary(cfg: Config, db: Tables, r: JobRequest, id: Uuid)
    ensures OldRowsKept(db, CreateJobTx(cfg, db, r, id).db) && NoUpserts(CreateJobTx(cfg, db, r, id).effects)
    ensures CreateJobTx(cfg, db, r, id).db.jobs.Keys <= db.jobs.Keys + {id}
  {
  }

  lemma RegisterSummary(cfg: Config, db: Tables, d: Document, v: Version, content: Bytes, jobId: Uuid)
    ensures OldRowsKept(db, RegisterTx(cfg, db, d, v, content, jobId).db)
    ensures NoUpserts(RegisterTx(cfg, db, d, v, content, jobId).effects)
    ensures RegisterTx(cfg, db, d, v, content, jobId).db.jobs.Keys <= db.jobs.Keys + {jobId}
    ensures RegisterTx(cfg, db, d, v, content, jobId).db.versions.Keys <= db.versions.Keys + {v.id}
  {
  }

  lemma AttachSummary(db: Tables, d: Document, v: Version, content: Bytes)
    requires d.id in db.docs ==> db.docs[d.id].deletedAt.None?
    ensures OldRowsKept(db, AttachTx(db, d, v, content).db) && NoUpserts(AttachTx(db, d, v, content).effects)
    ensures AttachTx(db, d, v, content).db.versions.Keys <= db.versions.Keys + {v.id}
  {
  }

  lemma SaveDocumentSummary(db: Tables, d: Document)
    requires d.id in db.docs ==> db.docs[d.id].deletedAt.None?
    ensures OldRowsKept(db, SaveDocument(db, d))
  {
  }

  ghost predicate Summary(db: Tables, tx: Tx, drawn: set<Uuid>) {
    && OldRowsKept(db, tx.db) && NoUpserts(tx.effects)
    && tx.db.jobs.Keys <= db.jobs.Keys + drawn && tx.db.versions.Keys <= db.versions.Keys + drawn
  }

  lemma UploadSummary(cfg: Config, db: Tables, u: UploadInput, d: Uuid, v: Uuid, j: Uuid, at: Instant)
    ensures Summary(db, UploadTx(cfg, db, u, d, v, j, at), {d, v, j})
  {
    var checked := ValidateUpload(cfg.upload, u.originalFilename, u.content, u.contentType);
    if checked.Success? {
      RegisterSummary(cfg, db, NewDocument(u, checked.value, d, v), NewVersion(cfg, u, checked.value, d, v, 1, at),
                      u.content, j);
    }
  }

  lemma AddVersionSummary(cfg: Config, db: Tables, u: UploadInput, d: Uuid, v: Uuid, at: Instant)
    requires DocKeys(db.docs)
    ensures Summary(db, AddVersionTx(cfg, db, u, d, v, at), {v})
  {
    var checked := ValidateUpload(cfg.upload, u.originalFilename, u.content, u.contentType);
    var found := GetDocument(db, u.tenantId, d);
    if checked.Success? && found.Some? {
      AttachSummary(db, found.value, NewVersion(cfg, u, checked.value, d, v, NextNumber(db, d), at), u.content);
    }
  }

  lemma DeleteSummary(db: Tables, tenantId: string, d: Uuid, at: Instant)
    requires DocKeys(db.docs)
    ensures Summary(db, DeleteTx(db, tenantId, d, at), {})
  {
    if GetDocument(db, tenantId, d).Some? {
      SaveDocumentSummary(db, db.docs[d].(status := Deleted, deletedAt := Some(at)));
    }
  }

  lemma UpdateSummary(db: Tables, tenantId: string, d: Uuid, c: Changes)
    requires DocKeys(db.docs)
    ensures Summary(db, UpdateMetadataTx(db, tenantId, d, c), {})
  {
    if GetDocument(db, tenantId, d).Some? {
      SaveDocumentSummary(db, Changed(db.docs[d], c));
    }
  }

  /** No request changes a job, a version or a deleted document, or touches the index. */
  lemma RequestSummary(cfg: Config, w: World, s: Step)
    requires DocKeys(w.db.docs) && !s.Redeliver? && !s.Deliver?
    ensures Summary(w.db, Transaction(cfg, w, s), Drawn(s))
  {
    match s
    case CreateJob(request, jobId, _) => CreateJobSummary(cfg, w.db, request, jobId);
    case Upload(u, d, v, j, at, _) => UploadSummary(cfg, w.db, u, d, v, j, at);
    case AddVersion(u, d, v, at, _) => AddVersionSummary(cfg, w.db, u, d, v, at);
    case Delete(tenantId, d, at, _) => DeleteSummary(w.db, tenantId, d, at);
    case UpdateMetadata(tenantId, d, changes, _) => UpdateSummary(w.db, tenantId, d, changes);
  }

  // ---- deliveries --------------------------------------------------------

  /** The rows an attempt on job j commits, and the documents its upserts may touch. */
  lemma AttemptSummary(cfg: Config, db: Tables, blobs: map<string, Bytes>, m: Message, c: Chance)
    requires RowsOk(cfg, db) && Runnable(db, m)
    ensures var j := db.jobs[m.jobId];
            var k := Execute(cfg, db, blobs, j, c).job;
            var tx := HandleTx(cfg, db, blobs, m, c);
            && tx.problem.None? && tx.db.versions == db.versions && tx.db.jobs == db.jobs[m.jobId := k]
            && j.status == Queued && Became(cfg, j, k, FateOf(k))
            && (tx.db.docs == db.docs
                || (GetDocument(db, j.tenantId, j.documentId).Some?
                    && tx.db.docs == db.docs[j.documentId := db.docs[j.documentId].(status := Processed)]))
            && (j.jobType in cfg.registry && cfg.registry[j.jobType].Ingestion? && FateOf(k) == Done ==>
                  GetDocument(db, j.tenantId, j.documentId).Some?)
            && forall e | e in tx.effects && e.Upsert? ::
                 e.call.documentId == j.documentId && GetDocument(db, j.tenantId, j.documentId).Some?
  {
    RowsPointers(db);
    ExecuteOutcome(cfg, db, blobs, db.jobs[m.jobId], c);
    WorkerPartOutcome(cfg, db, blobs, db.jobs[m.jobId], c);
  }

  /** The step is a committed attempt on job j. */
  predicate Attempts(cfg: Config, w: World, s: Step, j: Uuid) {
    s.Deliver? && s.message.jobId == j && Runnable(w.db, s.message) && Commits(cfg, w, s)
  }

  lemma JobAfterRequest(cfg: Config, w: World, s: Step, j: Uuid, x: World)
    requires DocKeys(w.db.docs) && j in w.db.jobs && !s.Redeliver? && !s.Deliver? && x == Next(cfg, w, s)
    ensures j in x.db.jobs && x.db.jobs[j] == w.db.jobs[j]
  {
    RequestSummary(cfg, w, s);
    NextIs(cfg, w, s, Transaction(cfg, w, s));
  }

  lemma JobAfterDelivery(cfg: Config, w: World, s: Step, j: Uuid, x: World)
    requires RowsOk(cfg, w.db) && j in w.db.jobs && s.Deliver? && x == Next(cfg, w, s)
    ensures j in x.db.jobs
    ensures x.db.jobs[j] == if Attempts(cfg, w, s, j) then Execute(cfg, w.db, w.out.blobs, w.db.jobs[j], s.chance).job
                            else w.db.jobs[j]
  {
    NextIs(cfg, w, s, HandleTx(cfg, w.db, w.out.blobs, s.message, s.chance));
    if Runnable(w.db, s.message) { AttemptSummary(cfg, w.db, w.out.blobs, s.message, s.chance); }
  }

  /** Only a committed attempt on a job changes its row. */
  lemma JobAfterStep(cfg: Config, w: World, s: Step, j: Uuid)
    requires RowsOk(cfg, w.db) && j in w.db.jobs
    ensures var x := Next(cfg, w, s);
            && j in x.db.jobs
            && (!Attempts(cfg, w, s, j) ==> x.db.jobs[j] == w.db.jobs[j])
            && (Attempts(cfg, w, s, j) ==>
                  && w.db.jobs[j].status == Queued
                  && x.db.jobs[j] == Execute(cfg, w.db, w.out.blobs, w.db.jobs[j], s.chance).job
                  && Became(cfg, w.db.jobs[j], x.db.jobs[j], FateOf(x.db.jobs[j])))
  {
    if s.Deliver? {
      JobAfterDelivery(cfg, w, s, j, Next(cfg, w, s));
      if Runnable(w.db, s.message) { AttemptSummary(cfg, w.db, w.out.blobs, s.message, s.chance); }
    } else if !s.Redeliver? {
      JobAfterRequest(cfg, w, s, j, Next(cfg, w, s));
    }
  }

  predicate Waits(jobs: map<Uuid, Job>, j: Uuid, d: Uuid, jobType: JobType) {
    j in jobs && jobs[j].status == Queued && jobs[j].documentId == d && jobs[j].jobType == jobType
  }

  /** In a committed state the job that holds a slot is QUEUED. */
  lemma SlotIsQueued(cfg: Config, db: Tables, d: Uuid, jobType: JobType)
    requires JobsOk(cfg, db.jobs)
    ensures SlotTaken(db, d, jobType) <==> exists j :: Waits(db.jobs, j, d, jobType)
  {
    if SlotTaken(db, d, jobType) {
      var j :| j in db.jobs && Occupies(db.jobs[j], d, jobType);
      assert Waits(db.jobs, j, d, jobType);
    }
    if j :| Waits(db.jobs, j, d, jobType) {
      assert Occupies(db.jobs[j], d, jobType);
    }
  }

  /** A creation is refused exactly for a QUEUED job of the same document and type, or for a document that is not there. */
  lemma CreateJobOutcome(cfg: Config, w: World, s: Step)
    requires Good(cfg, w) && Enabled(w, s) && s.CreateJob?
    ensures Transaction(cfg, w, s).problem ==
              if exists j :: Waits(w.db.jobs, j, s.request.documentId, s.request.jobType) then Some(Conflict)
              else if s.request.documentId !in w.db.docs then Some(Integrity) else None
  {
    SlotIsQueued(cfg, w.db, s.request.documentId, s.request.jobType);
  }

  /** A job once COMPLETED or FAILED in a committed state stays exactly as it is, in every run. */
  lemma {:induction false} FinishedJobIsFrozen(cfg: Config, w: World, steps: seq<Step>, j: Uuid)
    requires Good(cfg, w) && Wired(cfg) && Possible(cfg, w, steps)
    requires j in w.db.jobs && w.db.jobs[j].status != Queued
    ensures j in Run(cfg, w, steps).db.jobs && Run(cfg, w, steps).db.jobs[j] == w.db.jobs[j]
    decreases |steps|
  {
    if steps == [] {
    } else {
      JobAfterStep(cfg, w, steps[0], j);
      StepKeepsGood(cfg, w, steps[0]);
      FinishedJobIsFrozen(cfg, Next(cfg, w, steps[0]), steps[1..], j);
    }
  }

  /** Upserts appear in the history only through upsert effects. */
  lemma {:induction false} NewUpserts(o: Outside, es: seq<Effect>, d: Uuid)
    requires forall e | e in es && e.Upsert? :: e.call.documentId != d
    ensures var p := PerformAll(o, es);
            o.upserts <= p.upserts && forall i | |o.upserts| <= i < |p.upserts| :: p.upserts[i].documentId != d
    decreases |es|
  {
    if es == [] {
    } else {
      NewUpserts(o, es[..|es| - 1], d);
      assert es[|es| - 1] in es;
    }
  }

  predicate NoNewUpserts(before: seq<UpsertCall>, after: seq<UpsertCall>, d: Uuid) {
    before <= after && forall i | |before| <= i < |after| :: after[i].documentId != d
  }

  /** Only deliveries upsert, and only for live documents. */
  lemma NoUpsertEffects(cfg: Config, w: World, s: Step, d: Uuid)
    requires RowsOk(cfg, w.db) && !s.Redeliver? && d in w.db.docs && w.db.docs[d].deletedAt.Some?
    ensures forall e | e in Transaction(cfg, w, s).effects && e.Upsert? :: e.call.documentId != d
  {
    if s.Deliver? {
      if Runnable(w.db, s.message) { AttemptSummary(cfg, w.db, w.out.blobs, s.message, s.chance); }
    } else {
      RequestSummary(cfg, w, s);
    }
  }

  /** Deletion is absorbing: no step, committed or not, changes a deleted document or upserts for it. */
  lemma DeletedStaysUntouched(cfg: Config, w: World, s: Step, d: Uuid)
    requires Good(cfg, w) && Enabled(w, s) && d in w.db.docs && w.db.docs[d].deletedAt.Some?
    ensures var x := Next(cfg, w, s);
            d in x.db.docs && x.db.docs[d] == w.db.docs[d] && NoNewUpserts(w.out.upserts, x.out.upserts, d)
  {
    if !s.Redeliver? {
      DeletedRowStays(cfg, w, s, d);
      NoUpsertEffects(cfg, w, s, d);
      var es := Transaction(cfg, w, s).effects[..Reached(s.fuse, |Transaction(cfg, w, s).effects|)];
      NewUpserts(w.out, es, d);
    }
  }

  lemma DeletedRowStays(cfg: Config, w: World, s: Step, d: Uuid)
    requires RowsOk(cfg, w.db) && !s.Redeliver? && d in w.db.docs && w.db.docs[d].deletedAt.Some?
    ensures var tx := Transaction(cfg, w, s);
            d in tx.db.docs && tx.db.docs[d] == w.db.docs[d]
  {
    if s.Deliver? {
      if Runnable(w.db, s.message) { AttemptSummary(cfg, w.db, w.out.blobs, s.message, s.chance); }
    } else {
      RequestSummary(cfg, w, s);
    }
  }

  // ---- jobs of a deleted document ----------------------------------------

  function CountAttempts(cfg: Config, w: World, steps: seq<Step>, j: Uuid): nat
    decreases |steps|
  {
    if steps == [] then 0
    else (if Attempts(cfg, w, steps[0], j) then 1 else 0) + CountAttempts(cfg, Next(cfg, w, steps[0]), steps[1..], j)
  }

  /** max_retries as a budget: a negative setting grants none. */
  function Budget(cfg: Config): nat {
    if cfg.maxRetries < 0 then 0 else cfg.maxRetries
  }

  predicate DoomedIngestion(cfg: Config, db: Tables, j: Uuid) {
    && j in db.jobs && db.jobs[j].jobType == DocumentIngestion && DocumentIngestion in cfg.registry
    && db.jobs[j].documentId in db.docs && db.docs[db.jobs[j].documentId].deletedAt.Some?
  }

  /** An attempt to ingest a deleted document is retried while the budget lasts and then given up. */
  lemma AttemptOnDeleted(cfg: Config, w: World, s: Step, j: Uuid)
    requires RowsOk(cfg, w.db) && Wired(cfg) && DoomedIngestion(cfg, w.db, j) && Attempts(cfg, w, s, j)
    ensures j in Next(cfg, w, s).db.jobs
    ensures FateOf(Next(cfg, w, s).db.jobs[j]) == if w.db.jobs[j].retryCount < Budget(cfg) then TriedAgain else GivenUp
  {
    JobAfterStep(cfg, w, s, j);
    AttemptSummary(cfg, w.db, w.out.blobs, s.message, s.chance);
  }

  lemma DoomedStaysDoomed(cfg: Config, w: World, s: Step, j: Uuid)
    requires RowsOk(cfg, w.db) && DoomedIngestion(cfg, w.db, j)
    ensures DoomedIngestion(cfg, Next(cfg, w, s).db, j)
  {
    JobAfterStep(cfg, w, s, j);
    if !s.Redeliver? { DeletedRowStays(cfg, w, s, w.db.jobs[j].documentId); }
  }

  /** Where a doomed job stands after `a` attempts, with `left` retries to go. */
  predicate Doomed(cfg: Config, before: Job, after: Job, a: nat) {
    var left := Budget(cfg) - before.retryCount;
    && a <= left + 1
    && (a <= left ==> after.status == Queued && after.retryCount == before.retryCount + a)
    && (a == left + 1 ==> after.status == Failed && after.retryCount == Budget(cfg))
  }

  lemma DoomedStep(cfg: Config, w: World, s: Step, j: Uuid)
    requires Good(cfg, w) && Wired(cfg) && Enabled(w, s)
    requires DoomedIngestion(cfg, w.db, j) && w.db.jobs[j].status == Queued
    ensures var x := Next(cfg, w, s);
            var d := w.db.jobs[j].documentId;
            && DoomedIngestion(cfg, x.db, j) && x.db.jobs[j].documentId == d
            && Doomed(cfg, w.db.jobs[j], x.db.jobs[j], if Attempts(cfg, w, s, j) then 1 else 0)
            && x.db.docs[d] == w.db.docs[d] && NoNewUpserts(w.out.upserts, x.out.upserts, d)
  {
    JobAfterStep(cfg, w, s, j);
    DeletedStaysUntouched(cfg, w, s, w.db.jobs[j].documentId);
    DoomedStaysDoomed(cfg, w, s, j);
    if Attempts(cfg, w, s, j) { AttemptOnDeleted(cfg, w, s, j); }
  }

  /**
   * A QUEUED ingestion of a deleted document: after a committed attempts it is QUEUED with a more retries, until attempt
   * number max_retries - retry_count + 1 leaves it FAILED with the whole budget spent; document and index never change.
   */
  lemma {:induction false} DeletedDocumentRun(cfg: Config, w: World, steps: seq<Step>, j: Uuid)
    requires Good(cfg, w) && Wired(cfg) && Possible(cfg, w, steps)
    requires DoomedIngestion(cfg, w.db, j) && w.db.jobs[j].status == Queued
    ensures var d := w.db.jobs[j].documentId;
            var x := Run(cfg, w, steps);
            && j in x.db.jobs && d in x.db.docs
            && Doomed(cfg, w.db.jobs[j], x.db.jobs[j], CountAttempts(cfg, w, steps, j))
            && x.db.docs[d] == w.db.docs[d]
            && NoNewUpserts(w.out.upserts, x.out.upserts, d)
    decreases |steps|
  {
    if steps == [] {
      assert w.db.jobs[j].retryCount <= Budget(cfg);
    } else {
      var x := Next(cfg, w, steps[0]);
      DoomedStep(cfg, w, steps[0], j);
      StepKeepsGood(cfg, w, steps[0]);
      if x.db.jobs[j].status == Queued {
        DeletedDocumentRun(cfg, x, steps[1..], j);
      } else {
        NoMoreAttempts(cfg, x, steps[1..], j);
        FinishedJobIsFrozen(cfg, x, steps[1..], j);
        DeletedForever(cfg, x, steps[1..], w.db.jobs[j].documentId);
      }
    }
  }

  /** A finished job is attempted no more. */
  lemma {:induction false} NoMoreAttempts(cfg: Config, w: World, steps: seq<Step>, j: Uuid)
    requires Good(cfg, w) && Wired(cfg) && Possible(cfg, w, steps)
    requires j in w.db.jobs && w.db.jobs[j].status != Queued
    ensures CountAttempts(cfg, w, steps, j) == 0
    decreases |steps|
  {
    if steps == [] {
    } else {
      JobAfterStep(cfg, w, steps[0], j);
      StepKeepsGood(cfg, w, steps[0]);
      NoMoreAttempts(cfg, Next(cfg, w, steps[0]), steps[1..], j);
    }
  }

  /** A deleted document and its part of the upsert history are the same at the end of every run. */
  lemma {:induction false} DeletedForever(cfg: Config, w: World, steps: seq<Step>, d: Uuid)
    requires Good(cfg, w) && Wired(cfg) && Possible(cfg, w, steps)
    requires d in w.db.docs && w.db.docs[d].deletedAt.Some?
    ensures var x := Run(cfg, w, steps);
            d in x.db.docs && x.db.docs[d] == w.db.docs[d] && NoNewUpserts(w.out.upserts, x.out.upserts, d)
    decreases |steps|
  {
    if steps == [] {
    } else {
      DeletedStaysUntouched(cfg, w, steps[0], d);
      StepKeepsGood(cfg, w, steps[0]);
      DeletedForever(cfg, Next(cfg, w, steps[0]), steps[1..], d);
    }
  }
}
