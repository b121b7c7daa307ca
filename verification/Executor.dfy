/** What one execution of a job can do: properties of `Execute` for every worker script and every fault. */
module Executor {
  import opened Prelude
  import opened Jobs
  import opened Store
  import opened UseCases
  import opened Chunks

  predicate SameIdentity(j: Job, k: Job) {
    && k.id == j.id && k.documentId == j.documentId && k.tenantId == j.tenantId && k.jobType == j.jobType
    && k.versionId == j.versionId && k.priority == j.priority
  }

  predicate UnderWay(s: Status) {
    s == Running || IsPhase(s)
  }

  /** No sequence of advance calls, valid or not, caught or not, leaves the running states or touches the retry count. */
  lemma {:induction false} ScriptsStayUnderWay(j: Job, calls: seq<AdvanceCall>)
    requires UnderWay(j.status) && RecordOk(j)
    ensures var k := RunScript(j, calls).job;
            UnderWay(k.status) && RecordOk(k) && SameIdentity(j, k)
            && k.retryCount == j.retryCount && k.workerName == j.workerName
    decreases |calls|
  {
    if calls == [] {
    } else {
      ScriptsStayUnderWay(Attempted(j, Advance(calls[0].phase, calls[0].progress)), calls[1..]);
    }
  }

  /** An upsert carries one point for every chunk of the version's stored bytes. */
  predicate FaithfulCall(lib: Libraries, db: Tables, blobs: map<string, Bytes>, call: UpsertCall) {
    && call.documentId in db.docs
    && call.versionId in db.versions
    && db.versions[call.versionId].documentId == call.documentId
    && db.versions[call.versionId].storagePath in blobs
    && Carries(lib, db.docs[call.documentId].tenantId, call.documentId,
               blobs[db.versions[call.versionId].storagePath], db.versions[call.versionId].mimeType, call.points)
  }

  /** The rows after a successful pipeline: the document is PROCESSED and nothing else differs. */
  predicate MarksProcessed(db: Tables, after: Tables, documentId: Uuid) {
    && documentId in db.docs
    && db.docs[documentId].deletedAt.None?
    && after == db.(docs := db.docs[documentId := db.docs[documentId].(status := Processed)])
  }

  /** A version pointer names a version row of that very document. */
  predicate PointersOk(db: Tables) {
    && (forall k | k in db.docs :: db.docs[k].id == k)
    && (forall k | k in db.versions :: db.versions[k].id == k)
    && forall d {:trigger PointerOk(db, d)} | d in db.docs :: PointerOk(db, d)
  }

  predicate PointerOk(db: Tables, d: Uuid)
    requires d in db.docs
  {
    var current := db.docs[d].currentVersionId;
    current.Some? && current.value in db.versions ==> db.versions[current.value].documentId == d
  }

  lemma ProcessDocumentOutcome(lib: Libraries, db: Tables, blobs: map<string, Bytes>, tenantId: string,
                               documentId: Uuid, fault: Fault)
    requires PointersOk(db)
    ensures var ran := ProcessDocument(lib, db, blobs, tenantId, documentId, fault);
            && (ran.raised.Some? ==> ran.db == db)
            && (ran.raised.None? ==> MarksProcessed(db, ran.db, documentId))
            && |ran.effects| <= 1
            && forall e | e in ran.effects ::
                 e.Upsert? && e.call.documentId == documentId && FaithfulCall(lib, db, blobs, e.call)
                 && GetDocument(db, tenantId, documentId).Some?
  {
    var ran := ProcessDocument(lib, db, blobs, tenantId, documentId, fault);
    if documentId in db.docs {
      assert PointerOk(db, documentId);
    }
    if GetDocument(db, tenantId, documentId).Some? {
      PipelinePoints(lib, db, blobs, tenantId, documentId, fault);
    }
    if ran.raised.None? {
      var d := db.docs[documentId];
      assert SaveDocument(db, d.(status := Processed)) == db.(docs := db.docs[documentId := d.(status := Processed)]);
    }
  }

  lemma PipelinePoints(lib: Libraries, db: Tables, blobs: map<string, Bytes>, tenantId: string, documentId: Uuid,
                       fault: Fault)
    requires PointersOk(db) && GetDocument(db, tenantId, documentId).Some?
    ensures forall e | e in ProcessDocument(lib, db, blobs, tenantId, documentId, fault).effects ::
              e.Upsert? && FaithfulCall(lib, db, blobs, e.call)
  {
    assert PointerOk(db, documentId);
    var current := db.docs[documentId].currentVersionId;
    if current.Some? && current.value in db.versions && db.versions[current.value].storagePath in blobs {
      var version := db.versions[current.value];
      PointsCarryEveryChunk(lib, tenantId, documentId, blobs[version.storagePath], version.mimeType);
    }
  }

  datatype Fate = Done | TriedAgain | GivenUp

  /** The job after an attempt, by fate; `k` counts the job row the attempt commits. */
  predicate Became(cfg: Config, j: Job, k: Job, fate: Fate) {
    && SameIdentity(j, k) && RecordOk(k)
    && match fate
       case Done => k.status == Completed && k.retryCount == j.retryCount && j.jobType in cfg.registry
       case TriedAgain => k.status == Queued && k.retryCount == j.retryCount + 1 && j.retryCount < cfg.maxRetries
                          && j.jobType in cfg.registry
       case GivenUp => k.status == Failed && k.retryCount == j.retryCount
                       && (j.jobType in cfg.registry ==> j.retryCount >= cfg.maxRetries)
  }

  function FateOf(k: Job): Fate {
    if k.status == Completed then Done else if k.status == Queued then TriedAgain else GivenUp
  }

  function LastEffect(j: Job, k: Job): Effect {
    match FateOf(k)
    case Done => Publish(CompletedEvent(k))
    case TriedAgain => Enqueue(Message(j.tenantId, j.id))
    case GivenUp => Publish(FailedEvent(k))
  }

  /** What the worker does between the started event and the closing effect. */
  function WorkerPart(cfg: Config, db: Tables, blobs: map<string, Bytes>, j: Job, c: Chance): Ran {
    if j.jobType !in cfg.registry then Ran(db, [], Some(NO_WORKER))
    else
      var worker := cfg.registry[j.jobType];
      var started := j.(status := Running, workerName := Some(worker.name), startedAt := Some(c.began),
                        progress := 0, errorMessage := None);
      RunWorker(cfg, SaveJob(db, started), blobs, worker, started, c)
  }

  function AllEffects(cfg: Config, db: Tables, blobs: map<string, Bytes>, j: Job, c: Chance, k: Job): seq<Effect> {
    if j.jobType !in cfg.registry then [LastEffect(j, k)]
    else [Publish(StartedEvent(j, cfg.registry[j.jobType]))] + WorkerPart(cfg, db, blobs, j, c).effects + [LastEffect(j, k)]
  }

  predicate OnlyRow(jobs: map<Uuid, Job>, after: map<Uuid, Job>, j: Job) {
    && j.id in jobs && after.Keys == jobs.Keys
    && (forall i | i in jobs && i != j.id :: after[i] == jobs[i])
    && SameIdentity(j, after[j.id])
  }

  /** The database while the worker runs: only the job's own row differs from what was committed. */
  lemma StartingLeaves(db: Tables, j: Job, started: Job)
    requires PointersOk(db) && j.id in db.jobs && db.jobs[j.id] == j && SameIdentity(j, started)
    ensures var db1 := SaveJob(db, started);
            && db1.docs == db.docs && db1.versions == db.versions && db1.jobs == db.jobs[j.id := started]
            && PointersOk(db1)
  {
    var db1 := SaveJob(db, started);
    assert db1.jobs[j.id] == started;
    forall d | d in db1.docs
      ensures PointerOk(db1, d)
    {
      assert PointerOk(db, d);
    }
  }

  lemma WorkerPartOutcome(cfg: Config, db: Tables, blobs: map<string, Bytes>, j: Job, c: Chance)
    requires PointersOk(db) && j.id in db.jobs && db.jobs[j.id] == j
    ensures var part := WorkerPart(cfg, db, blobs, j, c);
            && part.db.versions == db.versions
            && OnlyRow(db.jobs, part.db.jobs, j)
            && (part.raised.Some? ==> part.db.docs == db.docs)
            && (part.raised.None? && cfg.registry[j.jobType].Scripted? ==> part.db.docs == db.docs)
            && (part.raised.None? && cfg.registry[j.jobType].Ingestion? ==>
                  && GetDocument(db, j.tenantId, j.documentId).Some?
                  && part.db.docs == db.docs[j.documentId := db.docs[j.documentId].(status := Processed)])
            && |part.effects| <= 1
            && forall e | e in part.effects ::
                 e.Upsert? && e.call.documentId == j.documentId && FaithfulCall(cfg.lib, db, blobs, e.call)
                 && GetDocument(db, j.tenantId, j.documentId).Some?
  {
    if j.jobType in cfg.registry {
      var worker := cfg.registry[j.jobType];
      var started := j.(status := Running, workerName := Some(worker.name), startedAt := Some(c.began),
                        progress := 0, errorMessage := None);
      StartingLeaves(db, j, started);
      ProcessDocumentOutcome(cfg.lib, SaveJob(db, started), blobs, j.tenantId, j.documentId, c.fault);
    }
  }

  /** From any running state the closing transitions cannot be refused, and they yield one of three fates. */
  lemma SettleOutcome(cfg: Config, j: Job, running: Job, raised: Option<string>, ended: Instant)
    requires UnderWay(running.status) && RecordOk(running) && SameIdentity(j, running)
    requires running.retryCount == j.retryCount && j.jobType in cfg.registry
    ensures var s := Settle(cfg, running, raised, ended);
            && s.problem.None?
            && Became(cfg, j, s.job, FateOf(s.job))
            && (FateOf(s.job) == Done <==> raised.None?)
            && s.last == LastEffect(j, s.job)
  {
  }

  lemma SaveLast(db: Tables, after: Tables, j: Job, k: Job)
    requires j.id in db.jobs && OnlyRow(db.jobs, after.jobs, j)
    requires SameIdentity(j, k)
    ensures SaveJob(after, k) == after.(jobs := db.jobs[j.id := k])
  {
    assert SaveJob(after, k).jobs[j.id] == k;
    assert SaveJob(after, k).jobs == db.jobs[j.id := k];
  }

  /**
   * Totality: from a QUEUED job no guard fires outside the try, whatever the worker does, and the committed row is
   * QUEUED, COMPLETED or FAILED; plus the exact rows and the exact order of the outside effects.
   */
  lemma ExecuteOutcome(cfg: Config, db: Tables, blobs: map<string, Bytes>, j: Job, c: Chance)
    requires PointersOk(db) && j.id in db.jobs && db.jobs[j.id] == j && j.status == Queued && RecordOk(j)
    ensures var x := Execute(cfg, db, blobs, j, c);
            && x.tx.problem.None?
            && Became(cfg, j, x.job, FateOf(x.job))
            && (FateOf(x.job) == Done <==> WorkerPart(cfg, db, blobs, j, c).raised.None?)
            && x.tx.db == Tables(WorkerPart(cfg, db, blobs, j, c).db.docs, db.versions, db.jobs[j.id := x.job])
            && x.tx.effects == AllEffects(cfg, db, blobs, j, c, x.job)
  {
    WorkerPartOutcome(cfg, db, blobs, j, c);
    if j.jobType in cfg.registry {
      var started := Apply(j, Start(cfg.registry[j.jobType].name, c.began)).value;
      var part := WorkerPart(cfg, db, blobs, j, c);
      ScriptsStayUnderWay(started, c.calls);
      SettleOutcome(cfg, j, RunScript(started, c.calls).job, part.raised, c.ended);
      SaveLast(db, part.db, j, Execute(cfg, db, blobs, j, c).job);
    } else {
      SaveLast(db, db, j, Execute(cfg, db, blobs, j, c).job);
    }
  }
}
