/** How many deliveries any interleaving can ask for: each is paid for by the start, a creation, a redelivery or a cut. */
module Workload {
  import opened Prelude
  import opened Jobs
  import opened Store
  import opened UseCases
  import opened Executor
  import opened Invariants
  import opened RowsKept
  import opened OutsideKept
  import opened Protocol
  import opened Reachability
  import opened JobSteps
  import opened Draining

  predicate CommittedDeliveryStep(cfg: Config, w: World, s: Step) {
    s.Deliver? && Commits(cfg, w, s)
  }

  /** What a step may add: a new job and its retries, one more copy of a message, or a message put back. */
  function Credit(cfg: Config, w: World, s: Step): nat {
    if s.CreateJob? || s.Upload? then 1 + Budget(cfg)
    else if s.Redeliver? then 1
    else if s.Deliver? && !Commits(cfg, w, s) then 1
    else 0
  }

  function CommittedDeliveries(cfg: Config, w: World, steps: seq<Step>): nat
    decreases |steps|
  {
    if steps == [] then 0
    else (if CommittedDeliveryStep(cfg, w, steps[0]) then 1 else 0)
         + CommittedDeliveries(cfg, Next(cfg, w, steps[0]), steps[1..])
  }

  function Credits(cfg: Config, w: World, steps: seq<Step>): nat
    decreases |steps|
  {
    if steps == [] then 0 else Credit(cfg, w, steps[0]) + Credits(cfg, Next(cfg, w, steps[0]), steps[1..])
  }

  // ---- messages ----------------------------------------------------------

  function Enqueued(es: seq<Effect>): nat {
    if es == [] then 0 else Enqueued(es[..|es| - 1]) + (if es[|es| - 1].Enqueue? then 1 else 0)
  }

  lemma {:induction false} EnqueuedMessages(o: Outside, es: seq<Effect>)
    ensures |PerformAll(o, es).messages| == |o.messages| + Enqueued(es)
    decreases |es|
  {
    if es == [] {
    } else {
      EnqueuedMessages(o, es[..|es| - 1]);
    }
  }

  lemma {:induction false} EnqueuedPrefix(es: seq<Effect>, n: nat)
    requires n <= |es|
    ensures Enqueued(es[..n]) <= Enqueued(es)
    decreases |es|
  {
    if n == |es| {
      assert es[..n] == es;
    } else {
      var last := |es| - 1;
      assert es[..last][..n] == es[..n];
      EnqueuedPrefix(es[..last], n);
    }
  }

  lemma {:induction false} EnqueuedConcat(es: seq<Effect>, fs: seq<Effect>)
    ensures Enqueued(es + fs) == Enqueued(es) + Enqueued(fs)
    decreases |fs|
  {
    if fs == [] {
      assert es + fs == es;
    } else {
      var n := |fs| - 1;
      assert (es + fs)[..|es| + n] == es + fs[..n];
      EnqueuedConcat(es, fs[..n]);
    }
  }

  lemma CreateJobEnqueues(cfg: Config, db: Tables, r: JobRequest, id: Uuid)
    ensures Enqueued(CreateJobTx(cfg, db, r, id).effects) <= 1
  {
    var es := CreateJobTx(cfg, db, r, id).effects;
    if es == [] {
    } else {
      assert es == [es[0]] + [es[1]] && [es[0]][..0] == [] && [es[1]][..0] == [];
      EnqueuedConcat([es[0]], [es[1]]);
    }
  }

  lemma RegisterEnqueuesOne(cfg: Config, db: Tables, d: Document, v: Version, content: Bytes, jobId: Uuid)
    ensures Enqueued(RegisterTx(cfg, db, d, v, content, jobId).effects) <= 1
  {
    var saved := [Save(v.storagePath, content)];
    assert saved[..0] == [];
    if !(d.id in db.docs || !VersionFits(db, v)) {
      var published := [Publish(DocumentUploaded(d.id, d.tenantId, v.id, v.number, v.checksum))];
      var db1 := db.(docs := db.docs[d.id := d], versions := db.versions[v.id := v]);
      assert published[..0] == [];
      EnqueuedConcat(saved, published);
      EnqueuedConcat(saved + published, CreateJobTx(cfg, db1, IngestionRequest(d, v), jobId).effects);
      CreateJobEnqueues(cfg, db1, IngestionRequest(d, v), jobId);
    }
  }

  lemma {:induction false} NothingEnqueued(es: seq<Effect>)
    requires forall i | 0 <= i < |es| :: !es[i].Enqueue?
    ensures Enqueued(es) == 0
    decreases |es|
  {
    if es == [] {
    } else {
      NothingEnqueued(es[..|es| - 1]);
    }
  }

  /** A creating request enqueues at most one message, any other request none. */
  lemma RequestEnqueues(cfg: Config, w: World, s: Step)
    requires !s.Redeliver? && !s.Deliver?
    ensures Enqueued(Transaction(cfg, w, s).effects) <= if s.CreateJob? || s.Upload? then 1 else 0
  {
    match s
    case CreateJob(r, id, _) => CreateJobEnqueues(cfg, w.db, r, id);
    case Upload(u, d, v, j, at, _) =>
      var checked := ValidateUpload(cfg.upload, u.originalFilename, u.content, u.contentType);
      if checked.Success? {
        RegisterEnqueuesOne(cfg, w.db, NewDocument(u, checked.value, d, v), NewVersion(cfg, u, checked.value, d, v, 1, at),
                            u.content, j);
      }
    case AddVersion(_, _, _, _, _) => NothingEnqueued(Transaction(cfg, w, s).effects);
    case Delete(_, _, _, _) => NothingEnqueued(Transaction(cfg, w, s).effects);
    case UpdateMetadata(_, _, _, _) => NothingEnqueued(Transaction(cfg, w, s).effects);
  }

  lemma AttemptEnqueuesOne(cfg: Config, w: World, s: Step)
    requires RowsOk(cfg, w.db) && s.Deliver?
    ensures Enqueued(Transaction(cfg, w, s).effects) <= 1
  {
    if Runnable(w.db, s.message) {
      var j := w.db.jobs[s.message.jobId];
      RowsPointers(w.db);
      ExecuteOutcome(cfg, w.db, w.out.blobs, j, s.chance);
      AttemptOutside(cfg, w.db, w.out, j, s.chance);
      EnqueuedMessages(w.out, Transaction(cfg, w, s).effects);
    }
  }

  // ---- jobs --------------------------------------------------------------

  /** The table is as before, or has one more job that has not been retried. */
  predicate SameOrNew(jobs: map<Uuid, Job>, after: map<Uuid, Job>, id: Uuid) {
    after == jobs || (id !in jobs && id in after && after == jobs[id := after[id]] && after[id].retryCount == 0)
  }

  lemma NewJobTokens(cfg: Config, jobs: map<Uuid, Job>, after: map<Uuid, Job>, id: Uuid)
    requires SameOrNew(jobs, after, id)
    ensures |RetryTokens(cfg, after)| <= |RetryTokens(cfg, jobs)| + Budget(cfg)
  {
    if after != jobs {
      TokensAddUp(cfg, jobs, id, after[id]);
    }
  }

  lemma RegisterJobs(cfg: Config, db: Tables, d: Document, v: Version, content: Bytes, jobId: Uuid)
    ensures SameOrNew(db.jobs, RegisterTx(cfg, db, d, v, content, jobId).db.jobs, jobId)
  {
  }

  lemma RequestJobs(cfg: Config, w: World, s: Step)
    requires !s.Redeliver? && !s.Deliver?
    ensures s.CreateJob? || s.Upload? ==> SameOrNew(w.db.jobs, Transaction(cfg, w, s).db.jobs, s.jobId)
    ensures !s.CreateJob? && !s.Upload? ==> Transaction(cfg, w, s).db.jobs == w.db.jobs
  {
    if s.Upload? {
      var u := s.input;
      var checked := ValidateUpload(cfg.upload, u.originalFilename, u.content, u.contentType);
      if checked.Success? {
        RegisterJobs(cfg, w.db, NewDocument(u, checked.value, s.documentId, s.versionId),
                     NewVersion(cfg, u, checked.value, s.documentId, s.versionId, 1, s.at), u.content, s.jobId);
      }
    }
  }

  // ---- one step ----------------------------------------------------------

  lemma RequestMeasure(cfg: Config, w: World, s: Step, x: World)
    requires !s.Redeliver? && !s.Deliver? && x == Next(cfg, w, s)
    ensures Measure(cfg, x) <= Measure(cfg, w) + Credit(cfg, w, s)
  {
    var tx := Transaction(cfg, w, s);
    var n := Reached(s.fuse, |tx.effects|);
    NextIs(cfg, w, s, tx);
    RequestEnqueues(cfg, w, s);
    RequestJobs(cfg, w, s);
    EnqueuedPrefix(tx.effects, n);
    EnqueuedMessages(w.out, tx.effects[..n]);
    if s.CreateJob? || s.Upload? { NewJobTokens(cfg, w.db.jobs, tx.db.jobs, s.jobId); }
  }

  /** A fuse that is not reached changes nothing. */
  lemma CommittedIsUncut(cfg: Config, w: World, s: Step)
    requires s.Deliver? && Commits(cfg, w, s)
    ensures Next(cfg, w, s) == Next(cfg, w, Deliver(s.message, s.chance, None))
  {
  }

  lemma CutDeliveryMeasure(cfg: Config, w: World, s: Step, x: World)
    requires RowsOk(cfg, w.db) && s.Deliver? && !Commits(cfg, w, s) && x == Next(cfg, w, s)
    ensures Measure(cfg, x) <= Measure(cfg, w) + 1
  {
    var tx := Transaction(cfg, w, s);
    var n := Reached(s.fuse, |tx.effects|);
    NextIs(cfg, w, s, tx);
    AttemptEnqueuesOne(cfg, w, s);
    EnqueuedPrefix(tx.effects, n);
    EnqueuedMessages(w.out, tx.effects[..n]);
  }

  /** Every step's delivery is paid for by the measure or by the step's own credit. */
  lemma StepPays(cfg: Config, w: World, s: Step)
    requires Good(cfg, w) && Enabled(w, s)
    ensures Measure(cfg, Next(cfg, w, s)) + (if CommittedDeliveryStep(cfg, w, s) then 1 else 0)
         <= Measure(cfg, w) + Credit(cfg, w, s)
  {
    if s.Redeliver? {
    } else if !s.Deliver? {
      RequestMeasure(cfg, w, s, Next(cfg, w, s));
    } else if Commits(cfg, w, s) {
      CommittedIsUncut(cfg, w, s);
      DeliveryDecreases(cfg, w, s.message, s.chance);
    } else {
      CutDeliveryMeasure(cfg, w, s, Next(cfg, w, s));
    }
  }

  /**
   * Over every run, requests, cuts and redeliveries included: the deliveries that commit, and what is left to do, are at
   * most the work there was plus what the steps added to it.
   */
  lemma {:induction false} WorkloadIsBounded(cfg: Config, w: World, steps: seq<Step>)
    requires Good(cfg, w) && Wired(cfg) && Possible(cfg, w, steps)
    ensures CommittedDeliveries(cfg, w, steps) + Measure(cfg, Run(cfg, w, steps)) <= Measure(cfg, w) + Credits(cfg, w, steps)
    decreases |steps|
  {
    if steps == [] {
    } else {
      StepPays(cfg, w, steps[0]);
      StepKeepsGood(cfg, w, steps[0]);
      WorkloadIsBounded(cfg, Next(cfg, w, steps[0]), steps[1..]);
    }
  }
}
