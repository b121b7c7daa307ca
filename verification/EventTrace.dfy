/** The events of one job along every run without rollbacks: Created, Started once per attempt, one closing event. */
module EventTrace {
  import opened Prelude
  import opened Jobs
  import opened Store
  import opened UseCases
  import opened Executor
  import opened Invariants
  import opened RowsKept
  import opened OutsideKept
  import opened Protocol
  import opened Reachability
  import opened JobSteps

  predicate AboutJob(e: Event, j: Uuid) {
    (e.JobCreated? || e.JobStarted? || e.JobCompleted? || e.JobFailed?) && e.jobId == j
  }

  function JobEvents(events: seq<Event>, j: Uuid): seq<Event> {
    if events == [] then []
    else
      var n := |events| - 1;
      JobEvents(events[..n], j) + (if AboutJob(events[n], j) then [events[n]] else [])
  }

  lemma {:induction false} JobEventsConcat(es: seq<Event>, fs: seq<Event>, j: Uuid)
    ensures JobEvents(es + fs, j) == JobEvents(es, j) + JobEvents(fs, j)
    decreases |fs|
  {
    if fs == [] {
      assert es + fs == es;
    } else {
      var n := |fs| - 1;
      assert (es + fs)[..|es| + n] == es + fs[..n];
      JobEventsConcat(es, fs[..n], j);
    }
  }

  lemma JobEventsOne(e: Event, j: Uuid)
    ensures JobEvents([e], j) == if AboutJob(e, j) then [e] else []
  {
    assert [e][..0] == [];
  }

  /** How often a job has been started, as its committed row tells it. */
  function Starts(cfg: Config, j: Job): nat {
    if j.jobType !in cfg.registry then 0 else if j.status == Queued then j.retryCount else j.retryCount + 1
  }

  function Beginning(cfg: Config, j: Job): seq<Event> {
    [JobCreated(j.id, j.documentId, j.tenantId, j.jobType)]
    + if j.jobType in cfg.registry
      then Repeat(JobStarted(j.id, j.documentId, j.tenantId, cfg.registry[j.jobType].name), Starts(cfg, j)) else []
  }

  /** The closing event carries the columns of the row. */
  function Closing(j: Job): seq<Event> {
    if j.status == Completed then [JobCompleted(j.id, j.documentId, j.tenantId)]
    else if j.status == Failed && j.errorMessage.Some?
    then [JobFailed(j.id, j.documentId, j.tenantId, j.errorMessage.value, j.retryCount)] else []
  }

  function Expected(cfg: Config, jobs: map<Uuid, Job>, j: Uuid): seq<Event> {
    if j in jobs then Beginning(cfg, jobs[j]) + Closing(jobs[j]) else []
  }

  predicate TraceOk(cfg: Config, w: World, j: Uuid) {
    JobEvents(w.out.events, j) == Expected(cfg, w.db.jobs, j)
  }

  ghost predicate Traced(cfg: Config, w: World) {
    forall j {:trigger TraceOk(cfg, w, j)} :: TraceOk(cfg, w, j)
  }

  // ---- events published by one transaction -------------------------------

  lemma CreateJobEvents(cfg: Config, db: Tables, o: Outside, r: JobRequest, id: Uuid)
    ensures var tx := CreateJobTx(cfg, db, r, id);
            PerformAll(o, tx.effects).events ==
              o.events + if tx.problem.None? then [JobCreated(id, r.documentId, r.tenantId, r.jobType)] else []
  {
    var tx := CreateJobTx(cfg, db, r, id);
    if tx.problem.None? {
      assert tx.effects == [tx.effects[0]] + [tx.effects[1]];
      PerformOneMore(o, [tx.effects[0]], tx.effects[1]);
      PerformSingle(o, tx.effects[0]);
    }
  }

  lemma RegisterEvents(cfg: Config, db: Tables, o: Outside, d: Document, v: Version, content: Bytes, jobId: Uuid)
    ensures var tx := RegisterTx(cfg, db, d, v, content, jobId);
            var uploaded := [DocumentUploaded(d.id, d.tenantId, v.id, v.number, v.checksum)];
            PerformAll(o, tx.effects).events ==
              o.events + (if d.id in db.docs || !VersionFits(db, v) then [] else uploaded)
              + (if tx.problem.None? then [JobCreated(jobId, d.id, d.tenantId, DocumentIngestion)] else [])
  {
    var save := Save(v.storagePath, content);
    PerformSingle(o, save);
    if !(d.id in db.docs || !VersionFits(db, v)) {
      var publish := Publish(DocumentUploaded(d.id, d.tenantId, v.id, v.number, v.checksum));
      var db1 := db.(docs := db.docs[d.id := d], versions := db.versions[v.id := v]);
      PerformOneMore(o, [save], publish);
      PerformInTwoParts(o, [save] + [publish], CreateJobTx(cfg, db1, IngestionRequest(d, v), jobId).effects);
      CreateJobEvents(cfg, db1, PerformAll(o, [save] + [publish]), IngestionRequest(d, v), jobId);
    }
  }

  lemma AttachEvents(db: Tables, o: Outside, d: Document, v: Version, content: Bytes)
    ensures exists rest :: PerformAll(o, AttachTx(db, d, v, content).effects).events == o.events + rest
                           && forall i, j | 0 <= i < |rest| :: !AboutJob(rest[i], j)
  {
    var save := Save(v.storagePath, content);
    PerformSingle(o, save);
    if VersionFits(db, v) {
      var added := VersionAdded(d.id, d.tenantId, v.id, v.number, v.checksum);
      PerformOneMore(o, [save], Publish(added));
      assert PerformAll(o, AttachTx(db, d, v, content).effects).events == o.events + [added];
    } else {
      assert PerformAll(o, AttachTx(db, d, v, content).effects).events == o.events + [];
    }
  }

  // ---- one step ----------------------------------------------------------

  /** A step that leaves the job rows alone and publishes only `rest` keeps the traces when `rest` is about no job. */
  lemma QuietStep(cfg: Config, w: World, x: World, rest: seq<Event>)
    requires Traced(cfg, w) && x.db.jobs == w.db.jobs && x.out.events == w.out.events + rest
    requires forall i, j | 0 <= i < |rest| :: !AboutJob(rest[i], j)
    ensures Traced(cfg, x)
  {
    forall j
      ensures TraceOk(cfg, x, j)
    {
      assert TraceOk(cfg, w, j);
      JobEventsConcat(w.out.events, rest, j);
      SilentEvents(rest, j);
    }
  }

  lemma {:induction false} SilentEvents(rest: seq<Event>, j: Uuid)
    requires forall i | 0 <= i < |rest| :: !AboutJob(rest[i], j)
    ensures JobEvents(rest, j) == []
    decreases |rest|
  {
    if rest == [] {
    } else {
      SilentEvents(rest[..|rest| - 1], j);
    }
  }

  /** New events extend a trace by those that are about the job. */
  lemma ExtendTrace(cfg: Config, w: World, x: World, more: seq<Event>, j: Uuid)
    requires TraceOk(cfg, w, j) && x.out.events == w.out.events + more
    requires Expected(cfg, x.db.jobs, j) == Expected(cfg, w.db.jobs, j) + JobEvents(more, j)
    ensures TraceOk(cfg, x, j)
  {
    JobEventsConcat(w.out.events, more, j);
  }

  lemma QuietThenOne(quiet: seq<Event>, e: Event, j: Uuid)
    requires forall i, j | 0 <= i < |quiet| :: !AboutJob(quiet[i], j)
    ensures JobEvents(quiet + [e], j) == if AboutJob(e, j) then [e] else []
  {
    JobEventsConcat(quiet, [e], j);
    SilentEvents(quiet, j);
    JobEventsOne(e, j);
  }

  lemma NewJobExpects(cfg: Config, jobs: map<Uuid, Job>, k: Job, j: Uuid)
    requires k.id !in jobs && k.status == Queued && k.retryCount == 0
    ensures Expected(cfg, jobs[k.id := k], j)
         == Expected(cfg, jobs, j) + if j == k.id then [JobCreated(k.id, k.documentId, k.tenantId, k.jobType)] else []
  {
  }

  /** A new job starts its own trace. */
  lemma CreatingStep(cfg: Config, w: World, x: World, k: Job, quiet: seq<Event>)
    requires Traced(cfg, w) && k.id !in w.db.jobs && k.status == Queued && k.retryCount == 0
    requires forall i, j | 0 <= i < |quiet| :: !AboutJob(quiet[i], j)
    requires x.db.jobs == w.db.jobs[k.id := k]
    requires x.out.events == w.out.events + quiet + [JobCreated(k.id, k.documentId, k.tenantId, k.jobType)]
    ensures Traced(cfg, x)
  {
    var created := JobCreated(k.id, k.documentId, k.tenantId, k.jobType);
    assert x.out.events == w.out.events + (quiet + [created]);
    forall j
      ensures TraceOk(cfg, x, j)
    {
      assert TraceOk(cfg, w, j);
      QuietThenOne(quiet, created, j);
      NewJobExpects(cfg, w.db.jobs, k, j);
      ExtendTrace(cfg, w, x, quiet + [created], j);
    }
  }

  /** The events of one committed attempt. */
  function AttemptEvents(cfg: Config, j: Job, k: Job): seq<Event> {
    (if j.jobType in cfg.registry then [JobStarted(j.id, j.documentId, j.tenantId, cfg.registry[j.jobType].name)] else [])
    + Closing(k)
  }

  lemma AttemptExtendsTrace(cfg: Config, j: Job, k: Job)
    requires j.status == Queued && Became(cfg, j, k, FateOf(k))
    ensures Beginning(cfg, j) + AttemptEvents(cfg, j, k) == Beginning(cfg, k) + Closing(k)
  {
    if j.jobType in cfg.registry {
      var e := JobStarted(j.id, j.documentId, j.tenantId, cfg.registry[j.jobType].name);
      assert Repeat(e, Starts(cfg, j)) + [e] == Repeat(e, Starts(cfg, k));
    }
  }

  lemma AttemptEventsAboutOne(cfg: Config, j: Job, k: Job, i: Uuid)
    requires SameIdentity(j, k)
    ensures JobEvents(AttemptEvents(cfg, j, k), i) == if i == j.id then AttemptEvents(cfg, j, k) else []
  {
    var first := if j.jobType in cfg.registry then [JobStarted(j.id, j.documentId, j.tenantId, cfg.registry[j.jobType].name)]
                 else [];
    JobEventsConcat(first, Closing(k), i);
    if first != [] { JobEventsOne(first[0], i); }
    if Closing(k) != [] { JobEventsOne(Closing(k)[0], i); }
  }

  lemma AttemptExpects(cfg: Config, jobs: map<Uuid, Job>, j: Job, k: Job, i: Uuid)
    requires j.id in jobs && jobs[j.id] == j && j.status == Queued && Became(cfg, j, k, FateOf(k))
    ensures Expected(cfg, jobs[j.id := k], i) == Expected(cfg, jobs, i) + JobEvents(AttemptEvents(cfg, j, k), i)
  {
    AttemptEventsAboutOne(cfg, j, k, i);
    if i == j.id {
      AttemptExtendsTrace(cfg, j, k);
      assert Closing(j) == [];
    }
  }

  lemma AttemptStep(cfg: Config, w: World, x: World, j: Job, k: Job)
    requires Traced(cfg, w) && j.id in w.db.jobs && w.db.jobs[j.id] == j && j.status == Queued
    requires Became(cfg, j, k, FateOf(k))
    requires x.db.jobs == w.db.jobs[j.id := k] && x.out.events == w.out.events + AttemptEvents(cfg, j, k)
    ensures Traced(cfg, x)
  {
    forall i
      ensures TraceOk(cfg, x, i)
    {
      assert TraceOk(cfg, w, i);
      AttemptExpects(cfg, w.db.jobs, j, k, i);
      ExtendTrace(cfg, w, x, AttemptEvents(cfg, j, k), i);
    }
  }

  /** Rows and events of a committed attempt. */
  lemma AttemptPublishes(cfg: Config, db: Tables, o: Outside, j: Job, c: Chance)
    requires RowsOk(cfg, db) && j.id in db.jobs && db.jobs[j.id] == j && j.status == Queued
    ensures var x := Execute(cfg, db, o.blobs, j, c);
            && x.tx.problem.None? && Became(cfg, j, x.job, FateOf(x.job))
            && x.tx.db.jobs == db.jobs[j.id := x.job]
            && PerformAll(o, x.tx.effects).events == o.events + AttemptEvents(cfg, j, x.job)
  {
    RowsPointers(db);
    ExecuteOutcome(cfg, db, o.blobs, j, c);
    AttemptOutside(cfg, db, o, j, c);
  }

  lemma DeliveryEvents(cfg: Config, w: World, m: Message, c: Chance, x: World)
    requires RowsOk(cfg, w.db) && Runnable(w.db, m) && x == Next(cfg, w, Deliver(m, c, None))
    ensures var j := w.db.jobs[m.jobId];
            var k := Execute(cfg, w.db, w.out.blobs, j, c).job;
            && Became(cfg, j, k, FateOf(k))
            && x.db.jobs == w.db.jobs[m.jobId := k]
            && x.out.events == w.out.events + AttemptEvents(cfg, j, k)
  {
    var j := w.db.jobs[m.jobId];
    AttemptPublishes(cfg, w.db, w.out, j, c);
    UncutStep(cfg, w, Deliver(m, c, None), Execute(cfg, w.db, w.out.blobs, j, c).tx);
  }

  lemma DeliveryKeepsTrace(cfg: Config, w: World, m: Message, c: Chance)
    requires RowsOk(cfg, w.db) && Traced(cfg, w)
    ensures Traced(cfg, Next(cfg, w, Deliver(m, c, None)))
  {
    var x := Next(cfg, w, Deliver(m, c, None));
    if Runnable(w.db, m) {
      DeliveryEvents(cfg, w, m, c, x);
      AttemptStep(cfg, w, x, w.db.jobs[m.jobId], Execute(cfg, w.db, w.out.blobs, w.db.jobs[m.jobId], c).job);
    } else {
      QuietStep(cfg, w, x, []);
    }
  }

  lemma RegisterKeepsTrace(cfg: Config, w: World, x: World, d: Document, v: Version, content: Bytes, jobId: Uuid)
    requires Traced(cfg, w)
    requires var tx := RegisterTx(cfg, w.db, d, v, content, jobId);
             && x.db.jobs == (if tx.problem.None? then tx.db.jobs else w.db.jobs)
             && x.out.events == PerformAll(w.out, tx.effects).events
    ensures Traced(cfg, x)
  {
    var tx := RegisterTx(cfg, w.db, d, v, content, jobId);
    RegisterEvents(cfg, w.db, w.out, d, v, content, jobId);
    var uploaded := if d.id in w.db.docs || !VersionFits(w.db, v) then []
                    else [DocumentUploaded(d.id, d.tenantId, v.id, v.number, v.checksum)];
    if tx.problem.None? {
      CreatingStep(cfg, w, x, RequestedJob(cfg, IngestionRequest(d, v), jobId), uploaded);
    } else {
      assert x.out.events == w.out.events + uploaded;
      QuietStep(cfg, w, x, uploaded);
    }
  }

  lemma UploadKeepsTrace(cfg: Config, w: World, s: Step)
    requires s.Upload? && s.fuse.None? && Traced(cfg, w)
    ensures Traced(cfg, Next(cfg, w, s))
  {
    var x := Next(cfg, w, s);
    UncutStep(cfg, w, s, Transaction(cfg, w, s));
    var checked := ValidateUpload(cfg.upload, s.input.originalFilename, s.input.content, s.input.contentType);
    if checked.Success? && !HoldsChecksum(w.db, s.input.tenantId, cfg.lib.sha256(s.input.content)) {
      RegisterKeepsTrace(cfg, w, x, NewDocument(s.input, checked.value, s.documentId, s.versionId),
                         NewVersion(cfg, s.input, checked.value, s.documentId, s.versionId, 1, s.at), s.input.content, s.jobId);
    } else {
      QuietStep(cfg, w, x, []);
    }
  }

  lemma CreateJobKeepsTrace(cfg: Config, w: World, r: JobRequest, id: Uuid)
    requires Traced(cfg, w)
    ensures Traced(cfg, Next(cfg, w, CreateJob(r, id, None)))
  {
    var x := Next(cfg, w, CreateJob(r, id, None));
    var tx := CreateJobTx(cfg, w.db, r, id);
    assert tx.effects[..|tx.effects|] == tx.effects;
    CreateJobEvents(cfg, w.db, w.out, r, id);
    if tx.problem.None? {
      CreatingStep(cfg, w, x, RequestedJob(cfg, r, id), []);
    } else {
      QuietStep(cfg, w, x, []);
    }
  }

  lemma AttachKeepsTrace(cfg: Config, w: World, x: World, d: Document, v: Version, content: Bytes)
    requires Traced(cfg, w) && x.db.jobs == w.db.jobs
    requires x.out.events == PerformAll(w.out, AttachTx(w.db, d, v, content).effects).events
    ensures Traced(cfg, x)
  {
    AttachEvents(w.db, w.out, d, v, content);
    var rest :| x.out.events == w.out.events + rest && forall i, j | 0 <= i < |rest| :: !AboutJob(rest[i], j);
    QuietStep(cfg, w, x, rest);
  }

  lemma AddVersionKeepsTrace(cfg: Config, w: World, s: Step)
    requires s.AddVersion? && s.fuse.None? && Traced(cfg, w)
    ensures Traced(cfg, Next(cfg, w, s))
  {
    var x := Next(cfg, w, s);
    var tx := Transaction(cfg, w, s);
    assert tx.effects[..|tx.effects|] == tx.effects;
    var checked := ValidateUpload(cfg.upload, s.input.originalFilename, s.input.content, s.input.contentType);
    var found := GetDocument(w.db, s.input.tenantId, s.documentId);
    if checked.Success? && found.Some? {
      var version := NewVersion(cfg, s.input, checked.value, s.documentId, s.versionId, NextNumber(w.db, s.documentId), s.at);
      AttachKeepsTrace(cfg, w, x, found.value, version, s.input.content);
    } else {
      QuietStep(cfg, w, x, []);
    }
  }

  lemma DocumentStepKeepsTrace(cfg: Config, w: World, s: Step)
    requires (s.Delete? || s.UpdateMetadata?) && s.fuse.None? && Traced(cfg, w)
    ensures Traced(cfg, Next(cfg, w, s))
  {
    var x := Next(cfg, w, s);
    var tx := Transaction(cfg, w, s);
    assert tx.effects[..|tx.effects|] == tx.effects;
    SingleEvent(w.out, tx.effects);
    QuietStep(cfg, w, x, if tx.effects == [] then [] else [tx.effects[0].event]);
  }

  lemma SingleEvent(o: Outside, es: seq<Effect>)
    requires |es| == 1 ==> es[0].Publish?
    ensures |es| == 1 ==> PerformAll(o, es).events == o.events + [es[0].event]
  {
    if |es| == 1 {
      assert es == [es[0]];
      PerformSingle(o, es[0]);
    }
  }

  predicate NoFuse(steps: seq<Step>) {
    forall i | 0 <= i < |steps| :: steps[i].Redeliver? || steps[i].fuse.None?
  }

  lemma StepKeepsTrace(cfg: Config, w: World, s: Step)
    requires Good(cfg, w) && Enabled(w, s) && (s.Redeliver? || s.fuse.None?) && Traced(cfg, w)
    ensures Traced(cfg, Next(cfg, w, s))
  {
    match s
    case Redeliver(_) => QuietStep(cfg, w, Next(cfg, w, s), []);
    case Deliver(m, c, _) => DeliveryKeepsTrace(cfg, w, m, c);
    case Upload(_, _, _, _, _, _) => UploadKeepsTrace(cfg, w, s);
    case CreateJob(request, id, _) => CreateJobKeepsTrace(cfg, w, request, id);
    case AddVersion(_, _, _, _, _) => AddVersionKeepsTrace(cfg, w, s);
    case Delete(_, _, _, _) => DocumentStepKeepsTrace(cfg, w, s);
    case UpdateMetadata(_, _, _, _) => DocumentStepKeepsTrace(cfg, w, s);
  }

  /** In every rollback-free run each job's events are Created, Started once per attempt, then its terminal event. */
  lemma {:induction false} RunsAreTraced(cfg: Config, w: World, steps: seq<Step>)
    requires Good(cfg, w) && Wired(cfg) && Possible(cfg, w, steps) && NoFuse(steps)
    requires Traced(cfg, w)
    ensures Traced(cfg, Run(cfg, w, steps)) && Good(cfg, Run(cfg, w, steps))
    decreases |steps|
  {
    if steps == [] {
    } else {
      StepKeepsTrace(cfg, w, steps[0]);
      StepKeepsGood(cfg, w, steps[0]);
      RunsAreTraced(cfg, Next(cfg, w, steps[0]), steps[1..]);
    }
  }

  /**
   * The events tell the row: one JobCreated, a JobStarted with the registered worker's name for every attempt, and when
   * the job is finished one closing event; each carries the columns of the row.
   */
  predicate TellRow(cfg: Config, job: Job, es: seq<Event>) {
    && |es| == 1 + Starts(cfg, job) + (if job.status == Queued then 0 else 1)
    && es[0] == JobCreated(job.id, job.documentId, job.tenantId, job.jobType)
    && (forall i | 1 <= i <= Starts(cfg, job) ::
          job.jobType in cfg.registry
          && es[i] == JobStarted(job.id, job.documentId, job.tenantId, cfg.registry[job.jobType].name))
    && (job.status == Completed ==> es[|es| - 1] == JobCompleted(job.id, job.documentId, job.tenantId))
    && (job.status == Failed ==>
          job.errorMessage.Some?
          && es[|es| - 1] == JobFailed(job.id, job.documentId, job.tenantId, job.errorMessage.value, job.retryCount))
  }

  lemma ExpectedTellsRow(cfg: Config, job: Job)
    requires RecordOk(job) && Invariants.Settled(job.status)
    ensures TellRow(cfg, job, Beginning(cfg, job) + Closing(job))
  {
    assert |Beginning(cfg, job)| == 1 + Starts(cfg, job);
  }

  /** Read off the empty start: every job's events tell its committed row, and at most max_retries + 1 of them are starts. */
  lemma JobTrace(cfg: Config, steps: seq<Step>, j: Uuid)
    requires Wired(cfg) && Possible(cfg, EMPTY, steps) && NoFuse(steps)
    requires j in Run(cfg, EMPTY, steps).db.jobs
    ensures var w := Run(cfg, EMPTY, steps);
            var job := w.db.jobs[j];
            && job.id == j && (job.status == Queued || job.status == Completed || job.status == Failed)
            && TellRow(cfg, job, JobEvents(w.out.events, j))
            && Starts(cfg, job) <= Budget(cfg) + 1
  {
    EmptyIsGood(cfg);
    assert Traced(cfg, EMPTY) by {
      forall i
        ensures TraceOk(cfg, EMPTY, i)
      {
      }
    }
    RunsAreTraced(cfg, EMPTY, steps);
    assert TraceOk(cfg, Run(cfg, EMPTY, steps), j);
    ExpectedTellsRow(cfg, Run(cfg, EMPTY, steps).db.jobs[j]);
  }
}
