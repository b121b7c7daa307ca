/** app/domain/documents/jobs.py: the processing-job state machine. */
module Jobs {
  import opened Prelude

  datatype Status =
    | Queued | Running
    | Parsing | Rendering | Normalizing | Chunking | Embedding | Indexing
    | Completed | Failed | Cancelled

  datatype JobType =
    | DocumentIngestion | RenderPages | Ocr | ChunkText | GenerateEmbeddings | Reindex | DeleteIndex

  predicate IsPhase(s: Status) {
    s.Parsing? || s.Rendering? || s.Normalizing? || s.Chunking? || s.Embedding? || s.Indexing?
  }

  predicate IsTerminal(s: Status) {
    s.Completed? || s.Failed? || s.Cancelled?
  }

  predicate IsActive(s: Status) {
    s.Queued? || s.Running? || IsPhase(s)
  }

  /** Every status is active or terminal, and none is both. */
  lemma ActiveOrTerminal(s: Status)
    ensures IsActive(s) <==> !IsTerminal(s)
  {
  }

  /** A job as a value: the state of a ProcessingJob object, and the shape of its row. */
  datatype Job = Job(
    id: Uuid, documentId: Uuid, tenantId: string, jobType: JobType, versionId: Option<Uuid>,
    priority: int, status: Status, retryCount: nat, progress: int,
    workerName: Option<string>, errorMessage: Option<string>,
    startedAt: Option<Instant>, finishedAt: Option<Instant>)

  function NewJob(id: Uuid, documentId: Uuid, tenantId: string, jobType: JobType, versionId: Option<Uuid>,
                  priority: int): Job
  {
    Job(id, documentId, tenantId, jobType, versionId, priority, Queued, 0, 0, None, None, None, None)
  }

  datatype Transition =
    | Start(worker: string, at: Instant)
    | Advance(phase: Status, reported: int)
    | Complete(at: Instant)
    | Fail(message: string, at: Instant)
    | Cancel(at: Instant)
    | Retry

  function Clamp(progress: int): int {
    if progress < 0 then 0 else if progress > 100 then 100 else progress
  }

  /** What each transition does; Failure is the ValidationError, raised before anything is written. */
  function Apply(j: Job, t: Transition): Result<Job> {
    match t
    case Start(worker, at) =>
      if j.status != Queued then Failure("cannot start")
      else Success(j.(status := Running, workerName := Some(worker), startedAt := Some(at),
                      progress := 0, errorMessage := None))
    case Advance(phase, reported) =>
      if !IsPhase(phase) then Failure("not a processing phase")
      else if j.status != Running && !IsPhase(j.status) then Failure("cannot advance")
      else Success(j.(status := phase, progress := Clamp(reported)))
    case Complete(at) =>
      if IsTerminal(j.status) then Failure("already terminal")
      else Success(j.(status := Completed, progress := 100, finishedAt := Some(at), errorMessage := None))
    case Fail(message, at) =>
      if IsTerminal(j.status) then Failure("already terminal")
      else Success(j.(status := Failed, finishedAt := Some(at), errorMessage := Some(message)))
    case Cancel(at) =>
      if IsTerminal(j.status) then Failure("already terminal")
      else Success(j.(status := Cancelled, finishedAt := Some(at)))
    case Retry =>
      if j.status != Failed then Failure("only failed jobs can be retried")
      else Success(j.(status := Queued, retryCount := j.retryCount + 1, progress := 0, workerName := None,
                      startedAt := None, finishedAt := None, errorMessage := None))
  }

  /** One attempted transition; a refused one leaves the job as it was. */
  function Attempted(j: Job, t: Transition): Job {
    var r := Apply(j, t);
    if r.Success? then r.value else j
  }

  function Played(j: Job, ts: seq<Transition>): Job
    decreases |ts|
  {
    if ts == [] then j else Played(Attempted(j, ts[0]), ts[1..])
  }

  /** Number of FAILED -> QUEUED steps along a history. */
  function Requeues(j: Job, ts: seq<Transition>): nat
    decreases |ts|
  {
    if ts == [] then 0
    else
      var next := Attempted(j, ts[0]);
      (if j.status == Failed && next.status == Queued then 1 else 0) + Requeues(next, ts[1..])
  }

  predicate RecordOk(j: Job) {
    && (IsTerminal(j.status) <==> j.finishedAt.Some?)
    && (j.status == Failed <==> j.errorMessage.Some?)
    && (j.workerName.Some? <==> j.startedAt.Some?)
    && (j.status == Running || IsPhase(j.status) ==> j.startedAt.Some?)
    && (j.status == Queued ==> j.progress == 0 && j.startedAt.None? && j.finishedAt.None?)
    && 0 <= j.progress <= 100
    && (j.status == Completed ==> j.progress == 100)
  }

  lemma TransitionKeepsRecord(j: Job, t: Transition)
    requires RecordOk(j)
    ensures RecordOk(Attempted(j, t))
    ensures Attempted(j, t).retryCount
         == j.retryCount + if j.status == Failed && Attempted(j, t).status == Queued then 1 else 0
  {
  }

  /** Every history of transitions keeps the record invariant, and retry_count counts the requeues. */
  lemma {:induction false} HistoriesKeepRecord(j: Job, ts: seq<Transition>)
    requires RecordOk(j)
    ensures RecordOk(Played(j, ts))
    ensures Played(j, ts).retryCount == j.retryCount + Requeues(j, ts)
    decreases |ts|
  {
    if ts == [] {
    } else {
      TransitionKeepsRecord(j, ts[0]);
      HistoriesKeepRecord(Attempted(j, ts[0]), ts[1..]);
    }
  }

  /** COMPLETED and CANCELLED are absorbing; FAILED is left only through a retry. */
  lemma {:induction false} FinishedStaysFinished(j: Job, ts: seq<Transition>)
    requires IsTerminal(j.status)
    requires j.status != Failed || Retry !in ts
    ensures Played(j, ts) == j
  {
    if ts == [] {
    } else {
      assert Attempted(j, ts[0]) == j by { assert ts[0] in ts; }
      FinishedStaysFinished(j, ts[1..]);
    }
  }

  /** The object whose transition methods update its fields in place. */
  class ProcessingJob {
    const id: Uuid
    const documentId: Uuid
    const tenantId: string
    const jobType: JobType
    const versionId: Option<Uuid>
    const priority: int
    var status: Status
    var retryCount: nat
    var progress: int
    var workerName: Option<string>
    var errorMessage: Option<string>
    var startedAt: Option<Instant>
    var finishedAt: Option<Instant>

    function Record(): Job
      reads this
    {
      Job(id, documentId, tenantId, jobType, versionId, priority, status, retryCount, progress,
          workerName, errorMessage, startedAt, finishedAt)
    }

    constructor (j: Job)
      ensures Record() == j
    {
      id, documentId, tenantId, jobType, versionId := j.id, j.documentId, j.tenantId, j.jobType, j.versionId;
      priority, status, retryCount, progress := j.priority, j.status, j.retryCount, j.progress;
      workerName, errorMessage, startedAt, finishedAt := j.workerName, j.errorMessage, j.startedAt, j.finishedAt;
    }

    method DoStart(worker: string, at: Instant) returns (ok: bool)
      modifies this
      ensures ok == Apply(old(Record()), Start(worker, at)).Success?
      ensures Record() == Attempted(old(Record()), Start(worker, at))
      ensures ok == (old(status) == Queued)
      ensures Record() == if !ok then old(Record()) else old(Record()).(
                status := Running, workerName := Some(worker), startedAt := Some(at), progress := 0, errorMessage := None)
    {
      if status != Queued { return false; }
      status := Running;
      workerName := Some(worker);
      startedAt := Some(at);
      progress := 0;
      errorMessage := None;
      ok := true;
    }

    method DoAdvance(phase: Status, reported: int) returns (ok: bool)
      modifies this
      ensures ok == Apply(old(Record()), Advance(phase, reported)).Success?
      ensures Record() == Attempted(old(Record()), Advance(phase, reported))
      ensures ok == (IsPhase(phase) && (old(status) == Running || IsPhase(old(status))))
      ensures Record() == if !ok then old(Record()) else old(Record()).(status := phase, progress := progress)
      ensures ok ==> 0 <= progress <= 100 && (0 <= reported <= 100 ==> progress == reported)
      ensures ok ==> (reported < 0 ==> progress == 0) && (reported > 100 ==> progress == 100)
    {
      if !IsPhase(phase) { return false; }
      if status != Running && !IsPhase(status) { return false; }
      status := phase;
      progress := if reported < 0 then 0 else if reported > 100 then 100 else reported;
      ok := true;
    }

    method DoComplete(at: Instant) returns (ok: bool)
      modifies this
      ensures ok == Apply(old(Record()), Complete(at)).Success?
      ensures Record() == Attempted(old(Record()), Complete(at))
      ensures ok == IsActive(old(status))
      ensures Record() == if !ok then old(Record()) else old(Record()).(
                status := Completed, progress := 100, finishedAt := Some(at), errorMessage := None)
    {
      if IsTerminal(status) { return false; }
      status := Completed;
      progress := 100;
      finishedAt := Some(at);
      errorMessage := None;
      ok := true;
    }

    method DoFail(message: string, at: Instant) returns (ok: bool)
      modifies this
      ensures ok == Apply(old(Record()), Fail(message, at)).Success?
      ensures Record() == Attempted(old(Record()), Fail(message, at))
      ensures ok == IsActive(old(status))
      ensures Record() == if !ok then old(Record()) else old(Record()).(
                status := Failed, finishedAt := Some(at), errorMessage := Some(message))
    {
      if IsTerminal(status) { return false; }
      status := Failed;
      finishedAt := Some(at);
      errorMessage := Some(message);
      ok := true;
    }

    method DoCancel(at: Instant) returns (ok: bool)
      modifies this
      ensures ok == Apply(old(Record()), Cancel(at)).Success?
      ensures Record() == Attempted(old(Record()), Cancel(at))
      ensures ok == IsActive(old(status))
      ensures Record() == if !ok then old(Record()) else old(Record()).(status := Cancelled, finishedAt := Some(at))
    {
      if IsTerminal(status) { return false; }
      status := Cancelled;
      finishedAt := Some(at);
      ok := true;
    }

    predicate CanRetry(maxRetries: int)
      reads this
    {
      status == Failed && retryCount < maxRetries
    }

    method DoRetry() returns (ok: bool)
      modifies this
      ensures ok == Apply(old(Record()), Retry).Success?
      ensures Record() == Attempted(old(Record()), Retry)
      ensures ok == (old(status) == Failed)
      ensures Record() == if !ok then old(Record()) else old(Record()).(
                status := Queued, retryCount := old(retryCount) + 1, progress := 0, workerName := None, startedAt := None,
                finishedAt := None, errorMessage := None)
    {
      if status != Failed { return false; }
      status := Queued;
      retryCount := retryCount + 1;
      progress := 0;
      workerName := None;
      startedAt := None;
      finishedAt := None;
      errorMessage := None;
      ok := true;
    }
  }
}
