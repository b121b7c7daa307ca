/** What an attempt writes on its job's row: which calls count, when the worker's run raises, and every column after it. */
module Attempts {
  import opened Prelude
  import opened Jobs
  import opened Store
  import opened UseCases
  import opened Executor

  /** The run stops before call n: the first that names no phase and is not caught; with no such call, at the end. */
  predicate StopsAt(calls: seq<AdvanceCall>, n: nat) {
    && n <= |calls|
    && (forall i | 0 <= i < n :: IsPhase(calls[i].phase) || calls[i].caught)
    && (n < |calls| ==> !IsPhase(calls[n].phase) && !calls[n].caught)
  }

  /** Call i is the last before n that reports a phase. */
  predicate IsLastPhase(calls: seq<AdvanceCall>, n: nat, i: nat)
    requires n <= |calls|
  {
    i < n && IsPhase(calls[i].phase) && forall k | i < k < n :: !IsPhase(calls[k].phase)
  }

  /** The progress a job shows for a reported number: that number, or the nearer end of 0..100. */
  predicate ShownFor(progress: int, reported: int) {
    && 0 <= progress <= 100
    && (reported < 0 ==> progress == 0) && (reported > 100 ==> progress == 100)
    && (0 <= reported <= 100 ==> progress == reported)
  }

  /**
   * From a job under way a script raises exactly when it reaches an uncaught call that names no phase; phase and progress
   * are those of the last call before it that does name one, and no other column is touched.
   */
  lemma {:induction false} ScriptOutcome(j: Job, calls: seq<AdvanceCall>, n: nat)
    requires UnderWay(j.status) && StopsAt(calls, n)
    ensures var r := RunScript(j, calls);
            && (r.raised.Some? <==> n < |calls|)
            && r.job == j.(status := r.job.status, progress := r.job.progress)
            && (forall i: nat | IsLastPhase(calls, n, i) ::
                  r.job.status == calls[i].phase && ShownFor(r.job.progress, calls[i].progress))
            && ((forall i | 0 <= i < n :: !IsPhase(calls[i].phase)) ==> r.job == j)
    decreases |calls|
  {
    if calls == [] {
    } else if n > 0 {
      var next := Attempted(j, Advance(calls[0].phase, calls[0].progress));
      assert StopsAt(calls[1..], n - 1);
      ScriptOutcome(next, calls[1..], n - 1);
      forall i: nat | IsLastPhase(calls, n, i)
        ensures var r := RunScript(j, calls); r.job.status == calls[i].phase && ShownFor(r.job.progress, calls[i].progress)
      {
        if i > 0 {
          assert IsLastPhase(calls[1..], n - 1, i - 1);
        } else {
          assert forall k | 0 <= k < n - 1 :: calls[1..][k] == calls[k + 1];
        }
      }
    }
  }

  lemma {:induction false} StopExists(calls: seq<AdvanceCall>)
    ensures exists n: nat :: StopsAt(calls, n)
    decreases |calls|
  {
    if calls == [] {
      assert StopsAt(calls, 0);
    } else if !IsPhase(calls[0].phase) && !calls[0].caught {
      assert StopsAt(calls, 0);
    } else {
      StopExists(calls[1..]);
      var n: nat :| StopsAt(calls[1..], n);
      assert forall i | 1 <= i < n + 1 :: calls[i] == calls[1..][i - 1];
      assert StopsAt(calls, n + 1);
    }
  }

  /** A worker other than the pipeline raises exactly when its script does or it ends with an error of its own. */
  lemma ScriptedRaises(cfg: Config, db: Tables, blobs: map<string, Bytes>, j: Job, c: Chance, n: nat)
    requires j.jobType in cfg.registry && cfg.registry[j.jobType].Scripted? && StopsAt(c.calls, n)
    ensures var raised := WorkerPart(cfg, db, blobs, j, c).raised;
            && (raised.Some? <==> n < |c.calls| || c.ending.Some?)
            && (n == |c.calls| ==> raised == c.ending)
  {
    var worker := cfg.registry[j.jobType];
    ScriptOutcome(j.(status := Running, workerName := Some(worker.name), startedAt := Some(c.began), progress := 0,
                     errorMessage := None), c.calls, n);
  }

  /**
   * Every column of the row an attempt commits. Done: worker, both times, progress 100, no error. Retried: the row as it
   * was with one more retry. Given up: worker, both times, the progress last shown, and the message that was raised.
   */
  lemma AttemptColumns(cfg: Config, db: Tables, blobs: map<string, Bytes>, j: Job, c: Chance, raised: Option<string>)
    requires PointersOk(db) && j.id in db.jobs && db.jobs[j.id] == j && j.status == Queued && RecordOk(j)
    requires raised == WorkerPart(cfg, db, blobs, j, c).raised
    ensures var k := Execute(cfg, db, blobs, j, c).job;
            if j.jobType !in cfg.registry then
              k == j.(status := Failed, errorMessage := Some(NO_WORKER), finishedAt := Some(c.ended))
            else
              var name := cfg.registry[j.jobType].name;
              if raised.None? then
                k == j.(status := Completed, progress := 100, workerName := Some(name), startedAt := Some(c.began),
                        finishedAt := Some(c.ended))
              else if j.retryCount < cfg.maxRetries then k == j.(retryCount := j.retryCount + 1)
              else
                && k == j.(status := Failed, progress := k.progress, workerName := Some(name), startedAt := Some(c.began),
                           finishedAt := Some(c.ended), errorMessage := raised)
                && forall n: nat, i: nat | StopsAt(c.calls, n) && IsLastPhase(c.calls, n, i) ::
                     ShownFor(k.progress, c.calls[i].progress)
  {
    if j.jobType in cfg.registry {
      var started := Apply(j, Start(cfg.registry[j.jobType].name, c.began)).value;
      StopExists(c.calls);
      forall n: nat | StopsAt(c.calls, n)
        ensures RunScript(started, c.calls).job
             == started.(status := RunScript(started, c.calls).job.status, progress := RunScript(started, c.calls).job.progress)
        ensures forall i: nat | IsLastPhase(c.calls, n, i) ::
                  ShownFor(RunScript(started, c.calls).job.progress, c.calls[i].progress)
      {
        ScriptOutcome(started, c.calls, n);
      }
      ScriptsStayUnderWay(started, c.calls);
    }
  }
}
