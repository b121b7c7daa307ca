/** The queue drains: every committed delivery spends something that only new requests can replenish. */
module Draining {
  import opened Prelude
  import opened Jobs
  import opened Store
  import opened UseCases
  import opened Executor
  import opened Invariants
  import opened RowsKept
  import opened OutsideKept
  import opened Protocol
  import opened Reachability

  /** One token for every retry a QUEUED job may still be granted. */
  function RetryTokens(cfg: Config, jobs: map<Uuid, Job>): set<(Uuid, int)> {
    set id, k | id in jobs && jobs[id].retryCount <= k < cfg.maxRetries && jobs[id].status == Queued :: (id, k)
  }

  function TokensOf(cfg: Config, id: Uuid, j: Job): set<(Uuid, int)> {
    set k | j.retryCount <= k < cfg.maxRetries && j.status == Queued :: (id, k)
  }

  function Remaining(cfg: Config, j: Job): nat {
    if j.status == Queued && j.retryCount < cfg.maxRetries then cfg.maxRetries - j.retryCount else 0
  }

  function Measure(cfg: Config, w: World): nat {
    |RetryTokens(cfg, w.db.jobs)| + |w.out.messages|
  }

  lemma {:induction false} TokensOfCount(cfg: Config, id: Uuid, j: Job)
    ensures |TokensOf(cfg, id, j)| == Remaining(cfg, j)
    decreases Remaining(cfg, j)
  {
    if Remaining(cfg, j) > 0 {
      var k := j.(retryCount := j.retryCount + 1);
      assert TokensOf(cfg, id, j) == TokensOf(cfg, id, k) + {(id, j.retryCount as int)};
      TokensOfCount(cfg, id, k);
    } else {
      assert TokensOf(cfg, id, j) == {};
    }
  }

  /** Tokens add up job by job: their number is the sum of max(0, max_retries - retry_count) over QUEUED jobs. */
  lemma TokensAddUp(cfg: Config, jobs: map<Uuid, Job>, id: Uuid, j: Job)
    requires id !in jobs
    ensures |RetryTokens(cfg, jobs[id := j])| == |RetryTokens(cfg, jobs)| + Remaining(cfg, j)
  {
    var more := jobs[id := j];
    assert forall i | i in jobs :: more[i] == jobs[i];
    assert RetryTokens(cfg, more) == RetryTokens(cfg, jobs) + TokensOf(cfg, id, j);
    assert RetryTokens(cfg, jobs) !! TokensOf(cfg, id, j);
    TokensOfCount(cfg, id, j);
  }

  lemma AttemptSpendsToken(cfg: Config, jobs: map<Uuid, Job>, j: Job, k: Job)
    requires j.id in jobs && jobs[j.id] == j && j.status == Queued && Became(cfg, j, k, FateOf(k))
    ensures |RetryTokens(cfg, jobs[j.id := k])| + (if FateOf(k) == TriedAgain then 1 else 0) <= |RetryTokens(cfg, jobs)|
  {
    var others := map i | i in jobs && i != j.id :: jobs[i];
    assert others[j.id := j] == jobs;
    assert others[j.id := k] == jobs[j.id := k];
    TokensAddUp(cfg, others, j.id, j);
    TokensAddUp(cfg, others, j.id, k);
  }

  /** What a delivery that commits does to rows and queue. */
  lemma CommittedDelivery(cfg: Config, w: World, m: Message, c: Chance)
    requires Good(cfg, w) && m in w.out.messages
    ensures var s := Deliver(m, c, None);
            var x := Next(cfg, w, s);
            && Commits(cfg, w, s)
            && (!Runnable(w.db, m) ==> x.db == w.db && x.out.messages == w.out.messages - multiset{m})
            && (Runnable(w.db, m) ==>
                  var j := w.db.jobs[m.jobId];
                  var k := Execute(cfg, w.db, w.out.blobs, j, c).job;
                  && Became(cfg, j, k, FateOf(k))
                  && x.db.jobs == w.db.jobs[j.id := k]
                  && x.out.messages == w.out.messages
                       + (if FateOf(k) == TriedAgain then multiset{m} else multiset{}) - multiset{m})
  {
    var tx := HandleTx(cfg, w.db, w.out.blobs, m, c);
    assert tx.effects[..|tx.effects|] == tx.effects;
    if Runnable(w.db, m) {
      RowsPointers(w.db);
      ExecuteOutcome(cfg, w.db, w.out.blobs, w.db.jobs[m.jobId], c);
      AttemptOutside(cfg, w.db, w.out, w.db.jobs[m.jobId], c);
    }
  }

  /** Every committed delivery strictly decreases retries left plus messages waiting. */
  lemma DeliveryDecreases(cfg: Config, w: World, m: Message, c: Chance)
    requires Good(cfg, w) && m in w.out.messages
    ensures Measure(cfg, Next(cfg, w, Deliver(m, c, None))) < Measure(cfg, w)
  {
    CommittedDelivery(cfg, w, m, c);
    if Runnable(w.db, m) {
      var j := w.db.jobs[m.jobId];
      AttemptSpendsToken(cfg, w.db.jobs, j, Execute(cfg, w.db, w.out.blobs, j, c).job);
    }
  }

  predicate Uncut(s: Step) {
    s.Deliver? && s.fuse.None?
  }

  predicate OnlyDeliveries(steps: seq<Step>) {
    steps != [] ==> Uncut(steps[0]) && OnlyDeliveries(steps[1..])
  }

  lemma DrainStep(cfg: Config, w: World, s: Step, x: World)
    requires Good(cfg, w) && Wired(cfg) && Enabled(w, s) && Uncut(s) && x == Next(cfg, w, s)
    ensures Good(cfg, x) && Measure(cfg, x) < Measure(cfg, w)
  {
    assert s == Deliver(s.message, s.chance, None);
    DeliveryDecreases(cfg, w, s.message, s.chance);
    StepKeepsGood(cfg, w, s);
  }

  /** A rollback-free run of deliveries is no longer than the initial measure. */
  lemma {:induction false} DrainIsBounded(cfg: Config, w: World, steps: seq<Step>)
    requires Good(cfg, w) && Wired(cfg) && Possible(cfg, w, steps) && OnlyDeliveries(steps)
    ensures |steps| + Measure(cfg, Run(cfg, w, steps)) <= Measure(cfg, w)
    ensures Good(cfg, Run(cfg, w, steps))
    decreases |steps|
  {
    if steps == [] {
    } else {
      var x := Next(cfg, w, steps[0]);
      DrainStep(cfg, w, steps[0], x);
      DrainIsBounded(cfg, x, steps[1..]);
    }
  }

  /** With the queue empty nothing is left to do: every job is COMPLETED or FAILED. */
  lemma DrainedIsFinished(cfg: Config, w: World)
    requires Good(cfg, w) && w.out.messages == multiset{}
    ensures forall j | j in w.db.jobs :: w.db.jobs[j].status == Completed || w.db.jobs[j].status == Failed
  {
    forall j | j in w.db.jobs
      ensures w.db.jobs[j].status != Queued
    {
      assert Message(w.db.jobs[j].tenantId, j) !in w.out.messages;
    }
  }
}
