/**
 * Several consumers on one job: each attempt works on the row as it read it, and its commit overwrites the row. Copies of
 * the job's message are not counted: every retry is published before its commit, and the broker may redeliver.
 */
module Overlaps {
  import opened Prelude
  import opened Jobs
  import opened Store
  import opened UseCases
  import opened Executor
  import opened JobSteps

  /** The committed row, the attempts in flight with the row each of them read, and how many attempts have ended. */
  datatype State = State(row: Job, open: map<nat, Job>, ended: nat)

  datatype Move = Begin(attempt: nat) | Finish(attempt: nat, result: Job)

  /** A consumer starts only from a QUEUED row; an attempt ends in one of the executor's fates. */
  predicate Legal(cfg: Config, s: State, m: Move) {
    match m
    case Begin(t) => t !in s.open && s.row.status == Queued
    case Finish(t, k) => t in s.open && Became(cfg, s.open[t], k, FateOf(k))
  }

  function Without(open: map<nat, Job>, t: nat): map<nat, Job> {
    map u | u in open && u != t :: open[u]
  }

  function Moved(cfg: Config, s: State, m: Move): State
    requires Legal(cfg, s, m)
  {
    match m
    case Begin(t) => s.(open := s.open[t := s.row])
    case Finish(t, k) => State(k, Without(s.open, t), s.ended + 1)
  }

  predicate AllLegal(cfg: Config, s: State, moves: seq<Move>)
    decreases |moves|
  {
    moves != [] ==> Legal(cfg, s, moves[0]) && AllLegal(cfg, Moved(cfg, s, moves[0]), moves[1..])
  }

  function Played(cfg: Config, s: State, moves: seq<Move>): State
    requires AllLegal(cfg, s, moves)
    decreases |moves|
  {
    if moves == [] then s else Played(cfg, Moved(cfg, s, moves[0]), moves[1..])
  }

  /** Never more than c attempts are in flight. */
  predicate AtMost(cfg: Config, s: State, moves: seq<Move>, c: nat)
    requires AllLegal(cfg, s, moves)
    decreases |moves|
  {
    |s.open| <= c && (moves != [] ==> AtMost(cfg, Moved(cfg, s, moves[0]), moves[1..], c))
  }

  function Start(row: Job): State {
    State(row, map[], 0)
  }

  /** The executor's attempts are these: what it commits for a row it read is a legal ending of an attempt on that row. */
  lemma ExecutorEnds(cfg: Config, db: Tables, blobs: map<string, Bytes>, j: Job, c: Chance, s: State, t: nat)
    requires PointersOk(db) && j.id in db.jobs && db.jobs[j.id] == j && j.status == Queued && RecordOk(j)
    requires t in s.open && s.open[t] == j
    ensures Legal(cfg, s, Finish(t, Execute(cfg, db, blobs, j, c).job))
  {
    ExecuteOutcome(cfg, db, blobs, j, c);
  }

  // ---- the bound ---------------------------------------------------------

  /**
   * The most attempts c consumers can make of a job that one consumer attempts at most b times: one that reads the row and
   * waits, what the others make of that row meanwhile, and what all of them make of the row it then leaves.
   */
  function Most(c: nat, b: nat): nat {
    if c == 0 || b == 0 then 0 else 1 + Most(c - 1, b) + Most(c, b - 1)
  }

  lemma {:induction false} OneConsumer(b: nat)
    ensures Most(1, b) == b
  {
    if b == 0 {
    } else {
      OneConsumer(b - 1);
    }
  }

  /** What one more level is worth to n consumers. */
  function Gap(n: nat, x: nat): nat {
    if n == 0 then 0 else 1 + Most(n - 1, x + 1)
  }

  lemma GapIs(n: nat, x: nat)
    ensures Gap(n, x) == Most(n, x + 1) - Most(n, x)
    ensures Gap(n + 1, x) == Gap(n, x) + 1 + Most(n, x)
  {
  }

  lemma {:induction false} GapGrows(n: nat, m: nat, x: nat)
    requires n <= m
    ensures Gap(n, x) <= Gap(m, x)
    decreases m - n
  {
    if n == m {
    } else {
      GapIs(n, x);
      GapGrows(n + 1, m, x);
    }
  }

  /** The work done, level by level: ns[x] consumers have fallen below level x + 1. */
  function Spent(ns: seq<nat>): nat {
    if ns == [] then 0 else Spent(ns[..|ns| - 1]) + Gap(ns[|ns| - 1], |ns| - 1)
  }

  lemma {:induction false} SpentAtMost(ns: seq<nat>, c: nat)
    requires forall x | 0 <= x < |ns| :: ns[x] <= c
    ensures Spent(ns) <= Most(c, |ns|)
    decreases |ns|
  {
    if ns == [] {
    } else {
      var n := |ns| - 1;
      SpentAtMost(ns[..n], c);
      GapGrows(ns[n], c, n);
      GapIs(c, n);
    }
  }

  lemma {:induction false} SpentGrows(ns: seq<nat>, ms: seq<nat>, h: nat)
    requires |ns| == |ms| && h <= |ns| && forall x | h <= x < |ns| :: ns[x] <= ms[x]
    requires Spent(ns[..h]) < Spent(ms[..h])
    ensures Spent(ns) < Spent(ms)
    decreases |ns|
  {
    if h == |ns| {
      assert ns[..h] == ns && ms[..h] == ms;
    } else {
      var n := |ns| - 1;
      assert ns[..n][..h] == ns[..h] && ms[..n][..h] == ms[..h];
      SpentGrows(ns[..n], ms[..n], h);
      GapGrows(ns[n], ms[n], n);
    }
  }

  /** Whatever is regained below level h + 1, one more consumer falling below it is worth more. */
  lemma FallingSpends(ns: seq<nat>, ms: seq<nat>, h: nat, m: nat)
    requires |ns| == |ms| && h < |ns|
    requires (forall x | 0 <= x <= h :: ns[x] <= m) && ms[h] == m + 1 && forall x | h < x < |ns| :: ns[x] <= ms[x]
    ensures Spent(ns) < Spent(ms)
  {
    var before, after := ns[..h + 1], ms[..h + 1];
    assert before[..h] == ns[..h] && after[..h] == ms[..h];
    SpentAtMost(ns[..h], m);
    GapGrows(ns[h], m, h);
    GapIs(m, h);
    SpentGrows(ns, ms, h + 1);
  }

  // ---- levels of a state -------------------------------------------------

  /** How often one consumer would still attempt the job. */
  function Level(cfg: Config, j: Job): int {
    if j.status == Queued then Budget(cfg) - j.retryCount + 1 else 0
  }

  function Below(cfg: Config, open: map<nat, Job>, y: int): set<nat> {
    set t | t in open && Level(cfg, open[t]) < y
  }

  /** Consumers that have fallen below level y: attempts on older rows, and the idle ones once the row is below it. */
  function Fallen(cfg: Config, s: State, c: nat, y: int): nat
    requires |s.open| <= c
  {
    |Below(cfg, s.open, y)| + if Level(cfg, s.row) < y then c - |s.open| else 0
  }

  function Profile(cfg: Config, s: State, c: nat, b: nat): (ns: seq<nat>)
    requires |s.open| <= c
    ensures |ns| == b && forall x | 0 <= x < b :: ns[x] == Fallen(cfg, s, c, x + 1)
  {
    seq(b, x requires 0 <= x < b => Fallen(cfg, s, c, x + 1))
  }

  /** Every attempt in flight read a QUEUED row, none of them above level b. */
  predicate Within(cfg: Config, s: State, b: nat) {
    && Level(cfg, s.row) <= b && (s.row.status == Queued ==> Level(cfg, s.row) >= 1)
    && forall t | t in s.open :: s.open[t].status == Queued && 1 <= Level(cfg, s.open[t]) <= b
  }

  lemma SubsetCount(a: set<nat>, b: set<nat>)
    requires a <= b
    ensures |a| <= |b|
  {
    assert b == a + (b - a);
  }

  lemma KeysCount(open: map<nat, Job>, more: map<nat, Job>, t: nat, j: Job)
    requires t !in open && more == open[t := j]
    ensures |more| == |open| + 1
  {
    assert more.Keys == open.Keys + {t};
  }

  lemma FallenFits(cfg: Config, s: State, c: nat, y: int)
    requires |s.open| <= c
    ensures Fallen(cfg, s, c, y) <= c
  {
    SubsetCount(Below(cfg, s.open, y), s.open.Keys);
  }

  /** An attempt that begins is still where the idle consumers were. */
  lemma BeginKeepsFallen(cfg: Config, s: State, t: nat, c: nat, y: int)
    requires Legal(cfg, s, Begin(t)) && |s.open| < c
    ensures |Moved(cfg, s, Begin(t)).open| == |s.open| + 1
    ensures Fallen(cfg, Moved(cfg, s, Begin(t)), c, y) == Fallen(cfg, s, c, y)
  {
    var x := Moved(cfg, s, Begin(t));
    KeysCount(s.open, x.open, t, s.row);
    var below := Below(cfg, s.open, y);
    if Level(cfg, s.row) < y {
      assert Below(cfg, x.open, y) == below + {t};
    } else {
      assert Below(cfg, x.open, y) == below;
    }
  }

  /** What an ending attempt does to the count at each level, h being the level it had read. */
  lemma FinishFallen(cfg: Config, s: State, t: nat, k: Job, c: nat, y: int)
    requires Legal(cfg, s, Finish(t, k)) && |s.open| <= c && s.open[t].status == Queued && Level(cfg, s.open[t]) >= 1
    ensures var x := Moved(cfg, s, Finish(t, k));
            var h := Level(cfg, s.open[t]);
            var waiting := |Below(cfg, s.open, h)| + c - |s.open|;
            && |x.open| == |s.open| - 1
            && (y <= h ==> Fallen(cfg, s, c, y) <= waiting)
            && (y == h ==> Fallen(cfg, x, c, y) == waiting + 1)
            && (y > h ==> Fallen(cfg, s, c, y) <= Fallen(cfg, x, c, y))
  {
    var x := Moved(cfg, s, Finish(t, k));
    var h := Level(cfg, s.open[t]);
    KeysCount(x.open, s.open, t, s.open[t]);
    assert s.open == x.open[t := s.open[t]];
    assert Level(cfg, k) < h;
    if y <= h {
      SubsetCount(Below(cfg, s.open, y), Below(cfg, s.open, h));
      assert Below(cfg, x.open, y) == Below(cfg, s.open, y);
    } else {
      assert Below(cfg, s.open, y) == Below(cfg, x.open, y) + {t};
    }
  }

  lemma StaysWithin(cfg: Config, s: State, m: Move, b: nat)
    requires Legal(cfg, s, m) && Within(cfg, s, b)
    ensures Within(cfg, Moved(cfg, s, m), b)
  {
  }

  /** Ended attempts never outnumber what has been spent. */
  predicate PaidFor(cfg: Config, s: State, c: nat, b: nat) {
    |s.open| <= c && s.ended <= Spent(Profile(cfg, s, c, b))
  }

  lemma BeginPays(cfg: Config, s: State, t: nat, c: nat, b: nat)
    requires Legal(cfg, s, Begin(t)) && PaidFor(cfg, s, c, b) && |Moved(cfg, s, Begin(t)).open| <= c
    ensures PaidFor(cfg, Moved(cfg, s, Begin(t)), c, b)
  {
    var x := Moved(cfg, s, Begin(t));
    KeysCount(s.open, x.open, t, s.row);
    forall i | 0 <= i < b
      ensures Profile(cfg, x, c, b)[i] == Profile(cfg, s, c, b)[i]
    {
      BeginKeepsFallen(cfg, s, t, c, i + 1);
    }
    assert Profile(cfg, x, c, b) == Profile(cfg, s, c, b);
  }

  /** The profiles before and after an ending attempt, m being the consumers waiting at or below its level. */
  lemma ProfileFalls(cfg: Config, s: State, t: nat, k: Job, c: nat, b: nat, m: nat)
    requires Legal(cfg, s, Finish(t, k)) && Within(cfg, s, b) && |s.open| <= c
    requires m == |Below(cfg, s.open, Level(cfg, s.open[t]))| + c - |s.open|
    ensures |Moved(cfg, s, Finish(t, k)).open| <= c
    ensures var ns, ms := Profile(cfg, s, c, b), Profile(cfg, Moved(cfg, s, Finish(t, k)), c, b);
            var h := Level(cfg, s.open[t]) - 1;
            && (forall i | 0 <= i <= h :: ns[i] <= m) && ms[h] == m + 1 && forall i | h < i < b :: ns[i] <= ms[i]
  {
    var x := Moved(cfg, s, Finish(t, k));
    var h := Level(cfg, s.open[t]) - 1;
    FinishFallen(cfg, s, t, k, c, h + 1);
    var ns, ms := Profile(cfg, s, c, b), Profile(cfg, x, c, b);
    forall i | 0 <= i < b
      ensures i <= h ==> ns[i] <= m
      ensures i > h ==> ns[i] <= ms[i]
    {
      FinishFallen(cfg, s, t, k, c, i + 1);
    }
  }

  lemma FinishPays(cfg: Config, s: State, t: nat, k: Job, c: nat, b: nat)
    requires Legal(cfg, s, Finish(t, k)) && Within(cfg, s, b) && PaidFor(cfg, s, c, b)
    ensures PaidFor(cfg, Moved(cfg, s, Finish(t, k)), c, b)
  {
    var h := Level(cfg, s.open[t]);
    var m := |Below(cfg, s.open, h)| + c - |s.open|;
    ProfileFalls(cfg, s, t, k, c, b, m);
    FallingSpends(Profile(cfg, s, c, b), Profile(cfg, Moved(cfg, s, Finish(t, k)), c, b), h - 1, m);
  }

  lemma {:induction false} RunsArePaidFor(cfg: Config, s: State, moves: seq<Move>, c: nat, b: nat)
    requires AllLegal(cfg, s, moves) && AtMost(cfg, s, moves, c) && Within(cfg, s, b) && PaidFor(cfg, s, c, b)
    ensures PaidFor(cfg, Played(cfg, s, moves), c, b)
    decreases |moves|
  {
    if moves == [] {
    } else {
      var x := Moved(cfg, s, moves[0]);
      StaysWithin(cfg, s, moves[0], b);
      match moves[0] {
        case Begin(t) => BeginPays(cfg, s, t, c, b);
        case Finish(t, k) => FinishPays(cfg, s, t, k, c, b);
      }
      RunsArePaidFor(cfg, x, moves[1..], c, b);
    }
  }

  /** With at most c attempts in flight, a job with b attempts to go is attempted at most `Most(c, b)` times. */
  lemma OverlapIsBounded(cfg: Config, row: Job, moves: seq<Move>, c: nat)
    requires row.status == Queued && row.retryCount <= Budget(cfg)
    requires AllLegal(cfg, Start(row), moves) && AtMost(cfg, Start(row), moves, c)
    ensures Played(cfg, Start(row), moves).ended <= Most(c, Budget(cfg) - row.retryCount + 1)
  {
    var b := Budget(cfg) - row.retryCount + 1;
    RunsArePaidFor(cfg, Start(row), moves, c, b);
    var x := Played(cfg, Start(row), moves);
    forall i | 0 <= i < b
      ensures Profile(cfg, x, c, b)[i] <= c
    {
      FallenFits(cfg, x, c, i + 1);
    }
    SpentAtMost(Profile(cfg, x, c, b), c);
  }

  /** With one consumer the job is attempted at most max_retries - retry_count + 1 times. */
  lemma SerialStaysInBudget(cfg: Config, row: Job, moves: seq<Move>)
    requires row.status == Queued && row.retryCount <= Budget(cfg)
    requires AllLegal(cfg, Start(row), moves) && AtMost(cfg, Start(row), moves, 1)
    ensures Played(cfg, Start(row), moves).ended <= Budget(cfg) - row.retryCount + 1
  {
    OverlapIsBounded(cfg, row, moves, 1);
    OneConsumer(Budget(cfg) - row.retryCount + 1);
  }

  // ---- the bound is met --------------------------------------------------

  /** The row a failing attempt leaves: one more retry while the budget lasts, FAILED after. */
  function Failing(cfg: Config, row: Job): Job {
    if row.retryCount < cfg.maxRetries then row.(retryCount := row.retryCount + 1)
    else row.(status := Failed, finishedAt := Some(Instant(0, 0, 0)), errorMessage := Some(""))
  }

  lemma {:induction false} PlayedConcat(cfg: Config, s: State, a: seq<Move>, b: seq<Move>)
    requires AllLegal(cfg, s, a) && AllLegal(cfg, Played(cfg, s, a), b)
    ensures AllLegal(cfg, s, a + b) && Played(cfg, s, a + b) == Played(cfg, Played(cfg, s, a), b)
    ensures forall n: nat :: AtMost(cfg, s, a, n) && AtMost(cfg, Played(cfg, s, a), b, n) ==> AtMost(cfg, s, a + b, n)
    decreases |a|
  {
    if a == [] {
      assert a + b == b;
    } else {
      assert (a + b)[1..] == a[1..] + b;
      PlayedConcat(cfg, Moved(cfg, s, a[0]), a[1..], b);
    }
  }

  predicate Fresh(cfg: Config, row: Job) {
    row.status == Queued && RecordOk(row) && row.retryCount <= Budget(cfg) && row.jobType in cfg.registry
  }

  /** What playing the worst schedule for c idle consumers does, whoever else is waiting. */
  predicate Exhausts(cfg: Config, s: State, moves: seq<Move>, c: nat)
    requires s.row.retryCount <= Budget(cfg)
  {
    && AllLegal(cfg, s, moves) && AtMost(cfg, s, moves, |s.open| + c)
    && var x := Played(cfg, s, moves);
       && x.open == s.open && x.ended == s.ended + Most(c, Level(cfg, s.row))
  }

  lemma FailingEnds(cfg: Config, row: Job)
    requires Fresh(cfg, row)
    ensures Became(cfg, row, Failing(cfg, row), FateOf(Failing(cfg, row)))
    ensures Level(cfg, Failing(cfg, row)) == Level(cfg, row) - 1
    ensures row.retryCount < cfg.maxRetries ==> Fresh(cfg, Failing(cfg, row))
    ensures row.retryCount >= cfg.maxRetries ==> Level(cfg, row) == 1
  {
  }

  lemma OneMove(cfg: Config, s: State, m: Move, n: nat)
    requires Legal(cfg, s, m)
    ensures AllLegal(cfg, s, [m]) && Played(cfg, s, [m]) == Moved(cfg, s, m)
    ensures |s.open| <= n && |Moved(cfg, s, m).open| <= n ==> AtMost(cfg, s, [m], n)
  {
    assert [m][1..] == [];
    assert AllLegal(cfg, Moved(cfg, s, m), []);
  }

  /** One consumer waits while the others exhaust the row, and then commits its own failure. */
  function Round(cfg: Config, row: Job, c: nat, inner: seq<Move>): seq<Move> {
    [Begin(c)] + inner + [Finish(c, Failing(cfg, row))]
  }

  lemma RoundPlays(cfg: Config, s: State, c: nat, inner: seq<Move>)
    requires Fresh(cfg, s.row) && c !in s.open && Exhausts(cfg, Moved(cfg, s, Begin(c)), inner, c)
    ensures var moves := Round(cfg, s.row, c, inner);
            && AllLegal(cfg, s, moves) && AtMost(cfg, s, moves, |s.open| + c + 1)
            && Played(cfg, s, moves) == State(Failing(cfg, s.row), s.open, s.ended + 1 + Most(c, Level(cfg, s.row)))
  {
    var n := |s.open| + c + 1;
    var end := Finish(c, Failing(cfg, s.row));
    var s1 := Moved(cfg, s, Begin(c));
    var s2 := Played(cfg, s1, inner);
    FailingEnds(cfg, s.row);
    KeysCount(s.open, s1.open, c, s.row);
    OneMove(cfg, s, Begin(c), n);
    assert Without(s1.open, c) == s.open;
    OneMove(cfg, s2, end, n);
    PlayedConcat(cfg, s, [Begin(c)], inner);
    PlayedConcat(cfg, s, [Begin(c)] + inner, [end]);
  }

  lemma Joined(cfg: Config, s: State, a: seq<Move>, next: State, b: seq<Move>, n: nat)
    requires AllLegal(cfg, s, a) && AtMost(cfg, s, a, n) && Played(cfg, s, a) == next
    requires AllLegal(cfg, next, b) && AtMost(cfg, next, b, n)
    ensures AllLegal(cfg, s, a + b) && AtMost(cfg, s, a + b, n) && Played(cfg, s, a + b) == Played(cfg, next, b)
  {
    PlayedConcat(cfg, s, a, b);
  }

  lemma MostIs(c: nat, b: nat)
    ensures Most(c + 1, b + 1) == 1 + Most(c, b + 1) + Most(c + 1, b)
    ensures Most(c, 0) == 0
  {
  }

  /** A round, and then everything the row it leaves still allows. */
  lemma RoundThenRest(cfg: Config, s: State, c: nat, round: seq<Move>, next: State, rest: seq<Move>)
    requires Fresh(cfg, s.row) && AllLegal(cfg, s, round) && AtMost(cfg, s, round, |s.open| + c + 1)
    requires Played(cfg, s, round) == next
    requires next == State(Failing(cfg, s.row), s.open, s.ended + 1 + Most(c, Level(cfg, s.row)))
    requires if s.row.retryCount < cfg.maxRetries then Exhausts(cfg, next, rest, c + 1) else rest == []
    ensures Exhausts(cfg, s, round + rest, c + 1)
  {
    FailingEnds(cfg, s.row);
    MostIs(c, Level(cfg, s.row) - 1);
    MostIs(c + 1, 0);
    if s.row.retryCount < cfg.maxRetries {
      Joined(cfg, s, round, next, rest, |s.open| + c + 1);
    } else {
      assert round + [] == round;
    }
  }

  ghost predicate CanExhaust(cfg: Config, s: State, c: nat)
    requires s.row.retryCount <= Budget(cfg)
  {
    exists moves :: Exhausts(cfg, s, moves, c)
  }

  function AfterRound(cfg: Config, s: State, c: nat): State
    requires s.row.retryCount <= Budget(cfg)
  {
    State(Failing(cfg, s.row), s.open, s.ended + 1 + Most(c, Level(cfg, s.row)))
  }

  lemma LastRound(cfg: Config, s: State, c: nat)
    requires Fresh(cfg, s.row) && c !in s.open && CanExhaust(cfg, Moved(cfg, s, Begin(c)), c)
    requires s.row.retryCount >= cfg.maxRetries
    ensures CanExhaust(cfg, s, c + 1)
  {
    var inner :| Exhausts(cfg, Moved(cfg, s, Begin(c)), inner, c);
    RoundPlays(cfg, s, c, inner);
    RoundThenRest(cfg, s, c, Round(cfg, s.row, c, inner), AfterRound(cfg, s, c), []);
  }

  lemma RoundAgain(cfg: Config, s: State, c: nat)
    requires Fresh(cfg, s.row) && c !in s.open && CanExhaust(cfg, Moved(cfg, s, Begin(c)), c)
    requires s.row.retryCount < cfg.maxRetries && CanExhaust(cfg, AfterRound(cfg, s, c), c + 1)
    ensures CanExhaust(cfg, s, c + 1)
  {
    var inner :| Exhausts(cfg, Moved(cfg, s, Begin(c)), inner, c);
    var rest :| Exhausts(cfg, AfterRound(cfg, s, c), rest, c + 1);
    RoundPlays(cfg, s, c, inner);
    RoundThenRest(cfg, s, c, Round(cfg, s.row, c, inner), AfterRound(cfg, s, c), rest);
  }

  /** One consumer reads the row and waits while the others exhaust it, then commits; then all start on what it left. */
  lemma {:induction false} AllExhaust(cfg: Config, s: State, c: nat)
    requires Fresh(cfg, s.row) && forall t | t in s.open :: t >= c
    ensures CanExhaust(cfg, s, c)
    decreases Budget(cfg) - s.row.retryCount, c
  {
    if c == 0 {
      assert Exhausts(cfg, s, [], c);
    } else {
      FailingEnds(cfg, s.row);
      AllExhaust(cfg, Moved(cfg, s, Begin(c - 1)), c - 1);
      if s.row.retryCount < cfg.maxRetries {
        AllExhaust(cfg, AfterRound(cfg, s, c - 1), c);
        RoundAgain(cfg, s, c - 1);
      } else {
        LastRound(cfg, s, c - 1);
      }
    }
  }

  /** A schedule of at most c attempts in flight that ends exactly n of them. */
  predicate Reaches(cfg: Config, row: Job, moves: seq<Move>, c: nat, n: nat) {
    && AllLegal(cfg, Start(row), moves) && AtMost(cfg, Start(row), moves, c)
    && Played(cfg, Start(row), moves).ended == n
  }

  lemma ExhaustedReaches(cfg: Config, row: Job, moves: seq<Move>, c: nat, n: nat)
    requires Fresh(cfg, row) && Exhausts(cfg, Start(row), moves, c) && n == Most(c, Level(cfg, row))
    ensures Reaches(cfg, row, moves, c, n)
  {
  }

  /** For every number of consumers and every row some schedule makes exactly that many attempts. */
  lemma BoundIsMet(cfg: Config, row: Job, c: nat)
    requires Fresh(cfg, row)
    ensures var n := Most(c, Budget(cfg) - row.retryCount + 1);
            exists moves :: Reaches(cfg, row, moves, c, n)
  {
    var n := Most(c, Budget(cfg) - row.retryCount + 1);
    AllExhaust(cfg, Start(row), c);
    var moves :| Exhausts(cfg, Start(row), moves, c);
    ExhaustedReaches(cfg, row, moves, c, n);
    assert Reaches(cfg, row, moves, c, n);
  }
}
