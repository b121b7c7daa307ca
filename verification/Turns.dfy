/**
 * Any number of chat turns in flight at once. A turn reads its conversation, waits for the language model, and only then
 * writes; the unique index on (conversation, seq) decides which turns commit.
 */
module Turns {
  import opened Prelude
  import opened Conversations

  // ---- the prompt --------------------------------------------------------

  /** Python's `messages[-k:]`: the whole list for k = 0, and a prefix dropped for negative k. */
  function Window(ms: seq<Message>, k: int): seq<Message> {
    var n := |ms|;
    if k > 0 then ms[if n > k then n - k else 0..] else ms[if -k < n then -k else n..]
  }

  datatype Line = Line(role: Role, content: string)

  function Lines(ms: seq<Message>): seq<Line> {
    seq(|ms|, i requires 0 <= i < |ms| => Line(ms[i].role, ms[i].content))
  }

  function Prompt(system: string, window: int, history: seq<Message>, question: string): seq<Line> {
    [Line(System, system)] + Lines(Window(history, window)) + [Line(User, question)]
  }

  /** How many of n messages a window of k keeps: the last k, all of them for 0, all but the first -k for a negative k. */
  function Kept(n: nat, k: int): (kept: nat)
    ensures kept <= n
  {
    if k > 0 then (if k < n then k else n) else if n + k > 0 then n + k else 0
  }

  /** Whatever the window, the slice is the last messages, in order, and exactly as many as it keeps. */
  lemma WindowIsLast(ms: seq<Message>, k: int)
    ensures var kept := Kept(|ms|, k);
            |Window(ms, k)| == kept && forall i | 0 <= i < kept :: Window(ms, k)[i] == ms[|ms| - kept + i]
  {
    assert Window(ms, k) == ms[|ms| - Kept(|ms|, k)..];
  }

  /** Line by line: the system line, one line for each message kept, with its role and content, and the question. */
  predicate PromptedWith(window: int, prompt: seq<Line>, system: string, history: seq<Message>, question: string) {
    var kept := Kept(|history|, window);
    && |prompt| == kept + 2
    && prompt[0] == Line(System, system)
    && (forall i | 1 <= i <= kept ::
          prompt[i] == Line(history[|history| - kept + i - 1].role, history[|history| - kept + i - 1].content))
    && prompt[kept + 1] == Line(User, question)
  }

  lemma PromptIsPrompted(system: string, window: int, history: seq<Message>, question: string)
    ensures PromptedWith(window, Prompt(system, window, history, question), system, history, question)
  {
    WindowIsLast(history, window);
    var kept, shown := Kept(|history|, window), Window(history, window);
    var prompt := Prompt(system, window, history, question);
    assert prompt[kept + 1] == Line(User, question);
    forall i | 1 <= i <= kept
      ensures prompt[i] == Line(history[|history| - kept + i - 1].role, history[|history| - kept + i - 1].content)
    {
      assert prompt[i] == Lines(shown)[i - 1];
      assert shown[i - 1] == history[|history| - kept + (i - 1)];
    }
  }

  // ---- turns in flight ---------------------------------------------------

  /** What a request asks: the tenant it speaks for, the conversation it names, its question, and the system line. */
  datatype Ask = Ask(tenantId: string, c: Uuid, question: string, system: string)

  /** A turn between its read and its write: what was asked, what it read, and the prompt built from it. */
  datatype Turn = Turn(ask: Ask, conv: Conversation, isNew: bool, question: string, prompt: seq<Line>)

  /** A committed turn, as a record for the theorems. */
  datatype Done = Done(ask: Ask, c: Uuid, before: seq<Message>, question: Message, answer: Message, prompt: seq<Line>)

  datatype State = State(store: Store, open: map<nat, Turn>, log: seq<Done>)

  datatype Move =
    | Begin(turn: nat, tenantId: string, c: Uuid, question: string, system: string)
    | Continue(turn: nat, tenantId: string, c: Uuid, question: string, system: string)
    | Finish(turn: nat, answer: string, questionId: Uuid, answerId: Uuid)
    | Abandon(turn: nat)

  /** uuid4 values are drawn once: ids of conversations, and of messages. */
  predicate Legal(s: State, m: Move) {
    match m
    case Begin(t, _, c, _, _) =>
      t !in s.open && c !in s.store.tenants && forall u | u in s.open :: s.open[u].isNew ==> s.open[u].conv.id != c
    case Continue(t, _, _, _, _) => t !in s.open
    case Finish(t, _, q, a) =>
      t in s.open && q != a && forall k | 0 <= k < |s.store.rows| :: s.store.rows[k].id != q && s.store.rows[k].id != a
    case Abandon(t) => t in s.open
  }

  function Extended(turn: Turn, answer: string, q: Uuid, a: Uuid): Conversation {
    turn.conv.(messages := turn.conv.messages + [Message(q, User, turn.question), Message(a, Assistant, answer)])
  }

  /** The single write of a turn; None is the integrity error. */
  function Written(s: Store, turn: Turn, answer: string, q: Uuid, a: Uuid): Option<Store> {
    if turn.isNew then Added(s, Extended(turn, answer, q, a)) else Updated(s, Extended(turn, answer, q, a))
  }

  function Closed(open: map<nat, Turn>, t: nat): map<nat, Turn> {
    map u | u in open && u != t :: open[u]
  }

  /** What a request reads before it asks the model: a new conversation, the tenant's old one, or nothing. */
  function Opening(window: int, s: Store, isNew: bool, ask: Ask): Option<Turn> {
    var found := if isNew then Some(Conversation(ask.c, ask.tenantId, [])) else Get(s, ask.tenantId, ask.c);
    if found.None? then None
    else Some(Turn(ask, found.value, isNew, ask.question,
                   Prompt(ask.system, window, found.value.messages, ask.question)))
  }

  function Opened(s: State, t: nat, turn: Option<Turn>): State {
    if turn.None? then s else s.(open := s.open[t := turn.value])
  }

  function Moved(window: int, s: State, m: Move): State
    requires Legal(s, m)
  {
    match m
    case Begin(t, tenantId, c, question, system) =>
      Opened(s, t, Opening(window, s.store, true, Ask(tenantId, c, question, system)))
    case Continue(t, tenantId, c, question, system) =>
      Opened(s, t, Opening(window, s.store, false, Ask(tenantId, c, question, system)))
    case Finish(t, answer, q, a) =>
      var turn := s.open[t];
      var after := Written(s.store, turn, answer, q, a);
      State(if after.Some? then after.value else s.store,
            Closed(s.open, t),
            if after.Some? then s.log + [Done(turn.ask, turn.conv.id, turn.conv.messages, Message(q, User, turn.question),
                                              Message(a, Assistant, answer), turn.prompt)]
            else s.log)
    case Abandon(t) => s.(open := Closed(s.open, t))
  }

  // ---- what holds in every state -----------------------------------------

  /** A turn in flight works for the tenant that asked, on the conversation asked for, and read a prefix of what it holds. */
  predicate TurnOk(window: int, s: State, t: nat) {
    t in s.open ==>
      var turn := s.open[t];
      && (turn.isNew ==> turn.conv.id !in s.store.tenants && turn.conv.messages == [])
      && (!turn.isNew ==> turn.conv.id in s.store.tenants && s.store.tenants[turn.conv.id] == turn.ask.tenantId
                          && turn.conv.messages <= History(s.store, turn.conv.id))
      && turn.conv.id == turn.ask.c && turn.conv.tenantId == turn.ask.tenantId && turn.question == turn.ask.question
      && PromptedWith(window, turn.prompt, turn.ask.system, turn.conv.messages, turn.ask.question)
  }

  /** The turns committed on one conversation, each right after what it had read. */
  function Transcript(log: seq<Done>, c: Uuid): seq<Message> {
    if log == [] then []
    else
      var n := |log| - 1;
      Transcript(log[..n], c) + (if log[n].c == c then [log[n].question, log[n].answer] else [])
  }

  /** Entry i read exactly the transcript of the entries before it. */
  predicate EntryOk(window: int, log: seq<Done>, i: nat) {
    i < |log| ==>
      && log[i].before == Transcript(log[..i], log[i].c)
      && log[i].question.role == User && log[i].answer.role == Assistant
      && log[i].c == log[i].ask.c && log[i].question.content == log[i].ask.question
      && PromptedWith(window, log[i].prompt, log[i].ask.system, log[i].before, log[i].ask.question)
  }

  /** A committed turn belongs to a conversation of the tenant that asked. */
  predicate EntryInTenant(s: State, i: nat) {
    i < |s.log| ==> s.log[i].c in s.store.tenants && s.store.tenants[s.log[i].c] == s.log[i].ask.tenantId
  }

  predicate SameAsTranscript(s: State, c: Uuid) {
    History(s.store, c) == Transcript(s.log, c)
  }

  ghost predicate StateOk(window: int, s: State) {
    && StoreOk(s.store)
    && (forall t, u | t in s.open && u in s.open && s.open[t].isNew && s.open[u].isNew && s.open[t].conv.id == s.open[u].conv.id :: t == u)
    && (forall t {:trigger TurnOk(window, s, t)} :: TurnOk(window, s, t))
    && (forall c {:trigger SameAsTranscript(s, c)} :: SameAsTranscript(s, c))
    && (forall i: nat {:trigger EntryOk(window, s.log, i)} :: EntryOk(window, s.log, i))
    && (forall i: nat {:trigger EntryInTenant(s, i)} :: EntryInTenant(s, i))
  }

  lemma OpeningKeepsTurn(window: int, s: State, m: Move, t: nat)
    requires TurnOk(window, s, t) && Legal(s, m) && !m.Finish?
    ensures TurnOk(window, Moved(window, s, m), t)
  {
    if m.Begin? { PromptIsPrompted(m.system, window, [], m.question); }
    if m.Continue? { PromptIsPrompted(m.system, window, History(s.store, m.c), m.question); }
  }

  lemma OpeningKeepsLog(window: int, s: State, m: Move)
    requires Legal(s, m) && !m.Finish?
    ensures Moved(window, s, m).store == s.store && Moved(window, s, m).log == s.log
  {
  }

  lemma OpeningKeepsState(window: int, s: State, m: Move)
    requires StateOk(window, s) && Legal(s, m) && !m.Finish?
    ensures StateOk(window, Moved(window, s, m))
  {
    var x := Moved(window, s, m);
    OpeningKeepsLog(window, s, m);
    forall t
      ensures TurnOk(window, x, t)
    {
      assert TurnOk(window, s, t);
      OpeningKeepsTurn(window, s, m, t);
    }
    forall c
      ensures SameAsTranscript(x, c)
    {
      assert SameAsTranscript(s, c);
    }
    forall i: nat
      ensures EntryInTenant(x, i)
    {
      assert EntryInTenant(s, i);
    }
  }

  lemma Pair(turn: Turn, answer: string, q: Uuid, a: Uuid)
    ensures Extended(turn, answer, q, a).messages[|turn.conv.messages|..]
         == [Message(q, User, turn.question), Message(a, Assistant, answer)]
    ensures Extended(turn, answer, q, a).messages[..|turn.conv.messages|] == turn.conv.messages
  {
  }

  lemma NewTurnCommits(s: Store, turn: Turn, answer: string, q: Uuid, a: Uuid)
    requires StoreOk(s) && turn.isNew && turn.conv.id !in s.tenants && turn.conv.messages == [] && q != a
    requires forall k | 0 <= k < |s.rows| :: s.rows[k].id != q && s.rows[k].id != a
    ensures Written(s, turn, answer, q, a).Some? && History(s, turn.conv.id) == []
  {
    EmptyHistory(s, turn.conv.id);
    AddThenGet(s, Extended(turn, answer, q, a));
  }

  lemma OldTurnCommitsIff(s: Store, turn: Turn, answer: string, q: Uuid, a: Uuid)
    requires StoreOk(s) && !turn.isNew && turn.conv.id in s.tenants && turn.conv.messages <= History(s, turn.conv.id) && q != a
    requires forall k | 0 <= k < |s.rows| :: s.rows[k].id != q && s.rows[k].id != a
    ensures Written(s, turn, answer, q, a).Some? <==> turn.conv.messages == History(s, turn.conv.id)
  {
    var conv := Extended(turn, answer, q, a);
    var n := |turn.conv.messages|;
    Pair(turn, answer, q, a);
    UpdateWrites(s, conv, n);
    AppendFitsIff(s, conv.id, conv.messages, n);
  }

  /** A turn commits exactly when nothing was appended to its conversation since it read it. */
  lemma CommitsIffCurrent(window: int, s: State, t: nat, answer: string, q: Uuid, a: Uuid)
    requires StateOk(window, s) && Legal(s, Finish(t, answer, q, a))
    ensures var turn := s.open[t];
            Written(s.store, turn, answer, q, a).Some? <==> turn.conv.messages == History(s.store, turn.conv.id)
  {
    assert TurnOk(window, s, t);
    if s.open[t].isNew {
      NewTurnCommits(s.store, s.open[t], answer, q, a);
    } else {
      OldTurnCommitsIff(s.store, s.open[t], answer, q, a);
    }
  }

  /** The write of a current turn appends its pair to its conversation and changes no other. */
  lemma CommitAppends(window: int, s: State, t: nat, answer: string, q: Uuid, a: Uuid)
    requires StateOk(window, s) && Legal(s, Finish(t, answer, q, a))
    requires Written(s.store, s.open[t], answer, q, a).Some?
    ensures var turn := s.open[t];
            var after := Written(s.store, turn, answer, q, a).value;
            && StoreOk(after)
            && History(after, turn.conv.id)
                 == History(s.store, turn.conv.id) + [Message(q, User, turn.question), Message(a, Assistant, answer)]
            && (forall c | c != turn.conv.id :: History(after, c) == History(s.store, c))
            && after.tenants == s.store.tenants[turn.conv.id := turn.conv.tenantId]
  {
    assert TurnOk(window, s, t);
    var turn := s.open[t];
    var conv := Extended(turn, answer, q, a);
    CommitsIffCurrent(window, s, t, answer, q, a);
    Pair(turn, answer, q, a);
    ExtendedIsDistinct(s.store, conv.id, Message(q, User, turn.question), Message(a, Assistant, answer));
    if turn.isNew {
      AddThenGet(s.store, conv);
    } else {
      UpdateThenGet(s.store, conv);
    }
  }

  lemma HistoryIsDistinct(s: Store, c: Uuid, i: nat, k: nat)
    requires StoreOk(s) && i < k < |History(s, c)|
    ensures History(s, c)[i].id != History(s, c)[k].id
  {
    StoredIds(s, c, i);
    StoredIds(s, c, k);
    var x :| 0 <= x < |s.rows| && s.rows[x] == ToRow(History(s, c)[i], c, i);
    var y :| 0 <= y < |s.rows| && s.rows[y] == ToRow(History(s, c)[k], c, k);
    assert if x < y then !Clash(s.rows[x], s.rows[y]) else !Clash(s.rows[y], s.rows[x]);
  }

  lemma HistoryAvoids(s: Store, c: Uuid, i: nat, id: Uuid)
    requires StoreOk(s) && i < |History(s, c)| && forall k | 0 <= k < |s.rows| :: s.rows[k].id != id
    ensures History(s, c)[i].id != id
  {
    StoredIds(s, c, i);
  }

  lemma PairKeepsDistinct(ms: seq<Message>, x: Message, y: Message)
    requires DistinctIds(ms) && x.id != y.id && forall i | 0 <= i < |ms| :: ms[i].id != x.id && ms[i].id != y.id
    ensures DistinctIds(ms + [x, y])
  {
  }

  /** The stored history followed by two fresh messages has distinct ids. */
  lemma ExtendedIsDistinct(s: Store, c: Uuid, x: Message, y: Message)
    requires StoreOk(s) && x.id != y.id && forall k | 0 <= k < |s.rows| :: s.rows[k].id != x.id && s.rows[k].id != y.id
    ensures DistinctIds(History(s, c) + [x, y])
  {
    var h := History(s, c);
    assert DistinctIds(h) by {
      forall i, k | 0 <= i < k < |h|
        ensures h[i].id != h[k].id
      {
        HistoryIsDistinct(s, c, i, k);
      }
    }
    forall i | 0 <= i < |h|
      ensures h[i].id != x.id && h[i].id != y.id
    {
      HistoryAvoids(s, c, i, x.id);
      HistoryAvoids(s, c, i, y.id);
    }
    PairKeepsDistinct(h, x, y);
  }

  lemma FinishKeepsState(window: int, s: State, t: nat, answer: string, q: Uuid, a: Uuid)
    requires StateOk(window, s) && Legal(s, Finish(t, answer, q, a))
    ensures StateOk(window, Moved(window, s, Finish(t, answer, q, a)))
  {
    var x := Moved(window, s, Finish(t, answer, q, a));
    var turn := s.open[t];
    assert TurnOk(window, s, t);
    CommitsIffCurrent(window, s, t, answer, q, a);
    var committed := Written(s.store, turn, answer, q, a).Some?;
    if committed { CommitAppends(window, s, t, answer, q, a); }
    forall u
      ensures TurnOk(window, x, u)
    {
      assert TurnOk(window, s, u);
    }
    forall c
      ensures SameAsTranscript(x, c)
    {
      assert SameAsTranscript(s, c);
      if committed { assert x.log[..|x.log| - 1] == s.log; }
    }
    forall i: nat
      ensures EntryOk(window, x.log, i)
    {
      assert EntryOk(window, s.log, i);
      if i < |s.log| {
        assert x.log[..i] == s.log[..i];
      } else if committed && i == |s.log| {
        assert x.log[..i] == s.log;
        assert SameAsTranscript(s, turn.conv.id);
      }
    }
    forall i: nat
      ensures EntryInTenant(x, i)
    {
      assert EntryInTenant(s, i);
    }
  }

  predicate AllLegal(window: int, s: State, moves: seq<Move>)
    decreases |moves|
  {
    moves != [] ==> Legal(s, moves[0]) && AllLegal(window, Moved(window, s, moves[0]), moves[1..])
  }

  function Played(window: int, s: State, moves: seq<Move>): State
    requires AllLegal(window, s, moves)
    decreases |moves|
  {
    if moves == [] then s else Played(window, Moved(window, s, moves[0]), moves[1..])
  }

  lemma {:induction false} RunsKeepState(window: int, s: State, moves: seq<Move>)
    requires StateOk(window, s) && AllLegal(window, s, moves)
    ensures StateOk(window, Played(window, s, moves))
    decreases |moves|
  {
    if moves == [] {
    } else {
      if moves[0].Finish? {
        FinishKeepsState(window, s, moves[0].turn, moves[0].answer, moves[0].questionId, moves[0].answerId);
      } else {
        OpeningKeepsState(window, s, moves[0]);
      }
      RunsKeepState(window, Moved(window, s, moves[0]), moves[1..]);
    }
  }

  const START := State(Store(map[], []), map[], [])

  lemma StartIsOk(window: int)
    ensures StateOk(window, START)
  {
    forall c
      ensures SameAsTranscript(START, c)
    {
    }
  }

  // ---- the theorems ------------------------------------------------------

  lemma {:induction false} TranscriptGrows(log: seq<Done>, i: nat, c: Uuid)
    requires i <= |log|
    ensures Transcript(log[..i], c) <= Transcript(log, c)
    decreases |log| - i
  {
    if i == |log| {
      assert log[..i] == log;
    } else {
      var n := |log| - 1;
      TranscriptGrowsOne(log, i, c);
      TranscriptGrows(log, i + 1, c);
    }
  }

  lemma TranscriptGrowsOne(log: seq<Done>, i: nat, c: Uuid)
    requires i < |log|
    ensures Transcript(log[..i + 1], c)
         == Transcript(log[..i], c) + if log[i].c == c then [log[i].question, log[i].answer] else []
  {
    assert log[..i + 1][..i] == log[..i];
  }

  /**
   * Linearizable: however turns interleave, every committed turn's pair stands in the final conversation directly after
   * exactly the history it had read, in a conversation of the tenant that asked, and it was prompted, line by line, with
   * the window over that history.
   */
  lemma TurnsAreLinearizable(window: int, moves: seq<Move>, i: nat)
    requires AllLegal(window, START, moves) && i < |Played(window, START, moves).log|
    ensures var x := Played(window, START, moves);
            var e := x.log[i];
            var n := |e.before|;
            var final := History(x.store, e.c);
            && n + 2 <= |final|
            && final[..n] == e.before && final[n] == e.question && final[n + 1] == e.answer
            && e.c == e.ask.c && e.c in x.store.tenants && x.store.tenants[e.c] == e.ask.tenantId
            && e.question.content == e.ask.question
            && PromptedWith(window, e.prompt, e.ask.system, final[..n], e.ask.question)
  {
    StartIsOk(window);
    RunsKeepState(window, START, moves);
    var x := Played(window, START, moves);
    var e := x.log[i];
    assert EntryOk(window, x.log, i) && EntryInTenant(x, i);
    assert SameAsTranscript(x, e.c);
    TranscriptGrowsOne(x.log, i, e.c);
    TranscriptGrows(x.log, i + 1, e.c);
  }

  /** A request for a conversation that is not the tenant's opens no turn and leaves everything as it was. */
  lemma ForeignIsRefused(window: int, s: State, t: nat, tenantId: string, c: Uuid, question: string, system: string)
    requires Legal(s, Continue(t, tenantId, c, question, system))
    ensures var x := Moved(window, s, Continue(t, tenantId, c, question, system));
            if c in s.store.tenants && s.store.tenants[c] == tenantId
            then t in x.open && x.open[t].conv == Conversation(c, tenantId, History(s.store, c)) && x.store == s.store
            else x == s
  {
  }

  /** A conversation with a committed turn is loaded by the tenant that asked it, with the whole transcript, and by no other. */
  lemma LoadedByOwnTenantOnly(window: int, moves: seq<Move>, i: nat, tenantId: string)
    requires AllLegal(window, START, moves) && i < |Played(window, START, moves).log|
    ensures var x := Played(window, START, moves);
            var e := x.log[i];
            Get(x.store, tenantId, e.c) ==
              if tenantId == e.ask.tenantId then Some(Conversation(e.c, tenantId, Transcript(x.log, e.c))) else None
  {
    StartIsOk(window);
    RunsKeepState(window, START, moves);
    var x := Played(window, START, moves);
    assert EntryInTenant(x, i) && SameAsTranscript(x, x.log[i].c);
  }

  function AskOf(m: Move): Option<Ask> {
    match m
    case Begin(_, tenantId, c, question, system) => Some(Ask(tenantId, c, question, system))
    case Continue(_, tenantId, c, question, system) => Some(Ask(tenantId, c, question, system))
    case _ => None
  }

  /** One of the moves asked this. */
  predicate Asked(moves: seq<Move>, ask: Ask) {
    exists m | m in moves :: AskOf(m) == Some(ask)
  }

  /** One of the moves brought this answer from the model. */
  predicate Answered(moves: seq<Move>, answer: Message) {
    exists m | m in moves :: m.Finish? && m.answer == answer.content && m.answerId == answer.id
  }

  /** Every turn, open or committed, was asked by a move of the run, and every answer given by one. */
  ghost predicate Requested(s: State, run: seq<Move>) {
    && (forall t | t in s.open :: Asked(run, s.open[t].ask))
    && forall i | 0 <= i < |s.log| :: Asked(run, s.log[i].ask) && Answered(run, s.log[i].answer)
  }

  lemma MoveKeepsRequested(window: int, s: State, run: seq<Move>, m: Move)
    requires Requested(s, run) && Legal(s, m) && m in run
    ensures Requested(Moved(window, s, m), run)
  {
    if m.Begin? || m.Continue? { assert AskOf(m).Some? && Asked(run, AskOf(m).value); }
  }

  lemma {:induction false} RunsKeepRequested(window: int, s: State, run: seq<Move>, moves: seq<Move>)
    requires Requested(s, run) && AllLegal(window, s, moves) && forall m | m in moves :: m in run
    ensures Requested(Played(window, s, moves), run)
    decreases |moves|
  {
    if moves == [] {
    } else {
      MoveKeepsRequested(window, s, run, moves[0]);
      RunsKeepRequested(window, Moved(window, s, moves[0]), run, moves[1..]);
    }
  }

  /** Over every run each committed turn was asked by one of its moves, and its answer is one a model gave. */
  lemma TurnsWereAsked(window: int, moves: seq<Move>, i: nat)
    requires AllLegal(window, START, moves) && i < |Played(window, START, moves).log|
    ensures Asked(moves, Played(window, START, moves).log[i].ask)
    ensures Answered(moves, Played(window, START, moves).log[i].answer)
  {
    RunsKeepRequested(window, START, moves, moves);
  }

  /** USER first, then ASSISTANT, in pairs. */
  predicate Alternates(ms: seq<Message>) {
    |ms| % 2 == 0 && forall k | 0 <= k < |ms| :: ms[k].role == if k % 2 == 0 then User else Assistant
  }

  lemma PairKeepsAlternating(ms: seq<Message>, x: Message, y: Message)
    requires Alternates(ms) && x.role == User && y.role == Assistant
    ensures Alternates(ms + [x, y])
  {
  }

  /** Histories are the committed pairs in commit order, so roles alternate USER, ASSISTANT. */
  lemma {:induction false} TranscriptAlternates(log: seq<Done>, c: Uuid)
    requires forall i | 0 <= i < |log| :: log[i].question.role == User && log[i].answer.role == Assistant
    ensures Alternates(Transcript(log, c))
    decreases |log|
  {
    if log == [] {
    } else {
      var n := |log| - 1;
      TranscriptAlternates(log[..n], c);
      PairKeepsAlternating(Transcript(log[..n], c), log[n].question, log[n].answer);
    }
  }

  lemma HistoriesAlternate(window: int, moves: seq<Move>, c: Uuid)
    requires AllLegal(window, START, moves)
    ensures Alternates(History(Played(window, START, moves).store, c))
  {
    StartIsOk(window);
    RunsKeepState(window, START, moves);
    var x := Played(window, START, moves);
    assert SameAsTranscript(x, c);
    forall i | 0 <= i < |x.log|
      ensures x.log[i].question.role == User && x.log[i].answer.role == Assistant
    {
      assert EntryOk(window, x.log, i);
    }
    TranscriptAlternates(x.log, c);
  }
}
