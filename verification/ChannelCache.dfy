/**
 * app/infrastructure/queue/rabbitmq_job_queue.py: the AMQP channel cache under any number of coroutines, interleaved at
 * every await. A robust connection may restore a channel that was closed; channel identities are never reused.
 */
module ChannelCache {
  import opened Prelude

  type Channel = nat

  /** Where one `enqueue` call stands. */
  datatype Place =
    | Entering
    | AwaitingLock
    | Connecting                // past the second check, awaiting connect_robust
    | Opening                   // awaiting connection.channel()
    | Holding(channel: Channel) // returned from _get_channel
    | Declaring(channel: Channel)
    | Ready(channel: Channel)   // returned from _ensure_queue
    | Finished
    | Raised

  datatype Call = Call(url: string, queue: string, place: Place)

  datatype Event = Declared(channel: Channel, queue: string) | Published(call: nat, channel: Channel, queue: string)

  /**
   * Module-level state, the coroutines, and three history variables: channels ever stored, channels ever
   * closed, and the event trace.
   */
  datatype State = State(
    cache: map<string, Channel>, declared: set<(Channel, string)>, lock: Option<nat>,
    calls: map<nat, Call>, next: Channel, closed: set<Channel>, everClosed: set<Channel>,
    stored: set<(string, Channel)>, trace: seq<Event>)

  const INITIAL := State(map[], {}, None, map[], 0, {}, {}, {}, [])

  datatype Move =
    | Enqueue(call: nat, url: string, queue: string)
    | FirstCheck(call: nat)
    | Acquire(call: nat)
    | Connected(call: nat)
    | Opened(call: nat)
    | ConnectFails(call: nat)
    | CheckQueue(call: nat)
    | DeclareDone(call: nat)
    | DeclareFails(call: nat)
    | Publish(call: nat)
    | Close(channel: Channel)
    | Reopen(channel: Channel)

  predicate At(s: State, t: nat, p: Place) {
    t in s.calls && s.calls[t].place == p
  }

  predicate Legal(s: State, m: Move) {
    match m
    case Enqueue(t, _, _) => t !in s.calls
    case FirstCheck(t) => At(s, t, Entering)
    case Acquire(t) => At(s, t, AwaitingLock) && s.lock.None?
    case Connected(t) => At(s, t, Connecting)
    case Opened(t) => At(s, t, Opening)
    case ConnectFails(t) => At(s, t, Connecting) || At(s, t, Opening)
    case CheckQueue(t) => t in s.calls && s.calls[t].place.Holding?
    case DeclareDone(t) => t in s.calls && s.calls[t].place.Declaring?
    case DeclareFails(t) => t in s.calls && s.calls[t].place.Declaring?
    case Publish(t) => t in s.calls && s.calls[t].place.Ready?
    case Close(c) => c < s.next
    case Reopen(c) => c in s.closed
  }

  /** The cached channel for the URL, if it is open. */
  predicate Usable(s: State, url: string) {
    url in s.cache && s.cache[url] !in s.closed
  }

  function Goes(s: State, t: nat, p: Place): State
    requires t in s.calls
  {
    s.(calls := s.calls[t := s.calls[t].(place := p)])
  }

  function Moved(s: State, m: Move): State
    requires Legal(s, m)
  {
    match m
    case Enqueue(t, url, queue) => s.(calls := s.calls[t := Call(url, queue, Entering)])
    case FirstCheck(t) =>
      if Usable(s, s.calls[t].url) then Goes(s, t, Holding(s.cache[s.calls[t].url])) else Goes(s, t, AwaitingLock)
    case Acquire(t) =>
      // The second check follows without an await; when it finds a channel the lock is released at once.
      if Usable(s, s.calls[t].url) then Goes(s, t, Holding(s.cache[s.calls[t].url]))
      else Goes(s, t, Connecting).(lock := Some(t))
    case Connected(t) => Goes(s, t, Opening)
    case Opened(t) =>
      var url := s.calls[t].url;
      Goes(s, t, Holding(s.next)).(cache := s.cache[url := s.next], stored := s.stored + {(url, s.next)},
                                   next := s.next + 1, lock := None)
    case ConnectFails(t) => Goes(s, t, Raised).(lock := None)
    case CheckQueue(t) =>
      var c := s.calls[t].place.channel;
      if (c, s.calls[t].queue) in s.declared then Goes(s, t, Ready(c)) else Goes(s, t, Declaring(c))
    case DeclareDone(t) =>
      var c := s.calls[t].place.channel;
      Goes(s, t, Ready(c)).(declared := s.declared + {(c, s.calls[t].queue)}, trace := s.trace + [Declared(c, s.calls[t].queue)])
    case DeclareFails(t) => Goes(s, t, Raised)
    case Publish(t) => Goes(s, t, Finished).(trace := s.trace + [Published(t, s.calls[t].place.channel, s.calls[t].queue)])
    case Close(c) => s.(closed := s.closed + {c}, everClosed := s.everClosed + {c})
    case Reopen(c) => s.(closed := s.closed - {c})
  }

  // ---- invariant ---------------------------------------------------------

  /** Between the second check and the store. */
  predicate InCriticalSection(s: State, t: nat) {
    At(s, t, Connecting) || At(s, t, Opening)
  }

  /** The cached channel for the URL, if any, has been closed at some time. */
  predicate WasClosed(s: State, url: string) {
    url in s.cache ==> s.cache[url] in s.everClosed
  }

  /** The holder of the lock is the one coroutine in the critical section, and it saw its URL's channel closed. */
  predicate CallOk(s: State, t: nat) {
    && (InCriticalSection(s, t) ==> s.lock == Some(t) && WasClosed(s, s.calls[t].url))
    && (s.lock == Some(t) ==> InCriticalSection(s, t))
    && (t in s.calls && s.calls[t].place.Ready? ==> (s.calls[t].place.channel, s.calls[t].queue) in s.declared)
    && (HasChannel(s, t) ==> (s.calls[t].url, s.calls[t].place.channel) in s.stored)
  }

  /** The call was given a channel and has not published on it yet. */
  predicate HasChannel(s: State, t: nat) {
    t in s.calls && (s.calls[t].place.Holding? || s.calls[t].place.Declaring? || s.calls[t].place.Ready?)
  }

  function PublishesOf(trace: seq<Event>, t: nat): seq<Event> {
    if trace == [] then []
    else
      var n := |trace| - 1;
      PublishesOf(trace[..n], t) + (if trace[n].Published? && trace[n].call == t then [trace[n]] else [])
  }

  /** A finished call has published once: for its own queue, on a channel stored for its own URL. Any other has not. */
  predicate PublishedOk(s: State, t: nat) {
    var es := PublishesOf(s.trace, t);
    if t in s.calls && s.calls[t].place.Finished? then
      |es| == 1 && es[0].Published? && es[0].call == t && es[0].queue == s.calls[t].queue
      && (s.calls[t].url, es[0].channel) in s.stored
    else es == []
  }

  /** A channel stored for a URL is the cached one or has been closed. */
  predicate StoredOk(s: State, url: string, c: Channel) {
    (url, c) in s.stored ==> c < s.next && url in s.cache && (s.cache[url] == c || c in s.everClosed)
  }

  predicate DeclaredBefore(trace: seq<Event>, n: nat, c: Channel, q: string) {
    exists i | 0 <= i < n && i < |trace| :: trace[i] == Declared(c, q)
  }

  /** Every publish comes after a completed declaration of its queue on its channel. */
  predicate TraceOk(trace: seq<Event>, k: nat) {
    k < |trace| && trace[k].Published? ==> DeclaredBefore(trace, k, trace[k].channel, trace[k].queue)
  }

  predicate RememberedOk(s: State, c: Channel, q: string) {
    (c, q) in s.declared ==> DeclaredBefore(s.trace, |s.trace|, c, q)
  }

  ghost predicate StateOk(s: State) {
    && (forall t {:trigger CallOk(s, t)} :: CallOk(s, t))
    && (forall url, c {:trigger StoredOk(s, url, c)} :: StoredOk(s, url, c))
    && (forall url | url in s.cache :: (url, s.cache[url]) in s.stored)
    && (forall t {:trigger PublishedOk(s, t)} :: PublishedOk(s, t))
    && s.closed <= s.everClosed
    && (forall k: nat {:trigger TraceOk(s.trace, k)} :: TraceOk(s.trace, k))
    && (forall c, q {:trigger RememberedOk(s, c, q)} :: RememberedOk(s, c, q))
  }

  lemma MoveKeepsCalls(s: State, m: Move, t: nat)
    requires StateOk(s) && Legal(s, m)
    ensures CallOk(Moved(s, m), t)
  {
    assert CallOk(s, t);
    if m.Opened? || m.ConnectFails? || m.Acquire? || m.Connected? {
      assert CallOk(s, m.call);
    }
  }

  lemma PublishesOneMore(trace: seq<Event>, e: Event, t: nat)
    ensures PublishesOf(trace + [e], t) == PublishesOf(trace, t) + if e.Published? && e.call == t then [e] else []
  {
    assert (trace + [e])[..|trace|] == trace;
  }

  lemma MoveKeepsCallArguments(s: State, m: Move, t: nat)
    requires Legal(s, m)
    ensures s.stored <= Moved(s, m).stored
    ensures t in s.calls ==>
              && t in Moved(s, m).calls && Moved(s, m).calls[t].url == s.calls[t].url
              && Moved(s, m).calls[t].queue == s.calls[t].queue
    ensures m != Publish(t) ==> (At(Moved(s, m), t, Finished) <==> At(s, t, Finished))
  {
  }

  lemma OtherMovesPublishNothing(s: State, m: Move, t: nat)
    requires Legal(s, m) && m != Publish(t)
    ensures PublishesOf(Moved(s, m).trace, t) == PublishesOf(s.trace, t)
  {
    if m.Publish? {
      PublishesOneMore(s.trace, Published(m.call, s.calls[m.call].place.channel, s.calls[m.call].queue), t);
    } else if m.DeclareDone? {
      PublishesOneMore(s.trace, Declared(s.calls[m.call].place.channel, s.calls[m.call].queue), t);
    }
  }

  lemma PublishKeepsPublished(s: State, t: nat)
    requires StateOk(s) && Legal(s, Publish(t))
    ensures PublishedOk(Moved(s, Publish(t)), t)
  {
    assert PublishedOk(s, t) && CallOk(s, t);
    PublishesOneMore(s.trace, Published(t, s.calls[t].place.channel, s.calls[t].queue), t);
  }

  lemma MoveKeepsPublished(s: State, m: Move, t: nat)
    requires StateOk(s) && Legal(s, m)
    ensures PublishedOk(Moved(s, m), t)
  {
    assert PublishedOk(s, t);
    if m == Publish(t) {
      PublishKeepsPublished(s, t);
    } else {
      MoveKeepsCallArguments(s, m, t);
      OtherMovesPublishNothing(s, m, t);
      SamePublishes(s, Moved(s, m), t);
    }
  }

  lemma SamePublishes(s: State, x: State, t: nat)
    requires PublishedOk(s, t) && PublishesOf(x.trace, t) == PublishesOf(s.trace, t) && s.stored <= x.stored
    requires At(x, t, Finished) <==> At(s, t, Finished)
    requires t in s.calls ==> t in x.calls && x.calls[t].url == s.calls[t].url && x.calls[t].queue == s.calls[t].queue
    ensures PublishedOk(x, t)
  {
  }

  lemma MoveKeepsStored(s: State, m: Move, url: string, c: Channel)
    requires StateOk(s) && Legal(s, m)
    ensures StoredOk(Moved(s, m), url, c)
  {
    assert StoredOk(s, url, c);
    if m.Opened? {
      assert CallOk(s, m.call);
    }
  }

  lemma MoveExtendsTrace(s: State, m: Move)
    requires Legal(s, m)
    ensures s.trace <= Moved(s, m).trace
  {
  }

  lemma DeclaredStays(a: seq<Event>, b: seq<Event>, n: nat, c: Channel, q: string)
    requires a <= b && DeclaredBefore(a, n, c, q)
    ensures DeclaredBefore(b, n, c, q)
  {
    var i :| 0 <= i < n && i < |a| && a[i] == Declared(c, q);
    assert b[i] == Declared(c, q);
  }

  lemma MoveKeepsTrace(s: State, m: Move, k: nat)
    requires StateOk(s) && Legal(s, m)
    ensures TraceOk(Moved(s, m).trace, k)
  {
    var x := Moved(s, m);
    assert TraceOk(s.trace, k);
    MoveExtendsTrace(s, m);
    if k < |s.trace| {
      assert x.trace[k] == s.trace[k];
      if s.trace[k].Published? { DeclaredStays(s.trace, x.trace, k, s.trace[k].channel, s.trace[k].queue); }
    } else if m.Publish? && k == |s.trace| {
      var c, q := s.calls[m.call].place.channel, s.calls[m.call].queue;
      assert CallOk(s, m.call);
      assert RememberedOk(s, c, q);
      DeclaredStays(s.trace, x.trace, k, c, q);
    }
  }

  lemma MoveKeepsRemembered(s: State, m: Move, c: Channel, q: string)
    requires StateOk(s) && Legal(s, m)
    ensures RememberedOk(Moved(s, m), c, q)
  {
    var x := Moved(s, m);
    assert RememberedOk(s, c, q);
    if (c, q) in s.declared {
      var i :| 0 <= i < |s.trace| && s.trace[i] == Declared(c, q);
      assert x.trace[i] == Declared(c, q);
    } else if (c, q) in x.declared {
      assert x.trace[|s.trace|] == Declared(c, q);
    }
  }

  lemma MoveKeepsState(s: State, m: Move)
    requires StateOk(s) && Legal(s, m)
    ensures StateOk(Moved(s, m))
  {
    var x := Moved(s, m);
    forall t ensures CallOk(x, t) { MoveKeepsCalls(s, m, t); }
    forall t ensures PublishedOk(x, t) { MoveKeepsPublished(s, m, t); }
    forall url, c ensures StoredOk(x, url, c) { MoveKeepsStored(s, m, url, c); }
    forall k: nat ensures TraceOk(x.trace, k) { MoveKeepsTrace(s, m, k); }
    forall c, q ensures RememberedOk(x, c, q) { MoveKeepsRemembered(s, m, c, q); }
  }

  predicate AllLegal(s: State, moves: seq<Move>)
    decreases |moves|
  {
    moves != [] ==> Legal(s, moves[0]) && AllLegal(Moved(s, moves[0]), moves[1..])
  }

  function Played(s: State, moves: seq<Move>): State
    requires AllLegal(s, moves)
    decreases |moves|
  {
    if moves == [] then s else Played(Moved(s, moves[0]), moves[1..])
  }

  lemma {:induction false} RunsKeepState(s: State, moves: seq<Move>)
    requires StateOk(s) && AllLegal(s, moves)
    ensures StateOk(Played(s, moves))
    decreases |moves|
  {
    if moves == [] {
    } else {
      MoveKeepsState(s, moves[0]);
      RunsKeepState(Moved(s, moves[0]), moves[1..]);
    }
  }

  // ---- the theorems ------------------------------------------------------

  /** At most one coroutine is between the second check and the store. */
  lemma MutualExclusion(moves: seq<Move>, t: nat, u: nat)
    requires AllLegal(INITIAL, moves)
    requires InCriticalSection(Played(INITIAL, moves), t) && InCriticalSection(Played(INITIAL, moves), u)
    ensures t == u
  {
    RunsKeepState(INITIAL, moves);
    assert CallOk(Played(INITIAL, moves), t) && CallOk(Played(INITIAL, moves), u);
  }

  function StoredFor(s: State, url: string): set<Channel> {
    set p | p in s.stored && p.0 == url :: p.1
  }

  lemma SubsetSize<T>(a: set<T>, b: set<T>)
    requires a <= b
    ensures |a| <= |b|
  {
    assert b == a + (b - a);
  }

  /** The channels ever stored for a URL number at most one more than those of them that ever closed. */
  lemma ChannelsAreReplacedOnlyWhenClosed(moves: seq<Move>, url: string)
    requires AllLegal(INITIAL, moves)
    ensures var s := Played(INITIAL, moves);
            |StoredFor(s, url)| <= 1 + |StoredFor(s, url) * s.everClosed|
  {
    RunsKeepState(INITIAL, moves);
    var s := Played(INITIAL, moves);
    var spent := StoredFor(s, url) * s.everClosed;
    var open := if url in s.cache then {s.cache[url]} else {};
    forall c | c in StoredFor(s, url)
      ensures c in spent + open
    {
      assert StoredOk(s, url, c);
    }
    SubsetSize(StoredFor(s, url), spent + open);
  }

  /** Every publish follows a completed declaration of its queue on its own channel. */
  lemma PublishFollowsDeclaration(moves: seq<Move>, k: nat)
    requires AllLegal(INITIAL, moves)
    requires k < |Played(INITIAL, moves).trace| && Played(INITIAL, moves).trace[k].Published?
    ensures var e := Played(INITIAL, moves).trace[k];
            exists i | 0 <= i < k :: Played(INITIAL, moves).trace[i] == Declared(e.channel, e.queue)
  {
    RunsKeepState(INITIAL, moves);
    assert TraceOk(Played(INITIAL, moves).trace, k);
  }

  /** A call that has a channel has one that was stored for its own URL. */
  lemma ChannelsMatchUrls(moves: seq<Move>, t: nat)
    requires AllLegal(INITIAL, moves) && HasChannel(Played(INITIAL, moves), t)
    ensures var s := Played(INITIAL, moves); (s.calls[t].url, s.calls[t].place.channel) in s.stored
  {
    RunsKeepState(INITIAL, moves);
    assert CallOk(Played(INITIAL, moves), t);
  }

  /**
   * Both checks, in every reachable state: the call leaves with a channel exactly when one is cached for its URL and open
   * at that moment, and then with that one, which was stored for this URL.
   */
  lemma ChecksGiveOpenChannels(moves: seq<Move>, m: Move)
    requires AllLegal(INITIAL, moves) && Legal(Played(INITIAL, moves), m) && (m.FirstCheck? || m.Acquire?)
    ensures var s := Played(INITIAL, moves);
            var x := Moved(s, m);
            var url := s.calls[m.call].url;
            && (HasChannel(x, m.call) <==> url in s.cache && s.cache[url] !in s.closed)
            && (HasChannel(x, m.call) ==>
                  x.calls[m.call].place == Holding(s.cache[url]) && (url, s.cache[url]) in s.stored && x.lock == s.lock)
            && (!HasChannel(x, m.call) ==>
                  if m.FirstCheck? then At(x, m.call, AwaitingLock) else At(x, m.call, Connecting) && x.lock == Some(m.call))
  {
    RunsKeepState(INITIAL, moves);
  }

  /** At the end of every schedule each finished call has published exactly once, as it asked; any other call has not. */
  lemma EachCallPublishesOnce(moves: seq<Move>, t: nat)
    requires AllLegal(INITIAL, moves)
    ensures var s := Played(INITIAL, moves);
            var es := PublishesOf(s.trace, t);
            if At(s, t, Finished) then
              && |es| == 1 && es[0] == Published(t, es[0].channel, s.calls[t].queue)
              && (s.calls[t].url, es[0].channel) in s.stored
              && Enqueue(t, s.calls[t].url, s.calls[t].queue) in moves
            else es == []
  {
    RunsKeepState(INITIAL, moves);
    assert PublishedOk(Played(INITIAL, moves), t);
    if t in Played(INITIAL, moves).calls { CallsWereAsked(INITIAL, moves, t); }
  }

  lemma {:induction false} CallsWereAsked(s: State, moves: seq<Move>, t: nat)
    requires AllLegal(s, moves) && t in Played(s, moves).calls
    ensures var call := Played(s, moves).calls[t];
            Enqueue(t, call.url, call.queue) in moves
            || (t in s.calls && s.calls[t].url == call.url && s.calls[t].queue == call.queue)
    decreases |moves|
  {
    if moves == [] {
    } else {
      CallsWereAsked(Moved(s, moves[0]), moves[1..], t);
    }
  }

  // ---- the module's state, updated in place ------------------------------

  /** Each method is the code one coroutine runs between two awaits. */
  class RabbitMQJobQueue {
    var channelCache: map<string, Channel>
    var declaredQueues: set<(Channel, string)>
    var channelLock: Option<nat>
    var calls: map<nat, Call>
    var next: Channel
    var closed: set<Channel>
    ghost var everClosed: set<Channel>
    ghost var stored: set<(string, Channel)>
    ghost var trace: seq<Event>

    ghost function Snapshot(): State
      reads this
    {
      State(channelCache, declaredQueues, channelLock, calls, next, closed, everClosed, stored, trace)
    }

    constructor ()
      ensures Snapshot() == INITIAL
    {
      channelCache, declaredQueues, channelLock, calls, next, closed := map[], {}, None, map[], 0, {};
      everClosed, stored, trace := {}, {}, [];
    }

    method Go(t: nat, p: Place)
      requires t in calls
      modifies this`calls
      ensures calls == old(calls)[t := old(calls)[t].(place := p)]
    {
      calls := calls[t := calls[t].(place := p)];
    }

    /** A coroutine enters `enqueue`. */
    method Enter(t: nat, url: string, queue: string)
      requires Legal(Snapshot(), Enqueue(t, url, queue))
      modifies this
      ensures Snapshot() == Moved(old(Snapshot()), Enqueue(t, url, queue))
    {
      calls := calls[t := Call(url, queue, Entering)];
    }

    /** `_get_channel` up to the lock: a cached open channel is returned without it. */
    method GetChannel(t: nat)
      requires Legal(Snapshot(), FirstCheck(t))
      modifies this
      ensures Snapshot() == Moved(old(Snapshot()), FirstCheck(t))
      ensures var url := old(calls)[t].url;
              At(Snapshot(), t, if url in channelCache && channelCache[url] !in closed then Holding(channelCache[url])
                                else AwaitingLock)
    {
      var url := calls[t].url;
      if url in channelCache {
        var channel := channelCache[url];
        if channel !in closed {
          Go(t, Holding(channel));
          return;
        }
      }
      Go(t, AwaitingLock);
    }

    /** Inside the lock, the check again, up to the connection. */
    method EnterLock(t: nat)
      requires Legal(Snapshot(), Acquire(t))
      modifies this
      ensures Snapshot() == Moved(old(Snapshot()), Acquire(t))
      ensures var url := old(calls)[t].url;
              At(Snapshot(), t, if url in channelCache && channelCache[url] !in closed then Holding(channelCache[url])
                                else Connecting)
    {
      channelLock := Some(t);
      var url := calls[t].url;
      if url in channelCache && channelCache[url] !in closed {
        channelLock := None;
        Go(t, Holding(channelCache[url]));
      } else {
        Go(t, Connecting);
      }
    }

    /** Connected, awaiting the channel. */
    method OpenChannel(t: nat)
      requires Legal(Snapshot(), Connected(t))
      modifies this
      ensures Snapshot() == Moved(old(Snapshot()), Connected(t))
    {
      Go(t, Opening);
    }

    /** An exception leaves the `async with`: the lock is released, nothing is cached. */
    method AbandonConnection(t: nat)
      requires Legal(Snapshot(), ConnectFails(t))
      modifies this
      ensures Snapshot() == Moved(old(Snapshot()), ConnectFails(t))
    {
      channelLock := None;
      Go(t, Raised);
    }

    /** The new channel is cached, the lock released. */
    method StoreChannel(t: nat)
      requires Legal(Snapshot(), Opened(t))
      modifies this
      ensures Snapshot() == Moved(old(Snapshot()), Opened(t))
    {
      var channel := next;
      next := next + 1;
      channelCache := channelCache[calls[t].url := channel];
      stored := stored + {(calls[t].url, channel)};
      channelLock := None;
      Go(t, Holding(channel));
    }

    /** `_ensure_queue` up to the declaration. */
    method EnsureQueue(t: nat)
      requires Legal(Snapshot(), CheckQueue(t))
      modifies this
      ensures Snapshot() == Moved(old(Snapshot()), CheckQueue(t))
      ensures var channel := old(calls)[t].place.channel;
              At(Snapshot(), t, if (channel, calls[t].queue) in declaredQueues then Ready(channel) else Declaring(channel))
    {
      var channel := calls[t].place.channel;
      if (channel, calls[t].queue) in declaredQueues {
        Go(t, Ready(channel));
      } else {
        Go(t, Declaring(channel));
      }
    }

    /** The declaration came back. */
    method QueueDeclared(t: nat)
      requires Legal(Snapshot(), DeclareDone(t))
      modifies this
      ensures Snapshot() == Moved(old(Snapshot()), DeclareDone(t))
    {
      var channel := calls[t].place.channel;
      declaredQueues := declaredQueues + {(channel, calls[t].queue)};
      trace := trace + [Declared(channel, calls[t].queue)];
      Go(t, Ready(channel));
    }

    /** The declaration failed: nothing is remembered. */
    method AbandonDeclaration(t: nat)
      requires Legal(Snapshot(), DeclareFails(t))
      modifies this
      ensures Snapshot() == Moved(old(Snapshot()), DeclareFails(t))
    {
      Go(t, Raised);
    }

    /** The message is published on the channel that was made ready. */
    method PublishMessage(t: nat)
      requires Legal(Snapshot(), Publish(t))
      modifies this
      ensures Snapshot() == Moved(old(Snapshot()), Publish(t))
    {
      trace := trace + [Published(t, calls[t].place.channel, calls[t].queue)];
      Go(t, Finished);
    }

    /** The broker or the network closes a channel. */
    method ChannelClosed(channel: Channel)
      requires Legal(Snapshot(), Close(channel))
      modifies this
      ensures Snapshot() == Moved(old(Snapshot()), Close(channel))
    {
      closed := closed + {channel};
      everClosed := everClosed + {channel};
    }

    /** A robust connection restores a closed channel. */
    method ChannelRestored(channel: Channel)
      requires Legal(Snapshot(), Reopen(channel))
      modifies this
      ensures Snapshot() == Moved(old(Snapshot()), Reopen(channel))
    {
      closed := closed - {channel};
    }

    /** One scheduled segment. */
    method Step(m: Move)
      requires Legal(Snapshot(), m)
      modifies this
      ensures Snapshot() == Moved(old(Snapshot()), m)
    {
      match m
      case Enqueue(t, url, queue) => Enter(t, url, queue);
      case FirstCheck(t) => GetChannel(t);
      case Acquire(t) => EnterLock(t);
      case Connected(t) => OpenChannel(t);
      case Opened(t) => StoreChannel(t);
      case ConnectFails(t) => AbandonConnection(t);
      case CheckQueue(t) => EnsureQueue(t);
      case DeclareDone(t) => QueueDeclared(t);
      case DeclareFails(t) => AbandonDeclaration(t);
      case Publish(t) => PublishMessage(t);
      case Close(c) => ChannelClosed(c);
      case Reopen(c) => ChannelRestored(c);
    }

    /** The event loop: any legal schedule of segments, from a fresh process. */
    method RunSchedule(moves: seq<Move>)
      requires Snapshot() == INITIAL && AllLegal(INITIAL, moves)
      modifies this
      ensures Snapshot() == Played(INITIAL, moves)
      ensures forall t, u | InCriticalSection(Snapshot(), t) && InCriticalSection(Snapshot(), u) :: t == u
      ensures forall url :: |StoredFor(Snapshot(), url)| <= 1 + |StoredFor(Snapshot(), url) * everClosed|
      ensures forall k: nat {:trigger TraceOk(trace, k)} :: TraceOk(trace, k)
      ensures forall t | HasChannel(Snapshot(), t) :: (calls[t].url, calls[t].place.channel) in stored
      ensures forall t {:trigger PublishedOk(Snapshot(), t)} :: PublishedOk(Snapshot(), t)
    {
      var k := 0;
      while k < |moves|
        invariant k <= |moves| && AllLegal(Snapshot(), moves[k..])
        invariant Played(Snapshot(), moves[k..]) == Played(INITIAL, moves)
      {
        assert moves[k..][0] == moves[k] && moves[k..][1..] == moves[k + 1..];
        Step(moves[k]);
        k := k + 1;
      }
      assert moves[k..] == [];
      ScheduleIsSafe(moves);
    }
  }

  /** The properties together, for the state at the end of a schedule. */
  lemma ScheduleIsSafe(moves: seq<Move>)
    requires AllLegal(INITIAL, moves)
    ensures var s := Played(INITIAL, moves);
            && (forall t, u | InCriticalSection(s, t) && InCriticalSection(s, u) :: t == u)
            && (forall url :: |StoredFor(s, url)| <= 1 + |StoredFor(s, url) * s.everClosed|)
            && (forall k: nat {:trigger TraceOk(s.trace, k)} :: TraceOk(s.trace, k))
            && (forall t | HasChannel(s, t) :: (s.calls[t].url, s.calls[t].place.channel) in s.stored)
            && forall t {:trigger PublishedOk(s, t)} :: PublishedOk(s, t)
  {
    var s := Played(INITIAL, moves);
    RunsKeepState(INITIAL, moves);
    forall t, u | InCriticalSection(s, t) && InCriticalSection(s, u)
      ensures t == u
    {
      MutualExclusion(moves, t, u);
    }
    forall t | HasChannel(s, t)
      ensures (s.calls[t].url, s.calls[t].place.channel) in s.stored
    {
      ChannelsMatchUrls(moves, t);
    }
    forall url
      ensures |StoredFor(s, url)| <= 1 + |StoredFor(s, url) * s.everClosed|
    {
      ChannelsAreReplacedOnlyWhenClosed(moves, url);
    }
  }
}
