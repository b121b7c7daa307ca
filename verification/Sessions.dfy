/**
 * The unit of work and the systems outside it as the use cases hold them: objects updated in place. A call to the
 * outside may not be reached because the process is interrupted first; `fuse` counts the calls still reached.
 */
module Sessions {
  import opened Prelude
  import opened Store

  /** How a call into a use case ends: it returns, raises, or never gets further. */
  datatype Outcome<+T> = Returned(value: T) | Raised(problem: Problem) | Interrupted

  // ---- effects and the fuse ----------------------------------------------

  predicate Blown(fuse: Option<nat>, n: nat) {
    fuse.Some? && fuse.value < n
  }

  function Spent(fuse: Option<nat>, n: nat): Option<nat> {
    if fuse.Some? && fuse.value >= n then Some(fuse.value - n) else fuse
  }

  /** All of `es` happened, in order. */
  predicate Did(o: Outside, fuse: Option<nat>, es: seq<Effect>, after: Outside, left: Option<nat>) {
    !Blown(fuse, |es|) && after == PerformAll(o, es) && left == Spent(fuse, |es|)
  }

  /** The fuse blew within `es`, and what precedes it happened. */
  predicate CutIn(o: Outside, fuse: Option<nat>, es: seq<Effect>, after: Outside) {
    Blown(fuse, |es|) && after == PerformAll(o, es[..fuse.value])
  }

  /** What a use case leaves behind, for the transaction it stands for. */
  predicate Ends<T>(tx: Tx, o: Outside, fuse: Option<nat>, after: Outside, left: Option<nat>, rows: Tables, r: Outcome<T>) {
    match r
    case Returned(_) => tx.problem.None? && rows == tx.db && Did(o, fuse, tx.effects, after, left)
    case Raised(problem) => tx.problem == Some(problem) && Did(o, fuse, tx.effects, after, left)
    case Interrupted => CutIn(o, fuse, tx.effects, after)
  }

  lemma DidOne(o: Outside, fuse: Option<nat>, e: Effect)
    ensures PerformAll(o, [e]) == Perform(o, e)
    ensures fuse == Some(0) ==> CutIn(o, fuse, [e], o)
  {
    PerformSingle(o, e);
    if fuse == Some(0) { assert [e][..0] == []; }
  }

  lemma DidBoth(o: Outside, fuse: Option<nat>, es: seq<Effect>, mid: Outside, left: Option<nat>, fs: seq<Effect>,
                after: Outside, last: Option<nat>)
    requires Did(o, fuse, es, mid, left) && Did(mid, left, fs, after, last)
    ensures Did(o, fuse, es + fs, after, last)
  {
    PerformInTwoParts(o, es, fs);
  }

  lemma CutLater(o: Outside, fuse: Option<nat>, es: seq<Effect>, mid: Outside, left: Option<nat>, fs: seq<Effect>,
                 after: Outside)
    requires Did(o, fuse, es, mid, left) && CutIn(mid, left, fs, after)
    ensures CutIn(o, fuse, es + fs, after)
  {
    PerformInTwoParts(o, es, fs[..left.value]);
    assert (es + fs)[..fuse.value] == es + fs[..left.value];
  }

  lemma CutEarlier(o: Outside, fuse: Option<nat>, es: seq<Effect>, fs: seq<Effect>, after: Outside)
    requires CutIn(o, fuse, es, after)
    ensures CutIn(o, fuse, es + fs, after)
  {
    assert (es + fs)[..fuse.value] == es[..fuse.value];
  }

  // ---- objects -----------------------------------------------------------

  /** Event publisher, job queue, vector index and storage. */
  class Externals {
    var state: Outside
    var fuse: Option<nat>

    constructor (o: Outside, fuse: Option<nat>)
      ensures state == o && this.fuse == fuse
    {
      state, this.fuse := o, fuse;
    }

    method Reach() returns (ok: bool)
      modifies this`fuse
      ensures ok == (old(fuse) != Some(0)) && fuse == if ok then Spent(old(fuse), 1) else old(fuse)
    {
      ok := fuse != Some(0);
      if ok && fuse.Some? { fuse := Some(fuse.value - 1); }
    }

    method PublishEvent(e: Event) returns (ok: bool)
      modifies this
      ensures if ok then Did(old(state), old(fuse), [Publish(e)], state, fuse)
              else CutIn(old(state), old(fuse), [Publish(e)], state)
    {
      DidOne(state, fuse, Publish(e));
      ok := Reach();
      if ok { state := state.(events := state.events + [e]); }
    }

    method EnqueueJob(tenantId: string, jobId: Uuid) returns (ok: bool)
      modifies this
      ensures if ok then Did(old(state), old(fuse), [Enqueue(Message(tenantId, jobId))], state, fuse)
              else CutIn(old(state), old(fuse), [Enqueue(Message(tenantId, jobId))], state)
    {
      DidOne(state, fuse, Enqueue(Message(tenantId, jobId)));
      ok := Reach();
      if ok { state := state.(messages := state.messages + multiset{Message(tenantId, jobId)}); }
    }

    method UpsertPoints(call: UpsertCall) returns (ok: bool)
      modifies this
      ensures if ok then Did(old(state), old(fuse), [Upsert(call)], state, fuse)
              else CutIn(old(state), old(fuse), [Upsert(call)], state)
    {
      DidOne(state, fuse, Upsert(call));
      ok := Reach();
      if ok { state := state.(index := Upserted(state.index, call.points), upserts := state.upserts + [call]); }
    }

    method SaveObject(key: string, content: Bytes) returns (ok: bool)
      modifies this
      ensures if ok then Did(old(state), old(fuse), [Save(key, content)], state, fuse)
              else CutIn(old(state), old(fuse), [Save(key, content)], state)
    {
      DidOne(state, fuse, Save(key, content));
      ok := Reach();
      if ok { state := state.(blobs := state.blobs[key := content]); }
    }
  }

  /** The rows as one transaction sees them. */
  class Session {
    var rows: Tables

    constructor (rows: Tables)
      ensures this.rows == rows
    {
      this.rows := rows;
    }
  }

  /** `Database`: the committed rows, and the context manager around a session. */
  class Database {
    var committed: Tables

    constructor ()
      ensures committed == NO_ROWS
    {
      committed := NO_ROWS;
    }

    method Open() returns (s: Session)
      ensures fresh(s) && s.rows == committed
    {
      s := new Session(committed);
    }

    /** Leaving the context: commit on success, rollback on any exception; the commit is one more call to reach. */
    method Leave(s: Session, outside: Externals, raised: bool) returns (done: bool)
      modifies this, s, outside`fuse
      ensures done == (!raised && old(outside.fuse) != Some(0))
      ensures committed == s.rows == if done then old(s.rows) else old(committed)
      ensures outside.fuse == if done then Spent(old(outside.fuse), 1) else old(outside.fuse)
    {
      done := false;
      if !raised { done := outside.Reach(); }
      if done { committed := s.rows; } else { s.rows := committed; }
    }
  }

  /** Running a use case in a session and leaving it is exactly `Finish` of its transaction. */
  lemma SessionFinishes<T>(w: World, tx: Tx, fuse: Option<nat>, after: Outside, left: Option<nat>, rows: Tables,
                           r: Outcome<T>, drawn: set<Uuid>)
    requires Ends(tx, w.out, fuse, after, left, rows, r)
    ensures var done := r.Returned? && left != Some(0);
            && Finish(w, tx, fuse, drawn) == World(if done then rows else w.db, after, w.issued + drawn)
            && (done <==> tx.problem.None? && Survives(fuse, |tx.effects|))
  {
    if !r.Interrupted? { assert tx.effects[..|tx.effects|] == tx.effects; }
  }
}
