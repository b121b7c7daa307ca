/**
 * One document, and requests and attempts that read it, decide, and commit later. The worker is a process of its own, so a
 * deletion may commit while an attempt is under way. A commit writes the columns its transaction changed and no others;
 * writes to one row follow each other in commit order.
 */
module DeleteRaces {
  import opened Prelude
  import opened Store
  import opened UseCases

  /** A transaction between its read and its commit, with the document it read. */
  datatype Reader =
    | Attempt(read: Document)
    | Deletion(read: Document, at: Instant)
    | Update(read: Document, changes: Changes)

  /** What a commit wrote to the status column. */
  datatype Written = WroteProcessed | WroteDeleted

  datatype State = State(row: Document, open: map<nat, Reader>, log: seq<Written>)

  datatype Move =
    | BeginAttempt(t: nat)
    | BeginDeletion(t: nat, at: Instant)
    | BeginUpdate(t: nat, changes: Changes)
    | Commit(t: nat)
    | Abandon(t: nat)

  /** Every one of them finds the document only while it is not deleted. */
  predicate Legal(s: State, m: Move) {
    if m.Commit? || m.Abandon? then m.t in s.open else m.t !in s.open && s.row.deletedAt.None?
  }

  /** The row with the columns in which `to` differs from `from` overwritten. */
  function Overwritten(row: Document, from: Document, to: Document): Document {
    row.(title := if to.title != from.title then to.title else row.title,
         knowledgeSpaceId := if to.knowledgeSpaceId != from.knowledgeSpaceId then to.knowledgeSpaceId else row.knowledgeSpaceId,
         status := if to.status != from.status then to.status else row.status,
         metadata := if to.metadata != from.metadata then to.metadata else row.metadata,
         currentVersionId := if to.currentVersionId != from.currentVersionId then to.currentVersionId
                             else row.currentVersionId,
         deletedAt := if to.deletedAt != from.deletedAt then to.deletedAt else row.deletedAt)
  }

  /** The document as its transaction hands it to `update`. */
  function Edited(r: Reader): Document {
    match r
    case Attempt(read) => read.(status := Processed)
    case Deletion(read, at) => read.(status := Deleted, deletedAt := Some(at))
    case Update(read, changes) => Changed(read, changes)
  }

  function StatusWrites(r: Reader): seq<Written> {
    if Edited(r).status == r.read.status then []
    else if r.Attempt? then [WroteProcessed] else [WroteDeleted]
  }

  function Moved(s: State, m: Move): State
    requires Legal(s, m)
  {
    match m
    case BeginAttempt(t) => s.(open := s.open[t := Attempt(s.row)])
    case BeginDeletion(t, at) => s.(open := s.open[t := Deletion(s.row, at)])
    case BeginUpdate(t, changes) => s.(open := s.open[t := Update(s.row, changes)])
    case Commit(t) =>
      var r := s.open[t];
      State(Overwritten(s.row, r.read, Edited(r)), s.open - {t}, s.log + StatusWrites(r))
    case Abandon(t) => s.(open := s.open - {t})
  }

  predicate AllLegal(s: State, moves: seq<Move>)
    decreases |moves|
  {
    moves != [] ==> Legal(s, moves[0]) && AllLegal(Moved(s, moves[0]), moves[1..])
  }

  function Played(s: State, moves: seq<Move>): State
    requires AllLegal(s, moves)
    decreases |moves|
  {
    if moves == [] then s else Played(Moved(s, moves[0]), moves[1..])
  }

  /** With nothing in between, a commit is the repository's `update` of the row. */
  lemma AloneIsUpdate(db: Tables, r: Reader)
    requires r.read.id in db.docs && db.docs[r.read.id] == r.read
    ensures SaveDocument(db, Edited(r)).docs[r.read.id] == Overwritten(r.read, r.read, Edited(r))
  {
  }

  // ---- every schedule ----------------------------------------------------

  function LastWrite(log: seq<Written>): Option<Written> {
    if log == [] then None else Some(log[|log| - 1])
  }

  /** Deletion time and status follow the log, and every transaction in flight read a document that was not deleted. */
  predicate Follows(s: State) {
    && (s.row.deletedAt.Some? <==> WroteDeleted in s.log)
    && (s.row.status == Deleted <==> LastWrite(s.log) == Some(WroteDeleted))
    && forall t | t in s.open :: s.open[t].read.deletedAt.None? && s.open[t].read.status != Deleted
  }

  lemma MoveFollows(s: State, m: Move)
    requires Legal(s, m) && Follows(s)
    ensures Follows(Moved(s, m))
  {
    if m.Commit? {
      var r := s.open[m.t];
      var x := Moved(s, m);
      assert StatusWrites(r) == [] || x.log[|x.log| - 1] == StatusWrites(r)[0];
      assert x.log[..|s.log|] == s.log;
    }
  }

  lemma {:induction false} RunsFollow(s: State, moves: seq<Move>)
    requires AllLegal(s, moves) && Follows(s)
    ensures Follows(Played(s, moves))
    decreases |moves|
  {
    if moves == [] {
    } else {
      MoveFollows(s, moves[0]);
      RunsFollow(Moved(s, moves[0]), moves[1..]);
    }
  }

  lemma LastIsThere(log: seq<Written>)
    ensures LastWrite(log) == Some(WroteDeleted) ==> WroteDeleted in log
    ensures LastWrite(log) == Some(WroteProcessed) || LastWrite(log) == Some(WroteDeleted) || log == []
  {
    if log == [] {
    } else {
      assert log[|log| - 1] in log;
      match log[|log| - 1] {
        case WroteProcessed =>
        case WroteDeleted =>
      }
    }
  }

  function Start(row: Document): State {
    State(row, map[], [])
  }

  /**
   * Over every schedule: the document ends DELETED exactly with a deletion time unless some deletion committed and the last
   * commit to write the status was an attempt's.
   */
  lemma DeletedStatusIff(row: Document, moves: seq<Move>)
    requires row.deletedAt.None? && row.status != Deleted && AllLegal(Start(row), moves)
    ensures var x := Played(Start(row), moves);
            && (x.row.deletedAt.Some? <==> WroteDeleted in x.log)
            && ((x.row.status == Deleted <==> x.row.deletedAt.Some?) <==>
                  !(WroteDeleted in x.log && LastWrite(x.log) == Some(WroteProcessed)))
  {
    RunsFollow(Start(row), moves);
    LastIsThere(Played(Start(row), moves).log);
  }

  // ---- an attempt against a deletion -------------------------------------

  /** An attempt writes over a deletion only if it read the document before, and read it not PROCESSED yet. */
  lemma OverwritesOnlyStale(row: Document, moves: seq<Move>, t: nat)
    requires row.deletedAt.None? && row.status != Deleted && AllLegal(Start(row), moves)
    requires var x := Played(Start(row), moves);
             t in x.open && x.open[t].Attempt? && x.row.deletedAt.Some? && Moved(x, Commit(t)).row != x.row
    ensures var x := Played(Start(row), moves);
            x.open[t].read.deletedAt.None? && x.open[t].read.status != Processed
  {
    RunsFollow(Start(row), moves);
  }

  /** The four orders in which an attempt and a deletion of one document can both read and both commit. */
  function Order(at: Instant, deletionReadsFirst: bool, deletionCommitsFirst: bool): seq<Move> {
    (if deletionReadsFirst then [BeginDeletion(1, at), BeginAttempt(0)] else [BeginAttempt(0), BeginDeletion(1, at)])
    + (if deletionCommitsFirst then [Commit(1), Commit(0)] else [Commit(0), Commit(1)])
  }

  /** Of overlapping orders, the document stays DELETED exactly when the attempt commits first or had nothing to write. */
  lemma OverlapKeepsDeletionIff(row: Document, at: Instant, deletionReadsFirst: bool, deletionCommitsFirst: bool)
    requires row.deletedAt.None? && row.status != Deleted
    ensures var moves := Order(at, deletionReadsFirst, deletionCommitsFirst);
            && AllLegal(Start(row), moves)
            && Played(Start(row), moves).row.deletedAt == Some(at)
            && (Played(Start(row), moves).row.status == Deleted <==> !deletionCommitsFirst || row.status == Processed)
  {
    var moves := Order(at, deletionReadsFirst, deletionCommitsFirst);
    var s0 := Start(row);
    var s1 := Moved(s0, moves[0]);
    var s2 := Moved(s1, moves[1]);
    var s3 := Moved(s2, moves[2]);
    var s4 := Moved(s3, moves[3]);
    assert moves[1..][0] == moves[1] && moves[1..][1..] == moves[2..];
    assert moves[2..][0] == moves[2] && moves[2..][1..] == moves[3..];
    assert moves[3..][0] == moves[3] && moves[3..][1..] == [];
    assert AllLegal(s4, []) && Played(s4, []) == s4;
    assert AllLegal(s3, moves[3..]) && Played(s3, moves[3..]) == s4;
    assert AllLegal(s2, moves[2..]) && Played(s2, moves[2..]) == s4;
    assert AllLegal(s1, moves[1..]) && Played(s1, moves[1..]) == s4;
  }
}
