/** Concurrent add-version requests: each reads the highest number and inserts later; the unique index arbitrates. */
module VersionRaces {
  import opened Prelude
  import opened Store
  import opened UseCases
  import opened Invariants
  import opened RowsKept
  import opened Protocol
  import R = Reachability

  /** A request between `list_versions` and its insert: the row it is going to write, and the versions it had listed. */
  datatype Draft = Draft(version: Version, listed: set<Uuid>)

  datatype Race = Race(db: Tables, open: map<nat, Draft>)

  datatype Move =
    | Read(request: nat, version: Version)
    | Insert(request: nat)
    | Register(document: Document, version: Version)
    | Rewrite(document: Document)

  /** Version ids are drawn once; a draft's number is the one the request computed when it read. */
  predicate Legal(r: Race, m: Move) {
    match m
    case Read(t, v) =>
      && t !in r.open && v.documentId in r.db.docs && v.number == NextNumber(r.db, v.documentId)
      && v.id !in r.db.versions && forall u | u in r.open :: r.open[u].version.id != v.id
    case Insert(t) => t in r.open
    case Register(d, v) =>
      && d.id !in r.db.docs && v.documentId == d.id && v.number == 1 && d.currentVersionId == Some(v.id)
      && v.id !in r.db.versions && forall u | u in r.open :: r.open[u].version.id != v.id
    case Rewrite(d) => d.id in r.db.docs && d.currentVersionId == r.db.docs[d.id].currentVersionId
  }

  /** The insert writes the new row and the pointer; a duplicate number aborts the request. */
  function Inserted(db: Tables, v: Version): Tables {
    if v.documentId in db.docs && VersionFits(db, v)
    then SaveVersion(db, db.docs[v.documentId].(currentVersionId := Some(v.id)), v)
    else db
  }

  function Moved(r: Race, m: Move): Race
    requires Legal(r, m)
  {
    match m
    case Read(t, v) => r.(open := r.open[t := Draft(v, VersionsOf(r.db, v.documentId))])
    case Insert(t) => Race(Inserted(r.db, r.open[t].version), map u | u in r.open && u != t :: r.open[u])
    case Register(d, v) => r.(db := r.db.(docs := r.db.docs[d.id := d], versions := r.db.versions[v.id := v]))
    case Rewrite(d) => r.(db := r.db.(docs := r.db.docs[d.id := d]))
  }

  function TopNumber(db: Tables, d: Uuid): int
    requires d in db.docs && Heads(db.versions, d, db.docs[d].currentVersionId)
  {
    db.versions[db.docs[d].currentVersionId.value].number
  }

  /** The versions the request listed are those below its own number. */
  ghost predicate ListedBelow(versions: map<Uuid, Version>, draft: Draft) {
    forall u :: u in draft.listed <==>
      IsVersionOf(versions, draft.version.documentId, u) && versions[u].number < draft.version.number
  }

  /** A draft's number was next when it was read, so it is at most one above today's highest. */
  ghost predicate DraftOk(r: Race, t: nat) {
    t in r.open ==>
      var v := r.open[t].version;
      && v.id !in r.db.versions && v.documentId in r.db.docs
      && Heads(r.db.versions, v.documentId, r.db.docs[v.documentId].currentVersionId)
      && 1 <= v.number <= TopNumber(r.db, v.documentId) + 1
      && ListedBelow(r.db.versions, r.open[t])
  }

  ghost predicate RaceOk(r: Race) {
    && DocKeys(r.db.docs) && VersionRefs(r.db.docs, r.db.versions) && Histories(r.db.docs, r.db.versions)
    && (forall t, u | t in r.open && u in r.open && r.open[t].version.id == r.open[u].version.id :: t == u)
    && forall t {:trigger DraftOk(r, t)} :: DraftOk(r, t)
  }

  /** The unique index lets an insert through exactly when its number is the next one. */
  lemma InsertFitsIffNext(r: Race, t: nat)
    requires RaceOk(r) && t in r.open
    ensures var v := r.open[t].version;
            v.documentId in r.db.docs && Heads(r.db.versions, v.documentId, r.db.docs[v.documentId].currentVersionId)
            && (VersionFits(r.db, v) <==> v.number == TopNumber(r.db, v.documentId) + 1)
  {
    var v := r.open[t].version;
    assert DraftOk(r, t);
    assert HistoryOf(r.db.docs, r.db.versions, v.documentId);
    NextNumberFollows(r.db, v.documentId, r.db.docs[v.documentId].currentVersionId);
    if v.number <= TopNumber(r.db, v.documentId) {
      assert HasNumber(r.db.versions, v.documentId, v.number);
    }
  }

  /** An insert commits exactly when the document's versions are still those its request listed. */
  lemma InsertCommitsIffCurrent(r: Race, t: nat)
    requires RaceOk(r) && t in r.open
    ensures var draft := r.open[t];
            VersionFits(r.db, draft.version) <==> VersionsOf(r.db, draft.version.documentId) == draft.listed
  {
    var draft := r.open[t];
    var d := draft.version.documentId;
    InsertFitsIffNext(r, t);
    assert DraftOk(r, t);
    assert HistoryOf(r.db.docs, r.db.versions, d);
    var top := r.db.docs[d].currentVersionId.value;
    assert IsVersionOf(r.db.versions, d, top) && top in VersionsOf(r.db, d);
    if draft.version.number == TopNumber(r.db, d) + 1 {
      forall u
        ensures u in VersionsOf(r.db, d) <==> u in draft.listed
      {
        if u in VersionsOf(r.db, d) { assert IsVersionOf(r.db.versions, d, u); }
      }
    } else {
      assert top !in draft.listed;
    }
  }

  lemma InsertKeepsHistories(r: Race, t: nat)
    requires RaceOk(r) && t in r.open
    ensures Histories(Moved(r, Insert(t)).db.docs, Moved(r, Insert(t)).db.versions)
  {
    var v := r.open[t].version;
    InsertFitsIffNext(r, t);
    if VersionFits(r.db, v) {
      var d := r.db.docs[v.documentId].(currentVersionId := Some(v.id));
      assert HistoryOf(r.db.docs, r.db.versions, d.id);
      NextNumberFollows(r.db, d.id, r.db.docs[d.id].currentVersionId);
      SaveVersionIs(r.db, d, v);
      SaveVersionKeepsHistories(r.db, d, v);
    }
  }

  /** What a draft relies on: its id stays free and its document's top number never goes down. */
  lemma DraftStays(r: Race, x: Race, t: nat)
    requires DraftOk(r, t) && (t in x.open ==> t in r.open && x.open[t] == r.open[t])
    requires t in x.open ==>
               var v := x.open[t].version;
               && v.id !in x.db.versions && v.documentId in x.db.docs
               && Heads(x.db.versions, v.documentId, x.db.docs[v.documentId].currentVersionId)
               && (Heads(r.db.versions, v.documentId, r.db.docs[v.documentId].currentVersionId) ==>
                     TopNumber(x.db, v.documentId) >= TopNumber(r.db, v.documentId))
               && ListedBelow(x.db.versions, x.open[t])
    ensures DraftOk(x, t)
  {
  }

  /** A new version that is not below the draft's number does not enter its listing. */
  lemma ListedStays(versions: map<Uuid, Version>, v: Version, draft: Draft)
    requires ListedBelow(versions, draft) && v.id !in versions
    requires v.documentId == draft.version.documentId ==> v.number >= draft.version.number
    ensures ListedBelow(versions[v.id := v], draft)
  {
    var after := versions[v.id := v];
    forall u
      ensures u in draft.listed <==>
                IsVersionOf(after, draft.version.documentId, u) && after[u].number < draft.version.number
    {
      assert u in draft.listed ==> IsVersionOf(versions, draft.version.documentId, u);
    }
  }

  lemma InsertedRows(db: Tables, v: Version)
    requires DocKeys(db.docs) && v.documentId in db.docs && VersionFits(db, v)
    ensures Inserted(db, v) == db.(docs := db.docs[v.documentId := db.docs[v.documentId].(currentVersionId := Some(v.id))],
                                   versions := db.versions[v.id := v])
  {
    SaveVersionIs(db, db.docs[v.documentId].(currentVersionId := Some(v.id)), v);
  }

  /** A committed insert leaves other drafts what they relied on: its number is not below any of theirs. */
  lemma InsertKeepsDraft(r: Race, t: nat, u: nat, x: Race)
    requires RaceOk(r) && t in r.open && u in r.open && u != t && x == Moved(r, Insert(t))
    requires VersionFits(r.db, r.open[t].version)
    ensures DraftOk(x, u)
  {
    assert DraftOk(r, t) && DraftOk(r, u);
    InsertFitsIffNext(r, t);
    InsertedRows(r.db, r.open[t].version);
    ListedStays(r.db.versions, r.open[t].version, r.open[u]);
    DraftStays(r, x, u);
  }

  lemma InsertKeepsDrafts(r: Race, t: nat, u: nat)
    requires RaceOk(r) && t in r.open
    ensures DraftOk(Moved(r, Insert(t)), u)
  {
    var x := Moved(r, Insert(t));
    if u in x.open {
      assert DraftOk(r, u);
      if VersionFits(r.db, r.open[t].version) { InsertKeepsDraft(r, t, u, x); }
    }
  }

  lemma ReadKeepsRace(r: Race, t: nat, v: Version)
    requires RaceOk(r) && Legal(r, Read(t, v))
    ensures RaceOk(Moved(r, Read(t, v)))
  {
    var x := Moved(r, Read(t, v));
    assert HistoryOf(r.db.docs, r.db.versions, v.documentId);
    NextNumberFollows(r.db, v.documentId, r.db.docs[v.documentId].currentVersionId);
    forall u
      ensures DraftOk(x, u)
    {
      assert DraftOk(r, u);
    }
  }

  lemma InsertKeepsRace(r: Race, t: nat)
    requires RaceOk(r) && t in r.open
    ensures RaceOk(Moved(r, Insert(t)))
  {
    InsertKeepsHistories(r, t);
    InsertFitsIffNext(r, t);
    var x := Moved(r, Insert(t));
    forall u
      ensures DraftOk(x, u)
    {
      InsertKeepsDrafts(r, t, u);
    }
  }

  lemma RegisterKeepsRace(r: Race, d: Document, v: Version)
    requires RaceOk(r) && Legal(r, Move.Register(d, v))
    ensures RaceOk(Moved(r, Move.Register(d, v)))
  {
    var x := Moved(r, Move.Register(d, v));
    FirstVersion(r.db.versions, v);
    RestOfHistoriesCarry(r.db.docs, r.db.versions, v, d);
    forall u
      ensures DraftOk(x, u)
    {
      assert DraftOk(r, u);
      DraftStays(r, x, u);
    }
  }

  lemma RewriteKeepsRace(r: Race, d: Document)
    requires RaceOk(r) && Legal(r, Rewrite(d))
    ensures RaceOk(Moved(r, Rewrite(d)))
  {
    var x := Moved(r, Rewrite(d));
    SamePointersKeepHistories(r.db.docs, x.db.docs, r.db.versions);
    forall u
      ensures DraftOk(x, u)
    {
      assert DraftOk(r, u);
    }
  }

  predicate VersionsKept(db: Tables, after: Tables) {
    forall v | v in db.versions :: v in after.versions && after.versions[v] == db.versions[v]
  }

  lemma MoveKeepsRace(r: Race, m: Move)
    requires RaceOk(r) && Legal(r, m)
    ensures RaceOk(Moved(r, m)) && VersionsKept(r.db, Moved(r, m).db)
  {
    match m
    case Read(t, v) => ReadKeepsRace(r, t, v);
    case Insert(t) => InsertKeepsRace(r, t);
    case Register(d, v) => RegisterKeepsRace(r, d, v);
    case Rewrite(d) => RewriteKeepsRace(r, d);
  }

  predicate AllLegal(r: Race, moves: seq<Move>)
    decreases |moves|
  {
    moves != [] ==> Legal(r, moves[0]) && AllLegal(Moved(r, moves[0]), moves[1..])
  }

  function Raced(r: Race, moves: seq<Move>): Race
    requires AllLegal(r, moves)
    decreases |moves|
  {
    if moves == [] then r else Raced(Moved(r, moves[0]), moves[1..])
  }

  /** However reads and inserts interleave, every document's numbers stay exactly 1..n with its pointer on n. */
  lemma {:induction false} RacesKeepHistories(r: Race, moves: seq<Move>)
    requires RaceOk(r) && AllLegal(r, moves)
    ensures RaceOk(Raced(r, moves))
    ensures VersionsKept(r.db, Raced(r, moves).db)
    decreases |moves|
  {
    if moves == [] {
    } else {
      MoveKeepsRace(r, moves[0]);
      RacesKeepHistories(Moved(r, moves[0]), moves[1..]);
    }
  }

  /** Every reachable state is a start: with no request in flight nothing is assumed of drafts. */
  lemma ReachableStatesRace(cfg: Config, steps: seq<Step>)
    requires R.Wired(cfg) && Possible(cfg, EMPTY, steps)
    ensures RaceOk(Race(Run(cfg, EMPTY, steps).db, map[]))
  {
    R.EmptyIsGood(cfg);
    R.RunsKeepGood(cfg, EMPTY, steps);
  }

  /** From any reachable state, after any interleaving of requests: numbers 1..n, the pointer on n, old versions as they were. */
  lemma RacesFromAnyState(cfg: Config, steps: seq<Step>, moves: seq<Move>)
    requires R.Wired(cfg) && Possible(cfg, EMPTY, steps) && AllLegal(Race(Run(cfg, EMPTY, steps).db, map[]), moves)
    ensures var db := Run(cfg, EMPTY, steps).db;
            var after := Raced(Race(db, map[]), moves).db;
            Histories(after.docs, after.versions) && VersionsKept(db, after)
  {
    ReachableStatesRace(cfg, steps);
    RacesKeepHistories(Race(Run(cfg, EMPTY, steps).db, map[]), moves);
  }

  /** With nothing in between, reading and inserting is the add-version request as one step. */
  lemma AloneIsAddVersion(cfg: Config, r: Race, t: nat, u: UploadInput, d: Uuid, id: Uuid, at: Instant, v: Version)
    requires RaceOk(r) && AddVersionTx(cfg, r.db, u, d, id, at).problem.None? && v.documentId == d && v.id == id
    requires Legal(r, Read(t, v)) && v == AddVersionTx(cfg, r.db, u, d, id, at).db.versions[id]
    ensures Legal(Moved(r, Read(t, v)), Insert(t))
    ensures Moved(Moved(r, Read(t, v)), Insert(t)).db == AddVersionTx(cfg, r.db, u, d, id, at).db
  {
    assert VersionFits(r.db, v);
  }

  // ---- listing -----------------------------------------------------------

  /** `ORDER BY version_number DESC`: all versions of the document, numbers descending. */
  ghost predicate Lists(db: Tables, d: Uuid, rows: seq<Version>) {
    && (forall i | 0 <= i < |rows| :: IsVersionOf(db.versions, d, rows[i].id) && db.versions[rows[i].id] == rows[i])
    && (forall v | IsVersionOf(db.versions, d, v) :: db.versions[v] in rows)
    && (forall i, k | 0 <= i < k < |rows| :: rows[i].number >= rows[k].number && rows[i].id != rows[k].id)
  }

  /** A strictly descending enumeration of exactly 1..n is n, n-1, ..., 1. */
  lemma {:induction false} Countdown(ns: seq<int>, n: nat)
    requires forall i, k | 0 <= i < k < |ns| :: ns[i] > ns[k]
    requires forall i | 0 <= i < |ns| :: 1 <= ns[i] <= n
    requires forall m | 1 <= m <= n :: m in ns
    ensures |ns| == n && forall i | 0 <= i < n :: ns[i] == n - i
  {
    if ns == [] {
      assert n >= 1 ==> n in ns;
    } else {
      assert 1 <= ns[0] <= n;
      assert n in ns && ns[0] == n;
      var rest := ns[1..];
      forall m | 1 <= m <= n - 1
        ensures m in rest
      {
        assert m in ns;
      }
      Countdown(rest, n - 1);
      assert forall i | 1 <= i < n :: ns[i] == rest[i - 1];
    }
  }

  lemma ListingDescends(db: Tables, d: Uuid, n: int, rows: seq<Version>, i: nat, k: nat)
    requires NumberedUpTo(db.versions, d, n) && Lists(db, d, rows) && i < k < |rows|
    ensures rows[i].number > rows[k].number
  {
    assert IsVersionOf(db.versions, d, rows[i].id) && IsVersionOf(db.versions, d, rows[k].id);
  }

  /** `list_versions` yields exactly n rows numbered n, n-1, ..., 1. */
  lemma ListingIs(db: Tables, d: Uuid, n: nat, rows: seq<Version>)
    requires NumberedUpTo(db.versions, d, n) && Lists(db, d, rows)
    ensures |rows| == n && forall i | 0 <= i < n :: rows[i].number == n - i
  {
    var ns := seq(|rows|, i requires 0 <= i < |rows| => rows[i].number);
    forall i | 0 <= i < |rows|
      ensures 1 <= ns[i] <= n
    {
      assert IsVersionOf(db.versions, d, rows[i].id);
    }
    forall i, k | 0 <= i < k < |rows|
      ensures ns[i] > ns[k]
    {
      ListingDescends(db, d, n, rows, i, k);
    }
    forall m | 1 <= m <= n
      ensures m in ns
    {
      assert HasNumber(db.versions, d, m);
      var v :| IsVersionOf(db.versions, d, v) && db.versions[v].number == m;
      var k :| 0 <= k < |rows| && rows[k] == db.versions[v];
      assert ns[k] == m;
    }
    Countdown(ns, n);
    assert forall i | 0 <= i < n :: rows[i].number == ns[i];
  }
}
