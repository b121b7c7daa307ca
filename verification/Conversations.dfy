/** Conversations as rows keyed by (conversation, seq), and the repository operations on them. */
module Conversations {
  import opened Prelude

  datatype Role = System | User | Assistant

  datatype Message = Message(id: Uuid, role: Role, content: string)

  datatype Conversation = Conversation(id: Uuid, tenantId: string, messages: seq<Message>)

  datatype Row = Row(id: Uuid, conversationId: Uuid, seqNo: nat, role: Role, content: string)

  /** Table `conversations` (id to tenant) and table `conversation_messages` in insertion order. */
  datatype Store = Store(tenants: map<Uuid, string>, rows: seq<Row>)

  function ToRow(m: Message, c: Uuid, seqNo: nat): Row {
    Row(m.id, c, seqNo, m.role, m.content)
  }

  function ToMessage(r: Row): Message {
    Message(r.id, r.role, r.content)
  }

  // ---- queries -----------------------------------------------------------

  function RowsOf(rows: seq<Row>, c: Uuid): seq<Row> {
    if rows == [] then []
    else
      var n := |rows| - 1;
      RowsOf(rows[..n], c) + (if rows[n].conversationId == c then [rows[n]] else [])
  }

  /** `ORDER BY seq`, as an insertion sort. */
  function Placed(sorted: seq<Row>, r: Row): seq<Row> {
    if sorted == [] || sorted[|sorted| - 1].seqNo <= r.seqNo then sorted + [r]
    else Placed(sorted[..|sorted| - 1], r) + [sorted[|sorted| - 1]]
  }

  function SortBySeq(rows: seq<Row>): seq<Row> {
    if rows == [] then [] else Placed(SortBySeq(rows[..|rows| - 1]), rows[|rows| - 1])
  }

  function ToMessages(rows: seq<Row>): (ms: seq<Message>)
    ensures |ms| == |rows| && forall i | 0 <= i < |rows| :: ms[i] == ToMessage(rows[i])
  {
    seq(|rows|, i requires 0 <= i < |rows| => ToMessage(rows[i]))
  }

  function History(s: Store, c: Uuid): seq<Message> {
    ToMessages(SortBySeq(RowsOf(s.rows, c)))
  }

  /** `get`: nothing for an unknown conversation or another tenant's. */
  function Get(s: Store, tenantId: string, c: Uuid): Option<Conversation> {
    if c in s.tenants && s.tenants[c] == tenantId then Some(Conversation(c, tenantId, History(s, c))) else None
  }

  // ---- writes ------------------------------------------------------------

  /** Primary key, and the unique index on (conversation_id, seq). */
  predicate Clash(a: Row, b: Row) {
    a.id == b.id || (a.conversationId == b.conversationId && a.seqNo == b.seqNo)
  }

  predicate UniqueRows(rows: seq<Row>) {
    forall i, k | 0 <= i < k < |rows| :: !Clash(rows[i], rows[k])
  }

  function IdsOf(rows: seq<Row>, c: Uuid): set<Uuid> {
    set r | r in rows && r.conversationId == c :: r.id
  }

  /** Rows for the messages from position i on whose ids are not stored yet; seq is the list position. */
  function Missing(ms: seq<Message>, c: Uuid, stored: set<Uuid>, i: nat): seq<Row>
    requires i <= |ms|
    decreases |ms| - i
  {
    if i == |ms| then []
    else (if ms[i].id in stored then [] else [ToRow(ms[i], c, i)]) + Missing(ms, c, stored, i + 1)
  }

  /** `add`: None is the integrity error that rolls the turn back. */
  function Added(s: Store, conv: Conversation): Option<Store> {
    var rows := s.rows + Missing(conv.messages, conv.id, {}, 0);
    if conv.id in s.tenants || !UniqueRows(rows) then None
    else Some(Store(s.tenants[conv.id := conv.tenantId], rows))
  }

  /** `update`: inserts only the messages not yet stored; silent when the conversation is unknown. */
  function Updated(s: Store, conv: Conversation): Option<Store> {
    if conv.id !in s.tenants then Some(s)
    else
      var rows := s.rows + Missing(conv.messages, conv.id, IdsOf(s.rows, conv.id), 0);
      if !UniqueRows(rows) then None else Some(s.(rows := rows))
  }

  // ---- the store refines a list ------------------------------------------

  predicate InOrder(rows: seq<Row>) {
    forall k | 0 <= k < |rows| :: rows[k].seqNo == k
  }

  predicate OrderedFor(s: Store, c: Uuid) {
    InOrder(RowsOf(s.rows, c))
  }

  /** Keys are unique and each conversation's rows carry seq 0..n-1. */
  ghost predicate StoreOk(s: Store) {
    && UniqueRows(s.rows)
    && (forall i | 0 <= i < |s.rows| :: s.rows[i].conversationId in s.tenants)
    && forall c {:trigger OrderedFor(s, c)} :: OrderedFor(s, c)
  }

  lemma {:induction false} RowsOfConcat(a: seq<Row>, b: seq<Row>, c: Uuid)
    ensures RowsOf(a + b, c) == RowsOf(a, c) + RowsOf(b, c)
    decreases |b|
  {
    if b == [] {
      assert a + b == a;
    } else {
      var n := |b| - 1;
      assert (a + b)[..|a + b| - 1] == a + b[..n];
      RowsOfConcat(a, b[..n], c);
    }
  }

  lemma {:induction false} RowsOfIs(rows: seq<Row>, c: Uuid)
    ensures forall r :: r in RowsOf(rows, c) <==> r in rows && r.conversationId == c
    decreases |rows|
  {
    if rows == [] {
    } else {
      var n := |rows| - 1;
      RowsOfIs(rows[..n], c);
      assert rows == rows[..n] + [rows[n]];
    }
  }

  lemma {:induction false} NoRows(rows: seq<Row>, c: Uuid)
    requires forall i | 0 <= i < |rows| :: rows[i].conversationId != c
    ensures RowsOf(rows, c) == []
    decreases |rows|
  {
    if rows == [] {
    } else {
      NoRows(rows[..|rows| - 1], c);
    }
  }

  lemma {:induction false} AllRows(rows: seq<Row>, c: Uuid)
    requires forall i | 0 <= i < |rows| :: rows[i].conversationId == c
    ensures RowsOf(rows, c) == rows
    decreases |rows|
  {
    if rows == [] {
    } else {
      var n := |rows| - 1;
      AllRows(rows[..n], c);
      assert rows == rows[..n] + [rows[n]];
    }
  }

  lemma {:induction false} SortingOrdered(rows: seq<Row>)
    requires InOrder(rows)
    ensures SortBySeq(rows) == rows
    decreases |rows|
  {
    if rows == [] {
    } else {
      var n := |rows| - 1;
      SortingOrdered(rows[..n]);
      PlacedLast(rows[..n], rows[n]);
      assert rows == rows[..n] + [rows[n]];
    }
  }

  /** A row with a higher position than any other goes last. */
  lemma PlacedLast(sorted: seq<Row>, r: Row)
    requires InOrder(sorted) && r.seqNo == |sorted|
    ensures Placed(sorted, r) == sorted + [r]
  {
    assert sorted != [] ==> sorted[|sorted| - 1].seqNo == |sorted| - 1;
  }

  predicate Sorted(rows: seq<Row>) {
    forall i, k | 0 <= i < k < |rows| :: rows[i].seqNo <= rows[k].seqNo
  }

  lemma {:induction false} PlacedKeepsRows(sorted: seq<Row>, r: Row)
    ensures multiset(Placed(sorted, r)) == multiset(sorted) + multiset{r}
    decreases |sorted|
  {
    if sorted == [] || sorted[|sorted| - 1].seqNo <= r.seqNo {
    } else {
      var n := |sorted| - 1;
      PlacedKeepsRows(sorted[..n], r);
      assert sorted == sorted[..n] + [sorted[n]];
    }
  }

  lemma {:induction false} PlacedIsSorted(sorted: seq<Row>, r: Row)
    requires Sorted(sorted)
    ensures Sorted(Placed(sorted, r))
    decreases |sorted|
  {
    if sorted == [] || sorted[|sorted| - 1].seqNo <= r.seqNo {
    } else {
      var n := |sorted| - 1;
      PlacedIsSorted(sorted[..n], r);
      PlacedBelow(sorted[..n], r, sorted[n].seqNo);
    }
  }

  lemma {:induction false} PlacedBelow(sorted: seq<Row>, r: Row, top: nat)
    requires r.seqNo <= top && forall i | 0 <= i < |sorted| :: sorted[i].seqNo <= top
    ensures forall i | 0 <= i < |Placed(sorted, r)| :: Placed(sorted, r)[i].seqNo <= top
    decreases |sorted|
  {
    if sorted == [] || sorted[|sorted| - 1].seqNo <= r.seqNo {
    } else {
      PlacedBelow(sorted[..|sorted| - 1], r, top);
    }
  }

  lemma {:induction false} SortKeepsRows(rows: seq<Row>)
    ensures multiset(SortBySeq(rows)) == multiset(rows)
    decreases |rows|
  {
    if rows == [] {
    } else {
      var n := |rows| - 1;
      SortKeepsRows(rows[..n]);
      PlacedKeepsRows(SortBySeq(rows[..n]), rows[n]);
      assert rows == rows[..n] + [rows[n]];
    }
  }

  /** `ORDER BY seq` returns every row once, in order of seq, whatever order they were stored in. */
  lemma {:induction false} SortIsSorted(rows: seq<Row>)
    ensures Sorted(SortBySeq(rows)) && multiset(SortBySeq(rows)) == multiset(rows)
    decreases |rows|
  {
    SortKeepsRows(rows);
    if rows == [] {
    } else {
      var n := |rows| - 1;
      SortIsSorted(rows[..n]);
      PlacedIsSorted(SortBySeq(rows[..n]), rows[n]);
    }
  }

  /** In a sound store the history is the rows in the order they were inserted. */
  lemma HistoryIs(s: Store, c: Uuid)
    requires StoreOk(s)
    ensures History(s, c) == ToMessages(RowsOf(s.rows, c))
  {
    assert OrderedFor(s, c);
    SortingOrdered(RowsOf(s.rows, c));
  }

  function NewRows(ms: seq<Message>, c: Uuid, n: nat): (rows: seq<Row>)
    requires n <= |ms|
    ensures |rows| == |ms| - n && forall i | 0 <= i < |rows| :: rows[i] == ToRow(ms[n + i], c, n + i)
  {
    seq(|ms| - n, i requires 0 <= i < |ms| - n => ToRow(ms[n + i], c, n + i))
  }

  /** With the first n messages stored and none of the others, exactly the others get rows. */
  lemma {:induction false} MissingSuffix(ms: seq<Message>, c: Uuid, stored: set<Uuid>, n: nat, i: nat)
    requires i <= |ms| && n <= |ms|
    requires forall k | 0 <= k < |ms| :: ms[k].id in stored <==> k < n
    ensures Missing(ms, c, stored, i) == NewRows(ms, c, if i < n then n else i)
    decreases |ms| - i
  {
    if i < |ms| {
      MissingSuffix(ms, c, stored, n, i + 1);
      if i >= n {
        assert NewRows(ms, c, i) == [ToRow(ms[i], c, i)] + NewRows(ms, c, i + 1);
      }
    }
  }

  predicate DistinctIds(ms: seq<Message>) {
    forall i, k | 0 <= i < k < |ms| :: ms[i].id != ms[k].id
  }

  /** Ids of no stored row. */
  predicate FreshIds(s: Store, ms: seq<Message>) {
    forall i, k | 0 <= i < |ms| && 0 <= k < |s.rows| :: s.rows[k].id != ms[i].id
  }

  lemma StoredIds(s: Store, c: Uuid, i: nat)
    requires StoreOk(s) && i < |History(s, c)|
    ensures History(s, c)[i].id in IdsOf(s.rows, c)
    ensures ToRow(History(s, c)[i], c, i) in s.rows
  {
    HistoryIs(s, c);
    RowsOfIs(s.rows, c);
    assert OrderedFor(s, c);
    assert RowsOf(s.rows, c)[i] in RowsOf(s.rows, c);
  }

  /** Rows of c have positions below the length of its history. */
  lemma SeqBelow(s: Store, c: Uuid, k: nat)
    requires StoreOk(s) && k < |s.rows| && s.rows[k].conversationId == c
    ensures s.rows[k].seqNo < |History(s, c)|
  {
    HistoryIs(s, c);
    RowsOfIs(s.rows, c);
    assert OrderedFor(s, c);
    assert s.rows[k] in RowsOf(s.rows, c);
  }

  /** Appending rows for messages n.. keeps the keys unique exactly when n is the current length (or nothing is added). */
  lemma AppendFitsIff(s: Store, c: Uuid, ms: seq<Message>, n: nat)
    requires StoreOk(s) && n <= |ms| && n <= |History(s, c)|
    requires DistinctIds(ms[n..]) && FreshIds(s, ms[n..])
    ensures UniqueRows(s.rows + NewRows(ms, c, n)) <==> n == |History(s, c)| || n == |ms|
  {
    var added := NewRows(ms, c, n);
    var rows := s.rows + added;
    forall i | 0 <= i < |added|
      ensures added[i].id == ms[n..][i].id && added[i].seqNo == n + i && added[i].conversationId == c
    {
    }
    if n < |History(s, c)| && n < |ms| {
      StoredIds(s, c, n);
      var k :| 0 <= k < |s.rows| && s.rows[k] == ToRow(History(s, c)[n], c, n);
      assert Clash(rows[k], rows[|s.rows|]);
    } else {
      forall i, k | 0 <= i < k < |rows|
        ensures !Clash(rows[i], rows[k])
      {
        if i < |s.rows| <= k {
          assert added[k - |s.rows|] == rows[k];
          if s.rows[i].conversationId == c { SeqBelow(s, c, i); }
        } else if |s.rows| <= i {
          assert added[k - |s.rows|] == rows[k] && added[i - |s.rows|] == rows[i];
        }
      }
    }
  }

  lemma AppendedRows(s: Store, t: Store, c: Uuid, added: seq<Row>, d: Uuid)
    requires StoreOk(s) && t.rows == s.rows + added
    requires forall i | 0 <= i < |added| :: added[i].conversationId == c && added[i].seqNo == |RowsOf(s.rows, c)| + i
    ensures RowsOf(t.rows, d) == RowsOf(s.rows, d) + if d == c then added else []
    ensures OrderedFor(t, d)
  {
    assert OrderedFor(s, d);
    RowsOfConcat(s.rows, added, d);
    if d == c { AllRows(added, c); } else { NoRows(added, d); }
  }

  lemma AppendKeepsOk(s: Store, t: Store, c: Uuid, added: seq<Row>)
    requires StoreOk(s) && t.rows == s.rows + added && UniqueRows(t.rows) && c in t.tenants
    requires forall i | 0 <= i < |added| :: added[i].conversationId == c && added[i].seqNo == |RowsOf(s.rows, c)| + i
    requires forall d | d in s.tenants :: d in t.tenants
    ensures StoreOk(t)
  {
    forall d
      ensures OrderedFor(t, d)
    {
      AppendedRows(s, t, c, added, d);
    }
  }

  /** The rows appended at the end of c's history make it `ms`, and leave other conversations alone. */
  lemma AppendKeepsStore(s: Store, t: Store, c: Uuid, ms: seq<Message>)
    requires StoreOk(s) && History(s, c) <= ms && c in t.tenants
    requires t.rows == s.rows + NewRows(ms, c, |History(s, c)|) && UniqueRows(t.rows)
    requires forall d | d in s.tenants :: d in t.tenants
    ensures StoreOk(t) && History(t, c) == ms && forall d | d != c :: History(t, d) == History(s, d)
  {
    var added := NewRows(ms, c, |History(s, c)|);
    HistoryIs(s, c);
    AppendKeepsOk(s, t, c, added);
    forall d | d != c
      ensures History(t, d) == History(s, d)
    {
      AppendedRows(s, t, c, added, d);
      HistoryIs(s, d);
      HistoryIs(t, d);
    }
    AppendedHistory(s, t, c, ms);
  }

  lemma AppendedHistory(s: Store, t: Store, c: Uuid, ms: seq<Message>)
    requires StoreOk(s) && StoreOk(t) && History(s, c) <= ms
    requires t.rows == s.rows + NewRows(ms, c, |History(s, c)|)
    ensures History(t, c) == ms
  {
    var added := NewRows(ms, c, |History(s, c)|);
    HistoryIs(s, c);
    AppendedRows(s, t, c, added, c);
    HistoryIs(t, c);
    MessagesOfBoth(RowsOf(s.rows, c), c, ms);
  }

  lemma MessagesOfBoth(stored: seq<Row>, c: Uuid, ms: seq<Message>)
    requires ToMessages(stored) <= ms
    ensures ToMessages(stored + NewRows(ms, c, |stored|)) == ms
  {
    var both := ToMessages(stored + NewRows(ms, c, |stored|));
    forall i | 0 <= i < |ms|
      ensures both[i] == ms[i]
    {
      if i < |stored| { assert both[i] == ToMessages(stored)[i]; }
    }
  }

  /** The store refines a list: after `update` with an extension, `get` returns that list, and repeating is a no-op. */
  lemma UpdateThenGet(s: Store, conv: Conversation)
    requires StoreOk(s) && conv.id in s.tenants && s.tenants[conv.id] == conv.tenantId
    requires History(s, conv.id) <= conv.messages
    requires DistinctIds(conv.messages) && FreshIds(s, conv.messages[|History(s, conv.id)|..])
    ensures Updated(s, conv).Some?
    ensures var t := Updated(s, conv).value;
            && StoreOk(t)
            && Get(t, conv.tenantId, conv.id) == Some(conv)
            && (forall d | d != conv.id :: History(t, d) == History(s, d))
            && Updated(t, conv) == Some(t)
  {
    var c, ms, n := conv.id, conv.messages, |History(s, conv.id)|;
    UpdateWrites(s, conv, n);
    AppendFitsIff(s, c, ms, n);
    var t := Updated(s, conv).value;
    AppendKeepsStore(s, t, c, ms);
    UpdateAgain(t, conv);
  }

  lemma UpdateAgain(t: Store, conv: Conversation)
    requires StoreOk(t) && conv.id in t.tenants && History(t, conv.id) == conv.messages
    ensures Updated(t, conv) == Some(t)
  {
    var ms, c := conv.messages, conv.id;
    forall i | 0 <= i < |ms|
      ensures ms[i].id in IdsOf(t.rows, c)
    {
      StoredIds(t, c, i);
    }
    MissingSuffix(ms, c, IdsOf(t.rows, c), |ms|, 0);
    assert t.rows + [] == t.rows;
  }

  /** What `update` tries to insert when the list shares its first n messages with the store. */
  lemma UpdateWrites(s: Store, conv: Conversation, n: nat)
    requires StoreOk(s) && n <= |conv.messages| && n <= |History(s, conv.id)|
    requires conv.messages[..n] == History(s, conv.id)[..n]
    requires FreshIds(s, conv.messages[n..])
    ensures Missing(conv.messages, conv.id, IdsOf(s.rows, conv.id), 0) == NewRows(conv.messages, conv.id, n)
  {
    var ms, stored := conv.messages, IdsOf(s.rows, conv.id);
    forall k | 0 <= k < |ms|
      ensures ms[k].id in stored <==> k < n
    {
      if k < n {
        assert conv.messages[..n][k] == History(s, conv.id)[..n][k];
        StoredIds(s, conv.id, k);
      } else {
        assert ms[n..][k - n] == ms[k];
      }
    }
    MissingSuffix(ms, conv.id, stored, n, 0);
  }

  /** `add` of a new conversation: `get` returns it. */
  lemma AddThenGet(s: Store, conv: Conversation)
    requires StoreOk(s) && conv.id !in s.tenants && DistinctIds(conv.messages) && FreshIds(s, conv.messages)
    ensures Added(s, conv).Some?
    ensures var t := Added(s, conv).value;
            && StoreOk(t)
            && Get(t, conv.tenantId, conv.id) == Some(conv)
            && forall d | d != conv.id :: History(t, d) == History(s, d)
  {
    EmptyHistory(s, conv.id);
    MissingSuffix(conv.messages, conv.id, {}, 0, 0);
    assert conv.messages[0..] == conv.messages;
    AppendFitsIff(s, conv.id, conv.messages, 0);
    AppendKeepsStore(s, Added(s, conv).value, conv.id, conv.messages);
  }

  lemma EmptyHistory(s: Store, c: Uuid)
    requires StoreOk(s) && c !in s.tenants
    ensures History(s, c) == []
  {
    HistoryIs(s, c);
    NoRows(s.rows, c);
  }
}
