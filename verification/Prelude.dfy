/** Shared vocabulary: results, identifiers, instants and the few Python string operations the service relies on. */
module Prelude {

  datatype Option<+T> = None | Some(value: T)

  datatype Result<+T> = Success(value: T) | Failure(error: string)

  type Bytes = seq<bv8>

  const HEX := "0123456789abcdef-"

  /** The canonical text form of a UUID: 36 characters, none of which is a separator used in keys. */
  predicate IsUuid(s: string) {
    |s| == 36 && forall i | 0 <= i < |s| :: s[i] in HEX
  }

  type UuidText = s: string | IsUuid(s) witness "00000000-0000-4000-8000-000000000000"

  datatype Uuid = Uuid(text: UuidText)

  lemma UuidHasNo(u: Uuid, c: char)
    requires c !in HEX
    ensures c !in u.text
  {
  }

  /** A wall-clock reading; only year and month are ever rendered. */
  datatype Instant = Instant(year: nat, month: nat, rest: nat)

  // ---- decimal rendering -------------------------------------------------

  function Digit(d: nat): (c: char)
    requires d < 10
    ensures '0' <= c <= '9' && c as int == '0' as int + d
  {
    (d + '0' as int) as char
  }

  /** `str(n)` for a non-negative integer. */
  function Decimal(n: nat): (s: string)
    ensures s != [] && forall i | 0 <= i < |s| :: '0' <= s[i] <= '9'
  {
    if n < 10 then [Digit(n)] else Decimal(n / 10) + [Digit(n % 10)]
  }

  function DecimalValue(s: string): int {
    if s == [] then 0
    else DecimalValue(s[..|s| - 1]) * 10 + s[|s| - 1] as int - '0' as int
  }

  lemma {:induction false} DecimalRoundTrip(n: nat)
    ensures DecimalValue(Decimal(n)) == n
  {
    if n >= 10 {
      var s := Decimal(n);
      assert s[..|s| - 1] == Decimal(n / 10);
      DecimalRoundTrip(n / 10);
    } else {
      assert Decimal(n)[..0] == [];
    }
  }

  /** `f"{n:0{width}d}"`. */
  function Padded(n: nat, width: nat): (s: string)
    ensures forall i | 0 <= i < |s| :: '0' <= s[i] <= '9'
  {
    var s := Decimal(n);
    Repeat('0', if |s| >= width then 0 else width - |s|) + s
  }

  lemma {:induction false} ZerosDoNotCount(k: nat, s: string)
    ensures DecimalValue(Repeat('0', k) + s) == DecimalValue(s)
  {
    var t := Repeat('0', k) + s;
    if s != [] {
      assert t[..|t| - 1] == Repeat('0', k) + s[..|s| - 1];
      ZerosDoNotCount(k, s[..|s| - 1]);
    } else if k > 0 {
      assert t[..|t| - 1] == Repeat('0', k - 1) + [];
      ZerosDoNotCount(k - 1, []);
    } else {
      assert t == [];
    }
  }

  lemma PaddedRoundTrip(n: nat, width: nat)
    ensures DecimalValue(Padded(n, width)) == n && |Padded(n, width)| >= width
  {
    var s := Decimal(n);
    ZerosDoNotCount(if |s| >= width then 0 else width - |s|, s);
    DecimalRoundTrip(n);
  }

  // ---- str methods -------------------------------------------------------

  function LowerChar(c: char): char {
    if 'A' <= c <= 'Z' then (c as int + 32) as char else c
  }

  /** `s.lower()` on ASCII text. */
  function Lower(s: string): (r: string)
    ensures |r| == |s|
    ensures forall i | 0 <= i < |s| :: r[i] == LowerChar(s[i])
  {
    seq(|s|, i requires 0 <= i < |s| => LowerChar(s[i]))
  }

  /** `s.lstrip(".")`. */
  function StripDots(s: string): string {
    if s != [] && s[0] == '.' then StripDots(s[1..]) else s
  }

  /** Exactly the leading dots go. */
  lemma {:induction false} StripDotsIs(s: string)
    ensures var r := StripDots(s);
            && |r| <= |s| && r == s[|s| - |r|..] && (r == "" || r[0] != '.')
            && forall i | 0 <= i < |s| - |r| :: s[i] == '.'
  {
    if s == [] || s[0] != '.' {
    } else {
      StripDotsIs(s[1..]);
      var r := StripDots(s);
      assert forall i | 0 < i < |s| :: s[i] == s[1..][i - 1];
    }
  }

  /** Position of the last `c` in `s`. */
  function LastIndex(s: string, c: char): (p: int)
    ensures -1 <= p < |s|
    ensures p == -1 <==> c !in s
    ensures p >= 0 ==> s[p] == c && c !in s[p + 1..]
  {
    if s == [] then -1
    else if s[|s| - 1] == c then |s| - 1
    else
      var p := LastIndex(s[..|s| - 1], c);
      assert s == s[..|s| - 1] + [s[|s| - 1]];
      assert p >= 0 ==> s[p + 1..] == s[..|s| - 1][p + 1..] + [s[|s| - 1]];
      p
  }

  datatype Halves = Halves(before: string, after: string)

  /** `s.rsplit(c, 1)`: cut at the last `c`; without one, everything is `after`. */
  function SplitLast(s: string, c: char): Halves {
    var p := LastIndex(s, c);
    if p == -1 then Halves("", s) else Halves(s[..p], s[p + 1..])
  }

  lemma SplitLastUndoesJoin(a: string, c: char, b: string)
    requires c !in b
    ensures SplitLast(a + [c] + b, c) == Halves(a, b)
  {
    var s := a + [c] + b;
    assert s[|a|] == c && s[..|a|] == a && s[|a| + 1..] == b;
    var p := LastIndex(s, c);
    assert p == |a|;
  }

  // ---- finite maxima -----------------------------------------------------

  predicate IsMax(s: set<int>, m: int) {
    m in s && forall x :: x in s ==> x <= m
  }

  lemma {:induction false} MaxExists(s: set<int>) returns (m: int)
    requires s != {}
    ensures IsMax(s, m)
  {
    assert exists y :: y in s by {
      if !exists y :: y in s { assert false; }
    }
    var y :| y in s;
    var rest := s - {y};
    if rest == {} {
      m := y;
      assert s == {y};
    } else {
      var t := MaxExists(rest);
      m := if y > t then y else t;
      assert forall x :: x in s ==> x == y || x in rest;
    }
  }

  lemma SomeMax(s: set<int>)
    requires s != {}
    ensures exists m :: IsMax(s, m)
  {
    var m := MaxExists(s);
  }

  /** `max(...)` of a non-empty collection of integers. */
  function MaxOf(s: set<int>): (m: int)
    requires s != {}
    ensures m in s && forall x :: x in s ==> x <= m
  {
    SomeMax(s);
    var m :| IsMax(s, m);
    m
  }

  function Repeat<T>(x: T, n: nat): (r: seq<T>)
    ensures |r| == n && forall i | 0 <= i < n :: r[i] == x
  {
    seq(n, _ => x)
  }
}
