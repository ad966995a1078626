/** Debian version comparison (dpkg's verrevcmp): the code's character walk, a numeric key it computes on,
    and exactly when it is a total preorder. */
module Versions {
  import opened Text

  predicate IsDigit(c: char) { '0' <= c <= '9' }

  function Digit(c: char): (d: nat)
    requires IsDigit(c)
    ensures d <= 9
    ensures d == 0 <==> c == '0'
  {
    c as int - '0' as int
  }

  predicate IsLetter(c: char) { 'a' <= c <= 'z' || 'A' <= c <= 'Z' }

  function Order(c: char): int {
    if IsDigit(c) then 0
    else if IsLetter(c) then c as int
    else if c == '~' then -1
    else if c as int == 0 then 0
    else c as int + 256
  }

  function Sign(n: int): int { if n < 0 then -1 else if n > 0 then 1 else 0 }

  function Cmp(p: int, q: int): int { Sign(p - q) }

  // ----- the walk -----

  predicate AtNonDigit(s: string) { s != [] && !IsDigit(s[0]) }
  predicate AtDigit(s: string) { s != [] && IsDigit(s[0]) }
  function Weight(s: string): int { if s == [] then 0 else Order(s[0]) }
  function Tail(s: string): string { if s == [] then [] else s[1..] }

  function StripZeros(s: string): (r: string)
    ensures |r| <= |s|
  {
    if s != [] && s[0] == '0' then StripZeros(s[1..]) else s
  }

  /** verrevcmp from the point where a and b are what is left of the two strings. */
  function VerRev(a: string, b: string): int
    decreases |a| + |b|, 3
  {
    if a == [] && b == [] then 0 else NonDigitRun(a, b)
  }

  function NonDigitRun(a: string, b: string): int
    requires a != [] || b != []
    decreases |a| + |b|, 2
  {
    if AtNonDigit(a) || AtNonDigit(b) then
      if Weight(a) != Weight(b) then Sign(Weight(a) - Weight(b))
      else if Tail(a) == [] && Tail(b) == [] then 0
      else NonDigitRun(Tail(a), Tail(b))
    else
      var (x, y) := (StripZeros(a), StripZeros(b));
      DigitRun(x, y, 0, |a| + |b|)
  }

  /** The digit runs after their leading zeros; `first` is the first difference seen, `room` what the round started
      with. */
  function DigitRun(a: string, b: string, first: int, ghost room: nat): int
    requires |a| + |b| <= room
    requires |a| + |b| < room || AtDigit(a) || AtDigit(b)
    decreases room, 1, |a| + |b|
  {
    if AtDigit(a) && AtDigit(b) then
      DigitRun(a[1..], b[1..], if first == 0 then a[0] as int - b[0] as int else first, room)
    else if AtDigit(a) then 1
    else if AtDigit(b) then -1
    else if first != 0 then Sign(first)
    else VerRev(a, b)
  }

  function From(s: string, i: nat): string { if i < |s| then s[i..] else [] }

  /** NonDigitRun, or 0 once nothing is left. */
  function Walk(a: string, b: string): int { if a == [] && b == [] then 0 else NonDigitRun(a, b) }

  lemma VerRevWalks(a: string, b: string)
    ensures VerRev(a, b) == Walk(a, b)
    ensures a == [] && b == [] ==> Walk(a, b) == 0
  {
  }

  lemma WalkNonDigit(a: string, b: string)
    requires AtNonDigit(a) || AtNonDigit(b)
    ensures Walk(a, b) == if Weight(a) != Weight(b) then Sign(Weight(a) - Weight(b)) else Walk(Tail(a), Tail(b))
  {
  }

  lemma WalkAtDigits(a: string, b: string)
    requires !AtNonDigit(a) && !AtNonDigit(b) && (a != [] || b != [])
    ensures var (x, y) := (StripZeros(a), StripZeros(b));
            |x| + |y| <= |a| + |b| && (|x| + |y| < |a| + |b| || AtDigit(x) || AtDigit(y))
            && Walk(a, b) == DigitRun(x, y, 0, |a| + |b|)
  {
  }

  lemma FromNext(s: string, i: nat)
    ensures Tail(From(s, i)) == From(s, i + 1)
    ensures i < |s| ==> From(s, i)[1..] == From(s, i + 1)
  {
  }

  method SkipZeros(s: string, i: nat) returns (j: nat)
    ensures From(s, j) == StripZeros(From(s, i))
  {
    j := i;
    while j < |s| && s[j] == '0'
      invariant StripZeros(From(s, j)) == StripZeros(From(s, i))
    {
      FromNext(s, j);
      j := j + 1;
    }
  }

  /** verrevcmp's non-digit loop: the first difference in weight, or the indices it stopped at. An index may pass the
      end of its string: the other side's NUL weighs what the end weighs. */
  method CompareNonDigits(a: string, i: nat, b: string, j: nat) returns (r: int, ai: nat, bi: nat)
    ensures r != 0 ==> r == Walk(From(a, i), From(b, j))
    ensures r == 0 ==> Walk(From(a, i), From(b, j)) == Walk(From(a, ai), From(b, bi))
    ensures r == 0 ==> !AtNonDigit(From(a, ai)) && !AtNonDigit(From(b, bi))
    ensures |From(a, ai)| + |From(b, bi)| <= |From(a, i)| + |From(b, j)|
  {
    hide Walk;
    ai, bi := i, j;
    while (ai < |a| && !IsDigit(a[ai])) || (bi < |b| && !IsDigit(b[bi]))
      invariant Walk(From(a, i), From(b, j)) == Walk(From(a, ai), From(b, bi))
      invariant |From(a, ai)| + |From(b, bi)| <= |From(a, i)| + |From(b, j)|
      decreases |From(a, ai)| + |From(b, bi)|
    {
      WalkNonDigit(From(a, ai), From(b, bi));
      var (ac, bc) := (Weight(From(a, ai)), Weight(From(b, bi)));
      if ac != bc { return Sign(ac - bc), ai, bi; }
      FromNext(a, ai);
      FromNext(b, bi);
      ai, bi := ai + 1, bi + 1;
    }
    r := 0;
  }

  /** verrevcmp's digit loop and the decisions after it. */
  method CompareDigits(a: string, i: nat, b: string, j: nat, ghost room: nat) returns (r: int, ai: nat, bi: nat)
    requires |From(a, i)| + |From(b, j)| <= room
    requires |From(a, i)| + |From(b, j)| < room || AtDigit(From(a, i)) || AtDigit(From(b, j))
    ensures r != 0 ==> r == DigitRun(From(a, i), From(b, j), 0, room)
    ensures r == 0 ==> DigitRun(From(a, i), From(b, j), 0, room) == VerRev(From(a, ai), From(b, bi))
    ensures r == 0 ==> |From(a, ai)| + |From(b, bi)| < room
  {
    hide VerRev, NonDigitRun;
    var firstDiff := 0;
    ai, bi := i, j;
    ghost var (x, y) := (From(a, i), From(b, j));
    while ai < |a| && IsDigit(a[ai]) && bi < |b| && IsDigit(b[bi])
      invariant (x, y) == (From(a, ai), From(b, bi))
      invariant |x| + |y| <= room && (|x| + |y| < room || AtDigit(x) || AtDigit(y))
      invariant DigitRun(From(a, i), From(b, j), 0, room) == DigitRun(x, y, firstDiff, room)
    {
      if firstDiff == 0 { firstDiff := a[ai] as int - b[bi] as int; }
      FromNext(a, ai);
      FromNext(b, bi);
      x, y := x[1..], y[1..];
      ai, bi := ai + 1, bi + 1;
    }
    assert AtDigit(x) <==> ai < |a| && IsDigit(a[ai]);
    assert AtDigit(y) <==> bi < |b| && IsDigit(b[bi]);
    if ai < |a| && IsDigit(a[ai]) { return 1, ai, bi; }
    if bi < |b| && IsDigit(b[bi]) { return -1, ai, bi; }
    r := Sign(firstDiff);
  }

  /** verrevcmp: rounds of a non-digit run and a digit run. */
  method VerRevCmp(a: string, b: string) returns (r: int)
    ensures r == VerRev(a, b)
  {
    hide VerRev, Walk, NonDigitRun, DigitRun, StripZeros;
    var ai: nat, bi: nat := 0, 0;
    while ai < |a| || bi < |b|
      invariant VerRev(a, b) == VerRev(From(a, ai), From(b, bi))
      decreases |From(a, ai)| + |From(b, bi)|
    {
      VerRevWalks(From(a, ai), From(b, bi));
      r, ai, bi := CompareNonDigits(a, ai, b, bi);
      if r != 0 { return; }
      VerRevWalks(From(a, ai), From(b, bi));
      if ai >= |a| && bi >= |b| { break; }
      ghost var (x, y) := (From(a, ai), From(b, bi));
      WalkAtDigits(x, y);
      ai := SkipZeros(a, ai);
      bi := SkipZeros(b, bi);
      r, ai, bi := CompareDigits(a, ai, b, bi, |x| + |y|);
      if r != 0 { return; }
    }
    VerRevWalks(From(a, ai), From(b, bi));
    return 0;
  }

  // ----- the key -----

  function DigitsLen(s: string): (n: nat)
    ensures n <= |s|
    ensures forall i :: 0 <= i < n ==> IsDigit(s[i])
    ensures n < |s| ==> !IsDigit(s[n])
    ensures AtDigit(s) ==> n > 0
  {
    if AtDigit(s) then 1 + DigitsLen(s[1..]) else 0
  }

  /** The number a string of digits denotes, most significant first, continuing from `acc`. */
  function Value(s: string, acc: nat): nat
    requires forall i :: 0 <= i < |s| ==> IsDigit(s[i])
    decreases |s|
  {
    if s == [] then acc else Value(s[1..], 10 * acc + Digit(s[0]))
  }

  /** A non-digit's weight, or 0 and the digit run's number; the end is an endless run of zeros. */
  function Key(s: string): seq<int>
    decreases |s|
  {
    if s == [] then []
    else if !IsDigit(s[0]) then [Order(s[0])] + Key(s[1..])
    else
      var n := DigitsLen(s);
      [0, Value(s[..n], 0)] + Key(s[n..])
  }

  function At(x: seq<int>): int { if x == [] then 0 else x[0] }
  function Rest(x: seq<int>): seq<int> { if x == [] then [] else x[1..] }

  /** Lexicographic comparison of two sequences continued with zeros. */
  function KeyCompare(x: seq<int>, y: seq<int>): (r: int)
    ensures -1 <= r <= 1
    decreases |x| + |y|
  {
    if x == [] && y == [] then 0
    else if At(x) != At(y) then Sign(At(x) - At(y))
    else KeyCompare(Rest(x), Rest(y))
  }

  lemma {:induction false} KeyCompareAntisymmetric(x: seq<int>, y: seq<int>)
    ensures KeyCompare(x, y) == -KeyCompare(y, x)
    decreases |x| + |y|
  {
    if (x != [] || y != []) && At(x) == At(y) { KeyCompareAntisymmetric(Rest(x), Rest(y)); }
  }

  lemma {:induction false} KeyCompareTransitive(x: seq<int>, y: seq<int>, z: seq<int>)
    requires KeyCompare(x, y) <= 0 && KeyCompare(y, z) <= 0
    ensures KeyCompare(x, z) <= 0
    ensures KeyCompare(x, z) == 0 ==> KeyCompare(x, y) == 0 && KeyCompare(y, z) == 0
    decreases |x| + |y| + |z|
  {
    if x == [] && y == [] && z == [] {
    } else if At(x) == At(y) == At(z) {
      assert KeyCompare(x, y) == KeyCompare(Rest(x), Rest(y));
      assert KeyCompare(y, z) == KeyCompare(Rest(y), Rest(z));
      assert KeyCompare(x, z) == KeyCompare(Rest(x), Rest(z));
      KeyCompareTransitive(Rest(x), Rest(y), Rest(z));
    } else if x == [] && y == [] {
      assert KeyCompare(x, z) == KeyCompare(y, z);
    } else if y == [] && z == [] {
      assert KeyCompare(x, z) == KeyCompare(x, y);
    } else {
      assert At(x) <= At(y) && At(y) <= At(z);
    }
  }

  // ----- digit runs compare as numbers -----

  predicate AllDigits(s: string) { forall i :: 0 <= i < |s| ==> IsDigit(s[i]) }

  lemma {:induction false} ValueGrows(x: string, p: nat, y: string, q: nat)
    requires AllDigits(x) && AllDigits(y) && |x| == |y|
    requires p < q
    ensures Value(x, p) < Value(y, q)
    decreases |x|
  {
    if x != [] {
      ValueGrows(x[1..], 10 * p + Digit(x[0]), y[1..], 10 * q + Digit(y[0]));
    }
  }

  lemma {:induction false} ValueLeadingZeros(s: string)
    requires AllDigits(s)
    ensures AllDigits(StripZeros(s)) && Value(StripZeros(s), 0) == Value(s, 0)
  {
    if s != [] && s[0] == '0' { ValueLeadingZeros(s[1..]); }
  }

  lemma {:induction false} ValuePositive(s: string, acc: nat)
    requires AllDigits(s) && acc > 0
    ensures Value(s, acc) > 0
    decreases |s|
  {
    if s != [] { ValuePositive(s[1..], 10 * acc + Digit(s[0])); }
  }

  /** A longer run without leading zeros is the larger number. */
  lemma {:induction false} ValueLonger(x: string, y: string)
    requires AllDigits(x) && AllDigits(y)
    requires |x| > |y| && x[0] != '0'
    ensures Value(x, 0) > Value(y, 0)
  {
    var d := Digit(x[0]);
    assert Value(x, 0) == Value(x[1..], d);
    ValueSplit(x[1..], |x| - 1 - |y|, d);
    var head := x[1..][..|x| - 1 - |y|];
    ValuePositive(head, d);
    ValueGrows(y, 0, x[1..][|x| - 1 - |y|..], Value(head, d));
  }

  lemma {:induction false} ValueSplit(s: string, n: nat, acc: nat)
    requires AllDigits(s) && n <= |s|
    ensures Value(s, acc) == Value(s[n..], Value(s[..n], acc))
    decreases n
  {
    if n == 0 {
      assert s[0..] == s && s[..0] == [];
    } else {
      var acc' := 10 * acc + Digit(s[0]);
      ValueSplit(s[1..], n - 1, acc');
      assert s[1..][n - 1..] == s[n..] && s[1..][..n - 1] == s[..n][1..];
    }
  }

  function FirstDiff(u: string, v: string): int
    requires |u| == |v|
  {
    if u == [] then 0 else if u[0] != v[0] then u[0] as int - v[0] as int else FirstDiff(u[1..], v[1..])
  }

  lemma {:induction false} FirstDiffCompares(u: string, v: string, acc: nat)
    requires |u| == |v| && AllDigits(u) && AllDigits(v)
    ensures Sign(FirstDiff(u, v)) == Sign(Value(u, acc) - Value(v, acc))
    decreases |u|
  {
    if u != [] {
      var (p, q) := (10 * acc + Digit(u[0]), 10 * acc + Digit(v[0]));
      if p == q { FirstDiffCompares(u[1..], v[1..], p); }
      else if p < q { ValueGrows(u[1..], p, v[1..], q); }
      else { ValueGrows(v[1..], q, u[1..], p); }
    }
  }

  lemma {:induction false} DigitRunResult(x: string, y: string, first: int, room: nat)
    requires |x| + |y| <= room && (|x| + |y| < room || AtDigit(x) || AtDigit(y))
    ensures var (n, m) := (DigitsLen(x), DigitsLen(y));
            DigitRun(x, y, first, room) ==
              if n != m then Cmp(n, m)
              else
                var f := if first != 0 then first else FirstDiff(x[..n], y[..n]);
                if f != 0 then Sign(f) else VerRev(x[n..], y[n..])
    decreases |x|
  {
    var (n, m) := (DigitsLen(x), DigitsLen(y));
    if AtDigit(x) && AtDigit(y) {
      DigitRunResult(x[1..], y[1..], if first == 0 then x[0] as int - y[0] as int else first, room);
      assert x[1..][n - 1..] == x[n..] && y[1..][m - 1..] == y[m..];
      if n == m {
        assert x[..n][1..] == x[1..][..n - 1] && y[..n][1..] == y[1..][..n - 1];
      }
    } else {
      assert x[0..] == x && y[0..] == y;
    }
  }

  lemma {:induction false} StripZerosRun(s: string)
    ensures var (n, x) := (DigitsLen(s), StripZeros(s));
            var k := DigitsLen(x);
            x[..k] == StripZeros(s[..n]) && x[k..] == s[n..] && (k > 0 ==> x[0] != '0')
  {
    var n := DigitsLen(s);
    if s != [] && s[0] == '0' {
      assert n == 1 + DigitsLen(s[1..]);
      StripZerosRun(s[1..]);
      hide DigitsLen;
      assert s[..n][0] == '0' && s[..n][1..] == s[1..][..n - 1] && s[1..][n - 1..] == s[n..];
      assert StripZeros(s) == StripZeros(s[1..]) && StripZeros(s[..n]) == StripZeros(s[..n][1..]);
    } else if n > 0 {
      assert s[..n][0] == s[0];
    }
  }

  predicate NulFree(s: string) { forall i :: 0 <= i < |s| ==> s[i] as int != 0 }

  /** The number of the digit run at the front of s, 0 when there is none. */
  function RunValue(s: string): nat { Value(s[..DigitsLen(s)], 0) }

  lemma {:induction false} DigitRoundCompares(a: string, b: string)
    requires !AtNonDigit(a) && !AtNonDigit(b) && (a != [] || b != [])
    ensures var (p, q) := (RunValue(a), RunValue(b));
            DigitRun(StripZeros(a), StripZeros(b), 0, |a| + |b|) ==
              if p != q then Cmp(p, q) else VerRev(a[DigitsLen(a)..], b[DigitsLen(b)..])
  {
    hide DigitRun, VerRev, Value, StripZeros, FirstDiff, DigitsLen;
    var (x, y) := (StripZeros(a), StripZeros(b));
    StripZerosRun(a);
    StripZerosRun(b);
    var (n, m) := (DigitsLen(x), DigitsLen(y));
    ValueLeadingZeros(a[..DigitsLen(a)]);
    ValueLeadingZeros(b[..DigitsLen(b)]);
    assert RunValue(a) == Value(x[..n], 0) && RunValue(b) == Value(y[..m], 0);
    assert AtDigit(x) || AtDigit(y) || |x| + |y| < |a| + |b|;
    DigitRunResult(x, y, 0, |a| + |b|);
    if n > m { ValueLonger(x[..n], y[..m]); }
    else if n < m { ValueLonger(y[..m], x[..n]); }
    else { FirstDiffCompares(x[..n], y[..n], 0); }
  }

  /** The key of a string at a digit or at its end, one round at a time. */
  lemma KeyRound(a: string, y: seq<int>)
    requires !AtNonDigit(a)
    ensures KeyCompare(Key(a), y) == KeyCompare([0, RunValue(a)] + Key(a[DigitsLen(a)..]), y)
  {
    if a == [] {
      assert [0, 0] + [] == [0, 0];
      assert Rest([0, 0]) == [0] && Rest([0]) == [];
      assert KeyCompare(Key(a), y) == KeyCompare([0, 0], y) by {
        assert KeyCompare([], Rest(Rest(y))) == KeyCompare(Rest(Rest([0, 0])), Rest(Rest(y)));
      }
    }
  }

  lemma KeyCompareStep(a: string, b: string)
    requires NulFree(a) && NulFree(b)
    requires AtNonDigit(a) || AtNonDigit(b)
    ensures Weight(a) != Weight(b) ==> KeyCompare(Key(a), Key(b)) == Sign(Weight(a) - Weight(b))
    ensures Weight(a) == Weight(b) ==>
              AtNonDigit(a) && AtNonDigit(b) && KeyCompare(Key(a), Key(b)) == KeyCompare(Key(a[1..]), Key(b[1..]))
  {
    assert At(Key(a)) == Weight(a) && At(Key(b)) == Weight(b);
    if AtNonDigit(a) && AtNonDigit(b) {
      assert Rest(Key(a)) == Key(a[1..]) && Rest(Key(b)) == Key(b[1..]);
    }
  }

  lemma KeyCompareNumbers(p: int, u: seq<int>, q: int, v: seq<int>)
    ensures KeyCompare([0, p] + u, [0, q] + v) == if p != q then Cmp(p, q) else KeyCompare(u, v)
  {
    assert Rest([0, p] + u) == [p] + u && Rest([0, q] + v) == [q] + v;
    assert Rest([p] + u) == u && Rest([q] + v) == v;
  }

  lemma KeyCompareRound(a: string, b: string)
    requires !AtNonDigit(a) && !AtNonDigit(b)
    ensures var (p, q) := (RunValue(a), RunValue(b));
            KeyCompare(Key(a), Key(b)) ==
              if p != q then Cmp(p, q) else KeyCompare(Key(a[DigitsLen(a)..]), Key(b[DigitsLen(b)..]))
  {
    var (u, v) := (Key(a[DigitsLen(a)..]), Key(b[DigitsLen(b)..]));
    var (p, q) := (RunValue(a), RunValue(b));
    var (x, y) := ([0, p] + u, [0, q] + v);
    assert KeyCompare(Key(a), Key(b)) == KeyCompare(x, Key(b)) by { KeyRound(a, Key(b)); }
    assert KeyCompare(x, Key(b)) == KeyCompare(x, y) by {
      KeyRound(b, x);
      KeyCompareAntisymmetric(x, Key(b));
      KeyCompareAntisymmetric(y, x);
    }
    KeyCompareNumbers(p, u, q, v);
  }

  /** On strings without NUL the walk compares the keys. */
  lemma {:induction false} VerRevComparesKeys(a: string, b: string)
    requires NulFree(a) && NulFree(b)
    ensures VerRev(a, b) == KeyCompare(Key(a), Key(b))
    decreases |a| + |b|
  {
    hide DigitRun, RunValue;
    if a == [] && b == [] {
    } else if AtNonDigit(a) || AtNonDigit(b) {
      KeyCompareStep(a, b);
      if Weight(a) == Weight(b) { VerRevComparesKeys(a[1..], b[1..]); }
    } else {
      KeyCompareRound(a, b);
      DigitRoundCompares(a, b);
      VerRevComparesKeys(a[DigitsLen(a)..], b[DigitsLen(b)..]);
    }
  }

  // ----- Compare -----

  /** The epoch (digits before the first ':'), the upstream part and the revision (after the last '-'). */
  datatype Parsed = Parsed(epoch: string, upstream: string, revision: string)

  function IndexOf(s: string, c: char): (i: int)
    ensures -1 <= i < |s|
    ensures i >= 0 ==> s[i] == c
    ensures forall j :: 0 <= j < (if i < 0 then |s| else i) ==> s[j] != c
  {
    if s == [] then -1
    else if s[0] == c then 0
    else var i := IndexOf(s[1..], c); if i < 0 then -1 else i + 1
  }

  function LastIndexOf(s: string, c: char): (i: int)
    ensures -1 <= i < |s|
    ensures i >= 0 ==> s[i] == c
    ensures forall j :: i < j < |s| ==> s[j] != c
  {
    if s == [] then -1
    else if s[|s| - 1] == c then |s| - 1
    else LastIndexOf(s[..|s| - 1], c)
  }

  function Parse(v: string): Parsed {
    var i := IndexOf(v, ':');
    var hasEpoch := i > 0 && AllDigits(v[..i]);
    var rest := if hasEpoch then v[i + 1..] else v;
    var d := LastIndexOf(rest, '-');
    Parsed(if hasEpoch then v[..i] else "",
           if d >= 0 then rest[..d] else rest, if d >= 0 then rest[d + 1..] else "")
  }

  /** Digit strings compared without converting them: zeros stripped, then by length, then byte by byte. */
  function CompareNumeric(a: string, b: string): int {
    var (x, y) := (StripZeros(a), StripZeros(b));
    if |x| != |y| then (if |x| < |y| then -1 else 1)
    else if Less(x, y) then -1
    else if Less(y, x) then 1
    else 0
  }

  /** -1, 0 or 1: epochs first, then upstream parts, then revisions. */
  function Compare(a: string, b: string): int {
    var (x, y) := (Parse(a), Parse(b));
    if CompareNumeric(x.epoch, y.epoch) != 0 then CompareNumeric(x.epoch, y.epoch)
    else if VerRev(x.upstream, y.upstream) != 0 then VerRev(x.upstream, y.upstream)
    else VerRev(x.revision, y.revision)
  }

  lemma {:induction false} LessIsFirstDiff(x: string, y: string)
    requires |x| == |y|
    ensures Less(x, y) <==> FirstDiff(x, y) < 0
    ensures Less(y, x) <==> FirstDiff(x, y) > 0
    decreases |x|
  {
    if x != [] && x[0] == y[0] { LessIsFirstDiff(x[1..], y[1..]); }
  }

  lemma {:induction false} StripZerosFirst(s: string)
    ensures StripZeros(s) != [] ==> StripZeros(s)[0] != '0'
  {
    if s != [] && s[0] == '0' { StripZerosFirst(s[1..]); }
  }

  lemma CompareNumericIsCmp(a: string, b: string)
    requires AllDigits(a) && AllDigits(b)
    ensures CompareNumeric(a, b) == Cmp(Value(a, 0), Value(b, 0))
  {
    var (x, y) := (StripZeros(a), StripZeros(b));
    ValueLeadingZeros(a);
    ValueLeadingZeros(b);
    StripZerosFirst(a);
    StripZerosFirst(b);
    if |x| > |y| { ValueLonger(x, y); }
    else if |x| < |y| { ValueLonger(y, x); }
    else {
      FirstDiffCompares(x, y, 0);
      LessIsFirstDiff(x, y);
    }
  }

  /** A version as numbers: Compare is the lexicographic comparison of these. */
  datatype VersionKey = VersionKey(epoch: nat, upstream: seq<int>, revision: seq<int>)

  function KeyOf(v: string): VersionKey {
    var p := Parse(v);
    VersionKey(Value(p.epoch, 0), Key(p.upstream), Key(p.revision))
  }

  function CompareKeys(x: VersionKey, y: VersionKey): int {
    if x.epoch != y.epoch then Cmp(x.epoch, y.epoch)
    else if KeyCompare(x.upstream, y.upstream) != 0 then KeyCompare(x.upstream, y.upstream)
    else KeyCompare(x.revision, y.revision)
  }

  lemma ParseKeepsNulFree(v: string)
    requires NulFree(v)
    ensures AllDigits(Parse(v).epoch) && NulFree(Parse(v).upstream) && NulFree(Parse(v).revision)
  {
    hide IndexOf, LastIndexOf;
  }

  lemma CompareComparesKeys(a: string, b: string)
    requires NulFree(a) && NulFree(b)
    ensures Compare(a, b) == CompareKeys(KeyOf(a), KeyOf(b))
  {
    var (x, y) := (Parse(a), Parse(b));
    ParseKeepsNulFree(a);
    ParseKeepsNulFree(b);
    CompareNumericIsCmp(x.epoch, y.epoch);
    VerRevComparesKeys(x.upstream, y.upstream);
    VerRevComparesKeys(x.revision, y.revision);
  }

  /** Swapping the arguments negates the walk, NUL bytes and all. */
  lemma {:induction false} VerRevAntisymmetric(a: string, b: string)
    ensures VerRev(a, b) == -VerRev(b, a)
    decreases |a| + |b|, 3
  {
    if a != [] || b != [] { NonDigitAntisymmetric(a, b); }
  }

  lemma {:induction false} NonDigitAntisymmetric(a: string, b: string)
    requires a != [] || b != []
    ensures NonDigitRun(a, b) == -NonDigitRun(b, a)
    decreases |a| + |b|, 2
  {
    if AtNonDigit(a) || AtNonDigit(b) {
      if Weight(a) == Weight(b) && (Tail(a) != [] || Tail(b) != []) { NonDigitAntisymmetric(Tail(a), Tail(b)); }
    } else {
      DigitRunAntisymmetric(StripZeros(a), StripZeros(b), 0, |a| + |b|);
    }
  }

  lemma {:induction false} DigitRunAntisymmetric(a: string, b: string, first: int, room: nat)
    requires |a| + |b| <= room && (|a| + |b| < room || AtDigit(a) || AtDigit(b))
    ensures DigitRun(a, b, first, room) == -DigitRun(b, a, -first, room)
    decreases room, 1, |a| + |b|
  {
    if AtDigit(a) && AtDigit(b) {
      DigitRunAntisymmetric(a[1..], b[1..], if first == 0 then a[0] as int - b[0] as int else first, room);
    } else if !AtDigit(a) && !AtDigit(b) && first == 0 {
      VerRevAntisymmetric(a, b);
    }
  }

  lemma CompareReflexive(a: string)
    ensures Compare(a, a) == 0
  {
    CompareAntisymmetric(a, a);
  }

  lemma CompareAntisymmetric(a: string, b: string)
    ensures Compare(a, b) == -Compare(b, a)
  {
    hide VerRev, CompareNumeric, Value;
    var (x, y) := (Parse(a), Parse(b));
    CompareNumericIsCmp(x.epoch, y.epoch);
    CompareNumericIsCmp(y.epoch, x.epoch);
    VerRevAntisymmetric(x.upstream, y.upstream);
    VerRevAntisymmetric(x.revision, y.revision);
  }

  lemma CompareTransitive(a: string, b: string, c: string)
    requires NulFree(a) && NulFree(b) && NulFree(c)
    requires Compare(a, b) <= 0 && Compare(b, c) <= 0
    ensures Compare(a, c) <= 0
    ensures Compare(a, c) == 0 ==> Compare(a, b) == 0 && Compare(b, c) == 0
  {
    CompareComparesKeys(a, b);
    CompareComparesKeys(b, c);
    CompareComparesKeys(a, c);
    var (x, y, z) := (KeyOf(a), KeyOf(b), KeyOf(c));
    assert x.epoch <= y.epoch <= z.epoch;
    if x.epoch == y.epoch == z.epoch {
      KeyCompareTransitive(x.upstream, y.upstream, z.upstream);
      if KeyCompare(x.upstream, z.upstream) == 0 {
        KeyCompareTransitive(x.revision, y.revision, z.revision);
      }
    }
  }

  // ----- the exact condition -----

  predicate Over(s: string, alphabet: set<char>) { forall i :: 0 <= i < |s| ==> s[i] in alphabet }

  ghost predicate TransitiveOver(alphabet: set<char>) {
    forall a, b, c | Over(a, alphabet) && Over(b, alphabet) && Over(c, alphabet) ::
      Compare(a, b) <= 0 && Compare(b, c) <= 0 ==> Compare(a, c) <= 0
  }

  const NUL: char := 0 as char

  /** A NUL weighs what a digit weighs, so the walk steps over the digit opposite it. */
  lemma NulEqualsEveryDigit(d: char)
    requires IsDigit(d)
    ensures Compare([NUL], [d]) == 0 && Compare([d], [NUL]) == 0
  {
    assert Parse([NUL]) == Parsed("", [NUL], "");
    assert Parse([d]) == Parsed("", [d], "");
    assert StripZeros("") == "";
    assert NonDigitRun([NUL], [d]) == 0 && NonDigitRun([d], [NUL]) == 0;
    assert VerRev("", "") == 0;
  }

  lemma OneBeforeTwo()
    ensures Compare("2", "1") == 1
  {
    assert Parse("1") == Parsed("", "1", "") && Parse("2") == Parsed("", "2", "");
    assert StripZeros("1") == "1" && StripZeros("2") == "2" && StripZeros("") == "";
    assert "1"[1..] == "" && "2"[1..] == "";
    assert DigitRun("2", "1", 0, 2) == DigitRun("", "", 1, 2) == 1;
    assert NonDigitRun("2", "1") == 1;
  }

  /** Over an alphabet with the digits, Compare is transitive exactly when the alphabet has no NUL. */
  lemma TransitiveExactlyWithoutNul(alphabet: set<char>)
    requires forall d :: IsDigit(d) ==> d in alphabet
    ensures TransitiveOver(alphabet) <==> NUL !in alphabet
  {
    hide Compare;
    if NUL !in alphabet {
      forall a, b, c | Over(a, alphabet) && Over(b, alphabet) && Over(c, alphabet)
                       && Compare(a, b) <= 0 && Compare(b, c) <= 0
        ensures Compare(a, c) <= 0
      {
        CompareTransitive(a, b, c);
      }
    } else {
      NulEqualsEveryDigit('1');
      NulEqualsEveryDigit('2');
      OneBeforeTwo();
      assert Over("2", alphabet) && Over([NUL], alphabet) && Over("1", alphabet);
    }
  }
}
