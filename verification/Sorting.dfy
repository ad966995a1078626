/** Ordering the elements of a list or a set by a strict total order given as a function. */
module Sorting {

  ghost predicate StrictOn<T(!new)>(lt: (T, T) -> bool, xs: set<T>) {
    && (forall x, y :: x in xs && y in xs ==> !(lt(x, y) && lt(y, x)))
    && (forall x, y :: x in xs && y in xs && x != y ==> lt(x, y) || lt(y, x))
    && (forall x, y, z :: x in xs && y in xs && z in xs && lt(x, y) && lt(y, z) ==> lt(x, z))
  }

  ghost function Elements<T>(s: seq<T>): set<T> { set x | x in s }

  lemma ElementsNext<T>(s: seq<T>, i: nat)
    requires i < |s|
    ensures s[i] in Elements(s) && Elements(s[..i + 1]) == Elements(s[..i]) + {s[i]}
  {
    assert s[..i + 1] == s[..i] + [s[i]];
  }

  ghost predicate Ordered<T>(lt: (T, T) -> bool, s: seq<T>) {
    forall i, j :: 0 <= i < j < |s| ==> lt(s[i], s[j])
  }

  ghost predicate Distinct<T>(s: seq<T>) { forall i, j :: 0 <= i < j < |s| ==> s[i] != s[j] }

  // ----- lists -----

  function Insert<T>(lt: (T, T) -> bool, x: T, s: seq<T>): seq<T> {
    if s == [] then [x] else if lt(x, s[0]) then [x] + s else [s[0]] + Insert(lt, x, s[1..])
  }

  function Sort<T>(lt: (T, T) -> bool, s: seq<T>): seq<T> {
    if s == [] then [] else Insert(lt, s[0], Sort(lt, s[1..]))
  }

  lemma {:induction false} InsertElements<T>(lt: (T, T) -> bool, x: T, s: seq<T>)
    ensures forall y :: y in Insert(lt, x, s) <==> y == x || y in s
  {
    if s != [] && !lt(x, s[0]) { InsertElements(lt, x, s[1..]); }
  }

  lemma {:induction false} InsertOrdered<T(!new)>(lt: (T, T) -> bool, xs: set<T>, x: T, s: seq<T>)
    requires StrictOn(lt, xs) && x in xs && (forall y :: y in s ==> y in xs) && Ordered(lt, s) && x !in s
    ensures Ordered(lt, Insert(lt, x, s))
    decreases |s|
  {
    if s == [] {
    } else if lt(x, s[0]) {
      assert forall j :: 0 <= j < |s| ==> s[j] in xs && (j > 0 ==> lt(s[0], s[j]));
    } else {
      var (rest, t) := (s[1..], Insert(lt, x, s[1..]));
      assert s[0] in s && lt(s[0], x);
      InsertElements(lt, x, rest);
      InsertOrdered(lt, xs, x, rest);
      forall j | 0 <= j < |t| ensures lt(s[0], t[j]) {
        assert t[j] in t;
        assert t[j] == x || t[j] in rest;
      }
    }
  }

  lemma {:induction false} SortOrders<T(!new)>(lt: (T, T) -> bool, s: seq<T>)
    requires StrictOn(lt, Elements(s)) && Distinct(s)
    ensures Ordered(lt, Sort(lt, s)) && Elements(Sort(lt, s)) == Elements(s)
    decreases |s|
  {
    if s != [] {
      var (rest, t) := (s[1..], Sort(lt, s[1..]));
      assert Elements(s) == {s[0]} + Elements(rest);
      SortOrders(lt, rest);
      assert forall y :: y in t <==> y in Elements(t);
      assert s[0] !in rest;
      InsertElements(lt, s[0], t);
      InsertOrdered(lt, Elements(s), s[0], t);
    }
  }

  lemma {:induction false} SortElements<T>(lt: (T, T) -> bool, s: seq<T>)
    ensures Elements(Sort(lt, s)) == Elements(s)
  {
    if s != [] {
      var (rest, t) := (s[1..], Sort(lt, s[1..]));
      assert Elements(s) == {s[0]} + Elements(rest);
      SortElements(lt, rest);
      assert forall y :: y in t <==> y in Elements(t);
      InsertElements(lt, s[0], t);
      assert Elements(Sort(lt, s)) == {s[0]} + Elements(t);
    }
  }

  // ----- sets -----

  lemma {:induction false} LeastExists<T(!new)>(lt: (T, T) -> bool, xs: set<T>)
    requires StrictOn(lt, xs) && xs != {}
    ensures exists m :: m in xs && forall y :: y in xs && y != m ==> lt(m, y)
    decreases |xs|
  {
    var x :| x in xs;
    var rest := xs - {x};
    if rest == {} {
      assert forall y :: y in xs && y != x ==> y in rest;
    } else {
      LeastExists(lt, rest);
      var m :| m in rest && forall y :: y in rest && y != m ==> lt(m, y);
      var least := if lt(x, m) then x else m;
      forall y | y in xs && y != least ensures lt(least, y) {
        assert y == x || y in rest;
      }
    }
  }

  lemma PrependLeast<T(!new)>(lt: (T, T) -> bool, xs: set<T>, m: T, rest: seq<T>)
    requires m in xs && (forall y :: y in xs && y != m ==> lt(m, y))
    requires Ordered(lt, rest) && Elements(rest) == xs - {m} && |rest| == |xs - {m}|
    ensures Ordered(lt, [m] + rest) && Elements([m] + rest) == xs && |[m] + rest| == |xs|
  {
    forall j | 0 <= j < |rest| ensures lt(m, rest[j]) {
      assert rest[j] in Elements(rest);
    }
    assert Elements([m] + rest) == {m} + Elements(rest);
  }

  /** SELECT ... ORDER BY: the elements of xs in increasing order. */
  function SortedSeq<T(!new)>(lt: (T, T) -> bool, xs: set<T>): (s: seq<T>)
    requires StrictOn(lt, xs)
    ensures Ordered(lt, s) && Elements(s) == xs && |s| == |xs|
    decreases |xs|
  {
    if xs == {} then []
    else
      LeastExists(lt, xs);
      var m :| m in xs && forall y :: y in xs && y != m ==> lt(m, y);
      var rest := SortedSeq(lt, xs - {m});
      PrependLeast(lt, xs, m, rest);
      [m] + rest
  }

  lemma OrderedDistinct<T(!new)>(lt: (T, T) -> bool, s: seq<T>)
    requires StrictOn(lt, Elements(s)) && Ordered(lt, s)
    ensures Distinct(s)
  {
    forall i, j | 0 <= i < j < |s| ensures s[i] != s[j] {
      assert s[i] in Elements(s) && lt(s[i], s[j]);
    }
  }

  lemma FirstIsLeast<T>(lt: (T, T) -> bool, s: seq<T>)
    requires Ordered(lt, s) && s != []
    ensures forall y :: y in s ==> y == s[0] || lt(s[0], y)
  {
  }

  /** An ordered list is determined by its elements. */
  lemma {:induction false} OrderedUnique<T(!new)>(lt: (T, T) -> bool, s: seq<T>, t: seq<T>)
    requires StrictOn(lt, Elements(s)) && Ordered(lt, s) && Ordered(lt, t) && Elements(s) == Elements(t)
    ensures s == t
    decreases |s|
  {
    assert forall y :: y in s <==> y in Elements(s);
    assert forall y :: y in t <==> y in Elements(t);
    if s != [] { assert s[0] in Elements(s); }
    if t != [] { assert t[0] in Elements(t); }
    if s != [] && t != [] {
      assert s[0] in t && t[0] in s;
      FirstIsLeast(lt, s);
      FirstIsLeast(lt, t);
      OrderedDistinct(lt, s);
      OrderedDistinct(lt, t);
      forall y ensures y in s[1..] <==> y in t[1..] {
        assert y in s[1..] <==> y in s && y != s[0];
        assert y in t[1..] <==> y in t && y != t[0];
      }
      OrderedUnique(lt, s[1..], t[1..]);
      assert s == [s[0]] + s[1..] && t == [t[0]] + t[1..];
    }
  }
}
