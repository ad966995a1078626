/** The newest-N version set that bounded prefetch and url_path retention share: the code's
    deduplicate, sort and count, against the rank of each version's equivalence class. */
module NewestN {
  import opened Text
  import opened Sorting
  import Versions

  const DEFAULT_MAX_VERSIONS := 3

  /** An unset or invalid N is the shared default. */
  function Cap(n: int): nat { if n < 1 then DEFAULT_MAX_VERSIONS else n }

  type Comparator = (string, string) -> int

  /** cmp orders the versions of vs as a total preorder. */
  ghost predicate AntisymmetricOn(cmp: Comparator, vs: set<string>) {
    forall u, v :: u in vs && v in vs ==> cmp(u, v) == -cmp(v, u)
  }

  ghost predicate PreorderOn(cmp: Comparator, vs: set<string>) {
    && AntisymmetricOn(cmp, vs)
    && (forall u, v, w :: u in vs && v in vs && w in vs && cmp(u, v) <= 0 && cmp(v, w) <= 0 ==> cmp(u, w) <= 0)
  }

  /** The versions of vs that cmp holds equal to v. */
  ghost function Class(cmp: Comparator, vs: set<string>, v: string): set<string> {
    set u | u in vs && cmp(u, v) == 0
  }

  ghost function NewerClasses(cmp: Comparator, vs: set<string>, v: string): set<set<string>> {
    set u | u in vs && cmp(u, v) > 0 :: Class(cmp, vs, u)
  }

  /** The versions with fewer than N strictly newer equivalence classes. */
  ghost function NewestBy(cmp: Comparator, vs: set<string>, n: int): set<string> {
    set v | v in vs && |NewerClasses(cmp, vs, v)| < Cap(n)
  }

  // ----- equivalence -----

  lemma SameClass(cmp: Comparator, vs: set<string>, u: string, v: string)
    requires PreorderOn(cmp, vs) && u in vs && v in vs && cmp(u, v) == 0
    ensures Class(cmp, vs, u) == Class(cmp, vs, v) && NewerClasses(cmp, vs, u) == NewerClasses(cmp, vs, v)
  {
    forall w | w in vs ensures (cmp(w, u) <= 0 <==> cmp(w, v) <= 0) && (cmp(w, u) >= 0 <==> cmp(w, v) >= 0) {
      assert cmp(w, u) == -cmp(u, w) && cmp(w, v) == -cmp(v, w) && cmp(v, u) == 0;
    }
  }

  /** Newest keeps or drops each equivalence class as a whole. */
  lemma KeepsClassesWhole(cmp: Comparator, vs: set<string>, n: int, u: string, v: string)
    requires PreorderOn(cmp, vs) && u in vs && v in vs && cmp(u, v) == 0
    ensures u in NewestBy(cmp, vs, n) <==> v in NewestBy(cmp, vs, n)
  {
    SameClass(cmp, vs, u, v);
  }

  lemma SubsetSize<T>(a: set<T>, b: set<T>)
    requires a <= b
    ensures |a| <= |b|
  {
    assert b == a + (b - a);
    assert |b| == |a| + |b - a|;
  }

  lemma OlderHasMoreAbove(cmp: Comparator, vs: set<string>, u: string, v: string)
    requires PreorderOn(cmp, vs) && u in vs && v in vs && cmp(u, v) >= 0
    ensures NewerClasses(cmp, vs, u) <= NewerClasses(cmp, vs, v)
    ensures |NewerClasses(cmp, vs, u)| <= |NewerClasses(cmp, vs, v)|
  {
    forall w | w in vs && cmp(w, u) > 0 ensures cmp(w, v) > 0 {
      assert cmp(w, u) == -cmp(u, w) && cmp(w, v) == -cmp(v, w) && cmp(v, u) <= 0;
    }
    SubsetSize(NewerClasses(cmp, vs, u), NewerClasses(cmp, vs, v));
  }

  lemma OwnClassIsNotNewer(cmp: Comparator, vs: set<string>, u: string)
    requires PreorderOn(cmp, vs) && u in vs
    ensures Class(cmp, vs, u) !in NewerClasses(cmp, vs, u)
  {
    assert cmp(u, u) == 0;
    forall w | w in vs && cmp(w, u) > 0 ensures Class(cmp, vs, w) != Class(cmp, vs, u) {
      assert u in Class(cmp, vs, u) && u !in Class(cmp, vs, w);
    }
  }

  // ----- sorting, newest first -----

  /** The sort's order: newer first, equal versions by their text. */
  function Before(cmp: Comparator): (string, string) -> bool {
    (u, v) => cmp(u, v) > 0 || (cmp(u, v) == 0 && Less(u, v))
  }

  lemma BeforeIsStrict(cmp: Comparator, vs: set<string>)
    requires PreorderOn(cmp, vs)
    ensures StrictOn(Before(cmp), vs)
  {
    var lt := Before(cmp);
    forall u, v | u in vs && v in vs ensures !(lt(u, v) && lt(v, u)) && (u != v ==> lt(u, v) || lt(v, u)) {
      assert cmp(u, v) == -cmp(v, u);
      LessTotal(u, v);
      LessAsymmetric(u, v);
    }
    forall u, v, w | u in vs && v in vs && w in vs && lt(u, v) && lt(v, w) ensures lt(u, w) {
      assert cmp(u, v) == -cmp(v, u) && cmp(v, w) == -cmp(w, v) && cmp(u, w) == -cmp(w, u);
      if cmp(u, w) == 0 { LessTransitive(u, v, w); }
    }
  }

  /** What the count needs of the sorted list: it never goes from older to newer. */
  ghost predicate NewestFirst(cmp: Comparator, d: seq<string>) {
    forall i, j :: 0 <= i < j < |d| ==> cmp(d[i], d[j]) >= 0
  }

  // ----- the count -----

  /** Crossing into an older class adds exactly the class just left. */
  lemma NextClass(cmp: Comparator, d: seq<string>, i: nat)
    requires PreorderOn(cmp, Elements(d)) && NewestFirst(cmp, d) && 0 < i < |d|
    ensures var vs := Elements(d);
            && (cmp(d[i - 1], d[i]) == 0 ==> NewerClasses(cmp, vs, d[i]) == NewerClasses(cmp, vs, d[i - 1]))
            && (cmp(d[i - 1], d[i]) != 0 ==>
                  |NewerClasses(cmp, vs, d[i])| == |NewerClasses(cmp, vs, d[i - 1])| + 1)
  {
    var (vs, u, v) := (Elements(d), d[i - 1], d[i]);
    assert u in vs && v in vs;
    if cmp(u, v) == 0 {
      SameClass(cmp, vs, u, v);
    } else {
      OlderHasMoreAbove(cmp, vs, u, v);
      var (c, above, below) := (Class(cmp, vs, u), NewerClasses(cmp, vs, u), NewerClasses(cmp, vs, v));
      forall w | w in vs && cmp(w, v) > 0 ensures Class(cmp, vs, w) in above + {c} {
        NewerOrLeft(cmp, d, i, w);
      }
      assert below == above + {c};
      OwnClassIsNotNewer(cmp, vs, u);
    }
  }

  lemma NewerOrLeft(cmp: Comparator, d: seq<string>, i: nat, w: string)
    requires PreorderOn(cmp, Elements(d)) && NewestFirst(cmp, d) && 0 < i < |d| && w in d && cmp(w, d[i]) > 0
    ensures Class(cmp, Elements(d), w) in NewerClasses(cmp, Elements(d), d[i - 1]) + {Class(cmp, Elements(d), d[i - 1])}
  {
    var (vs, u) := (Elements(d), d[i - 1]);
    var j :| 0 <= j < |d| && d[j] == w;
    assert d[i] in vs && u in vs && w in vs;
    NewerIsEarlier(cmp, d, i, j);
    if cmp(w, u) == 0 { SameClass(cmp, vs, w, u); }
  }

  lemma NewerIsEarlier(cmp: Comparator, d: seq<string>, i: nat, j: nat)
    requires NewestFirst(cmp, d) && 0 < i < |d| && j < |d|
    requires cmp(d[j], d[i]) > 0 && cmp(d[j], d[i]) == -cmp(d[i], d[j]) && cmp(d[j], d[j]) == 0
    ensures cmp(d[j], d[i - 1]) >= 0
  {
  }

  lemma NewestOfAll(cmp: Comparator, d: seq<string>)
    requires AntisymmetricOn(cmp, Elements(d)) && NewestFirst(cmp, d) && d != []
    ensures NewerClasses(cmp, Elements(d), d[0]) == {}
  {
    forall w | w in Elements(d) ensures cmp(w, d[0]) <= 0 {
      var j :| 0 <= j < |d| && d[j] == w;
      assert d[0] in Elements(d);
      assert cmp(w, d[0]) == -cmp(d[0], w) && cmp(w, w) == 0;
    }
  }

  ghost function Rank(cmp: Comparator, d: seq<string>, i: nat): nat
    requires i < |d|
  {
    |NewerClasses(cmp, Elements(d), d[i])|
  }

  /** The newest N are a prefix of the sorted list: up to the first element whose rank reaches the cap. */
  lemma KeptPrefix(cmp: Comparator, d: seq<string>, i: nat, n: int)
    requires PreorderOn(cmp, Elements(d)) && NewestFirst(cmp, d) && i <= |d|
    requires forall j :: 0 <= j < i ==> Rank(cmp, d, j) < Cap(n)
    requires i < |d| ==> Rank(cmp, d, i) >= Cap(n)
    ensures NewestBy(cmp, Elements(d), n) == Elements(d[..i])
  {
    hide PreorderOn, NewestFirst, NewerClasses;
    var vs := Elements(d);
    forall w | w in NewestBy(cmp, vs, n) ensures w in d[..i] {
      var j :| 0 <= j < |d| && d[j] == w;
      if j >= i { RankGrows(cmp, d, i, j); }
    }
    forall w | w in d[..i] ensures w in NewestBy(cmp, vs, n) {
      var j :| 0 <= j < i && d[j] == w;
      assert Rank(cmp, d, j) < Cap(n);
    }
  }

  lemma RankGrows(cmp: Comparator, d: seq<string>, i: nat, j: nat)
    requires PreorderOn(cmp, Elements(d)) && NewestFirst(cmp, d) && i <= j < |d|
    ensures Rank(cmp, d, i) <= Rank(cmp, d, j)
  {
    assert d[i] in Elements(d) && d[j] in Elements(d) && cmp(d[j], d[j]) == 0;
    OlderHasMoreAbove(cmp, Elements(d), d[i], d[j]);
  }

  lemma {:induction false} CountStep(cmp: Comparator, d: seq<string>, i: nat, classes: nat)
    requires PreorderOn(cmp, Elements(d)) && NewestFirst(cmp, d) && i < |d|
    requires i == 0 ==> classes == 0
    requires i > 0 ==> classes == Rank(cmp, d, i - 1)
    ensures (if i > 0 && cmp(d[i - 1], d[i]) != 0 then classes + 1 else classes) == Rank(cmp, d, i)
  {
    if i > 0 { NextClass(cmp, d, i); } else { NewestOfAll(cmp, d); }
  }

  method Deduplicate(versions: seq<string>) returns (distinct: seq<string>)
    ensures Elements(distinct) == Elements(versions)
    ensures forall i, j :: 0 <= i < j < |distinct| ==> distinct[i] != distinct[j]
  {
    var seen: set<string> := {};
    distinct := [];
    for k := 0 to |versions|
      invariant seen == Elements(versions[..k]) == Elements(distinct)
      invariant forall i, j :: 0 <= i < j < |distinct| ==> distinct[i] != distinct[j]
    {
      var v := versions[k];
      assert versions[..k + 1] == versions[..k] + [v];
      if v !in seen {
        seen := seen + {v};
        distinct := distinct + [v];
      }
    }
    assert versions[..|versions|] == versions;
  }

  /** The count over the sorted list: a class boundary takes one of the cap's slots. */
  method TakeClasses(cmp: Comparator, sorted: seq<string>, n: int) returns (keep: set<string>)
    ensures keep <= Elements(sorted) && (sorted != [] ==> sorted[0] in keep)
    ensures PreorderOn(cmp, Elements(sorted)) && NewestFirst(cmp, sorted) ==> keep == NewestBy(cmp, Elements(sorted), n)
  {
    hide PreorderOn, NewestFirst, NewerClasses, NewestBy;
    ghost var ranked := PreorderOn(cmp, Elements(sorted)) && NewestFirst(cmp, sorted);
    keep := {};
    var classes := 0;
    var i := 0;
    while i < |sorted|
      invariant 0 <= i <= |sorted|
      invariant i == 0 ==> classes == 0
      invariant ranked && i > 0 ==> classes == Rank(cmp, sorted, i - 1)
      invariant ranked ==> forall j :: 0 <= j < i ==> Rank(cmp, sorted, j) < Cap(n)
      invariant keep == Elements(sorted[..i])
    {
      if ranked { CountStep(cmp, sorted, i, classes); }
      if i > 0 && cmp(sorted[i - 1], sorted[i]) != 0 { classes := classes + 1; }
      if classes >= Cap(n) { break; }
      ElementsNext(sorted, i);
      keep := keep + {sorted[i]};
      i := i + 1;
    }
    if ranked { KeptPrefix(cmp, sorted, i, n); }
    assert i > 0 ==> sorted[..i][0] == sorted[0];
  }

  // ----- with Debian's order -----

  predicate AllNulFree(vs: set<string>) { forall v :: v in vs ==> Versions.NulFree(v) }

  /** What the sort needs of its comparison: Debian's order ranks these versions consistently. */
  ghost predicate DebianRanks(vs: set<string>) { PreorderOn(Versions.Compare, vs) }

  /** Versions without NUL are ranked consistently, whatever they are. */
  lemma DebianPreorder(vs: set<string>)
    requires AllNulFree(vs)
    ensures DebianRanks(vs)
  {
    hide Versions.Compare, Versions.NulFree;
    DebianAntisymmetric(vs);
    forall u, v, w | u in vs && v in vs && w in vs && Versions.Compare(u, v) <= 0 && Versions.Compare(v, w) <= 0
      ensures Versions.Compare(u, w) <= 0
    {
      Versions.CompareTransitive(u, v, w);
    }
  }

  lemma DebianAntisymmetric(vs: set<string>)
    ensures AntisymmetricOn(Versions.Compare, vs)
  {
    hide Versions.Compare;
    forall u, v | u in vs && v in vs ensures Versions.Compare(u, v) == -Versions.Compare(v, u) {
      Versions.CompareAntisymmetric(u, v);
    }
  }

  /** The set both consumers keep: newest N under Debian's version order. */
  ghost function Newest(vs: set<string>, n: int): set<string> { NewestBy(Versions.Compare, vs, n) }

  /** keepNewestNVersionSet: the result depends only on which versions the list holds. */
  method KeepNewest(versions: seq<string>, n: int) returns (keep: set<string>)
    ensures keep <= Elements(versions) && (versions != [] ==> keep != {})
    ensures DebianRanks(Elements(versions)) ==> keep == Newest(Elements(versions), n)
  {
    hide Versions.Compare;
    var distinct := Deduplicate(versions);
    assert versions != [] ==> versions[0] in Elements(distinct);
    if DebianRanks(Elements(versions)) {
      BeforeIsStrict(Versions.Compare, Elements(distinct));
      SortOrders(Before(Versions.Compare), distinct);
    }
    SortElements(Before(Versions.Compare), distinct);
    var sorted := Sort(Before(Versions.Compare), distinct);
    keep := TakeClasses(Versions.Compare, sorted, n);
  }
}
