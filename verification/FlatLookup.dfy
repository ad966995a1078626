/** The suffix fallback of the declared-hash lookup: a flat repository's package requested below any
    ancestor of its Release directory is found by its file name, the longest base winning. */
module FlatLookup {
  import opened Text
  import opened Sorting
  import opened Tables
  import SuitePaths

  const MAX_FALLBACK_SEGMENTS: nat := 32
  const MAX_SUITE_PATH_BYTES: nat := 1024
  const MAX_FILENAME_BYTES: nat := 4096
  const MAX_FALLBACK_PATH_BYTES: nat := MAX_SUITE_PATH_BYTES + 1 + MAX_FILENAME_BYTES

  // ----- dot-cleaning -----

  function WithoutDots(segs: seq<string>): (r: seq<string>)
    ensures forall i :: 0 <= i < |r| ==> r[i] in segs && r[i] != "."
    ensures |r| <= |segs|
  {
    if segs == [] then []
    else if segs[0] == "." then WithoutDots(segs[1..])
    else [segs[0]] + WithoutDots(segs[1..])
  }

  function DotClean(p: string): string { Join(WithoutDots(Split(p))) }

  lemma {:induction false} WithoutDotsNext(segs: seq<string>, i: nat)
    requires i < |segs|
    ensures WithoutDots(segs[..i + 1]) == WithoutDots(segs[..i]) + (if segs[i] == "." then [] else [segs[i]])
  {
    if i > 0 {
      assert segs[..i + 1][1..] == segs[1..][..i] && segs[..i][1..] == segs[1..][..i - 1];
      WithoutDotsNext(segs[1..], i - 1);
    } else {
      assert segs[..1] == [segs[0]] && segs[..0] == [];
    }
  }

  /** The in-place compaction: kept segments move to the front of the split's own slice. */
  method CompactSegments(segs: array<string>) returns (n: nat)
    modifies segs
    ensures n <= segs.Length && segs[..n] == WithoutDots(old(segs[..]))
  {
    n := 0;
    ghost var all := segs[..];
    for i := 0 to segs.Length
      invariant n <= i && segs[i..] == all[i..]
      invariant segs[..n] == WithoutDots(all[..i])
    {
      var s := segs[i];
      assert s == segs[i..][0] == all[i];
      WithoutDotsNext(all, i);
      if s != "." {
        ghost var kept := segs[..n];
        segs[n] := s;
        n := n + 1;
        assert segs[..n] == kept + [s];
      }
    }
    assert all[..segs.Length] == all;
  }

  lemma {:induction false} PlainIsUnchanged(segs: seq<string>)
    requires forall i :: 0 <= i < |segs| ==> segs[i] != "."
    ensures WithoutDots(segs) == segs
  {
    if segs != [] { PlainIsUnchanged(segs[1..]); }
  }

  /** Cleaning leaves exactly the other segments, in order, or the empty path without any; cleaning again changes
      nothing. */
  lemma DotCleanSegments(p: string)
    ensures Split(DotClean(p)) == if WithoutDots(Split(p)) == [] then [""] else WithoutDots(Split(p))
    ensures DotClean(DotClean(p)) == DotClean(p)
  {
    var segs := WithoutDots(Split(p));
    PlainIsUnchanged(segs);
    if segs != [] { SplitJoin(segs); }
  }

  lemma {:induction false} CleanIsNotLonger(segs: seq<string>)
    ensures |Join(WithoutDots(segs))| <= |Join(segs)|
  {
    if |segs| > 1 {
      CleanIsNotLonger(segs[1..]);
      if segs[0] != "." {
        var rest := WithoutDots(segs[1..]);
        assert ([segs[0]] + rest)[1..] == rest;
      }
    } else if |segs| == 1 {
      assert WithoutDots(segs[1..]) == [];
    }
  }

  // ----- segments by position -----

  /** p[i..j] is a whole segment of p. */
  predicate SegmentAt(p: string, i: nat, j: nat) {
    i <= j <= |p| && (i == 0 || p[i - 1] == '/') && (j == |p| || p[j] == '/')
    && forall x :: i <= x < j ==> p[x] != '/'
  }

  predicate Sound(seg: string) { seg != "" && seg != ".." }

  /** Every segment from position k on is neither empty nor "..". */
  ghost predicate SoundFrom(p: string, k: nat) {
    forall i: nat, j: nat :: k <= i && SegmentAt(p, i, j) ==> Sound(p[i..j])
  }

  /** A suffix that starts a segment has the same segments. */
  lemma SuffixSound(p: string, k: nat)
    requires 1 <= k <= |p| && p[k - 1] == '/'
    ensures SoundFrom(p[k..], 0) <==> SoundFrom(p, k)
  {
    var f := p[k..];
    forall i: nat, j: nat | k <= i <= j <= |p| ensures SegmentAt(p, i, j) <==> SegmentAt(f, i - k, j - k) {
      forall x: nat | i <= x < j ensures p[x] == f[x - k] {}
      forall x: nat | i - k <= x < j - k ensures f[x] == p[x + k] {}
    }
    forall i: nat, j: nat | k <= i && SegmentAt(p, i, j)
      ensures SegmentAt(f, i - k, j - k) && f[i - k..j - k] == p[i..j] {}
    forall i: nat, j: nat | SegmentAt(f, i, j) ensures SegmentAt(p, i + k, j + k) && p[i + k..j + k] == f[i..j] {}
  }

  lemma SegmentInSplit(p: string, i: nat, j: nat)
    requires SegmentAt(p, i, j)
    ensures p[i..j] in Split(p)
  {
    var tail := p[i..];
    SplitPlain(p[i..j]);
    if j < |p| {
      assert tail == p[i..j] + "/" + p[j + 1..];
      SplitSeparator(p[i..j], p[j + 1..]);
    } else {
      assert tail == p[i..j];
    }
    assert Split(tail)[0] == p[i..j];
    if i > 0 {
      assert p == p[..i - 1] + "/" + tail;
      SplitSeparator(p[..i - 1], tail);
    } else {
      assert p == tail;
    }
  }

  // ----- rows -----

  datatype Declared = Declared(hash: Hash, snapshot: SnapshotId, name: string, suite: string)
  datatype FlatRow = FlatRow(declared: Declared, flat: string)

  /** A snapshot vouches for packages while it is its own suite's current, signed snapshot. */
  predicate Vouches(db: Db, s: SnapshotId) {
    && s in db.snapshots && !db.snapshots[s].form.Unsigned?
    && db.snapshots[s].key in db.suites && db.suites[db.snapshots[s].key].current == Some(s)
  }

  function FlatRowOf(db: Db, k: PackageKey): FlatRow
    requires k in db.packages && k.snapshot in db.snapshots
  {
    var p := db.packages[k];
    FlatRow(Declared(p.declared, k.snapshot, p.name, db.snapshots[k.snapshot].key.path), p.flat)
  }

  /** The current signed snapshots' flat rows of (scheme, host). */
  function FlatRows(db: Db, scheme: Scheme, host: string): set<FlatRow> {
    set k | k in db.packages && k.url.scheme == scheme && k.url.host == host && db.packages[k].flat != ""
            && Vouches(db, k.snapshot) :: FlatRowOf(db, k)
  }

  function FlatBase(suite: string): string { TrimSuffix(suite, "/.") }

  // ----- the specification -----

  /** The split of p at the separator c names row r, and its base is an ancestor-or-self of r's. */
  predicate Admits(r: FlatRow, p: string, c: nat) {
    c < |p| && p[c] == '/' && r.flat == p[c + 1..] && (p[..c] + "/") <= (FlatBase(r.declared.suite) + "/")
  }

  /** Of the rows some cut in cs admits, those whose cut is the last: the longest base. */
  ghost function Longest(rows: set<FlatRow>, p: string, cs: set<nat>): set<Declared> {
    set r | r in rows && (exists c :: c in cs && Admits(r, p, c) && IsLastCut(rows, p, cs, c)) :: r.declared
  }

  ghost predicate IsLastCut(rows: set<FlatRow>, p: string, cs: set<nat>, c: nat) {
    forall r, d :: r in rows && d in cs && Admits(r, p, d) ==> d <= c
  }

  function Separators(p: string): set<nat> { set c | 0 <= c < |p| && p[c] == '/' }

  /** What the lookup is for: every split of the dot-cleaned path, the longest admitted base. */
  ghost function DeclaredBySuffix(rows: set<FlatRow>, path: string): set<Declared> {
    Longest(rows, DotClean(path), Separators(DotClean(path)))
  }

  // ----- the bounded form -----

  /** The separators of p[..n], in order. */
  function Cuts(p: string, n: nat): (cs: seq<nat>)
    requires n <= |p|
    ensures forall i :: 0 <= i < |cs| ==> cs[i] < n && p[cs[i]] == '/'
    ensures forall i, j :: 0 <= i < j < |cs| ==> cs[i] < cs[j]
    ensures forall c :: 0 <= c < n && p[c] == '/' ==> c in cs
  {
    if n == 0 then []
    else if p[n - 1] == '/' then Cuts(p, n - 1) + [n - 1]
    else Cuts(p, n - 1)
  }

  lemma {:induction false} CutsGrow(p: string, m: nat, n: nat)
    requires m <= n <= |p|
    ensures |Cuts(p, m)| <= |Cuts(p, n)|
    decreases n
  {
    if m < n { CutsGrow(p, m, n - 1); }
  }

  predicate Within(p: string, c: nat) { c <= MAX_SUITE_PATH_BYTES && |p| - c - 1 <= MAX_FILENAME_BYTES }

  ghost predicate Splittable(p: string) {
    && |p| > 0 && p[0] == '/' && |p| <= MAX_FALLBACK_PATH_BYTES
    && |Cuts(p, |p|)| <= MAX_FALLBACK_SEGMENTS && SoundFrom(p, 1)
  }

  /** The cuts flatSplits yields for a dot-cleaned path. */
  ghost function BoundedCuts(p: string): set<nat> {
    if Splittable(p) then set c | c in Separators(p) && Within(p, c) else {}
  }

  method FindCuts(p: string) returns (ok: bool, cuts: seq<nat>)
    ensures ok <==> |Cuts(p, |p|)| <= MAX_FALLBACK_SEGMENTS
    ensures ok ==> cuts == Cuts(p, |p|)
  {
    cuts := [];
    for i := 0 to |p|
      invariant cuts == Cuts(p, i) && |cuts| <= MAX_FALLBACK_SEGMENTS
    {
      if p[i] != '/' { continue; }
      if |cuts| == MAX_FALLBACK_SEGMENTS {
        CutsGrow(p, i + 1, |p|);
        return false, cuts;
      }
      cuts := cuts + [i];
    }
    ok := true;
  }

  /** cuts lists every separator of p once, in order. */
  ghost predicate ListsCuts(p: string, cuts: seq<nat>) {
    && (forall i :: 0 <= i < |cuts| ==> cuts[i] < |p| && p[cuts[i]] == '/')
    && (forall i, j :: 0 <= i < j < |cuts| ==> cuts[i] < cuts[j])
    && (forall c: nat :: c < |p| && p[c] == '/' ==> c in cuts)
  }

  /** The end of the segment that starts after the k-th cut. */
  function SegmentEnd(p: string, cuts: seq<nat>, k: nat): nat
    requires k < |cuts|
  {
    if k + 1 < |cuts| then cuts[k + 1] else |p|
  }

  lemma SegmentAfterCut(p: string, cuts: seq<nat>, k: nat)
    requires ListsCuts(p, cuts) && k < |cuts|
    ensures SegmentAt(p, cuts[k] + 1, SegmentEnd(p, cuts, k))
  {
    var (i, j) := (cuts[k] + 1, SegmentEnd(p, cuts, k));
    assert j <= |p| && i <= j;
    forall x: nat | i <= x < j ensures p[x] != '/' {
      assert x !in cuts by {
        forall m | 0 <= m < |cuts| ensures cuts[m] != x {
          if m > k + 1 { assert cuts[k + 1] < cuts[m]; } else if m < k { assert cuts[m] < cuts[k]; }
        }
      }
    }
  }

  lemma SegmentHasCut(p: string, cuts: seq<nat>, i: nat, j: nat) returns (k: nat)
    requires ListsCuts(p, cuts) && 1 <= i && SegmentAt(p, i, j)
    ensures k < |cuts| && cuts[k] + 1 == i && SegmentEnd(p, cuts, k) == j
  {
    assert i - 1 in cuts;
    k :| 0 <= k < |cuts| && cuts[k] == i - 1;
    SegmentAfterCut(p, cuts, k);
  }

  predicate CutIsSound(p: string, cuts: seq<nat>, k: nat) {
    && k < |cuts| && cuts[k] + 1 <= SegmentEnd(p, cuts, k) <= |p|
    && Sound(p[cuts[k] + 1..SegmentEnd(p, cuts, k)])
  }

  lemma SegmentIsSound(p: string, cuts: seq<nat>, i: nat, j: nat)
    requires ListsCuts(p, cuts) && (forall m :: 0 <= m < |cuts| ==> CutIsSound(p, cuts, m))
    requires 1 <= i && SegmentAt(p, i, j)
    ensures Sound(p[i..j])
  {
    hide ListsCuts, Sound;
    var k := SegmentHasCut(p, cuts, i, j);
    assert CutIsSound(p, cuts, k);
  }

  method CheckSegments(p: string, cuts: seq<nat>) returns (ok: bool)
    requires ListsCuts(p, cuts)
    ensures ok <==> SoundFrom(p, 1)
  {
    hide ListsCuts, Sound;
    for k := 0 to |cuts|
      invariant forall m :: 0 <= m < k ==> CutIsSound(p, cuts, m)
    {
      SegmentAfterCut(p, cuts, k);
      if !Sound(p[cuts[k] + 1..SegmentEnd(p, cuts, k)]) { return false; }
    }
    forall i: nat, j: nat | 1 <= i && SegmentAt(p, i, j) ensures Sound(p[i..j]) { SegmentIsSound(p, cuts, i, j); }
    ok := true;
  }

  /** flatSplits, the bases given by their cuts: nothing unless the path is splittable,
      then every separator within the byte bounds, in order, with the name after it. */
  method FlatSplits(path: string) returns (cuts: seq<nat>, names: seq<string>)
    ensures |cuts| == |names|
    ensures Elements(cuts) == BoundedCuts(DotClean(path))
    ensures forall i :: 0 <= i < |cuts| ==> NamesCut(DotClean(path), names[i], cuts[i])
  {
    cuts, names := [], [];
    var p := DotClean(path);
    if p == "" || p[0] != '/' || |p| > MAX_FALLBACK_PATH_BYTES { return; }
    var few, all := FindCuts(p);
    if !few { return; }
    var sound := CheckSegments(p, all);
    if !sound { return; }
    hide Cuts, SoundFrom;
    cuts, names := KeepWithin(p, all);
    assert Elements(cuts) == BoundedCuts(p);
  }

  method KeepWithin(p: string, all: seq<nat>) returns (cuts: seq<nat>, names: seq<string>)
    requires ListsCuts(p, all)
    ensures |cuts| == |names| && Elements(cuts) == set c | c in Separators(p) && Within(p, c)
    ensures forall i :: 0 <= i < |cuts| ==> NamesCut(p, names[i], cuts[i])
  {
    cuts, names := [], [];
    for i := 0 to |all|
      invariant |cuts| == |names|
      invariant forall c :: c in cuts <==> c in all[..i] && Within(p, c)
      invariant forall j :: 0 <= j < |cuts| ==> NamesCut(p, names[j], cuts[j])
    {
      var c := all[i];
      assert all[..i + 1] == all[..i] + [c];
      if Within(p, c) { cuts, names := cuts + [c], names + [p[c + 1..]]; }
    }
    assert all[..|all|] == all;
    assert forall c :: c in all <==> c in Separators(p);
  }

  lemma NameGivesCut(p: string, c: nat, d: nat)
    requires c < |p| && d < |p| && p[c + 1..] == p[d + 1..]
    ensures c == d
  {
    assert |p[c + 1..]| == |p[d + 1..]|;
  }

  lemma OneCut(r: FlatRow, p: string, c: nat, d: nat)
    requires NamesCut(p, r.flat, c) && Admits(r, p, d)
    ensures c == d
  {
    NameGivesCut(p, c, d);
  }

  /** cutOf finds each cut of cs by the name after it. */
  ghost predicate IndexesCuts(p: string, cs: set<nat>, cutOf: map<string, nat>) {
    && (forall c :: c in cs ==> c < |p| && p[c + 1..] in cutOf)
    && (forall n :: n in cutOf ==> cutOf[n] in cs && NamesCut(p, n, cutOf[n]))
  }

  predicate NamesCut(p: string, name: string, c: nat) { c < |p| && p[c] == '/' && name == p[c + 1..] }

  method CutsByName(p: string, cuts: seq<nat>, names: seq<string>) returns (cutOf: map<string, nat>)
    requires |cuts| == |names|
    requires forall i :: 0 <= i < |cuts| ==> NamesCut(p, names[i], cuts[i])
    ensures IndexesCuts(p, Elements(cuts), cutOf)
  {
    cutOf := map[];
    for i := 0 to |cuts|
      invariant forall j :: 0 <= j < i ==> names[j] in cutOf
      invariant forall n :: n in cutOf ==> cutOf[n] in cuts && NamesCut(p, n, cutOf[n])
    {
      hide NamesCut;
      cutOf := cutOf[names[i] := cuts[i]];
    }
    forall c | c in cuts ensures c < |p| && p[c + 1..] in cutOf {
      var i :| 0 <= i < |cuts| && cuts[i] == c;
      assert NamesCut(p, names[i], c);
    }
  }

  lemma UnnamedRow(p: string, cs: set<nat>, cutOf: map<string, nat>, r: FlatRow)
    requires IndexesCuts(p, cs, cutOf) && r.flat !in cutOf
    ensures forall c :: c in cs ==> !Admits(r, p, c)
  {
  }

  lemma NamedRow(p: string, cs: set<nat>, cutOf: map<string, nat>, r: FlatRow)
    requires IndexesCuts(p, cs, cutOf) && r.flat in cutOf
    ensures var c := cutOf[r.flat];
            && c in cs && c < |p|
            && (Admits(r, p, c) <==> (p[..c] + "/") <= (FlatBase(r.declared.suite) + "/"))
            && forall d :: d in cs && d != c ==> !Admits(r, p, d)
  {
    var c := cutOf[r.flat];
    assert NamesCut(p, r.flat, c);
    forall d | d in cs && Admits(r, p, d) ensures d == c { OneCut(r, p, c, d); }
  }

  /** The rows of done admitted at exactly cut c. */
  ghost function AdmittedAt(done: set<FlatRow>, p: string, c: nat): set<Declared> {
    set r | r in done && Admits(r, p, c) :: r.declared
  }

  ghost predicate BestSoFar(done: set<FlatRow>, p: string, cs: set<nat>, best: int, out: set<Declared>) {
    && best >= -1
    && (forall r, d :: r in done && d in cs && Admits(r, p, d) ==> d <= best)
    && (best == -1 ==> out == {})
    && (best >= 0 ==> best in cs && out == AdmittedAt(done, p, best) && out != {})
  }

  lemma BestIsLongest(rows: set<FlatRow>, p: string, cs: set<nat>, best: int, out: set<Declared>)
    requires BestSoFar(rows, p, cs, best, out)
    ensures out == Longest(rows, p, cs)
  {
    if best >= 0 {
      assert exists r :: r in rows && Admits(r, p, best);
      forall c | c in cs && IsLastCut(rows, p, cs, c) && (exists r :: r in rows && Admits(r, p, c))
        ensures c == best
      {
      }
      assert IsLastCut(rows, p, cs, best);
    }
  }

  /** A row that no bounded cut names, or whose base is elsewhere, is skipped. */
  lemma SkipRow(done: set<FlatRow>, p: string, cs: set<nat>, best: int, out: set<Declared>, r: FlatRow)
    requires BestSoFar(done, p, cs, best, out) && forall c :: c in cs ==> !Admits(r, p, c)
    ensures BestSoFar(done + {r}, p, cs, best, out)
  {
    if best >= 0 { assert AdmittedAt(done + {r}, p, best) == AdmittedAt(done, p, best); }
  }

  lemma TakeRow(done: set<FlatRow>, p: string, cs: set<nat>, best: int, out: set<Declared>, r: FlatRow, c: nat)
    requires BestSoFar(done, p, cs, best, out) && c in cs && Admits(r, p, c)
    ensures c > best ==> BestSoFar(done + {r}, p, cs, c, {r.declared})
    ensures c == best ==> BestSoFar(done + {r}, p, cs, best, out + {r.declared})
    ensures c < best ==> BestSoFar(done + {r}, p, cs, best, out)
  {
    forall d | Admits(r, p, d) ensures d == c { OneCut(r, p, c, d); }
    hide Admits;
    if c > best {
      assert AdmittedAt(done + {r}, p, c) == {r.declared};
    } else {
      assert AdmittedAt(done + {r}, p, best) == AdmittedAt(done, p, best) + (if c == best then {r.declared} else {});
    }
  }

  /** declaredHashesBySuffix: one query by name, then the longest admitted base over its rows. */
  method LookupBySuffix(db: Db, scheme: Scheme, host: string, path: string) returns (out: set<Declared>)
    ensures out == Longest(FlatRows(db, scheme, host), DotClean(path), BoundedCuts(DotClean(path)))
  {
    var cuts, names := FlatSplits(path);
    var p := DotClean(path);
    out := {};
    if |names| == 0 {
      assert forall c :: c in BoundedCuts(p) ==> c in Elements(cuts);
      return;
    }
    hide BoundedCuts, Longest, FlatRows, IndexesCuts, Admits;
    var cutOf := CutsByName(p, cuts, names);
    ghost var (all, cs) := (FlatRows(db, scheme, host), BoundedCuts(p));
    var rows := set r | r in FlatRows(db, scheme, host) && r.flat in cutOf;
    out := PickLongest(rows, p, cutOf, cs);
    forall r | r in all && r !in rows ensures forall c :: c in cs ==> !Admits(r, p, c) {
      UnnamedRow(p, cs, cutOf, r);
    }
    LongestIgnores(all, rows, p, cs);
  }

  lemma LongestIgnores(all: set<FlatRow>, rows: set<FlatRow>, p: string, cs: set<nat>)
    requires rows <= all && forall r :: r in all && r !in rows ==> forall c :: c in cs ==> !Admits(r, p, c)
    ensures Longest(all, p, cs) == Longest(rows, p, cs)
  {
    forall c ensures IsLastCut(all, p, cs, c) == IsLastCut(rows, p, cs, c) {}
  }

  method PickLongest(rows: set<FlatRow>, p: string, cutOf: map<string, nat>, ghost cs: set<nat>)
    returns (out: set<Declared>)
    requires IndexesCuts(p, cs, cutOf)
    ensures out == Longest(rows, p, cs)
  {
    out := {};
    var best: int := -1;
    var left := rows;
    assert rows - left == {};
    assert BestSoFar({}, p, cs, best, out);
    while left != {}
      invariant left <= rows
      invariant BestSoFar(rows - left, p, cs, best, out)
    {
      hide BestSoFar, IndexesCuts, Admits, Longest;
      var r :| r in left;
      ghost var done := rows - left;
      assert rows - (left - {r}) == done + {r};
      left := left - {r};
      if r.flat !in cutOf {
        UnnamedRow(p, cs, cutOf, r);
        SkipRow(done, p, cs, best, out, r);
        continue;
      }
      NamedRow(p, cs, cutOf, r);
      var c := cutOf[r.flat];
      if !((p[..c] + "/") <= (FlatBase(r.declared.suite) + "/")) {
        SkipRow(done, p, cs, best, out, r);
        continue;
      }
      TakeRow(done, p, cs, best, out, r, c);
      if c > best { best, out := c, {r.declared}; }
      else if c == best { out := out + {r.declared}; }
    }
    assert rows - left == rows;
    BestIsLongest(rows, p, cs, best, out);
  }

  /** The rows whose own path is the request path. */
  function ExactRows(db: Db, scheme: Scheme, host: string, path: string): set<Declared> {
    set k | k in db.packages && k.url == UrlKey(scheme, host, path) && Vouches(db, k.snapshot) ::
      FlatRowOf(db, k).declared
  }

  /** DeclaredHashesForPath: the suffix fallback runs only when no exact row exists and flat rows are known to. */
  method DeclaredForPath(db: Db, scheme: Scheme, host: string, path: string, flatRows: bool)
    returns (out: set<Declared>)
    requires !flatRows ==> FlatRows(db, scheme, host) == {}
    ensures out == if ExactRows(db, scheme, host, path) != {} then ExactRows(db, scheme, host, path)
                   else Longest(FlatRows(db, scheme, host), DotClean(path), BoundedCuts(DotClean(path)))
  {
    hide BoundedCuts, DotClean;
    out := ExactRows(db, scheme, host, path);
    if out != {} || !flatRows { return; }
    out := LookupBySuffix(db, scheme, host, path);
  }

  // ----- the bounded form answers the specification -----

  /** A Packages Filename the parser accepts. */
  predicate ValidFilename(f: string) {
    && f != "" && |f| <= MAX_FILENAME_BYTES && f[0] != '/'
    && (forall c :: c in f ==> c >= ' ' && c as int != 0x7f && c != '\\' && c != '?' && c != '#')
    && (forall s :: s in Split(f) ==> Sound(s))
    && (exists s :: s in Split(f) && s != ".")
  }

  /** What a stored flat file name satisfies. */
  ghost predicate StoredName(f: string) { 0 < |f| <= MAX_FILENAME_BYTES && SoundFrom(f, 0) }

  /** What a flat suite's base satisfies. */
  ghost predicate SoundBase(base: string) {
    0 < |base| <= MAX_SUITE_PATH_BYTES && base[0] == '/' && SoundFrom(base, 1)
  }

  ghost predicate ValidRow(r: FlatRow) { StoredName(r.flat) && SoundBase(FlatBase(r.declared.suite)) }

  lemma SoundSplit(p: string, k: nat)
    requires forall s :: s in Split(p) ==> Sound(s)
    ensures SoundFrom(p, k)
  {
    hide Split;
    forall i: nat, j: nat | k <= i && SegmentAt(p, i, j) ensures Sound(p[i..j]) { SegmentInSplit(p, i, j); }
  }

  lemma {:induction false} SomeSegmentStays(segs: seq<string>, s: string)
    requires s in segs && s != "."
    ensures s in WithoutDots(segs)
  {
    if segs[0] != s { SomeSegmentStays(segs[1..], s); }
  }

  /** The dot-cleaned form of every accepted Filename is a stored name. */
  lemma FilenameIsStored(f: string)
    requires ValidFilename(f)
    ensures StoredName(DotClean(f))
  {
    hide Split, Join, WithoutDots;
    var s :| s in Split(f) && s != ".";
    SomeSegmentStays(Split(f), s);
    DotCleanSegments(f);
    CleanIsNotLonger(Split(f));
    JoinSplit(f);
    assert forall s :: s in Split(DotClean(f)) ==> Sound(s);
    SoundSplit(DotClean(f), 0);
    assert DotClean(f) != "" by { EmptyHasEmptySegment(DotClean(f)); }
  }

  lemma EmptyHasEmptySegment(p: string)
    ensures p == "" ==> "" in Split(p)
  {
  }

  /** The base of every canonical flat suite within the length bound is sound. */
  lemma FlatSuiteBase(suite: string)
    requires SuitePaths.IsCanonical(suite) && |suite| <= MAX_SUITE_PATH_BYTES
    requires "dists" !in Split(suite)
    ensures SoundBase(FlatBase(suite))
  {
    hide Split, Join, SuitePaths.MemberSegments, SuitePaths.SuitePath;
    var n := SuitePaths.SuiteSplits(suite + "/InRelease");
    var d := Split((suite + "/InRelease")[1..])[..n];
    assert suite == "/" + Join(d);
    SuiteOfSegments(d);
  }

  lemma SuiteOfSegments(d: seq<string>)
    requires SuitePaths.SuiteSegments(d) && (forall i :: 0 <= i < |d| ==> '/' !in d[i])
    requires |"/" + Join(d)| <= MAX_SUITE_PATH_BYTES && "dists" !in Split("/" + Join(d))
    ensures SoundBase(FlatBase("/" + Join(d)))
  {
    hide Split, Join;
    var suite := "/" + Join(d);
    var base := if d[|d| - 1] == "." then d[..|d| - 1] else d;
    assert d == if d[|d| - 1] == "." then base + ["."] else base;
    assert SuitePaths.PlainSegments(base) && base != [];
    if d[|d| - 1] == "." {
      SuitePaths.JoinDot(base);
      assert suite == "/" + Join(base) + "/.";
      assert FlatBase(suite) == "/" + Join(base);
    } else {
      NoDotSuffix(base);
    }
    PlainBase(base);
  }

  lemma DotSuffixSplits(s: string)
    requires HasSuffix(s, "/.")
    ensures Split(s)[|Split(s)| - 1] == "."
  {
    hide Split;
    var front := s[..|s| - 2];
    assert s[|s| - 2..] == "/.";
    assert s == front + "/" + ".";
    SplitSeparator(front, ".");
    SplitPlain(".");
  }

  lemma RootedSplits(base: seq<string>)
    requires base != [] && forall i :: 0 <= i < |base| ==> '/' !in base[i]
    ensures Split("/" + Join(base)) == [""] + base
  {
    hide Join, Split;
    assert "/" + Join(base) == "" + "/" + Join(base);
    SplitSeparator("", Join(base));
    SplitPlain("");
    SplitJoin(base);
  }

  lemma NoDotSuffix(base: seq<string>)
    requires base != [] && base[|base| - 1] != "." && forall i :: 0 <= i < |base| ==> '/' !in base[i]
    ensures FlatBase("/" + Join(base)) == "/" + Join(base)
  {
    hide Join, Split, HasSuffix;
    RootedSplits(base);
    if HasSuffix("/" + Join(base), "/.") { DotSuffixSplits("/" + Join(base)); }
  }

  lemma PlainBase(base: seq<string>)
    requires SuitePaths.PlainSegments(base) && base != [] && forall i :: 0 <= i < |base| ==> '/' !in base[i]
    ensures SoundFrom("/" + Join(base), 1)
  {
    hide Join;
    var s := "/" + Join(base);
    assert s[1..] == Join(base);
    SplitJoin(base);
    SoundSplit(Join(base), 0);
    SuffixSound(s, 1);
  }

  /** A split that a valid row admits is within every bound but the segment count. */
  lemma AdmittedIsBounded(r: FlatRow, p: string, c: nat)
    requires ValidRow(r) && Admits(r, p, c)
    ensures Within(p, c) && p[0] == '/' && |p| <= MAX_FALLBACK_PATH_BYTES && SoundFrom(p, 1)
  {
    var (base, f) := (FlatBase(r.declared.suite), r.flat);
    assert (p[..c] + "/")[..c] == p[..c] && |p[..c] + "/"| == c + 1;
    assert p[..c + 1] == (base + "/")[..c + 1];
    SuffixSound(p, c + 1);
    forall i: nat, j: nat | 1 <= i && SegmentAt(p, i, j) ensures Sound(p[i..j]) {
      if i <= c { HeadSegment(base, p, c, i, j); }
    }
  }

  lemma HeadSegment(base: string, p: string, c: nat, i: nat, j: nat)
    requires c < |p| && p[c] == '/' && c <= |base| && p[..c + 1] == (base + "/")[..c + 1]
    requires SoundFrom(base, 1) && 1 <= i <= c && SegmentAt(p, i, j)
    ensures Sound(p[i..j])
  {
    assert j <= c;
    forall x: nat | x <= c ensures p[x] == (base + "/")[x] { assert p[x] == p[..c + 1][x]; }
    assert forall x: nat :: x < c ==> p[x] == base[x];
    assert c < |base| ==> base[c] == '/';
    assert SegmentAt(base, i, j);
    assert base[i..j] == p[i..j];
  }

  /** The lookup answers its specification exactly, for every path: up to the segment bound it finds what
      the specification does, and past the bound it finds nothing. The byte bounds, the absolute-path test
      and the refusal of empty and ".." segments change no answer. */
  lemma FallbackIsExact(rows: set<FlatRow>, path: string)
    requires forall r :: r in rows ==> ValidRow(r)
    ensures var p := DotClean(path);
            Longest(rows, p, BoundedCuts(p)) ==
              if |Cuts(p, |p|)| <= MAX_FALLBACK_SEGMENTS then DeclaredBySuffix(rows, path) else {}
  {
    hide Longest, DotClean, Cuts, SoundFrom, ValidRow, Admits;
    var p := DotClean(path);
    if |Cuts(p, |p|)| <= MAX_FALLBACK_SEGMENTS {
      forall r, c: nat | r in rows && Admits(r, p, c) ensures c in BoundedCuts(p) {
        AdmitsSeparator(r, p, c);
        AdmittedIsBounded(r, p, c);
      }
      LongestOver(rows, p, BoundedCuts(p), Separators(p));
    } else {
      LongestOfNone(rows, p);
    }
  }

  lemma AdmitsSeparator(r: FlatRow, p: string, c: nat)
    requires Admits(r, p, c)
    ensures c in Separators(p)
  {
  }

  lemma LongestOfNone(rows: set<FlatRow>, p: string)
    ensures Longest(rows, p, {}) == {}
  {
  }

  lemma LongestOver(rows: set<FlatRow>, p: string, cs: set<nat>, ds: set<nat>)
    requires cs <= ds && forall r, c: nat :: r in rows && Admits(r, p, c) ==> c in cs
    ensures Longest(rows, p, cs) == Longest(rows, p, ds)
  {
    forall c ensures IsLastCut(rows, p, cs, c) == IsLastCut(rows, p, ds, c) {}
  }

  /** The segment bound does change answers: past it, any path whose name fits a stored name has a valid
      row that the specification finds and the lookup misses. */
  lemma SegmentBoundMatters(path: string, r: FlatRow)
    requires var p := DotClean(path);
             && |Cuts(p, |p|)| > MAX_FALLBACK_SEGMENTS && p[0] == '/' && SoundFrom(p, 1) && |p| <= MAX_FILENAME_BYTES
             && r.flat == p[1..] && SoundBase(FlatBase(r.declared.suite))
    ensures ValidRow(r)
    ensures DeclaredBySuffix({r}, path) == {r.declared}
    ensures var p := DotClean(path); Longest({r}, p, BoundedCuts(p)) == {}
  {
    hide DotClean, Cuts;
    var p := DotClean(path);
    CutsBound(p, |p|);
    SuffixSound(p, 1);
    var base := FlatBase(r.declared.suite);
    assert p[..0] + "/" == "/" <= base + "/";
    assert Admits(r, p, 0);
    forall c | Admits(r, p, c) ensures c == 0 { NameGivesCut(p, c, 0); }
    assert 0 in Separators(p) && IsLastCut({r}, p, Separators(p), 0);
    LongestOfNone({r}, p);
  }

  lemma {:induction false} CutsBound(p: string, n: nat)
    requires n <= |p|
    ensures |Cuts(p, n)| <= n
  {
    if n > 0 { CutsBound(p, n - 1); }
  }

  /** "/a/a/.../a" with n segments. */
  function Deep(n: nat): (p: string)
    ensures |p| == 2 * n && (n > 0 ==> p[0] == '/')
  {
    if n == 0 then "" else Deep(n - 1) + "/a"
  }

  lemma {:induction false} DeepSplits(n: nat)
    ensures Split(Deep(n)) == [""] + seq(n, _ => "a")
  {
    if n > 0 {
      DeepSplits(n - 1);
      assert Deep(n) == Deep(n - 1) + "/" + "a";
      SplitSeparator(Deep(n - 1), "a");
      SplitPlain("a");
    }
  }

  lemma {:induction false} CutsOfPrefix(p: string, q: string, n: nat)
    requires n <= |p|
    ensures Cuts(p + q, n) == Cuts(p, n)
  {
    if n > 0 { CutsOfPrefix(p, q, n - 1); }
  }

  lemma CutsAppend(q: string)
    ensures |Cuts(q + "/a", |q| + 2)| == |Cuts(q, |q|)| + 1
  {
    var p := q + "/a";
    CutsOfPrefix(q, "/a", |q|);
    assert p[|q|] == '/' && p[|q| + 1] == 'a';
    assert Cuts(p, |q| + 1) == Cuts(p, |q|) + [|q|];
  }

  lemma {:induction false} DeepCuts(n: nat)
    ensures |Cuts(Deep(n), |Deep(n)|)| == n
  {
    hide Cuts;
    if n > 0 {
      DeepCuts(n - 1);
      CutsAppend(Deep(n - 1));
    } else {
      CutsBound("", 0);
    }
  }

  lemma DeepIsSound(n: nat)
    requires n > 0
    ensures DotClean(Deep(n)) == Deep(n) && SoundFrom(Deep(n), 1)
  {
    hide Split, Join;
    DeepSplits(n);
    PlainIsUnchanged(Split(Deep(n)));
    JoinSplit(Deep(n));
    assert Deep(n) == "" + "/" + Deep(n)[1..];
    SplitSeparator("", Deep(n)[1..]);
    SplitPlain("");
    assert Split(Deep(n)[1..]) == Split(Deep(n))[1..];
    SoundSplit(Deep(n)[1..], 0);
    SuffixSound(Deep(n), 1);
  }

  /** A request 33 directories deep for a package of the host's "/a" suite is missed; 32 deep it is found. */
  lemma ThirtyThreeSegmentsAreMissed(n: nat, r: FlatRow)
    requires 0 < n <= 2048 && r.flat == Deep(n)[1..] && r.declared.suite == "/a"
    ensures ValidRow(r) && DeclaredBySuffix({r}, Deep(n)) == {r.declared}
    ensures Longest({r}, Deep(n), BoundedCuts(Deep(n))) == if n <= 32 then {r.declared} else {}
  {
    hide DotClean, Cuts, Longest, Split, Join;
    var p := Deep(n);
    DeepIsSound(n);
    DeepCuts(n);
    SuffixSound(p, 1);
    assert SoundBase("/a") by { assert SoundFrom("a", 0); assert "/a"[1..] == "a"; SuffixSound("/a", 1); }
    assert FlatBase("/a") == "/a";
    assert ValidRow(r);
    RootNames(r, p);
    FallbackIsExact({r}, p);
  }

  lemma RootNames(r: FlatRow, p: string)
    requires |p| > 0 && p[0] == '/' && r.flat == p[1..] && r.declared.suite == "/a" && DotClean(p) == p
    ensures DeclaredBySuffix({r}, p) == {r.declared}
  {
    hide DotClean;
    assert FlatBase("/a") == "/a" && p[..0] + "/" == "/" <= "/a" + "/";
    assert Admits(r, p, 0);
    forall c | Admits(r, p, c) ensures c == 0 { NameGivesCut(p, c, 0); }
    assert 0 in Separators(p) && IsLastCut({r}, p, Separators(p), 0);
  }
}
