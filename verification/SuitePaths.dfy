/** The suite a request path belongs to: the dists/ grammar and the flat grammar. */
module SuitePaths {
  import opened Text

  const FORBIDDEN: string := "#?%\\"

  predicate CleanByte(c: char) { c >= ' ' && c as int != 0x7f && c !in FORBIDDEN }

  predicate CleanBytes(p: string) { forall i :: 0 <= i < |p| ==> CleanByte(p[i]) }

  predicate HasDists(segs: seq<string>) { "dists" in segs }

  /** A segment that may appear in a suite path. */
  predicate PlainSegment(s: string) { s != "" && s != "." && s != ".." }

  predicate PlainSegments(segs: seq<string>) { forall i :: 0 <= i < |segs| ==> PlainSegment(segs[i]) }

  // ----- the dists/ grammar -----

  /** The last "dists" segment at or before index i, or -1. */
  function LastDists(segs: seq<string>, i: int): (k: int)
    requires i < |segs|
    ensures -1 <= k && (k >= 0 ==> k <= i && segs[k] == "dists")
    ensures forall j :: k < j <= i && 0 <= j ==> segs[j] != "dists"
    decreases i + 1
  {
    if i < 0 then -1 else if segs[i] == "dists" then i else LastDists(segs, i - 1)
  }

  function DistsSuite(segs: seq<string>): string {
    if !PlainSegments(segs) then ""
    else
      var i := LastDists(segs, |segs| - 3);
      if i < 0 then "" else "/" + Join(segs[..i + 2])
  }

  // ----- the flat grammar -----

  const EXTENSIONS: set<string> := {".gz", ".xz", ".bz2", ".lzma", ".lz4", ".zst"}

  predicate StemByte(c: char) { 'a' <= c <= 'z' || '0' <= c <= '9' || c == '-' }
  predicate HexByte(c: char) { '0' <= c <= '9' || 'a' <= c <= 'f' }
  predicate AllStem(s: string) { forall i :: 0 <= i < |s| ==> StemByte(s[i]) }
  predicate Hex(s: string, n: nat) { |s| == n && forall i :: 0 <= i < |s| ==> HexByte(s[i]) }

  predicate IsContents(s: string) {
    && "Contents-" <= s
    && var rest := s[9..];
       || (rest != "" && AllStem(rest))
       || exists e :: e in EXTENSIONS && HasSuffix(rest, e) && |rest| > |e| && AllStem(rest[..|rest| - |e|])
  }

  predicate IsRootIndex(s: string) {
    || s == "Packages" || s == "Sources"
    || exists e :: e in EXTENSIONS && (s == "Packages" + e || s == "Sources" + e)
  }

  predicate IsFlatMember(s: string) {
    s == "InRelease" || s == "Release" || s == "Release.gpg" || IsRootIndex(s) || IsContents(s)
  }

  /** How many trailing segments form a flat member: an anchor or index, a pdiff Index, a by-hash name; 0 for none. */
  function MemberSegments(segs: seq<string>): (k: nat)
    ensures k <= |segs| && k <= 3
  {
    var n := |segs|;
    if n >= 1 && IsFlatMember(segs[n - 1]) then 1
    else if n >= 2 && segs[n - 1] == "Index" && (segs[n - 2] == "Packages.diff" || segs[n - 2] == "Sources.diff") then 2
    else if n >= 3 && segs[n - 3] == "by-hash"
         && ((segs[n - 2] == "SHA256" && Hex(segs[n - 1], 64))
           || (segs[n - 2] == "SHA512" && Hex(segs[n - 1], 128))) then 3
    else 0
  }

  /** The directory before the flat member; it may end in one ".", and is never the host root. */
  function FlatSuite(segs: seq<string>): string {
    var n := MemberSegments(segs);
    if n == 0 || n >= |segs| then ""
    else
      var dir := segs[..|segs| - n];
      var twin := dir[|dir| - 1] == ".";
      var base := if twin then dir[..|dir| - 1] else dir;
      if base == [] || !PlainSegments(base) then ""
      else "/" + Join(base) + (if twin then "/." else "")
  }

  /** The suite path of a decoded request path, or "" when it belongs to none. */
  function SuitePath(p: string): string {
    if p == "" || p[0] != '/' || !CleanBytes(p) then ""
    else
      var segs := Split(p[1..]);
      if HasDists(segs) then DistsSuite(segs) else FlatSuite(segs)
  }

  predicate IsCanonical(s: string) { s != "" && SuitePath(s + "/InRelease") == s }

  // ----- what a suite's segments look like -----

  /** A suite path's own segments: a dists one ends after the codename; a flat one may end in ".". */
  predicate SuiteSegments(d: seq<string>) {
    || (|d| >= 2 && d[|d| - 2] == "dists" && PlainSegments(d))
    || ("dists" !in d && |d| >= 1 && PlainSegments(d))
    || ("dists" !in d && |d| >= 2 && d[|d| - 1] == "." && PlainSegments(d[..|d| - 1]))
  }

  lemma DistsSplits(segs: seq<string>) returns (n: nat)
    requires HasDists(segs) && DistsSuite(segs) != ""
    ensures 0 < n < |segs| && DistsSuite(segs) == "/" + Join(segs[..n])
    ensures SuiteSegments(segs[..n]) && PlainSegments(segs)
  {
    hide Join;
    n := LastDists(segs, |segs| - 3) + 2;
  }

  lemma FlatSplits(segs: seq<string>) returns (n: nat)
    requires !HasDists(segs) && FlatSuite(segs) != ""
    ensures 0 < n < |segs| && FlatSuite(segs) == "/" + Join(segs[..n])
    ensures SuiteSegments(segs[..n]) && n == |segs| - MemberSegments(segs)
  {
    hide Join, MemberSegments;
    n := |segs| - MemberSegments(segs);
    var dir := segs[..n];
    if dir[|dir| - 1] == "." {
      var base := dir[..|dir| - 1];
      assert dir == base + ["."];
      JoinDot(base);
      assert PlainSegments(base) && FlatSuite(segs) == "/" + Join(dir);
    }
  }

  lemma JoinDot(base: seq<string>)
    requires base != []
    ensures "/" + Join(base + ["."]) == "/" + Join(base) + "/."
  {
    JoinAppend(base, ["."]);
  }

  /** A path with a suite splits into the suite's segments and at least one member segment. */
  lemma SuiteSplits(p: string) returns (n: nat)
    requires SuitePath(p) != ""
    ensures |p| > 0 && p[0] == '/' && 0 < n < |Split(p[1..])|
    ensures SuitePath(p) == "/" + Join(Split(p[1..])[..n])
    ensures SuiteSegments(Split(p[1..])[..n])
    ensures HasDists(Split(p[1..])) ==> PlainSegments(Split(p[1..]))
    ensures !HasDists(Split(p[1..])) ==> n == |Split(p[1..])| - MemberSegments(Split(p[1..]))
  {
    hide Join, Split, MemberSegments, HasDists, DistsSuite, FlatSuite, SuiteSegments, PlainSegments, CleanBytes;
    var segs := Split(p[1..]);
    if HasDists(segs) { n := DistsSplits(segs); }
    else { n := FlatSplits(segs); }
  }

  lemma {:induction false} JoinNonEmpty(segs: seq<string>)
    requires |segs| >= 1 && (|segs| == 1 ==> segs[0] != "")
    ensures Join(segs) != ""
  {
  }

  lemma MemberNonEmpty(segs: seq<string>)
    requires |segs| >= 1 && 0 < MemberSegments(segs)
    ensures Join(segs[|segs| - MemberSegments(segs)..]) != ""
  {
    var k := MemberSegments(segs);
    if k == 1 { assert segs[|segs| - 1] != ""; }
    JoinNonEmpty(segs[|segs| - k..]);
  }

  /** Every path with a suite is the suite, a slash and a non-empty member. */
  lemma SuiteIsProperPrefix(p: string) returns (member: string)
    requires SuitePath(p) != ""
    ensures p == SuitePath(p) + "/" + member && member != ""
  {
    hide Join, Split, MemberSegments, SuitePath, SuiteSegments;
    var n := SuiteSplits(p);
    var segs := Split(p[1..]);
    assert segs == segs[..n] + segs[n..];
    JoinAppend(segs[..n], segs[n..]);
    JoinSplit(p[1..]);
    member := Join(segs[n..]);
    assert p == "/" + p[1..];
    if HasDists(segs) { JoinNonEmpty(segs[n..]); }
    else { MemberNonEmpty(segs); }
  }

  lemma CleanPrefix(a: string, b: string)
    requires CleanBytes(a + b)
    ensures CleanBytes(a)
  {
    forall i | 0 <= i < |a| ensures CleanByte(a[i]) { assert (a + b)[i] == a[i]; }
  }

  lemma AnchorSegments(d: seq<string>)
    requires SuiteSegments(d)
    ensures "dists" in d ==> HasDists(d + ["InRelease"]) && DistsSuite(d + ["InRelease"]) == "/" + Join(d)
    ensures "dists" !in d ==> !HasDists(d + ["InRelease"]) && FlatSuite(d + ["InRelease"]) == "/" + Join(d)
  {
    hide Join;
    var segs := d + ["InRelease"];
    assert segs[..|d|] == d;
    if "dists" in d {
      assert LastDists(segs, |segs| - 3) == |d| - 2;
    } else {
      hide IsContents, IsRootIndex, Hex;
      assert IsFlatMember(segs[|segs| - 1]) && MemberSegments(segs) == 1;
      assert segs[..|segs| - 1] == d;
      if d[|d| - 1] == "." {
        assert d == d[..|d| - 1] + ["."];
        JoinDot(d[..|d| - 1]);
      }
    }
  }

  lemma AnchorBytes(s: string)
    requires CleanBytes(s)
    ensures CleanBytes(s + "/InRelease")
  {
    var a := "/InRelease";
    assert CleanBytes(a);
    forall i | 0 <= i < |s + a| ensures CleanByte((s + a)[i]) {
      if i >= |s| { assert (s + a)[i] == a[i - |s|]; }
    }
  }

  /** The suite's own anchor belongs to the suite. */
  lemma AnchorSuite(d: seq<string>)
    requires SuiteSegments(d) && (forall i :: 0 <= i < |d| ==> '/' !in d[i]) && CleanBytes("/" + Join(d))
    ensures SuitePath("/" + Join(d) + "/InRelease") == "/" + Join(d)
  {
    hide Join, Split, MemberSegments, HasDists, DistsSuite, FlatSuite, SuiteSegments, PlainSegments, CleanBytes;
    var p := "/" + Join(d) + "/InRelease";
    assert p[1..] == Join(d) + "/" + "InRelease";
    assert d != [] by { SuiteSegmentsNonEmpty(d); }
    SplitSeparator(Join(d), "InRelease");
    SplitJoin(d);
    SplitPlain("InRelease");
    AnchorBytes("/" + Join(d));
    AnchorSegments(d);
  }

  lemma SuiteSegmentsNonEmpty(d: seq<string>)
    requires SuiteSegments(d)
    ensures d != []
  {
  }

  /** Every suite path is canonical: the grammar maps its anchor back to it. */
  lemma SuitePathIsCanonical(p: string)
    requires SuitePath(p) != ""
    ensures IsCanonical(SuitePath(p))
  {
    var n := SuiteSplits(p);
    var member := SuiteIsProperPrefix(p);
    var d := Split(p[1..])[..n];
    assert p == SuitePath(p) + ("/" + member);
    CleanPrefix(SuitePath(p), "/" + member);
    AnchorSuite(d);
  }

  // ----- the range scan -----

  predicate InSuiteRange(s: string, p: string) { !Less(p, s + "/") && Less(p, s + "0") }

  /** The key range ["s/", "s0") with the suite filter selects exactly the paths whose suite is s. */
  lemma RangeScanIsExact(s: string, p: string)
    requires IsCanonical(s)
    ensures (InSuiteRange(s, p) && SuitePath(p) == s) <==> SuitePath(p) == s
    ensures SuitePath(p) == s ==> s + "/" < p
  {
    SlashRange(s, p);
    if SuitePath(p) == s {
      var member := SuiteIsProperPrefix(p);
      assert p == (s + "/") + member;
    }
  }
}
