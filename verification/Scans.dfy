/** Keyset scans of a suite's url_path rows: the batched invalidation of its metadata and the lists its deletion works
    from. */
module Scans {
  import opened Text
  import opened Sorting
  import opened Tables
  import opened Transactions
  import opened Keys
  import opened Writers
  import SuitePaths

  const INVALIDATE_BATCH: nat := 256

  /** The metadata rows of (scheme, host) with a path past `after`, within the suite's range. */
  function MetadataPast(urls: Urls, key: SuiteKey, after: string): set<UrlKey> {
    set k | k in urls && k.scheme == key.scheme && k.host == key.host && urls[k].isMetadata && Less(after, k.path)
      && Less(k.path, key.path + "0")
  }

  function FirstOf(ks: set<UrlKey>, n: nat): (s: seq<UrlKey>)
    ensures Ordered(KeyLess, s) && Elements(s) <= ks && |s| == if |ks| < n then |ks| else n
    ensures |ks| < n ==> Elements(s) == ks
    ensures forall k :: k in ks && k !in s ==> s != [] || n == 0
  {
    var all := SortedKeys(ks);
    var s := if |all| < n then all else all[..n];
    assert forall k :: k in s ==> k in Elements(all);
    assert forall k :: k in all <==> k in Elements(all);
    s
  }

  /** A scan page takes every key up to its last. */
  lemma FirstIsPrefix(ks: set<UrlKey>, n: nat, k: UrlKey)
    requires n >= 1 && k in ks
    ensures var s := FirstOf(ks, n); k !in s ==> s != [] && KeyLess(s[|s| - 1], k)
  {
    hide KeyLess;
    var (all, s) := (SortedKeys(ks), FirstOf(ks, n));
    assert k in Elements(all);
    var i :| 0 <= i < |all| && all[i] == k;
    if i < |s| { assert s[i] == k; }
  }

  /** The suite's metadata rows at or before `after`: what the scan has deleted. */
  function LegacyUpTo(urls: Urls, key: SuiteKey, after: string): set<UrlKey> {
    set k | k in LegacyRows(urls, key) && !Less(after, k.path)
  }

  predicate IsLegacyPath(key: SuiteKey, path: string) {
    SuitePaths.SuitePath(path) == key.path && !Contains(path, "/by-hash/")
  }

  /** A suite's rows lie strictly inside its range. */
  lemma InsideRange(key: SuiteKey, path: string)
    requires SuitePaths.IsCanonical(key.path) && SuitePaths.SuitePath(path) == key.path
    ensures Less(key.path + "/", path) && Less(path, key.path + "0")
  {
    hide SuitePaths.IsCanonical, SuitePaths.SuitePath;
    SuitePaths.RangeScanIsExact(key.path, path);
    SlashRange(key.path, path);
    PrefixIsLess(key.path + "/", path);
  }

  lemma {:induction false} PrefixIsLess(a: string, b: string)
    requires a < b
    ensures Less(a, b)
  {
    if a != [] {
      assert a[0] == b[0] && a[1..] < b[1..];
      PrefixIsLess(a[1..], b[1..]);
    }
  }

  /** The page's keys that the scan deletes. */
  method PickLegacy(page: seq<UrlKey>, key: SuiteKey) returns (ks: seq<UrlKey>)
    ensures Elements(ks) == set k | k in page && IsLegacyPath(key, k.path)
  {
    hide IsLegacyPath;
    ks := [];
    for i := 0 to |page|
      invariant forall k :: k in ks <==> k in page[..i] && IsLegacyPath(key, k.path)
    {
      assert page[..i + 1] == page[..i] + [page[i]];
      if IsLegacyPath(key, page[i].path) { ks := ks + [page[i]]; }
    }
    assert page[..|page|] == page;
  }

  lemma SameHostOrder(key: SuiteKey, a: UrlKey, b: UrlKey)
    requires a.scheme == b.scheme == key.scheme && a.host == b.host == key.host
    ensures KeyLess(a, b) <==> Less(a.path, b.path)
  {
    LessAsymmetric(a.host, a.host);
  }

  /** After deleting what is up to `after`, the rows past it are as they were. */
  lemma PastUnchanged(f: Files, key: SuiteKey, after: string, now: Time)
    ensures MetadataPast(DropKeys(f, LegacyUpTo(f.urls, key, after), now).urls, key, after)
            == MetadataPast(f.urls, key, after)
  {
    hide Lowered, Naming, LegacyRows, Less;
  }

  /** One page of the scan moves the deleted part up to the page's last path. */
  lemma PageExtends(urls: Urls, key: SuiteKey, after: string, page: seq<UrlKey>, picked: set<UrlKey>)
    requires SuitePaths.IsCanonical(key.path) && page != []
    requires page == FirstOf(MetadataPast(urls, key, after), INVALIDATE_BATCH)
    requires picked == set k | k in page && IsLegacyPath(key, k.path)
    ensures LegacyUpTo(urls, key, page[|page| - 1].path) == LegacyUpTo(urls, key, after) + picked
    ensures LegacyUpTo(urls, key, after) !! picked && Less(after, page[|page| - 1].path)
  {
    hide Less, KeyLess, SuitePaths.SuitePath, SuitePaths.IsCanonical, Contains;
    var (last, past) := (page[|page| - 1], MetadataPast(urls, key, after));
    assert forall k :: k in page ==> k in Elements(page);
    assert last in page;
    forall k | k in LegacyRows(urls, key)
      ensures k in LegacyUpTo(urls, key, last.path) <==> k in LegacyUpTo(urls, key, after) || k in picked {
      InsideRange(key, k.path);
      if Less(after, k.path) {
        assert k in past;
        PageSide(past, page, key, k);
      } else {
        LaterStays(after, last.path, k.path);
      }
    }
    forall k | k in picked ensures k in LegacyRows(urls, key) && Less(after, k.path) {}
  }

  lemma LaterStays(a: string, b: string, p: string)
    requires Less(a, b) && !Less(a, p)
    ensures !Less(b, p)
  {
    if Less(b, p) { LessTransitive(a, b, p); }
  }

  lemma PageSide(past: set<UrlKey>, page: seq<UrlKey>, key: SuiteKey, k: UrlKey)
    requires page == FirstOf(past, INVALIDATE_BATCH) && page != [] && k in past
    requires forall x :: x in past ==> x.scheme == key.scheme && x.host == key.host
    ensures !Less(page[|page| - 1].path, k.path) <==> k in page
  {
    hide Less, KeyLess;
    var last := page[|page| - 1];
    assert last in Elements(page);
    FirstIsPrefix(past, INVALIDATE_BATCH, k);
    SameHostOrder(key, last, k);
    SameHostOrder(key, k, last);
    KeyTrichotomy(last, k);
    if k in page {
      var i :| 0 <= i < |page| && page[i] == k;
      assert i < |page| - 1 ==> KeyLess(page[i], last);
    }
  }

  /** InvalidateLegacyMetadata's loop: 256 rows at a time, from the start of the suite's range. */
  method DropLegacy(f: Files, key: SuiteKey, now: Time) returns (g: Files)
    requires SuitePaths.IsCanonical(key.path)
    ensures g == DropKeys(f, LegacyRows(f.urls, key), now)
  {
    hide Less, KeyLess, SuitePaths.SuitePath, SuitePaths.IsCanonical, Contains, DropKeys, LegacyRows, MetadataPast,
         IsLegacyPath, LegacyUpTo;
    g := f;
    var after := key.path + "/";
    NoneYet(f.urls, key);
    DropNone(f, now);
    while true
      invariant g == DropKeys(f, LegacyUpTo(f.urls, key, after), now)
      decreases MetadataPast(f.urls, key, after)
    {
      PastUnchanged(f, key, after, now);
      var page := FirstOf(MetadataPast(g.urls, key, after), INVALIDATE_BATCH);
      if |page| == 0 {
        AllReached(f.urls, key, after);
        return;
      }
      var ks := PickLegacy(page, key);
      PageExtends(f.urls, key, after, page, Elements(ks));
      var n;
      ghost var before := g;
      g, n := DropEach(g, ks, now);
      DropInTwo(f, LegacyUpTo(f.urls, key, after), Elements(ks), now);
      PastShrinks(f.urls, key, after, page);
      if |page| < INVALIDATE_BATCH { ShortPage(f.urls, key, after, page); }
      after := page[|page| - 1].path;
      if |page| < INVALIDATE_BATCH {
        AllReached(f.urls, key, after);
        return;
      }
    }
  }

  lemma NoneYet(urls: Urls, key: SuiteKey)
    requires SuitePaths.IsCanonical(key.path)
    ensures LegacyUpTo(urls, key, key.path + "/") == {}
  {
    hide Less, SuitePaths.IsCanonical, SuitePaths.SuitePath, Contains;
    forall k | k in LegacyRows(urls, key) ensures Less(key.path + "/", k.path) { InsideRange(key, k.path); }
  }

  lemma AllReached(urls: Urls, key: SuiteKey, after: string)
    requires SuitePaths.IsCanonical(key.path) && MetadataPast(urls, key, after) == {}
    ensures LegacyUpTo(urls, key, after) == LegacyRows(urls, key)
  {
    hide Less, SuitePaths.IsCanonical, SuitePaths.SuitePath, Contains;
    forall k | k in LegacyRows(urls, key) ensures !Less(after, k.path) {
      InsideRange(key, k.path);
      assert k !in MetadataPast(urls, key, after);
    }
  }

  lemma PastShrinks(urls: Urls, key: SuiteKey, after: string, page: seq<UrlKey>)
    requires page != [] && page == FirstOf(MetadataPast(urls, key, after), INVALIDATE_BATCH)
    ensures MetadataPast(urls, key, page[|page| - 1].path) < MetadataPast(urls, key, after)
  {
    hide Less, KeyLess;
    var (last, past) := (page[|page| - 1], MetadataPast(urls, key, after));
    assert last in Elements(page);
    forall k | k in MetadataPast(urls, key, last.path) ensures k in past { TransitivePast(after, last.path, k.path); }
    NotPastItself(last.path);
    assert last in past && last !in MetadataPast(urls, key, last.path);
  }

  lemma TransitivePast(a: string, b: string, c: string)
    requires Less(a, b) && Less(b, c)
    ensures Less(a, c)
  {
    LessTransitive(a, b, c);
  }

  lemma NotPastItself(a: string)
    ensures !Less(a, a)
  {
    LessAsymmetric(a, a);
  }

  lemma NothingPast(urls: Urls, key: SuiteKey, after: string, page: seq<UrlKey>, k: UrlKey)
    requires page != [] && |page| < INVALIDATE_BATCH
    requires page == FirstOf(MetadataPast(urls, key, after), INVALIDATE_BATCH)
    ensures k !in MetadataPast(urls, key, page[|page| - 1].path)
  {
    hide Less, KeyLess;
    var (last, past) := (page[|page| - 1], MetadataPast(urls, key, after));
    assert last in Elements(page);
    assert forall x :: x in past ==> x in page by { assert forall x :: x in Elements(page) ==> x in page; }
    if k in MetadataPast(urls, key, last.path) {
      TransitivePast(after, last.path, k.path);
      PageSide(past, page, key, k);
    }
  }

  lemma ShortPage(urls: Urls, key: SuiteKey, after: string, page: seq<UrlKey>)
    requires page != [] && |page| < INVALIDATE_BATCH
    requires page == FirstOf(MetadataPast(urls, key, after), INVALIDATE_BATCH)
    ensures MetadataPast(urls, key, page[|page| - 1].path) == {}
  {
    hide MetadataPast, Less, KeyLess;
    var rest := MetadataPast(urls, key, page[|page| - 1].path);
    forall k ensures k !in rest { NothingPast(urls, key, after, page, k); }
  }

  lemma DropInTwo(f: Files, a: set<UrlKey>, b: set<UrlKey>, now: Time)
    requires a !! b
    ensures DropKeys(DropKeys(f, a, now), b, now) == DropKeys(f, a + b, now)
  {
    var (two, one) := (DropKeys(DropKeys(f, a, now), b, now), DropKeys(f, a + b, now));
    assert two.urls == one.urls;
    forall h | h in f.blobs ensures two.blobs[h] == one.blobs[h] { DropInTwoBlob(f, a, b, now, h); }
    assert two.blobs == one.blobs;
  }

  lemma DropInTwoBlob(f: Files, a: set<UrlKey>, b: set<UrlKey>, now: Time, h: Hash)
    requires a !! b && h in f.blobs
    ensures Lowered(Lowered(f.blobs[h], |Naming(f.urls, a, h)|, now), |Naming(f.urls - a, b, h)|, now)
            == Lowered(f.blobs[h], |Naming(f.urls, a + b, h)|, now)
  {
    assert Naming(f.urls - a, b, h) == Naming(f.urls, b, h);
    assert Naming(f.urls, a + b, h) == Naming(f.urls, a, h) + Naming(f.urls, b, h)
      && Naming(f.urls, a, h) !! Naming(f.urls, b, h);
    assert |Naming(f.urls, a + b, h)| == |Naming(f.urls, a, h)| + |Naming(f.urls, b, h)|;
  }

  // ----- the lists a suite's deletion works from -----

  /** Every cached row of the suite. */
  function SuiteUrls(urls: Urls, key: SuiteKey): set<UrlKey> {
    set k | k in urls && k.scheme == key.scheme && k.host == key.host && SuitePaths.SuitePath(k.path) == key.path
  }

  /** The range query: what SQLite's index returns before the suite filter. */
  function RangeUrls(urls: Urls, key: SuiteKey): set<UrlKey> {
    set k | k in urls && k.scheme == key.scheme && k.host == key.host && SuitePaths.InSuiteRange(key.path, k.path)
  }

  predicate AnchorOf(key: SuiteKey, k: UrlKey) {
    k.path == key.path + "/InRelease" || k.path == key.path + "/Release" || k.path == key.path + "/Release.gpg"
  }

  /** suiteMetadataPaths: the suite's rows, its anchors apart; nothing for a path the grammar cannot produce. */
  method SuiteLists(urls: Urls, key: SuiteKey) returns (plain: seq<UrlKey>, anchors: seq<UrlKey>)
    ensures Elements(plain) + Elements(anchors) == if SuitePaths.IsCanonical(key.path) then SuiteUrls(urls, key) else {}
    ensures (forall k :: k in anchors ==> AnchorOf(key, k)) && (forall k :: k in plain ==> !AnchorOf(key, k))
  {
    plain, anchors := [], [];
    if !SuitePaths.IsCanonical(key.path) { return; }
    hide SuitePaths.IsCanonical, SuitePaths.SuitePath, RangeUrls, SuiteUrls, KeyLess, AnchorOf;
    RangeIsSuite(urls, key);
    var rows := SortedKeys(RangeUrls(urls, key));
    assert forall k :: k in rows <==> k in Elements(rows);
    plain, anchors := SplitRows(rows, key);
  }

  method SplitRows(rows: seq<UrlKey>, key: SuiteKey) returns (plain: seq<UrlKey>, anchors: seq<UrlKey>)
    ensures forall k :: k in plain <==> k in rows && SuitePaths.SuitePath(k.path) == key.path && !AnchorOf(key, k)
    ensures forall k :: k in anchors <==> k in rows && SuitePaths.SuitePath(k.path) == key.path && AnchorOf(key, k)
  {
    hide SuitePaths.SuitePath, AnchorOf;
    plain, anchors := [], [];
    for i := 0 to |rows|
      invariant forall k :: k in plain <==>
                k in rows[..i] && SuitePaths.SuitePath(k.path) == key.path && !AnchorOf(key, k)
      invariant forall k :: k in anchors <==>
                k in rows[..i] && SuitePaths.SuitePath(k.path) == key.path && AnchorOf(key, k)
    {
      var k := rows[i];
      assert rows[..i + 1] == rows[..i] + [k];
      if SuitePaths.SuitePath(k.path) != key.path { continue; }
      if AnchorOf(key, k) { anchors := anchors + [k]; } else { plain := plain + [k]; }
    }
    assert rows[..|rows|] == rows;
  }

  /** The filtered range holds exactly the suite's rows. */
  lemma RangeIsSuite(urls: Urls, key: SuiteKey)
    requires SuitePaths.IsCanonical(key.path)
    ensures forall k :: k in SuiteUrls(urls, key) <==>
            k in RangeUrls(urls, key) && SuitePaths.SuitePath(k.path) == key.path
  {
    hide SuitePaths.IsCanonical, SuitePaths.SuitePath;
    forall k | k in urls
      ensures SuitePaths.SuitePath(k.path) == key.path ==> SuitePaths.InSuiteRange(key.path, k.path) {
      SuitePaths.RangeScanIsExact(key.path, k.path);
    }
  }
}
