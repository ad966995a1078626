/** The primary-key order of url_path: scheme, host, path, each by bytes. */
module Keys {
  import opened Text
  import opened Sorting
  import opened Tables

  function SchemeRank(s: Scheme): nat { if s.Http? then 0 else 1 }

  predicate KeyLess(a: UrlKey, b: UrlKey) {
    || SchemeRank(a.scheme) < SchemeRank(b.scheme)
    || (a.scheme == b.scheme && (Less(a.host, b.host) || (a.host == b.host && Less(a.path, b.path))))
  }

  lemma KeyTrichotomy(a: UrlKey, b: UrlKey)
    ensures !(KeyLess(a, b) && KeyLess(b, a)) && !KeyLess(a, a)
    ensures a != b ==> KeyLess(a, b) || KeyLess(b, a)
  {
    hide Less;
    LessAsymmetric(a.host, b.host);
    LessAsymmetric(a.path, b.path);
    LessAsymmetric(a.host, a.host);
    LessAsymmetric(a.path, a.path);
    LessTotal(a.host, b.host);
    LessTotal(a.path, b.path);
  }

  lemma KeyTransitive(a: UrlKey, b: UrlKey, c: UrlKey)
    requires KeyLess(a, b) && KeyLess(b, c)
    ensures KeyLess(a, c)
  {
    hide Less;
    if Less(a.host, b.host) && Less(b.host, c.host) { LessTransitive(a.host, b.host, c.host); }
    if Less(a.path, b.path) && Less(b.path, c.path) { LessTransitive(a.path, b.path, c.path); }
  }

  lemma KeysAreStrict(ks: set<UrlKey>)
    ensures StrictOn(KeyLess, ks)
  {
    hide KeyLess;
    forall a, b | a in ks && b in ks
      ensures !(KeyLess(a, b) && KeyLess(b, a)) && (a != b ==> KeyLess(a, b) || KeyLess(b, a)) {
      KeyTrichotomy(a, b);
    }
    forall a, b, c | a in ks && b in ks && c in ks && KeyLess(a, b) && KeyLess(b, c) ensures KeyLess(a, c) {
      KeyTransitive(a, b, c);
    }
  }

  /** SELECT ... ORDER BY the primary key. */
  function SortedKeys(ks: set<UrlKey>): (s: seq<UrlKey>)
    ensures Ordered(KeyLess, s) && Elements(s) == ks && |s| == |ks| && Distinct(s)
  {
    KeysAreStrict(ks);
    var s := SortedSeq(KeyLess, ks);
    KeysAreStrict(Elements(s));
    OrderedDistinct(KeyLess, s);
    s
  }
}
