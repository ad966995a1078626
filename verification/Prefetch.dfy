/** Hot prefetch: the packages warmed for a snapshot about to be adopted, and that retention keeps them all. */
module Prefetch {
  import opened Text
  import opened Sorting
  import opened Tables
  import opened Retention
  import opened NewestN
  import opened Transactions
  import opened Integrity
  import IntegritySteps
  import Versions

  datatype PackageArch = PackageArch(name: string, arch: string)
  type Row = (PackageKey, Package)

  predicate PairLess(a: PackageArch, b: PackageArch) {
    Less(a.name, b.name) || (a.name == b.name && Less(a.arch, b.arch))
  }

  lemma PairsAreStrict(ps: set<PackageArch>)
    ensures StrictOn(PairLess, ps)
  {
    hide Less;
    forall a, b | a in ps && b in ps
      ensures !(PairLess(a, b) && PairLess(b, a)) && (a != b ==> PairLess(a, b) || PairLess(b, a)) {
      LessTotal(a.name, b.name); LessTotal(a.arch, b.arch);
      LessAsymmetric(a.name, b.name); LessAsymmetric(a.arch, b.arch);
    }
    forall a, b, c | a in ps && b in ps && c in ps && PairLess(a, b) && PairLess(b, c) ensures PairLess(a, c) {
      if Less(a.name, b.name) && Less(b.name, c.name) { LessTransitive(a.name, b.name, c.name); }
      if Less(a.arch, b.arch) && Less(b.arch, c.arch) { LessTransitive(a.arch, b.arch, c.arch); }
    }
  }

  // ----- the hot set -----

  /** A package of the prior snapshot whose file was requested since the cutoff. */
  predicate IsHot(db: Db, p: PackageKey, prior: SnapshotId, since: Time) {
    && p in db.packages && p.snapshot == prior && db.packages[p].name != "" && db.packages[p].arch != ""
    && p.url in db.urls && RecentlyRequested(db.urls[p.url], since)
  }

  function HotPairs(db: Db, prior: SnapshotId, since: Time): set<PackageArch> {
    set p | p in db.packages && IsHot(db, p, prior, since) :: PackageArch(db.packages[p].name, db.packages[p].arch)
  }

  predicate IsOf(row: Row, pair: PackageArch) {
    row.1.name == pair.name && row.1.arch == pair.arch && pair.name != "" && pair.arch != ""
  }

  /** The versions a candidate lists of one package. */
  ghost function ListedVersions(rows: seq<Row>, pair: PackageArch): set<string> {
    set i | 0 <= i < |rows| && IsOf(rows[i], pair) && rows[i].1.version != "" :: rows[i].1.version
  }

  /** A candidate row of a hot package that has no version, or one of the newest N listed. */
  ghost predicate IsWarmed(rows: seq<Row>, i: nat, hot: set<PackageArch>, n: int)
    requires i < |rows|
  {
    var pair := PackageArch(rows[i].1.name, rows[i].1.arch);
    && pair in hot && IsOf(rows[i], pair)
    && (rows[i].1.version == "" || rows[i].1.version in Newest(ListedVersions(rows, pair), n))
  }

  function EntryOf(row: Row): (UrlKey, Hash) { (row.0.url, row.1.declared) }

  ghost function HotEntries(rows: seq<Row>, hot: set<PackageArch>, n: int): set<(UrlKey, Hash)> {
    set i | 0 <= i < |rows| && IsWarmed(rows, i, hot, n) :: EntryOf(rows[i])
  }

  predicate Belongs(row: Row, scheme: Scheme, host: string, id: SnapshotId) {
    row.0.url.scheme == scheme && row.0.url.host == host && row.0.snapshot == id
  }

  // ----- computing it -----

  /** Debian's order ranks the versions of each package consistently. */
  ghost predicate RankableRows(rows: seq<Row>) { forall pair :: DebianRanks(ListedVersions(rows, pair)) }

  /** The rows of one package, in list order. */
  function RowsOf(rows: seq<Row>, pair: PackageArch): seq<Row> {
    if rows == [] then []
    else RowsOf(rows[..|rows| - 1], pair) + (if IsOf(rows[|rows| - 1], pair) then [rows[|rows| - 1]] else [])
  }

  lemma {:induction false} RowsOfExactly(rows: seq<Row>, pair: PackageArch)
    ensures forall r :: r in RowsOf(rows, pair) <==> r in rows && IsOf(r, pair)
  {
    if rows != [] {
      RowsOfExactly(rows[..|rows| - 1], pair);
      assert rows == rows[..|rows| - 1] + [rows[|rows| - 1]];
    }
  }

  ghost predicate Indexes(rows: seq<Row>, index: map<PackageArch, seq<Row>>) {
    forall pair :: RowsOf(rows, pair) == if pair in index then index[pair] else []
  }

  method IndexRows(rows: seq<Row>, scheme: Scheme, host: string, id: SnapshotId)
    returns (r: Option<map<PackageArch, seq<Row>>>)
    ensures r.None? <==> exists i :: 0 <= i < |rows| && !Belongs(rows[i], scheme, host, id)
    ensures r.Some? ==> Indexes(rows, r.value)
  {
    var index: map<PackageArch, seq<Row>> := map[];
    for i := 0 to |rows|
      invariant forall j :: 0 <= j < i ==> Belongs(rows[j], scheme, host, id)
      invariant Indexes(rows[..i], index)
    {
      var row := rows[i];
      if !Belongs(row, scheme, host, id) { return None; }
      ghost var front := rows[..i];
      assert rows[..i + 1][..i] == front && rows[..i + 1][i] == row;
      var pair := PackageArch(row.1.name, row.1.arch);
      if pair.name == "" || pair.arch == "" { continue; }
      index := index[pair := (if pair in index then index[pair] else []) + [row]];
    }
    assert rows[..|rows|] == rows;
    r := Some(index);
  }

  /** The versions of one package's rows; version-less rows are warmed without ranking. */
  method WarmPair(matches: seq<Row>, n: int) returns (out: seq<(UrlKey, Hash)>)
    requires DebianRanks(VersionsListed(matches))
    ensures Elements(out) == set i | 0 <= i < |matches|
            && (matches[i].1.version == "" || matches[i].1.version in Newest(VersionsListed(matches), n)) ::
              EntryOf(matches[i])
  {
    hide Newest, DebianRanks;
    var versions: seq<string> := [];
    for i := 0 to |matches|
      invariant Elements(versions) == VersionsListed(matches[..i])
    {
      assert matches[..i + 1] == matches[..i] + [matches[i]];
      VersionsNext(matches, i);
      if matches[i].1.version == "" { continue; }
      assert Elements(versions + [matches[i].1.version]) == Elements(versions) + {matches[i].1.version};
      versions := versions + [matches[i].1.version];
    }
    assert matches[..|matches|] == matches;
    var keep := KeepNewest(versions, n);
    out := [];
    for i := 0 to |matches|
      invariant forall e :: e in out <==>
                exists j ::
                  0 <= j < i && (matches[j].1.version == "" || matches[j].1.version in keep) && EntryOf(matches[j]) == e
    {
      if matches[i].1.version == "" {
        out := out + [EntryOf(matches[i])];
        continue;
      }
      if matches[i].1.version !in keep { continue; }
      out := out + [EntryOf(matches[i])];
    }
  }

  ghost function VersionsListed(matches: seq<Row>): set<string> {
    set i | 0 <= i < |matches| && matches[i].1.version != "" :: matches[i].1.version
  }

  lemma VersionsNext(matches: seq<Row>, i: nat)
    requires i < |matches|
    ensures VersionsListed(matches[..i + 1]) ==
            VersionsListed(matches[..i]) + (if matches[i].1.version == "" then {} else {matches[i].1.version})
  {
    var (a, b) := (matches[..i], matches[..i + 1]);
    forall v | v in VersionsListed(a) ensures v in VersionsListed(b) {
      var j :| 0 <= j < |a| && a[j].1.version != "" && a[j].1.version == v;
      assert b[j] == a[j];
    }
    forall v | v in VersionsListed(b) ensures v in VersionsListed(a) || v == matches[i].1.version {
      var j :| 0 <= j < |b| && b[j].1.version != "" && b[j].1.version == v;
      if j < i { assert a[j] == b[j]; }
    }
    if matches[i].1.version != "" { assert b[i].1.version == matches[i].1.version; }
  }

  lemma PairVersions(rows: seq<Row>, pair: PackageArch)
    ensures VersionsListed(RowsOf(rows, pair)) == ListedVersions(rows, pair)
  {
    hide RowsOf;
    var matches := RowsOf(rows, pair);
    RowsOfExactly(rows, pair);
    forall v | v in VersionsListed(matches) ensures v in ListedVersions(rows, pair) {
      var j :| 0 <= j < |matches| && matches[j].1.version != "" && matches[j].1.version == v;
      assert matches[j] in rows;
      var i :| 0 <= i < |rows| && rows[i] == matches[j];
    }
    forall v | v in ListedVersions(rows, pair) ensures v in VersionsListed(matches) {
      var i :| 0 <= i < |rows| && IsOf(rows[i], pair) && rows[i].1.version != "" && rows[i].1.version == v;
      assert rows[i] in matches;
      var j :| 0 <= j < |matches| && matches[j] == rows[i];
    }
  }

  /** What one hot package contributes. */
  ghost function PairEntries(rows: seq<Row>, pair: PackageArch, n: int): set<(UrlKey, Hash)> {
    set i | 0 <= i < |rows| && IsWarmed(rows, i, {pair}, n) :: EntryOf(rows[i])
  }

  lemma WarmPairIs(rows: seq<Row>, pair: PackageArch, n: int)
    ensures var matches := RowsOf(rows, pair);
            PairEntries(rows, pair, n) ==
              set i | 0 <= i < |matches|
                && (matches[i].1.version == "" || matches[i].1.version in Newest(VersionsListed(matches), n)) ::
                  EntryOf(matches[i])
  {
    hide RowsOf, Newest;
    var matches := RowsOf(rows, pair);
    RowsOfExactly(rows, pair);
    PairVersions(rows, pair);
    var keep := Newest(VersionsListed(matches), n);
    forall i | 0 <= i < |rows| && IsWarmed(rows, i, {pair}, n)
      ensures exists j ::
              0 <= j < |matches| && matches[j] == rows[i]
                && (matches[j].1.version == "" || matches[j].1.version in keep)
    {
      assert rows[i] in matches;
      var j :| 0 <= j < |matches| && matches[j] == rows[i];
    }
    forall j | 0 <= j < |matches| && (matches[j].1.version == "" || matches[j].1.version in keep)
      ensures exists i :: 0 <= i < |rows| && rows[i] == matches[j] && IsWarmed(rows, i, {pair}, n)
    {
      assert matches[j] in rows;
      var i :| 0 <= i < |rows| && rows[i] == matches[j];
      assert PackageArch(rows[i].1.name, rows[i].1.arch) == pair;
      assert IsWarmed(rows, i, {pair}, n);
    }
  }

  lemma EntriesNext(rows: seq<Row>, hot: set<PackageArch>, pair: PackageArch, n: int)
    ensures HotEntries(rows, hot + {pair}, n) == HotEntries(rows, hot, n) + PairEntries(rows, pair, n)
  {
    hide Newest, ListedVersions, IsOf;
    forall i | 0 <= i < |rows|
      ensures IsWarmed(rows, i, hot + {pair}, n) <==> IsWarmed(rows, i, hot, n) || IsWarmed(rows, i, {pair}, n) {}
  }

  /** ComputeHotSet: None when a row is not the candidate's; nothing without a prior snapshot or a window. */
  method ComputeHotSet(db: Db, scheme: Scheme, host: string, prior: Option<SnapshotId>, id: SnapshotId, rows: seq<Row>,
                       window: int, now: Time, n: int) returns (r: Option<seq<(UrlKey, Hash)>>)
    requires RankableRows(rows)
    ensures prior.None? || window == 0 ==> r == Some([])
    ensures prior.Some? && window != 0 ==>
              var hot := HotPairs(db, prior.value, now - window);
              if hot == {} then r == Some([])
              else if exists i :: 0 <= i < |rows| && !Belongs(rows[i], scheme, host, id) then r.None?
              else r.Some? && Elements(r.value) == HotEntries(rows, hot, n)
  {
    if prior.None? || window == 0 { return Some([]); }
    var hot := HotPairs(db, prior.value, now - window);
    PairsAreStrict(hot);
    var pairs := SortedSeq(PairLess, hot);
    if |pairs| == 0 { return Some([]); }
    var indexed := IndexRows(rows, scheme, host, id);
    if indexed.None? { return None; }
    hide HotPairs, HotEntries, Indexes, RankableRows;
    var out := WarmPairs(rows, indexed.value, pairs, n);
    r := Some(out);
  }

  method WarmPairs(rows: seq<Row>, index: map<PackageArch, seq<Row>>, pairs: seq<PackageArch>, n: int)
    returns (out: seq<(UrlKey, Hash)>)
    requires RankableRows(rows) && Indexes(rows, index)
    ensures Elements(out) == HotEntries(rows, Elements(pairs), n)
  {
    hide RowsOf, HotEntries, PairEntries, Newest, RankableRows;
    out := [];
    assert Elements(pairs[..0]) == {};
    NoEntries(rows, n);
    for i := 0 to |pairs|
      invariant Elements(out) == HotEntries(rows, Elements(pairs[..i]), n)
    {
      ElementsNext(pairs, i);
      EntriesNext(rows, Elements(pairs[..i]), pairs[i], n);
      WarmPairIs(rows, pairs[i], n);
      assert RowsOf(rows, pairs[i]) == if pairs[i] in index then index[pairs[i]] else [];
      if pairs[i] !in index { continue; }
      PairVersions(rows, pairs[i]);
      RankablePair(rows, pairs[i]);
      var warmed := WarmPair(index[pairs[i]], n);
      assert Elements(out + warmed) == Elements(out) + Elements(warmed);
      out := out + warmed;
    }
    assert pairs[..|pairs|] == pairs;
  }

  lemma NoEntries(rows: seq<Row>, n: int)
    ensures HotEntries(rows, {}, n) == {}
  {
  }

  lemma RankablePair(rows: seq<Row>, pair: PackageArch)
    requires RankableRows(rows)
    ensures DebianRanks(ListedVersions(rows, pair))
  {
    hide DebianRanks, ListedVersions;
  }

  /** The rows are rankable whenever no version holds a NUL byte. */
  lemma NulFreeRows(rows: seq<Row>)
    requires forall i :: 0 <= i < |rows| ==> Versions.NulFree(rows[i].1.version)
    ensures RankableRows(rows)
  {
    hide Versions.NulFree, DebianRanks;
    forall pair ensures DebianRanks(ListedVersions(rows, pair)) { DebianPreorder(ListedVersions(rows, pair)); }
  }

  // ----- retention keeps what prefetch warmed -----

  lemma {:induction false} WarmedBlob(urls: Urls, rows: seq<(UrlKey, Hash)>, now: Time, k: UrlKey)
    requires exists i :: 0 <= i < |rows| && rows[i].0 == k
    ensures k in WarmRows(urls, rows, now)
    ensures exists i :: 0 <= i < |rows| && rows[i].0 == k && WarmRows(urls, rows, now)[k].blob == Some(rows[i].1)
    decreases |rows|
  {
    var last := |rows| - 1;
    if rows[last].0 != k {
      var front := rows[..last];
      var i :| 0 <= i < |rows| && rows[i].0 == k;
      assert front[i].0 == k;
      WarmedBlob(urls, front, now, k);
      var j :| 0 <= j < |front| && front[j].0 == k && WarmRows(urls, front, now)[k].blob == Some(front[j].1);
      assert rows[j] == front[j];
    }
  }

  lemma {:induction false} SeededOrSame(urls: Urls, s: Snapshot, names: seq<string>, now: Time, k: UrlKey)
    requires k in urls
    ensures k in SeedAnchors(urls, s, names, now)
    ensures SeedAnchors(urls, s, names, now)[k].blob == urls[k].blob || exists i ::
            0 <= i < |names| && k == AnchorUrl(s.key, names[i])
    decreases |names|
  {
    hide AnchorHash, AnchorUrl;
    if names != [] {
      var front := names[..|names| - 1];
      SeededOrSame(urls, s, front, now, k);
      if i :| 0 <= i < |front| && k == AnchorUrl(s.key, front[i]) { assert names[i] == front[i]; }
    }
  }

  /** The current snapshot's own anchor paths are guarded. */
  lemma AnchorIsGuarded(c: Catalog, key: SuiteKey, id: SnapshotId, i: nat)
    requires key in c.suites && c.suites[key].current == Some(id) && id in c.snapshots
    requires i < |AnchorNames(c.snapshots[id].form)|
    ensures AnchorGuarded(c, AnchorUrl(key, AnchorNames(c.snapshots[id].form)[i]))
  {
    hide AnchorNames;
    assert IsAnchorOf(c.snapshots[id].form, key.path, AnchorUrl(key, AnchorNames(c.snapshots[id].form)[i]).path);
  }

  /** The suite's current snapshot is the only one whose versions are ranked. */
  lemma OnlyCurrentRanks(c: Catalog, key: SuiteKey, id: SnapshotId, p: PackageKey, r: Ranked)
    requires CurrentOk(c.suites, c.snapshots) && key in c.suites && c.suites[key].current == Some(id) && r.key == key
    requires Ranks(c, p, r)
    ensures p.snapshot == id
  {
    var k :| k in c.suites && c.suites[k].current == Some(p.snapshot);
  }

  lemma OwnRow(packages: Packages, id: SnapshotId, p: PackageKey)
    requires p.snapshot == id
    ensures p in packages ==> p in PackagesOf(packages, id)
  {
  }

  /** The adopted snapshot's declarations are exactly the candidate's rows. */
  lemma AdoptedRows(packages: Packages, rows: seq<Row>, id: SnapshotId, p: PackageKey)
    requires PackagesOf(packages, id) == {} && AllNew(packages, rows) && p.snapshot == id
    ensures p in Added(packages, rows) <==> exists i :: 0 <= i < |rows| && rows[i].0 == p
    ensures p in Added(packages, rows) ==> exists i :: 0 <= i < |rows| && rows[i] == (p, Added(packages, rows)[p])
  {
    hide Added;
    OwnRow(packages, id, p);
    IntegritySteps.AddedRows(packages, rows, p);
  }

  lemma AddedValue(packages: Packages, rows: seq<Row>, id: SnapshotId, i: nat)
    requires PackagesOf(packages, id) == {} && AllNew(packages, rows) && i < |rows| && rows[i].0.snapshot == id
    ensures rows[i].0 in Added(packages, rows) && Added(packages, rows)[rows[i].0] == rows[i].1
  {
    hide Added;
    AdoptedRows(packages, rows, id, rows[i].0);
    var j :| 0 <= j < |rows| && rows[j] == (rows[i].0, Added(packages, rows)[rows[i].0]);
    assert i == j;
  }

  lemma RankedVersions(c: Catalog, db: Db, key: SuiteKey, id: SnapshotId, rows: seq<Row>, pair: PackageArch)
    requires CurrentOk(c.suites, c.snapshots) && key in c.suites && c.suites[key].current == Some(id)
    requires id in c.snapshots && c.snapshots[id].key == key
    requires PackagesOf(db.packages, id) == {} && AllNew(db.packages, rows) && c.packages == Added(db.packages, rows)
    requires pair.name != "" && pair.arch != "" && forall i :: 0 <= i < |rows| ==>
             Belongs(rows[i], key.scheme, key.host, id)
    ensures VersionsOf(c, Ranked(key, pair.name, pair.arch)) == ListedVersions(rows, pair)
  {
    hide Added, CurrentOk, Currents;
    var r := Ranked(key, pair.name, pair.arch);
    forall v | v in VersionsOf(c, r) ensures v in ListedVersions(rows, pair) {
      var p :| p in c.packages && Ranks(c, p, r) && c.packages[p].version == v;
      OnlyCurrentRanks(c, key, id, p, r);
      AdoptedRows(db.packages, rows, id, p);
      var i :| 0 <= i < |rows| && rows[i] == (p, c.packages[p]);
      assert IsOf(rows[i], pair);
    }
    forall v | v in ListedVersions(rows, pair) ensures v in VersionsOf(c, r) {
      var i :| 0 <= i < |rows| && IsOf(rows[i], pair) && rows[i].1.version != "" && rows[i].1.version == v;
      assert Belongs(rows[i], key.scheme, key.host, id);
      AddedValue(db.packages, rows, id, i);
      assert id in Currents(c.suites) by { IsCurrentKey(c.suites, key, id); }
      assert Ranks(c, rows[i].0, r);
    }
  }

  lemma IsCurrentKey(suites: Suites, key: SuiteKey, id: SnapshotId)
    requires key in suites && suites[key].current == Some(id)
    ensures id in Currents(suites)
  {
  }

  /** A warmed row's declaration is unrankable, or among the newest N of its package in the new current snapshot. */
  lemma WarmedIsMirrored(c: Catalog, db: Db, key: SuiteKey, id: SnapshotId, rows: seq<Row>, hot: set<PackageArch>,
                         n: int, i: nat)
    requires CurrentOk(c.suites, c.snapshots) && key in c.suites && c.suites[key].current == Some(id)
    requires id in c.snapshots && c.snapshots[id].key == key
    requires PackagesOf(db.packages, id) == {} && AllNew(db.packages, rows) && c.packages == Added(db.packages, rows)
    requires (forall j :: 0 <= j < |rows| ==> Belongs(rows[j], key.scheme, key.host, id)) && i < |rows|
    requires IsWarmed(rows, i, hot, n)
    ensures Mirrored(c, rows[i].0.url, rows[i].1.declared, n)
  {
    hide Added, CurrentOk, Currents, Newest, VersionsOf, ListedVersions;
    var (k, p) := (rows[i].0.url, rows[i].0);
    assert Belongs(rows[i], key.scheme, key.host, id);
    AddedValue(db.packages, rows, id, i);
    IsCurrentKey(c.suites, key, id);
    assert Declares(c, p, k, rows[i].1.declared);
    var m := MatchOf(c, p);
    assert m in Matches(c, k, rows[i].1.declared);
    RankedVersions(c, db, key, id, rows, PackageArch(rows[i].1.name, rows[i].1.arch));
    if m.version == "" { assert Incomplete(m); }
    else { assert m.version in Newest(VersionsOf(c, RankedBy(k, m)), n); }
  }

  /** Prefetch and retention agree: in the state a commit leaves, every row it warmed from the hot set of its own
      rows is retained for the same N, whatever the request TTL and without any client request. */
  lemma PrefetchIsRetained(db: Db, id: SnapshotId, a: Adoption, now: Time, hot: set<PackageArch>, n: int, k: UrlKey,
                           cutoff: Time)
    requires Inv(db) && CommitError(db, id, a).None? && PackagesOf(db.packages, id) == {}
    requires var key := db.snapshots[id].key;
             forall i :: 0 <= i < |a.packages| ==>
               a.packages[i].0.scheme == key.scheme && a.packages[i].0.host == key.host
    requires forall i :: 0 <= i < |a.prefetched| ==>
             a.prefetched[i] in HotEntries(KeyedPackages(id, a.packages), hot, n)
    requires exists i :: 0 <= i < |a.prefetched| && a.prefetched[i].0 == k
    ensures var d := Committed(db, id, a, now); k in d.urls && Retained(CatalogOf(d), k, d.urls[k], cutoff, n)
  {
    hide Inv, CommitError, Committed, Added, WarmRows, SeedAnchors, AnchorNames, ContentGuarded, AnchorGuarded,
         Mirrored, CurrentOk, AllNew, IsWarmed, PackagesOf, RecentlyRequested;
    CommittedTables(db, id, a, now);
    var (s, rows, d) := (db.snapshots[id], KeyedPackages(id, a.packages), Committed(db, id, a, now));
    assert forall i :: 0 <= i < |rows| ==> Belongs(rows[i], s.key.scheme, s.key.host, id);
    var (c, warm) := (CatalogOf(d), WarmRows(db.urls, a.prefetched, now));
    WarmedBlob(db.urls, a.prefetched, now, k);
    SeededOrSame(warm, s, AnchorNames(s.form), now, k);
    if i :| 0 <= i < |AnchorNames(s.form)| && k == AnchorUrl(s.key, AnchorNames(s.form)[i]) {
      AnchorIsGuarded(c, s.key, id, i);
    } else {
      var j :| 0 <= j < |a.prefetched| && a.prefetched[j].0 == k && warm[k].blob == Some(a.prefetched[j].1);
      var i :| 0 <= i < |rows| && IsWarmed(rows, i, hot, n) && EntryOf(rows[i]) == a.prefetched[j];
      WarmedIsMirrored(c, db, s.key, id, rows, hot, n, i);
    }
  }

  lemma CommittedTables(db: Db, id: SnapshotId, a: Adoption, now: Time)
    requires Inv(db) && CommitError(db, id, a).None?
    ensures id in db.snapshots
    ensures var (d, s) := (Committed(db, id, a, now), db.snapshots[id]);
            && CurrentOk(d.suites, d.snapshots) && s.key in d.suites && d.suites[s.key].current == Some(id)
            && id in d.snapshots && d.snapshots[id].key == s.key && d.snapshots[id].form == s.form
            && AllNew(db.packages, KeyedPackages(id, a.packages))
            && d.packages == Added(db.packages, KeyedPackages(id, a.packages))
            && d.urls == SeedAnchors(WarmRows(db.urls, a.prefetched, now), s, AnchorNames(s.form), now)
  {
    hide Inv, CurrentOk, Added, WarmRows, SeedAnchors, AnchorNames, AdoptionStamp, Bump, ReleasePrior, PinSet,
         SignedHistory, BlobsStored, WarmStored, Keyed, MarkSeen;
    CommitIsSound(db, id, a, now);
  }

  lemma CommitIsSound(db: Db, id: SnapshotId, a: Adoption, now: Time)
    requires Inv(db) && CommitError(db, id, a).None?
    ensures CurrentOk(Committed(db, id, a, now).suites, Committed(db, id, a, now).snapshots)
  {
    hide CommitError, Committed, CurrentOk, NaturalOk, SignedOk, UrlRefs, MemberRefs, AnchorRefs, ZeroedOk, IdsOk,
         FormsOk, GenerationsOk;
    IntegritySteps.CommitKeeps(db, id, a, now);
  }
}
