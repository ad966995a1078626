/** Version-aware retention of url_path rows: which rows the collector keeps, what it does to one row,
    and a whole pass over the table. */
module Retention {
  import opened Text
  import opened Tables
  import opened NewestN
  import Versions

  /** The tables a verdict reads and the pass never changes. */
  datatype Catalog = Catalog(suites: Suites, snapshots: Snapshots, members: Members, packages: Packages)

  function CatalogOf(db: Db): Catalog { Catalog(db.suites, db.snapshots, db.members, db.packages) }

  /** The pass's settings: at one time, `cutoff` is now less the request TTL. */
  datatype Pass = Pass(now: Time, cutoff: Time, hold: int, versions: int)

  // ----- the verdict -----

  predicate RecentlyRequested(row: UrlRow, cutoff: Time) {
    row.lastRequested.Some? && row.lastRequested.value >= cutoff
  }

  /** A current snapshot's member or anchor has this content. */
  predicate ContentGuarded(c: Catalog, h: Hash) {
    || (exists m :: m in c.members && c.members[m].blob == h && m.snapshot in Currents(c.suites))
    || (exists s :: s in c.snapshots && h in AnchorBlobs(c.snapshots[s].anchors) && s in Currents(c.suites))
  }

  /** The path is an anchor of a suite whose current snapshot has that anchor form. */
  predicate AnchorGuarded(c: Catalog, k: UrlKey) {
    exists s :: s in c.suites && s.scheme == k.scheme && s.host == k.host
      && c.suites[s].current.Some? && c.suites[s].current.value in c.snapshots
      && IsAnchorOf(c.snapshots[c.suites[s].current.value].form, s.path, k.path)
  }

  predicate IsAnchorOf(form: Form, suite: string, path: string) {
    exists i :: 0 <= i < |AnchorNames(form)| && path == suite + "/" + AnchorNames(form)[i]
  }

  /** A declaration of a row's content by a current snapshot. */
  datatype Match = Match(suite: string, name: string, arch: string, version: string)

  predicate Declares(c: Catalog, p: PackageKey, k: UrlKey, h: Hash) {
    && p in c.packages && p.url == k && c.packages[p].declared == h
    && p.snapshot in c.snapshots && p.snapshot in Currents(c.suites)
  }

  function MatchOf(c: Catalog, p: PackageKey): Match
    requires p in c.packages && p.snapshot in c.snapshots
  {
    Match(c.snapshots[p.snapshot].key.path, c.packages[p].name, c.packages[p].arch, c.packages[p].version)
  }

  function Matches(c: Catalog, k: UrlKey, h: Hash): set<Match> {
    set p | p in c.packages && Declares(c, p, k, h) :: MatchOf(c, p)
  }

  predicate Incomplete(m: Match) { m.name == "" || m.arch == "" || m.version == "" }

  /** The package a ranking is of: the memo's key. */
  datatype Ranked = Ranked(key: SuiteKey, name: string, arch: string)

  function RankedBy(k: UrlKey, m: Match): Ranked { Ranked(SuiteKey(k.scheme, k.host, m.suite), m.name, m.arch) }

  predicate Ranks(c: Catalog, p: PackageKey, r: Ranked) {
    && p in c.packages && p.snapshot in c.snapshots && c.snapshots[p.snapshot].key == r.key
    && p.url.scheme == r.key.scheme && p.url.host == r.key.host
    && c.packages[p].name == r.name && c.packages[p].arch == r.arch && c.packages[p].version != ""
    && p.snapshot in Currents(c.suites)
  }

  /** The versions of a package that its suite's current snapshot lists. */
  function VersionsOf(c: Catalog, r: Ranked): set<string> {
    set p | p in c.packages && Ranks(c, p, r) :: c.packages[p].version
  }

  /** Some declaration of the row's content is unrankable, or among its package's newest N. */
  ghost predicate Mirrored(c: Catalog, k: UrlKey, h: Hash, n: int) {
    || (exists m :: m in Matches(c, k, h) && Incomplete(m))
    || (exists m :: m in Matches(c, k, h) && m.version in Newest(VersionsOf(c, RankedBy(k, m)), n))
  }

  ghost predicate Retained(c: Catalog, k: UrlKey, row: UrlRow, cutoff: Time, n: int) {
    || RecentlyRequested(row, cutoff)
    || (row.blob.Some? && ContentGuarded(c, row.blob.value))
    || AnchorGuarded(c, k)
    || (row.blob.Some? && Mirrored(c, k, row.blob.value, n))
  }

  /** Debian's order ranks the versions of each package consistently. */
  ghost predicate Rankable(c: Catalog) { forall r :: DebianRanks(VersionsOf(c, r)) }

  /** It does whenever no listed version holds a NUL byte. */
  lemma NulFreeIsRankable(c: Catalog)
    requires forall p :: p in c.packages ==> Versions.NulFree(c.packages[p].version)
    ensures Rankable(c)
  {
    hide Versions.NulFree, DebianRanks;
    forall r ensures DebianRanks(VersionsOf(c, r)) { DebianPreorder(VersionsOf(c, r)); }
  }

  // ----- one row -----

  predicate Expired(row: UrlRow, p: Pass) { row.droppedAt.Some? && p.now - row.droppedAt.value >= p.hold }

  ghost predicate Deletes(c: Catalog, k: UrlKey, row: UrlRow, p: Pass) {
    !Retained(c, k, row, p.cutoff, p.versions) && (p.hold <= 0 || Expired(row, p))
  }

  /** A row the pass does not delete: retained rows lose their drop stamp, others get one and keep the first. */
  ghost function Settled(c: Catalog, k: UrlKey, row: UrlRow, p: Pass): UrlRow {
    if Retained(c, k, row, p.cutoff, p.versions) then row.(droppedAt := None)
    else if row.droppedAt.None? then row.(droppedAt := Some(p.now))
    else row
  }

  // ----- a set of rows, each evaluated once -----

  ghost function Doomed(f: Files, c: Catalog, ks: set<UrlKey>, p: Pass): set<UrlKey> {
    set k | k in ks && k in f.urls && Deletes(c, k, f.urls[k], p)
  }

  ghost function Sweep(f: Files, c: Catalog, ks: set<UrlKey>, p: Pass): Files {
    var g := DropKeys(f, Doomed(f, c, ks, p), p.now);
    Files(map k | k in g.urls :: if k in ks then Settled(c, k, g.urls[k], p) else g.urls[k], g.blobs)
  }

  lemma SettledKeepsBlob(c: Catalog, k: UrlKey, row: UrlRow, p: Pass)
    ensures Settled(c, k, row, p).blob == row.blob
  {
  }

  /** What a sweep leaves of the table. */
  lemma SweepUrls(f: Files, c: Catalog, ks: set<UrlKey>, p: Pass, k: UrlKey)
    ensures k in Sweep(f, c, ks, p).urls <==> k in f.urls && !(k in ks && Deletes(c, k, f.urls[k], p))
    ensures k in Sweep(f, c, ks, p).urls ==>
              Sweep(f, c, ks, p).urls[k] == if k in ks then Settled(c, k, f.urls[k], p) else f.urls[k]
  {
    hide Deletes, Settled;
  }

  lemma LoweredTwice(b: Blob, m: nat, n: nat, now: Time)
    ensures Lowered(Lowered(b, m, now), n, now) == Lowered(b, m + n, now)
  {
  }

  lemma DoomedSplits(f: Files, c: Catalog, ks: set<UrlKey>, ls: set<UrlKey>, p: Pass)
    requires ks !! ls
    ensures Doomed(Sweep(f, c, ks, p), c, ls, p) == Doomed(f, c, ls, p)
    ensures Doomed(f, c, ks + ls, p) == Doomed(f, c, ks, p) + Doomed(f, c, ls, p)
  {
    hide Deletes, Settled;
    forall k | k in ls ensures k in Sweep(f, c, ks, p).urls <==> k in f.urls { SweepUrls(f, c, ks, p, k); }
    forall k | k in ls && k in f.urls ensures Sweep(f, c, ks, p).urls[k] == f.urls[k] { SweepUrls(f, c, ks, p, k); }
  }

  lemma SweepBlob(f: Files, c: Catalog, ks: set<UrlKey>, ls: set<UrlKey>, p: Pass, h: Hash)
    requires ks !! ls && h in f.blobs
    ensures h in Sweep(Sweep(f, c, ks, p), c, ls, p).blobs && h in Sweep(f, c, ks + ls, p).blobs
    ensures Sweep(Sweep(f, c, ks, p), c, ls, p).blobs[h] == Sweep(f, c, ks + ls, p).blobs[h]
  {
    hide Deletes, Settled, Lowered, Doomed, Sweep, Naming;
    var g := Sweep(f, c, ks, p);
    var (a, b) := (Doomed(f, c, ks, p), Doomed(f, c, ls, p));
    SweptBlob(f, c, ks, p, h);
    SweptBlob(f, c, ks + ls, p, h);
    SweptBlob(g, c, ls, p, h);
    DoomedSplits(f, c, ks, ls, p);
    DoomedIn(f, c, ks, p);
    DoomedIn(f, c, ls, p);
    NamingAfterSweep(f, c, ks, p, b, h);
    NamingSplits(f.urls, a, b, h);
    LoweredTwice(f.blobs[h], |Naming(f.urls, a, h)|, |Naming(f.urls, b, h)|, p.now);
  }

  lemma NamingSplits(urls: Urls, a: set<UrlKey>, b: set<UrlKey>, h: Hash)
    requires a !! b
    ensures |Naming(urls, a + b, h)| == |Naming(urls, a, h)| + |Naming(urls, b, h)|
  {
    assert Naming(urls, a + b, h) == Naming(urls, a, h) + Naming(urls, b, h);
  }

  lemma DoomedIn(f: Files, c: Catalog, ks: set<UrlKey>, p: Pass)
    ensures Doomed(f, c, ks, p) <= ks && Doomed(f, c, ks, p) <= f.urls.Keys
  {
  }

  lemma SweptBlob(f: Files, c: Catalog, ks: set<UrlKey>, p: Pass, h: Hash)
    requires h in f.blobs
    ensures h in Sweep(f, c, ks, p).blobs
    ensures Sweep(f, c, ks, p).blobs[h] == Lowered(f.blobs[h], |Naming(f.urls, Doomed(f, c, ks, p), h)|, p.now)
  {
  }

  lemma NamingAfterSweep(f: Files, c: Catalog, ks: set<UrlKey>, p: Pass, b: set<UrlKey>, h: Hash)
    requires b !! ks
    ensures Naming(Sweep(f, c, ks, p).urls, b, h) == Naming(f.urls, b, h)
  {
    hide Sweep, Deletes, Settled;
    forall k | k in b ensures k in Naming(Sweep(f, c, ks, p).urls, b, h) <==> k in Naming(f.urls, b, h) {
      SweepUrls(f, c, ks, p, k);
    }
  }

  /** Two sweeps over disjoint sets of rows are one sweep over both. */
  lemma SweepTwice(f: Files, c: Catalog, ks: set<UrlKey>, ls: set<UrlKey>, p: Pass)
    requires ks !! ls
    ensures Sweep(Sweep(f, c, ks, p), c, ls, p) == Sweep(f, c, ks + ls, p)
  {
    hide Sweep, Deletes, Settled;
    var (g, all) := (Sweep(f, c, ks, p), Sweep(f, c, ks + ls, p));
    var two := Sweep(g, c, ls, p);
    forall k ensures k in two.urls <==> k in all.urls {
      SweepUrls(f, c, ks, p, k); SweepUrls(g, c, ls, p, k); SweepUrls(f, c, ks + ls, p, k);
    }
    forall k | k in two.urls ensures two.urls[k] == all.urls[k] {
      SweepUrls(f, c, ks, p, k); SweepUrls(g, c, ls, p, k); SweepUrls(f, c, ks + ls, p, k);
    }
    assert two.urls == all.urls;
    SweepKeys(f, c, ks, p); SweepKeys(g, c, ls, p); SweepKeys(f, c, ks + ls, p);
    forall h | h in f.blobs ensures two.blobs[h] == all.blobs[h] { SweepBlob(f, c, ks, ls, p, h); }
    assert two.blobs == all.blobs;
  }

  lemma SweepKeys(f: Files, c: Catalog, ks: set<UrlKey>, p: Pass)
    ensures Sweep(f, c, ks, p).blobs.Keys == f.blobs.Keys
  {
  }

  /** A row the SQL prefilter skips: requested within the TTL and never stamped. */
  predicate Skipped(row: UrlRow, cutoff: Time) { RecentlyRequested(row, cutoff) && row.droppedAt.None? }

  /** Sweeping skipped rows, or keys with no row, changes nothing. */
  lemma SweepSkipped(f: Files, c: Catalog, ks: set<UrlKey>, p: Pass)
    requires forall k :: k in ks && k in f.urls ==> Skipped(f.urls[k], p.cutoff)
    ensures Sweep(f, c, ks, p) == f
  {
    assert Doomed(f, c, ks, p) == {};
    DropNone(f, p.now);
    var g := Sweep(f, c, ks, p);
    forall k | k in f.urls ensures k in g.urls && g.urls[k] == f.urls[k] { SweepUrls(f, c, ks, p, k); }
    assert g.urls == f.urls;
  }
}
