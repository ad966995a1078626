/** What every reachable database satisfies, table by table, and that each transaction keeps it. */
module Integrity {
  import opened Text
  import opened Tables
  import opened Retention
  import opened Transactions

  // ----- foreign keys and schema constraints -----

  ghost predicate UrlRefs(urls: Urls, hs: set<Hash>) {
    forall k :: k in urls && urls[k].blob.Some? ==> urls[k].blob.value in hs
  }

  ghost predicate MemberRefs(members: Members, hs: set<Hash>) { forall m :: m in members ==> members[m].blob in hs }

  ghost predicate AnchorRefs(snapshots: Snapshots, hs: set<Hash>) {
    forall s :: s in snapshots ==> AnchorBlobs(snapshots[s].anchors) <= hs
  }

  ghost predicate MembersHaveSnapshot(members: Members, ids: set<SnapshotId>) {
    forall m :: m in members ==> m.snapshot in ids
  }
  ghost predicate SkippedHaveSnapshot(skipped: Skipped, ids: set<SnapshotId>) {
    forall m :: m in skipped ==> m.snapshot in ids
  }
  ghost predicate PackagesHaveSnapshot(packages: Packages, ids: set<SnapshotId>) {
    forall p :: p in packages ==> p.snapshot in ids
  }

  /** A detached snapshot has two anchor files, every other form one. */
  ghost predicate FormsOk(snapshots: Snapshots) {
    forall s :: s in snapshots ==> (snapshots[s].anchors.Pair? <==> snapshots[s].form.Detached?)
  }

  /** No two live snapshots share a natural key. */
  ghost predicate NaturalOk(snapshots: Snapshots) {
    forall s, t :: s in snapshots && t in snapshots && ShareNatural(snapshots[s], snapshots[t]) ==> s == t
  }

  predicate ShareNatural(s: Snapshot, t: Snapshot) {
    s.retiredAt.None? && SameNatural(t, s.key, s.form, NaturalHash(s.anchors))
  }

  ghost predicate IdsOk(snapshots: Snapshots, next: SnapshotId) { forall s :: s in snapshots ==> s < next }

  /** refcount_zeroed_at is set exactly when the refcount is not positive. */
  ghost predicate ZeroedOk(blobs: Blobs) {
    forall h :: h in blobs ==> (blobs[h].zeroedAt.Some? <==> blobs[h].refcount <= 0)
  }

  ghost predicate GenerationsOk(suites: Suites, clock: nat) {
    forall k :: k in suites ==> suites[k].generation <= clock
  }

  // ----- adoption -----

  /** A current snapshot is an adopted, live snapshot of its row's own suite. */
  ghost predicate CurrentOk(suites: Suites, snapshots: Snapshots) {
    forall k :: k in suites && suites[k].current.Some? ==>
      var c := suites[k].current.value;
      c in snapshots && snapshots[c].key == k && snapshots[c].adoptedAt.Some? && snapshots[c].retiredAt.None?
  }

  /** The suite's current snapshot, if it has one, was adopted strictly after every other snapshot of the suite, retired
      ones included. A migrated database may have ties, so this is not part of the invariant. */
  ghost predicate NewestAt(suites: Suites, snapshots: Snapshots, k: SuiteKey) {
    k in suites && suites[k].current.Some? ==>
      var c := suites[k].current.value;
      forall s :: Rivals(snapshots, k, s, c) ==> AdoptedBefore(snapshots, s, c)
  }

  /** s is another adopted snapshot of the suite. */
  predicate Rivals(snapshots: Snapshots, k: SuiteKey, s: SnapshotId, c: SnapshotId) {
    s in snapshots && snapshots[s].key == k && snapshots[s].adoptedAt.Some? && s != c
  }

  /** The suite has a current snapshot. */
  predicate HasCurrent(db: Db, key: SuiteKey) { key in db.suites && db.suites[key].current.Some? }

  predicate AdoptedBefore(snapshots: Snapshots, s: SnapshotId, t: SnapshotId) {
    && s in snapshots && t in snapshots && snapshots[s].adoptedAt.Some? && snapshots[t].adoptedAt.Some?
    && snapshots[s].adoptedAt.value < snapshots[t].adoptedAt.value
  }

  /** A live signed snapshot has a suite row and is queued for the audit or has its base marked. */
  ghost predicate SignedOk(suites: Suites, snapshots: Snapshots, markers: Markers, queue: set<SnapshotId>) {
    forall s :: s in snapshots && LiveSigned(snapshots[s]) ==>
      snapshots[s].key in suites.Keys && (s in queue || MarkerOf(snapshots[s].key) in markers.Keys)
  }

  ghost predicate Inv(db: Db) {
    && UrlRefs(db.urls, db.blobs.Keys) && MemberRefs(db.members, db.blobs.Keys)
    && AnchorRefs(db.snapshots, db.blobs.Keys)
    && MembersHaveSnapshot(db.members, db.snapshots.Keys) && SkippedHaveSnapshot(db.skipped, db.snapshots.Keys)
    && PackagesHaveSnapshot(db.packages, db.snapshots.Keys)
    && FormsOk(db.snapshots) && NaturalOk(db.snapshots) && IdsOk(db.snapshots, db.nextId)
    && ZeroedOk(db.blobs) && GenerationsOk(db.suites, db.clock)
    && CurrentOk(db.suites, db.snapshots) && SignedOk(db.suites, db.snapshots, db.markers, db.queue)
  }

  const EMPTY := Db(map[], map[], map[], map[], map[], map[], map[], map[], {}, 0, 0)

  lemma EmptyOk()
    ensures Inv(EMPTY)
  {
  }

  /** A database fresh from the migration that introduced the audit: its adopted snapshots are all queued and their
      suites have rows. */
  lemma QueuedStartOk(db: Db)
    requires UrlRefs(db.urls, db.blobs.Keys) && MemberRefs(db.members, db.blobs.Keys)
    requires AnchorRefs(db.snapshots, db.blobs.Keys)
    requires MembersHaveSnapshot(db.members, db.snapshots.Keys) && SkippedHaveSnapshot(db.skipped, db.snapshots.Keys)
    requires PackagesHaveSnapshot(db.packages, db.snapshots.Keys) && FormsOk(db.snapshots) && NaturalOk(db.snapshots)
    requires IdsOk(db.snapshots, db.nextId) && ZeroedOk(db.blobs) && CurrentOk(db.suites, db.snapshots)
    requires forall k :: k in db.suites ==> db.suites[k].generation == 0
    requires forall s :: s in db.snapshots && db.snapshots[s].adoptedAt.Some? ==>
             s in db.queue && db.snapshots[s].key in db.suites
    ensures Inv(db)
  {
  }

  // ----- blobs -----

  lemma PutBlobKeeps(db: Db, h: Hash, now: Time)
    requires Inv(db)
    ensures Inv(PutBlob(db, h, now))
  {
    hide NaturalOk, CurrentOk, SignedOk, GenerationsOk, IdsOk, FormsOk;
    assert db.blobs.Keys <= PutBlob(db, h, now).blobs.Keys;
  }

  lemma HeartbeatKeeps(db: Db, hs: set<Hash>, now: Time)
    requires Inv(db)
    ensures Inv(HeartbeatBlobs(db, hs, now))
  {
    hide NaturalOk, CurrentOk, SignedOk, GenerationsOk, IdsOk, FormsOk, UrlRefs, MemberRefs, AnchorRefs;
    assert db.blobs.Keys == HeartbeatBlobs(db, hs, now).blobs.Keys;
  }

  lemma ReapBlobsKeeps(db: Db, hs: set<Hash>, cutoff: Time)
    requires Inv(db) && hs <= Reapable(db, cutoff)
    ensures Inv(ReapBlobs(db, hs))
  {
    hide NaturalOk, CurrentOk, SignedOk, GenerationsOk, IdsOk, FormsOk;
    var left := ReapBlobs(db, hs).blobs.Keys;
    forall h | h in hs ensures !Referenced(db, h) {}
    assert UrlRefs(db.urls, left);
    assert MemberRefs(db.members, left);
    forall s, h | s in db.snapshots && h in AnchorBlobs(db.snapshots[s].anchors) ensures h in left {
      assert AnchorNamesBlob(db.snapshots, h);
    }
    assert AnchorRefs(db.snapshots, left);
  }

  lemma BumpOk(blobs: Blobs, hs: set<Hash>)
    requires ZeroedOk(blobs)
    ensures ZeroedOk(Bump(blobs, hs)) && Bump(blobs, hs).Keys == blobs.Keys
  {
  }

  lemma ReleaseOk(blobs: Blobs, hs: set<Hash>, now: Time)
    requires ZeroedOk(blobs)
    ensures ZeroedOk(Release(blobs, hs, now)) && Release(blobs, hs, now).Keys == blobs.Keys
  {
  }

  lemma ReleasePriorOk(blobs: Blobs, members: Members, prior: Option<SnapshotId>, now: Time)
    requires ZeroedOk(blobs)
    ensures ZeroedOk(ReleasePrior(blobs, members, prior, now))
    ensures ReleasePrior(blobs, members, prior, now).Keys == blobs.Keys
  {
    if prior.Some? { ReleaseOk(blobs, PinSet(members, prior.value), now); }
  }

  lemma DropKeysOk(f: Files, ks: set<UrlKey>, now: Time)
    requires ZeroedOk(f.blobs) && UrlRefs(f.urls, f.blobs.Keys)
    ensures var g := DropKeys(f, ks, now);
            ZeroedOk(g.blobs) && g.blobs.Keys == f.blobs.Keys && UrlRefs(g.urls, g.blobs.Keys)
  {
    hide Naming;
  }

  // ----- url_path -----

  /** The tables other than url_path and blob are as they were, and those two are sound. */
  ghost predicate OnlyFiles(db: Db, d: Db) {
    && d == db.(urls := d.urls, blobs := d.blobs) && d.blobs.Keys == db.blobs.Keys
    && ZeroedOk(d.blobs) && UrlRefs(d.urls, d.blobs.Keys)
  }

  lemma OnlyFilesKeeps(db: Db, d: Db)
    requires Inv(db) && OnlyFiles(db, d)
    ensures Inv(d)
  {
    hide NaturalOk, CurrentOk, SignedOk, GenerationsOk, IdsOk, FormsOk, UrlRefs, MemberRefs, AnchorRefs, ZeroedOk;
  }

  lemma PutUrlKeeps(db: Db, k: UrlKey, row: UrlRow)
    requires Inv(db)
    ensures Inv(Final(db, PutUrl(db, k, row)))
  {
    hide NaturalOk, CurrentOk, SignedOk, GenerationsOk, IdsOk, FormsOk, MemberRefs, AnchorRefs;
    assert OnlyFiles(db, Final(db, PutUrl(db, k, row)));
    OnlyFilesKeeps(db, Final(db, PutUrl(db, k, row)));
  }

  lemma TouchUrlKeeps(db: Db, k: UrlKey, now: Time)
    requires Inv(db)
    ensures Inv(TouchUrl(db, k, now))
  {
    hide NaturalOk, CurrentOk, SignedOk, GenerationsOk, IdsOk, FormsOk, MemberRefs, AnchorRefs;
    assert OnlyFiles(db, TouchUrl(db, k, now));
    OnlyFilesKeeps(db, TouchUrl(db, k, now));
  }

  lemma RefreshUrlKeeps(db: Db, k: UrlKey, was: Hash, new_: Hash, now: Time)
    requires Inv(db)
    ensures Inv(Final(db, RefreshUrl(db, k, was, new_, now)))
  {
    hide NaturalOk, CurrentOk, SignedOk, GenerationsOk, IdsOk, FormsOk, MemberRefs, AnchorRefs;
    assert OnlyFiles(db, Final(db, RefreshUrl(db, k, was, new_, now)));
    OnlyFilesKeeps(db, Final(db, RefreshUrl(db, k, was, new_, now)));
  }

  lemma DropUrlsKeeps(db: Db, ks: set<UrlKey>, now: Time)
    requires Inv(db)
    ensures Inv(DropUrls(db, ks, now))
  {
    hide DropKeys;
    DropKeysOk(Files(db.urls, db.blobs), ks, now);
    assert OnlyFiles(db, DropUrls(db, ks, now));
    OnlyFilesKeeps(db, DropUrls(db, ks, now));
  }

  /** One collector batch. */
  ghost function CollectUrls(db: Db, ks: set<UrlKey>, p: Pass): Db {
    var f := Sweep(Files(db.urls, db.blobs), CatalogOf(db), ks, p);
    db.(urls := f.urls, blobs := f.blobs)
  }

  lemma CollectUrlsKeeps(db: Db, ks: set<UrlKey>, p: Pass)
    requires Inv(db)
    ensures Inv(CollectUrls(db, ks, p))
  {
    hide Sweep, Deletes, Settled, NaturalOk, CurrentOk, SignedOk;
    var (f, c) := (Files(db.urls, db.blobs), CatalogOf(db));
    var g := Sweep(f, c, ks, p);
    SweepFilesOk(f, c, ks, p);
    assert OnlyFiles(db, CollectUrls(db, ks, p));
    OnlyFilesKeeps(db, CollectUrls(db, ks, p));
  }

  lemma SweepFilesOk(f: Files, c: Catalog, ks: set<UrlKey>, p: Pass)
    requires ZeroedOk(f.blobs) && UrlRefs(f.urls, f.blobs.Keys)
    ensures var g := Sweep(f, c, ks, p);
            ZeroedOk(g.blobs) && g.blobs.Keys == f.blobs.Keys && UrlRefs(g.urls, g.blobs.Keys)
  {
    hide DropKeys, Deletes, Settled, Retained;
    DropKeysOk(f, Doomed(f, c, ks, p), p.now);
    forall k | k in f.urls ensures Settled(c, k, f.urls[k], p).blob == f.urls[k].blob {
      SettledKeepsBlob(c, k, f.urls[k], p);
    }
    var d := DropKeys(f, Doomed(f, c, ks, p), p.now);
    forall k | k in d.urls ensures Settled(c, k, d.urls[k], p).blob == d.urls[k].blob {
      SettledKeepsBlob(c, k, d.urls[k], p);
    }
  }

  lemma {:induction false} WarmRowsOk(urls: Urls, rows: seq<(UrlKey, Hash)>, now: Time, blobs: Blobs)
    requires UrlRefs(urls, blobs.Keys) && WarmStored(blobs, rows)
    ensures UrlRefs(WarmRows(urls, rows, now), blobs.Keys)
    decreases |rows|
  {
    if rows != [] { WarmRowsOk(urls, rows[..|rows| - 1], now, blobs); }
  }

  lemma AnchorHashStored(s: Snapshot, name: string, hs: set<Hash>)
    requires AnchorBlobs(s.anchors) <= hs
    ensures AnchorHash(s.form, name, s.anchors).Some? ==> AnchorHash(s.form, name, s.anchors).value in hs
  {
  }

  lemma {:induction false} SeedAnchorsOk(urls: Urls, s: Snapshot, names: seq<string>, now: Time, hs: set<Hash>)
    requires UrlRefs(urls, hs) && AnchorBlobs(s.anchors) <= hs
    ensures UrlRefs(SeedAnchors(urls, s, names, now), hs)
    decreases |names|
  {
    hide AnchorHash, AnchorBlobs;
    if names != [] {
      SeedAnchorsOk(urls, s, names[..|names| - 1], now, hs);
      AnchorHashStored(s, names[|names| - 1], hs);
    }
  }
}
