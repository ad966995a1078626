/** The cache object: one method per writer transaction. A method works on a copy of the tables and replaces them
    at its commit, so a refused transaction leaves the database as it was. */
module CacheStore {
  import opened Text
  import opened Sorting
  import opened Tables
  import opened Retention
  import opened Transactions
  import opened Integrity
  import IntegritySteps
  import RetiredChunks
  import RetentionPass
  import Displaced
  import NewestN
  import Writers
  import Scans
  import SuitePaths

  const REAP_METADATA_BATCH: nat := 1000
  const MARKER_SWEEP_BATCH: nat := 1000
  const RETIRED_CHUNK_ROWS: nat := 10_000

  // ----- choosing rows -----

  /** LIMIT n without an order: some n of the rows, or all of them. */
  method PickUpTo<T(==)>(all: set<T>, n: nat) returns (chosen: set<T>)
    ensures Takes(chosen, all, n)
  {
    chosen := {};
    var left := all;
    while |chosen| < n && left != {}
      invariant chosen <= all && left == all - chosen && |chosen| <= n
      decreases left
    {
      var x :| x in left;
      chosen := chosen + {x};
      left := left - {x};
    }
    if left == {} { assert chosen == all; } else { NewestN.SubsetSize(chosen, all); }
  }

  function ZeroedTime(blobs: Blobs, h: Hash): Time {
    if h in blobs && blobs[h].zeroedAt.Some? then blobs[h].zeroedAt.value else 0
  }

  /** ORDER BY refcount_zeroed_at, ties by hash. */
  function OldestFirst(blobs: Blobs): (Hash, Hash) -> bool {
    (a: Hash, b: Hash) =>
      ZeroedTime(blobs, a) < ZeroedTime(blobs, b) || (ZeroedTime(blobs, a) == ZeroedTime(blobs, b) && a < b)
  }

  lemma OldestFirstIsStrict(blobs: Blobs, hs: set<Hash>)
    ensures StrictOn(OldestFirst(blobs), hs)
  {
    hide ZeroedTime;
  }

  /** The oldest n of the reapable blobs. */
  ghost predicate ReapsOldest(db: Db, cutoff: Time, n: nat, hs: set<Hash>) {
    && Takes(hs, Reapable(db, cutoff), n)
    && forall a, b :: a in hs && b in Reapable(db, cutoff) && b !in hs ==>
      ZeroedTime(db.blobs, a) <= ZeroedTime(db.blobs, b)
  }

  method OldestReapable(db: Db, cutoff: Time, n: nat) returns (hs: set<Hash>)
    ensures ReapsOldest(db, cutoff, n, hs)
  {
    hide Reapable, OldestFirst, ReapsOldest;
    var all := Reapable(db, cutoff);
    OldestFirstIsStrict(db.blobs, all);
    var rows := SortedSeq(OldestFirst(db.blobs), all);
    hs := {};
    var i := 0;
    while i < |rows| && i < n
      invariant 0 <= i <= |rows| && i <= n && hs == Elements(rows[..i])
    {
      ElementsNext(rows, i);
      hs := hs + {rows[i]};
      i := i + 1;
    }
    PrefixIsOldest(db, cutoff, n, rows, i);
  }

  lemma PrefixIsOldest(db: Db, cutoff: Time, n: nat, rows: seq<Hash>, i: nat)
    requires Ordered(OldestFirst(db.blobs), rows) && Elements(rows) == Reapable(db, cutoff) && i <= |rows| && i <= n
    requires (i == |rows| || i == n)
    requires |rows| == |Reapable(db, cutoff)|
    ensures ReapsOldest(db, cutoff, n, Elements(rows[..i]))
  {
    hide Reapable, ZeroedTime;
    var (all, hs) := (Reapable(db, cutoff), Elements(rows[..i]));
    OldestFirstIsStrict(db.blobs, all);
    OrderedDistinct(OldestFirst(db.blobs), rows);
    Displaced.DistinctSize(rows[..i]);
    forall h | h in hs ensures h in all { assert h in Elements(rows); }
    forall a, b | a in hs && b in all && b !in hs ensures ZeroedTime(db.blobs, a) <= ZeroedTime(db.blobs, b) {
      assert b in Elements(rows);
      var x :| 0 <= x < i && rows[x] == a;
      var y: nat :| y < |rows| && rows[y] == b;
      InPrefix(rows, i, y);
      assert OldestFirst(db.blobs)(rows[x], rows[y]);
    }
  }

  lemma InPrefix<T>(rows: seq<T>, i: nat, y: nat)
    requires i <= |rows| && y < |rows|
    ensures y < i ==> rows[y] in Elements(rows[..i])
  {
    if y < i { assert rows[..i][y] == rows[y]; }
  }

  /** Reaping blobs changes nothing for the others. */
  lemma ReapableLeft(db: Db, gone: set<Hash>, cutoff: Time)
    requires gone <= Reapable(db, cutoff)
    ensures Reapable(ReapBlobs(db, gone), cutoff) == Reapable(db, cutoff) - gone
  {
    hide Referenced;
    forall h ensures Referenced(ReapBlobs(db, gone), h) == Referenced(db, h) { SameReferences(db, gone, h); }
  }

  lemma ReapNone(db: Db)
    ensures ReapBlobs(db, {}) == db
  {
    assert db.blobs - {} == db.blobs;
  }

  /** A batch reaps some of what is left, and nothing only when nothing is left. */
  lemma BatchReaps(db: Db, gone: set<Hash>, cutoff: Time, n: nat, hs: set<Hash>)
    requires gone <= Reapable(db, cutoff) && n >= 1 && ReapsOldest(ReapBlobs(db, gone), cutoff, n, hs)
    ensures ReapBlobs(ReapBlobs(db, gone), hs) == ReapBlobs(db, gone + hs)
    ensures gone + hs <= Reapable(db, cutoff) && hs !! gone && (hs == {} ==> gone == Reapable(db, cutoff))
  {
    ReapableLeft(db, gone, cutoff);
    hide Reapable;
    assert db.blobs - gone - hs == db.blobs - (gone + hs);
    if hs == {} { assert Reapable(db, cutoff) - gone == {}; }
  }

  lemma SameReferences(db: Db, gone: set<Hash>, h: Hash)
    ensures Referenced(ReapBlobs(db, gone), h) == Referenced(db, h)
  {
  }

  // ----- the object -----

  class Cache {
    var db: Db

    ghost predicate Valid()
      reads this
    {
      Inv(db)
    }

    constructor ()
      ensures Valid() && db == EMPTY
    {
      db := EMPTY;
      EmptyOk();
    }

    // blob

    method PutBlob(h: Hash, now: Time)
      requires Valid()
      modifies this
      ensures Valid() && db == Transactions.PutBlob(old(db), h, now)
    {
      hide Inv;
      PutBlobKeeps(db, h, now);
      var b := if h !in db.blobs then Blob(0, Some(now))
               else if db.blobs[h].refcount <= 0 then db.blobs[h].(zeroedAt := Some(now))
               else db.blobs[h];
      db := db.(blobs := db.blobs[h := b]);
    }

    /** A batch of the oldest unreferenced blobs whose grace has passed. */
    method RunBlobGcBatch(batchSize: int, grace: int, now: Time) returns (reaped: Option<set<Hash>>)
      requires Valid()
      modifies this
      ensures Valid()
      ensures reaped.None? <==> batchSize < 1
      ensures reaped.None? ==> db == old(db)
      ensures reaped.Some? ==>
              ReapsOldest(old(db), now - grace, batchSize, reaped.value) && db == ReapBlobs(old(db), reaped.value)
    {
      if batchSize < 1 { return None; }
      hide Inv, Reapable;
      var cutoff := now - grace;
      var hs := OldestReapable(db, cutoff, batchSize);
      ReapBlobsKeeps(db, hs, cutoff);
      db := db.(blobs := db.blobs - hs);
      reaped := Some(hs);
    }

    /** Batches at one time until one reaps nothing: exactly the reapable blobs are gone. */
    method DrainBlobs(batchSize: nat, grace: int, now: Time)
      requires Valid() && batchSize >= 1
      modifies this
      ensures Valid() && db == ReapBlobs(old(db), Reapable(old(db), now - grace))
    {
      hide Inv, Reapable, ReapsOldest, ReapBlobs;
      ghost var (start, cutoff) := (db, now - grace);
      ghost var gone: set<Hash> := {};
      ReapNone(db);
      while true
        invariant Valid() && gone <= Reapable(start, cutoff) && db == ReapBlobs(start, gone)
        decreases Reapable(start, cutoff) - gone
      {
        ReapableLeft(start, gone, cutoff);
        var reaped := RunBlobGcBatch(batchSize, grace, now);
        BatchReaps(start, gone, cutoff, batchSize, reaped.value);
        if reaped.value == {} {
          assert gone + {} == gone;
          return;
        }
        gone := gone + reaped.value;
      }
    }

    // url_path

    method PutUrl(k: UrlKey, row: UrlRow) returns (r: Result<()>)
      requires Valid()
      modifies this
      ensures Valid() && db == Final(old(db), Transactions.PutUrl(old(db), k, row))
      ensures r.Ok? == Transactions.PutUrl(old(db), k, row).Ok?
    {
      hide Inv;
      PutUrlKeeps(db, k, row);
      if row.blob.Some? && row.blob.value !in db.blobs { return Err(RowRefused); }
      db := db.(urls := db.urls[k := row.(droppedAt := None)]);
      r := Ok(());
    }

    method TouchUrl(k: UrlKey, now: Time)
      requires Valid()
      modifies this
      ensures Valid() && db == Transactions.TouchUrl(old(db), k, now)
    {
      hide Inv;
      TouchUrlKeeps(db, k, now);
      if k in db.urls {
        var row := db.urls[k];
        db :=
          db.(urls := db.urls[k := row.(requestCount := row.requestCount + 1, lastRequested := Some(now),
            droppedAt := None)]);
      }
    }

    /** Deletes one row and releases its blob; a missing row is no error. */
    method EvictUrl(k: UrlKey, now: Time)
      requires Valid()
      modifies this
      ensures Valid() && db == DropUrls(old(db), {k}, now)
    {
      hide Inv, DropKeys, DropRow;
      DropUrlsKeeps(db, {k}, now);
      var f := Files(db.urls, db.blobs);
      DropNone(f, now);
      Writers.DropNext(f, {}, k, now);
      assert {} + {k} == {k};
      var g := DropRow(f, k, now);
      db := db.(urls := g.urls, blobs := g.blobs);
    }

    method RefreshUrl(k: UrlKey, was: Hash, new_: Hash, now: Time) returns (updated: bool)
      requires Valid()
      modifies this
      ensures Valid() && db == Final(old(db), Transactions.RefreshUrl(old(db), k, was, new_, now))
      ensures updated <==> k in old(db.urls) && old(db.urls)[k].blob == Some(was) && new_ in old(db.blobs)
    {
      hide Inv;
      RefreshUrlKeeps(db, k, was, new_, now);
      updated := false;
      if k in db.urls && db.urls[k].blob == Some(was) {
        if new_ !in db.blobs { return; }
        var row := db.urls[k];
        var fetched := row.lastFetched;
        if was != new_ { fetched := Some(Max(now, (if fetched.Some? then fetched.value else 0) + 1)); }
        db := db.(urls := db.urls[k := row.(blob := Some(new_), lastFetched := fetched)]);
        updated := true;
      }
    }

    method DeleteUrlRows(rows: seq<(UrlKey, Option<Hash>)>, now: Time) returns (n: nat)
      requires Valid()
      modifies this
      ensures Valid() && db == DropUrls(old(db), Unchanged(old(db).urls, rows), now)
      ensures n == |Unchanged(old(db).urls, rows)|
    {
      hide Inv, DropKeys;
      DropUrlsKeeps(db, Unchanged(db.urls, rows), now);
      var g;
      g, n := Writers.DropUnchanged(Files(db.urls, db.blobs), rows, now);
      db := db.(urls := g.urls, blobs := g.blobs);
    }

    /** One transaction over a batch of paths. */
    method DeleteRows(ks: seq<UrlKey>, now: Time) returns (n: nat)
      requires Valid()
      modifies this
      ensures Valid() && db == DropUrls(old(db), Elements(ks), now)
      ensures n == |Writers.Present(old(db).urls, Elements(ks))|
    {
      hide Inv, DropKeys;
      DropUrlsKeeps(db, Elements(ks), now);
      var g;
      g, n := Writers.DropEach(Files(db.urls, db.blobs), ks, now);
      db := db.(urls := g.urls, blobs := g.blobs);
    }

    /** The suite's plain rows and then its anchors, in transactions of at most a thousand rows. */
    method DeleteSuiteMetadata(key: SuiteKey, now: Time) returns (total: nat)
      requires Valid()
      modifies this
      ensures Valid()
      ensures var gone := if SuitePaths.IsCanonical(key.path) then Scans.SuiteUrls(old(db).urls, key) else {};
              db == DropUrls(old(db), gone, now) && total == |gone|
    {
      hide Inv, DropUrls, SuitePaths.IsCanonical, SuitePaths.SuitePath;
      var plain, anchors := Scans.SuiteLists(db.urls, key);
      ghost var start := db;
      total := DeleteInBatches(plain, now);
      var n := DeleteInBatches(anchors, now);
      total := total + n;
      DropUrlsUnion(start, Elements(plain), Elements(anchors), now);
      PresentInTwo(start, Elements(plain), Elements(anchors), now);
      PresentAll(start.urls, Elements(plain) + Elements(anchors));
    }

    method DeleteInBatches(ks: seq<UrlKey>, now: Time) returns (total: nat)
      requires Valid()
      modifies this
      ensures Valid() && db == DropUrls(old(db), Elements(ks), now)
      ensures total == |Writers.Present(old(db).urls, Elements(ks))|
    {
      hide Inv, DropUrls;
      ghost var start := db;
      var i := 0;
      total := 0;
      assert Elements(ks[..0]) == {} && Writers.Present(start.urls, {}) == {};
      DropUrlsNone(db, now);
      while i < |ks|
        invariant 0 <= i <= |ks| && Valid() && db == DropUrls(start, Elements(ks[..i]), now)
        invariant total == |Writers.Present(start.urls, Elements(ks[..i]))|
        decreases |ks| - i
      {
        var j := if |ks| - i < REAP_METADATA_BATCH then |ks| else i + REAP_METADATA_BATCH;
        var batch := ks[i..j];
        var n := DeleteRows(batch, now);
        total := total + n;
        DropUrlsUnion(start, Elements(ks[..i]), Elements(batch), now);
        PresentInTwo(start, Elements(ks[..i]), Elements(batch), now);
        assert ks[..j] == ks[..i] + batch;
        assert Elements(ks[..j]) == Elements(ks[..i]) + Elements(batch);
        i := j;
      }
      assert ks[..|ks|] == ks;
    }

    /** One collector batch: a page of candidates past the cursor, evaluated row by row. A batch size below one and a
        TTL that is not positive are refused. */
    method RunUrlGcBatch(size: int, ttl: int, hold: int, versions: int, now: Time, cursor: Option<UrlKey>)
      returns (r: Option<(Option<UrlKey>, RetentionPass.Counts)>)
      requires Valid() && Rankable(CatalogOf(db))
      modifies this
      ensures Valid() && (r.None? <==> size < 1 || ttl <= 0)
      ensures r.None? ==> db == old(db)
      ensures r.Some? ==>
                var p := Pass(now, now - ttl, hold, versions);
                var page := RetentionPass.Page(old(db).urls, cursor, p.cutoff, size);
                && db == CollectUrls(old(db), Elements(page), p)
                && r.value.0 == RetentionPass.NextCursor(page, cursor)
                && r.value.1 == RetentionPass.TallyAll(Files(old(db).urls, old(db).blobs), CatalogOf(old(db)),
                  Elements(page), p, |page|)
    {
      if size < 1 || ttl <= 0 { return None; }
      hide Inv, Sweep, Rankable;
      var p := Pass(now, now - ttl, hold, versions);
      var page := RetentionPass.Page(db.urls, cursor, p.cutoff, size);
      CollectUrlsKeeps(db, Elements(page), p);
      var g, n := RetentionPass.EvaluatePage(Files(db.urls, db.blobs), CatalogOf(db), page, p);
      r := Some((RetentionPass.NextCursor(page, cursor), n));
      db := db.(urls := g.urls, blobs := g.blobs);
    }

    /** The collector's pass at one time: batches until one scans nothing, or none when the first is refused. */
    method RunUrlGcPass(size: int, ttl: int, hold: int, versions: int, now: Time) returns (ok: bool)
      requires Valid() && Rankable(CatalogOf(db))
      modifies this
      ensures Valid() && (ok <==> size >= 1 && ttl > 0)
      ensures db == if ok then CollectUrls(old(db), old(db).urls.Keys, Pass(now, now - ttl, hold, versions))
              else old(db)
    {
      if size < 1 || ttl <= 0 { return false; }
      hide Inv, Sweep, Rankable;
      var p := Pass(now, now - ttl, hold, versions);
      CollectUrlsKeeps(db, db.urls.Keys, p);
      var g, visited := RetentionPass.PagedPass(Files(db.urls, db.blobs), CatalogOf(db), size, p);
      db := db.(urls := g.urls, blobs := g.blobs);
      ok := true;
    }

    // snapshots

    /** Inserts a candidate, or finds the un-adopted one with its natural key. */
    method InsertCandidate(c: Candidate, now: Time) returns (r: Result<(SnapshotId, bool)>)
      requires Valid()
      modifies this
      ensures Valid()
      ensures r.Err? ==> db == old(db)
      ensures r.Ok? ==> var (id, reused) := r.value;
                && (reused ==>
                  IntegritySteps.CandidateFinds(old(db), c, Some(id))
                    && Transactions.InsertCandidate(old(db), c, Some(id), now) == Ok(db))
                && (!reused ==> id == old(db).nextId && IntegritySteps.CandidateFinds(old(db), c, None)
                                && Transactions.InsertCandidate(old(db), c, None, now) == Ok(db))
    {
      var form := CandidateForm(c);
      if form.Err? { return Err(form.error); }
      hide Inv, AnchorBlobs;
      var anchors := AnchorsOf(c);
      var found := set s | s in db.snapshots && SameNatural(db.snapshots[s], c.key, form.value, NaturalHash(anchors));
      if found == {} {
        forall s | s in db.snapshots ensures !SameNatural(db.snapshots[s], c.key, form.value, NaturalHash(anchors)) {
          assert s !in found;
        }
        assert IntegritySteps.CandidateFinds(db, c, None);
        IntegritySteps.InsertCandidateKeeps(db, c, None, now);
        if !(AnchorBlobs(anchors) <= db.blobs.Keys) { return Err(RowRefused); }
        r := Ok((db.nextId, false));
        db :=
          db.(snapshots := db.snapshots[db.nextId := Snapshot(c.key, form.value, anchors, now, now, None, None)],
            nextId := db.nextId + 1);
      } else {
        var id :| id in found;
        assert IntegritySteps.CandidateFinds(db, c, Some(id));
        IntegritySteps.InsertCandidateKeeps(db, c, Some(id), now);
        if db.snapshots[id].adoptedAt.Some? { return Err(NaturalKeyAdopted(id)); }
        if !(AnchorBlobs(anchors) <= db.blobs.Keys) { return Err(RowRefused); }
        r := Ok((id, true));
        db := db.(snapshots := db.snapshots[id := db.snapshots[id].(anchors := anchors, heartbeatAt := now)]);
      }
    }

    /** The commit: rows, warm and seeded paths, pins, pointer, stamp, marker and the prior snapshot's release. */
    method CommitAdoption(id: SnapshotId, a: Adoption, now: Time) returns (r: Result<()>)
      requires Valid()
      modifies this
      ensures Valid() && db == Final(old(db), Transactions.CommitAdoption(old(db), id, a, now))
      ensures r.Ok? <==> CommitError(old(db), id, a).None?
      ensures r.Err? ==> Some(r.error) == CommitError(old(db), id, a)
    {
      hide Inv, SignedHistory, AllNew, Added, WarmRows, SeedAnchors, AnchorNames, Bump, ReleasePrior, MarkSeen, PinSet;
      IntegritySteps.CommitKeeps(db, id, a, now);
      if id !in db.snapshots { return Err(UnknownSnapshot); }
      var s := db.snapshots[id];
      if s.adoptedAt.Some? { return Err(AlreadyAdopted); }
      if s.retiredAt.Some? { return Err(SnapshotRetired); }
      if s.form.Unsigned? && SignedHistory(db, s.key.host, MarkerBase(s.key.path)) { return Err(UnsignedDowngrade); }
      var tx := db;
      var ok, members := Writers.InsertMembers(tx.members, tx.blobs, Keyed(id, a.members));
      KeyedBlobs(tx.blobs, id, a.members);
      if !ok { return Err(RowRefused); }
      var skipped, packages, urls;
      ok, skipped := Writers.InsertEach(tx.skipped, Keyed(id, a.skipped));
      if !ok { return Err(RowRefused); }
      ok, packages := Writers.InsertEach(tx.packages, KeyedPackages(id, a.packages));
      if !ok { return Err(RowRefused); }
      var stamp := AdoptionStamp(tx, s.key, now);
      ok, urls := Writers.WarmEach(tx.urls, tx.blobs, a.prefetched, now);
      if !ok { return Err(RowRefused); }
      urls := Writers.SeedEach(urls, s, now);
      if s.key !in tx.suites { return Err(SuiteGone); }
      var blobs := Bump(tx.blobs, PinSet(members, id));
      var prior := tx.suites[s.key].current;
      var suites := tx.suites[s.key := tx.suites[s.key].(current := Some(id))];
      var snapshots := tx.snapshots[id := s.(adoptedAt := Some(stamp))];
      var markers := tx.markers;
      if !s.form.Unsigned? { markers := MarkSeen(markers, MarkerOf(s.key), now); }
      blobs := ReleasePrior(blobs, members, prior, now);
      db :=
        tx.(members := members, skipped := skipped, packages := packages, urls := urls, blobs := blobs,
          suites := suites,
                snapshots := snapshots, markers := markers);
      r := Ok(());
    }

    method RepairSkipped(id: SnapshotId, path: string, rows: seq<(MemberKey, Member)>) returns (r: Result<()>)
      requires Valid()
      modifies this
      ensures Valid() && db == Final(old(db), Transactions.RepairSkipped(old(db), id, path, rows))
      ensures r.Ok? == Transactions.RepairSkipped(old(db), id, path, rows).Ok?
    {
      hide Inv, Added, NoConflict, PinOnce, Currents;
      IntegritySteps.RepairKeeps(db, id, path, rows);
      if id !in Currents(db.suites) { return Err(NotCurrent); }
      if MemberKey(id, path) !in db.skipped { return Err(NoSkipRow); }
      var h := db.skipped[MemberKey(id, path)];
      var ok := Writers.CheckRepair(rows, id, path, h);
      if !ok { return Err(WrongContent); }
      var members;
      ok, members := Writers.InsertOrAgree(db.members, rows, h);
      if !ok || h !in db.blobs { return Err(RowRefused); }
      db :=
        db.(skipped := db.skipped - {MemberKey(id, path)}, blobs := PinOnce(db.blobs, db.members, id, h),
          members := members);
      r := Ok(());
    }

    method Reconcile(id: SnapshotId, rows: seq<(MemberKey, Member)>, packages: seq<(PackageKey, Package)>)
      returns (r: Result<()>)
      requires Valid()
      modifies this
      ensures Valid() && db == Final(old(db), Transactions.Reconcile(old(db), id, rows, packages))
      ensures r.Ok? == Transactions.Reconcile(old(db), id, rows, packages).Ok?
    {
      hide Inv, ReconcileMembers, ReconcilePackages, Currents;
      IntegritySteps.ReconcileKeeps(db, id, rows, packages);
      if id !in Currents(db.suites) { return Err(NotCurrent); }
      var pins := Writers.ReconcileEach(Pins(db.members, db.blobs), id, rows);
      if pins.Err? { return Err(pins.error); }
      var healed := Writers.HealEach(db.packages, db.snapshots, packages);
      if healed.Err? { return Err(healed.error); }
      db := db.(members := pins.value.members, blobs := pins.value.blobs, packages := healed.value);
      r := Ok(());
    }

    // suites

    method ReapIdleSuite(key: SuiteKey, want: Option<SnapshotId>, cutoff: Option<Time>, now: Time)
      returns (out: DeleteOutcome)
      requires Valid()
      modifies this
      ensures Valid() && db == ReapSuite(old(db), key, want, cutoff, now)
      ensures out == DeleteCheck(old(db), key, want, cutoff)
    {
      hide Inv, DeleteSuite;
      IntegritySteps.ReapSuiteKeeps(db, key, want, cutoff, now);
      if key !in db.suites { return NoRow; }
      var row := db.suites[key];
      if cutoff.Some? && (row.lastRequested.None? || row.lastRequested.value > cutoff.value) { return Kept; }
      if row.current != want { return Kept; }
      db := DeleteSuite(db, key, now);
      out := Deleted;
    }

    /** Deletes the suite and, when no other suite row shares its base, the base's anchors and markers. */
    method ForgetSuite(key: SuiteKey, want: Option<SnapshotId>, now: Time) returns (r: Forgotten)
      requires Valid()
      modifies this
      ensures Valid() && db == Transactions.ForgetSuite(old(db), key, want, now)
      ensures r.out == DeleteCheck(old(db), key, want, None)
      ensures !r.out.Deleted? ==> r == Forgotten(r.out, [], 0, 0)
      ensures r.out.Deleted? ==>
                var (host, base) := (key.host, MarkerBase(key.path));
                && Ordered(SuiteLess, r.keptBy) && Elements(r.keptBy) == BaseRows(old(db).suites - {key}, host, base)
                && r.anchors == (if r.keptBy == [] then |Writers.Present(old(db).urls, BaseAnchors(host, base))| else 0)
                && r.markers == (if r.keptBy == [] then |MarkersOf(DeleteSuite(old(db), key, now).markers, host, base)|
                                 else 0)
    {
      hide Inv, DeleteSuite, DropKeys, BaseAnchors, BaseRows, Unmark, MarkersOf, Writers.Present, MarkerBase, SuiteLess;
      IntegritySteps.ForgetSuiteKeeps(db, key, want, now);
      var out := DeleteCheck(db, key, want, None);
      if !out.Deleted? { return Forgotten(out, [], 0, 0); }
      var tx := DeleteSuite(db, key, now);
      IntegritySteps.DeleteSuiteRows(db, key, now);
      DeleteLeavesUrls(db, key, now);
      var base := MarkerBase(key.path);
      BaseRowsAreStrict(tx.suites, key.host, base);
      var kept := SortedSeq(SuiteLess, BaseRows(tx.suites, key.host, base));
      assert kept == [] <==> Elements(kept) == {} by { assert kept != [] ==> kept[0] in Elements(kept); }
      r := Forgotten(out, kept, 0, 0);
      if |kept| == 0 {
        var ks := Writers.AnchorList(key.host, base);
        var f, n := Writers.DropEach(Files(tx.urls, tx.blobs), ks, now);
        r := Forgotten(out, kept, n, |MarkersOf(tx.markers, key.host, base)|);
        tx := tx.(urls := f.urls, blobs := f.blobs, markers := Unmark(tx.markers, key.host, base));
      }
      db := tx;
    }

    /** List-then-delete until a batch is short: every orphan marker before the cutoff goes, and only those. */
    method SweepOrphanMarkers(cutoff: Time) returns (swept: nat)
      requires Valid()
      modifies this
      ensures Valid() && db == SweepMarkers(old(db), old(db).markers.Keys, cutoff)
      ensures swept == |Orphans(old(db), cutoff)|
    {
      hide Inv, IsOrphan, SweepMarkers, Orphans;
      ghost var start := db;
      swept := 0;
      SweepNothing(db, cutoff);
      while true
        invariant Valid() && db.suites == start.suites
        invariant SweepMarkers(db, db.markers.Keys, cutoff) == SweepMarkers(start, start.markers.Keys, cutoff)
        invariant swept + |Orphans(db, cutoff)| == |Orphans(start, cutoff)|
        decreases |Orphans(db, cutoff)|
      {
        var keys := PickUpTo(Orphans(db, cutoff), MARKER_SWEEP_BATCH);
        SweepBatch(db, keys, cutoff);
        if keys == {} { return; }
        IntegritySteps.SweepMarkersKeeps(db, keys, cutoff);
        db := SweepMarkers(db, keys, cutoff);
        swept := swept + |keys|;
        if |keys| < MARKER_SWEEP_BATCH {
          SweepNothing(db, cutoff);
          return;
        }
      }
    }

    method MarkSignedSeenBatch(marks: seq<(MarkerKey, Time)>)
      requires Valid()
      modifies this
      ensures Valid() && db == old(db).(markers := MarkAll(old(db).markers, marks))
    {
      hide Inv, MarkAll;
      IntegritySteps.MarkAllGrows(db.markers, marks);
      IntegritySteps.MoreMarkersKeeps(db, MarkAll(db.markers, marks));
      var markers := Writers.MarkEach(db.markers, marks);
      db := db.(markers := markers);
    }

    method ApplyLegacyAuditDecisions(ds: seq<Decision>, now: Time)
      returns (effects: map<SnapshotId, Writers.Effect>)
      requires Valid() && IntegritySteps.DropsMissing(db, ds)
      modifies this
      ensures Valid() && db == DecideAll(old(db), ds, now) && Writers.Reports(old(db), ds, now, effects)
    {
      hide Inv, DecideAll, Writers.Reports;
      IntegritySteps.DecideAllKeeps(db, ds, now);
      var d;
      d, effects := Writers.DecideEach(db, ds, now);
      db := d;
    }

    method CreateSuite(seed: Seed, caps: Caps, held: Option<SuiteKey>, rowid: nat, now: Time)
      returns (c: Creation, unproven: bool)
      requires Valid()
      modifies this
      ensures Valid() && c == Transactions.CreateSuite(old(db), seed, caps, held, rowid, now) && db == c.db
      ensures unproven <==> c.outcome.Created? && Unproven(old(db).urls, seed)
    {
      hide Inv, DeleteSuite, HostRows, MarkSeen;
      IntegritySteps.CreateSuiteKeeps(db, seed, caps, held, rowid, now);
      c, unproven := CreateTx(db, seed, caps, held, rowid, now);
      db := c.db;
    }

    method StoreFetched(f: Fetched, caps: Caps, held: Option<SuiteKey>, rowid: nat, now: Time)
      returns (r: Result<Creation>, unproven: bool)
      requires Valid()
      modifies this
      ensures Valid() && r == Transactions.StoreFetched(old(db), f, caps, held, rowid, now)
      ensures db == if r.Ok? then r.value.db else old(db)
      ensures unproven <==> r.Ok? && r.value.outcome.Created? && f.create.Some?
                            && Unproven(old(db).urls[f.k := f.row.(droppedAt := None)], f.create.value)
    {
      hide Inv, Transactions.CreateSuite, MarkSeen, Unproven, CreationMeans;
      unproven := false;
      IntegritySteps.StoreFetchedKeeps(db, f, caps, held, rowid, now);
      if f.create.Some? && f.suite != Some(f.create.value.key) { return Err(WrongSuite), false; }
      if f.token.Some? {
        var token := if f.suite.Some? then TokenOf(db.suites, f.suite.value) else Token(0, 0);
        if f.token.value != token { return Err(MetadataChanged), false; }
      }
      if f.row.blob.Some? && f.row.blob.value !in db.blobs { return Err(RowRefused), false; }
      var tx := db.(urls := db.urls[f.k := f.row.(droppedAt := None)]);
      var c := Creation(tx, NotTried, false, false, false);
      if f.create.Some? { c, unproven := CreateTx(tx, f.create.value, caps, held, rowid, now); }
      tx := c.db;
      if f.markSeenAt != 0 && f.suite.Some? && f.suite.value in tx.suites {
        tx := tx.(markers := MarkSeen(tx.markers, MarkerOf(f.suite.value), f.markSeenAt));
      }
      r := Ok(c.(db := tx));
      db := tx;
    }

    method InvalidateLegacy(key: SuiteKey, anchor: string, was: Hash, now: Time) returns (r: Result<()>)
      requires Valid()
      modifies this
      ensures Valid() && db == Final(old(db), Transactions.InvalidateLegacy(old(db), key, anchor, was, now))
      ensures r.Ok? == Transactions.InvalidateLegacy(old(db), key, anchor, was, now).Ok?
    {
      hide Inv, DropKeys, LegacyRows, SuitePaths.IsCanonical;
      IntegritySteps.InvalidateKeeps(db, key, anchor, was, now);
      if !SuitePaths.IsCanonical(key.path) || (anchor != key.path + "/InRelease" && anchor != key.path + "/Release") {
        return Err(InvalidAnchor);
      }
      if key !in db.suites { return Err(SuiteGone); }
      if db.suites[key].current.Some? { return Err(NeedsAdoption); }
      var k := UrlKey(key.scheme, key.host, anchor);
      if k !in db.urls || db.urls[k].blob != Some(was) { return Err(MetadataChanged); }
      var g := Scans.DropLegacy(Files(db.urls, db.blobs), key, now);
      InvalidatedDb(db, key, anchor, was, now);
      db := db.(urls := g.urls, blobs := g.blobs, clock := db.clock + 1,
                suites := db.suites[key := db.suites[key].(generation := db.clock + 1)]);
      r := Ok(());
    }

    // snapshot collection

    /** As many of the stale orphans and excess displaced snapshots as the batch allows, and how many of each. A batch
        size below one and a negative keep are refused. */
    method RunSnapshotGcBatch(batchSize: int, grace: int, keep: int, now: Time)
      returns (counts: Option<(nat, nat)>, ids: set<SnapshotId>)
      requires Valid()
      modifies this
      ensures Valid() && (counts.None? <==> batchSize < 1 || keep < 0)
      ensures counts.None? ==> ids == {} && db == old(db)
      ensures counts.Some? ==>
                && Takes(ids, Collectable(old(db), now - grace, keep), batchSize) && db == RemoveSnapshots(old(db), ids)
                && counts.value.0 == |OrphansOf(old(db), ids, now - grace)|
                && counts.value.1 == |ExcessOf(old(db), ids, keep)|
                && counts.value.0 + counts.value.1 == |ids|
    {
      if batchSize < 1 || keep < 0 { return None, {}; }
      hide Inv, Collectable, RemoveSnapshots, OrphansOf, ExcessOf;
      ids := PickUpTo(Collectable(db, now - grace, keep), batchSize);
      IntegritySteps.CollectSnapshotsKeeps(db, ids, now - grace, keep);
      var orphans, displaced := CountClasses(db, ids, now - grace, keep);
      counts := Some((orphans, displaced));
      db := RemoveSnapshots(db, ids);
    }

    /** The least retired snapshot's rows, table by table, until the chunk is full; then its header. */
    method RunRetiredChunk(maxRows: int) returns (reaped: nat, more: bool)
      requires Valid()
      modifies this
      ensures Valid()
      ensures !more ==> db == old(db) && RetiredChunks.Drainable(db) == {}
      ensures more ==>
              exists c ::
                IsChunk(old(db), c, ChunkLimit(maxRows)) && db == DrainChunk(old(db), c)
                  && reaped == (if c.header then 1 else 0)
    {
      hide Inv, IsDrainable;
      var limit := ChunkLimit(maxRows);
      var ids := RetiredChunks.Drainable(db);
      if ids == {} { return 0, false; }
      var id := LeastOf(ids);
      var left: int := limit;
      var members := PickUpTo(MembersOf(db.members, id), limit);
      left := left - |members|;
      var skipped, packages: set<PackageKey> := {}, {};
      if left != 0 {
        skipped := PickUpTo(SkippedOf(db.skipped, id), left);
        left := left - |skipped|;
        if left != 0 {
          packages := PickUpTo(PackagesOf(db.packages, id), left);
          left := left - |packages|;
        }
      }
      var c := Chunk(id, members, skipped, packages, left > 0);
      LeastDrainable(db, id);
      IntegritySteps.DrainKeeps(db, c, limit);
      reaped, more := if c.header then 1 else 0, true;
      db := DrainChunk(db, c);
    }

    /** Chunks until none reports more: exactly the retired, non-current snapshots and their rows are gone. */
    method DrainRetired(maxRows: int) returns (reaped: nat)
      requires Valid()
      modifies this
      ensures Valid() && db == RemoveSnapshots(old(db), RetiredChunks.Drainable(old(db)))
      ensures reaped == |RetiredChunks.Drainable(old(db))|
    {
      hide Inv, IsChunk, DrainChunk, RemoveSnapshots, RetiredChunks.Weight, RetiredChunks.Drainable;
      ghost var goal := RemoveSnapshots(db, RetiredChunks.Drainable(db));
      ghost var all := |RetiredChunks.Drainable(db)|;
      reaped := 0;
      while true
        invariant reaped + |RetiredChunks.Drainable(db)| == all
        invariant Valid() && RemoveSnapshots(db, RetiredChunks.Drainable(db)) == goal
        decreases RetiredChunks.Weight(db)
      {
        ghost var before := db;
        var n, more := RunRetiredChunk(maxRows);
        if !more {
          RetiredChunks.NothingLeft(db);
          return;
        }
        ghost var c :| IsChunk(before, c, ChunkLimit(maxRows)) && db == DrainChunk(before, c)
          && n == (if c.header then 1 else 0);
        RetiredChunks.ChunkDrainable(before, c, ChunkLimit(maxRows));
        RetiredChunks.ChunkReduces(before, c, ChunkLimit(maxRows));
        RetiredChunks.ChunkKeepsGoal(before, c, ChunkLimit(maxRows));
        reaped := reaped + n;
      }
    }
  }

  function ChunkLimit(maxRows: int): (n: nat)
    ensures n >= 1
  {
    if maxRows <= 0 then RETIRED_CHUNK_ROWS else maxRows
  }

  method LeastOf(ids: set<SnapshotId>) returns (id: SnapshotId)
    requires ids != {}
    ensures id in ids && forall s :: s in ids ==> id <= s
  {
    id :| id in ids;
    var left := ids - {id};
    while left != {}
      invariant left <= ids && id in ids && forall s :: s in ids && s !in left ==> id <= s
      decreases left
    {
      var s :| s in left;
      if s < id { id := s; }
      left := left - {s};
    }
  }

  /** Every row of the result is the new one or an old one as it was. */
  ghost predicate OnlyAdds(db: Db, d: Db, key: SuiteKey) {
    forall k :: k in d.suites && k != key ==> k in db.suites && d.suites[k] == db.suites[k]
  }

  /** Every row is still there but the one evicted. */
  ghost predicate OnlyEvicts(db: Db, d: Db, evicted: Option<SuiteKey>) {
    forall k :: k in db.suites ==> k in d.suites || evicted == Some(k)
  }

  /** A row that may make room: un-adopted and not requested for a day. */
  predicate Evictable(db: Db, key: SuiteKey, now: Time) {
    && key in db.suites && db.suites[key].current.None?
    && db.suites[key].lastRequested.Some? && db.suites[key].lastRequested.value <= now - EVICT_IDLE
  }

  /** What a creation means for the suite table: which rows it adds and removes, and when it does neither. */
  ghost predicate CreationMeans(db: Db, seed: Seed, held: Option<SuiteKey>, rowid: nat, now: Time, c: Creation) {
    && (c.outcome.Exists? <==> seed.key in db.suites)
    && (seed.key in c.db.suites <==> c.outcome.Exists? || c.outcome.Created?)
    && (c.outcome.Created? ==> c.db.suites[seed.key] == SuiteRow(rowid, db.clock + 1, None, Some(seed.requestedAt)))
    && c.db.clock == db.clock + (if c.outcome.Created? then 1 else 0)
    && OnlyAdds(db, c.db, seed.key) && OnlyEvicts(db, c.db, if c.evicted then held else None)
    && (c.evicted ==> held.Some? && Evictable(db, held.value, now) && held.value !in c.db.suites)
    && (!c.evicted && !c.outcome.Created? ==> c.db == db)
  }

  lemma DeletedRow(db: Db, key: SuiteKey, now: Time)
    requires key in db.suites
    ensures DeleteSuite(db, key, now).suites == db.suites - {key} && DeleteSuite(db, key, now).clock == db.clock
  {
    hide ReleasePrior, Retire, StampBase, SuiteSigned, MarkSeen;
  }

  lemma InsertedRow(db: Db, seed: Seed, rowid: nat)
    ensures var row := SuiteRow(rowid, db.clock + 1, None, Some(seed.requestedAt));
            var d := InsertSuite(db, seed, rowid);
            d.suites == db.suites[seed.key := row] && d.clock == db.clock + 1
  {
    hide MarkSeen, SeenAt;
  }

  lemma RejectedMeans(db: Db, d: Db, seed: Seed, held: Option<SuiteKey>, rowid: nat, now: Time, evicted: bool,
                      c: Creation)
    requires seed.key !in db.suites && c.db == d && c.evicted == evicted && !c.outcome.Exists? && !c.outcome.Created?
    requires d.clock == db.clock && if evicted then held.Some? && d.suites == db.suites - {held.value} else d == db
    requires evicted ==> Evictable(db, held.value, now)
    ensures CreationMeans(db, seed, held, rowid, now, c)
  {
  }

  lemma CreatedMeans(db: Db, d: Db, seed: Seed, held: Option<SuiteKey>, rowid: nat, now: Time, evicted: bool)
    requires seed.key !in db.suites && d.clock == db.clock
    requires if evicted then held.Some? && d.suites == db.suites - {held.value} else d == db
    requires evicted ==> Evictable(db, held.value, now)
    ensures CreationMeans(db, seed, held, rowid, now,
            Creation(InsertSuite(d, seed, rowid), Created, evicted, false, false))
  {
    hide InsertSuite;
    InsertedRow(d, seed, rowid);
  }

  lemma CreationIs(db: Db, seed: Seed, caps: Caps, held: Option<SuiteKey>, rowid: nat, now: Time)
    ensures CreationMeans(db, seed, held, rowid, now, Transactions.CreateSuite(db, seed, caps, held, rowid, now))
  {
    hide DeleteSuite, InsertSuite, HostRows;
    var c := Transactions.CreateSuite(db, seed, caps, held, rowid, now);
    if seed.key in db.suites {
      assert c == Creation(db, Exists, false, false, false);
    } else {
      hide CreationMeans;
      if c.evicted { DeletedRow(db, held.value, now); }
      var d := if c.evicted then DeleteSuite(db, held.value, now) else db;
      if c.outcome.Created? {
        CreatedMeans(db, d, seed, held, rowid, now, c.evicted);
      } else {
        RejectedMeans(db, d, seed, held, rowid, now, c.evicted, c);
      }
    }
  }

  /** A cached anchor the creation was told of has changed since: its marker is left to a later step. */
  predicate Unproven(urls: Urls, seed: Seed) { exists a :: a in seed.cached && Writers.Unread(urls, seed, a) }

  method CreateTx(db: Db, seed: Seed, caps: Caps, held: Option<SuiteKey>, rowid: nat, now: Time)
    returns (c: Creation, unproven: bool)
    ensures c == Transactions.CreateSuite(db, seed, caps, held, rowid, now)
    ensures CreationMeans(db, seed, held, rowid, now, c)
    ensures unproven <==> c.outcome.Created? && Unproven(db.urls, seed)
  {
    hide DeleteSuite, HostRows, MarkSeen, CreationMeans, Writers.Unread;
    CreationIs(db, seed, caps, held, rowid, now);
    if seed.key in db.suites { return Creation(db, Exists, false, false, false), false; }
    if caps.perHost > 0 {
      var n := |HostRows(db.suites, seed.key.host)|;
      if n >= caps.perHost { return Creation(db, RejectedHost, false, false, false), false; }
    }
    var tx, evicted := db, false;
    if caps.global > 0 {
      var n := |db.suites|;
      if n >= caps.global {
        if held.None? { return Creation(db, RejectedGlobal, false, false, false), false; }
        var check := DeleteCheck(db, held.value, None, Some(now - EVICT_IDLE));
        if !check.Deleted? { return Creation(db, RejectedGlobal, false, check.NoRow?, check.Kept?), false; }
        tx, evicted := DeleteSuite(db, held.value, now), true;
        DeleteLeavesUrls(db, held.value, now);
        if n - 1 >= caps.global { return Creation(tx, RejectedGlobal, true, false, false), false; }
      }
    }
    var seen;
    seen, unproven := Writers.SeenEach(tx.urls, seed);
    tx := tx.(suites := tx.suites[seed.key := SuiteRow(rowid, tx.clock + 1, None, Some(seed.requestedAt))],
              clock := tx.clock + 1,
              markers := if seen == 0 then tx.markers else MarkSeen(tx.markers, MarkerOf(seed.key), seen));
    c := Creation(tx, Created, evicted, false, false);
  }

  lemma DeleteLeavesUrls(db: Db, key: SuiteKey, now: Time)
    requires key in db.suites
    ensures DeleteSuite(db, key, now).urls == db.urls
  {
    hide ReleasePrior, Retire, StampBase, SuiteSigned, MarkSeen;
  }

  /** What a forget reports: the outcome, the rows that kept the base, and how many anchors and markers went. */
  datatype Forgotten = Forgotten(out: DeleteOutcome, keptBy: seq<SuiteKey>, anchors: nat, markers: nat)

  function MarkersOf(markers: Markers, host: string, base: string): set<MarkerKey> {
    set m | m in markers && m.host == host && m.base == base
  }

  /** ORDER BY canonical_scheme, suite_path, among one host's rows. */
  predicate SuiteLess(a: SuiteKey, b: SuiteKey) {
    (a.scheme.Http? && b.scheme.Https?) || (a.scheme == b.scheme && Less(a.path, b.path))
  }

  lemma BaseRowsAreStrict(suites: Suites, host: string, base: string)
    ensures StrictOn(SuiteLess, BaseRows(suites, host, base))
  {
    var ks := BaseRows(suites, host, base);
    forall a, b | a in ks && b in ks
      ensures !(SuiteLess(a, b) && SuiteLess(b, a)) && (a != b ==> SuiteLess(a, b) || SuiteLess(b, a))
    {
      LessTotal(a.path, b.path);
      LessAsymmetric(a.path, b.path);
    }
    forall a, b, c | a in ks && b in ks && c in ks && SuiteLess(a, b) && SuiteLess(b, c) ensures SuiteLess(a, c) {
      if a.scheme == b.scheme == c.scheme { LessTransitive(a.path, b.path, c.path); }
    }
  }

  lemma InvalidatedDb(db: Db, key: SuiteKey, anchor: string, was: Hash, now: Time)
    requires Transactions.InvalidateLegacy(db, key, anchor, was, now).Ok? && key in db.suites
    ensures var g := DropKeys(Files(db.urls, db.blobs), LegacyRows(db.urls, key), now);
            Transactions.InvalidateLegacy(db, key, anchor, was, now).value ==
              db.(urls := g.urls, blobs := g.blobs, clock := db.clock + 1,
                suites := db.suites[key := db.suites[key].(generation := db.clock + 1)])
  {
    hide DropKeys, LegacyRows, SuitePaths.IsCanonical;
  }

  lemma LeastDrainable(db: Db, id: SnapshotId)
    requires id in RetiredChunks.Drainable(db) && forall s :: s in RetiredChunks.Drainable(db) ==> id <= s
    ensures IsDrainable(db, id) && forall s :: s in db.snapshots && IsDrainable(db, s) ==> id <= s
  {
    hide IsDrainable;
    forall s | s in db.snapshots && IsDrainable(db, s) ensures id <= s { assert s in RetiredChunks.Drainable(db); }
  }

  lemma KeyedBlobs(blobs: Blobs, id: SnapshotId, rows: seq<(string, Member)>)
    ensures BlobsStored(blobs, rows) <==> forall i :: 0 <= i < |Keyed(id, rows)| ==> Keyed(id, rows)[i].1.blob in blobs
  {
    var keyed := Keyed(id, rows);
    forall i | 0 <= i < |rows| ensures keyed[i].1 == rows[i].1 {}
  }

  // ----- counting what a snapshot batch takes -----

  function OrphansOf(db: Db, ids: set<SnapshotId>, cutoff: Time): set<SnapshotId> {
    set s | s in ids && IsOrphanSnapshot(db, s, cutoff)
  }

  function ExcessOf(db: Db, ids: set<SnapshotId>, keep: nat): set<SnapshotId> {
    set s | s in ids && IsExcess(db, s, keep)
  }

  lemma CountNext(db: Db, ids: set<SnapshotId>, s: SnapshotId, cutoff: Time, keep: nat)
    requires s !in ids
    ensures |OrphansOf(db, ids + {s}, cutoff)|
            == |OrphansOf(db, ids, cutoff)| + (if IsOrphanSnapshot(db, s, cutoff) then 1 else 0)
    ensures |ExcessOf(db, ids + {s}, keep)| == |ExcessOf(db, ids, keep)| + (if IsExcess(db, s, keep) then 1 else 0)
  {
    hide IsOrphanSnapshot, IsExcess;
    var (o, e) := (OrphansOf(db, ids, cutoff), ExcessOf(db, ids, keep));
    assert OrphansOf(db, ids + {s}, cutoff) == if IsOrphanSnapshot(db, s, cutoff) then o + {s} else o;
    assert ExcessOf(db, ids + {s}, keep) == if IsExcess(db, s, keep) then e + {s} else e;
  }

  /** The tally by reap class: a collected snapshot is of exactly one. */
  method CountClasses(db: Db, ids: set<SnapshotId>, cutoff: Time, keep: nat) returns (orphans: nat, displaced: nat)
    requires ids <= Collectable(db, cutoff, keep)
    ensures orphans == |OrphansOf(db, ids, cutoff)| && displaced == |ExcessOf(db, ids, keep)|
    ensures orphans + displaced == |ids|
  {
    hide OrphansOf, ExcessOf, DisplacedBefore;
    orphans, displaced := 0, 0;
    var left := ids;
    assert ids - left == {};
    CountNone(db, cutoff, keep);
    while left != {}
      invariant left <= ids && orphans + displaced == |ids - left|
      invariant orphans == |OrphansOf(db, ids - left, cutoff)| && displaced == |ExcessOf(db, ids - left, keep)|
    {
      var s :| s in left;
      assert ids - (left - {s}) == (ids - left) + {s};
      CountNext(db, ids - left, s, cutoff, keep);
      if IsOrphanSnapshot(db, s, cutoff) { orphans := orphans + 1; } else { displaced := displaced + 1; }
      left := left - {s};
    }
    assert ids - left == ids;
  }

  lemma CountNone(db: Db, cutoff: Time, keep: nat)
    ensures OrphansOf(db, {}, cutoff) == {} && ExcessOf(db, {}, keep) == {}
  {
  }

  // ----- sums of transactions -----

  lemma DropUrlsNone(db: Db, now: Time)
    ensures DropUrls(db, {}, now) == db
  {
    DropNone(Files(db.urls, db.blobs), now);
  }

  /** Deleting twice deletes the union; a key deleted already has no row the second time. */
  lemma DropUrlsUnion(db: Db, a: set<UrlKey>, b: set<UrlKey>, now: Time)
    ensures DropUrls(DropUrls(db, a, now), b, now) == DropUrls(db, a + b, now)
  {
    hide DropKeys;
    var f := Files(db.urls, db.blobs);
    var g := DropKeys(f, a, now);
    Writers.DroppedKeys(f, a, now);
    DropOnly(g, b, b - a, now);
    Scans.DropInTwo(f, a, b - a, now);
    assert a + (b - a) == a + b;
  }

  /** Rows counted over two deletions, each of what the first left, are the rows of both. */
  lemma PresentInTwo(db: Db, a: set<UrlKey>, b: set<UrlKey>, now: Time)
    ensures |Writers.Present(db.urls, a + b)|
            == |Writers.Present(db.urls, a)| + |Writers.Present(DropUrls(db, a, now).urls, b)|
  {
    hide DropKeys;
    Writers.DroppedKeys(Files(db.urls, db.blobs), a, now);
    var (x, y) := (Writers.Present(db.urls, a), Writers.Present(DropUrls(db, a, now).urls, b));
    assert Writers.Present(db.urls, a + b) == x + y && x !! y;
  }

  lemma PresentAll(urls: Urls, ks: set<UrlKey>)
    ensures ks <= urls.Keys ==> Writers.Present(urls, ks) == ks
  {
  }

  lemma DropOnly(f: Files, b: set<UrlKey>, c: set<UrlKey>, now: Time)
    requires c <= b && forall k :: k in b && k !in c ==> k !in f.urls
    ensures DropKeys(f, b, now) == DropKeys(f, c, now)
  {
    var (x, y) := (DropKeys(f, b, now), DropKeys(f, c, now));
    assert x.urls == y.urls;
    forall h | h in f.blobs ensures x.blobs[h] == y.blobs[h] { assert Naming(f.urls, b, h) == Naming(f.urls, c, h); }
    assert x.blobs == y.blobs;
  }

  // ----- orphan markers -----

  function Orphans(db: Db, cutoff: Time): set<MarkerKey> {
    set m | m in db.markers && IsOrphan(db.suites, db.markers, m, cutoff)
  }

  lemma SweepNothing(db: Db, cutoff: Time)
    ensures Orphans(db, cutoff) == {} ==> SweepMarkers(db, db.markers.Keys, cutoff) == db
  {
    hide IsOrphan;
    if Orphans(db, cutoff) == {} {
      forall m | m in db.markers ensures !IsOrphan(db.suites, db.markers, m, cutoff) {
        assert m !in Orphans(db, cutoff);
      }
      assert SweepMarkers(db, db.markers.Keys, cutoff).markers == db.markers;
    }
  }

  /** A batch takes its own orphans and leaves the rest of the sweep's work as it was. */
  lemma SweepBatch(db: Db, keys: set<MarkerKey>, cutoff: Time)
    requires Takes(keys, Orphans(db, cutoff), MARKER_SWEEP_BATCH)
    ensures var d := SweepMarkers(db, keys, cutoff);
            && d.suites == db.suites && Orphans(d, cutoff) == Orphans(db, cutoff) - keys
            && |Orphans(d, cutoff)| == |Orphans(db, cutoff)| - |keys|
            && SweepMarkers(d, d.markers.Keys, cutoff) == SweepMarkers(db, db.markers.Keys, cutoff)
    ensures keys == {} ==> SweepMarkers(db, db.markers.Keys, cutoff) == db && Orphans(db, cutoff) == {}
    ensures |keys| < MARKER_SWEEP_BATCH ==> keys == Orphans(db, cutoff)
  {
    hide IsOrphan, Orphans, SweepMarkers;
    BatchOrphans(db, keys, cutoff);
    BatchKeepsGoal(db, keys, cutoff);
    SweepNothing(db, cutoff);
    var d := SweepMarkers(db, keys, cutoff);
    assert Orphans(db, cutoff) == keys + Orphans(d, cutoff);
  }

  lemma BatchOrphans(db: Db, keys: set<MarkerKey>, cutoff: Time)
    requires keys <= Orphans(db, cutoff)
    ensures SweepMarkers(db, keys, cutoff).suites == db.suites
    ensures SweepMarkers(db, keys, cutoff).markers == db.markers - keys
    ensures Orphans(SweepMarkers(db, keys, cutoff), cutoff) == Orphans(db, cutoff) - keys
  {
    hide BaseRows;
    var d := SweepMarkers(db, keys, cutoff);
    forall m | m in db.markers ensures m in d.markers <==> m !in keys {}
    assert d.markers == db.markers - keys;
    forall m | m in d.markers
      ensures IsOrphan(d.suites, d.markers, m, cutoff) == IsOrphan(db.suites, db.markers, m, cutoff) {}
  }

  lemma SweepAll(db: Db, cutoff: Time)
    ensures SweepMarkers(db, db.markers.Keys, cutoff) == db.(markers := db.markers - Orphans(db, cutoff))
  {
    hide IsOrphan;
    assert SweepMarkers(db, db.markers.Keys, cutoff).markers == db.markers - Orphans(db, cutoff);
  }

  lemma BatchKeepsGoal(db: Db, keys: set<MarkerKey>, cutoff: Time)
    requires keys <= Orphans(db, cutoff)
    ensures var d := SweepMarkers(db, keys, cutoff);
            SweepMarkers(d, d.markers.Keys, cutoff) == SweepMarkers(db, db.markers.Keys, cutoff)
  {
    var d := SweepMarkers(db, keys, cutoff);
    BatchOrphans(db, keys, cutoff);
    SweepAll(db, cutoff);
    SweepAll(d, cutoff);
    hide Orphans, IsOrphan, SweepMarkers;
    assert db.markers - keys - (Orphans(db, cutoff) - keys) == db.markers - Orphans(db, cutoff);
    SweepShape(db, keys, cutoff);
  }

  lemma SweepShape(db: Db, keys: set<MarkerKey>, cutoff: Time)
    ensures var d := SweepMarkers(db, keys, cutoff); d == db.(markers := d.markers)
  {
    hide IsOrphan;
  }
}
