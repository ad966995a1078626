/** The ledger over whole runs, and what it says about blob collection. */
module LedgerRuns {
  import opened Text
  import opened Tables
  import opened Retention
  import opened Transactions
  import opened Integrity
  import opened Runs
  import opened Ledger
  import IntegritySteps
  import SuitePaths

  // ----- each operation -----

  lemma {:induction false} WarmRowsGrow(urls: Urls, rows: seq<(UrlKey, Hash)>, now: Time)
    ensures urls.Keys <= WarmRows(urls, rows, now).Keys
    decreases |rows|
  {
    if rows != [] { WarmRowsGrow(urls, rows[..|rows| - 1], now); }
  }

  lemma {:induction false} SeedAnchorsGrow(urls: Urls, s: Snapshot, names: seq<string>, now: Time)
    ensures urls.Keys <= SeedAnchors(urls, s, names, now).Keys
    decreases |names|
  {
    hide AnchorHash;
    if names != [] { SeedAnchorsGrow(urls, s, names[..|names| - 1], now); }
  }

  lemma CommitBalanced(db: Db, id: SnapshotId, a: Adoption, now: Time)
    requires Inv(db)
    ensures Balanced(db, Final(db, CommitAdoption(db, id, a, now)))
  {
    if CommitError(db, id, a).None? {
      CommitPins(db, id, a, now);
      hide Inv, PinsMove, Balanced, Added, WarmRows, SeedAnchors, SignedHistory, AdoptionStamp, Bump, ReleasePrior,
           AllNew, AnchorNames;
      var s := db.snapshots[id];
      WarmRowsGrow(db.urls, a.prefetched, now);
      SeedAnchorsGrow(WarmRows(db.urls, a.prefetched, now), s, AnchorNames(s.form), now);
      PinsMoveBalanced(db, Committed(db, id, a, now));
    } else {
      SamePinsBalanced(db, db);
    }
  }

  lemma RepairBalanced(db: Db, id: SnapshotId, path: string, rows: seq<(MemberKey, Member)>)
    ensures Balanced(db, Final(db, RepairSkipped(db, id, path, rows)))
  {
    hide PinsMove, Balanced, Added, PinOnce, NoConflict, RepairsSkip, IsCurrent;
    var r := RepairSkipped(db, id, path, rows);
    if r.Ok? {
      RepairPins(db, id, path, rows);
      PinsMoveBalanced(db, r.value);
    } else {
      SamePinsBalanced(db, db);
    }
  }

  lemma ReconcileBalanced(db: Db, id: SnapshotId, rows: seq<(MemberKey, Member)>, packages: seq<(PackageKey, Package)>)
    ensures Balanced(db, Final(db, Reconcile(db, id, rows, packages)))
  {
    hide PinsMove, Balanced, ReconcileMembers, ReconcilePackages, IsCurrent;
    var r := Reconcile(db, id, rows, packages);
    if r.Ok? {
      ReconcilePins(db, id, rows, packages);
      PinsMoveBalanced(db, r.value);
    } else {
      SamePinsBalanced(db, db);
    }
  }

  lemma DeleteSuiteUrls(db: Db, key: SuiteKey, now: Time)
    requires key in db.suites
    ensures DeleteSuite(db, key, now).urls == db.urls && DeleteSuite(db, key, now).members == db.members
    ensures DeleteSuite(db, key, now).suites == db.suites - {key}
  {
    hide ReleasePrior, Retire, StampBase, MarkSeen, SuiteSigned;
  }

  lemma ReapBalanced(db: Db, key: SuiteKey, want: Option<SnapshotId>, cutoff: Option<Time>, now: Time)
    requires Inv(db)
    ensures Balanced(db, ReapSuite(db, key, want, cutoff, now))
  {
    hide Inv, DeleteSuite, PinsMove, Balanced;
    if DeleteCheck(db, key, want, cutoff).Deleted? {
      DeleteSuitePins(db, key, now);
      DeleteSuiteUrls(db, key, now);
      PinsMoveBalanced(db, DeleteSuite(db, key, now));
    } else {
      SamePinsBalanced(db, db);
    }
  }

  /** Markers, queues and snapshots carry no count. */
  lemma BalancedIgnores(db: Db, d: Db, e: Db)
    requires Balanced(db, d) && e.blobs == d.blobs && e.urls == d.urls && e.members == d.members
    requires Currents(e.suites) == Currents(d.suites)
    ensures Balanced(db, e)
  {
    hide PinCount, Dropped;
    forall h: Hash ensures BlobBalanced(db, e, h) {
      assert BlobBalanced(db, d, h);
      SamePinCount(d, e, h);
    }
  }

  lemma DropUrlsShape(db: Db, ks: set<UrlKey>, now: Time)
    ensures var d := DropUrls(db, ks, now); d == db.(urls := d.urls, blobs := d.blobs)
    ensures Shrinks(db.urls, DropUrls(db, ks, now).urls) && DropUrls(db, ks, now).blobs.Keys == db.blobs.Keys
  {
    hide Lowered, Naming;
  }

  lemma ForgetBalanced(db: Db, key: SuiteKey, want: Option<SnapshotId>, now: Time)
    requires Inv(db)
    ensures Balanced(db, ForgetSuite(db, key, want, now))
  {
    hide Inv, DeleteSuite, PinsMove, Balanced, DropKeys, BaseAnchors, BaseRows;
    if DeleteCheck(db, key, want, None).Deleted? {
      var (d, base) := (DeleteSuite(db, key, now), MarkerBase(key.path));
      ReapBalanced(db, key, want, None, now);
      if BaseRows(d.suites, key.host, base) == {} {
        var ks := BaseAnchors(key.host, base);
        DeleteSuiteUrls(db, key, now);
        DeleteSuitePins(db, key, now);
        assert d.blobs.Keys == db.blobs.Keys by { PinsKeys(db, d); }
        DropUrlsBalanced(d, ks, now);
        DropUrlsShape(d, ks, now);
        BalancedTwice(db, d, DropUrls(d, ks, now));
        BalancedIgnores(db, DropUrls(d, ks, now), ForgetSuite(db, key, want, now));
      }
    } else {
      SamePinsBalanced(db, db);
    }
  }

  lemma PinsKeys(db: Db, d: Db)
    requires PinsMove(db, d)
    ensures d.blobs.Keys == db.blobs.Keys
  {
  }

  lemma DecideBalanced(db: Db, d: Decision, now: Time)
    ensures Balanced(db, Decide(db, d, now)) && Decide(db, d, now).blobs.Keys == db.blobs.Keys
    ensures Shrinks(db.urls, Decide(db, d, now).urls)
  {
    hide PinsMove, Balanced, MarkSnapshotBase, QuarantineSnapshot, DropUrls;
    match d
    case Keep(id) => SamePinsBalanced(db, Decide(db, d, now));
    case Drop(id) => SamePinsBalanced(db, Decide(db, d, now));
    case Quarantine(id, signed, dropRows) =>
      var q := QuarantineSnapshot(db, id, now);
      QuarantinePins(db, id, now);
      PinsKeys(db, q);
      QuarantineUrls(db, id, now);
      PinsMoveBalanced(db, q);
      var ks := AnchorRows(q, id);
      DropUrlsBalanced(q, ks, now);
      DropUrlsShape(q, ks, now);
      BalancedTwice(db, q, DropUrls(q, ks, now));
      var r := if dropRows then DropUrls(q, ks, now) else q;
      BalancedIgnores(db, r, Decide(db, d, now));
  }

  lemma QuarantineUrls(db: Db, id: SnapshotId, now: Time)
    ensures QuarantineSnapshot(db, id, now).urls == db.urls
  {
    hide ClearCurrent, Release, PinSet, IsCurrent;
  }

  lemma {:induction false} DecideAllBalanced(db: Db, ds: seq<Decision>, now: Time)
    ensures Balanced(db, DecideAll(db, ds, now)) && DecideAll(db, ds, now).blobs.Keys == db.blobs.Keys
    ensures Shrinks(db.urls, DecideAll(db, ds, now).urls)
    decreases |ds|
  {
    hide Balanced, Decide;
    if ds == [] {
      SamePinsBalanced(db, db);
    } else {
      var d := Decide(db, ds[0], now);
      DecideBalanced(db, ds[0], now);
      DecideAllBalanced(d, ds[1..], now);
      BalancedTwice(db, d, DecideAll(d, ds[1..], now));
    }
  }

  lemma RowCurrents(suites: Suites, key: SuiteKey, row: SuiteRow)
    requires row.current == if key in suites then suites[key].current else None
    ensures Currents(suites[key := row]) == Currents(suites)
  {
    var su := suites[key := row];
    forall s | s in Currents(suites) ensures s in Currents(su) {
      var k :| k in suites && suites[k].current == Some(s);
      assert k in su && su[k].current == Some(s);
    }
    forall s | s in Currents(su) ensures s in Currents(suites) {
      var k :| k in su && su[k].current == Some(s);
      assert k in suites && suites[k].current == Some(s);
    }
  }

  lemma InsertSuitePins(db: Db, seed: Seed, rowid: nat)
    requires seed.key !in db.suites
    ensures PinsMove(db, InsertSuite(db, seed, rowid)) && InsertSuite(db, seed, rowid).urls == db.urls
  {
    hide SeenAt, Currents;
    RowCurrents(db.suites, seed.key, SuiteRow(rowid, db.clock + 1, None, Some(seed.requestedAt)));
    SamePins(db, InsertSuite(db, seed, rowid));
  }

  lemma PinsMoveTwice(a: Db, b: Db, c: Db)
    requires PinsMove(a, b) && PinsMove(b, c)
    ensures PinsMove(a, c)
  {
    hide PinCount;
  }

  lemma CreateSuitePins(db: Db, seed: Seed, caps: Caps, held: Option<SuiteKey>, rowid: nat, now: Time)
    requires Inv(db)
    ensures var d := CreateSuite(db, seed, caps, held, rowid, now).db; PinsMove(db, d) && d.urls == db.urls
  {
    hide Inv, PinsMove, InsertSuite, DeleteSuite, HostRows, Currents;
    SamePins(db, db);
    if seed.key !in db.suites {
      InsertSuitePins(db, seed, rowid);
      if held.Some? && held.value in db.suites {
        var d := DeleteSuite(db, held.value, now);
        DeleteSuitePins(db, held.value, now);
        DeleteSuiteUrls(db, held.value, now);
        InsertSuitePins(d, seed, rowid);
        PinsMoveTwice(db, d, InsertSuite(d, seed, rowid));
      }
    }
  }

  lemma StoreBalanced(db: Db, f: Fetched, caps: Caps, held: Option<SuiteKey>, rowid: nat, now: Time)
    requires Inv(db)
    ensures StoreFetched(db, f, caps, held, rowid, now).Ok? ==>
            Balanced(db, StoreFetched(db, f, caps, held, rowid, now).value.db)
  {
    hide Inv, PinsMove, Balanced, CreateSuite, MarkSeen;
    var r := StoreFetched(db, f, caps, held, rowid, now);
    if r.Ok? {
      var put := PutUrl(db, f.k, f.row).value;
      PutUrlKeeps(db, f.k, f.row);
      SamePins(db, put);
      var c := if f.create.Some? then CreateSuite(put, f.create.value, caps, held, rowid, now).db else put;
      SamePins(put, put);
      if f.create.Some? { CreateSuitePins(put, f.create.value, caps, held, rowid, now); }
      PinsMoveTwice(db, put, c);
      PinsMoveBalanced(db, c);
      BalancedIgnores(db, c, r.value.db);
    }
  }

  lemma InvalidateBalanced(db: Db, key: SuiteKey, anchor: string, was: Hash, now: Time)
    ensures Balanced(db, Final(db, InvalidateLegacy(db, key, anchor, was, now)))
  {
    hide Balanced, DropUrls, LegacyRows, SuitePaths.IsCanonical, Currents;
    var r := InvalidateLegacy(db, key, anchor, was, now);
    if r.Ok? {
      var d := DropUrls(db, LegacyRows(db.urls, key), now);
      DropUrlsBalanced(db, LegacyRows(db.urls, key), now);
      DropUrlsShape(db, LegacyRows(db.urls, key), now);
      RowCurrents(db.suites, key, db.suites[key].(generation := db.clock + 1));
      BalancedIgnores(db, d, r.value);
    } else {
      SamePinsBalanced(db, db);
    }
  }

  lemma TouchSuiteBalanced(db: Db, key: SuiteKey, now: Time)
    ensures Balanced(db, TouchSuite(db, key, now))
  {
    hide Balanced, Currents;
    if key in db.suites { RowCurrents(db.suites, key, db.suites[key].(lastRequested := Some(now))); }
    SamePinsBalanced(db, TouchSuite(db, key, now));
  }

  /** Rows of snapshots that are not current pin nothing. */
  lemma UncurrentRows(db: Db, d: Db)
    requires d.suites == db.suites && d.blobs == db.blobs && d.urls == db.urls
    requires forall m :: m in d.members ==> m in db.members && d.members[m] == db.members[m]
    requires forall m :: m in db.members && m !in d.members ==> !IsCurrent(db.suites, m.snapshot)
    ensures Balanced(db, d)
  {
    hide Currents, Balanced, PinsMove;
    forall s | IsCurrent(db.suites, s) ensures PinSet(d.members, s) == PinSet(db.members, s) {}
    assert PinsMove(db, d) by { SamePinners(db, d); }
    PinsMoveBalanced(db, d);
  }

  lemma SamePinners(db: Db, d: Db)
    requires d.suites == db.suites && d.blobs == db.blobs
    requires forall s :: IsCurrent(db.suites, s) ==> PinSet(d.members, s) == PinSet(db.members, s)
    ensures PinsMove(db, d)
  {
    hide Currents, PinSet;
    forall h: Hash ensures Pinners(d.suites, d.members, h) == Pinners(db.suites, db.members, h) {
      forall s: SnapshotId ensures s in Pinners(d.suites, d.members, h) <==> s in Pinners(db.suites, db.members, h) {
        IsPinner(d.suites, d.members, h, s);
        IsPinner(db.suites, db.members, h, s);
      }
    }
  }

  lemma BlobEventsBalanced(db: Db, h: Hash, hs: set<Hash>, now: Time)
    requires Inv(db)
    ensures Balanced(db, PutBlob(db, h, now)) && Balanced(db, HeartbeatBlobs(db, hs, now))
    ensures Balanced(db, ReapBlobs(db, hs))
  {
    hide Inv, Balanced;
    SameCounts(db, PutBlob(db, h, now));
    SameCounts(db, HeartbeatBlobs(db, hs, now));
    SameCounts(db, ReapBlobs(db, hs));
  }

  lemma UrlEventsBalanced(db: Db, urls: Urls)
    requires db.urls.Keys <= urls.Keys
    ensures Balanced(db, db.(urls := urls))
  {
    hide Balanced, Currents;
    SamePinsBalanced(db, db.(urls := urls));
  }

  lemma UrlEventUrls(db: Db, k: UrlKey, row: UrlRow, was: Hash, new_: Hash, now: Time)
    ensures var d := Final(db, PutUrl(db, k, row)); d == db.(urls := d.urls) && db.urls.Keys <= d.urls.Keys
    ensures var d := TouchUrl(db, k, now); d == db.(urls := d.urls) && db.urls.Keys <= d.urls.Keys
    ensures var d := Final(db, RefreshUrl(db, k, was, new_, now));
            d == db.(urls := d.urls) && db.urls.Keys <= d.urls.Keys
  {
  }

  lemma OtherEventsBalanced(db: Db, snapshots: Snapshots, markers: Markers, queue: set<SnapshotId>, next: SnapshotId)
    ensures Balanced(db, db.(snapshots := snapshots, markers := markers, queue := queue, nextId := next))
  {
    hide Balanced, Currents;
    SamePinsBalanced(db, db.(snapshots := snapshots, markers := markers, queue := queue, nextId := next));
  }

  lemma HeartbeatSnapshotIs(db: Db, id: SnapshotId, now: Time)
    ensures var d := HeartbeatSnapshot(db, id, now); d == db.(snapshots := d.snapshots)
  {
  }

  lemma CreateBalanced(db: Db, seed: Seed, caps: Caps, held: Option<SuiteKey>, rowid: nat, now: Time)
    requires Inv(db)
    ensures Balanced(db, CreateSuite(db, seed, caps, held, rowid, now).db)
  {
    hide Inv, Balanced, PinsMove, CreateSuite;
    CreateSuitePins(db, seed, caps, held, rowid, now);
    PinsMoveBalanced(db, CreateSuite(db, seed, caps, held, rowid, now).db);
  }

  lemma StepBalanced(db: Db, op: Op)
    requires Inv(db) && Enabled(db, op)
    ensures Balanced(db, Apply(db, op))
  {
    hide Inv, Balanced, PutBlob, HeartbeatBlobs, ReapBlobs, PutUrl, TouchUrl, RefreshUrl, DropUrls, CollectUrls,
         InsertCandidate, HeartbeatSnapshot, CommitAdoption, RepairSkipped, Reconcile, ReapSuite, ForgetSuite,
         SweepMarkers, MarkAll, DecideAll, CreateSuite, StoreFetched, InvalidateLegacy, TouchSuite, RemoveSnapshots,
         DrainChunk, Reapable, Collectable, IsChunk, IntegritySteps.CandidateFinds, IntegritySteps.DropsMissing;
    var (now, row) := (op.now, UrlRow(None, false, None, 0, None, None));
    match op.event
    case PutsBlob(h) => BlobEventsBalanced(db, h, {}, now);
    case HeartbeatsBlobs(hs) => BlobEventsBalanced(db, 0, hs, now);
    case ReapsBlobs(_, hs) => BlobEventsBalanced(db, 0, hs, now);
    case PutsUrl(k, r) =>
      UrlEventUrls(db, k, r, 0, 0, now);
      UrlEventsBalanced(db, Final(db, PutUrl(db, k, r)).urls);
    case TouchesUrl(k) =>
      UrlEventUrls(db, k, row, 0, 0, now);
      UrlEventsBalanced(db, TouchUrl(db, k, now).urls);
    case RefreshesUrl(k, was, new_) =>
      UrlEventUrls(db, k, row, was, new_, now);
      UrlEventsBalanced(db, Final(db, RefreshUrl(db, k, was, new_, now)).urls);
    case DropsUrls(ks) => DropUrlsBalanced(db, ks, now);
    case CollectsUrls(ks, p) => CollectUrlsBalanced(db, ks, p);
    case InsertsCandidate(c, existing) => CandidateBalanced(db, c, existing, now);
    case HeartbeatsSnapshot(id) => 
      HeartbeatSnapshotIs(db, id, now);
      OtherEventsBalanced(db, HeartbeatSnapshot(db, id, now).snapshots, db.markers, db.queue, db.nextId);
    case Commits(id, a) => CommitBalanced(db, id, a, now);
    case Repairs(id, path, rows) => RepairBalanced(db, id, path, rows);
    case Reconciles(id, rows, packages) => ReconcileBalanced(db, id, rows, packages);
    case Reaps(key, want, cutoff) => ReapBalanced(db, key, want, cutoff, now);
    case Forgets(key, want) => ForgetBalanced(db, key, want, now);
    case SweepsMarkers(keys, cutoff) => SweepBalanced(db, keys, cutoff);
    case Marks(marks) => OtherEventsBalanced(db, db.snapshots, MarkAll(db.markers, marks), db.queue, db.nextId);
    case Audits(ds) => DecideAllBalanced(db, ds, now);
    case Enqueues(ids) => OtherEventsBalanced(db, db.snapshots, db.markers, db.queue + ids, db.nextId);
    case Creates(seed, caps, held, rowid) => CreateBalanced(db, seed, caps, held, rowid, now);
    case Stores(f, caps, held, rowid) => StoreBalanced(db, f, caps, held, rowid, now); UnchangedBalanced(db);
    case Invalidates(key, anchor, was) => InvalidateBalanced(db, key, anchor, was, now);
    case TouchesSuite(key) => TouchSuiteBalanced(db, key, now);
    case CollectsSnapshots(ids, cutoff, keep) => CollectBalanced(db, ids, cutoff, keep);
    case Drains(c, limit) => DrainBalanced(db, c, limit);
  }

  lemma UnchangedBalanced(db: Db)
    ensures Balanced(db, db)
  {
    SamePinsBalanced(db, db);
  }

  lemma CandidateBalanced(db: Db, c: Candidate, existing: Option<SnapshotId>, now: Time)
    requires IntegritySteps.CandidateFinds(db, c, existing)
    ensures Balanced(db, Final(db, InsertCandidate(db, c, existing, now)))
  {
    hide Balanced, Currents, InsertCandidate;
    CandidateOther(db, c, existing, now);
    var d := Final(db, InsertCandidate(db, c, existing, now));
    OtherEventsBalanced(db, d.snapshots, db.markers, db.queue, d.nextId);
  }

  lemma SweepBalanced(db: Db, keys: set<MarkerKey>, cutoff: Time)
    ensures Balanced(db, SweepMarkers(db, keys, cutoff))
  {
    hide Balanced, IsOrphan;
    OtherEventsBalanced(db, db.snapshots, SweepMarkers(db, keys, cutoff).markers, db.queue, db.nextId);
  }

  lemma CollectBalanced(db: Db, ids: set<SnapshotId>, cutoff: Time, keep: nat)
    requires ids <= Collectable(db, cutoff, keep)
    ensures Balanced(db, RemoveSnapshots(db, ids))
  {
    hide Balanced, DisplacedBefore;
    UncurrentRows(db, RemoveSnapshots(db, ids));
  }

  lemma DrainBalanced(db: Db, c: Chunk, limit: nat)
    requires IsChunk(db, c, limit)
    ensures Balanced(db, DrainChunk(db, c))
  {
    hide Balanced;
    UncurrentRows(db, DrainChunk(db, c));
  }

  // ----- runs -----

  /** The rows naming h deleted since its blob row was created; for a blob of the first state,
      since before it by as many as its count was already short of its pins. */
  ghost function DropsSince(dbs: seq<Db>, h: Hash, i: nat): int
    requires i < |dbs|
  {
    if i == 0 then (if h in dbs[0].blobs then PinCount(dbs[0], h) - dbs[0].blobs[h].refcount else 0)
    else if h !in dbs[i - 1].blobs then 0
    else DropsSince(dbs, h, i - 1) + Dropped(dbs[i - 1].urls, dbs[i].urls, h)
  }

  /** The ledger: in every state of every run, a count is its pins less its deleted rows. */
  lemma {:induction false} RefcountLedger(dbs: seq<Db>, ops: seq<Op>, i: nat, h: Hash)
    requires Run(dbs, ops) && Inv(dbs[0]) && i <= |ops| && h in dbs[i].blobs
    ensures dbs[i].blobs[h].refcount == PinCount(dbs[i], h) - DropsSince(dbs, h, i)
  {
    hide Inv, Apply, Enabled, PinCount, Dropped;
    if i > 0 {
      RunKeeps(dbs, ops, i - 1);
      assert StepsAt(dbs, ops, i - 1);
      StepBalanced(dbs[i - 1], ops[i - 1]);
      assert BlobBalanced(dbs[i - 1], dbs[i], h);
      if h in dbs[i - 1].blobs { RefcountLedger(dbs, ops, i - 1, h); }
    }
  }

  /** No count is above its pins. */
  ghost predicate Covered(db: Db) { forall h :: h in db.blobs ==> db.blobs[h].refcount <= PinCount(db, h) }

  lemma EmptyCovered()
    ensures Covered(EMPTY)
  {
  }

  lemma {:induction false} DropsArePositive(dbs: seq<Db>, h: Hash, i: nat)
    requires i < |dbs| && Covered(dbs[0])
    ensures DropsSince(dbs, h, i) >= 0
  {
    hide PinCount, Dropped;
    if i > 0 { DropsArePositive(dbs, h, i - 1); }
  }

  // ----- blob collection -----

  /** Nothing leaks: a blob that no row, member or anchor references is stamped and not pinned,
      so it becomes reapable as soon as its grace has passed. */
  lemma UnreferencedIsReapable(dbs: seq<Db>, ops: seq<Op>, i: nat, h: Hash)
    requires Run(dbs, ops) && Inv(dbs[0]) && Covered(dbs[0]) && i <= |ops| && h in dbs[i].blobs
    requires !Referenced(dbs[i], h)
    ensures dbs[i].blobs[h].refcount <= 0 && dbs[i].blobs[h].zeroedAt.Some?
    ensures forall cutoff :: h in Reapable(dbs[i], cutoff) <==> dbs[i].blobs[h].zeroedAt.value < cutoff
  {
    var db := dbs[i];
    RefcountLedger(dbs, ops, i, h);
    DropsArePositive(dbs, h, i);
    RunKeeps(dbs, ops, i);
    NoMemberNoPin(db, h);
    assert ZeroedOk(db.blobs);
  }

  lemma NoMemberNoPin(db: Db, h: Hash)
    requires !MemberNames(db.members, h)
    ensures PinCount(db, h) == 0
  {
    forall s ensures h !in PinSet(db.members, s) {}
    assert Pinners(db.suites, db.members, h) == {};
  }

  /** Nothing is over-deleted: a step removes a blob row only if it had no reference and no pin, past its grace. */
  lemma OnlyReapableBlobsGo(db: Db, op: Op, h: Hash)
    requires Inv(db) && Enabled(db, op) && h in db.blobs && h !in Apply(db, op).blobs
    ensures op.event.ReapsBlobs? && h in op.event.reaped && !Referenced(db, h) && PinCount(db, h) == 0
    ensures db.blobs[h].refcount <= 0 && db.blobs[h].zeroedAt.Some? && db.blobs[h].zeroedAt.value < op.event.blobCutoff
  {
    hide Inv, Referenced, PinCount;
    BlobKeysStay(db, op);
    NoReferenceNoPin(db, h);
  }

  lemma NoReferenceNoPin(db: Db, h: Hash)
    requires !Referenced(db, h)
    ensures PinCount(db, h) == 0
  {
    NoMemberNoPin(db, h);
  }

  ghost predicate KeepsBlobs(db: Db, d: Db) { db.blobs.Keys <= d.blobs.Keys }

  lemma BlobEventKeys(db: Db, h: Hash, hs: set<Hash>, now: Time)
    ensures KeepsBlobs(db, PutBlob(db, h, now)) && KeepsBlobs(db, HeartbeatBlobs(db, hs, now))
  {
  }

  lemma MarkerKeys(db: Db, markers: Markers, queue: set<SnapshotId>)
    ensures KeepsBlobs(db, db.(markers := markers)) && KeepsBlobs(db, db.(queue := queue))
  {
  }

  lemma UrlEventKeys(db: Db, k: UrlKey, row: UrlRow, was: Hash, new_: Hash, now: Time)
    ensures KeepsBlobs(db, Final(db, PutUrl(db, k, row))) && KeepsBlobs(db, TouchUrl(db, k, now))
    ensures KeepsBlobs(db, Final(db, RefreshUrl(db, k, was, new_, now)))
  {
  }

  lemma OtherEventKeys(db: Db, id: SnapshotId, key: SuiteKey, ids: set<SnapshotId>, c: Chunk, now: Time)
    ensures KeepsBlobs(db, HeartbeatSnapshot(db, id, now)) && KeepsBlobs(db, TouchSuite(db, key, now))
    ensures KeepsBlobs(db, RemoveSnapshots(db, ids)) && KeepsBlobs(db, DrainChunk(db, c))
  {
  }

  lemma AuditKeys(db: Db, ds: seq<Decision>, now: Time)
    ensures KeepsBlobs(db, DecideAll(db, ds, now))
  {
    hide Balanced, DecideAll, Shrinks;
    DecideAllBalanced(db, ds, now);
  }

  lemma DropsKeys(db: Db, ks: set<UrlKey>, now: Time)
    ensures KeepsBlobs(db, DropUrls(db, ks, now))
  {
    hide DropUrls, Shrinks;
    DropUrlsShape(db, ks, now);
  }

  lemma CommitKeys(db: Db, id: SnapshotId, a: Adoption, now: Time)
    ensures KeepsBlobs(db, Final(db, CommitAdoption(db, id, a, now)))
  {
    hide CommitError, Committed;
    if CommitError(db, id, a).None? { CommitBlobKeys(db, id, a, now); }
  }

  lemma CollectKeys(db: Db, ks: set<UrlKey>, p: Pass)
    ensures KeepsBlobs(db, CollectUrls(db, ks, p))
  {
    hide Sweep;
    SweepKeys(Files(db.urls, db.blobs), CatalogOf(db), ks, p);
  }

  lemma CreateKeys(db: Db, seed: Seed, caps: Caps, held: Option<SuiteKey>, rowid: nat, now: Time)
    requires Inv(db)
    ensures KeepsBlobs(db, CreateSuite(db, seed, caps, held, rowid, now).db)
  {
    hide Inv, PinsMove, CreateSuite;
    CreateSuitePins(db, seed, caps, held, rowid, now);
    PinsKeys(db, CreateSuite(db, seed, caps, held, rowid, now).db);
  }

  lemma BlobKeysStay(db: Db, op: Op)
    requires Inv(db) && Enabled(db, op)
    ensures op.event.ReapsBlobs? || KeepsBlobs(db, Apply(db, op))
  {
    hide Inv, Balanced, PutBlob, HeartbeatBlobs, ReapBlobs, PutUrl, TouchUrl, RefreshUrl, DropUrls, CollectUrls,
         InsertCandidate, HeartbeatSnapshot, CommitAdoption, RepairSkipped, Reconcile, ReapSuite, ForgetSuite,
         SweepMarkers, MarkAll, DecideAll, CreateSuite, StoreFetched, InvalidateLegacy, TouchSuite, RemoveSnapshots,
         DrainChunk, Reapable, Collectable, IsChunk, IntegritySteps.CandidateFinds, IntegritySteps.DropsMissing,
         KeepsBlobs;
    var now := op.now;
    var (key, chunk, row) :=
      (SuiteKey(Http, "", ""), Chunk(0, {}, {}, {}, false), UrlRow(None, false, None, 0, None, None));
    match op.event
    case PutsBlob(h) => BlobEventKeys(db, h, {}, now);
    case HeartbeatsBlobs(hs) => BlobEventKeys(db, 0, hs, now);
    case ReapsBlobs(_, hs) =>
    case PutsUrl(k, r) => UrlEventKeys(db, k, r, 0, 0, now);
    case TouchesUrl(k) => UrlEventKeys(db, k, row, 0, 0, now);
    case RefreshesUrl(k, was, new_) => UrlEventKeys(db, k, row, was, new_, now);
    case DropsUrls(ks) => DropsKeys(db, ks, now);
    case CollectsUrls(ks, p) => CollectKeys(db, ks, p);
    case InsertsCandidate(c, existing) =>
      CandidateExists(db, c, existing);
      CandidateOther(db, c, existing, now);
    case HeartbeatsSnapshot(id) => OtherEventKeys(db, id, key, {}, chunk, now);
    case Commits(id, a) => CommitKeys(db, id, a, now);
    case Repairs(id, path, rows) => RepairBlobs(db, id, path, rows);
    case Reconciles(id, rows, packages) => ReconcileBlobs(db, id, rows, packages);
    case Reaps(k, want, cutoff) => ReapKeys(db, k, want, cutoff, now);
    case Forgets(k, want) => ForgetKeys(db, k, want, now);
    case SweepsMarkers(keys, cutoff) => SweepMarkersBlobs(db, keys, cutoff);
    case Marks(marks) => MarkerKeys(db, MarkAll(db.markers, marks), db.queue);
    case Audits(ds) => AuditKeys(db, ds, now);
    case Enqueues(ids) => MarkerKeys(db, db.markers, db.queue + ids);
    case Creates(seed, caps, held, rowid) => CreateKeys(db, seed, caps, held, rowid, now);
    case Stores(f, caps, held, rowid) => StoreKeys(db, f, caps, held, rowid, now);
    case Invalidates(k, anchor, was) => InvalidateKeys(db, k, anchor, was, now);
    case TouchesSuite(k) => OtherEventKeys(db, 0, k, {}, chunk, now);
    case CollectsSnapshots(ids, _, _) => OtherEventKeys(db, 0, key, ids, chunk, now);
    case Drains(c, _) => OtherEventKeys(db, 0, key, {}, c, now);
  }

  lemma CandidateOther(db: Db, c: Candidate, existing: Option<SnapshotId>, now: Time)
    requires existing.Some? ==> existing.value in db.snapshots
    ensures var d := Final(db, InsertCandidate(db, c, existing, now));
            d == db.(snapshots := d.snapshots, nextId := d.nextId) && KeepsBlobs(db, d)
  {
    hide AnchorBlobs, CandidateForm, AnchorsOf;
  }

  lemma CandidateExists(db: Db, c: Candidate, existing: Option<SnapshotId>)
    requires IntegritySteps.CandidateFinds(db, c, existing)
    ensures existing.Some? ==> existing.value in db.snapshots
  {
  }

  lemma RepairBlobs(db: Db, id: SnapshotId, path: string, rows: seq<(MemberKey, Member)>)
    ensures KeepsBlobs(db, Final(db, RepairSkipped(db, id, path, rows)))
  {
    hide PinOnce, Added, RepairsSkip, NoConflict, IsCurrent;
    if RepairSkipped(db, id, path, rows).Ok? { PinOnceKeys(db.blobs, db.members, id, db.skipped[MemberKey(id, path)]); }
  }

  lemma ReconcileBlobs(db: Db, id: SnapshotId, rows: seq<(MemberKey, Member)>, packages: seq<(PackageKey, Package)>)
    ensures KeepsBlobs(db, Final(db, Reconcile(db, id, rows, packages)))
  {
    hide PinsMove, Reconcile;
    if Reconcile(db, id, rows, packages).Ok? {
      ReconcilePins(db, id, rows, packages);
      PinsKeys(db, Reconcile(db, id, rows, packages).value);
    }
  }

  lemma ReapKeys(db: Db, key: SuiteKey, want: Option<SnapshotId>, cutoff: Option<Time>, now: Time)
    requires Inv(db)
    ensures KeepsBlobs(db, ReapSuite(db, key, want, cutoff, now))
  {
    hide Inv, DeleteSuite, PinsMove;
    if DeleteCheck(db, key, want, cutoff).Deleted? {
      DeleteSuitePins(db, key, now);
      PinsKeys(db, DeleteSuite(db, key, now));
    }
  }

  lemma ForgetKeys(db: Db, key: SuiteKey, want: Option<SnapshotId>, now: Time)
    requires Inv(db)
    ensures KeepsBlobs(db, ForgetSuite(db, key, want, now))
  {
    hide Inv, DeleteSuite, BaseAnchors, BaseRows, Naming;
    ReapKeys(db, key, want, None, now);
  }

  lemma SweepMarkersBlobs(db: Db, keys: set<MarkerKey>, cutoff: Time)
    ensures KeepsBlobs(db, SweepMarkers(db, keys, cutoff))
  {
    hide IsOrphan;
  }

  lemma StoreKeys(db: Db, f: Fetched, caps: Caps, held: Option<SuiteKey>, rowid: nat, now: Time)
    requires Inv(db)
    ensures StoreFetched(db, f, caps, held, rowid, now).Ok? ==>
            KeepsBlobs(db, StoreFetched(db, f, caps, held, rowid, now).value.db)
    ensures KeepsBlobs(db, db)
  {
    hide Inv, PinsMove, CreateSuite, MarkSeen;
    if PutUrl(db, f.k, f.row).Ok? && f.create.Some? {
      var put := PutUrl(db, f.k, f.row).value;
      PutUrlKeeps(db, f.k, f.row);
      CreateSuitePins(put, f.create.value, caps, held, rowid, now);
      PinsKeys(put, CreateSuite(put, f.create.value, caps, held, rowid, now).db);
    }
  }

  lemma InvalidateKeys(db: Db, key: SuiteKey, anchor: string, was: Hash, now: Time)
    ensures KeepsBlobs(db, Final(db, InvalidateLegacy(db, key, anchor, was, now)))
  {
    hide DropUrls, LegacyRows, SuitePaths.IsCanonical;
    DropUrlsShape(db, LegacyRows(db.urls, key), now);
  }
}
