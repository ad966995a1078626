/** Which tables each operation may write; every other table is as it was. */
module Footprints {
  import opened Text
  import opened Tables
  import opened Retention
  import opened Transactions
  import opened Integrity
  import opened Runs
  import IntegritySteps
  import SuitePaths

  datatype Table = BlobTable | UrlTable | SuiteTable | SnapshotTable | RowTables | MarkerTable | QueueTable

  function Writes(e: Event): set<Table> {
    match e
    case PutsBlob(_) => {BlobTable}
    case HeartbeatsBlobs(_) => {BlobTable}
    case ReapsBlobs(_, _) => {BlobTable}
    case PutsUrl(_, _) => {UrlTable}
    case TouchesUrl(_) => {UrlTable}
    case RefreshesUrl(_, _, _) => {UrlTable}
    case DropsUrls(_) => {UrlTable, BlobTable}
    case CollectsUrls(_, _) => {UrlTable, BlobTable}
    case InsertsCandidate(_, _) => {SnapshotTable}
    case HeartbeatsSnapshot(_) => {SnapshotTable}
    case Commits(_, _) => {BlobTable, UrlTable, SuiteTable, SnapshotTable, RowTables, MarkerTable}
    case Repairs(_, _, _) => {BlobTable, RowTables}
    case Reconciles(_, _, _) => {BlobTable, RowTables}
    case Reaps(_, _, _) => {BlobTable, SuiteTable, SnapshotTable, MarkerTable}
    case Forgets(_, _) => {BlobTable, UrlTable, SuiteTable, SnapshotTable, MarkerTable}
    case SweepsMarkers(_, _) => {MarkerTable}
    case Marks(_) => {MarkerTable}
    case Audits(_) => {BlobTable, UrlTable, SuiteTable, SnapshotTable, MarkerTable, QueueTable}
    case Enqueues(_) => {QueueTable}
    case Creates(_, _, _, _) => {BlobTable, SuiteTable, SnapshotTable, MarkerTable}
    case Stores(_, _, _, _) => {UrlTable, BlobTable, SuiteTable, SnapshotTable, MarkerTable}
    case Invalidates(_, _, _) => {UrlTable, BlobTable, SuiteTable}
    case TouchesSuite(_) => {SuiteTable}
    case CollectsSnapshots(_, _, _) => {RowTables, SnapshotTable}
    case Drains(_, _) => {RowTables, SnapshotTable}
  }

  /** d agrees with db on every table outside w. */
  ghost predicate Untouched(db: Db, d: Db, w: set<Table>) {
    d == Db(if BlobTable in w then d.blobs else db.blobs,
            if UrlTable in w then d.urls else db.urls,
            if SuiteTable in w then d.suites else db.suites,
            if SnapshotTable in w then d.snapshots else db.snapshots,
            if RowTables in w then d.members else db.members,
            if RowTables in w then d.skipped else db.skipped,
            if RowTables in w then d.packages else db.packages,
            if MarkerTable in w then d.markers else db.markers,
            if QueueTable in w then d.queue else db.queue,
            if SnapshotTable in w then d.nextId else db.nextId,
            if SuiteTable in w then d.clock else db.clock)
  }

  lemma UntouchedSame(db: Db, w: set<Table>)
    ensures Untouched(db, db, w)
  {
  }

  lemma BlobFrame(db: Db, h: Hash, hs: set<Hash>, now: Time)
    ensures Untouched(db, PutBlob(db, h, now), {BlobTable}) && Untouched(db, HeartbeatBlobs(db, hs, now), {BlobTable})
    ensures Untouched(db, ReapBlobs(db, hs), {BlobTable})
  {
  }

  lemma PutFrame(db: Db, k: UrlKey, row: UrlRow)
    ensures Untouched(db, Final(db, PutUrl(db, k, row)), {UrlTable})
  {
  }

  lemma TouchFrame(db: Db, k: UrlKey, now: Time)
    ensures Untouched(db, TouchUrl(db, k, now), {UrlTable})
  {
  }

  lemma RefreshFrame(db: Db, k: UrlKey, was: Hash, new_: Hash, now: Time)
    ensures Untouched(db, Final(db, RefreshUrl(db, k, was, new_, now)), {UrlTable})
  {
  }

  lemma DropFrame(db: Db, ks: set<UrlKey>, now: Time)
    ensures Untouched(db, DropUrls(db, ks, now), {UrlTable, BlobTable})
  {
    hide DropKeys;
  }

  lemma CollectFrame(db: Db, ks: set<UrlKey>, p: Pass)
    ensures Untouched(db, CollectUrls(db, ks, p), {UrlTable, BlobTable})
  {
    hide Sweep;
  }

  lemma CandidateFrame(db: Db, c: Candidate, existing: Option<SnapshotId>, now: Time)
    requires existing.Some? ==> existing.value in db.snapshots
    ensures Untouched(db, Final(db, InsertCandidate(db, c, existing, now)), {SnapshotTable})
  {
    hide AnchorBlobs, CandidateForm, AnchorsOf;
  }

  lemma HeartbeatFrame(db: Db, id: SnapshotId, now: Time)
    ensures Untouched(db, HeartbeatSnapshot(db, id, now), {SnapshotTable})
  {
  }

  lemma CommitFrame(db: Db, id: SnapshotId, a: Adoption, now: Time)
    ensures Untouched(db, Final(db, CommitAdoption(db, id, a, now)),
            {BlobTable, UrlTable, SuiteTable, SnapshotTable, RowTables, MarkerTable})
  {
    hide CommitError, Added, WarmRows, SeedAnchors, AdoptionStamp, Bump, ReleasePrior, PinSet, AnchorNames, MarkSeen;
  }

  lemma RepairFrame(db: Db, id: SnapshotId, path: string, rows: seq<(MemberKey, Member)>)
    ensures Untouched(db, Final(db, RepairSkipped(db, id, path, rows)), {BlobTable, RowTables})
  {
    hide PinOnce, Added, RepairsSkip, NoConflict, IsCurrent;
  }

  lemma ReconcileFrame(db: Db, id: SnapshotId, rows: seq<(MemberKey, Member)>, packages: seq<(PackageKey, Package)>)
    ensures Untouched(db, Final(db, Reconcile(db, id, rows, packages)), {BlobTable, RowTables})
  {
    hide ReconcileMembers, ReconcilePackages, IsCurrent;
  }

  lemma DeleteFrame(db: Db, key: SuiteKey, now: Time)
    requires key in db.suites
    ensures var d := DeleteSuite(db, key, now);
            Untouched(db, d, {BlobTable, SuiteTable, SnapshotTable, MarkerTable}) && d.clock == db.clock
              && d.nextId == db.nextId
    ensures DeleteSuite(db, key, now).suites == db.suites - {key}
  {
    hide ReleasePrior, Retire, StampBase, MarkSeen, SuiteSigned;
  }

  lemma ReapFrame(db: Db, key: SuiteKey, want: Option<SnapshotId>, cutoff: Option<Time>, now: Time)
    ensures Untouched(db, ReapSuite(db, key, want, cutoff, now), {BlobTable, SuiteTable, SnapshotTable, MarkerTable})
  {
    hide DeleteSuite;
    if key in db.suites { DeleteFrame(db, key, now); }
  }

  lemma ForgetFrame(db: Db, key: SuiteKey, want: Option<SnapshotId>, now: Time)
    ensures Untouched(db, ForgetSuite(db, key, want, now),
            {BlobTable, UrlTable, SuiteTable, SnapshotTable, MarkerTable})
  {
    hide DeleteSuite, DropKeys, BaseAnchors, BaseRows, Unmark;
    if key in db.suites { DeleteFrame(db, key, now); }
  }

  lemma MarkerFrame(db: Db, keys: set<MarkerKey>, cutoff: Time, markers: Markers, ids: set<SnapshotId>)
    ensures Untouched(db, SweepMarkers(db, keys, cutoff), {MarkerTable})
    ensures Untouched(db, db.(markers := markers), {MarkerTable})
    ensures Untouched(db, db.(queue := db.queue + ids), {QueueTable})
  {
    hide IsOrphan;
  }

  lemma DecideFrame(db: Db, d: Decision, now: Time)
    ensures Untouched(db, Decide(db, d, now), {BlobTable, UrlTable, SuiteTable, SnapshotTable, MarkerTable, QueueTable})
  {
    hide DropUrls, ClearCurrent, Release, PinSet, IsCurrent, MarkSnapshotBase;
    if d.Quarantine? {
      DropFrame(QuarantineSnapshot(db, d.id, now), AnchorRows(QuarantineSnapshot(db, d.id, now), d.id), now);
    }
  }

  lemma {:induction false} DecideAllFrame(db: Db, ds: seq<Decision>, now: Time)
    ensures Untouched(db, DecideAll(db, ds, now),
            {BlobTable, UrlTable, SuiteTable, SnapshotTable, MarkerTable, QueueTable})
    decreases |ds|
  {
    hide Decide;
    if ds != [] {
      DecideFrame(db, ds[0], now);
      DecideAllFrame(Decide(db, ds[0], now), ds[1..], now);
    }
  }

  lemma InsertSuiteFrame(db: Db, seed: Seed, rowid: nat)
    ensures Untouched(db, InsertSuite(db, seed, rowid), {SuiteTable, MarkerTable})
  {
    hide SeenAt, MarkSeen;
  }

  lemma UntouchedTwice(a: Db, b: Db, c: Db, v: set<Table>, w: set<Table>, u: set<Table>)
    requires Untouched(a, b, v) && Untouched(b, c, w) && v <= u && w <= u
    ensures Untouched(a, c, u)
  {
  }

  lemma UntouchedMore(a: Db, b: Db, v: set<Table>, u: set<Table>)
    requires Untouched(a, b, v) && v <= u
    ensures Untouched(a, b, u)
  {
  }

  lemma CreateFrame(db: Db, seed: Seed, caps: Caps, held: Option<SuiteKey>, rowid: nat, now: Time)
    ensures Untouched(db, CreateSuite(db, seed, caps, held, rowid, now).db,
            {BlobTable, SuiteTable, SnapshotTable, MarkerTable})
  {
    hide DeleteSuite, HostRows, InsertSuite, Untouched;
    var (d, all, few) :=
      (CreateSuite(db, seed, caps, held, rowid, now).db, {BlobTable, SuiteTable, SnapshotTable, MarkerTable},
        {SuiteTable, MarkerTable});
    UntouchedSame(db, all);
    InsertSuiteFrame(db, seed, rowid);
    UntouchedMore(db, InsertSuite(db, seed, rowid), few, all);
    if held.Some? && held.value in db.suites {
      var e := DeleteSuite(db, held.value, now);
      DeleteFrame(db, held.value, now);
      InsertSuiteFrame(e, seed, rowid);
      UntouchedTwice(db, e, InsertSuite(e, seed, rowid), all, few, all);
    }
  }

  lemma MarkFrame(db: Db, markers: Markers)
    ensures Untouched(db, db.(markers := markers), {MarkerTable})
  {
  }

  lemma StoreFrame(db: Db, f: Fetched, caps: Caps, held: Option<SuiteKey>, rowid: nat, now: Time)
    ensures StoreFetched(db, f, caps, held, rowid, now).Ok? ==>
              Untouched(db, StoreFetched(db, f, caps, held, rowid, now).value.db,
                {UrlTable, BlobTable, SuiteTable, SnapshotTable, MarkerTable})
  {
    hide CreateSuite, MarkSeen, Untouched, PutUrl;
    if PutUrl(db, f.k, f.row).Ok? {
      var put := PutUrl(db, f.k, f.row).value;
      var (all, some) :=
        ({UrlTable, BlobTable, SuiteTable, SnapshotTable, MarkerTable},
          {BlobTable, SuiteTable, SnapshotTable, MarkerTable});
      PutFrame(db, f.k, f.row);
      UntouchedMore(db, put, {UrlTable}, all);
      var c := if f.create.Some? then CreateSuite(put, f.create.value, caps, held, rowid, now).db else put;
      if f.create.Some? {
        CreateFrame(put, f.create.value, caps, held, rowid, now);
        UntouchedTwice(db, put, c, {UrlTable}, some, all);
      }
      if f.suite.Some? {
        var markers := MarkSeen(c.markers, MarkerOf(f.suite.value), f.markSeenAt);
        MarkFrame(c, markers);
        UntouchedTwice(db, c, c.(markers := markers), all, {MarkerTable}, all);
      }
    }
  }

  lemma InvalidateFrame(db: Db, key: SuiteKey, anchor: string, was: Hash, now: Time)
    ensures Untouched(db, Final(db, InvalidateLegacy(db, key, anchor, was, now)), {UrlTable, BlobTable, SuiteTable})
  {
    hide DropUrls, LegacyRows, SuitePaths.IsCanonical;
    DropFrame(db, LegacyRows(db.urls, key), now);
  }

  lemma TouchSuiteFrame(db: Db, key: SuiteKey, now: Time)
    ensures Untouched(db, TouchSuite(db, key, now), {SuiteTable})
  {
  }

  lemma RemoveFrame(db: Db, ids: set<SnapshotId>, c: Chunk)
    ensures Untouched(db, RemoveSnapshots(db, ids), {RowTables, SnapshotTable})
    ensures Untouched(db, DrainChunk(db, c), {RowTables, SnapshotTable})
  {
  }

  lemma CandidateExists(db: Db, c: Candidate, existing: Option<SnapshotId>)
    requires IntegritySteps.CandidateFinds(db, c, existing)
    ensures existing.Some? ==> existing.value in db.snapshots
  {
  }

  lemma Footprint(db: Db, op: Op)
    requires Enabled(db, op)
    ensures Untouched(db, Apply(db, op), Writes(op.event))
  {
    hide Untouched, PutBlob, HeartbeatBlobs, ReapBlobs, PutUrl, TouchUrl, RefreshUrl, DropUrls, CollectUrls,
         InsertCandidate, HeartbeatSnapshot, CommitAdoption, RepairSkipped, Reconcile, ReapSuite, ForgetSuite,
         SweepMarkers, MarkAll, DecideAll, CreateSuite, StoreFetched, InvalidateLegacy, TouchSuite, RemoveSnapshots,
         DrainChunk, Reapable, Collectable, IsChunk, IntegritySteps.CandidateFinds, IntegritySteps.DropsMissing;
    var (now, chunk) := (op.now, Chunk(0, {}, {}, {}, false));
    match op.event
    case PutsBlob(h) => BlobFrame(db, h, {}, now);
    case HeartbeatsBlobs(hs) => BlobFrame(db, 0, hs, now);
    case ReapsBlobs(_, hs) => BlobFrame(db, 0, hs, now);
    case PutsUrl(k, r) => PutFrame(db, k, r);
    case TouchesUrl(k) => TouchFrame(db, k, now);
    case RefreshesUrl(k, was, new_) => RefreshFrame(db, k, was, new_, now);
    case DropsUrls(ks) => DropFrame(db, ks, now);
    case CollectsUrls(ks, p) => CollectFrame(db, ks, p);
    case InsertsCandidate(c, existing) =>
      CandidateExists(db, c, existing);
      CandidateFrame(db, c, existing, now);
    case HeartbeatsSnapshot(id) => HeartbeatFrame(db, id, now);
    case Commits(id, a) => CommitFrame(db, id, a, now);
    case Repairs(id, path, rows) => RepairFrame(db, id, path, rows);
    case Reconciles(id, rows, packages) => ReconcileFrame(db, id, rows, packages);
    case Reaps(key, want, cutoff) => ReapFrame(db, key, want, cutoff, now);
    case Forgets(key, want) => ForgetFrame(db, key, want, now);
    case SweepsMarkers(keys, cutoff) => MarkerFrame(db, keys, cutoff, db.markers, {});
    case Marks(marks) => MarkerFrame(db, {}, 0, MarkAll(db.markers, marks), {});
    case Audits(ds) => DecideAllFrame(db, ds, now);
    case Enqueues(ids) => MarkerFrame(db, {}, 0, db.markers, ids);
    case Creates(seed, caps, held, rowid) => CreateFrame(db, seed, caps, held, rowid, now);
    case Stores(f, caps, held, rowid) =>
      StoreFrame(db, f, caps, held, rowid, now);
      UntouchedSame(db, {UrlTable, BlobTable, SuiteTable, SnapshotTable, MarkerTable});
    case Invalidates(key, anchor, was) => InvalidateFrame(db, key, anchor, was, now);
    case TouchesSuite(key) => TouchSuiteFrame(db, key, now);
    case CollectsSnapshots(ids, _, _) => RemoveFrame(db, ids, chunk);
    case Drains(c, _) => RemoveFrame(db, {}, c);
  }

  lemma MarkersFixed(db: Db, op: Op)
    requires Enabled(db, op) && MarkerTable !in Writes(op.event)
    ensures Apply(db, op).markers == db.markers
  {
    hide Enabled, Apply, Writes;
    Footprint(db, op);
  }

  lemma SuitesFixed(db: Db, op: Op)
    requires Enabled(db, op) && SuiteTable !in Writes(op.event)
    ensures Apply(db, op).suites == db.suites && Apply(db, op).clock == db.clock
  {
    hide Enabled, Apply, Writes;
    Footprint(db, op);
  }

  lemma SnapshotsFixed(db: Db, op: Op)
    requires Enabled(db, op) && SnapshotTable !in Writes(op.event)
    ensures Apply(db, op).snapshots == db.snapshots && Apply(db, op).nextId == db.nextId
  {
    hide Enabled, Apply, Writes;
    Footprint(db, op);
  }

  lemma UrlsFixed(db: Db, op: Op)
    requires Enabled(db, op) && UrlTable !in Writes(op.event)
    ensures Apply(db, op).urls == db.urls
  {
    hide Enabled, Apply, Writes;
    Footprint(db, op);
  }

  lemma MembersFixed(db: Db, op: Op)
    requires Enabled(db, op) && RowTables !in Writes(op.event)
    ensures Apply(db, op).members == db.members && Apply(db, op).skipped == db.skipped
    ensures Apply(db, op).packages == db.packages
  {
    hide Enabled, Apply, Writes;
    Footprint(db, op);
  }
}
