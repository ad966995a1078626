/** Signed history: what refuses unsigned adoptions of a base, and the only ways it is ever lost. */
module History {
  import opened Text
  import opened Tables
  import opened Transactions
  import opened Integrity
  import opened Runs
  import opened Footprints
  import IntegritySteps
  import SuitePaths

  // ----- markers -----

  ghost predicate KeepsMarkers(db: Db, d: Db) { db.markers.Keys <= d.markers.Keys }

  /** The base's marker went because no suite row of the base, its twin or the other scheme is left. */
  ghost predicate Unmarks(db: Db, op: Op, host: string, base: string) {
    match op.event
    case Forgets(key, want) =>
      && key.host == host && MarkerBase(key.path) == base && DeleteCheck(db, key, want, None).Deleted?
      && BaseRows(db.suites - {key}, host, base) == {}
    case SweepsMarkers(_, _) => BaseRows(db.suites, host, base) == {}
    case _ => false
  }

  lemma SameMarkers(db: Db, d: Db)
    requires d.markers == db.markers
    ensures KeepsMarkers(db, d)
  {
  }

  lemma CommitMarkers(db: Db, id: SnapshotId, a: Adoption, now: Time)
    ensures KeepsMarkers(db, Final(db, CommitAdoption(db, id, a, now)))
  {
    hide CommitError, Added, WarmRows, SeedAnchors, AdoptionStamp, Bump, ReleasePrior, MarkerOf, PinSet, AnchorNames;
  }

  lemma ForgetMarkers(db: Db, key: SuiteKey, want: Option<SnapshotId>, now: Time, host: string, base: string)
    requires Marked(db.markers, host, base)
    ensures Marked(ForgetSuite(db, key, want, now).markers, host, base)
            || Unmarks(db, Op(now, Forgets(key, want)), host, base)
  {
    hide DropKeys, BaseAnchors, DeleteSuite, BaseRows;
    if DeleteCheck(db, key, want, None).Deleted? {
      var d := DeleteSuite(db, key, now);
      IntegritySteps.DeleteSuiteRows(db, key, now);
      IntegritySteps.DeleteMarkersGrow(db, key, now);
      var m :| m in db.markers && m.host == host && m.base == base;
      assert m in d.markers;
      if BaseRows(d.suites, key.host, MarkerBase(key.path)) == {}
         && !(key.host == host && MarkerBase(key.path) == base) {
        assert m in ForgetSuite(db, key, want, now).markers;
      }
    }
  }

  lemma SweptMarkers(db: Db, keys: set<MarkerKey>, cutoff: Time, now: Time, host: string, base: string)
    requires Marked(db.markers, host, base)
    ensures Marked(SweepMarkers(db, keys, cutoff).markers, host, base)
            || Unmarks(db, Op(now, SweepsMarkers(keys, cutoff)), host, base)
  {
    hide BaseRows;
    var m :| m in db.markers && m.host == host && m.base == base;
    if BaseRows(db.suites, host, base) != {} { assert m in SweepMarkers(db, keys, cutoff).markers; }
  }

  lemma DecideMarkers(db: Db, d: Decision, now: Time)
    ensures KeepsMarkers(db, Decide(db, d, now))
  {
    hide QuarantineSnapshot, DropUrls, MarkerOf;
    match d
    case Keep(id) =>
    case Drop(id) =>
    case Quarantine(id, signed, dropRows) =>
      QuarantineMarkers(db, id, now);
      DropUrlsMarkers(QuarantineSnapshot(db, id, now), AnchorRows(QuarantineSnapshot(db, id, now), id), now);
  }

  lemma QuarantineMarkers(db: Db, id: SnapshotId, now: Time)
    ensures QuarantineSnapshot(db, id, now).markers == db.markers && QuarantineSnapshot(db, id, now).queue == db.queue
  {
    hide ClearCurrent, Release, PinSet, IsCurrent;
  }

  lemma DropUrlsMarkers(db: Db, ks: set<UrlKey>, now: Time)
    ensures DropUrls(db, ks, now).markers == db.markers && DropUrls(db, ks, now).queue == db.queue
    ensures DropUrls(db, ks, now).snapshots == db.snapshots && DropUrls(db, ks, now).suites == db.suites
  {
    hide DropKeys;
  }

  lemma {:induction false} DecideAllMarkers(db: Db, ds: seq<Decision>, now: Time)
    ensures KeepsMarkers(db, DecideAll(db, ds, now))
    decreases |ds|
  {
    hide Decide;
    if ds != [] {
      DecideMarkers(db, ds[0], now);
      DecideAllMarkers(Decide(db, ds[0], now), ds[1..], now);
    }
  }

  lemma ReapMarkers(db: Db, key: SuiteKey, want: Option<SnapshotId>, cutoff: Option<Time>, now: Time)
    ensures KeepsMarkers(db, ReapSuite(db, key, want, cutoff, now))
  {
    hide DeleteSuite;
    if DeleteCheck(db, key, want, cutoff).Deleted? { IntegritySteps.DeleteMarkersGrow(db, key, now); }
  }

  lemma InsertSuiteMarkers(db: Db, seed: Seed, rowid: nat)
    ensures KeepsMarkers(db, InsertSuite(db, seed, rowid))
  {
    hide SeenAt, MarkerOf;
  }

  lemma CreateMarkers(db: Db, seed: Seed, caps: Caps, held: Option<SuiteKey>, rowid: nat, now: Time)
    ensures KeepsMarkers(db, CreateSuite(db, seed, caps, held, rowid, now).db)
  {
    hide DeleteSuite, InsertSuite, HostRows;
    InsertSuiteMarkers(db, seed, rowid);
    if held.Some? && held.value in db.suites {
      IntegritySteps.DeleteMarkersGrow(db, held.value, now);
      InsertSuiteMarkers(DeleteSuite(db, held.value, now), seed, rowid);
    }
  }

  lemma StoreMarkers(db: Db, f: Fetched, caps: Caps, held: Option<SuiteKey>, rowid: nat, now: Time)
    ensures StoreFetched(db, f, caps, held, rowid, now).Ok? ==>
            KeepsMarkers(db, StoreFetched(db, f, caps, held, rowid, now).value.db)
    ensures KeepsMarkers(db, db)
  {
    hide CreateSuite, MarkerOf;
    if PutUrl(db, f.k, f.row).Ok? && f.create.Some? {
      CreateMarkers(PutUrl(db, f.k, f.row).value, f.create.value, caps, held, rowid, now);
    }
  }

  lemma InvalidateMarkers(db: Db, key: SuiteKey, anchor: string, was: Hash, now: Time)
    ensures KeepsMarkers(db, Final(db, InvalidateLegacy(db, key, anchor, was, now)))
  {
    hide DropUrls, LegacyRows, SuitePaths.IsCanonical;
    DropUrlsMarkers(db, LegacyRows(db.urls, key), now);
  }

  lemma KeptMarked(db: Db, d: Db, host: string, base: string)
    requires KeepsMarkers(db, d) && Marked(db.markers, host, base)
    ensures Marked(d.markers, host, base)
  {
    var m :| m in db.markers && m.host == host && m.base == base;
    assert m in d.markers;
  }

  /** Every operation but a forget and a sweep keeps every marker. */
  lemma MarkersStay(db: Db, op: Op)
    requires Enabled(db, op)
    ensures op.event.Forgets? || op.event.SweepsMarkers? || KeepsMarkers(db, Apply(db, op))
  {
    hide CommitAdoption, ReapSuite, ForgetSuite, SweepMarkers, MarkAll, DecideAll, CreateSuite, StoreFetched,
         InvalidateLegacy, Reapable, Collectable, IsChunk, IntegritySteps.CandidateFinds, IntegritySteps.DropsMissing,
         PutBlob, HeartbeatBlobs, ReapBlobs, PutUrl, TouchUrl, RefreshUrl, DropUrls, CollectUrls, InsertCandidate,
         HeartbeatSnapshot, RepairSkipped, Reconcile, TouchSuite, RemoveSnapshots, DrainChunk, KeepsMarkers;
    var now := op.now;
    match op.event
    case Commits(id, a) => CommitMarkers(db, id, a, now);
    case Reaps(key, want, cutoff) => ReapMarkers(db, key, want, cutoff, now);
    case Forgets(key, want) =>
    case SweepsMarkers(keys, cutoff) =>
    case Marks(marks) => MarksGrow(db, marks);
    case Audits(ds) => DecideAllMarkers(db, ds, now);
    case Creates(seed, caps, held, rowid) => CreateMarkers(db, seed, caps, held, rowid, now);
    case Stores(f, caps, held, rowid) => StoreMarkers(db, f, caps, held, rowid, now);
    case Invalidates(key, anchor, was) => InvalidateMarkers(db, key, anchor, was, now);
    case _ =>
      MarkersFixed(db, op);
      SameMarkers(db, Apply(db, op));
  }

  lemma MarksGrow(db: Db, marks: seq<(MarkerKey, Time)>)
    ensures KeepsMarkers(db, db.(markers := MarkAll(db.markers, marks)))
  {
    IntegritySteps.MarkAllGrows(db.markers, marks);
  }

  /** A base's marker is lost only to a forget or a sweep that found no suite row of the base. */
  lemma MarkedStep(db: Db, op: Op, host: string, base: string)
    requires Enabled(db, op) && Marked(db.markers, host, base)
    ensures Marked(Apply(db, op).markers, host, base) || Unmarks(db, op, host, base)
  {
    hide Enabled, BaseRows, Marked, KeepsMarkers, CommitAdoption, ReapSuite, ForgetSuite, SweepMarkers, MarkAll,
         DecideAll, CreateSuite, StoreFetched, InvalidateLegacy, PutBlob, HeartbeatBlobs, ReapBlobs, PutUrl, TouchUrl,
         RefreshUrl, DropUrls, CollectUrls, InsertCandidate, HeartbeatSnapshot, RepairSkipped, Reconcile, TouchSuite,
         RemoveSnapshots, DrainChunk, Unmarks;
    MarkersStay(db, op);
    match op.event
    case Forgets(key, want) => ForgetMarkers(db, key, want, op.now, host, base);
    case SweepsMarkers(keys, cutoff) => SweptMarkers(db, keys, cutoff, op.now, host, base);
    case _ => KeptMarked(db, Apply(db, op), host, base);
  }

  // ----- never downgrade -----

  /** Operation i commits a snapshot of the base or its twin, in some form. */
  ghost predicate CommitsAt(dbs: seq<Db>, ops: seq<Op>, i: nat, host: string, base: string, unsigned: bool)
    requires |dbs| == |ops| + 1 && i < |ops|
  {
    && ops[i].event.Commits? && CommitError(dbs[i], ops[i].event.id, ops[i].event.adoption).None?
    && var s := dbs[i].snapshots[ops[i].event.id];
       s.key.host == host && MarkerBase(s.key.path) == base && s.form.Unsigned? == unsigned
  }

  lemma SignedCommitMarks(db: Db, id: SnapshotId, a: Adoption, now: Time)
    requires CommitError(db, id, a).None? && !db.snapshots[id].form.Unsigned?
    ensures var k := db.snapshots[id].key;
            Marked(Final(db, CommitAdoption(db, id, a, now)).markers, k.host, MarkerBase(k.path))
  {
    var k := db.snapshots[id].key;
    hide CommitError, Added, WarmRows, SeedAnchors, AdoptionStamp, Bump, ReleasePrior, PinSet, AnchorNames;
    assert MarkerOf(k) in Final(db, CommitAdoption(db, id, a, now)).markers;
  }

  /** Step k removes the last marker of the base, in one of the ways it may go. */
  ghost predicate MarkLostAt(dbs: seq<Db>, ops: seq<Op>, k: nat, host: string, base: string)
    requires |dbs| == |ops| + 1 && k < |ops|
  {
    && Marked(dbs[k].markers, host, base) && !Marked(dbs[k + 1].markers, host, base)
    && Unmarks(dbs[k], ops[k], host, base)
  }

  /** Somewhere in a stretch of a run where a mark is lost, one operation removes it. */
  lemma {:induction false} MarkLostBetween(dbs: seq<Db>, ops: seq<Op>, i: nat, j: nat, host: string, base: string)
    requires Run(dbs, ops) && i <= j <= |ops|
    requires Marked(dbs[i].markers, host, base) && !Marked(dbs[j].markers, host, base)
    ensures exists k :: i <= k < j && MarkLostAt(dbs, ops, k, host, base)
    decreases j - i
  {
    hide Apply, Enabled, Unmarks, Marked;
    assert StepsAt(dbs, ops, i);
    MarkedStep(dbs[i], ops[i], host, base);
    if Marked(dbs[i + 1].markers, host, base) {
      MarkLostBetween(dbs, ops, i + 1, j, host, base);
    } else {
      assert MarkLostAt(dbs, ops, i, host, base);
    }
  }

  /** Never downgrade: between a signed commit for a base and a later unsigned commit for the base or its twin,
      under either scheme, some forget or sweep removed the marker while the host had no suite row at either. */
  lemma NeverDowngrade(dbs: seq<Db>, ops: seq<Op>, i: nat, j: nat, host: string, base: string)
    requires Run(dbs, ops) && i < j < |ops|
    requires CommitsAt(dbs, ops, i, host, base, false) && CommitsAt(dbs, ops, j, host, base, true)
    ensures exists k :: i < k < j && MarkLostAt(dbs, ops, k, host, base)
  {
    hide Enabled, MarkLostAt, CommitError, Committed, CommitAdoption;
    assert StepsAt(dbs, ops, i);
    SignedCommitMarks(dbs[i], ops[i].event.id, ops[i].event.adoption, ops[i].now);
    assert Marked(dbs[i + 1].markers, host, base) by { AppliesCommit(dbs[i], ops[i]); }
    UnsignedCommitUnmarked(dbs[j], ops[j].event.id, ops[j].event.adoption);
    MarkLostBetween(dbs, ops, i + 1, j, host, base);
  }

  lemma AppliesCommit(db: Db, op: Op)
    requires Enabled(db, op) && op.event.Commits?
    ensures Apply(db, op) == Final(db, CommitAdoption(db, op.event.id, op.event.adoption, op.now))
  {
    hide CommitAdoption;
  }

  lemma UnsignedCommitUnmarked(db: Db, id: SnapshotId, a: Adoption)
    requires CommitError(db, id, a).None? && db.snapshots[id].form.Unsigned?
    ensures var k := db.snapshots[id].key;
            !SignedHistory(db, k.host, MarkerBase(k.path)) && !Marked(db.markers, k.host, MarkerBase(k.path))
  {
    hide AllNew, BlobsStored, WarmStored, Keyed, KeyedPackages;
  }

  // ----- how a base loses its history -----

  /** A base: a suite path without the twin's "/.". */
  predicate IsBase(base: string) { MarkerBase(base) == base }

  /** The queued, unmarked snapshot of the base that an unsigned quarantine takes out of service. */
  ghost predicate QuarantinesLast(db: Db, d: Decision, host: string, base: string) {
    && d.Quarantine? && !d.signed && d.id in db.queue && d.id in db.snapshots && LiveSigned(db.snapshots[d.id])
    && db.snapshots[d.id].key.host == host && AtBase(db.snapshots[d.id].key.path, base)
    && !Marked(db.markers, host, base)
  }

  ghost predicate Loses(db: Db, op: Op, host: string, base: string) {
    || Unmarks(db, op, host, base)
    || (op.event.Audits? && exists i ::
      0 <= i < |op.event.decisions| && QuarantinesLast(db, op.event.decisions[i], host, base))
  }

  /** Each live signed snapshot is still there, or its base is marked. */
  ghost predicate Preserves(db: Db, d: Db) {
    && KeepsMarkers(db, d)
    && forall s :: s in db.snapshots && LiveSigned(db.snapshots[s]) ==> Remains(db, d, s)
  }

  ghost predicate Remains(db: Db, d: Db, s: SnapshotId)
    requires s in db.snapshots
  {
    || (s in d.snapshots && d.snapshots[s].key == db.snapshots[s].key && LiveSigned(d.snapshots[s]))
    || MarkerOf(db.snapshots[s].key) in d.markers
  }

  lemma AtOwnBase(path: string, base: string)
    requires AtBase(path, base) && IsBase(base)
    ensures MarkerBase(path) == base
  {
    if path == base + "/." { assert HasSuffix(path, "/."); assert path[..|path| - 2] == base; }
  }

  lemma PreservesHistory(db: Db, d: Db, host: string, base: string)
    requires Preserves(db, d) && IsBase(base) && SignedHistory(db, host, base)
    ensures SignedHistory(d, host, base)
  {
    hide LiveSigned, IsBase, AtBase, MarkerBase;
    if Marked(db.markers, host, base) {
      KeptMarked(db, d, host, base);
    } else {
      var s :| s in db.snapshots && db.snapshots[s].key.host == host && AtBase(db.snapshots[s].key.path, base)
        && LiveSigned(db.snapshots[s]);
      assert Remains(db, d, s);
      AtOwnBase(db.snapshots[s].key.path, base);
    }
  }

  lemma SameSnapshotsPreserve(db: Db, d: Db)
    requires KeepsMarkers(db, d) && d.snapshots == db.snapshots
    ensures Preserves(db, d)
  {
    hide LiveSigned, MarkerOf;
  }

  lemma PreservesTwice(a: Db, b: Db, c: Db)
    requires Preserves(a, b) && Preserves(b, c)
    ensures Preserves(a, c)
  {
    hide LiveSigned, MarkerOf;
    forall s | s in a.snapshots && LiveSigned(a.snapshots[s]) ensures Remains(a, c, s) {
      assert Remains(a, b, s);
      if s in b.snapshots && LiveSigned(b.snapshots[s]) { assert Remains(b, c, s); }
    }
  }

  lemma CandidatePreserves(db: Db, c: Candidate, existing: Option<SnapshotId>, now: Time)
    requires Inv(db) && (existing.Some? ==> existing.value in db.snapshots)
    ensures Preserves(db, Final(db, InsertCandidate(db, c, existing, now)))
  {
    hide MarkerOf, CandidateForm, AnchorsOf, AnchorBlobs, UrlRefs, MemberRefs, AnchorRefs, NaturalOk, CurrentOk,
         SignedOk, FormsOk, ZeroedOk, GenerationsOk;
    assert IdsOk(db.snapshots, db.nextId);
    assert db.nextId !in db.snapshots;
  }

  lemma HeartbeatPreserves(db: Db, id: SnapshotId, now: Time)
    ensures Preserves(db, HeartbeatSnapshot(db, id, now))
  {
    hide MarkerOf;
  }

  lemma CommitPreserves(db: Db, id: SnapshotId, a: Adoption, now: Time)
    ensures Preserves(db, Final(db, CommitAdoption(db, id, a, now)))
  {
    CommitMarkers(db, id, a, now);
    CommitSnapshots(db, id, a, now);
    hide MarkerOf, CommitAdoption;
  }

  predicate AdoptedOrSame(s: Snapshot, t: Snapshot) {
    t == s || (s.adoptedAt.None? && t == s.(adoptedAt := t.adoptedAt))
  }

  lemma CommitSnapshots(db: Db, id: SnapshotId, a: Adoption, now: Time)
    ensures var d := Final(db, CommitAdoption(db, id, a, now));
            forall s :: s in db.snapshots ==> s in d.snapshots && AdoptedOrSame(db.snapshots[s], d.snapshots[s])
  {
    hide Added, WarmRows, SeedAnchors, AdoptionStamp, Bump, ReleasePrior, PinSet, AnchorNames, MarkSeen, SignedHistory,
         AllNew, BlobsStored, WarmStored, Keyed, KeyedPackages;
  }

  lemma DeletePreserves(db: Db, key: SuiteKey, now: Time)
    requires key in db.suites
    ensures Preserves(db, DeleteSuite(db, key, now))
  {
    hide ReleasePrior, MarkerOf, MarkerBase;
    IntegritySteps.DeleteMarkersGrow(db, key, now);
    var d := DeleteSuite(db, key, now);
    forall s | s in db.snapshots && LiveSigned(db.snapshots[s]) ensures Remains(db, d, s) {
      if db.snapshots[s].key == key {
        assert SuiteSigned(db.snapshots, key);
        assert MarkerOf(key) in d.markers;
      }
    }
  }

  lemma ReapPreserves(db: Db, key: SuiteKey, want: Option<SnapshotId>, cutoff: Option<Time>, now: Time)
    ensures Preserves(db, ReapSuite(db, key, want, cutoff, now))
  {
    hide DeleteSuite, MarkerOf, LiveSigned;
    if key in db.suites { DeletePreserves(db, key, now); }
  }

  lemma CreatePreserves(db: Db, seed: Seed, caps: Caps, held: Option<SuiteKey>, rowid: nat, now: Time)
    ensures Preserves(db, CreateSuite(db, seed, caps, held, rowid, now).db)
  {
    hide DeleteSuite, InsertSuite, HostRows, Preserves, KeepsMarkers;
    assert Preserves(db, db) by { SameMarkers(db, db); SameSnapshotsPreserve(db, db); }
    InsertSuitePreserves(db, seed, rowid);
    if held.Some? && held.value in db.suites {
      var d := DeleteSuite(db, held.value, now);
      DeletePreserves(db, held.value, now);
      InsertSuitePreserves(d, seed, rowid);
      PreservesTwice(db, d, InsertSuite(d, seed, rowid));
    }
  }

  lemma InsertSuitePreserves(db: Db, seed: Seed, rowid: nat)
    ensures Preserves(db, InsertSuite(db, seed, rowid))
  {
    InsertSuiteMarkers(db, seed, rowid);
    SameSnapshotsPreserve(db, InsertSuite(db, seed, rowid));
  }

  lemma StorePreserves(db: Db, f: Fetched, caps: Caps, held: Option<SuiteKey>, rowid: nat, now: Time)
    ensures StoreFetched(db, f, caps, held, rowid, now).Ok? ==>
            Preserves(db, StoreFetched(db, f, caps, held, rowid, now).value.db)
    ensures Preserves(db, db)
  {
    hide CreateSuite, Preserves, KeepsMarkers, MarkSeen, MarkerOf;
    assert Preserves(db, db) by { SameMarkers(db, db); SameSnapshotsPreserve(db, db); }
    if PutUrl(db, f.k, f.row).Ok? {
      var put := PutUrl(db, f.k, f.row).value;
      assert Preserves(db, put) by { SameMarkers(db, put); SameSnapshotsPreserve(db, put); }
      var c := if f.create.Some? then CreateSuite(put, f.create.value, caps, held, rowid, now).db else put;
      if f.create.Some? {
        CreatePreserves(put, f.create.value, caps, held, rowid, now);
        PreservesTwice(db, put, c);
      }
      if f.suite.Some? {
        MarkPreserves(c, MarkerOf(f.suite.value), f.markSeenAt);
        PreservesTwice(db, c, c.(markers := MarkSeen(c.markers, MarkerOf(f.suite.value), f.markSeenAt)));
      }
    }
  }

  lemma MarkPreserves(db: Db, m: MarkerKey, at: Time)
    ensures Preserves(db, db.(markers := MarkSeen(db.markers, m, at)))
  {
    SameSnapshotsPreserve(db, db.(markers := MarkSeen(db.markers, m, at)));
  }

  /** Displaced-snapshot collection never erases a base's history: what it collects is marked. */
  lemma CollectPreserves(db: Db, ids: set<SnapshotId>, cutoff: Time, keep: nat)
    requires Inv(db) && ids <= Collectable(db, cutoff, keep)
    ensures Preserves(db, RemoveSnapshots(db, ids))
  {
    hide MarkerOf, DisplacedBefore, UrlRefs, MemberRefs, AnchorRefs, NaturalOk, CurrentOk, FormsOk, ZeroedOk,
         GenerationsOk, IdsOk, IsCurrent;
    var d := RemoveSnapshots(db, ids);
    forall s | s in db.snapshots && LiveSigned(db.snapshots[s]) ensures Remains(db, d, s) {
      if s in ids { assert IsExcess(db, s, keep) && s !in db.queue; }
    }
  }

  lemma DrainPreserves(db: Db, c: Chunk, limit: nat)
    requires IsChunk(db, c, limit)
    ensures Preserves(db, DrainChunk(db, c))
  {
    hide MarkerOf, IsCurrent, Takes;
    var d := DrainChunk(db, c);
    forall s | s in db.snapshots && LiveSigned(db.snapshots[s]) ensures Remains(db, d, s) {
      assert s != c.id;
    }
  }

  /** One audit decision: only an unsigned quarantine of a queued snapshot of an unmarked base loses history. */
  lemma DecidePreserves(db: Db, d: Decision, now: Time, s: SnapshotId)
    requires Inv(db) && s in db.snapshots && LiveSigned(db.snapshots[s])
    ensures Remains(db, Decide(db, d, now), s) || (d.Quarantine? && !d.signed && d.id == s && s in db.queue)
  {
    hide MarkerOf, DropUrls, AnchorRows, UrlRefs, MemberRefs, AnchorRefs, NaturalOk, CurrentOk, FormsOk, ZeroedOk,
         GenerationsOk, IdsOk, ClearCurrent, Release, PinSet, IsCurrent;
    if d.Quarantine? {
      var q := QuarantineSnapshot(db, d.id, now);
      DropUrlsMarkers(q, AnchorRows(q, d.id), now);
      if d.id == s {
        assert db.snapshots[s].key in db.suites && q.suites.Keys == db.suites.Keys by { ClearedKeys(db.suites, d.id); }
      }
    }
  }

  lemma ClearedKeys(suites: Suites, id: SnapshotId)
    ensures ClearCurrent(suites, id).Keys == suites.Keys
  {
  }

  predicate RetiredOrSame(s: Snapshot, t: Snapshot) {
    t == s || (t == s.(retiredAt := t.retiredAt) && t.retiredAt.Some?)
  }

  lemma DecideQueue(db: Db, d: Decision, now: Time)
    ensures Decide(db, d, now).queue <= db.queue
    ensures forall s :: s in Decide(db, d, now).snapshots ==>
            s in db.snapshots && RetiredOrSame(db.snapshots[s], Decide(db, d, now).snapshots[s])
  {
    hide DropUrls, AnchorRows, ClearCurrent, Release, PinSet, IsCurrent, MarkSnapshotBase;
    if d.Quarantine? {
      var q := QuarantineSnapshot(db, d.id, now);
      DropUrlsMarkers(q, AnchorRows(q, d.id), now);
    }
  }

  lemma QuarantinesEarlier(db: Db, d: Decision, now: Time, e: Decision, host: string, base: string)
    requires QuarantinesLast(Decide(db, d, now), e, host, base)
    ensures QuarantinesLast(db, e, host, base)
  {
    hide Decide, AtBase;
    DecideQueue(db, d, now);
    DecideMarkers(db, d, now);
    if Marked(db.markers, host, base) { KeptMarked(db, Decide(db, d, now), host, base); }
  }

  lemma DecideHistory(db: Db, d: Decision, now: Time, host: string, base: string)
    requires Inv(db) && IsBase(base) && SignedHistory(db, host, base) && !SignedHistory(Decide(db, d, now), host, base)
    ensures QuarantinesLast(db, d, host, base)
  {
    hide Inv, Decide, LiveSigned, AtBase, MarkerBase, IsBase;
    var e := Decide(db, d, now);
    DecideMarkers(db, d, now);
    if Marked(db.markers, host, base) { KeptMarked(db, e, host, base); }
    var s :| s in db.snapshots && db.snapshots[s].key.host == host && AtBase(db.snapshots[s].key.path, base)
      && LiveSigned(db.snapshots[s]);
    DecidePreserves(db, d, now, s);
    AtOwnBase(db.snapshots[s].key.path, base);
  }

  lemma {:induction false} DecideAllHistory(db: Db, ds: seq<Decision>, now: Time, host: string, base: string)
    requires Inv(db) && IntegritySteps.DropsMissing(db, ds) && IsBase(base)
    requires SignedHistory(db, host, base) && !SignedHistory(DecideAll(db, ds, now), host, base)
    ensures exists i :: 0 <= i < |ds| && QuarantinesLast(db, ds[i], host, base)
    decreases |ds|
  {
    hide Inv, Decide, SignedHistory, QuarantinesLast, IsBase;
    var e := Decide(db, ds[0], now);
    if SignedHistory(e, host, base) {
      IntegritySteps.DecideKeeps(db, ds[0], now);
      DecideAllHistory(e, ds[1..], now, host, base);
      var i :| 0 <= i < |ds[1..]| && QuarantinesLast(e, ds[1..][i], host, base);
      QuarantinesEarlier(db, ds[0], now, ds[i + 1], host, base);
      assert QuarantinesLast(db, ds[i + 1], host, base);
    } else {
      DecideHistory(db, ds[0], now, host, base);
    }
  }

  /** Every operation but forgets, sweeps and audits keeps every live signed snapshot or its base's marker. */
  lemma StepPreserves(db: Db, op: Op)
    requires Inv(db) && Enabled(db, op)
    ensures op.event.Forgets? || op.event.SweepsMarkers? || op.event.Audits? || Preserves(db, Apply(db, op))
  {
    hide Inv, CommitAdoption, ReapSuite, ForgetSuite, SweepMarkers, MarkAll, DecideAll, CreateSuite, StoreFetched,
         InvalidateLegacy, Reapable, Collectable, IsChunk, IntegritySteps.CandidateFinds, IntegritySteps.DropsMissing,
         PutBlob, HeartbeatBlobs, ReapBlobs, PutUrl, TouchUrl, RefreshUrl, DropUrls, CollectUrls, InsertCandidate,
         HeartbeatSnapshot, RepairSkipped, Reconcile, TouchSuite, RemoveSnapshots, DrainChunk, KeepsMarkers, Preserves;
    var now := op.now;
    match op.event
    case InsertsCandidate(c, existing) =>
      CandidateExists(db, c, existing);
      CandidatePreserves(db, c, existing, now);
    case HeartbeatsSnapshot(id) => HeartbeatPreserves(db, id, now);
    case Commits(id, a) => CommitPreserves(db, id, a, now);
    case Reaps(key, want, cutoff) => ReapPreserves(db, key, want, cutoff, now);
    case Forgets(key, want) =>
    case SweepsMarkers(keys, cutoff) =>
    case Audits(ds) =>
    case Creates(seed, caps, held, rowid) => CreatePreserves(db, seed, caps, held, rowid, now);
    case Stores(f, caps, held, rowid) => StorePreserves(db, f, caps, held, rowid, now);
    case CollectsSnapshots(ids, cutoff, keep) => CollectPreserves(db, ids, cutoff, keep);
    case Drains(c, limit) => DrainPreserves(db, c, limit);
    case _ =>
      MarkersStay(db, op);
      SnapshotsFixed(db, op);
      SameSnapshotsPreserve(db, Apply(db, op));
  }

  lemma ForgetHistory(db: Db, key: SuiteKey, want: Option<SnapshotId>, now: Time, host: string, base: string)
    requires IsBase(base) && SignedHistory(db, host, base)
    ensures SignedHistory(ForgetSuite(db, key, want, now), host, base)
            || Unmarks(db, Op(now, Forgets(key, want)), host, base)
  {
    hide DropKeys, BaseAnchors, DeleteSuite, BaseRows, HasLiveSigned, IsBase, Preserves;
    if DeleteCheck(db, key, want, None).Deleted? {
      var d := DeleteSuite(db, key, now);
      DeletePreserves(db, key, now);
      PreservesHistory(db, d, host, base);
      IntegritySteps.DeleteSuiteRows(db, key, now);
      var e := ForgetSuite(db, key, want, now);
      assert e.snapshots == d.snapshots;
      if Marked(d.markers, host, base) {
        var m :| m in d.markers && m.host == host && m.base == base;
        if BaseRows(d.suites, key.host, MarkerBase(key.path)) != {}
          || !(key.host == host && MarkerBase(key.path) == base) {
          assert m in e.markers;
        }
      }
    }
  }

  lemma SweepHistory(db: Db, keys: set<MarkerKey>, cutoff: Time, now: Time, host: string, base: string)
    requires SignedHistory(db, host, base)
    ensures SignedHistory(SweepMarkers(db, keys, cutoff), host, base)
            || Unmarks(db, Op(now, SweepsMarkers(keys, cutoff)), host, base)
  {
    hide HasLiveSigned, BaseRows, IsOrphan;
    if Marked(db.markers, host, base) { SweptMarkers(db, keys, cutoff, now, host, base); }
  }

  /** A base's signed history is lost only to a forget or a sweep with no suite row of the base left, or to an
      unsigned quarantine of a queued snapshot of an unmarked base. Collecting displaced snapshots, deleting and
      evicting suite rows, and every other operation keep it. */
  lemma HistoryStep(db: Db, op: Op, host: string, base: string)
    requires Inv(db) && Enabled(db, op) && IsBase(base) && SignedHistory(db, host, base)
    ensures SignedHistory(Apply(db, op), host, base) || Loses(db, op, host, base)
  {
    hide Inv, Enabled, CommitAdoption, ReapSuite, ForgetSuite, SweepMarkers, MarkAll, DecideAll, CreateSuite,
         StoreFetched, InvalidateLegacy, PutBlob, HeartbeatBlobs, ReapBlobs, PutUrl, TouchUrl, RefreshUrl, DropUrls,
         CollectUrls, InsertCandidate, HeartbeatSnapshot, RepairSkipped, Reconcile, TouchSuite, RemoveSnapshots,
         DrainChunk, Preserves, SignedHistory, Unmarks, QuarantinesLast, IsBase;
    match op.event
    case Forgets(key, want) => ForgetHistory(db, key, want, op.now, host, base);
    case SweepsMarkers(keys, cutoff) => SweepHistory(db, keys, cutoff, op.now, host, base);
    case Audits(ds) =>
      if !SignedHistory(DecideAll(db, ds, op.now), host, base) {
        AuditEnabled(db, op);
        DecideAllHistory(db, ds, op.now, host, base);
      }
    case _ =>
      StepPreserves(db, op);
      PreservesHistory(db, Apply(db, op), host, base);
  }

  /** Step k takes the base's signed history away, in one of the ways it may go. */
  ghost predicate HistoryLostAt(dbs: seq<Db>, ops: seq<Op>, k: nat, host: string, base: string)
    requires |dbs| == |ops| + 1 && k < |ops|
  {
    && SignedHistory(dbs[k], host, base) && !SignedHistory(dbs[k + 1], host, base)
    && Loses(dbs[k], ops[k], host, base)
  }

  /** In every run, a base whose signed history is gone lost it at one step, in one of the listed ways. */
  lemma {:induction false} HistoryLostBetween(dbs: seq<Db>, ops: seq<Op>, i: nat, j: nat, host: string, base: string)
    requires Run(dbs, ops) && Inv(dbs[0]) && i <= j <= |ops| && IsBase(base)
    requires SignedHistory(dbs[i], host, base) && !SignedHistory(dbs[j], host, base)
    ensures exists k :: i <= k < j && HistoryLostAt(dbs, ops, k, host, base)
    decreases j - i
  {
    hide Apply, Enabled, Inv, Loses, SignedHistory, IsBase;
    assert StepsAt(dbs, ops, i);
    RunKeeps(dbs, ops, i);
    HistoryStep(dbs[i], ops[i], host, base);
    if SignedHistory(dbs[i + 1], host, base) {
      HistoryLostBetween(dbs, ops, i + 1, j, host, base);
    } else {
      assert HistoryLostAt(dbs, ops, i, host, base);
    }
  }

  lemma AuditEnabled(db: Db, op: Op)
    requires Enabled(db, op) && op.event.Audits?
    ensures IntegritySteps.DropsMissing(db, op.event.decisions)
  {
  }
}
