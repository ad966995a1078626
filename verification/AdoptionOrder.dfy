/** The order of adoptions: a snapshot adopted in a run is the strictly newest of its suite while it is current. */
module AdoptionOrder {
  import opened Text
  import opened Tables
  import opened Transactions
  import opened Integrity
  import opened Runs
  import opened Footprints
  import IntegritySteps
  import SuitePaths

  /** The suite's pointer is what it was. */
  predicate SamePointer(db: Db, d: Db, key: SuiteKey) {
    key in db.suites && key in d.suites && db.suites[key].current == d.suites[key].current
  }

  ghost predicate Newest(db: Db, key: SuiteKey) { NewestAt(db.suites, db.snapshots, key) }

  /** A suite in order stays in order, and a new current snapshot is the newest of its suite. */
  ghost predicate Orders(db: Db, d: Db) {
    && (forall k :: Newest(db, k) ==> Newest(d, k))
    && (forall k :: HasCurrent(d, k) && !SamePointer(db, d, k) ==> Newest(d, k))
  }

  // ----- everything but a commit -----

  /** Every pointer and every adoption was there before. */
  ghost predicate FromBefore(db: Db, d: Db) {
    && (forall k :: HasCurrent(d, k) ==> SamePointer(db, d, k))
    && (forall s :: s in d.snapshots && d.snapshots[s].adoptedAt.Some? ==> SameAdoption(db.snapshots, d.snapshots, s))
  }

  predicate SameAdoption(before: Snapshots, after: Snapshots, s: SnapshotId) {
    && s in before && s in after && before[s].key == after[s].key && before[s].adoptedAt == after[s].adoptedAt
  }

  lemma FromBeforeOrders(db: Db, d: Db)
    requires FromBefore(db, d) && CurrentOk(d.suites, d.snapshots)
    ensures Orders(db, d)
  {
    forall k | Newest(db, k) && HasCurrent(d, k) ensures Newest(d, k) {
      var c := d.suites[k].current.value;
      assert SamePointer(db, d, k) && SameAdoption(db.snapshots, d.snapshots, c);
      forall s | Rivals(d.snapshots, k, s, c) ensures AdoptedBefore(d.snapshots, s, c) {
        assert SameAdoption(db.snapshots, d.snapshots, s);
        assert Rivals(db.snapshots, k, s, c);
      }
    }
  }

  lemma FromSame(db: Db, d: Db)
    requires d.suites == db.suites && d.snapshots == db.snapshots
    ensures FromBefore(db, d)
  {
  }

  lemma FromTwice(a: Db, b: Db, c: Db)
    requires FromBefore(a, b) && FromBefore(b, c)
    ensures FromBefore(a, c)
  {
    forall s | s in c.snapshots && c.snapshots[s].adoptedAt.Some? ensures SameAdoption(a.snapshots, c.snapshots, s) {
      assert SameAdoption(b.snapshots, c.snapshots, s);
      assert SameAdoption(a.snapshots, b.snapshots, s);
    }
    forall k | HasCurrent(c, k) ensures SamePointer(a, c, k) { assert SamePointer(b, c, k) && HasCurrent(b, k); }
  }

  lemma CandidateFrom(db: Db, c: Candidate, existing: Option<SnapshotId>, now: Time)
    requires existing.Some? ==> existing.value in db.snapshots
    ensures FromBefore(db, Final(db, InsertCandidate(db, c, existing, now)))
  {
    hide CandidateForm, AnchorsOf, AnchorBlobs;
  }

  lemma HeartbeatFrom(db: Db, id: SnapshotId, now: Time)
    ensures FromBefore(db, HeartbeatSnapshot(db, id, now))
  {
  }

  lemma TouchFrom(db: Db, key: SuiteKey, now: Time)
    ensures FromBefore(db, TouchSuite(db, key, now))
  {
  }

  lemma RemoveFrom(db: Db, ids: set<SnapshotId>)
    ensures FromBefore(db, RemoveSnapshots(db, ids))
  {
  }

  lemma DrainFrom(db: Db, c: Chunk)
    ensures FromBefore(db, DrainChunk(db, c))
  {
  }

  lemma DeleteFrom(db: Db, key: SuiteKey, now: Time)
    requires key in db.suites
    ensures FromBefore(db, DeleteSuite(db, key, now))
  {
    hide ReleasePrior, StampBase, SuiteSigned, MarkSeen;
  }

  lemma ReapFrom(db: Db, key: SuiteKey, want: Option<SnapshotId>, cutoff: Option<Time>, now: Time)
    ensures FromBefore(db, ReapSuite(db, key, want, cutoff, now))
  {
    hide DeleteSuite, FromBefore;
    FromSame(db, db);
    if key in db.suites { DeleteFrom(db, key, now); }
  }

  lemma ForgetFrom(db: Db, key: SuiteKey, want: Option<SnapshotId>, now: Time)
    ensures FromBefore(db, ForgetSuite(db, key, want, now))
  {
    hide DeleteSuite, DropKeys, BaseAnchors, BaseRows, Unmark, FromBefore;
    FromSame(db, db);
    if DeleteCheck(db, key, want, None).Deleted? {
      var (d, e) := (DeleteSuite(db, key, now), ForgetSuite(db, key, want, now));
      DeleteFrom(db, key, now);
      FromSame(d, e);
      FromTwice(db, d, e);
    }
  }

  lemma DecideFrom(db: Db, d: Decision, now: Time)
    ensures FromBefore(db, Decide(db, d, now))
  {
    hide DropUrls, Release, PinSet, IsCurrent, MarkSnapshotBase;
    if d.Quarantine? {
      DropFrame(QuarantineSnapshot(db, d.id, now), AnchorRows(QuarantineSnapshot(db, d.id, now), d.id), now);
    }
  }

  lemma {:induction false} DecideAllFrom(db: Db, ds: seq<Decision>, now: Time)
    ensures FromBefore(db, DecideAll(db, ds, now))
    decreases |ds|
  {
    hide Decide, FromBefore;
    if ds == [] {
      FromSame(db, db);
    } else {
      var e := Decide(db, ds[0], now);
      DecideFrom(db, ds[0], now);
      DecideAllFrom(e, ds[1..], now);
      FromTwice(db, e, DecideAll(e, ds[1..], now));
    }
  }

  lemma InsertFrom(db: Db, seed: Seed, rowid: nat)
    ensures FromBefore(db, InsertSuite(db, seed, rowid))
  {
    hide SeenAt, MarkSeen;
  }

  lemma CreateFrom(db: Db, seed: Seed, caps: Caps, held: Option<SuiteKey>, rowid: nat, now: Time)
    ensures FromBefore(db, CreateSuite(db, seed, caps, held, rowid, now).db)
  {
    hide DeleteSuite, HostRows, InsertSuite, FromBefore;
    FromSame(db, db);
    InsertFrom(db, seed, rowid);
    if held.Some? && held.value in db.suites {
      var d := DeleteSuite(db, held.value, now);
      DeleteFrom(db, held.value, now);
      InsertFrom(d, seed, rowid);
      FromTwice(db, d, InsertSuite(d, seed, rowid));
    }
  }

  lemma StoreFrom(db: Db, f: Fetched, caps: Caps, held: Option<SuiteKey>, rowid: nat, now: Time)
    ensures var r := StoreFetched(db, f, caps, held, rowid, now); r.Ok? ==> FromBefore(db, r.value.db)
  {
    hide CreateSuite, MarkSeen, FromBefore;
    var r := StoreFetched(db, f, caps, held, rowid, now);
    if r.Ok? {
      var put := PutUrl(db, f.k, f.row).value;
      FromSame(db, put);
      var c := if f.create.Some? then CreateSuite(put, f.create.value, caps, held, rowid, now).db else put;
      if f.create.Some? {
        CreateFrom(put, f.create.value, caps, held, rowid, now);
        FromTwice(db, put, c);
      }
      FromSame(c, r.value.db);
      FromTwice(db, c, r.value.db);
    }
  }

  lemma InvalidateFrom(db: Db, key: SuiteKey, anchor: string, was: Hash, now: Time)
    ensures FromBefore(db, Final(db, InvalidateLegacy(db, key, anchor, was, now)))
  {
    hide DropUrls, LegacyRows, SuitePaths.IsCanonical;
    DropFrame(db, LegacyRows(db.urls, key), now);
  }

  /** Only a commit moves a pointer to another snapshot or adopts one. */
  lemma StepFrom(db: Db, op: Op)
    requires Enabled(db, op)
    ensures op.event.Commits? || FromBefore(db, Apply(db, op))
  {
    hide Inv, CommitAdoption, ReapSuite, ForgetSuite, SweepMarkers, MarkAll, DecideAll, CreateSuite, StoreFetched,
         InvalidateLegacy, Reapable, Collectable, IsChunk, IntegritySteps.CandidateFinds, IntegritySteps.DropsMissing,
         PutBlob, HeartbeatBlobs, ReapBlobs, PutUrl, TouchUrl, RefreshUrl, DropUrls, CollectUrls, InsertCandidate,
         HeartbeatSnapshot, RepairSkipped, Reconcile, TouchSuite, RemoveSnapshots, DrainChunk, FromBefore;
    var now := op.now;
    match op.event
    case InsertsCandidate(c, existing) =>
      CandidateExists(db, c, existing);
      CandidateFrom(db, c, existing, now);
    case HeartbeatsSnapshot(id) => HeartbeatFrom(db, id, now);
    case Commits(_, _) =>
    case Reaps(key, want, cutoff) => ReapFrom(db, key, want, cutoff, now);
    case Forgets(key, want) => ForgetFrom(db, key, want, now);
    case Audits(ds) => DecideAllFrom(db, ds, now);
    case Creates(seed, caps, held, rowid) => CreateFrom(db, seed, caps, held, rowid, now);
    case Stores(f, caps, held, rowid) =>
      StoreFrom(db, f, caps, held, rowid, now);
      FromSame(db, db);
    case Invalidates(key, anchor, was) => InvalidateFrom(db, key, anchor, was, now);
    case TouchesSuite(key) => TouchFrom(db, key, now);
    case CollectsSnapshots(ids, _, _) => RemoveFrom(db, ids);
    case Drains(c, _) => DrainFrom(db, c);
    case _ =>
      SnapshotsFixed(db, op);
      SuitesFixed(db, op);
      FromSame(db, Apply(db, op));
  }

  // ----- a commit -----

  /** Stamping past every earlier adoption makes the new current snapshot the strictly newest, whatever the order
      was. */
  lemma FlipNewest(suites: Suites, snapshots: Snapshots, id: SnapshotId, stamp: Time)
    requires id in snapshots && snapshots[id].adoptedAt.None? && snapshots[id].key in suites
    requires forall t :: t in AdoptedTimes(snapshots, snapshots[id].key) ==> t < stamp
    ensures var s := snapshots[id];
            NewestAt(suites[s.key := suites[s.key].(current := Some(id))],
                     snapshots[id := s.(adoptedAt := Some(stamp))], s.key)
  {
    var s := snapshots[id];
    var sn := snapshots[id := s.(adoptedAt := Some(stamp))];
    forall t | Rivals(sn, s.key, t, id) ensures AdoptedBefore(sn, t, id) {
      assert snapshots[t].adoptedAt.value in AdoptedTimes(snapshots, s.key);
    }
  }

  /** Another suite's adoption changes nothing for this one. */
  lemma FlipOther(suites: Suites, snapshots: Snapshots, id: SnapshotId, stamp: Time, k: SuiteKey)
    requires id in snapshots && snapshots[id].adoptedAt.None? && snapshots[id].key in suites && k != snapshots[id].key
    requires CurrentOk(suites, snapshots) && NewestAt(suites, snapshots, k)
    ensures var s := snapshots[id];
            NewestAt(suites[s.key := suites[s.key].(current := Some(id))],
                     snapshots[id := s.(adoptedAt := Some(stamp))], k)
  {
    var s := snapshots[id];
    var sn := snapshots[id := s.(adoptedAt := Some(stamp))];
    if k in suites && suites[k].current.Some? {
      var c := suites[k].current.value;
      forall t | Rivals(sn, k, t, c) ensures AdoptedBefore(sn, t, c) { assert Rivals(snapshots, k, t, c); }
    }
  }

  lemma CommitTables(db: Db, id: SnapshotId, a: Adoption, now: Time)
    requires CommitError(db, id, a).None?
    ensures id in db.snapshots
    ensures var d := Committed(db, id, a, now);
            var s := db.snapshots[id];
            && s.adoptedAt.None? && s.key in db.suites
            && d.suites == db.suites[s.key := db.suites[s.key].(current := Some(id))]
            && d.snapshots == db.snapshots[id := s.(adoptedAt := Some(AdoptionStamp(db, s.key, now)))]
  {
    hide Added, WarmRows, SeedAnchors, AdoptionStamp, Bump, ReleasePrior, PinSet, AnchorNames, MarkSeen, SignedHistory,
         AllNew, BlobsStored, WarmStored, Keyed, KeyedPackages;
  }

  lemma CommitOrders(db: Db, id: SnapshotId, a: Adoption, now: Time)
    requires CurrentOk(db.suites, db.snapshots)
    ensures Orders(db, Final(db, CommitAdoption(db, id, a, now)))
  {
    hide Committed, CommitError, NewestAt, CurrentOk;
    if CommitError(db, id, a).None? {
      CommitTables(db, id, a, now);
      var (d, s) := (Committed(db, id, a, now), db.snapshots[id]);
      var stamp := AdoptionStamp(db, s.key, now);
      FlipNewest(db.suites, db.snapshots, id, stamp);
      forall k | Newest(db, k) ensures Newest(d, k) {
        if k != s.key { FlipOther(db.suites, db.snapshots, id, stamp, k); }
      }
    }
  }

  // ----- runs -----

  lemma PointersOk(db: Db)
    requires Inv(db)
    ensures CurrentOk(db.suites, db.snapshots)
  {
  }

  lemma StepOrders(db: Db, op: Op)
    requires Inv(db) && Enabled(db, op)
    ensures Orders(db, Apply(db, op))
  {
    hide Inv, FromBefore, Orders, Apply, Enabled, CurrentOk, CommitAdoption;
    PointersOk(db);
    StepKeeps(db, op);
    PointersOk(Apply(db, op));
    StepFrom(db, op);
    if op.event.Commits? {
      AppliesCommit(db, op);
      CommitOrders(db, op.event.id, op.event.adoption, op.now);
    } else {
      FromBeforeOrders(db, Apply(db, op));
    }
  }

  lemma AppliesCommit(db: Db, op: Op)
    requires Enabled(db, op) && op.event.Commits?
    ensures Apply(db, op) == Final(db, CommitAdoption(db, op.event.id, op.event.adoption, op.now))
  {
    hide CommitAdoption;
  }

  /** Step m gives the suite a current snapshot it did not have. */
  ghost predicate PointsAt(dbs: seq<Db>, m: nat, key: SuiteKey)
    requires m + 1 < |dbs|
  {
    HasCurrent(dbs[m + 1], key) && !SamePointer(dbs[m], dbs[m + 1], key)
  }

  /** The suite is in order where the run starts, or has been given a current snapshot since. */
  ghost predicate InOrder(dbs: seq<Db>, i: nat, key: SuiteKey)
    requires i < |dbs|
  {
    Newest(dbs[0], key) || exists m: nat :: m < i && PointsAt(dbs, m, key)
  }

  lemma {:induction false} RunOrders(dbs: seq<Db>, ops: seq<Op>, i: nat, key: SuiteKey)
    requires Run(dbs, ops) && Inv(dbs[0]) && i <= |ops| && InOrder(dbs, i, key)
    ensures Newest(dbs[i], key)
  {
    hide Inv, Apply, Enabled, Newest;
    if i > 0 {
      RunKeeps(dbs, ops, i - 1);
      assert StepsAt(dbs, ops, i - 1);
      StepOrders(dbs[i - 1], ops[i - 1]);
      if !PointsAt(dbs, i - 1, key) {
        RunOrders(dbs, ops, i - 1, key);
      }
    }
  }

  /** In every state of a run, under any clock: a current snapshot is an adopted, live snapshot of its row's suite; and
      it was adopted strictly after every other one of the suite, once the suite is in order. */
  lemma CurrentIsNewest(dbs: seq<Db>, ops: seq<Op>, i: nat, key: SuiteKey, s: SnapshotId)
    requires Run(dbs, ops) && Inv(dbs[0]) && i <= |ops| && HasCurrent(dbs[i], key)
    ensures var (db, c) := (dbs[i], dbs[i].suites[key].current.value);
            && c in db.snapshots && db.snapshots[c].key == key && db.snapshots[c].adoptedAt.Some?
            && db.snapshots[c].retiredAt.None?
            && (InOrder(dbs, i, key) && Rivals(db.snapshots, key, s, c) ==> AdoptedBefore(db.snapshots, s, c))
  {
    hide Apply, Enabled, InOrder;
    RunKeeps(dbs, ops, i);
    PointersOk(dbs[i]);
    if InOrder(dbs, i, key) { RunOrders(dbs, ops, i, key); }
  }
}
