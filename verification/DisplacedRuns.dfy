/** Displaced lookups over runs: who can meet the shifted case, and a run that does. */
module DisplacedRuns {
  import opened Text
  import opened Tables
  import opened Transactions
  import opened Integrity
  import opened Runs
  import opened Footprints
  import opened Displaced
  import AdoptionOrder
  import IntegritySteps
  import SuitePaths
  import opened Sorting

  // ----- a snapshot read as current -----

  /** No snapshot comes back: an id that is still there has its suite, and stays retired once it is. */
  ghost predicate SnapshotsAge(db: Db, d: Db) {
    && db.nextId <= d.nextId
    && forall s :: s in d.snapshots && s < db.nextId ==> Ages(db.snapshots, d.snapshots, s)
  }

  predicate Ages(before: Snapshots, after: Snapshots, s: SnapshotId) {
    && s in before && s in after && before[s].key == after[s].key
    && (before[s].retiredAt.Some? ==> after[s].retiredAt.Some?)
  }

  /** The suite's snapshots up to `next` are retired. */
  ghost predicate AllRetired(d: Db, key: SuiteKey, next: SnapshotId) {
    forall s :: s in d.snapshots && s < next && d.snapshots[s].key == key ==> d.snapshots[s].retiredAt.Some?
  }

  /** A suite with a current snapshot keeps having one, or all it had are retired. */
  ghost predicate PointersPass(db: Db, d: Db) {
    forall k :: HasCurrent(db, k) ==> HasCurrent(d, k) || AllRetired(d, k, db.nextId)
  }

  ghost predicate Passes(db: Db, d: Db) { SnapshotsAge(db, d) && PointersPass(db, d) }

  lemma SamePasses(db: Db, d: Db)
    requires d.snapshots == db.snapshots && d.nextId == db.nextId && d.suites == db.suites
    ensures Passes(db, d)
  {
  }

  lemma PassesTwice(a: Db, b: Db, c: Db)
    requires Passes(a, b) && Passes(b, c)
    ensures Passes(a, c)
  {
    forall s | s in c.snapshots && s < a.nextId ensures Ages(a.snapshots, c.snapshots, s) {
      assert Ages(b.snapshots, c.snapshots, s) && Ages(a.snapshots, b.snapshots, s);
    }
    forall k | HasCurrent(a, k) ensures HasCurrent(c, k) || AllRetired(c, k, a.nextId) {
      if !HasCurrent(b, k) {
        forall s | s in c.snapshots && s < a.nextId && c.snapshots[s].key == k ensures c.snapshots[s].retiredAt.Some? {
          assert Ages(b.snapshots, c.snapshots, s) && Ages(a.snapshots, b.snapshots, s);
        }
      }
    }
  }

  lemma CandidatePasses(db: Db, c: Candidate, existing: Option<SnapshotId>, now: Time)
    requires existing.Some? ==> existing.value in db.snapshots
    ensures Passes(db, Final(db, InsertCandidate(db, c, existing, now)))
  {
    hide CandidateForm, AnchorsOf, AnchorBlobs;
  }

  lemma HeartbeatPasses(db: Db, id: SnapshotId, now: Time)
    ensures Passes(db, HeartbeatSnapshot(db, id, now))
  {
  }

  lemma TouchPasses(db: Db, key: SuiteKey, now: Time)
    ensures Passes(db, TouchSuite(db, key, now))
  {
  }

  lemma RemovePasses(db: Db, ids: set<SnapshotId>)
    ensures Passes(db, RemoveSnapshots(db, ids))
  {
    RemoveFrame(db, ids, Chunk(0, {}, {}, {}, false));
  }

  lemma DrainPasses(db: Db, c: Chunk)
    ensures Passes(db, DrainChunk(db, c))
  {
  }

  lemma CommitPasses(db: Db, id: SnapshotId, a: Adoption, now: Time)
    ensures Passes(db, Final(db, CommitAdoption(db, id, a, now)))
  {
    hide Added, WarmRows, SeedAnchors, AdoptionStamp, Bump, ReleasePrior, PinSet, AnchorNames, MarkSeen, SignedHistory,
         AllNew, BlobsStored, WarmStored, Keyed, KeyedPackages;
  }

  lemma DeletePasses(db: Db, key: SuiteKey, now: Time)
    requires key in db.suites
    ensures Passes(db, DeleteSuite(db, key, now))
  {
    hide ReleasePrior, StampBase, SuiteSigned, MarkSeen;
  }

  lemma ReapPasses(db: Db, key: SuiteKey, want: Option<SnapshotId>, cutoff: Option<Time>, now: Time)
    ensures Passes(db, ReapSuite(db, key, want, cutoff, now))
  {
    hide DeleteSuite, Passes;
    SamePasses(db, db);
    if key in db.suites { DeletePasses(db, key, now); }
  }

  lemma ForgetPasses(db: Db, key: SuiteKey, want: Option<SnapshotId>, now: Time)
    ensures Passes(db, ForgetSuite(db, key, want, now))
  {
    hide DeleteSuite, DropKeys, BaseAnchors, BaseRows, Unmark, Passes;
    SamePasses(db, db);
    if key in db.suites {
      var (d, e) := (DeleteSuite(db, key, now), ForgetSuite(db, key, want, now));
      DeletePasses(db, key, now);
      if DeleteCheck(db, key, want, None).Deleted? {
        SamePasses(d, e);
        PassesTwice(db, d, e);
      }
    }
  }

  lemma InsertPasses(db: Db, seed: Seed, rowid: nat)
    requires seed.key !in db.suites
    ensures Passes(db, InsertSuite(db, seed, rowid))
  {
    hide SeenAt, MarkSeen;
  }

  lemma CreatePasses(db: Db, seed: Seed, caps: Caps, held: Option<SuiteKey>, rowid: nat, now: Time)
    ensures Passes(db, CreateSuite(db, seed, caps, held, rowid, now).db)
  {
    hide DeleteSuite, HostRows, InsertSuite, Passes;
    SamePasses(db, db);
    if seed.key !in db.suites {
      InsertPasses(db, seed, rowid);
      if held.Some? && held.value in db.suites {
        var d := DeleteSuite(db, held.value, now);
        DeletePasses(db, held.value, now);
        DeleteFrame(db, held.value, now);
        InsertPasses(d, seed, rowid);
        PassesTwice(db, d, InsertSuite(d, seed, rowid));
      }
    }
  }

  lemma StorePasses(db: Db, f: Fetched, caps: Caps, held: Option<SuiteKey>, rowid: nat, now: Time)
    ensures var r := StoreFetched(db, f, caps, held, rowid, now); r.Ok? ==> Passes(db, r.value.db)
  {
    hide CreateSuite, MarkSeen, Passes;
    var r := StoreFetched(db, f, caps, held, rowid, now);
    if r.Ok? {
      var put := PutUrl(db, f.k, f.row).value;
      SamePasses(db, put);
      var c := if f.create.Some? then CreateSuite(put, f.create.value, caps, held, rowid, now).db else put;
      if f.create.Some? {
        CreatePasses(put, f.create.value, caps, held, rowid, now);
        PassesTwice(db, put, c);
      }
      SamePasses(c, r.value.db);
      PassesTwice(db, c, r.value.db);
    }
  }

  lemma InvalidatePasses(db: Db, key: SuiteKey, anchor: string, was: Hash, now: Time)
    ensures Passes(db, Final(db, InvalidateLegacy(db, key, anchor, was, now)))
  {
    hide DropUrls, LegacyRows, SuitePaths.IsCanonical;
    DropFrame(db, LegacyRows(db.urls, key), now);
  }

  /** Only the audit takes a suite's current snapshot from it and leaves the suite's others live. */
  lemma StepPasses(db: Db, op: Op)
    requires Enabled(db, op)
    ensures op.event.Audits? || Passes(db, Apply(db, op))
  {
    hide Inv, CommitAdoption, ReapSuite, ForgetSuite, SweepMarkers, MarkAll, DecideAll, CreateSuite, StoreFetched,
         InvalidateLegacy, Reapable, Collectable, IsChunk, IntegritySteps.CandidateFinds, IntegritySteps.DropsMissing,
         PutBlob, HeartbeatBlobs, ReapBlobs, PutUrl, TouchUrl, RefreshUrl, DropUrls, CollectUrls, InsertCandidate,
         HeartbeatSnapshot, RepairSkipped, Reconcile, TouchSuite, RemoveSnapshots, DrainChunk, Passes;
    var now := op.now;
    match op.event
    case InsertsCandidate(c, existing) =>
      CandidateExists(db, c, existing);
      CandidatePasses(db, c, existing, now);
    case HeartbeatsSnapshot(id) => HeartbeatPasses(db, id, now);
    case Commits(id, a) => CommitPasses(db, id, a, now);
    case Reaps(key, want, cutoff) => ReapPasses(db, key, want, cutoff, now);
    case Audits(_) =>
    case Forgets(key, want) => ForgetPasses(db, key, want, now);
    case Creates(seed, caps, held, rowid) => CreatePasses(db, seed, caps, held, rowid, now);
    case Stores(f, caps, held, rowid) =>
      StorePasses(db, f, caps, held, rowid, now);
      SamePasses(db, db);
    case Invalidates(key, anchor, was) => InvalidatePasses(db, key, anchor, was, now);
    case TouchesSuite(key) => TouchPasses(db, key, now);
    case CollectsSnapshots(ids, _, _) => RemovePasses(db, ids);
    case Drains(c, _) => DrainPasses(db, c);
    case _ =>
      SnapshotsFixed(db, op);
      SuitesFixed(db, op);
      SamePasses(db, Apply(db, op));
  }

  /** c was the suite's current snapshot once: while it is live, it is still, or a newer one is. */
  ghost predicate Follows(db: Db, key: SuiteKey, c: SnapshotId) {
    && c < db.nextId
    && (c in db.snapshots ==>
          db.snapshots[c].key == key && (db.snapshots[c].retiredAt.None? ==> Succeeded(db, key, c)))
  }

  ghost predicate Succeeded(db: Db, key: SuiteKey, c: SnapshotId) {
    HasCurrent(db, key) && (db.suites[key].current == Some(c) || NewestAt(db.suites, db.snapshots, key))
  }

  lemma FollowsStep(db: Db, d: Db, key: SuiteKey, c: SnapshotId)
    requires Follows(db, key, c) && Passes(db, d) && AdoptionOrder.Orders(db, d)
    ensures Follows(d, key, c)
  {
    if c in d.snapshots {
      assert Ages(db.snapshots, d.snapshots, c);
      if d.snapshots[c].retiredAt.None? { SucceededStep(db, d, key, c); }
    }
  }

  lemma SucceededStep(db: Db, d: Db, key: SuiteKey, c: SnapshotId)
    requires Succeeded(db, key, c) && Passes(db, d) && AdoptionOrder.Orders(db, d)
    requires c in d.snapshots && c < db.nextId && d.snapshots[c].key == key && d.snapshots[c].retiredAt.None?
    ensures Succeeded(d, key, c)
  {
    hide NewestAt;
    assert HasCurrent(d, key);
    if AdoptionOrder.SamePointer(db, d, key) {
      if db.suites[key].current != Some(c) { assert AdoptionOrder.Newest(db, key) && AdoptionOrder.Newest(d, key); }
    } else {
      assert AdoptionOrder.Newest(d, key);
    }
  }

  ghost predicate CurrentAt(dbs: seq<Db>, i: nat, key: SuiteKey, c: SnapshotId)
    requires i < |dbs|
  {
    key in dbs[i].suites && dbs[i].suites[key].current == Some(c)
  }

  lemma CurrentFollows(db: Db, key: SuiteKey, c: SnapshotId)
    requires Inv(db) && key in db.suites && db.suites[key].current == Some(c)
    ensures Follows(db, key, c)
  {
  }

  lemma {:induction false} RunFollows(dbs: seq<Db>, ops: seq<Op>, i: nat, j: nat, key: SuiteKey, c: SnapshotId)
    requires Run(dbs, ops) && Inv(dbs[0]) && i <= j <= |ops| && CurrentAt(dbs, i, key, c)
    requires forall m :: i <= m < j ==> !ops[m].event.Audits?
    ensures Follows(dbs[j], key, c)
    decreases j
  {
    hide Inv, Apply, Enabled, Follows, Passes, AdoptionOrder.Orders;
    if i == j {
      RunKeeps(dbs, ops, i);
      CurrentFollows(dbs[i], key, c);
    } else {
      RunFollows(dbs, ops, i, j - 1, key, c);
      assert StepsAt(dbs, ops, j - 1);
      StepPasses(dbs[j - 1], ops[j - 1]);
      RunKeeps(dbs, ops, j - 1);
      AdoptionOrder.StepOrders(dbs[j - 1], ops[j - 1]);
      FollowsStep(dbs[j - 1], dbs[j], key, c);
    }
  }

  lemma FollowingStands(db: Db, key: SuiteKey, c: SnapshotId)
    requires Inv(db) && Follows(db, key, c)
    ensures Stands(db, key, c)
  {
    hide Inv, NewestAt;
  }

  /** In any run, a caller that read the suite's current snapshot after the last audit is never shifted: no collection
      batch changes its lookup of at most as many displaced snapshots as collection keeps. */
  lemma ServedLookupsKept(dbs: seq<Db>, ops: seq<Op>, i: nat, j: nat, key: SuiteKey, c: SnapshotId, path: string,
                          limit: nat)
    requires Run(dbs, ops) && Inv(dbs[0]) && i <= j < |ops| && CurrentAt(dbs, i, key, c)
    requires forall m :: i <= m < j ==> !ops[m].event.Audits?
    requires ops[j].event.CollectsSnapshots? && limit <= ops[j].event.keepDisplaced
    ensures DisplacedMembers(dbs[j + 1], key, path, c, limit) == DisplacedMembers(dbs[j], key, path, c, limit)
  {
    hide Inv, Follows, Stands, DisplacedMembers, Shifted, RemoveSnapshots, Collectable;
    RunFollows(dbs, ops, i, j, key, c);
    RunKeeps(dbs, ops, j);
    FollowingStands(dbs[j], key, c);
    var (keep, e) := (ops[j].event.keepDisplaced, ops[j].event);
    StandsIsUnshifted(dbs[j], key, c, keep);
    assert StepsAt(dbs, ops, j);
    Collects(dbs[j], ops[j]);
    CollectionKeepsLookups(dbs[j], e.ids, e.staleCutoff, keep, key, path, c, limit);
  }

  lemma Collects(db: Db, op: Op)
    requires Enabled(db, op) && op.event.CollectsSnapshots?
    ensures Apply(db, op) == RemoveSnapshots(db, op.event.ids)
    ensures op.event.ids <= Collectable(db, op.event.staleCutoff, op.event.keepDisplaced)
  {
    hide RemoveSnapshots, Collectable;
  }

  // ----- a run that meets it -----

  const KEY := SuiteKey(Http, "h", "dists/s")

  function Adopted(file: Hash, at: Time): Snapshot { Snapshot(KEY, Unsigned, Single(file), 0, 0, Some(at), None) }

  /** A migrated suite with three adopted snapshots, all queued for the audit; the first has a member at "x". */
  function Migrated(): Db {
    Db(map[1 := Blob(0, Some(0)), 2 := Blob(0, Some(0)), 3 := Blob(0, Some(0))], map[],
       map[KEY := SuiteRow(1, 0, Some(3), None)],
       map[1 := Adopted(1, 1), 2 := Adopted(2, 2), 3 := Adopted(3, 3)],
       map[MemberKey(1, "x") := Member(1, 1)], map[], map[], map[], {1, 2, 3}, 4, 0)
  }

  lemma MigratedOk()
    ensures Inv(Migrated())
  {
  }

  /** The audit keeps the first two and quarantines the current one. */
  function Audited(): Db {
    Migrated().(suites := map[KEY := SuiteRow(1, 0, None, None)],
                snapshots := map[1 := Adopted(1, 1), 2 := Adopted(2, 2), 3 := Adopted(3, 3).(retiredAt := Some(9))],
                queue := {})
  }

  const VERDICTS := [Keep(1), Keep(2), Quarantine(3, false, false)]

  lemma AuditGives()
    ensures DecideAll(Migrated(), VERDICTS, 9) == Audited()
  {
    var db := Migrated();
    var a := Decide(db, VERDICTS[0], 9);
    assert a == db.(queue := {2, 3});
    var b := Decide(a, VERDICTS[1], 9);
    assert b == db.(queue := {3});
    assert PinSet(db.members, 3) == {};
    assert Release(db.blobs, {}, 9) == db.blobs;
    var c := Decide(b, VERDICTS[2], 9);
    assert c.suites == Audited().suites && c.snapshots == Audited().snapshots;
    assert c == Audited();
    assert VERDICTS[1..] == [Keep(2), Quarantine(3, false, false)];
    assert VERDICTS[1..][1..] == [Quarantine(3, false, false)];
    assert VERDICTS[1..][1..][1..] == [];
  }

  lemma OneRanked(snapshots: Snapshots, key: SuiteKey, current: SnapshotId, x: SnapshotId)
    requires Eligible(snapshots, key, current) == {x}
    ensures var s := Ranked(snapshots, key, current); s != [] && s[0] == x
  {
    hide Eligible, NewestFirst;
    var s := Ranked(snapshots, key, current);
    assert x in Elements(s);
    assert s[0] in Elements(s);
  }

  lemma AuditedDisplaced()
    ensures IsDisplaced(Audited(), 1) && IsDisplaced(Audited(), 2)
    ensures Eligible(Audited().snapshots, KEY, 2) == {1}
  {
    assert Currents(Audited().suites) == {};
  }

  lemma AuditedIsShifted()
    ensures Ranked(Audited().snapshots, KEY, 2) != [] && Ranked(Audited().snapshots, KEY, 2)[0] == 1
    ensures Shifted(Audited(), KEY, 2, 1)
  {
    hide IsDisplaced, Eligible, Ranked;
    AuditedDisplaced();
    OneRanked(Audited().snapshots, KEY, 2, 1);
  }

  lemma AuditSteps()
    ensures Steps(Migrated(), Op(9, Audits(VERDICTS)), Audited())
  {
    hide DecideAll, Migrated, Audited;
    AuditGives();
  }

  lemma CollectSteps(db: Db, ids: set<SnapshotId>, cutoff: Time, keep: nat)
    requires ids <= Collectable(db, cutoff, keep)
    ensures Steps(db, Op(9, CollectsSnapshots(ids, cutoff, keep)), RemoveSnapshots(db, ids))
  {
    hide Collectable, RemoveSnapshots;
  }

  lemma TwoSteps(a: Db, b: Db, c: Db, first: Op, second: Op)
    requires Steps(a, first, b) && Steps(b, second, c)
    ensures Run([a, b, c], [first, second])
  {
    hide Steps;
    var (dbs, ops) := ([a, b, c], [first, second]);
    assert StepsAt(dbs, ops, 0) && StepsAt(dbs, ops, 1);
  }

  /** A run of an audit and a batch, after which the lookup of one displaced snapshot differs. */
  ghost predicate BatchChanges(dbs: seq<Db>, ops: seq<Op>, key: SuiteKey, path: string, current: SnapshotId) {
    && Run(dbs, ops) && Inv(dbs[0]) && |ops| == 2 && ops[0].event.Audits?
    && ops[1].event.CollectsSnapshots? && ops[1].event.keepDisplaced == 1
    && DisplacedMembers(dbs[2], key, path, current, 1) != DisplacedMembers(dbs[1], key, path, current, 1)
  }

  /** After an audit that cleared the suite's pointer, a batch takes the row that a caller still holding the second
      snapshot for the current one would find. */
  lemma ShiftedRunLoses()
    ensures exists dbs, ops :: BatchChanges(dbs, ops, KEY, "x", 2)
  {
    hide Inv, Shifted, Run, Steps, RemoveSnapshots, Collectable, DisplacedMembers, Ranked;
    var b := Audited();
    MigratedOk();
    AuditedIsShifted();
    ShiftedLoses(b, 0, 1, KEY, "x", 2);
    AuditSteps();
    CollectSteps(b, {1}, 0, 1);
    var (first, second) := (Op(9, Audits(VERDICTS)), Op(9, CollectsSnapshots({1}, 0, 1)));
    TwoSteps(Migrated(), b, RemoveSnapshots(b, {1}), first, second);
    assert BatchChanges([Migrated(), b, RemoveSnapshots(b, {1})], [first, second], KEY, "x", 2);
  }
}
