/** Runs of the database: each operation is one committed (or refused) writer transaction, at any clock reading. */
module Runs {
  import opened Text
  import opened Tables
  import opened Retention
  import opened Transactions
  import opened Integrity
  import IntegritySteps

  datatype Event =
    | PutsBlob(hash: Hash)
    | HeartbeatsBlobs(hashes: set<Hash>)
    | ReapsBlobs(blobCutoff: Time, reaped: set<Hash>)
    | PutsUrl(url: UrlKey, row: UrlRow)
    | TouchesUrl(url: UrlKey)
    | RefreshesUrl(url: UrlKey, was: Hash, new_: Hash)
    | DropsUrls(urls: set<UrlKey>)                       // evictions, metadata deletes, compare-and-delete
    | CollectsUrls(urls: set<UrlKey>, pass: Pass)
    | InsertsCandidate(candidate: Candidate, existing: Option<SnapshotId>)
    | HeartbeatsSnapshot(id: SnapshotId)
    | Commits(id: SnapshotId, adoption: Adoption)
    | Repairs(id: SnapshotId, path: string, members: seq<(MemberKey, Member)>)
    | Reconciles(id: SnapshotId, members: seq<(MemberKey, Member)>, packages: seq<(PackageKey, Package)>)
    | Reaps(key: SuiteKey, want: Option<SnapshotId>, idle: Option<Time>)
    | Forgets(key: SuiteKey, want: Option<SnapshotId>)
    | SweepsMarkers(markers: set<MarkerKey>, markerCutoff: Time)
    | Marks(marks: seq<(MarkerKey, Time)>)
    | Audits(decisions: seq<Decision>)
    | Enqueues(ids: set<SnapshotId>)
    | Creates(seed: Seed, caps: Caps, held: Option<SuiteKey>, rowid: nat)
    | Stores(fetched: Fetched, caps: Caps, held: Option<SuiteKey>, rowid: nat)
    | Invalidates(key: SuiteKey, anchor: string, was: Hash)
    | TouchesSuite(key: SuiteKey)
    | CollectsSnapshots(ids: set<SnapshotId>, staleCutoff: Time, keepDisplaced: nat)
    | Drains(chunk: Chunk, limit: nat)

  datatype Op = Op(now: Time, event: Event)

  /** What each operation's own query or caller guarantees. */
  ghost predicate Enabled(db: Db, op: Op) {
    match op.event
    case ReapsBlobs(cutoff, hs) => hs <= Reapable(db, cutoff)
    case CollectsUrls(_, p) => p.now == op.now
    case InsertsCandidate(c, existing) => IntegritySteps.CandidateFinds(db, c, existing)
    case Reconciles(id, _, packages) => forall i :: 0 <= i < |packages| ==> packages[i].0.snapshot == id
    case Audits(ds) => IntegritySteps.DropsMissing(db, ds)
    case CollectsSnapshots(ids, cutoff, keep) => ids <= Collectable(db, cutoff, keep)
    case Drains(c, limit) => limit >= 1 && IsChunk(db, c, limit)
    case _ => true
  }

  ghost function Apply(db: Db, op: Op): Db
    requires Enabled(db, op)
  {
    var now := op.now;
    match op.event
    case PutsBlob(h) => PutBlob(db, h, now)
    case HeartbeatsBlobs(hs) => HeartbeatBlobs(db, hs, now)
    case ReapsBlobs(_, hs) => ReapBlobs(db, hs)
    case PutsUrl(k, row) => Final(db, PutUrl(db, k, row))
    case TouchesUrl(k) => TouchUrl(db, k, now)
    case RefreshesUrl(k, was, new_) => Final(db, RefreshUrl(db, k, was, new_, now))
    case DropsUrls(ks) => DropUrls(db, ks, now)
    case CollectsUrls(ks, p) => CollectUrls(db, ks, p)
    case InsertsCandidate(c, existing) => Final(db, InsertCandidate(db, c, existing, now))
    case HeartbeatsSnapshot(id) => HeartbeatSnapshot(db, id, now)
    case Commits(id, a) => Final(db, CommitAdoption(db, id, a, now))
    case Repairs(id, path, rows) => Final(db, RepairSkipped(db, id, path, rows))
    case Reconciles(id, rows, packages) => Final(db, Reconcile(db, id, rows, packages))
    case Reaps(key, want, cutoff) => ReapSuite(db, key, want, cutoff, now)
    case Forgets(key, want) => ForgetSuite(db, key, want, now)
    case SweepsMarkers(keys, cutoff) => SweepMarkers(db, keys, cutoff)
    case Marks(marks) => db.(markers := MarkAll(db.markers, marks))
    case Audits(ds) => DecideAll(db, ds, now)
    case Enqueues(ids) => db.(queue := db.queue + ids)
    case Creates(seed, caps, held, rowid) => CreateSuite(db, seed, caps, held, rowid, now).db
    case Stores(f, caps, held, rowid) =>
      var r := StoreFetched(db, f, caps, held, rowid, now);
      if r.Ok? then r.value.db else db
    case Invalidates(key, anchor, was) => Final(db, InvalidateLegacy(db, key, anchor, was, now))
    case TouchesSuite(key) => TouchSuite(db, key, now)
    case CollectsSnapshots(ids, _, _) => RemoveSnapshots(db, ids)
    case Drains(c, _) => DrainChunk(db, c)
  }

  ghost predicate Run(dbs: seq<Db>, ops: seq<Op>) {
    && |dbs| == |ops| + 1
    && forall i :: 0 <= i < |ops| ==> StepsAt(dbs, ops, i)
  }

  ghost predicate StepsAt(dbs: seq<Db>, ops: seq<Op>, i: nat)
    requires |dbs| == |ops| + 1 && i < |ops|
  {
    Steps(dbs[i], ops[i], dbs[i + 1])
  }

  ghost predicate Steps(db: Db, op: Op, d: Db) { Enabled(db, op) && d == Apply(db, op) }

  /** Every operation keeps the database sound. */
  lemma StepKeeps(db: Db, op: Op)
    requires Inv(db) && Enabled(db, op)
    ensures Inv(Apply(db, op))
  {
    hide Inv, PutBlob, HeartbeatBlobs, ReapBlobs, PutUrl, TouchUrl, RefreshUrl, DropUrls, CollectUrls, InsertCandidate,
         HeartbeatSnapshot, CommitAdoption, RepairSkipped, Reconcile, ReapSuite, ForgetSuite, SweepMarkers, MarkAll,
         DecideAll, CreateSuite, StoreFetched, InvalidateLegacy, TouchSuite, RemoveSnapshots, DrainChunk, Reapable,
         Collectable, IsChunk, IntegritySteps.CandidateFinds, IntegritySteps.DropsMissing;
    var now := op.now;
    match op.event
    case PutsBlob(h) => PutBlobKeeps(db, h, now);
    case HeartbeatsBlobs(hs) => HeartbeatKeeps(db, hs, now);
    case ReapsBlobs(cutoff, hs) => ReapBlobsKeeps(db, hs, cutoff);
    case PutsUrl(k, row) => PutUrlKeeps(db, k, row);
    case TouchesUrl(k) => TouchUrlKeeps(db, k, now);
    case RefreshesUrl(k, was, new_) => RefreshUrlKeeps(db, k, was, new_, now);
    case DropsUrls(ks) => DropUrlsKeeps(db, ks, now);
    case CollectsUrls(ks, p) => CollectUrlsKeeps(db, ks, p);
    case InsertsCandidate(c, existing) => IntegritySteps.InsertCandidateKeeps(db, c, existing, now);
    case HeartbeatsSnapshot(id) => IntegritySteps.HeartbeatSnapshotKeeps(db, id, now);
    case Commits(id, a) => IntegritySteps.CommitKeeps(db, id, a, now);
    case Repairs(id, path, rows) => IntegritySteps.RepairKeeps(db, id, path, rows);
    case Reconciles(id, rows, packages) => IntegritySteps.ReconcileKeeps(db, id, rows, packages);
    case Reaps(key, want, cutoff) => IntegritySteps.ReapSuiteKeeps(db, key, want, cutoff, now);
    case Forgets(key, want) => IntegritySteps.ForgetSuiteKeeps(db, key, want, now);
    case SweepsMarkers(keys, cutoff) => IntegritySteps.SweepMarkersKeeps(db, keys, cutoff);
    case Marks(marks) =>
      IntegritySteps.MarkAllGrows(db.markers, marks);
      IntegritySteps.MoreMarkersKeeps(db, MarkAll(db.markers, marks));
    case Audits(ds) => IntegritySteps.DecideAllKeeps(db, ds, now);
    case Enqueues(ids) => IntegritySteps.EnqueueKeeps(db, ids);
    case Creates(seed, caps, held, rowid) => IntegritySteps.CreateSuiteKeeps(db, seed, caps, held, rowid, now);
    case Stores(f, caps, held, rowid) => IntegritySteps.StoreFetchedKeeps(db, f, caps, held, rowid, now);
    case Invalidates(key, anchor, was) => IntegritySteps.InvalidateKeeps(db, key, anchor, was, now);
    case TouchesSuite(key) => IntegritySteps.TouchSuiteKeeps(db, key, now);
    case CollectsSnapshots(ids, cutoff, keep) => IntegritySteps.CollectSnapshotsKeeps(db, ids, cutoff, keep);
    case Drains(c, limit) => IntegritySteps.DrainKeeps(db, c, limit);
  }

  /** Every state of a run from a sound state is sound, whatever the clock does. */
  lemma {:induction false} RunKeeps(dbs: seq<Db>, ops: seq<Op>, i: nat)
    requires Run(dbs, ops) && Inv(dbs[0]) && i <= |ops|
    ensures Inv(dbs[i])
  {
    hide Inv, Apply, Enabled;
    if i > 0 {
      RunKeeps(dbs, ops, i - 1);
      assert StepsAt(dbs, ops, i - 1);
      StepKeeps(dbs[i - 1], ops[i - 1]);
    }
  }
}
