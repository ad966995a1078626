/** Candidates over runs: an adoption is never undone, and a snapshot has no declarations before it is adopted. */
module Candidates {
  import opened Text
  import opened Tables
  import opened Retention
  import opened Transactions
  import opened Integrity
  import opened Runs
  import opened Footprints
  import IntegritySteps
  import Prefetch

  /** Every declaration belongs to an adopted snapshot. */
  ghost predicate DeclaredByAdopted(packages: Packages, snapshots: Snapshots) {
    forall p :: p in packages ==> p.snapshot in snapshots && snapshots[p.snapshot].adoptedAt.Some?
  }

  /** A snapshot that was adopted still is, as long as it is there. */
  ghost predicate StaysAdopted(a: Snapshots, b: Snapshots) {
    forall s :: s in a && s in b && a[s].adoptedAt.Some? ==> b[s].adoptedAt.Some?
  }

  lemma SameSnapshots(a: Snapshots)
    ensures StaysAdopted(a, a)
  {
  }

  lemma AdoptedTwice(a: Snapshots, b: Snapshots, c: Snapshots)
    requires StaysAdopted(a, b) && StaysAdopted(b, c) && a.Keys == b.Keys
    ensures StaysAdopted(a, c)
  {
  }

  lemma CandidateAdopted(db: Db, c: Candidate, existing: Option<SnapshotId>, now: Time)
    requires Inv(db) && (existing.Some? ==> existing.value in db.snapshots)
    ensures StaysAdopted(db.snapshots, Final(db, InsertCandidate(db, c, existing, now)).snapshots)
  {
    hide CandidateForm, AnchorsOf, AnchorBlobs, UrlRefs, MemberRefs, AnchorRefs, NaturalOk, CurrentOk, SignedOk,
         FormsOk, ZeroedOk, GenerationsOk;
    assert IdsOk(db.snapshots, db.nextId);
    assert db.nextId !in db.snapshots;
  }

  lemma CommitAdopts(db: Db, id: SnapshotId, a: Adoption, now: Time)
    ensures var d := Final(db, CommitAdoption(db, id, a, now));
            && StaysAdopted(db.snapshots, d.snapshots)
            && (CommitError(db, id, a).None? ==> id in d.snapshots && d.snapshots[id].adoptedAt.Some?
                                                 && d.packages == Added(db.packages, KeyedPackages(id, a.packages)))
            && (CommitError(db, id, a).Some? ==> d == db)
  {
    hide Added, WarmRows, SeedAnchors, AdoptionStamp, Bump, ReleasePrior, PinSet, AnchorNames, MarkSeen, SignedHistory,
         AllNew, BlobsStored, WarmStored, Keyed, KeyedPackages;
  }

  lemma DeleteAdopted(db: Db, key: SuiteKey, now: Time)
    requires key in db.suites
    ensures StaysAdopted(db.snapshots, DeleteSuite(db, key, now).snapshots)
    ensures DeleteSuite(db, key, now).snapshots.Keys == db.snapshots.Keys
  {
    hide ReleasePrior, StampBase, MarkSeen, SuiteSigned;
  }

  lemma ReapAdopted(db: Db, key: SuiteKey, want: Option<SnapshotId>, cutoff: Option<Time>, now: Time)
    ensures StaysAdopted(db.snapshots, ReapSuite(db, key, want, cutoff, now).snapshots)
  {
    hide DeleteSuite;
    if key in db.suites { DeleteAdopted(db, key, now); }
  }

  lemma ForgetAdopted(db: Db, key: SuiteKey, want: Option<SnapshotId>, now: Time)
    ensures StaysAdopted(db.snapshots, ForgetSuite(db, key, want, now).snapshots)
  {
    hide DeleteSuite, DropKeys, BaseAnchors, BaseRows, Unmark;
    if key in db.suites { DeleteAdopted(db, key, now); }
  }

  lemma DecideAdopted(db: Db, d: Decision, now: Time)
    ensures StaysAdopted(db.snapshots, Decide(db, d, now).snapshots)
    ensures Decide(db, d, now).snapshots.Keys == db.snapshots.Keys
  {
    hide DropUrls, ClearCurrent, Release, PinSet, IsCurrent, MarkSnapshotBase;
    if d.Quarantine? {
      DropFrame(QuarantineSnapshot(db, d.id, now), AnchorRows(QuarantineSnapshot(db, d.id, now), d.id), now);
    }
  }

  lemma {:induction false} DecideAllAdopted(db: Db, ds: seq<Decision>, now: Time)
    ensures StaysAdopted(db.snapshots, DecideAll(db, ds, now).snapshots)
    decreases |ds|
  {
    hide Decide, StaysAdopted;
    if ds == [] {
      SameSnapshots(db.snapshots);
    } else {
      var e := Decide(db, ds[0], now);
      DecideAdopted(db, ds[0], now);
      DecideAllAdopted(e, ds[1..], now);
      AdoptedTwice(db.snapshots, e.snapshots, DecideAll(e, ds[1..], now).snapshots);
    }
  }

  lemma CreateAdopted(db: Db, seed: Seed, caps: Caps, held: Option<SuiteKey>, rowid: nat, now: Time)
    ensures StaysAdopted(db.snapshots, CreateSuite(db, seed, caps, held, rowid, now).db.snapshots)
  {
    hide DeleteSuite, HostRows, InsertSuite, StaysAdopted;
    SameSnapshots(db.snapshots);
    InsertSuiteFrame(db, seed, rowid);
    if held.Some? && held.value in db.suites {
      DeleteAdopted(db, held.value, now);
      InsertSuiteFrame(DeleteSuite(db, held.value, now), seed, rowid);
    }
  }

  lemma StoreAdopted(db: Db, f: Fetched, caps: Caps, held: Option<SuiteKey>, rowid: nat, now: Time)
    ensures var r := StoreFetched(db, f, caps, held, rowid, now);
            r.Ok? ==> StaysAdopted(db.snapshots, r.value.db.snapshots)
  {
    hide CreateSuite, MarkSeen, StaysAdopted;
    SameSnapshots(db.snapshots);
    if PutUrl(db, f.k, f.row).Ok? && f.create.Some? {
      CreateAdopted(PutUrl(db, f.k, f.row).value, f.create.value, caps, held, rowid, now);
    }
  }

  lemma PlainAdopted(db: Db, id: SnapshotId, ids: set<SnapshotId>, c: Chunk, now: Time)
    ensures StaysAdopted(db.snapshots, HeartbeatSnapshot(db, id, now).snapshots)
    ensures StaysAdopted(db.snapshots, RemoveSnapshots(db, ids).snapshots)
    ensures StaysAdopted(db.snapshots, DrainChunk(db, c).snapshots)
  {
  }

  lemma AdoptionsStay(db: Db, op: Op)
    requires Inv(db) && Enabled(db, op)
    ensures StaysAdopted(db.snapshots, Apply(db, op).snapshots)
  {
    hide Inv, CommitAdoption, ReapSuite, ForgetSuite, SweepMarkers, MarkAll, DecideAll, CreateSuite, StoreFetched,
         InvalidateLegacy, Reapable, Collectable, IsChunk, IntegritySteps.CandidateFinds, IntegritySteps.DropsMissing,
         PutBlob, HeartbeatBlobs, ReapBlobs, PutUrl, TouchUrl, RefreshUrl, DropUrls, CollectUrls, InsertCandidate,
         HeartbeatSnapshot, RepairSkipped, Reconcile, TouchSuite, RemoveSnapshots, DrainChunk, StaysAdopted;
    var (now, chunk) := (op.now, Chunk(0, {}, {}, {}, false));
    match op.event
    case InsertsCandidate(c, existing) =>
      CandidateExists(db, c, existing);
      CandidateAdopted(db, c, existing, now);
    case HeartbeatsSnapshot(id) => PlainAdopted(db, id, {}, chunk, now);
    case Commits(id, a) => CommitAdopts(db, id, a, now);
    case Reaps(key, want, cutoff) => ReapAdopted(db, key, want, cutoff, now);
    case Forgets(key, want) => ForgetAdopted(db, key, want, now);
    case Audits(ds) => DecideAllAdopted(db, ds, now);
    case Creates(seed, caps, held, rowid) => CreateAdopted(db, seed, caps, held, rowid, now);
    case Stores(f, caps, held, rowid) =>
      StoreAdopted(db, f, caps, held, rowid, now);
      SameSnapshots(db.snapshots);
    case CollectsSnapshots(ids, _, _) => PlainAdopted(db, 0, ids, chunk, now);
    case Drains(c, _) => PlainAdopted(db, 0, {}, c, now);
    case _ =>
      SnapshotsFixed(db, op);
      SameSnapshots(db.snapshots);
  }

  // ----- declarations -----

  /** Every new declaration belongs to a snapshot adopted by now. */
  ghost predicate NewDeclarations(db: Db, d: Db) {
    forall p :: p in d.packages && p !in db.packages ==>
      p.snapshot in d.snapshots && d.snapshots[p.snapshot].adoptedAt.Some?
  }

  lemma CommitDeclares(db: Db, id: SnapshotId, a: Adoption, now: Time)
    ensures NewDeclarations(db, Final(db, CommitAdoption(db, id, a, now)))
  {
    hide CommitAdoption, Added, CommitError;
    CommitAdopts(db, id, a, now);
    var (d, rows) := (Final(db, CommitAdoption(db, id, a, now)), KeyedPackages(id, a.packages));
    if CommitError(db, id, a).None? {
      forall p | p in d.packages && p !in db.packages ensures p.snapshot == id {
        IntegritySteps.AddedRows(db.packages, rows, p);
      }
    }
  }

  lemma {:induction false} ReconciledKeys(packages: Packages, snapshots: Snapshots, rows: seq<(PackageKey, Package)>,
                                          id: SnapshotId)
    requires forall i :: 0 <= i < |rows| ==> rows[i].0.snapshot == id
    ensures var r := ReconcilePackages(packages, snapshots, rows);
            r.Ok? ==> forall p :: p in r.value ==> p in packages || p.snapshot == id
    decreases |rows|
  {
    if rows != [] {
      var q := ReconcilePackage(packages, snapshots, rows[0]);
      if q.Ok? { ReconciledKeys(q.value, snapshots, rows[1..], id); }
    }
  }

  lemma ReconcileDeclares(db: Db, id: SnapshotId, rows: seq<(MemberKey, Member)>, packages: seq<(PackageKey, Package)>)
    requires Inv(db) && forall i :: 0 <= i < |packages| ==> packages[i].0.snapshot == id
    ensures NewDeclarations(db, Final(db, Reconcile(db, id, rows, packages)))
  {
    hide ReconcileMembers, ReconcilePackages, NaturalOk, SignedOk, UrlRefs, MemberRefs, AnchorRefs, ZeroedOk, IdsOk,
         FormsOk, GenerationsOk;
    ReconciledKeys(db.packages, db.snapshots, packages, id);
  }

  lemma RepairDeclares(db: Db, id: SnapshotId, path: string, rows: seq<(MemberKey, Member)>)
    ensures NewDeclarations(db, Final(db, RepairSkipped(db, id, path, rows)))
  {
    hide PinOnce, Added, RepairsSkip, NoConflict, IsCurrent;
  }

  lemma RemovalDeclares(db: Db, ids: set<SnapshotId>, c: Chunk)
    ensures NewDeclarations(db, RemoveSnapshots(db, ids)) && NewDeclarations(db, DrainChunk(db, c))
  {
  }

  lemma SameDeclarations(db: Db, d: Db)
    requires d.packages == db.packages
    ensures NewDeclarations(db, d)
  {
  }

  lemma StepDeclares(db: Db, op: Op)
    requires Inv(db) && Enabled(db, op)
    ensures NewDeclarations(db, Apply(db, op))
  {
    hide Inv, CommitAdoption, ReapSuite, ForgetSuite, SweepMarkers, MarkAll, DecideAll, CreateSuite, StoreFetched,
         InvalidateLegacy, Reapable, Collectable, IsChunk, IntegritySteps.CandidateFinds, IntegritySteps.DropsMissing,
         PutBlob, HeartbeatBlobs, ReapBlobs, PutUrl, TouchUrl, RefreshUrl, DropUrls, CollectUrls, InsertCandidate,
         HeartbeatSnapshot, RepairSkipped, Reconcile, TouchSuite, RemoveSnapshots, DrainChunk, NewDeclarations;
    match op.event
    case Commits(id, a) => CommitDeclares(db, id, a, op.now);
    case Repairs(id, path, rows) => RepairDeclares(db, id, path, rows);
    case Reconciles(id, rows, packages) => ReconcileDeclares(db, id, rows, packages);
    case CollectsSnapshots(ids, _, _) => RemovalDeclares(db, ids, Chunk(0, {}, {}, {}, false));
    case Drains(c, _) => RemovalDeclares(db, {}, c);
    case _ =>
      MembersFixed(db, op);
      SameDeclarations(db, Apply(db, op));
  }

  lemma DeclaredStep(db: Db, d: Db)
    requires DeclaredByAdopted(db.packages, db.snapshots) && NewDeclarations(db, d)
    requires StaysAdopted(db.snapshots, d.snapshots)
    requires PackagesHaveSnapshot(d.packages, d.snapshots.Keys)
    ensures DeclaredByAdopted(d.packages, d.snapshots)
  {
  }

  lemma HaveSnapshots(db: Db)
    requires Inv(db)
    ensures PackagesHaveSnapshot(db.packages, db.snapshots.Keys)
  {
  }

  /** In every state of a run, a snapshot that is not adopted has no declarations. */
  lemma {:induction false} RunDeclares(dbs: seq<Db>, ops: seq<Op>, i: nat)
    requires Run(dbs, ops) && Inv(dbs[0]) && DeclaredByAdopted(dbs[0].packages, dbs[0].snapshots) && i <= |ops|
    ensures DeclaredByAdopted(dbs[i].packages, dbs[i].snapshots)
  {
    hide Inv, Apply, Enabled, DeclaredByAdopted, NewDeclarations, StaysAdopted;
    if i > 0 {
      RunDeclares(dbs, ops, i - 1);
      assert StepsAt(dbs, ops, i - 1);
      RunKeeps(dbs, ops, i - 1);
      RunKeeps(dbs, ops, i);
      AdoptionsStay(dbs[i - 1], ops[i - 1]);
      StepDeclares(dbs[i - 1], ops[i - 1]);
      HaveSnapshots(dbs[i]);
      DeclaredStep(dbs[i - 1], dbs[i]);
    }
  }

  /** Over runs: what a commit warms from the hot set of its own rows, the collector's next evaluation retains. */
  lemma CommittedPrefetchIsRetained(dbs: seq<Db>, ops: seq<Op>, i: nat, id: SnapshotId, a: Adoption,
                                    hot: set<Prefetch.PackageArch>, n: int,
                                    k: UrlKey, cutoff: Time)
    requires Run(dbs, ops) && Inv(dbs[0]) && DeclaredByAdopted(dbs[0].packages, dbs[0].snapshots) && i < |ops|
    requires ops[i].event == Commits(id, a) && CommitError(dbs[i], id, a).None?
    requires var key := dbs[i].snapshots[id].key;
             forall j :: 0 <= j < |a.packages| ==>
               a.packages[j].0.scheme == key.scheme && a.packages[j].0.host == key.host
    requires forall j :: 0 <= j < |a.prefetched| ==>
             a.prefetched[j] in Prefetch.HotEntries(KeyedPackages(id, a.packages), hot, n)
    requires exists j :: 0 <= j < |a.prefetched| && a.prefetched[j].0 == k
    ensures k in dbs[i + 1].urls && Retained(CatalogOf(dbs[i + 1]), k, dbs[i + 1].urls[k], cutoff, n)
  {
    hide Inv, Enabled, CommitError, Committed, Retained, Prefetch.HotEntries;
    RunKeeps(dbs, ops, i);
    RunDeclares(dbs, ops, i);
    assert StepsAt(dbs, ops, i);
    Unadopted(dbs[i], id, a);
    Prefetch.PrefetchIsRetained(dbs[i], id, a, ops[i].now, hot, n, k, cutoff);
  }

  lemma Unadopted(db: Db, id: SnapshotId, a: Adoption)
    requires DeclaredByAdopted(db.packages, db.snapshots) && CommitError(db, id, a).None?
    ensures PackagesOf(db.packages, id) == {}
  {
    hide SignedHistory, AllNew, BlobsStored, WarmStored, Keyed, KeyedPackages;
  }
}
