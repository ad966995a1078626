/** Draining retired snapshots a chunk at a time. */
module RetiredChunks {
  import opened Tables
  import opened Transactions
  import IntegritySteps
  import NewestN

  function Drainable(db: Db): set<SnapshotId> { set s | s in db.snapshots && IsDrainable(db, s) }

  function MembersIn(members: Members, ids: set<SnapshotId>): set<MemberKey> {
    set m | m in members && m.snapshot in ids
  }
  function SkippedIn(skipped: Skipped, ids: set<SnapshotId>): set<MemberKey> {
    set m | m in skipped && m.snapshot in ids
  }
  function PackagesIn(packages: Packages, ids: set<SnapshotId>): set<PackageKey> {
    set p | p in packages && p.snapshot in ids
  }

  /** The rows of retired, non-current snapshots and the snapshots themselves. */
  ghost function Weight(db: Db): nat {
    var ids := Drainable(db);
    |MembersIn(db.members, ids)| + |SkippedIn(db.skipped, ids)| + |PackagesIn(db.packages, ids)| + |ids|
  }

  lemma ProperSubset<T>(a: set<T>, b: set<T>)
    requires a <= b
    ensures |a| <= |b| && (a != b ==> |a| < |b|)
  {
    NewestN.SubsetSize(a, b);
    if a != b {
      var x :| x in b && x !in a;
      NewestN.SubsetSize(a, b - {x});
    }
  }

  /** What a full chunk removes. */
  lemma FullChunk(db: Db, c: Chunk, limit: nat)
    requires IsChunk(db, c, limit) && limit >= 1 && !c.header
    ensures |c.members| + |c.skipped| + |c.packages| == limit
  {
    hide IsDrainable;
  }

  lemma ChunkDrainable(db: Db, c: Chunk, limit: nat)
    requires IsChunk(db, c, limit)
    ensures Drainable(DrainChunk(db, c)) == if c.header then Drainable(db) - {c.id} else Drainable(db)
    ensures c.id in Drainable(db)
  {
    hide Takes, IsCurrent;
  }

  lemma FewerMembers(members: Members, gone: set<MemberKey>, ids: set<SnapshotId>, left: set<SnapshotId>)
    requires left <= ids && gone <= MembersIn(members, ids)
    ensures |MembersIn(members - gone, left)| <= |MembersIn(members, ids)|
    ensures gone != {} ==> |MembersIn(members - gone, left)| < |MembersIn(members, ids)|
  {
    ProperSubset(MembersIn(members - gone, left), MembersIn(members, ids));
    if k :| k in gone { assert k in MembersIn(members, ids) && k !in MembersIn(members - gone, left); }
  }

  lemma FewerSkipped(skipped: Skipped, gone: set<MemberKey>, ids: set<SnapshotId>, left: set<SnapshotId>)
    requires left <= ids && gone <= SkippedIn(skipped, ids)
    ensures |SkippedIn(skipped - gone, left)| <= |SkippedIn(skipped, ids)|
    ensures gone != {} ==> |SkippedIn(skipped - gone, left)| < |SkippedIn(skipped, ids)|
  {
    ProperSubset(SkippedIn(skipped - gone, left), SkippedIn(skipped, ids));
    if k :| k in gone { assert k in SkippedIn(skipped, ids) && k !in SkippedIn(skipped - gone, left); }
  }

  lemma FewerPackages(packages: Packages, gone: set<PackageKey>, ids: set<SnapshotId>, left: set<SnapshotId>)
    requires left <= ids && gone <= PackagesIn(packages, ids)
    ensures |PackagesIn(packages - gone, left)| <= |PackagesIn(packages, ids)|
    ensures gone != {} ==> |PackagesIn(packages - gone, left)| < |PackagesIn(packages, ids)|
  {
    ProperSubset(PackagesIn(packages - gone, left), PackagesIn(packages, ids));
    if k :| k in gone { assert k in PackagesIn(packages, ids) && k !in PackagesIn(packages - gone, left); }
  }

  /** Each chunk strictly reduces the rows and headers left to drain. */
  lemma ChunkReduces(db: Db, c: Chunk, limit: nat)
    requires IsChunk(db, c, limit) && limit >= 1
    ensures Weight(DrainChunk(db, c)) < Weight(db)
  {
    ChunkDrainable(db, c, limit);
    ChunkRows(db, c, limit);
    hide IsDrainable, IsChunk, Drainable;
    var (ids, left) := (Drainable(db), Drainable(DrainChunk(db, c)));
    assert c.members <= MembersIn(db.members, ids) && c.skipped <= SkippedIn(db.skipped, ids)
      && c.packages <= PackagesIn(db.packages, ids);
    hide MembersIn, SkippedIn, PackagesIn;
    FewerMembers(db.members, c.members, ids, left);
    FewerSkipped(db.skipped, c.skipped, ids, left);
    FewerPackages(db.packages, c.packages, ids, left);
    if !c.header { FullChunk(db, c, limit); }
  }

  lemma ChunkRows(db: Db, c: Chunk, limit: nat)
    requires IsChunk(db, c, limit)
    ensures c.members <= MembersOf(db.members, c.id) && c.skipped <= SkippedOf(db.skipped, c.id)
    ensures c.packages <= PackagesOf(db.packages, c.id)
  {
    hide IsDrainable;
  }

  /** The ids left to remove after a chunk of id, and the rows it took. */
  ghost predicate Remaining<T>(gone: set<T>, all: set<T>, id: SnapshotId, ids: set<SnapshotId>, left: set<SnapshotId>) {
    id in ids && gone <= all && (left == ids || (left == ids - {id} && gone == all))
  }

  lemma SameMembersLeft(members: Members, gone: set<MemberKey>, id: SnapshotId, ids: set<SnapshotId>,
                        left: set<SnapshotId>)
    requires Remaining(gone, MembersOf(members, id), id, ids, left)
    ensures (map m | m in members - gone && m.snapshot !in left :: (members - gone)[m])
            == (map m | m in members && m.snapshot !in ids :: members[m])
  {
  }

  lemma SameSkippedLeft(skipped: Skipped, gone: set<MemberKey>, id: SnapshotId, ids: set<SnapshotId>,
                        left: set<SnapshotId>)
    requires Remaining(gone, SkippedOf(skipped, id), id, ids, left)
    ensures (map m | m in skipped - gone && m.snapshot !in left :: (skipped - gone)[m])
            == (map m | m in skipped && m.snapshot !in ids :: skipped[m])
  {
  }

  lemma SamePackagesLeft(packages: Packages, gone: set<PackageKey>, id: SnapshotId, ids: set<SnapshotId>,
                         left: set<SnapshotId>)
    requires Remaining(gone, PackagesOf(packages, id), id, ids, left)
    ensures (map p | p in packages - gone && p.snapshot !in left :: (packages - gone)[p])
            == (map p | p in packages && p.snapshot !in ids :: packages[p])
  {
  }

  /** What is left once everything drainable is gone does not depend on how far the draining is. */
  lemma ChunkKeepsGoal(db: Db, c: Chunk, limit: nat)
    requires IsChunk(db, c, limit)
    ensures RemoveSnapshots(DrainChunk(db, c), Drainable(DrainChunk(db, c))) == RemoveSnapshots(db, Drainable(db))
  {
    hide IsChunk, IsDrainable, Drainable, MembersOf, SkippedOf, PackagesOf;
    ChunkDrainable(db, c, limit);
    ChunkRows(db, c, limit);
    if c.header { IntegritySteps.ChunkIsLast(db, c, limit); }
    var (ids, left) := (Drainable(db), Drainable(DrainChunk(db, c)));
    SameMembersLeft(db.members, c.members, c.id, ids, left);
    SameSkippedLeft(db.skipped, c.skipped, c.id, ids, left);
    SamePackagesLeft(db.packages, c.packages, c.id, ids, left);
    assert DrainChunk(db, c).snapshots - left == db.snapshots - ids;
  }

  lemma NothingLeft(db: Db)
    requires Drainable(db) == {}
    ensures RemoveSnapshots(db, {}) == db
  {
    assert db.snapshots - {} == db.snapshots;
    assert RemoveSnapshots(db, {}).members == db.members;
    assert RemoveSnapshots(db, {}).skipped == db.skipped;
    assert RemoveSnapshots(db, {}).packages == db.packages;
  }

  /** A snapshot's header goes only with its last child row. */
  lemma HeaderGoesLast(db: Db, c: Chunk, limit: nat)
    requires IsChunk(db, c, limit) && c.header
    ensures var d := DrainChunk(db, c);
            MembersOf(d.members, c.id) == {} && SkippedOf(d.skipped, c.id) == {} && PackagesOf(d.packages, c.id) == {}
  {
    IntegritySteps.ChunkIsLast(db, c, limit);
    hide IsChunk;
  }
}
