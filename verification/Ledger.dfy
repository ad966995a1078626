/** The refcount ledger: a blob's count is the number of current snapshots that pin it, less the url_path rows
    naming it that were deleted since its row was created. Pins are taken once per distinct blob and released
    exactly once. */
module Ledger {
  import opened Text
  import opened Tables
  import opened Retention
  import opened Transactions
  import opened Integrity
  import IntegritySteps

  ghost function PinCount(db: Db, h: Hash): nat { |Pinners(db.suites, db.members, h)| }

  /** How many url_path rows naming h a step deleted. */
  ghost function Dropped(before: Urls, after: Urls, h: Hash): nat {
    |set k | k in before && k !in after && before[k].blob == Some(h)|
  }

  /** One step's entry: a count moves with its pins and falls with its rows; a new blob starts unpinned at zero. */
  ghost predicate BlobBalanced(db: Db, d: Db, h: Hash) {
    h in d.blobs ==>
      if h in db.blobs
      then d.blobs[h].refcount - db.blobs[h].refcount == PinCount(d, h) - PinCount(db, h) - Dropped(db.urls, d.urls, h)
      else d.blobs[h].refcount == PinCount(d, h) == 0
  }

  ghost predicate Balanced(db: Db, d: Db) { forall h :: BlobBalanced(db, d, h) }

  /** The counts move with the pins alone. */
  ghost predicate PinsMove(db: Db, d: Db) {
    && d.blobs.Keys == db.blobs.Keys
    && forall h :: h in d.blobs ==> d.blobs[h].refcount - db.blobs[h].refcount == PinCount(d, h) - PinCount(db, h)
  }

  lemma NoneDropped(before: Urls, after: Urls, h: Hash)
    requires before.Keys <= after.Keys
    ensures Dropped(before, after, h) == 0
  {
    assert (set k | k in before && k !in after && before[k].blob == Some(h)) == {};
  }

  lemma PinsMoveBalanced(db: Db, d: Db)
    requires PinsMove(db, d) && db.urls.Keys <= d.urls.Keys
    ensures Balanced(db, d)
  {
    hide PinCount, Dropped;
    forall h: Hash ensures BlobBalanced(db, d, h) { NoneDropped(db.urls, d.urls, h); }
  }

  /** Nothing a count depends on changed. */
  lemma SamePins(db: Db, d: Db)
    requires d.members == db.members && Currents(d.suites) == Currents(db.suites) && d.blobs == db.blobs
    ensures PinsMove(db, d)
  {
  }

  lemma SamePinsBalanced(db: Db, d: Db)
    requires d.members == db.members && Currents(d.suites) == Currents(db.suites) && d.blobs == db.blobs
    requires db.urls.Keys <= d.urls.Keys
    ensures Balanced(db, d)
  {
    SamePins(db, d);
    PinsMoveBalanced(db, d);
  }

  // ----- blob operations -----

  lemma Unpinned(db: Db, h: Hash)
    requires Inv(db) && h !in db.blobs
    ensures PinCount(db, h) == 0
  {
    assert Pinners(db.suites, db.members, h) == {};
  }

  lemma SameCounts(db: Db, d: Db)
    requires Inv(db) && d == db.(blobs := d.blobs)
    requires forall h :: h in d.blobs ==> d.blobs[h].refcount == if h in db.blobs then db.blobs[h].refcount else 0
    ensures Balanced(db, d)
  {
    hide Inv, PinCount, Dropped;
    assert forall h :: PinCount(d, h) == PinCount(db, h) by {
      forall h ensures PinCount(d, h) == PinCount(db, h) { SamePinCount(db, d, h); }
    }
    forall h: Hash ensures BlobBalanced(db, d, h) {
      NoneDropped(db.urls, d.urls, h);
      if h !in db.blobs { Unpinned(db, h); }
    }
  }

  lemma SamePinCount(db: Db, d: Db, h: Hash)
    requires d.members == db.members && Currents(d.suites) == Currents(db.suites)
    ensures PinCount(d, h) == PinCount(db, h)
  {
  }

  // ----- deleted rows -----

  lemma DropUrlsBalanced(db: Db, ks: set<UrlKey>, now: Time)
    ensures Balanced(db, DropUrls(db, ks, now))
  {
    hide PinCount;
    var d := DropUrls(db, ks, now);
    forall h: Hash ensures BlobBalanced(db, d, h) {
      SamePinCount(db, d, h);
      assert (set k | k in db.urls && k !in d.urls && db.urls[k].blob == Some(h)) == Naming(db.urls, ks, h);
    }
  }

  lemma CollectUrlsBalanced(db: Db, ks: set<UrlKey>, p: Pass)
    ensures Balanced(db, CollectUrls(db, ks, p))
  {
    hide Doomed, Settled, PinCount;
    var (f, c) := (Files(db.urls, db.blobs), CatalogOf(db));
    var doomed := Doomed(f, c, ks, p);
    DropUrlsBalanced(db, doomed, p.now);
    var (e, d) := (DropUrls(db, doomed, p.now), CollectUrls(db, ks, p));
    assert d.urls.Keys == e.urls.Keys && d.blobs == e.blobs;
    forall h: Hash ensures BlobBalanced(db, d, h) {
      assert BlobBalanced(db, e, h);
      SamePinCount(db, d, h);
      SamePinCount(db, e, h);
      SameDropped(db.urls, d.urls, e.urls, h);
    }
  }

  lemma SameDropped(before: Urls, a: Urls, b: Urls, h: Hash)
    requires a.Keys == b.Keys
    ensures Dropped(before, a, h) == Dropped(before, b, h)
  {
    assert (set k | k in before && k !in a && before[k].blob == Some(h))
      == (set k | k in before && k !in b && before[k].blob == Some(h));
  }

  ghost predicate Shrinks(before: Urls, after: Urls) { forall k :: k in after ==> k in before && after[k] == before[k] }

  lemma DroppedTwice(a: Urls, b: Urls, c: Urls, h: Hash)
    requires Shrinks(a, b) && Shrinks(b, c)
    ensures Dropped(a, c, h) == Dropped(a, b, h) + Dropped(b, c, h)
  {
    var x := set k | k in a && k !in b && a[k].blob == Some(h);
    var y := set k | k in b && k !in c && b[k].blob == Some(h);
    var z := set k | k in a && k !in c && a[k].blob == Some(h);
    assert z == x + y && x !! y;
  }

  /** Two balanced steps that only delete rows balance together. */
  lemma BalancedTwice(a: Db, b: Db, c: Db)
    requires Balanced(a, b) && Balanced(b, c) && a.blobs.Keys == b.blobs.Keys == c.blobs.Keys
    requires Shrinks(a.urls, b.urls) && Shrinks(b.urls, c.urls)
    ensures Balanced(a, c)
  {
    hide PinCount, Dropped, Shrinks;
    forall h: Hash ensures BlobBalanced(a, c, h) {
      assert BlobBalanced(a, b, h) && BlobBalanced(b, c, h);
      DroppedTwice(a.urls, b.urls, c.urls, h);
    }
  }

  // ----- pins -----

  function Entry(b: bool): int { if b then 1 else 0 }

  lemma SetReplaced(was: set<SnapshotId>, now: set<SnapshotId>, gone: Option<SnapshotId>, come: Option<SnapshotId>)
    requires forall s :: s in now <==> (s in was && gone != Some(s)) || come == Some(s)
    requires come.Some? ==> come.value !in was
    ensures |now| == |was| - Entry(gone.Some? && gone.value in was) + Entry(come.Some?)
  {
    var kept := set s | s in was && gone != Some(s);
    if gone.Some? && gone.value in was { assert was == kept + {gone.value}; } else { assert was == kept; }
    if come.Some? { assert now == kept + {come.value}; } else { assert now == kept; }
  }

  lemma IsPinner(suites: Suites, members: Members, h: Hash, s: SnapshotId)
    ensures s in Pinners(suites, members, h) <==> s in Currents(suites) && h in PinSet(members, s)
  {
    hide Currents, PinSet;
  }

  /** The pinners of h when one snapshot may stop and one may start being current. */
  lemma PinnersReplaced(suites: Suites, members: Members, su: Suites, me: Members, gone: Option<SnapshotId>,
                        come: Option<SnapshotId>, h: Hash)
    requires gone.Some? ==> gone.value in Currents(suites)
    requires come.Some? ==> come.value !in Currents(suites)
    requires forall s :: s in Currents(su) <==> (s in Currents(suites) && gone != Some(s)) || come == Some(s)
    requires forall s :: s in Currents(suites) && gone != Some(s) ==> (h in PinSet(me, s) <==> h in PinSet(members, s))
    ensures |Pinners(su, me, h)| == |Pinners(suites, members, h)|
              - Entry(gone.Some? && h in PinSet(members, gone.value)) + Entry(come.Some? && h in PinSet(me, come.value))
  {
    hide Currents, PinSet, Pinners;
    var in_ := if come.Some? && h in PinSet(me, come.value) then come else None;
    forall s: SnapshotId
      ensures s in Pinners(su, me, h) <==> (s in Pinners(suites, members, h) && gone != Some(s)) || in_ == Some(s)
    {
      IsPinner(suites, members, h, s);
      IsPinner(su, me, h, s);
    }
    if gone.Some? { IsPinner(suites, members, h, gone.value); }
    if come.Some? { IsPinner(suites, members, h, come.value); }
    SetReplaced(Pinners(suites, members, h), Pinners(su, me, h), gone, in_);
  }

  lemma AddedPinSet(members: Members, rows: seq<(MemberKey, Member)>, id: SnapshotId, s: SnapshotId)
    requires s != id && forall i :: 0 <= i < |rows| ==> rows[i].0.snapshot == id
    requires AllNew(members, rows) || NoConflict(members, rows)
    ensures PinSet(Added(members, rows), s) == PinSet(members, s)
  {
    hide Added;
    var me := Added(members, rows);
    forall k | k in me && k.snapshot == s ensures k in members && me[k] == members[k] {
      IntegritySteps.AddedRows(members, rows, k);
    }
    forall k | k in members && k.snapshot == s ensures k in me && me[k] == members[k] {
      IntegritySteps.AddedRows(members, rows, k);
    }
  }

  lemma BumpCount(blobs: Blobs, hs: set<Hash>, h: Hash)
    requires h in blobs
    ensures h in Bump(blobs, hs) && Bump(blobs, hs)[h].refcount == blobs[h].refcount + Entry(h in hs)
  {
  }

  lemma ReleasePriorCount(blobs: Blobs, members: Members, prior: Option<SnapshotId>, now: Time, h: Hash)
    requires h in blobs
    ensures h in ReleasePrior(blobs, members, prior, now)
    ensures ReleasePrior(blobs, members, prior, now)[h].refcount
              == blobs[h].refcount - Entry(prior.Some? && h in PinSet(members, prior.value))
  {
    hide PinSet;
  }

  lemma CommitCurrents(suites: Suites, snapshots: Snapshots, key: SuiteKey, id: SnapshotId, s: SnapshotId)
    requires CurrentOk(suites, snapshots) && key in suites && id in snapshots && snapshots[id].adoptedAt.None?
    ensures id !in Currents(suites) && (suites[key].current.Some? ==> suites[key].current.value in Currents(suites))
    ensures var su := suites[key := suites[key].(current := Some(id))];
            s in Currents(su) <==> (s in Currents(suites) && suites[key].current != Some(s)) || id == s
  {
    var su := suites[key := suites[key].(current := Some(id))];
    if s in Currents(suites) && suites[key].current != Some(s) {
      var k :| k in suites && suites[k].current == Some(s);
      assert k in su && su[k].current == Some(s);
    }
    if id == s { assert key in su && su[key].current == Some(id); }
    if s in Currents(su) && s != id {
      var k :| k in su && su[k].current == Some(s);
      assert suites[k].current == Some(s);
    }
  }

  /** Pinning the new snapshot's blobs and releasing the prior one's follows the pointer flip. */
  lemma FlipCount(suites: Suites, snapshots: Snapshots, members: Members, me: Members, key: SuiteKey, id: SnapshotId,
                  blobs: Blobs, now: Time, h: Hash)
    requires CurrentOk(suites, snapshots) && key in suites && id in snapshots && snapshots[id].adoptedAt.None?
    requires h in blobs
    requires forall t :: t != id ==> PinSet(me, t) == PinSet(members, t)
    ensures var prior := suites[key].current;
            var su := suites[key := suites[key].(current := Some(id))];
            var after := ReleasePrior(Bump(blobs, PinSet(me, id)), me, prior, now);
            h in after && after[h].refcount - blobs[h].refcount == |Pinners(su, me, h)| - |Pinners(suites, members, h)|
  {
    hide CurrentOk, Pinners, PinSet, Currents, Bump, ReleasePrior;
    var prior := suites[key].current;
    var su := suites[key := suites[key].(current := Some(id))];
    forall t ensures (t in Currents(su) <==> (t in Currents(suites) && prior != Some(t)) || Some(id) == Some(t)) {
      CommitCurrents(suites, snapshots, key, id, t);
    }
    CommitCurrents(suites, snapshots, key, id, id);
    BumpCount(blobs, PinSet(me, id), h);
    ReleasePriorCount(Bump(blobs, PinSet(me, id)), me, prior, now, h);
    PinnersReplaced(suites, members, su, me, prior, Some(id), h);
  }

  lemma CommitCount(db: Db, id: SnapshotId, a: Adoption, now: Time, h: Hash)
    requires Inv(db) && CommitError(db, id, a).None? && h in db.blobs
    ensures var d := Committed(db, id, a, now);
            h in d.blobs && d.blobs[h].refcount - db.blobs[h].refcount == PinCount(d, h) - PinCount(db, h)
  {
    var rows := Keyed(id, a.members);
    assert forall i :: 0 <= i < |rows| ==> rows[i].0.snapshot == id;
    hide Inv, CurrentOk, Pinners, PinSet, Added, WarmRows, SeedAnchors, SignedHistory, AdoptionStamp, Bump,
         ReleasePrior, AllNew, Keyed, KeyedPackages, BlobsStored, WarmStored;
    CurrentsAreOk(db);
    var me := Added(db.members, rows);
    forall t | t != id ensures PinSet(me, t) == PinSet(db.members, t) { AddedPinSet(db.members, rows, id, t); }
    FlipCount(db.suites, db.snapshots, db.members, me, db.snapshots[id].key, id, db.blobs, now, h);
  }

  lemma CommitPins(db: Db, id: SnapshotId, a: Adoption, now: Time)
    requires Inv(db) && CommitError(db, id, a).None?
    ensures PinsMove(db, Committed(db, id, a, now))
  {
    hide Inv, CommitError, Committed, PinCount;
    forall h | h in db.blobs
      ensures h in Committed(db, id, a, now).blobs
      ensures Committed(db, id, a, now).blobs[h].refcount - db.blobs[h].refcount
              == PinCount(Committed(db, id, a, now), h) - PinCount(db, h)
    {
      CommitCount(db, id, a, now, h);
    }
    CommitBlobKeys(db, id, a, now);
  }

  lemma CurrentsAreOk(db: Db)
    requires Inv(db)
    ensures CurrentOk(db.suites, db.snapshots)
  {
  }

  lemma CommitBlobKeys(db: Db, id: SnapshotId, a: Adoption, now: Time)
    requires CommitError(db, id, a).None?
    ensures Committed(db, id, a, now).blobs.Keys == db.blobs.Keys
  {
    hide PinSet, Added, WarmRows, SeedAnchors, SignedHistory, AdoptionStamp, AllNew;
  }

  /** Deleting a suite row releases its current snapshot's pins. */
  lemma DeleteCurrents(suites: Suites, snapshots: Snapshots, key: SuiteKey, s: SnapshotId)
    requires CurrentOk(suites, snapshots) && key in suites
    ensures suites[key].current.Some? ==> suites[key].current.value in Currents(suites)
    ensures s in Currents(suites - {key}) <==> s in Currents(suites) && suites[key].current != Some(s)
  {
    if s in Currents(suites) && suites[key].current != Some(s) {
      var k :| k in suites && suites[k].current == Some(s);
      assert k in suites - {key};
    }
  }

  lemma DeleteSuitePins(db: Db, key: SuiteKey, now: Time)
    requires Inv(db) && key in db.suites
    ensures PinsMove(db, DeleteSuite(db, key, now))
  {
    var d := DeleteSuite(db, key, now);
    var prior := db.suites[key].current;
    assert d.blobs.Keys == db.blobs.Keys;
    hide Inv, Pinners, PinSet, Currents, CurrentOk, ReleasePrior, Retire, StampBase, MarkSeen, SuiteSigned;
    CurrentsAreOk(db);
    forall t ensures (t in Currents(d.suites) <==> (t in Currents(db.suites) && prior != Some(t)) || None == Some(t)) {
      DeleteCurrents(db.suites, db.snapshots, key, t);
    }
    DeleteCurrents(db.suites, db.snapshots, key, 0);
    forall h | h in db.blobs
      ensures h in d.blobs && d.blobs[h].refcount - db.blobs[h].refcount == PinCount(d, h) - PinCount(db, h)
    {
      ReleasePriorCount(db.blobs, db.members, prior, now, h);
      PinnersReplaced(db.suites, db.members, d.suites, d.members, prior, None, h);
    }
  }

  lemma ClearedCurrents(suites: Suites, id: SnapshotId, s: SnapshotId)
    ensures s in Currents(ClearCurrent(suites, id)) <==> s in Currents(suites) && s != id
  {
    var su := ClearCurrent(suites, id);
    if s in Currents(suites) && s != id {
      var k :| k in suites && suites[k].current == Some(s);
      assert k in su && su[k].current == Some(s);
    }
    if s in Currents(su) {
      var k :| k in su && su[k].current == Some(s);
      assert k in suites && suites[k].current == Some(s);
    }
  }

  lemma QuarantinePins(db: Db, id: SnapshotId, now: Time)
    ensures PinsMove(db, QuarantineSnapshot(db, id, now))
  {
    var d := QuarantineSnapshot(db, id, now);
    var gone := if IsCurrent(db.suites, id) then Some(id) else None;
    assert d.blobs.Keys == db.blobs.Keys && d.blobs == ReleasePrior(db.blobs, db.members, gone, now);
    hide Pinners, PinSet, Currents, ReleasePrior, Release, ClearCurrent;
    forall t ensures (t in Currents(d.suites) <==> (t in Currents(db.suites) && gone != Some(t)) || None == Some(t)) {
      ClearedCurrents(db.suites, id, t);
    }
    forall h | h in db.blobs
      ensures h in d.blobs && d.blobs[h].refcount - db.blobs[h].refcount == PinCount(d, h) - PinCount(db, h)
    {
      ReleasePriorCount(db.blobs, db.members, gone, now, h);
      PinnersReplaced(db.suites, db.members, d.suites, d.members, gone, None, h);
    }
  }

  // ----- members of a current snapshot -----

  /** The pinners of h when a current snapshot's members grow. */
  lemma PinnersGrow(suites: Suites, members: Members, me: Members, id: SnapshotId, h: Hash)
    requires id in Currents(suites) && (forall s :: s != id ==> PinSet(me, s) == PinSet(members, s))
    requires PinSet(members, id) <= PinSet(me, id)
    ensures |Pinners(suites, me, h)|
            == |Pinners(suites, members, h)| + Entry(h in PinSet(me, id) && h !in PinSet(members, id))
  {
    hide Currents, PinSet;
    var was := Pinners(suites, members, h);
    var add := if h in PinSet(me, id) && h !in PinSet(members, id) then {id} else {};
    assert Pinners(suites, me, h) == was + add && was !! add;
  }

  lemma PinOnceCount(blobs: Blobs, members: Members, id: SnapshotId, h: Hash, g: Hash)
    requires g in blobs
    ensures g in PinOnce(blobs, members, id, h)
    ensures PinOnce(blobs, members, id, h)[g].refcount == blobs[g].refcount + Entry(g == h && h !in PinSet(members, id))
  {
    hide PinSet;
  }

  lemma PinOnceKeys(blobs: Blobs, members: Members, id: SnapshotId, h: Hash)
    ensures PinOnce(blobs, members, id, h).Keys == blobs.Keys
  {
    hide PinSet;
  }

  lemma RepairedPinSet(members: Members, rows: seq<(MemberKey, Member)>, id: SnapshotId, h: Hash)
    requires rows != [] && NoConflict(members, rows)
    requires forall i :: 0 <= i < |rows| ==> rows[i].0.snapshot == id && rows[i].1 == Member(h, h)
    ensures PinSet(Added(members, rows), id) == PinSet(members, id) + {h}
  {
    hide Added;
    var me := Added(members, rows);
    forall g | g in PinSet(me, id) ensures g in PinSet(members, id) + {h} {
      var k :| k in me && k.snapshot == id && me[k].blob == g;
      IntegritySteps.AddedRows(members, rows, k);
    }
    forall g | g in PinSet(members, id) ensures g in PinSet(me, id) {
      var k :| k in members && k.snapshot == id && members[k].blob == g;
      IntegritySteps.AddedRows(members, rows, k);
      assert k in me && me[k].blob == g;
    }
    IntegritySteps.AddedRows(members, rows, rows[0].0);
    var k := rows[0].0;
    assert k in me && me[k].blob == h;
  }

  lemma RepairPins(db: Db, id: SnapshotId, path: string, rows: seq<(MemberKey, Member)>)
    requires RepairSkipped(db, id, path, rows).Ok?
    ensures PinsMove(db, RepairSkipped(db, id, path, rows).value)
  {
    hide PinOnce, PinSet, Added, Pinners, Currents, NoConflict;
    var d := RepairSkipped(db, id, path, rows).value;
    var h := db.skipped[MemberKey(id, path)];
    RepairedPinSet(db.members, rows, id, h);
    forall s | s != id ensures PinSet(d.members, s) == PinSet(db.members, s) { AddedPinSet(db.members, rows, id, s); }
    PinOnceKeys(db.blobs, db.members, id, h);
    forall g | g in db.blobs
      ensures g in d.blobs && d.blobs[g].refcount - db.blobs[g].refcount == PinCount(d, g) - PinCount(db, g)
    {
      PinOnceCount(db.blobs, db.members, id, h, g);
      PinnersGrow(db.suites, db.members, d.members, id, g);
    }
  }

  lemma NewMemberPinSet(members: Members, k: MemberKey, m: Member, s: SnapshotId)
    requires k !in members
    ensures PinSet(members[k := m], s) == if s == k.snapshot then PinSet(members, s) + {m.blob} else PinSet(members, s)
  {
    var me := members[k := m];
    forall g | g in PinSet(members, s) ensures g in PinSet(me, s) {
      var j :| j in members && j.snapshot == s && members[j].blob == g;
      assert j in me && me[j].blob == g;
    }
    if s == k.snapshot { assert k in me && me[k].blob == m.blob; }
  }

  /** The counts of a Pins pair move with the pinners. */
  ghost predicate PairMoves(suites: Suites, p: Pins, q: Pins) {
    && q.blobs.Keys == p.blobs.Keys
    && forall h :: h in p.blobs ==>
         q.blobs[h].refcount - p.blobs[h].refcount == |Pinners(suites, q.members, h)| - |Pinners(suites, p.members, h)|
  }

  lemma ReconcileMemberPins(suites: Suites, p: Pins, id: SnapshotId, row: (MemberKey, Member))
    requires IsCurrent(suites, id) && ReconcileMember(p, id, row).Ok?
    ensures PairMoves(suites, p, ReconcileMember(p, id, row).value)
  {
    hide PinOnce, PinSet, Pinners, Currents;
    var q := ReconcileMember(p, id, row).value;
    var (k, m) := row;
    if k !in p.members {
      PinOnceKeys(p.blobs, p.members, id, m.blob);
      forall s
        ensures PinSet(q.members, s) == if s == id then PinSet(p.members, s) + {m.blob} else PinSet(p.members, s) {
        NewMemberPinSet(p.members, k, m, s);
      }
      forall h | h in p.blobs
        ensures q.blobs[h].refcount - p.blobs[h].refcount
                == |Pinners(suites, q.members, h)| - |Pinners(suites, p.members, h)|
      {
        PinOnceCount(p.blobs, p.members, id, m.blob, h);
        PinnersGrow(suites, p.members, q.members, id, h);
      }
    }
  }

  lemma {:induction false} ReconcileMembersPins(suites: Suites, p: Pins, id: SnapshotId, rows: seq<(MemberKey, Member)>)
    requires IsCurrent(suites, id) && ReconcileMembers(p, id, rows).Ok?
    ensures PairMoves(suites, p, ReconcileMembers(p, id, rows).value)
    decreases |rows|
  {
    hide ReconcileMember, Pinners, Currents;
    if rows != [] {
      var q := ReconcileMember(p, id, rows[0]).value;
      ReconcileMemberPins(suites, p, id, rows[0]);
      ReconcileMembersPins(suites, q, id, rows[1..]);
    }
  }

  lemma ReconcilePins(db: Db, id: SnapshotId, rows: seq<(MemberKey, Member)>, packages: seq<(PackageKey, Package)>)
    requires Reconcile(db, id, rows, packages).Ok?
    ensures PinsMove(db, Reconcile(db, id, rows, packages).value)
  {
    hide ReconcileMembers, ReconcilePackages, Pinners, Currents;
    ReconcileMembersPins(db.suites, Pins(db.members, db.blobs), id, rows);
  }
}
