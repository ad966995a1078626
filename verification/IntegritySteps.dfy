/** The transactions over suites, snapshots and their rows keep the database sound. */
module IntegritySteps {
  import opened Text
  import opened Tables
  import opened Transactions
  import opened Integrity
  import NewestN
  import SuitePaths

  // ----- candidates -----

  lemma NewSnapshotKeeps(db: Db, s: Snapshot)
    requires Inv(db) && s.adoptedAt.None? && s.retiredAt.None? && AnchorBlobs(s.anchors) <= db.blobs.Keys
    requires s.anchors.Pair? <==> s.form.Detached?
    requires forall t :: t in db.snapshots ==> !SameNatural(db.snapshots[t], s.key, s.form, NaturalHash(s.anchors))
    ensures Inv(db.(snapshots := db.snapshots[db.nextId := s], nextId := db.nextId + 1))
  {
    hide UrlRefs, MemberRefs, ZeroedOk, GenerationsOk, AnchorBlobs;
    var (ss, id) := (db.snapshots[db.nextId := s], db.nextId);
    assert id !in db.snapshots;
    assert ss.Keys == db.snapshots.Keys + {id};
    forall a, b | a in ss && b in ss && ShareNatural(ss[a], ss[b]) ensures a == b {
      NaturalSymmetric(ss[a], ss[b]);
    }
    assert NaturalOk(ss);
    assert CurrentOk(db.suites, ss);
  }

  lemma NaturalSymmetric(s: Snapshot, t: Snapshot)
    ensures ShareNatural(s, t) <==> ShareNatural(t, s)
  {
  }

  lemma RefreshSnapshotKeeps(db: Db, id: SnapshotId, s: Snapshot)
    requires Inv(db) && id in db.snapshots && AnchorBlobs(s.anchors) <= db.blobs.Keys
    requires NaturalHash(s.anchors) == NaturalHash(db.snapshots[id].anchors)
    requires s.anchors.Pair? == db.snapshots[id].anchors.Pair?
    requires s == db.snapshots[id].(anchors := s.anchors, heartbeatAt := s.heartbeatAt)
    ensures Inv(db.(snapshots := db.snapshots[id := s]))
  {
    hide UrlRefs, MemberRefs, ZeroedOk, GenerationsOk, AnchorBlobs;
    var ss := db.snapshots[id := s];
    assert ss.Keys == db.snapshots.Keys;
    forall a, b | a in ss && b in ss && ShareNatural(ss[a], ss[b]) ensures a == b {
      assert ShareNatural(db.snapshots[a], db.snapshots[b]);
    }
    assert NaturalOk(ss);
  }

  ghost predicate CandidateFinds(db: Db, c: Candidate, existing: Option<SnapshotId>) {
    && (existing.Some? ==> existing.value in db.snapshots)
    && (CandidateForm(c).Ok? ==>
      FindsNatural(db.snapshots, c.key, CandidateForm(c).value, NaturalHash(AnchorsOf(c)), existing))
  }

  lemma InsertCandidateKeeps(db: Db, c: Candidate, existing: Option<SnapshotId>, now: Time)
    requires Inv(db) && CandidateFinds(db, c, existing)
    ensures Inv(Final(db, InsertCandidate(db, c, existing, now)))
  {
    hide Inv, AnchorBlobs;
    var r := InsertCandidate(db, c, existing, now);
    if r.Ok? {
      var (form, anchors) := (CandidateForm(c).value, AnchorsOf(c));
      if existing.None? {
        NewSnapshotKeeps(db, Snapshot(c.key, form, anchors, now, now, None, None));
      } else {
        FormsMatch(db, existing.value);
        RefreshSnapshotKeeps(db, existing.value, db.snapshots[existing.value].(anchors := anchors, heartbeatAt := now));
      }
    }
  }

  lemma FormsMatch(db: Db, id: SnapshotId)
    requires Inv(db) && id in db.snapshots
    ensures db.snapshots[id].anchors.Pair? <==> db.snapshots[id].form.Detached?
  {
  }

  lemma HeartbeatSnapshotKeeps(db: Db, id: SnapshotId, now: Time)
    requires Inv(db)
    ensures Inv(HeartbeatSnapshot(db, id, now))
  {
    if id in db.snapshots {
      assert AnchorBlobs(db.snapshots[id].anchors) <= db.blobs.Keys;
      hide Inv;
      RefreshSnapshotKeeps(db, id, db.snapshots[id].(heartbeatAt := now));
    }
  }

  // ----- inserted rows -----

  lemma {:induction false} AddedRows<K, V>(t: map<K, V>, rows: seq<(K, V)>, k: K)
    ensures k in Added(t, rows) <==> k in t || exists i :: 0 <= i < |rows| && rows[i].0 == k
    ensures k in Added(t, rows) ==>
            (k in t && Added(t, rows)[k] == t[k]) || exists i :: 0 <= i < |rows| && rows[i] == (k, Added(t, rows)[k])
    decreases |rows|
  {
    if rows != [] {
      var front := rows[..|rows| - 1];
      AddedRows(t, front, k);
      if i :| 0 <= i < |front| && front[i].0 == k { assert rows[i].0 == k; }
      if k in Added(t, front) {
        if i :| 0 <= i < |front| && front[i] == (k, Added(t, front)[k]) { assert rows[i] == front[i]; }
      }
      if rows[|rows| - 1].0 != k {
        forall i | 0 <= i < |rows| && rows[i].0 == k ensures exists j :: 0 <= j < |front| && front[j].0 == k {
          assert front[i].0 == k;
        }
      }
    }
  }

  lemma AddedMembersOk(members: Members, rows: seq<(MemberKey, Member)>, id: SnapshotId, hs: set<Hash>,
                       ids: set<SnapshotId>)
    requires MemberRefs(members, hs) && MembersHaveSnapshot(members, ids) && id in ids
    requires forall i :: 0 <= i < |rows| ==> rows[i].0.snapshot == id && rows[i].1.blob in hs
    ensures MemberRefs(Added(members, rows), hs) && MembersHaveSnapshot(Added(members, rows), ids)
  {
    hide Added;
    forall k | k in Added(members, rows) ensures Added(members, rows)[k].blob in hs && k.snapshot in ids {
      AddedRows(members, rows, k);
    }
  }

  lemma AddedSkippedOk(skipped: Skipped, rows: seq<(MemberKey, Hash)>, id: SnapshotId, ids: set<SnapshotId>)
    requires SkippedHaveSnapshot(skipped, ids) && id in ids && forall i :: 0 <= i < |rows| ==> rows[i].0.snapshot == id
    ensures SkippedHaveSnapshot(Added(skipped, rows), ids)
  {
    hide Added;
    forall k | k in Added(skipped, rows) ensures k.snapshot in ids { AddedRows(skipped, rows, k); }
  }

  lemma AddedPackagesOk(packages: Packages, rows: seq<(PackageKey, Package)>, id: SnapshotId, ids: set<SnapshotId>)
    requires PackagesHaveSnapshot(packages, ids) && id in ids && forall i :: 0 <= i < |rows| ==>
             rows[i].0.snapshot == id
    ensures PackagesHaveSnapshot(Added(packages, rows), ids)
  {
    hide Added;
    forall k | k in Added(packages, rows) ensures k.snapshot in ids { AddedRows(packages, rows, k); }
  }

  // ----- commit -----

  /** The snapshot and suite tables after a commit. */
  lemma FlipOk(suites: Suites, snapshots: Snapshots, id: SnapshotId, stamp: Time, hs: set<Hash>, next: SnapshotId,
               clock: nat)
    requires id in snapshots && snapshots[id].adoptedAt.None? && snapshots[id].retiredAt.None?
    requires snapshots[id].key in suites
    requires AnchorRefs(snapshots, hs) && FormsOk(snapshots) && NaturalOk(snapshots) && IdsOk(snapshots, next)
    requires CurrentOk(suites, snapshots) && GenerationsOk(suites, clock)
    ensures var s := snapshots[id];
            var (su, sn) :=
              (suites[s.key := suites[s.key].(current := Some(id))], snapshots[id := s.(adoptedAt := Some(stamp))]);
            && AnchorRefs(sn, hs) && FormsOk(sn) && NaturalOk(sn) && IdsOk(sn, next) && sn.Keys == snapshots.Keys
            && CurrentOk(su, sn) && GenerationsOk(su, clock)
  {
    hide AnchorBlobs;
    var s := snapshots[id];
    var (su, sn) :=
      (suites[s.key := suites[s.key].(current := Some(id))], snapshots[id := s.(adoptedAt := Some(stamp))]);
    assert sn.Keys == snapshots.Keys;
    forall a, b | a in sn && b in sn && ShareNatural(sn[a], sn[b]) ensures a == b {
      assert ShareNatural(snapshots[a], snapshots[b]);
    }
    assert NaturalOk(sn);
    assert CurrentOk(su, sn);
  }

  lemma FlipSigned(db: Db, id: SnapshotId, stamp: Time, now: Time)
    requires id in db.snapshots && db.snapshots[id].key in db.suites
    requires SignedOk(db.suites, db.snapshots, db.markers, db.queue)
    ensures var s := db.snapshots[id];
            SignedOk(db.suites[s.key := db.suites[s.key].(current := Some(id))],
              db.snapshots[id := s.(adoptedAt := Some(stamp))],
                     if s.form.Unsigned? then db.markers else MarkSeen(db.markers, MarkerOf(s.key), now), db.queue)
  {
    var s := db.snapshots[id];
    hide MarkerOf;
    assert db.suites[s.key := db.suites[s.key].(current := Some(id))].Keys == db.suites.Keys;
    assert db.markers.Keys <= MarkSeen(db.markers, MarkerOf(s.key), now).Keys;
  }

  lemma CommitFilesOk(db: Db, id: SnapshotId, a: Adoption, now: Time)
    requires Inv(db) && CommitError(db, id, a).None?
    ensures var d := Committed(db, id, a, now);
            && ZeroedOk(d.blobs) && d.blobs.Keys == db.blobs.Keys && UrlRefs(d.urls, d.blobs.Keys)
            && MemberRefs(d.members, d.blobs.Keys) && MembersHaveSnapshot(d.members, db.snapshots.Keys)
            && SkippedHaveSnapshot(d.skipped, db.snapshots.Keys) && PackagesHaveSnapshot(d.packages, db.snapshots.Keys)
  {
    hide NaturalOk, CurrentOk, SignedOk, GenerationsOk, IdsOk, FormsOk, UrlRefs, MemberRefs, ZeroedOk, Added, PinSet,
         WarmRows, SeedAnchors, Bump, ReleasePrior, AnchorNames, SignedHistory, AllNew, MembersHaveSnapshot,
         SkippedHaveSnapshot, PackagesHaveSnapshot, AdoptionStamp;
    var s := db.snapshots[id];
    var members := Added(db.members, Keyed(id, a.members));
    BumpOk(db.blobs, PinSet(members, id));
    ReleasePriorOk(Bump(db.blobs, PinSet(members, id)), members, db.suites[s.key].current, now);
    WarmRowsOk(db.urls, a.prefetched, now, db.blobs);
    SeedAnchorsOk(WarmRows(db.urls, a.prefetched, now), s, AnchorNames(s.form), now, db.blobs.Keys);
    AddedMembersOk(db.members, Keyed(id, a.members), id, db.blobs.Keys, db.snapshots.Keys);
    AddedSkippedOk(db.skipped, Keyed(id, a.skipped), id, db.snapshots.Keys);
    AddedPackagesOk(db.packages, KeyedPackages(id, a.packages), id, db.snapshots.Keys);
  }

  lemma CommitKeeps(db: Db, id: SnapshotId, a: Adoption, now: Time)
    requires Inv(db)
    ensures Inv(Final(db, CommitAdoption(db, id, a, now)))
  {
    hide NaturalOk, CurrentOk, SignedOk, GenerationsOk, IdsOk, FormsOk, UrlRefs, MemberRefs, AnchorRefs, ZeroedOk,
         Added, PinSet, WarmRows, SeedAnchors, Bump, ReleasePrior, AnchorNames, SignedHistory, AllNew, BlobsStored,
         WarmStored, Keyed, KeyedPackages, MembersHaveSnapshot, SkippedHaveSnapshot, PackagesHaveSnapshot;
    if CommitError(db, id, a).None? {
      var s := db.snapshots[id];
      var stamp := AdoptionStamp(db, s.key, now);
      CommitFilesOk(db, id, a, now);
      FlipOk(db.suites, db.snapshots, id, stamp, db.blobs.Keys, db.nextId, db.clock);
      FlipSigned(db, id, stamp, now);
    }
  }

  // ----- members of the current snapshot -----

  lemma PinOnceOk(blobs: Blobs, members: Members, id: SnapshotId, h: Hash)
    requires ZeroedOk(blobs)
    ensures ZeroedOk(PinOnce(blobs, members, id, h)) && PinOnce(blobs, members, id, h).Keys == blobs.Keys
  {
    BumpOk(blobs, {h});
  }

  lemma CurrentHasSnapshot(db: Db, id: SnapshotId)
    requires Inv(db) && IsCurrent(db.suites, id)
    ensures id in db.snapshots
  {
  }

  lemma RepairKeeps(db: Db, id: SnapshotId, path: string, rows: seq<(MemberKey, Member)>)
    requires Inv(db)
    ensures Inv(Final(db, RepairSkipped(db, id, path, rows)))
  {
    hide NaturalOk, CurrentOk, SignedOk, GenerationsOk, IdsOk, FormsOk, UrlRefs, MemberRefs, AnchorRefs, ZeroedOk,
         Added, PinOnce, NoConflict, IsCurrent, MembersHaveSnapshot, PackagesHaveSnapshot;
    if RepairSkipped(db, id, path, rows).Ok? {
      var h := db.skipped[MemberKey(id, path)];
      CurrentHasSnapshot(db, id);
      PinOnceOk(db.blobs, db.members, id, h);
      AddedMembersOk(db.members, rows, id, db.blobs.Keys, db.snapshots.Keys);
    }
  }

  lemma {:induction false} ReconcileMembersOk(p: Pins, id: SnapshotId, rows: seq<(MemberKey, Member)>,
                                              ids: set<SnapshotId>)
    requires MemberRefs(p.members, p.blobs.Keys) && MembersHaveSnapshot(p.members, ids) && ZeroedOk(p.blobs)
    requires id in ids
    ensures var r := ReconcileMembers(p, id, rows);
            r.Ok? ==> MemberRefs(r.value.members, p.blobs.Keys) && MembersHaveSnapshot(r.value.members, ids)
                      && ZeroedOk(r.value.blobs) && r.value.blobs.Keys == p.blobs.Keys
    decreases |rows|
  {
    hide PinOnce;
    if rows != [] {
      var q := ReconcileMember(p, id, rows[0]);
      PinOnceOk(p.blobs, p.members, id, rows[0].1.blob);
      if q.Ok? { ReconcileMembersOk(q.value, id, rows[1..], ids); }
    }
  }

  lemma {:induction false} ReconcilePackagesOk(packages: Packages, snapshots: Snapshots,
                                               rows: seq<(PackageKey, Package)>)
    requires PackagesHaveSnapshot(packages, snapshots.Keys)
    ensures var r := ReconcilePackages(packages, snapshots, rows);
            r.Ok? ==> PackagesHaveSnapshot(r.value, snapshots.Keys)
    decreases |rows|
  {
    if rows != [] {
      var q := ReconcilePackage(packages, snapshots, rows[0]);
      if q.Ok? { ReconcilePackagesOk(q.value, snapshots, rows[1..]); }
    }
  }

  lemma ReconcileKeeps(db: Db, id: SnapshotId, rows: seq<(MemberKey, Member)>, packages: seq<(PackageKey, Package)>)
    requires Inv(db)
    ensures Inv(Final(db, Reconcile(db, id, rows, packages)))
  {
    hide NaturalOk, CurrentOk, SignedOk, GenerationsOk, IdsOk, FormsOk, UrlRefs, MemberRefs, AnchorRefs, ZeroedOk,
         ReconcileMembers, ReconcilePackages, IsCurrent, MembersHaveSnapshot, PackagesHaveSnapshot;
    if Reconcile(db, id, rows, packages).Ok? {
      CurrentHasSnapshot(db, id);
      ReconcileMembersOk(Pins(db.members, db.blobs), id, rows, db.snapshots.Keys);
      ReconcilePackagesOk(db.packages, db.snapshots, packages);
    }
  }

  // ----- deleting suites -----

  lemma RetireOk(suites: Suites, snapshots: Snapshots, key: SuiteKey, now: Time, hs: set<Hash>, next: SnapshotId,
                 clock: nat)
    requires AnchorRefs(snapshots, hs) && FormsOk(snapshots) && NaturalOk(snapshots) && IdsOk(snapshots, next)
    requires CurrentOk(suites, snapshots) && GenerationsOk(suites, clock)
    ensures var (su, sn) := (suites - {key}, Retire(snapshots, key, now));
            && AnchorRefs(sn, hs) && FormsOk(sn) && NaturalOk(sn) && IdsOk(sn, next) && sn.Keys == snapshots.Keys
            && CurrentOk(su, sn) && GenerationsOk(su, clock)
  {
    hide AnchorBlobs;
    var (su, sn) := (suites - {key}, Retire(snapshots, key, now));
    forall a, b | a in sn && b in sn && ShareNatural(sn[a], sn[b]) ensures a == b {
      assert ShareNatural(snapshots[a], snapshots[b]);
    }
    assert NaturalOk(sn);
  }

  lemma RetireSigned(suites: Suites, snapshots: Snapshots, markers: Markers, queue: set<SnapshotId>, key: SuiteKey,
                     now: Time, after: Markers)
    requires SignedOk(suites, snapshots, markers, queue) && markers.Keys <= after.Keys
    ensures SignedOk(suites - {key}, Retire(snapshots, key, now), after, queue)
  {
    hide MarkerOf;
  }

  lemma DeleteMarkersGrow(db: Db, key: SuiteKey, now: Time)
    requires key in db.suites
    ensures db.markers.Keys <= DeleteSuite(db, key, now).markers.Keys
  {
    hide SuiteSigned, MarkerOf;
  }

  lemma DeleteSuiteKeeps(db: Db, key: SuiteKey, now: Time)
    requires Inv(db) && key in db.suites
    ensures Inv(DeleteSuite(db, key, now))
  {
    hide NaturalOk, CurrentOk, SignedOk, GenerationsOk, IdsOk, FormsOk, UrlRefs, MemberRefs, AnchorRefs, ZeroedOk,
         ReleasePrior, Retire, StampBase, SuiteSigned, MarkSeen;
    ReleasePriorOk(db.blobs, db.members, db.suites[key].current, now);
    RetireOk(db.suites, db.snapshots, key, now, db.blobs.Keys, db.nextId, db.clock);
    DeleteMarkersGrow(db, key, now);
    RetireSigned(db.suites, db.snapshots, db.markers, db.queue, key, now, DeleteSuite(db, key, now).markers);
  }

  lemma ReapSuiteKeeps(db: Db, key: SuiteKey, want: Option<SnapshotId>, cutoff: Option<Time>, now: Time)
    requires Inv(db)
    ensures Inv(ReapSuite(db, key, want, cutoff, now))
  {
    hide Inv, DeleteSuite;
    if DeleteCheck(db, key, want, cutoff).Deleted? { DeleteSuiteKeeps(db, key, now); }
  }

  /** A live signed snapshot's suite row keeps its base's markers from the sweep and from forgetting. */
  lemma RowAtBase(suites: Suites, key: SuiteKey, m: MarkerKey)
    requires key in suites && m == MarkerOf(key)
    ensures key in BaseRows(suites, m.host, m.base)
  {
    MarkerBaseTwin(key.path);
  }

  lemma UnmarkSigned(suites: Suites, snapshots: Snapshots, markers: Markers, queue: set<SnapshotId>, after: Markers)
    requires SignedOk(suites, snapshots, markers, queue)
    requires forall m :: m in markers && m !in after ==> BaseRows(suites, m.host, m.base) == {}
    ensures SignedOk(suites, snapshots, after, queue)
  {
    hide BaseRows, MarkerOf, LiveSigned;
    forall s | s in snapshots && LiveSigned(snapshots[s]) && s !in queue ensures MarkerOf(snapshots[s].key) in after {
      RowAtBase(suites, snapshots[s].key, MarkerOf(snapshots[s].key));
    }
  }

  lemma OnlyMarkersKeeps(db: Db, d: Db)
    requires Inv(db) && d == db.(markers := d.markers) && SignedOk(d.suites, d.snapshots, d.markers, d.queue)
    ensures Inv(d)
  {
    hide NaturalOk, CurrentOk, SignedOk, GenerationsOk, IdsOk, FormsOk, UrlRefs, MemberRefs, AnchorRefs, ZeroedOk;
  }

  lemma ForgetSuiteKeeps(db: Db, key: SuiteKey, want: Option<SnapshotId>, now: Time)
    requires Inv(db)
    ensures Inv(ForgetSuite(db, key, want, now))
  {
    hide DeleteSuite, DropKeys, BaseRows, SignedOk, BaseAnchors, UrlRefs, MemberRefs, AnchorRefs, ZeroedOk, NaturalOk,
         CurrentOk, GenerationsOk, IdsOk, FormsOk;
    if DeleteCheck(db, key, want, None).Deleted? {
      DeleteSuiteKeeps(db, key, now);
      var (d, base) := (DeleteSuite(db, key, now), MarkerBase(key.path));
      if BaseRows(d.suites, key.host, base) == {} {
        DropUrlsKeeps(d, BaseAnchors(key.host, base), now);
        var e := DropUrls(d, BaseAnchors(key.host, base), now);
        UnmarkSigned(e.suites, e.snapshots, e.markers, e.queue, Unmark(e.markers, key.host, base));
        OnlyMarkersKeeps(e, e.(markers := Unmark(e.markers, key.host, base)));
      }
    }
  }

  lemma SweepMarkersKeeps(db: Db, keys: set<MarkerKey>, cutoff: Time)
    requires Inv(db)
    ensures Inv(SweepMarkers(db, keys, cutoff))
  {
    hide BaseRows, SignedOk;
    var d := SweepMarkers(db, keys, cutoff);
    UnmarkSigned(db.suites, db.snapshots, db.markers, db.queue, d.markers);
    OnlyMarkersKeeps(db, d);
  }

  lemma MoreMarkersKeeps(db: Db, markers: Markers)
    requires Inv(db) && db.markers.Keys <= markers.Keys
    ensures Inv(db.(markers := markers))
  {
    hide BaseRows;
    UnmarkSigned(db.suites, db.snapshots, db.markers, db.queue, markers);
    OnlyMarkersKeeps(db, db.(markers := markers));
  }

  lemma {:induction false} MarkAllGrows(markers: Markers, marks: seq<(MarkerKey, Time)>)
    ensures markers.Keys <= MarkAll(markers, marks).Keys
    decreases |marks|
  {
    if marks != [] { MarkAllGrows(markers, marks[..|marks| - 1]); }
  }

  // ----- the legacy audit -----

  /** A snapshot leaves service: its pointer is cleared and it is retired. */
  lemma RetireOneOk(suites: Suites, snapshots: Snapshots, id: SnapshotId, now: Time, hs: set<Hash>, next: SnapshotId,
                    clock: nat)
    requires AnchorRefs(snapshots, hs) && FormsOk(snapshots) && NaturalOk(snapshots) && IdsOk(snapshots, next)
    requires CurrentOk(suites, snapshots) && GenerationsOk(suites, clock)
    requires id in snapshots && snapshots[id].retiredAt.None?
    ensures var (su, sn) := (ClearCurrent(suites, id), snapshots[id := snapshots[id].(retiredAt := Some(now))]);
            && AnchorRefs(sn, hs) && FormsOk(sn) && NaturalOk(sn) && IdsOk(sn, next) && sn.Keys == snapshots.Keys
            && CurrentOk(su, sn) && GenerationsOk(su, clock)
  {
    hide AnchorBlobs;
    var (su, sn) := (ClearCurrent(suites, id), snapshots[id := snapshots[id].(retiredAt := Some(now))]);
    assert sn.Keys == snapshots.Keys;
    forall a, b | a in sn && b in sn && ShareNatural(sn[a], sn[b]) ensures a == b {
      assert ShareNatural(snapshots[a], snapshots[b]);
    }
    assert NaturalOk(sn);
    assert CurrentOk(su, sn);
  }

  lemma NotCurrentUnchanged(suites: Suites, snapshots: Snapshots, id: SnapshotId)
    requires CurrentOk(suites, snapshots) && (id !in snapshots || snapshots[id].retiredAt.Some?)
    ensures ClearCurrent(suites, id) == suites && !IsCurrent(suites, id)
  {
    forall k | k in suites ensures ClearCurrent(suites, id)[k] == suites[k] {}
    assert ClearCurrent(suites, id) == suites;
  }

  lemma QuarantineKeeps(db: Db, id: SnapshotId, now: Time)
    requires Inv(db)
    ensures Inv(QuarantineSnapshot(db, id, now))
    ensures var q := QuarantineSnapshot(db, id, now).snapshots;
            forall s :: s in q && LiveSigned(q[s]) ==> s != id
  {
    hide NaturalOk, CurrentOk, GenerationsOk, IdsOk, FormsOk, UrlRefs, MemberRefs, AnchorRefs, ZeroedOk, IsCurrent,
         Release, PinSet, MarkerOf;
    ReleaseOk(db.blobs, PinSet(db.members, id), now);
    if id in db.snapshots && db.snapshots[id].retiredAt.None? {
      RetireOneOk(db.suites, db.snapshots, id, now, db.blobs.Keys, db.nextId, db.clock);
      assert ClearCurrent(db.suites, id).Keys == db.suites.Keys;
    } else {
      NotCurrentUnchanged(db.suites, db.snapshots, id);
    }
  }

  /** Leaving the queue is safe for a snapshot that is not live and signed, or whose base is marked. */
  lemma DequeueKeeps(db: Db, id: SnapshotId)
    requires Inv(db)
    requires id in db.snapshots && LiveSigned(db.snapshots[id]) ==> MarkerOf(db.snapshots[id].key) in db.markers
    ensures Inv(db.(queue := db.queue - {id}))
  {
    hide NaturalOk, CurrentOk, GenerationsOk, IdsOk, FormsOk, UrlRefs, MemberRefs, AnchorRefs, ZeroedOk, MarkerOf;
  }

  lemma MarkBaseMarks(db: Db, id: SnapshotId)
    requires Inv(db)
    ensures db.markers.Keys <= MarkSnapshotBase(db, id).Keys
    ensures id in db.snapshots && LiveSigned(db.snapshots[id]) ==>
            MarkerOf(db.snapshots[id].key) in MarkSnapshotBase(db, id)
  {
    hide NaturalOk, CurrentOk, GenerationsOk, IdsOk, FormsOk, UrlRefs, MemberRefs, AnchorRefs, ZeroedOk, MarkerOf;
  }

  lemma DecideKeeps(db: Db, d: Decision, now: Time)
    requires Inv(db) && (d.Drop? ==> d.id !in db.snapshots)
    ensures Inv(Decide(db, d, now)) && Decide(db, d, now).snapshots.Keys == db.snapshots.Keys
  {
    hide Inv, MarkSnapshotBase, QuarantineSnapshot, DropUrls, MarkerOf, LiveSigned;
    match d
    case Keep(id) =>
      MarkBaseMarks(db, id);
      MoreMarkersKeeps(db, MarkSnapshotBase(db, id));
      DequeueKeeps(db.(markers := MarkSnapshotBase(db, id)), id);
    case Drop(id) =>
      DequeueKeeps(db, id);
    case Quarantine(id, signed, dropRows) =>
      var q := QuarantineSnapshot(db, id, now);
      QuarantineKeeps(db, id, now);
      QuarantineSnapshots(db, id, now);
      var r := if dropRows then DropUrls(q, AnchorRows(q, id), now) else q;
      DropUrlsKeeps(q, AnchorRows(q, id), now);
      DropUrlsSnapshots(q, AnchorRows(q, id), now);
      MarkBaseMarks(r, id);
      var markers := if signed then MarkSnapshotBase(r, id) else r.markers;
      MoreMarkersKeeps(r, markers);
      DequeueKeeps(r.(markers := markers), id);
  }

  lemma QuarantineSnapshots(db: Db, id: SnapshotId, now: Time)
    ensures QuarantineSnapshot(db, id, now).snapshots.Keys == db.snapshots.Keys
  {
    hide ClearCurrent, IsCurrent, Release, PinSet;
  }

  lemma DropUrlsSnapshots(db: Db, ks: set<UrlKey>, now: Time)
    ensures DropUrls(db, ks, now).snapshots == db.snapshots
  {
    hide DropKeys;
  }

  ghost predicate DropsMissing(db: Db, ds: seq<Decision>) {
    forall i :: 0 <= i < |ds| && ds[i].Drop? ==> ds[i].id !in db.snapshots
  }

  lemma {:induction false} DecideAllKeeps(db: Db, ds: seq<Decision>, now: Time)
    requires Inv(db) && DropsMissing(db, ds)
    ensures Inv(DecideAll(db, ds, now))
    decreases |ds|
  {
    hide Inv, Decide;
    if ds != [] {
      DecideKeeps(db, ds[0], now);
      DecideAllKeeps(Decide(db, ds[0], now), ds[1..], now);
    }
  }

  lemma EnqueueKeeps(db: Db, ids: set<SnapshotId>)
    requires Inv(db)
    ensures Inv(db.(queue := db.queue + ids))
  {
    hide NaturalOk, CurrentOk, GenerationsOk, IdsOk, FormsOk, UrlRefs, MemberRefs, AnchorRefs, ZeroedOk, MarkerOf;
  }

  // ----- suite rows -----

  /** A row change that leaves the pointer alone, or a new row without one. */
  lemma RowKeeps(db: Db, key: SuiteKey, row: SuiteRow, clock: nat)
    requires Inv(db) && row.current == (if key in db.suites then db.suites[key].current else None)
    requires row.generation <= clock && db.clock <= clock
    ensures Inv(db.(suites := db.suites[key := row], clock := clock))
  {
    hide NaturalOk, IdsOk, FormsOk, UrlRefs, MemberRefs, AnchorRefs, ZeroedOk, MarkerOf, LiveSigned;
    var su := db.suites[key := row];
    assert CurrentOk(su, db.snapshots);
    assert db.suites.Keys <= su.Keys;
  }

  lemma InsertSuiteKeeps(db: Db, seed: Seed, rowid: nat)
    requires Inv(db) && seed.key !in db.suites
    ensures Inv(InsertSuite(db, seed, rowid))
  {
    hide Inv, SeenAt, MarkerOf;
    var row := SuiteRow(rowid, db.clock + 1, None, Some(seed.requestedAt));
    RowKeeps(db, seed.key, row, db.clock + 1);
    var d := db.(suites := db.suites[seed.key := row], clock := db.clock + 1);
    MoreMarkersKeeps(d, InsertSuite(db, seed, rowid).markers);
  }

  lemma CreateSuiteKeeps(db: Db, seed: Seed, caps: Caps, held: Option<SuiteKey>, rowid: nat, now: Time)
    requires Inv(db)
    ensures Inv(CreateSuite(db, seed, caps, held, rowid, now).db)
  {
    hide Inv, InsertSuite, DeleteSuite, HostRows;
    if held.Some? && held.value in db.suites {
      DeleteSuiteKeeps(db, held.value, now);
      DeleteSuiteRows(db, held.value, now);
      if seed.key !in db.suites { InsertSuiteKeeps(DeleteSuite(db, held.value, now), seed, rowid); }
    }
    if seed.key !in db.suites { InsertSuiteKeeps(db, seed, rowid); }
  }

  lemma DeleteSuiteRows(db: Db, key: SuiteKey, now: Time)
    requires key in db.suites
    ensures DeleteSuite(db, key, now).suites == db.suites - {key}
  {
    hide ReleasePrior, Retire, StampBase, SuiteSigned, MarkSeen;
  }

  lemma StoreFetchedKeeps(db: Db, f: Fetched, caps: Caps, held: Option<SuiteKey>, rowid: nat, now: Time)
    requires Inv(db)
    ensures StoreFetched(db, f, caps, held, rowid, now).Ok? ==>
            Inv(StoreFetched(db, f, caps, held, rowid, now).value.db)
  {
    hide Inv, CreateSuite, PutUrl, MarkerOf;
    var put := PutUrl(db, f.k, f.row);
    PutUrlKeeps(db, f.k, f.row);
    if put.Ok? {
      if f.create.Some? { CreateSuiteKeeps(put.value, f.create.value, caps, held, rowid, now); }
      var c := if f.create.Some? then CreateSuite(put.value, f.create.value, caps, held, rowid, now)
               else Creation(put.value, NotTried, false, false, false);
      if f.suite.Some? { MoreMarkersKeeps(c.db, MarkSeen(c.db.markers, MarkerOf(f.suite.value), f.markSeenAt)); }
    }
  }

  lemma InvalidateKeeps(db: Db, key: SuiteKey, anchor: string, was: Hash, now: Time)
    requires Inv(db)
    ensures Inv(Final(db, InvalidateLegacy(db, key, anchor, was, now)))
  {
    hide Inv, DropKeys, LegacyRows, SuitePaths.IsCanonical;
    if InvalidateLegacy(db, key, anchor, was, now).Ok? {
      var d := DropUrls(db, LegacyRows(db.urls, key), now);
      DropUrlsKeeps(db, LegacyRows(db.urls, key), now);
      assert d.suites == db.suites && d.clock == db.clock;
      RowKeeps(d, key, db.suites[key].(generation := db.clock + 1), db.clock + 1);
    }
  }

  lemma TouchSuiteKeeps(db: Db, key: SuiteKey, now: Time)
    requires Inv(db)
    ensures Inv(TouchSuite(db, key, now))
  {
    if key in db.suites {
      assert db.suites[key].generation <= db.clock;
      hide Inv;
      RowKeeps(db, key, db.suites[key].(lastRequested := Some(now)), db.clock);
    }
  }

  // ----- snapshot collection -----

  lemma RemoveSnapshotsKeeps(db: Db, ids: set<SnapshotId>)
    requires Inv(db) && forall s :: s in ids ==> !IsCurrent(db.suites, s)
    ensures Inv(RemoveSnapshots(db, ids))
  {
    hide UrlRefs, ZeroedOk, GenerationsOk, AnchorBlobs, MarkerOf, LiveSigned, RemoveSnapshots;
    var d := RemoveSnapshots(db, ids);
    RemovedTables(db, ids);
    SubSnapshotsOk(db.suites, db.snapshots, d.snapshots);
    assert MemberRefs(d.members, db.blobs.Keys);
    forall k | k in db.suites && db.suites[k].current.Some? ensures db.suites[k].current.value in d.snapshots {
      assert IsCurrent(db.suites, db.suites[k].current.value);
    }
  }

  lemma RemovedTables(db: Db, ids: set<SnapshotId>)
    requires Inv(db)
    ensures var d := RemoveSnapshots(db, ids);
            && d == db.(members := d.members, skipped := d.skipped, packages := d.packages,
              snapshots := db.snapshots - ids)
            && (forall m :: m in d.members ==> m in db.members && d.members[m] == db.members[m])
            && MembersHaveSnapshot(d.members, d.snapshots.Keys) && SkippedHaveSnapshot(d.skipped, d.snapshots.Keys)
            && PackagesHaveSnapshot(d.packages, d.snapshots.Keys)
  {
    hide NaturalOk, CurrentOk, SignedOk, GenerationsOk, IdsOk, FormsOk, UrlRefs, MemberRefs, AnchorRefs, ZeroedOk;
  }

  lemma SubSnapshotsOk(suites: Suites, snapshots: Snapshots, sub: Snapshots)
    requires NaturalOk(snapshots) && forall s :: s in sub ==> s in snapshots && sub[s] == snapshots[s]
    ensures NaturalOk(sub)
  {
  }

  lemma CollectSnapshotsKeeps(db: Db, ids: set<SnapshotId>, cutoff: Time, keep: nat)
    requires Inv(db) && ids <= Collectable(db, cutoff, keep)
    ensures Inv(RemoveSnapshots(db, ids))
  {
    hide Inv, RemoveSnapshots, DisplacedBefore;
    RemoveSnapshotsKeeps(db, ids);
  }

  lemma LastChunkRemoves(db: Db, c: Chunk, limit: nat)
    requires IsChunk(db, c, limit) && c.header
    ensures DrainChunk(db, c) == RemoveSnapshots(db, {c.id})
  {
    ChunkIsLast(db, c, limit);
    hide IsChunk;
    var (d, r) := (DrainChunk(db, c), RemoveSnapshots(db, {c.id}));
    assert d.members == r.members;
    assert d.skipped == r.skipped;
    assert d.packages == r.packages;
  }

  lemma DrainKeeps(db: Db, c: Chunk, limit: nat)
    requires Inv(db) && IsChunk(db, c, limit)
    ensures Inv(DrainChunk(db, c))
  {
    hide Inv, RemoveSnapshots;
    if c.header {
      LastChunkRemoves(db, c, limit);
      RemoveSnapshotsKeeps(db, {c.id});
    } else {
      FewerRowsKeeps(db, c);
    }
  }

  lemma FewerRowsKeeps(db: Db, c: Chunk)
    requires Inv(db)
    ensures Inv(db.(members := db.members - c.members, skipped := db.skipped - c.skipped,
            packages := db.packages - c.packages))
  {
    hide NaturalOk, CurrentOk, SignedOk, GenerationsOk, IdsOk, FormsOk, UrlRefs, AnchorRefs, ZeroedOk;
  }

  lemma WholeTake<T>(chosen: set<T>, all: set<T>, n: int)
    requires Takes(chosen, all, n) && n - |chosen| > 0
    ensures chosen == all
  {
    NewestN.SubsetSize(chosen, all);
    assert all == chosen + (all - chosen);
  }

  /** A header goes only in a chunk that takes every child row left. */
  lemma ChunkIsLast(db: Db, c: Chunk, limit: nat)
    requires IsChunk(db, c, limit) && c.header
    ensures c.members == MembersOf(db.members, c.id) && c.skipped == SkippedOf(db.skipped, c.id)
    ensures c.packages == PackagesOf(db.packages, c.id)
  {
    hide IsDrainable;
    WholeTake(c.members, MembersOf(db.members, c.id), limit);
    WholeTake(c.skipped, SkippedOf(db.skipped, c.id), limit - |c.members|);
    WholeTake(c.packages, PackagesOf(db.packages, c.id), limit - |c.members| - |c.skipped|);
  }
}
