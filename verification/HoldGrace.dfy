/** The hold grace over runs: the collector deletes a row only a whole hold window after an evaluation found it
    not retained, with nothing in between that retained or re-established it. */
module HoldGrace {
  import opened Text
  import opened Tables
  import opened Retention
  import opened Transactions
  import opened Integrity
  import opened Runs
  import opened Footprints
  import IntegritySteps
  import SuitePaths

  /** No row gains or changes a drop stamp. */
  ghost predicate NoNewStamps(urls: Urls, after: Urls) { forall k :: k in after ==> StampKept(urls, after, k) }

  predicate StampKept(urls: Urls, after: Urls, k: UrlKey)
    requires k in after
  {
    after[k].droppedAt.Some? ==> k in urls && urls[k].droppedAt == after[k].droppedAt
  }

  /** A row's stamp, if it has one. */
  function StampOf(urls: Urls, k: UrlKey): Option<Time> { if k in urls then urls[k].droppedAt else None }

  lemma SameUrls(urls: Urls)
    ensures NoNewStamps(urls, urls)
  {
  }

  lemma StampsTwice(a: Urls, b: Urls, c: Urls)
    requires NoNewStamps(a, b) && NoNewStamps(b, c)
    ensures NoNewStamps(a, c)
  {
    forall k | k in c ensures StampKept(a, c, k) {
      assert StampKept(b, c, k);
      if c[k].droppedAt.Some? { assert StampKept(a, b, k); }
    }
  }

  lemma DropStamps(db: Db, ks: set<UrlKey>, now: Time)
    ensures NoNewStamps(db.urls, DropUrls(db, ks, now).urls)
  {
    hide Lowered, Naming;
  }

  lemma {:induction false} WarmStamps(urls: Urls, rows: seq<(UrlKey, Hash)>, now: Time)
    ensures NoNewStamps(urls, WarmRows(urls, rows, now))
    ensures forall i :: 0 <= i < |rows| ==> StampOf(WarmRows(urls, rows, now), rows[i].0) == None
    decreases |rows|
  {
    if rows != [] {
      var front := rows[..|rows| - 1];
      WarmStamps(urls, front, now);
      forall i | 0 <= i < |rows| - 1 ensures StampOf(WarmRows(urls, front, now), rows[i].0) == None {
        assert front[i] == rows[i];
      }
    }
  }

  lemma {:induction false} SeedStamps(urls: Urls, s: Snapshot, names: seq<string>, now: Time)
    ensures NoNewStamps(urls, SeedAnchors(urls, s, names, now))
    ensures forall i :: 0 <= i < |names| && AnchorHash(s.form, names[i], s.anchors).Some? ==>
              StampOf(SeedAnchors(urls, s, names, now), AnchorUrl(s.key, names[i])) == None
    decreases |names|
  {
    hide AnchorHash, AnchorUrl;
    if names != [] {
      var front := names[..|names| - 1];
      SeedStamps(urls, s, front, now);
      forall i | 0 <= i < |names| - 1 && AnchorHash(s.form, names[i], s.anchors).Some?
        ensures StampOf(SeedAnchors(urls, s, front, now), AnchorUrl(s.key, names[i])) == None
      {
        assert front[i] == names[i];
      }
    }
  }

  lemma StampStays(urls: Urls, after: Urls, k: UrlKey)
    requires NoNewStamps(urls, after) && StampOf(urls, k) == None
    ensures StampOf(after, k) == None
  {
    if k in after { assert StampKept(urls, after, k); }
  }

  lemma CommitUrls(db: Db, id: SnapshotId, a: Adoption, now: Time)
    requires CommitError(db, id, a).None?
    ensures var s := db.snapshots[id];
            Committed(db, id, a, now).urls
              == SeedAnchors(WarmRows(db.urls, a.prefetched, now), s, AnchorNames(s.form), now)
  {
    hide Added, WarmRows, SeedAnchors, AdoptionStamp, Bump, ReleasePrior, PinSet, AnchorNames, MarkSeen, SignedHistory,
         AllNew, BlobsStored, WarmStored, Keyed, KeyedPackages;
  }

  lemma CommitStamps(db: Db, id: SnapshotId, a: Adoption, now: Time)
    ensures NoNewStamps(db.urls, Final(db, CommitAdoption(db, id, a, now)).urls)
    ensures CommitError(db, id, a).None? ==> forall i :: 0 <= i < |a.prefetched| ==>
              StampOf(Final(db, CommitAdoption(db, id, a, now)).urls, a.prefetched[i].0) == None
  {
    hide CommitError, Committed, WarmRows, SeedAnchors, NoNewStamps, AnchorNames;
    if CommitError(db, id, a).None? {
      CommitHasSnapshot(db, id, a);
      var (s, warm) := (db.snapshots[id], WarmRows(db.urls, a.prefetched, now));
      CommitUrls(db, id, a, now);
      WarmStamps(db.urls, a.prefetched, now);
      SeedStamps(warm, s, AnchorNames(s.form), now);
      StampsTwice(db.urls, warm, SeedAnchors(warm, s, AnchorNames(s.form), now));
      forall i | 0 <= i < |a.prefetched|
        ensures StampOf(SeedAnchors(warm, s, AnchorNames(s.form), now), a.prefetched[i].0) == None {
        StampStays(warm, SeedAnchors(warm, s, AnchorNames(s.form), now), a.prefetched[i].0);
      }
    } else {
      SameUrls(db.urls);
    }
  }

  lemma CommitHasSnapshot(db: Db, id: SnapshotId, a: Adoption)
    requires CommitError(db, id, a).None?
    ensures id in db.snapshots
  {
  }

  lemma ForgetStamps(db: Db, key: SuiteKey, want: Option<SnapshotId>, now: Time)
    ensures NoNewStamps(db.urls, ForgetSuite(db, key, want, now).urls)
  {
    hide DeleteSuite, BaseAnchors, BaseRows, Unmark, Naming, Lowered;
    if key in db.suites { DeleteFrame(db, key, now); }
  }

  lemma {:induction false} DecideAllStamps(db: Db, ds: seq<Decision>, now: Time)
    ensures NoNewStamps(db.urls, DecideAll(db, ds, now).urls)
    decreases |ds|
  {
    hide Decide, NoNewStamps;
    if ds == [] {
      SameUrls(db.urls);
    } else {
      var e := Decide(db, ds[0], now);
      DecideStamps(db, ds[0], now);
      DecideAllStamps(e, ds[1..], now);
      StampsTwice(db.urls, e.urls, DecideAll(e, ds[1..], now).urls);
    }
  }

  lemma DecideStamps(db: Db, d: Decision, now: Time)
    ensures NoNewStamps(db.urls, Decide(db, d, now).urls)
  {
    hide DropUrls, ClearCurrent, Release, PinSet, IsCurrent, MarkSnapshotBase;
    if d.Quarantine? {
      DropStamps(QuarantineSnapshot(db, d.id, now), AnchorRows(QuarantineSnapshot(db, d.id, now), d.id), now);
    }
  }

  lemma StoreStamps(db: Db, f: Fetched, caps: Caps, held: Option<SuiteKey>, rowid: nat, now: Time)
    ensures var r := StoreFetched(db, f, caps, held, rowid, now);
            r.Ok? ==> NoNewStamps(db.urls, r.value.db.urls) && StampOf(r.value.db.urls, f.k) == None
  {
    hide CreateSuite, MarkSeen;
    if PutUrl(db, f.k, f.row).Ok? && f.create.Some? {
      CreateFrame(PutUrl(db, f.k, f.row).value, f.create.value, caps, held, rowid, now);
    }
  }

  lemma InvalidateStamps(db: Db, key: SuiteKey, anchor: string, was: Hash, now: Time)
    ensures NoNewStamps(db.urls, Final(db, InvalidateLegacy(db, key, anchor, was, now)).urls)
  {
    hide DropUrls, LegacyRows, SuitePaths.IsCanonical, NoNewStamps;
    DropStamps(db, LegacyRows(db.urls, key), now);
    SameUrls(db.urls);
  }

  lemma OneRowStamps(urls: Urls, k: UrlKey, row: UrlRow)
    requires row.droppedAt.Some? ==> k in urls && row.droppedAt == urls[k].droppedAt
    ensures NoNewStamps(urls, urls[k := row])
  {
  }

  lemma PutStamps(db: Db, k: UrlKey, row: UrlRow)
    ensures NoNewStamps(db.urls, Final(db, PutUrl(db, k, row)).urls)
  {
    hide NoNewStamps;
    OneRowStamps(db.urls, k, row.(droppedAt := None));
    SameUrls(db.urls);
  }

  lemma TouchStamps(db: Db, k: UrlKey, now: Time)
    ensures NoNewStamps(db.urls, TouchUrl(db, k, now).urls)
  {
    hide NoNewStamps;
    SameUrls(db.urls);
    if k in db.urls { OneRowStamps(db.urls, k, TouchUrl(db, k, now).urls[k]); }
  }

  lemma RefreshStamps(db: Db, k: UrlKey, was: Hash, new_: Hash, now: Time)
    ensures NoNewStamps(db.urls, Final(db, RefreshUrl(db, k, was, new_, now)).urls)
  {
    hide NoNewStamps;
    SameUrls(db.urls);
    var d := Final(db, RefreshUrl(db, k, was, new_, now));
    if k in db.urls { OneRowStamps(db.urls, k, d.urls[k]); }
  }

  /** Only the collector stamps rows. */
  lemma OnlyCollectorStamps(db: Db, op: Op)
    requires Enabled(db, op)
    ensures op.event.CollectsUrls? || NoNewStamps(db.urls, Apply(db, op).urls)
  {
    hide CommitAdoption, ReapSuite, ForgetSuite, SweepMarkers, MarkAll, DecideAll, CreateSuite, StoreFetched,
         InvalidateLegacy, Reapable, Collectable, IsChunk, IntegritySteps.CandidateFinds, IntegritySteps.DropsMissing,
         PutBlob, HeartbeatBlobs, ReapBlobs, PutUrl, TouchUrl, RefreshUrl, DropUrls, CollectUrls, InsertCandidate,
         HeartbeatSnapshot, RepairSkipped, Reconcile, TouchSuite, RemoveSnapshots, DrainChunk, NoNewStamps;
    var now := op.now;
    match op.event
    case PutsUrl(k, row) => PutStamps(db, k, row);
    case TouchesUrl(k) => TouchStamps(db, k, now);
    case RefreshesUrl(k, was, new_) => RefreshStamps(db, k, was, new_, now);
    case DropsUrls(ks) => DropStamps(db, ks, now);
    case CollectsUrls(ks, p) =>
    case Commits(id, a) => CommitStamps(db, id, a, now);
    case Forgets(key, want) => ForgetStamps(db, key, want, now);
    case Audits(ds) => DecideAllStamps(db, ds, now);
    case Stores(f, caps, held, rowid) =>
      StoreStamps(db, f, caps, held, rowid, now);
      SameUrls(db.urls);
    case Invalidates(key, anchor, was) => InvalidateStamps(db, key, anchor, was, now);
    case _ =>
      UrlsFixed(db, op);
      SameUrls(db.urls);
  }

  // ----- evaluations -----

  /** Operation i is a batch that evaluates the row at k, and finds it retained or not. */
  ghost predicate EvaluatesAt(dbs: seq<Db>, ops: seq<Op>, i: nat, k: UrlKey, retained: bool)
    requires |dbs| == |ops| + 1 && i < |ops|
  {
    ops[i].event.CollectsUrls? && k in ops[i].event.urls && k in dbs[i].urls
    && Retained(CatalogOf(dbs[i]), k, dbs[i].urls[k], ops[i].event.pass.cutoff, ops[i].event.pass.versions) == retained
  }

  /** Operation i re-establishes the row at k: a touch, a store or put, or an adoption that warms or seeds it. */
  ghost predicate ReestablishesAt(dbs: seq<Db>, ops: seq<Op>, i: nat, k: UrlKey)
    requires |dbs| == |ops| + 1 && i < |ops|
  {
    match ops[i].event
    case TouchesUrl(u) => u == k && k in dbs[i].urls
    case PutsUrl(u, row) => u == k && PutUrl(dbs[i], u, row).Ok?
    case Stores(f, caps, held, rowid) => f.k == k && StoreFetched(dbs[i], f, caps, held, rowid, ops[i].now).Ok?
    case Commits(id, a) => CommitError(dbs[i], id, a).None? && (Warms(a, k) || Seeds(dbs[i].snapshots, id, k))
    case _ => false
  }

  predicate Warms(a: Adoption, k: UrlKey) { exists i :: 0 <= i < |a.prefetched| && a.prefetched[i].0 == k }

  predicate Seeds(snapshots: Snapshots, id: SnapshotId, k: UrlKey) {
    id in snapshots && exists i ::
      0 <= i < |AnchorNames(snapshots[id].form)| && SeedsName(snapshots[id], AnchorNames(snapshots[id].form)[i], k)
  }

  predicate SeedsName(s: Snapshot, name: string, k: UrlKey) {
    k == AnchorUrl(s.key, name) && AnchorHash(s.form, name, s.anchors).Some?
  }

  lemma CommitClears(db: Db, id: SnapshotId, a: Adoption, now: Time, k: UrlKey)
    requires CommitError(db, id, a).None? && (Warms(a, k) || Seeds(db.snapshots, id, k))
    ensures StampOf(Final(db, CommitAdoption(db, id, a, now)).urls, k) == None
  {
    hide CommitError, Committed, WarmRows, SeedAnchors, AnchorNames, AnchorHash, AnchorUrl;
    CommitStamps(db, id, a, now);
    if !Warms(a, k) {
      CommitUrls(db, id, a, now);
      SeedStamps(WarmRows(db.urls, a.prefetched, now), db.snapshots[id], AnchorNames(db.snapshots[id].form), now);
    }
  }

  lemma CollectStamps(db: Db, ks: set<UrlKey>, p: Pass, k: UrlKey)
    ensures var (d, c) := (CollectUrls(db, ks, p), CatalogOf(db));
            && (k in d.urls <==> k in db.urls && !(k in ks && Deletes(c, k, db.urls[k], p)))
            && (k in d.urls ==> d.urls[k] == if k in ks then Settled(c, k, db.urls[k], p) else db.urls[k])
  {
    hide Sweep, Deletes, Settled;
    SweepUrls(Files(db.urls, db.blobs), CatalogOf(db), ks, p, k);
  }

  /** Re-establishing a row, or evaluating it as retained, leaves it without a stamp. */
  lemma Clears(dbs: seq<Db>, ops: seq<Op>, i: nat, k: UrlKey)
    requires Run(dbs, ops) && i < |ops| && (ReestablishesAt(dbs, ops, i, k) || EvaluatesAt(dbs, ops, i, k, true))
    ensures StampOf(dbs[i + 1].urls, k) == None
  {
    hide Enabled, CommitAdoption, StoreFetched, CollectUrls, CommitError, Retained, Warms, Seeds;
    assert StepsAt(dbs, ops, i);
    var (db, now) := (dbs[i], ops[i].now);
    match ops[i].event
    case TouchesUrl(u) =>
    case PutsUrl(u, row) =>
    case Stores(f, caps, held, rowid) => StoreStamps(db, f, caps, held, rowid, now);
    case Commits(id, a) => CommitClears(db, id, a, now, k);
    case CollectsUrls(ks, p) => CollectStamps(db, ks, p, k);
    case _ =>
  }

  // ----- the stamp's origin -----

  /** The row was stamped by the evaluation at j and has kept that stamp through state i. */
  ghost predicate StampedAt(dbs: seq<Db>, ops: seq<Op>, j: nat, i: nat, k: UrlKey)
    requires |dbs| == |ops| + 1
  {
    && j < i <= |ops| && EvaluatesAt(dbs, ops, j, k, false)
    && forall m :: j < m <= i ==> StampOf(dbs[m].urls, k) == Some(ops[j].now)
  }

  lemma StampStep(dbs: seq<Db>, ops: seq<Op>, i: nat, k: UrlKey)
    requires Run(dbs, ops) && i < |ops| && StampOf(dbs[i + 1].urls, k).Some?
    ensures StampOf(dbs[i].urls, k) == StampOf(dbs[i + 1].urls, k)
         || (EvaluatesAt(dbs, ops, i, k, false) && StampOf(dbs[i + 1].urls, k) == Some(ops[i].now))
  {
    hide Retained, Deletes, CollectUrls;
    assert StepsAt(dbs, ops, i);
    if ops[i].event.CollectsUrls? {
      AppliesCollect(dbs[i], ops[i]);
      CollectStamps(dbs[i], ops[i].event.urls, ops[i].event.pass, k);
    } else {
      OnlyCollectorStamps(dbs[i], ops[i]);
      hide Apply, Enabled;
      assert StampKept(dbs[i].urls, dbs[i + 1].urls, k);
    }
  }

  lemma AppliesCollect(db: Db, op: Op)
    requires Enabled(db, op) && op.event.CollectsUrls?
    ensures Apply(db, op) == CollectUrls(db, op.event.urls, op.event.pass) && op.event.pass.now == op.now
  {
    hide CollectUrls;
  }

  /** The row has kept through state i the stamp it has where the run starts. */
  ghost predicate StampedBefore(dbs: seq<Db>, i: nat, k: UrlKey)
    requires i < |dbs|
  {
    StampOf(dbs[0].urls, k).Some? && forall m :: 0 <= m <= i ==> StampOf(dbs[m].urls, k) == StampOf(dbs[0].urls, k)
  }

  lemma {:induction false} StampHasOrigin(dbs: seq<Db>, ops: seq<Op>, i: nat, k: UrlKey)
    requires Run(dbs, ops) && i <= |ops| && StampOf(dbs[i].urls, k).Some?
    ensures StampedBefore(dbs, i, k) || exists j: nat :: StampedAt(dbs, ops, j, i, k)
  {
    hide Enabled, Apply, EvaluatesAt, StampOf;
    if i > 0 {
      StampStep(dbs, ops, i - 1, k);
      if EvaluatesAt(dbs, ops, i - 1, k, false) && StampOf(dbs[i].urls, k) == Some(ops[i - 1].now) {
        assert StampedAt(dbs, ops, i - 1, i, k);
      } else {
        StampHasOrigin(dbs, ops, i - 1, k);
        if !StampedBefore(dbs, i - 1, k) {
          var j: nat :| StampedAt(dbs, ops, j, i - 1, k);
          assert StampOf(dbs[i - 1].urls, k) == Some(ops[j].now);
          assert StampedAt(dbs, ops, j, i, k);
        }
      }
    }
  }

  /** From state `from` up to i the row stays, no evaluation retains it and nothing re-establishes it. */
  ghost predicate Undisturbed(dbs: seq<Db>, ops: seq<Op>, from: nat, i: nat, k: UrlKey)
    requires |dbs| == |ops| + 1 && i <= |ops|
  {
    forall m: nat :: from <= m < i ==>
      k in dbs[m].urls && !EvaluatesAt(dbs, ops, m, k, true) && !ReestablishesAt(dbs, ops, m, k)
  }

  /** A row that keeps one stamp is undisturbed. */
  lemma SameStampUndisturbed(dbs: seq<Db>, ops: seq<Op>, from: nat, i: nat, k: UrlKey, stamp: Time)
    requires Run(dbs, ops) && i <= |ops| && forall m :: from <= m <= i ==> StampOf(dbs[m].urls, k) == Some(stamp)
    ensures Undisturbed(dbs, ops, from, i, k)
  {
    hide StepsAt, EvaluatesAt, ReestablishesAt;
    forall m: nat | from <= m < i
      ensures k in dbs[m].urls && !EvaluatesAt(dbs, ops, m, k, true) && !ReestablishesAt(dbs, ops, m, k)
    {
      assert StampOf(dbs[m].urls, k) == Some(stamp) && StampOf(dbs[m + 1].urls, k) == Some(stamp);
      if EvaluatesAt(dbs, ops, m, k, true) || ReestablishesAt(dbs, ops, m, k) { Clears(dbs, ops, m, k); }
    }
  }

  /** An evaluation at j, at or before `cutoff`, found the row not retained; it has been undisturbed since. */
  ghost predicate DroppedAt(dbs: seq<Db>, ops: seq<Op>, j: nat, i: nat, k: UrlKey, cutoff: Time)
    requires |dbs| == |ops| + 1 && i <= |ops|
  {
    j < i && EvaluatesAt(dbs, ops, j, k, false) && ops[j].now <= cutoff && Undisturbed(dbs, ops, j + 1, i, k)
  }

  /** The run starts with the row stamped at or before `cutoff`; it has been undisturbed since. */
  ghost predicate DroppedBefore(dbs: seq<Db>, ops: seq<Op>, i: nat, k: UrlKey, cutoff: Time)
    requires |dbs| == |ops| + 1 && i <= |ops|
  {
    var stamp := StampOf(dbs[0].urls, k);
    stamp.Some? && stamp.value <= cutoff && Undisturbed(dbs, ops, 0, i, k)
  }

  /** A deletion by the collector with a positive hold: an evaluation a hold window earlier found the row not
      retained, or it was stamped that early where the run starts; and since then it has stayed in the table, none
      found it retained and nothing re-established it. */
  lemma HoldIsHonoured(dbs: seq<Db>, ops: seq<Op>, i: nat, k: UrlKey)
    requires Run(dbs, ops) && i < |ops|
    requires ops[i].event.CollectsUrls? && ops[i].event.pass.hold > 0 && k in dbs[i].urls && k !in dbs[i + 1].urls
    ensures EvaluatesAt(dbs, ops, i, k, false)
    ensures var cutoff := ops[i].now - ops[i].event.pass.hold;
            DroppedBefore(dbs, ops, i, k, cutoff) || exists j: nat :: DroppedAt(dbs, ops, j, i, k, cutoff)
  {
    hide Retained, CollectUrls, ReestablishesAt, Undisturbed;
    var (p, cutoff) := (ops[i].event.pass, ops[i].now - ops[i].event.pass.hold);
    assert StepsAt(dbs, ops, i);
    AppliesCollect(dbs[i], ops[i]);
    CollectStamps(dbs[i], ops[i].event.urls, p, k);
    assert Expired(dbs[i].urls[k], p);
    StampHasOrigin(dbs, ops, i, k);
    OriginIsEarly(dbs, ops, i, k, cutoff);
  }

  lemma OriginIsEarly(dbs: seq<Db>, ops: seq<Op>, i: nat, k: UrlKey, cutoff: Time)
    requires Run(dbs, ops) && i < |ops|
    requires StampOf(dbs[i].urls, k).Some? && StampOf(dbs[i].urls, k).value <= cutoff
    requires StampedBefore(dbs, i, k) || exists j: nat :: StampedAt(dbs, ops, j, i, k)
    ensures DroppedBefore(dbs, ops, i, k, cutoff) || exists j: nat :: DroppedAt(dbs, ops, j, i, k, cutoff)
  {
    hide StepsAt, EvaluatesAt, Undisturbed, StampOf;
    if StampedBefore(dbs, i, k) {
      SameStampUndisturbed(dbs, ops, 0, i, k, StampOf(dbs[0].urls, k).value);
    } else {
      var j: nat :| StampedAt(dbs, ops, j, i, k);
      SameStampUndisturbed(dbs, ops, j + 1, i, k, ops[j].now);
      assert DroppedAt(dbs, ops, j, i, k, cutoff);
    }
  }
}
