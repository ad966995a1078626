/** The suite table over runs: its caps, and the generation that fences stale fetches. */
module SuiteTable {
  import opened Text
  import opened Tables
  import opened Transactions
  import opened Integrity
  import opened Runs
  import opened Footprints
  import IntegritySteps
  import NewestN
  import SuitePaths

  // ----- how a step changes the suite table -----

  /** Every row is an earlier one with its generation, or is newer than the old clock. */
  ghost predicate Advances(db: Db, d: Db) {
    && db.clock <= d.clock
    && forall k :: k in d.suites ==>
      (k in db.suites && SameToken(db.suites[k], d.suites[k])) || d.suites[k].generation > db.clock
  }

  predicate SameToken(r: SuiteRow, s: SuiteRow) { r.rowid == s.rowid && r.generation == s.generation }

  ghost predicate NoNewRows(db: Db, d: Db) { d.suites.Keys <= db.suites.Keys }

  lemma SameSuites(db: Db, d: Db)
    requires d.suites == db.suites && d.clock == db.clock
    ensures Advances(db, d) && NoNewRows(db, d)
  {
  }

  lemma AdvancesTwice(a: Db, b: Db, c: Db)
    requires Advances(a, b) && Advances(b, c)
    ensures Advances(a, c)
  {
  }

  lemma CommitRows(db: Db, id: SnapshotId, a: Adoption, now: Time)
    ensures var d := Final(db, CommitAdoption(db, id, a, now)); Advances(db, d) && NoNewRows(db, d)
  {
    hide SignedHistory, AllNew, BlobsStored, WarmStored, Keyed, KeyedPackages, Added, WarmRows, SeedAnchors,
         AdoptionStamp, Bump, ReleasePrior, PinSet, AnchorNames, MarkSeen;
  }

  lemma DeleteRows(db: Db, key: SuiteKey, now: Time)
    requires key in db.suites
    ensures var d := DeleteSuite(db, key, now); Advances(db, d) && NoNewRows(db, d) && d.suites == db.suites - {key}
  {
    hide DeleteSuite;
    DeleteFrame(db, key, now);
  }

  lemma ReapRows(db: Db, key: SuiteKey, want: Option<SnapshotId>, cutoff: Option<Time>, now: Time)
    ensures var d := ReapSuite(db, key, want, cutoff, now); Advances(db, d) && NoNewRows(db, d)
  {
    hide DeleteSuite;
    if key in db.suites { DeleteRows(db, key, now); }
  }

  lemma ForgetRows(db: Db, key: SuiteKey, want: Option<SnapshotId>, now: Time)
    ensures var d := ForgetSuite(db, key, want, now); Advances(db, d) && NoNewRows(db, d)
  {
    hide DeleteSuite, DropKeys, BaseAnchors, BaseRows, Unmark;
    if key in db.suites { DeleteRows(db, key, now); }
  }

  lemma DecideRows(db: Db, d: Decision, now: Time)
    ensures Advances(db, Decide(db, d, now)) && NoNewRows(db, Decide(db, d, now))
  {
    hide DropUrls, Release, PinSet, IsCurrent, MarkSnapshotBase;
    if d.Quarantine? {
      DropFrame(QuarantineSnapshot(db, d.id, now), AnchorRows(QuarantineSnapshot(db, d.id, now), d.id), now);
    }
  }

  lemma {:induction false} DecideAllRows(db: Db, ds: seq<Decision>, now: Time)
    ensures Advances(db, DecideAll(db, ds, now)) && NoNewRows(db, DecideAll(db, ds, now))
    decreases |ds|
  {
    hide Decide, Advances;
    if ds == [] {
      SameSuites(db, db);
    } else {
      var e := Decide(db, ds[0], now);
      DecideRows(db, ds[0], now);
      DecideAllRows(e, ds[1..], now);
      AdvancesTwice(db, e, DecideAll(e, ds[1..], now));
    }
  }

  lemma TouchRows(db: Db, key: SuiteKey, now: Time)
    ensures Advances(db, TouchSuite(db, key, now)) && NoNewRows(db, TouchSuite(db, key, now))
  {
  }

  lemma InvalidateRows(db: Db, key: SuiteKey, anchor: string, was: Hash, now: Time)
    ensures var d := Final(db, InvalidateLegacy(db, key, anchor, was, now)); Advances(db, d) && NoNewRows(db, d)
  {
    hide DropUrls, LegacyRows, SuitePaths.IsCanonical;
  }

  // ----- creations against the caps -----

  /** Above or at its cap a table does not grow; below it, it grows by one at most. */
  predicate WithinCap(before: nat, after: nat, cap: int) { cap > 0 ==> after <= before || after <= cap }

  ghost predicate Capped(db: Db, d: Db, caps: Caps) {
    && WithinCap(|db.suites|, |d.suites|, caps.global)
    && forall host :: WithinCap(|HostRows(db.suites, host)|, |HostRows(d.suites, host)|, caps.perHost)
  }

  lemma FewerRows(db: Db, d: Db, caps: Caps)
    requires NoNewRows(db, d)
    ensures Capped(db, d, caps)
  {
    NewestN.SubsetSize(d.suites.Keys, db.suites.Keys);
    assert |d.suites.Keys| == |d.suites| && |db.suites.Keys| == |db.suites|;
    forall host ensures |HostRows(d.suites, host)| <= |HostRows(db.suites, host)| {
      NewestN.SubsetSize(HostRows(d.suites, host), HostRows(db.suites, host));
    }
  }

  lemma InsertSuiteRows(db: Db, seed: Seed, rowid: nat)
    ensures var d := InsertSuite(db, seed, rowid); Advances(db, d) && d.suites.Keys == db.suites.Keys + {seed.key}
  {
    hide SeenAt, MarkSeen;
  }

  lemma MapSize(suites: Suites)
    ensures |suites| == |suites.Keys|
  {
  }

  /** One more row: its host counts one more, every other host as before. */
  lemma OneMoreRow(db: Db, d: Db, key: SuiteKey, host: string)
    requires key !in db.suites && d.suites.Keys == db.suites.Keys + {key}
    ensures |d.suites| == |db.suites| + 1
    ensures |HostRows(d.suites, host)| == |HostRows(db.suites, host)| + (if host == key.host then 1 else 0)
  {
    MapSize(d.suites);
    MapSize(db.suites);
    HostKeys(db.suites, d.suites, key, host);
  }

  lemma HostKeys(suites: Suites, su: Suites, key: SuiteKey, host: string)
    requires key !in suites && su.Keys == suites.Keys + {key}
    ensures |HostRows(su, host)| == |HostRows(suites, host)| + (if host == key.host then 1 else 0)
  {
    var (a, b) := (HostRows(suites, host), HostRows(su, host));
    assert forall k :: k in su.Keys <==> k in suites.Keys || k == key;
    if host == key.host {
      assert b == a + {key} && key !in a;
    } else {
      assert b == a;
    }
  }

  lemma OneRowFewer(db: Db, d: Db, key: SuiteKey)
    requires key in db.suites && d.suites == db.suites - {key}
    ensures |d.suites| == |db.suites| - 1
  {
    MapSize(d.suites);
    MapSize(db.suites);
    assert db.suites.Keys == d.suites.Keys + {key};
  }

  /** A creation past the per-host check that evicts its held candidate above the cap shrinks the table,
      and at the cap replaces one row by another. */
  lemma EvictionShrinks(db: Db, seed: Seed, caps: Caps, held: Option<SuiteKey>, rowid: nat, now: Time)
    requires CreateSuite(db, seed, caps, held, rowid, now).evicted
    ensures var c := CreateSuite(db, seed, caps, held, rowid, now);
            && caps.global > 0 && |db.suites| >= caps.global
            && |c.db.suites| == (if |db.suites| > caps.global then |db.suites| - 1 else |db.suites|)
            && (c.outcome.Created? <==> |db.suites| == caps.global)
  {
    hide DeleteSuite, InsertSuite, HostRows;
    var d := DeleteSuite(db, held.value, now);
    DeleteRows(db, held.value, now);
    OneRowFewer(db, d, held.value);
    InsertSuiteRows(d, seed, rowid);
    OneMoreRow(d, InsertSuite(d, seed, rowid), seed.key, "");
  }

  lemma CreateRows(db: Db, seed: Seed, caps: Caps, held: Option<SuiteKey>, rowid: nat, now: Time)
    ensures var d := CreateSuite(db, seed, caps, held, rowid, now).db; Advances(db, d) && Capped(db, d, caps)
  {
    hide DeleteSuite, InsertSuite, Advances, HostRows, Capped;
    var c := CreateSuite(db, seed, caps, held, rowid, now);
    SameSuites(db, db);
    FewerRows(db, db, caps);
    if c.evicted {
      var d := DeleteSuite(db, held.value, now);
      DeleteRows(db, held.value, now);
      FewerRows(db, d, caps);
      InsertSuiteRows(d, seed, rowid);
      AdvancesTwice(db, d, InsertSuite(d, seed, rowid));
      EvictionShrinks(db, seed, caps, held, rowid, now);
      if c.outcome.Created? { EvictedHosts(db, seed, caps, held, rowid, now); }
    } else if c.outcome.Created? {
      InsertSuiteRows(db, seed, rowid);
      CreatedHosts(db, seed, caps, rowid);
    }
  }

  lemma CreatedHosts(db: Db, seed: Seed, caps: Caps, rowid: nat)
    requires seed.key !in db.suites
    requires caps.perHost > 0 ==> |HostRows(db.suites, seed.key.host)| < caps.perHost
    requires caps.global > 0 ==> |db.suites| < caps.global
    ensures Capped(db, InsertSuite(db, seed, rowid), caps)
  {
    hide InsertSuite, HostRows;
    var d := InsertSuite(db, seed, rowid);
    InsertSuiteRows(db, seed, rowid);
    forall host
      ensures WithinCap(|HostRows(db.suites, host)|, |HostRows(d.suites, host)|, caps.perHost)
      ensures WithinCap(|db.suites|, |d.suites|, caps.global) {
      OneMoreRow(db, d, seed.key, host);
    }
    OneMoreRow(db, d, seed.key, "");
  }

  lemma EvictedHosts(db: Db, seed: Seed, caps: Caps, held: Option<SuiteKey>, rowid: nat, now: Time)
    requires var c := CreateSuite(db, seed, caps, held, rowid, now);
             c.evicted && c.outcome.Created? && |c.db.suites| <= |db.suites|
    ensures Capped(db, CreateSuite(db, seed, caps, held, rowid, now).db, caps)
  {
    hide DeleteSuite, InsertSuite, HostRows;
    var (c, d) := (CreateSuite(db, seed, caps, held, rowid, now).db, DeleteSuite(db, held.value, now));
    DeleteRows(db, held.value, now);
    InsertSuiteRows(d, seed, rowid);
    forall host ensures WithinCap(|HostRows(db.suites, host)|, |HostRows(c.suites, host)|, caps.perHost) {
      OneMoreRow(d, c, seed.key, host);
      HostRowsFewer(db, d, host);
    }
  }

  lemma HostRowsFewer(db: Db, d: Db, host: string)
    requires NoNewRows(db, d)
    ensures |HostRows(d.suites, host)| <= |HostRows(db.suites, host)|
  {
    NewestN.SubsetSize(HostRows(d.suites, host), HostRows(db.suites, host));
  }

  lemma StoreRows(db: Db, f: Fetched, caps: Caps, held: Option<SuiteKey>, rowid: nat, now: Time)
    ensures var r := StoreFetched(db, f, caps, held, rowid, now);
            r.Ok? ==> Advances(db, r.value.db) && Capped(db, r.value.db, caps)
  {
    hide CreateSuite, MarkSeen, Advances, Capped;
    var r := StoreFetched(db, f, caps, held, rowid, now);
    if r.Ok? {
      var put := PutUrl(db, f.k, f.row).value;
      var c := if f.create.Some? then CreateSuite(put, f.create.value, caps, held, rowid, now).db else put;
      SameSuites(put, put);
      FewerRows(put, put, caps);
      if f.create.Some? { CreateRows(put, f.create.value, caps, held, rowid, now); }
      SameTables(db, put, c, r.value.db, caps);
    }
  }

  lemma SameTables(a: Db, b: Db, c: Db, d: Db, caps: Caps)
    requires Advances(b, c) && Capped(b, c, caps) && a.suites == b.suites && a.clock == b.clock && c.suites == d.suites
    requires c.clock == d.clock
    ensures Advances(a, d) && Capped(a, d, caps)
  {
  }

  // ----- every operation -----

  /** The caps an operation creates rows under. */
  predicate UsesCaps(e: Event, caps: Caps) { (e.Creates? ==> e.caps == caps) && (e.Stores? ==> e.caps == caps) }

  lemma StepRows(db: Db, op: Op, caps: Caps)
    requires Enabled(db, op) && UsesCaps(op.event, caps)
    ensures Advances(db, Apply(db, op)) && Capped(db, Apply(db, op), caps)
  {
    hide CommitAdoption, ReapSuite, ForgetSuite, SweepMarkers, MarkAll, DecideAll, CreateSuite, StoreFetched,
         InvalidateLegacy, Reapable, Collectable, IsChunk, IntegritySteps.CandidateFinds, IntegritySteps.DropsMissing,
         PutBlob, HeartbeatBlobs, ReapBlobs, PutUrl, TouchUrl, RefreshUrl, DropUrls, CollectUrls, InsertCandidate,
         HeartbeatSnapshot, RepairSkipped, Reconcile, TouchSuite, RemoveSnapshots, DrainChunk, Advances, Capped,
         NoNewRows;
    var (now, d) := (op.now, Apply(db, op));
    match op.event
    case Commits(id, a) =>
      CommitRows(db, id, a, now);
      FewerRows(db, d, caps);
    case Reaps(key, want, cutoff) =>
      ReapRows(db, key, want, cutoff, now);
      FewerRows(db, d, caps);
    case Forgets(key, want) =>
      ForgetRows(db, key, want, now);
      FewerRows(db, d, caps);
    case Audits(ds) =>
      DecideAllRows(db, ds, now);
      FewerRows(db, d, caps);
    case Creates(seed, _, held, rowid) => CreateRows(db, seed, caps, held, rowid, now);
    case Stores(f, _, held, rowid) =>
      StoreRows(db, f, caps, held, rowid, now);
      SameSuites(db, db);
      FewerRows(db, db, caps);
    case Invalidates(key, anchor, was) =>
      InvalidateRows(db, key, anchor, was, now);
      FewerRows(db, d, caps);
    case TouchesSuite(key) =>
      TouchRows(db, key, now);
      FewerRows(db, d, caps);
    case _ =>
      SuitesFixed(db, op);
      SameSuites(db, d);
      FewerRows(db, d, caps);
  }

  // ----- caps over runs -----

  /** With fixed caps: a table at or below a cap stays at or below it, and above the cap no step grows it. */
  lemma CapsHold(dbs: seq<Db>, ops: seq<Op>, caps: Caps, i: nat, host: string)
    requires Run(dbs, ops) && (forall j :: 0 <= j < |ops| ==> UsesCaps(ops[j].event, caps)) && i < |ops|
    ensures WithinCap(|dbs[i].suites|, |dbs[i + 1].suites|, caps.global)
    ensures WithinCap(|HostRows(dbs[i].suites, host)|, |HostRows(dbs[i + 1].suites, host)|, caps.perHost)
  {
    hide Enabled, Apply, HostRows;
    assert StepsAt(dbs, ops, i);
    StepRows(dbs[i], ops[i], caps);
  }

  lemma {:induction false} CapsNeverExceeded(dbs: seq<Db>, ops: seq<Op>, caps: Caps, i: nat, j: nat, host: string)
    requires Run(dbs, ops) && (forall k :: 0 <= k < |ops| ==> UsesCaps(ops[k].event, caps)) && i <= j <= |ops|
    ensures caps.global > 0 && |dbs[i].suites| <= caps.global ==> |dbs[j].suites| <= caps.global
    ensures caps.perHost > 0 && |HostRows(dbs[i].suites, host)| <= caps.perHost ==>
            |HostRows(dbs[j].suites, host)| <= caps.perHost
    decreases j - i
  {
    hide Enabled, Apply, HostRows;
    if i < j {
      CapsNeverExceeded(dbs, ops, caps, i, j - 1, host);
      CapsHold(dbs, ops, caps, j - 1, host);
    }
  }

  // ----- the generation fence -----

  /** The suite's row has been deleted or invalidated since its generation was g. */
  predicate Moved(suites: Suites, key: SuiteKey, g: nat) { key !in suites || suites[key].generation > g }

  lemma {:induction false} ClockRuns(dbs: seq<Db>, ops: seq<Op>, i: nat, j: nat)
    requires Run(dbs, ops) && i <= j <= |ops|
    ensures dbs[i].clock <= dbs[j].clock
    decreases j - i
  {
    hide Enabled, Apply, UsesCaps;
    if i < j {
      ClockRuns(dbs, ops, i, j - 1);
      StepAdvances(dbs, ops, j - 1);
    }
  }

  lemma StepAdvances(dbs: seq<Db>, ops: seq<Op>, i: nat)
    requires Run(dbs, ops) && i < |ops|
    ensures Advances(dbs[i], dbs[i + 1])
  {
    hide Enabled, Apply;
    assert StepsAt(dbs, ops, i);
    var e := ops[i].event;
    StepRows(dbs[i], ops[i], if e.Creates? || e.Stores? then e.caps else Caps(0, 0));
  }

  /** A moved suite stays moved: a new row or an invalidation takes a generation past every earlier one. */
  lemma {:induction false} MovedStays(dbs: seq<Db>, ops: seq<Op>, i: nat, j: nat, key: SuiteKey, g: nat)
    requires Run(dbs, ops) && i <= j <= |ops| && Moved(dbs[i].suites, key, g) && g <= dbs[i].clock
    ensures Moved(dbs[j].suites, key, g)
    decreases j - i
  {
    hide Enabled, Apply;
    if i < j {
      StepAdvances(dbs, ops, i);
      MovedStays(dbs, ops, i + 1, j, key, g);
    }
  }

  lemma InvalidationMoves(db: Db, key: SuiteKey, anchor: string, was: Hash, now: Time)
    requires InvalidateLegacy(db, key, anchor, was, now).Ok?
    ensures Moved(InvalidateLegacy(db, key, anchor, was, now).value.suites, key, db.clock)
  {
    hide DropUrls, LegacyRows, SuitePaths.IsCanonical;
  }

  ghost predicate InvalidatesAt(dbs: seq<Db>, ops: seq<Op>, m: nat, key: SuiteKey)
    requires |dbs| == |ops| + 1 && m < |ops|
  {
    ops[m].event.Invalidates? && ops[m].event.key == key
    && InvalidateLegacy(dbs[m], key, ops[m].event.anchor, ops[m].event.was, ops[m].now).Ok?
  }

  lemma GenerationKept(dbs: seq<Db>, ops: seq<Op>, i: nat, j: nat, key: SuiteKey, m: nat)
    requires Run(dbs, ops) && Inv(dbs[0]) && i <= j <= |ops| && i <= m <= j
    requires key in dbs[i].suites && dbs[i].suites[key].rowid > 0
    requires TokenOf(dbs[j].suites, key) == TokenOf(dbs[i].suites, key)
    ensures key in dbs[m].suites && dbs[m].suites[key].generation == dbs[i].suites[key].generation <= dbs[m].clock
    ensures m < j ==> !InvalidatesAt(dbs, ops, m, key)
  {
    hide Inv, Enabled, Apply;
    var g := dbs[i].suites[key].generation;
    RunKeeps(dbs, ops, i);
    assert g <= dbs[i].clock by { GenerationBound(dbs[i], key); }
    ClockRuns(dbs, ops, i, m);
    if Moved(dbs[m].suites, key, g) { MovedStays(dbs, ops, m, j, key, g); }
    GenerationsGrow(dbs, ops, i, m, key);
    if m < j && InvalidatesAt(dbs, ops, m, key) {
      InvalidatedMoves(dbs, ops, m, key);
      ClockRuns(dbs, ops, i, m + 1);
      MovedStays(dbs, ops, m + 1, j, key, g);
    }
  }

  /** The fence: if a token read at i from a suite row is still the suite's token at j, that row was there in every
      state between, with its row id and generation, and no invalidation of the suite took place, whatever row ids
      were reused. */
  lemma {:induction false} GenerationFence(dbs: seq<Db>, ops: seq<Op>, i: nat, j: nat, key: SuiteKey, m: nat)
    requires Run(dbs, ops) && Inv(dbs[0]) && i <= j <= |ops| && i <= m <= j
    requires key in dbs[i].suites && dbs[i].suites[key].rowid > 0
    requires TokenOf(dbs[j].suites, key) == TokenOf(dbs[i].suites, key)
    ensures key in dbs[m].suites && TokenOf(dbs[m].suites, key) == TokenOf(dbs[i].suites, key)
    ensures m < j ==> !InvalidatesAt(dbs, ops, m, key)
    decreases m
  {
    hide Inv, Enabled, Apply, InvalidatesAt;
    GenerationKept(dbs, ops, i, j, key, m);
    if m > i {
      GenerationFence(dbs, ops, i, j, key, m - 1);
      GenerationKept(dbs, ops, i, j, key, m - 1);
      StepAdvances(dbs, ops, m - 1);
    }
  }

  lemma InvalidatedMoves(dbs: seq<Db>, ops: seq<Op>, m: nat, key: SuiteKey)
    requires Run(dbs, ops) && m < |ops| && InvalidatesAt(dbs, ops, m, key)
    ensures Moved(dbs[m + 1].suites, key, dbs[m].clock)
  {
    hide InvalidateLegacy;
    assert StepsAt(dbs, ops, m);
    InvalidationMoves(dbs[m], key, ops[m].event.anchor, ops[m].event.was, ops[m].now);
  }

  lemma GenerationBound(db: Db, key: SuiteKey)
    requires Inv(db) && key in db.suites
    ensures db.suites[key].generation <= db.clock
  {
  }

  /** While it is present, a suite's generation never falls below what it was. */
  lemma {:induction false} GenerationsGrow(dbs: seq<Db>, ops: seq<Op>, i: nat, j: nat, key: SuiteKey)
    requires Run(dbs, ops) && i <= j <= |ops| && key in dbs[i].suites && dbs[i].suites[key].generation <= dbs[i].clock
    ensures key in dbs[j].suites ==> dbs[j].suites[key].generation >= dbs[i].suites[key].generation
    decreases j - i
  {
    hide Enabled, Apply;
    if i < j {
      var g := dbs[i].suites[key].generation;
      GenerationsGrow(dbs, ops, i, j - 1, key);
      ClockRuns(dbs, ops, i, j - 1);
      StepAdvances(dbs, ops, j - 1);
    }
  }

  /** An accepted store: its token is the suite's. */
  lemma AcceptedToken(db: Db, f: Fetched, caps: Caps, held: Option<SuiteKey>, rowid: nat, now: Time)
    requires StoreFetched(db, f, caps, held, rowid, now).Ok? && f.token.Some? && f.suite.Some?
    ensures TokenOf(db.suites, f.suite.value) == f.token.value
  {
    hide CreateSuite, PutUrl;
  }

  /** A store accepted with a token read while the suite had a row: no invalidation of the suite and no
      delete-and-recreate of its row came between. */
  lemma AcceptedStoreIsFresh(dbs: seq<Db>, ops: seq<Op>, i: nat, j: nat, m: nat, f: Fetched, caps: Caps,
                             held: Option<SuiteKey>, rowid: nat)
    requires Run(dbs, ops) && Inv(dbs[0]) && i <= m <= j < |ops|
    requires f.suite.Some? && f.suite.value in dbs[i].suites && dbs[i].suites[f.suite.value].rowid > 0
    requires f.token == Some(TokenOf(dbs[i].suites, f.suite.value))
    requires StoreFetched(dbs[j], f, caps, held, rowid, ops[j].now).Ok?
    ensures f.suite.value in dbs[m].suites && (m < j ==> !InvalidatesAt(dbs, ops, m, f.suite.value))
  {
    hide Inv, Enabled, Apply, StoreFetched;
    AcceptedToken(dbs[j], f, caps, held, rowid, ops[j].now);
    GenerationFence(dbs, ops, i, j, f.suite.value, m);
  }
}
