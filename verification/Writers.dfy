/** The loops of the writer's transactions, each against the table it leaves. */
module Writers {
  import opened Text
  import opened Sorting
  import opened Tables
  import opened Transactions

  // ----- url_path rows -----

  /** The keys of ks that have a row. */
  ghost function Present(urls: Urls, ks: set<UrlKey>): set<UrlKey> { set k | k in ks && k in urls }

  lemma PresentNext(urls: Urls, ks: set<UrlKey>, k: UrlKey)
    ensures |Present(urls, ks + {k})| == |Present(urls, ks)| + (if k in urls && k !in ks then 1 else 0)
  {
    if k in urls && k !in ks { assert Present(urls, ks + {k}) == Present(urls, ks) + {k}; }
    else { assert Present(urls, ks + {k}) == Present(urls, ks); }
  }

  lemma DropNext(f: Files, done: set<UrlKey>, k: UrlKey, now: Time)
    ensures DropRow(DropKeys(f, done, now), k, now) == DropKeys(f, done + {k}, now)
    ensures k in DropKeys(f, done, now).urls <==> k in f.urls && k !in done
    ensures k !in DropKeys(f, done, now).urls ==> DropRow(DropKeys(f, done, now), k, now) == DropKeys(f, done, now)
  {
    if k in done || k !in f.urls { DropAgain(f, done, k, now); } else { DropOneMore(f, done, k, now); }
    NoRow(DropKeys(f, done, now), k, now);
  }

  /** Deleting cached rows one at a time: a key with no row is passed over. */
  method DropEach(f: Files, ks: seq<UrlKey>, now: Time) returns (g: Files, n: nat)
    ensures g == DropKeys(f, Elements(ks), now)
    ensures n == |Present(f.urls, Elements(ks))|
  {
    hide DropRow, DropKeys, Present;
    g, n := f, 0;
    assert Elements(ks[..0]) == {};
    DropNone(f, now);
    PresentNone(f.urls);
    for i := 0 to |ks|
      invariant g == DropKeys(f, Elements(ks[..i]), now) && n == |Present(f.urls, Elements(ks[..i]))|
    {
      var k := ks[i];
      ElementsNext(ks, i);
      DropNext(f, Elements(ks[..i]), k, now);
      PresentNext(f.urls, Elements(ks[..i]), k);
      if k in g.urls {
        g := DropRow(g, k, now);
        n := n + 1;
      }
    }
    assert ks[..|ks|] == ks;
  }

  lemma PresentNone(urls: Urls)
    ensures Present(urls, {}) == {}
  {
  }

  lemma DroppedKeys(f: Files, ks: set<UrlKey>, now: Time)
    ensures DropKeys(f, ks, now).urls == f.urls - ks
  {
  }

  lemma NoRow(f: Files, k: UrlKey, now: Time)
    ensures k !in f.urls ==> DropRow(f, k, now) == f
  {
  }

  /** Compare-and-delete: a row goes only if it still holds what the caller saw. */
  method DropUnchanged(f: Files, rows: seq<(UrlKey, Option<Hash>)>, now: Time) returns (g: Files, n: nat)
    ensures g == DropKeys(f, Unchanged(f.urls, rows), now) && n == |Unchanged(f.urls, rows)|
  {
    hide DropRow, DropKeys;
    g, n := f, 0;
    assert Unchanged(f.urls, rows[..0]) == {};
    DropNone(f, now);
    for i := 0 to |rows|
      invariant g == DropKeys(f, Unchanged(f.urls, rows[..i]), now) && n == |Unchanged(f.urls, rows[..i])|
    {
      var (k, done) := (rows[i].0, Unchanged(f.urls, rows[..i]));
      UnchangedNext(f.urls, rows, i);
      DroppedKeys(f, done, now);
      if k !in g.urls {
        DropAgain(f, done, k, now);
        NoRow(g, k, now);
        if k in done { assert done + {k} == done; }
        continue;
      }
      if g.urls[k].blob != rows[i].1 { continue; }
      DropOneMore(f, done, k, now);
      g, n := DropRow(g, k, now), n + 1;
    }
    assert rows[..|rows|] == rows;
  }

  lemma UnchangedNext(urls: Urls, rows: seq<(UrlKey, Option<Hash>)>, i: nat)
    requires i < |rows|
    ensures var (k, done) := (rows[i].0, Unchanged(urls, rows[..i]));
            Unchanged(urls, rows[..i + 1]) == if k in urls && urls[k].blob == rows[i].1 then done + {k} else done
  {
    var (a, b) := (rows[..i], rows[..i + 1]);
    forall k | k in Unchanged(urls, a) ensures k in Unchanged(urls, b) {
      var j :| 0 <= j < |a| && a[j].0 in urls && urls[a[j].0].blob == a[j].1 && a[j].0 == k;
      assert b[j] == a[j];
    }
    forall k | k in Unchanged(urls, b) ensures k in Unchanged(urls, a) || k == rows[i].0 {
      var j :| 0 <= j < |b| && b[j].0 in urls && urls[b[j].0].blob == b[j].1 && b[j].0 == k;
      if j < i { assert a[j] == b[j]; }
    }
    assert b[i] == rows[i];
    if rows[i].0 in Unchanged(urls, b) && !(urls[rows[i].0].blob == rows[i].1) {
      var j :| 0 <= j < |b| && b[j].0 in urls && urls[b[j].0].blob == b[j].1 && b[j].0 == rows[i].0;
      assert a[j] == b[j];
    }
  }

  // ----- an adoption's rows -----

  lemma {:induction false} AddedKeys<K, V>(t: map<K, V>, rows: seq<(K, V)>, k: K)
    ensures k in Added(t, rows) <==> k in t || exists i :: 0 <= i < |rows| && rows[i].0 == k
    decreases |rows|
  {
    if rows != [] {
      var front := rows[..|rows| - 1];
      AddedKeys(t, front, k);
      forall i | 0 <= i < |rows| && rows[i].0 == k
        ensures rows[|rows| - 1].0 == k || exists j :: 0 <= j < |front| && front[j].0 == k {
        if i < |rows| - 1 { assert front[i].0 == k; }
      }
      if i :| 0 <= i < |front| && front[i].0 == k { assert rows[i].0 == k; }
    }
  }

  /** The next INSERT succeeds exactly when its key is not there yet. */
  lemma NextIsNew<K, V>(t: map<K, V>, rows: seq<(K, V)>, i: nat)
    requires i < |rows| && AllNew(t, rows[..i])
    ensures rows[i].0 in Added(t, rows[..i]) ==> !AllNew(t, rows)
    ensures rows[i].0 !in Added(t, rows[..i]) ==> AllNew(t, rows[..i + 1])
    ensures Added(t, rows[..i + 1]) == Added(t, rows[..i])[rows[i].0 := rows[i].1]
  {
    var (front, next) := (rows[..i], rows[..i + 1]);
    assert next[..i] == front && next[i] == rows[i];
    AddedKeys(t, front, rows[i].0);
    if rows[i].0 !in Added(t, front) {
      forall j | 0 <= j < |next| ensures next[j].0 !in t { if j < i { assert next[j] == front[j]; } }
      forall j, k | 0 <= j < k < |next| ensures next[j].0 != next[k].0 {
        assert next[j] == front[j];
        if k < i { assert next[k] == front[k]; }
      }
    } else if rows[i].0 !in t {
      var j :| 0 <= j < |front| && front[j].0 == rows[i].0;
      assert rows[j].0 == rows[i].0;
    }
  }

  /** INSERT each row; a key that is there already, or comes twice, fails the transaction. */
  method InsertEach<K(==), V>(t: map<K, V>, rows: seq<(K, V)>) returns (ok: bool, u: map<K, V>)
    ensures ok <==> AllNew(t, rows)
    ensures ok ==> u == Added(t, rows)
  {
    u := t;
    for i := 0 to |rows|
      invariant u == Added(t, rows[..i]) && AllNew(t, rows[..i])
    {
      hide Added, AllNew;
      NextIsNew(t, rows, i);
      if rows[i].0 in u { return false, u; }
      u := u[rows[i].0 := rows[i].1];
    }
    assert rows[..|rows|] == rows;
    ok := true;
  }

  /** INSERT each member: its blob must be stored. */
  method InsertMembers(members: Members, blobs: Blobs, rows: seq<(MemberKey, Member)>) returns (ok: bool, me: Members)
    ensures ok <==> AllNew(members, rows) && forall i :: 0 <= i < |rows| ==> rows[i].1.blob in blobs
    ensures ok ==> me == Added(members, rows)
  {
    me := members;
    for i := 0 to |rows|
      invariant me == Added(members, rows[..i]) && AllNew(members, rows[..i])
      invariant forall j :: 0 <= j < i ==> rows[j].1.blob in blobs
    {
      hide Added, AllNew;
      NextIsNew(members, rows, i);
      if rows[i].0 in me { return false, me; }
      if rows[i].1.blob !in blobs { return false, me; }
      me := me[rows[i].0 := rows[i].1];
    }
    assert rows[..|rows|] == rows;
    ok := true;
  }

  method WarmEach(urls: Urls, blobs: Blobs, rows: seq<(UrlKey, Hash)>, now: Time) returns (ok: bool, u: Urls)
    ensures ok <==> WarmStored(blobs, rows)
    ensures ok ==> u == WarmRows(urls, rows, now)
  {
    hide WarmRow;
    u := urls;
    for i := 0 to |rows|
      invariant u == WarmRows(urls, rows[..i], now) && WarmStored(blobs, rows[..i])
    {
      assert rows[..i + 1][..i] == rows[..i] && rows[..i + 1][i] == rows[i];
      if rows[i].1 !in blobs { return false, u; }
      u := WarmRow(u, rows[i].0, rows[i].1, now);
    }
    assert rows[..|rows|] == rows;
    ok := true;
  }

  method SeedEach(urls: Urls, s: Snapshot, now: Time) returns (u: Urls)
    ensures u == SeedAnchors(urls, s, AnchorNames(s.form), now)
  {
    hide AnchorHash, AnchorUrl, SeedRow;
    var names := AnchorNames(s.form);
    u := urls;
    for i := 0 to |names|
      invariant u == SeedAnchors(urls, s, names[..i], now)
    {
      assert names[..i + 1][..i] == names[..i] && names[..i + 1][i] == names[i];
      u := SeedRow(u, AnchorUrl(s.key, names[i]), AnchorHash(s.form, names[i], s.anchors), now);
    }
    assert names[..|names|] == names;
  }

  // ----- members of the current snapshot -----

  /** The members a repair brings are the skipped content, its canonical path among them. */
  method CheckRepair(rows: seq<(MemberKey, Member)>, id: SnapshotId, path: string, h: Hash) returns (ok: bool)
    ensures ok <==> (forall i :: 0 <= i < |rows| ==> rows[i].0.snapshot == id && rows[i].1 == Member(h, h))
                    && (exists i :: 0 <= i < |rows| && rows[i].0.path == path)
  {
    var canonical := false;
    for i := 0 to |rows|
      invariant forall j :: 0 <= j < i ==> rows[j].0.snapshot == id && rows[j].1 == Member(h, h)
      invariant canonical <==> exists j :: 0 <= j < i && rows[j].0.path == path
    {
      if rows[i].0.snapshot != id { return false; }
      if rows[i].1.blob != h { return false; }
      if rows[i].1.declared != h { return false; }
      if rows[i].0.path == path { canonical := true; }
    }
    ok := canonical;
  }

  /** INSERT ... ON CONFLICT DO NOTHING, then a check that what is there agrees. */
  method InsertOrAgree(members: Members, rows: seq<(MemberKey, Member)>, h: Hash) returns (ok: bool, me: Members)
    requires forall i :: 0 <= i < |rows| ==> rows[i].1 == Member(h, h)
    ensures ok <==> NoConflict(members, rows)
    ensures ok ==> me == Added(members, rows)
  {
    me := members;
    for i := 0 to |rows|
      invariant me == Added(members, rows[..i]) && NoConflict(members, rows[..i])
      invariant forall k :: k in me ==> (k in members && me[k] == members[k]) || me[k] == Member(h, h)
      invariant forall k :: k in members ==> k in me && me[k] == members[k]
    {
      var (k, m) := rows[i];
      assert rows[..i + 1][..i] == rows[..i] && rows[..i + 1][i] == rows[i];
      if k in me {
        if me[k] != m {
          assert k in members;
          return false, me;
        }
        assert me[k := m] == me;
        continue;
      }
      me := me[k := m];
    }
    assert rows[..|rows|] == rows;
    ok := true;
  }

  method ReconcileEach(p: Pins, id: SnapshotId, rows: seq<(MemberKey, Member)>) returns (r: Result<Pins>)
    ensures r == ReconcileMembers(p, id, rows)
  {
    hide PinOnce;
    var q := p;
    for i := 0 to |rows|
      invariant ReconcileMembers(p, id, rows) == ReconcileMembers(q, id, rows[i..])
    {
      var (k, m) := rows[i];
      assert rows[i..][0] == rows[i] && rows[i..][1..] == rows[i + 1..];
      if k.snapshot != id { return Err(ForeignMember); }
      if k in q.members {
        if q.members[k].blob != m.blob { return Err(RowRefused); }
        continue;
      }
      if m.blob !in q.blobs { return Err(RowRefused); }
      q := Pins(q.members[k := m], PinOnce(q.blobs, q.members, id, m.blob));
    }
    assert rows[|rows|..] == [];
    r := Ok(q);
  }

  method HealEach(packages: Packages, snapshots: Snapshots, rows: seq<(PackageKey, Package)>)
    returns (r: Result<Packages>)
    ensures r == ReconcilePackages(packages, snapshots, rows)
  {
    hide Healed, Contradicts;
    var t := packages;
    for i := 0 to |rows|
      invariant ReconcilePackages(packages, snapshots, rows) == ReconcilePackages(t, snapshots, rows[i..])
    {
      assert rows[i..][0] == rows[i] && rows[i..][1..] == rows[i + 1..];
      var one := ReconcilePackage(t, snapshots, rows[i]);
      if one.Err? { return one; }
      t := one.value;
    }
    assert rows[|rows|..] == [];
    r := Ok(t);
  }

  // ----- markers, the audit, creations -----

  /** The batch in transactions of 500 marks. */
  method MarkEach(markers: Markers, marks: seq<(MarkerKey, Time)>) returns (t: Markers)
    ensures t == MarkAll(markers, marks)
  {
    hide MarkSeen;
    t := markers;
    var start := 0;
    while start < |marks|
      invariant 0 <= start <= |marks| && t == MarkAll(markers, marks[..start])
      decreases |marks| - start
    {
      var end := if |marks| - start < 500 then |marks| else start + 500;
      for i := start to end
        invariant t == MarkAll(markers, marks[..i])
      {
        assert marks[..i + 1][..i] == marks[..i] && marks[..i + 1][i] == marks[i];
        t := MarkSeen(t, marks[i].0, marks[i].1);
      }
      start := end;
    }
    assert marks[..|marks|] == marks;
  }

  method DecideEach(db: Db, ds: seq<Decision>, now: Time) returns (d: Db, effects: map<SnapshotId, Effect>)
    ensures d == DecideAll(db, ds, now) && Reports(db, ds, now, effects)
  {
    hide Decide, EffectOf;
    d, effects := db, map[];
    assert ds[..0] == [];
    for i := 0 to |ds|
      invariant d == DecideAll(db, ds[..i], now) && Reports(db, ds[..i], now, effects)
    {
      DecideNext(db, ds, i, now);
      ReportsNext(db, ds, i, now, effects);
      if ds[i].Quarantine? { effects := effects[ds[i].id := EffectOf(d, ds[i], now)]; }
      d := Decide(d, ds[i], now);
    }
    assert ds[..|ds|] == ds;
  }

  /** What a quarantine did: whether its snapshot was current, and how many rows of its anchor it deleted. */
  datatype Effect = Effect(wasCurrent: bool, anchorRows: nat)

  function EffectOf(db: Db, d: Decision, now: Time): Effect
    requires d.Quarantine?
  {
    Effect(IsCurrent(db.suites, d.id), if d.dropRows then |AnchorRows(QuarantineSnapshot(db, d.id, now), d.id)| else 0)
  }

  /** Decision i is the last quarantine of its snapshot. */
  predicate LastOf(ds: seq<Decision>, i: nat, id: SnapshotId) {
    && i < |ds| && ds[i].Quarantine? && ds[i].id == id
    && forall j :: i < j < |ds| ==> !(ds[j].Quarantine? && ds[j].id == id)
  }

  ghost predicate ReportsOne(db: Db, ds: seq<Decision>, now: Time, effect: Effect, i: nat, id: SnapshotId) {
    LastOf(ds, i, id) && effect == EffectOf(DecideAll(db, ds[..i], now), ds[i], now)
  }

  /** Every quarantined snapshot is reported with what its last quarantine met, and no other snapshot is. */
  ghost predicate Reports(db: Db, ds: seq<Decision>, now: Time, effects: map<SnapshotId, Effect>) {
    && (forall i :: 0 <= i < |ds| && ds[i].Quarantine? ==> ds[i].id in effects)
    && (forall id :: id in effects ==> exists i: nat :: ReportsOne(db, ds, now, effects[id], i, id))
  }

  lemma {:induction false} DecideNext(db: Db, ds: seq<Decision>, i: nat, now: Time)
    requires i < |ds|
    ensures DecideAll(db, ds[..i + 1], now) == Decide(DecideAll(db, ds[..i], now), ds[i], now)
    decreases i
  {
    hide Decide;
    if i == 0 {
      assert ds[..1] == [ds[0]] && ds[..0] == [] && ds[..1][1..] == [];
    } else {
      DecideNext(Decide(db, ds[0], now), ds[1..], i - 1, now);
      assert ds[..i + 1][1..] == ds[1..][..i] && ds[..i][1..] == ds[1..][..i - 1];
    }
  }

  lemma ReportsNext(db: Db, ds: seq<Decision>, i: nat, now: Time, effects: map<SnapshotId, Effect>)
    requires i < |ds| && Reports(db, ds[..i], now, effects)
    ensures var d := DecideAll(db, ds[..i], now);
            var after := if ds[i].Quarantine? then effects[ds[i].id := EffectOf(d, ds[i], now)] else effects;
            Reports(db, ds[..i + 1], now, after)
  {
    hide EffectOf, DecideAll;
    var (a, b) := (ds[..i], ds[..i + 1]);
    var d := DecideAll(db, a, now);
    var after := if ds[i].Quarantine? then effects[ds[i].id := EffectOf(d, ds[i], now)] else effects;
    forall j | 0 <= j < |b| && b[j].Quarantine? ensures b[j].id in after { if j < i { assert a[j] == b[j]; } }
    forall id | id in after ensures exists j: nat :: ReportsOne(db, b, now, after[id], j, id) {
      if ds[i].Quarantine? && ds[i].id == id {
        assert b[..i] == a;
        assert ReportsOne(db, b, now, after[id], i, id);
      } else {
        var j: nat :| ReportsOne(db, a, now, effects[id], j, id);
        assert b[..j] == a[..j] && b[j] == a[j];
        forall x | j < x < |b| ensures !(b[x].Quarantine? && b[x].id == id) { if x < i { assert a[x] == b[x]; } }
        assert ReportsOne(db, b, now, after[id], j, id);
      }
    }
  }

  /** The anchor's row holds a blob the caller did not read: nothing is known of its signing. */
  predicate Unread(urls: Urls, seed: Seed, a: CachedAnchor) {
    var k := UrlKey(seed.key.scheme, seed.key.host, a.path);
    k in urls && urls[k].blob.Some? && urls[k].blob != a.blob
  }

  /** The proof of signing the cached anchors give, one anchor at a time. */
  method SeenEach(urls: Urls, seed: Seed) returns (seen: Time, unproven: bool)
    ensures seen == SeenAt(urls, seed, |seed.cached|)
    ensures unproven <==> exists a :: a in seed.cached && Unread(urls, seed, a)
  {
    seen, unproven := seed.signedSeenAt, false;
    for i := 0 to |seed.cached|
      invariant seen == SeenAt(urls, seed, i)
      invariant unproven <==> exists a :: a in seed.cached[..i] && Unread(urls, seed, a)
    {
      var a := seed.cached[i];
      assert seed.cached[..i + 1] == seed.cached[..i] + [a];
      assert forall x :: x in seed.cached[..i + 1] <==> x in seed.cached[..i] || x == a;
      var k := UrlKey(seed.key.scheme, seed.key.host, a.path);
      var cur := if k in urls then urls[k].blob else None;
      assert Unread(urls, seed, a) <==> cur != a.blob && cur.Some?;
      if cur != a.blob {
        unproven := unproven || cur.Some?;
      } else if a.signed && a.blob.Some? {
        var at := a.seenAt;
        if at <= 0 { at := seed.requestedAt; }
        seen := Max(seen, at);
      }
    }
    assert seed.cached[..|seed.cached|] == seed.cached;
  }

  /** The base's anchors: both schemes, the base and its twin, three names each. */
  method AnchorList(host: string, base: string) returns (ks: seq<UrlKey>)
    ensures Elements(ks) == BaseAnchors(host, base)
  {
    var schemes, suites, names := [Http, Https], [base, base + "/."], ["InRelease", "Release", "Release.gpg"];
    ks := [];
    for i := 0 to |schemes|
      invariant forall k :: k in ks <==>
                exists a, b, c ::
                  0 <= a < i && 0 <= b < |suites| && 0 <= c < |names|
                    && k == UrlKey(schemes[a], host, suites[b] + "/" + names[c])
    {
      ghost var outer := ks;
      for j := 0 to |suites|
        invariant forall k :: k in ks <==>
                  k in outer || exists b, c ::
                    0 <= b < j && 0 <= c < |names| && k == UrlKey(schemes[i], host, suites[b] + "/" + names[c])
      {
        ghost var inner := ks;
        for l := 0 to |names|
          invariant forall k :: k in ks <==>
                    k in inner || exists c :: 0 <= c < l && k == UrlKey(schemes[i], host, suites[j] + "/" + names[c])
        {
          ks := ks + [UrlKey(schemes[i], host, suites[j] + "/" + names[l])];
        }
      }
    }
    AnchorSet(host, base, ks, schemes, suites, names);
  }

  lemma AnchorSet(host: string, base: string, ks: seq<UrlKey>, schemes: seq<Scheme>, suites: seq<string>,
                  names: seq<string>)
    requires schemes == [Http, Https] && suites == [base, base + "/."]
    requires names == ["InRelease", "Release", "Release.gpg"]
    requires forall k :: k in ks <==>
             exists a, b, c ::
               0 <= a < |schemes| && 0 <= b < |suites| && 0 <= c < |names|
                 && k == UrlKey(schemes[a], host, suites[b] + "/" + names[c])
    ensures Elements(ks) == BaseAnchors(host, base)
  {
    forall k | k in ks ensures k in BaseAnchors(host, base) {
      var a, b, c :| 0 <= a < |schemes| && 0 <= b < |suites| && 0 <= c < |names|
        && k == UrlKey(schemes[a], host, suites[b] + "/" + names[c]);
      IsBaseAnchor(host, base, schemes[a], suites[b], names[c]);
    }
    forall k | k in BaseAnchors(host, base) ensures k in ks {
      var scheme, suite, name :| scheme in {Http, Https} && suite in {base, base + "/."}
        && name in {"InRelease", "Release", "Release.gpg"}
        && k == UrlKey(scheme, host, suite + "/" + name);
      var a := if scheme == Http then 0 else 1;
      var b := if suite == base then 0 else 1;
      var c := if name == "InRelease" then 0 else if name == "Release" then 1 else 2;
      assert schemes[a] == scheme && suites[b] == suite && names[c] == name;
    }
  }

  lemma IsBaseAnchor(host: string, base: string, scheme: Scheme, suite: string, name: string)
    requires scheme in {Http, Https} && suite in {base, base + "/."} && name in {"InRelease", "Release", "Release.gpg"}
    ensures UrlKey(scheme, host, suite + "/" + name) in BaseAnchors(host, base)
  {
  }
}
