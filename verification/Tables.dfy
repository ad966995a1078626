/** The cache database: its tables as maps, and the statements the writer's transactions are made of.
    Every function here changes one table (or the url_path and blob tables together). */
module Tables {
  import opened Text

  type Time = int               // Unix seconds; the clock may step either way
  type Hash = nat               // a sha256, as an opaque value
  type SnapshotId = nat

  datatype Scheme = Http | Https
  datatype SuiteKey = SuiteKey(scheme: Scheme, host: string, path: string)
  datatype UrlKey = UrlKey(scheme: Scheme, host: string, path: string)
  datatype MarkerKey = MarkerKey(scheme: Scheme, host: string, base: string)
  datatype MemberKey = MemberKey(snapshot: SnapshotId, path: string)
  datatype PackageKey = PackageKey(url: UrlKey, snapshot: SnapshotId)

  datatype Blob = Blob(refcount: int, zeroedAt: Option<Time>)
  datatype UrlRow = UrlRow(blob: Option<Hash>, isMetadata: bool, lastRequested: Option<Time>, requestCount: nat,
                           lastFetched: Option<Time>, droppedAt: Option<Time>)
  datatype SuiteRow = SuiteRow(rowid: nat, generation: nat, current: Option<SnapshotId>, lastRequested: Option<Time>)

  /** How a snapshot's Release metadata was anchored, and the blobs that hold it:
      one file (InRelease, or an unsigned Release), or Release with Release.gpg. */
  datatype Form = Inline | Detached | Unsigned
  datatype Anchors = Single(file: Hash) | Pair(release: Hash, gpg: Hash)
  datatype Snapshot = Snapshot(key: SuiteKey, form: Form, anchors: Anchors, createdAt: Time, heartbeatAt: Time,
                               adoptedAt: Option<Time>, retiredAt: Option<Time>)
  datatype Member = Member(blob: Hash, declared: Hash)
  datatype Package = Package(declared: Hash, name: string, arch: string, version: string, flat: string)

  type Blobs = map<Hash, Blob>
  type Urls = map<UrlKey, UrlRow>
  type Suites = map<SuiteKey, SuiteRow>
  type Snapshots = map<SnapshotId, Snapshot>
  type Members = map<MemberKey, Member>
  type Skipped = map<MemberKey, Hash>
  type Packages = map<PackageKey, Package>
  type Markers = map<MarkerKey, Time>

  datatype Db = Db(blobs: Blobs, urls: Urls, suites: Suites, snapshots: Snapshots, members: Members, skipped: Skipped,
                   packages: Packages, markers: Markers, queue: set<SnapshotId>, nextId: SnapshotId, clock: nat)

  function Max(a: int, b: int): int { if a < b then b else a }
  function Min(a: int, b: int): int { if a < b then a else b }

  // ----- names -----

  /** The signed-seen marker base of a suite: the flat twins "/repo" and "/repo/." share it. */
  function MarkerBase(suite: string): string { TrimSuffix(suite, "/.") }

  /** Whether a suite path is the base or the base's "/." twin. */
  predicate AtBase(suite: string, base: string) { suite == base || suite == base + "/." }

  lemma MarkerBaseTwin(suite: string)
    ensures AtBase(suite, MarkerBase(suite))
  {
    if HasSuffix(suite, "/.") {
      assert suite == suite[..|suite| - 2] + suite[|suite| - 2..];
    }
  }

  function MarkerOf(key: SuiteKey): MarkerKey { MarkerKey(key.scheme, key.host, MarkerBase(key.path)) }

  function AnchorNames(form: Form): seq<string> {
    match form
    case Inline => ["InRelease"]
    case Detached => ["Release", "Release.gpg"]
    case Unsigned => ["Release"]
  }

  /** The blob of a snapshot's anchor file: an unsigned snapshot keeps its Release in the single slot. */
  function AnchorHash(form: Form, name: string, anchors: Anchors): Option<Hash> {
    if (name == "InRelease" && form.Inline?) || (name == "Release" && form.Unsigned?) then
      if anchors.Single? then Some(anchors.file) else None
    else if name == "Release" && form.Detached? then
      if anchors.Pair? then Some(anchors.release) else None
    else if name == "Release.gpg" && form.Detached? then
      if anchors.Pair? then Some(anchors.gpg) else None
    else None
  }

  function AnchorUrl(key: SuiteKey, name: string): UrlKey { UrlKey(key.scheme, key.host, key.path + "/" + name) }

  function AnchorBlobs(anchors: Anchors): set<Hash> {
    match anchors case Single(f) => {f} case Pair(r, g) => {r, g}
  }

  // ----- blob: pins -----

  function Bumped(b: Blob): Blob {
    Blob(b.refcount + 1, if b.refcount + 1 > 0 then None else b.zeroedAt)
  }

  function Released(b: Blob, now: Time): Blob {
    Blob(b.refcount - 1,
         if b.zeroedAt.Some? then b.zeroedAt else if b.refcount - 1 <= 0 then Some(now) else None)
  }

  function Bump(blobs: Blobs, hs: set<Hash>): Blobs {
    map h | h in blobs :: if h in hs then Bumped(blobs[h]) else blobs[h]
  }

  function Release(blobs: Blobs, hs: set<Hash>, now: Time): Blobs {
    map h | h in blobs :: if h in hs then Released(blobs[h], now) else blobs[h]
  }

  /** The distinct blobs a snapshot's members name. */
  function PinSet(members: Members, s: SnapshotId): set<Hash> {
    set k | k in members && k.snapshot == s :: members[k].blob
  }

  function Currents(suites: Suites): set<SnapshotId> {
    set k | k in suites && suites[k].current.Some? :: suites[k].current.value
  }

  /** The current snapshots with at least one member naming h. */
  function Pinners(suites: Suites, members: Members, h: Hash): set<SnapshotId> {
    set s | s in Currents(suites) && h in PinSet(members, s)
  }

  // ----- url_path with blob: deleting a row releases its blob once -----

  datatype Files = Files(urls: Urls, blobs: Blobs)

  function DropRow(f: Files, k: UrlKey, now: Time): Files {
    if k !in f.urls then f
    else
      Files(f.urls - {k}, match f.urls[k].blob case None => f.blobs case Some(h) => Release(f.blobs, {h}, now))
  }

  /** The rows of ks that name h. */
  function Naming(urls: Urls, ks: set<UrlKey>, h: Hash): set<UrlKey> {
    set k | k in ks && k in urls && urls[k].blob == Some(h)
  }

  /** A blob after n of its rows are deleted at one time. */
  function Lowered(b: Blob, n: nat, now: Time): Blob {
    Blob(b.refcount - n,
         if n == 0 || b.zeroedAt.Some? then b.zeroedAt else if b.refcount - n <= 0 then Some(now) else None)
  }

  /** Deleting a set of rows: each blob is released once for each of its rows. */
  function DropKeys(f: Files, ks: set<UrlKey>, now: Time): Files {
    Files(f.urls - ks, map h | h in f.blobs :: Lowered(f.blobs[h], |Naming(f.urls, ks, h)|, now))
  }

  lemma LoweredNext(b: Blob, n: nat, now: Time)
    ensures Released(Lowered(b, n, now), now) == Lowered(b, n + 1, now)
  {
  }

  lemma DropOneMore(f: Files, ks: set<UrlKey>, k: UrlKey, now: Time)
    requires k !in ks
    ensures DropRow(DropKeys(f, ks, now), k, now) == DropKeys(f, ks + {k}, now)
  {
    var (g, one, after) := (DropKeys(f, ks, now), DropRow(DropKeys(f, ks, now), k, now), DropKeys(f, ks + {k}, now));
    assert one.urls == after.urls;
    assert one.blobs.Keys == after.blobs.Keys;
    forall h | h in f.blobs ensures one.blobs[h] == after.blobs[h] { DropOneBlob(f, ks, k, h, now); }
    assert one.blobs == after.blobs;
  }

  lemma DropOneBlob(f: Files, ks: set<UrlKey>, k: UrlKey, h: Hash, now: Time)
    requires k !in ks && h in f.blobs
    ensures h in DropRow(DropKeys(f, ks, now), k, now).blobs
    ensures DropRow(DropKeys(f, ks, now), k, now).blobs[h] == Lowered(f.blobs[h], |Naming(f.urls, ks + {k}, h)|, now)
  {
    hide Lowered, Released;
    var g := DropKeys(f, ks, now);
    var (some, more) := (Naming(f.urls, ks, h), Naming(f.urls, ks + {k}, h));
    assert g.blobs[h] == Lowered(f.blobs[h], |some|, now);
    if k in f.urls && f.urls[k].blob == Some(h) {
      assert more == some + {k} && k !in some;
      LoweredNext(f.blobs[h], |some|, now);
      assert g.urls[k] == f.urls[k];
    } else {
      assert more == some;
    }
  }

  lemma DropNone(f: Files, now: Time)
    ensures DropKeys(f, {}, now) == f
  {
    assert f.urls - {} == f.urls;
    forall h | h in f.blobs ensures DropKeys(f, {}, now).blobs[h] == f.blobs[h] { assert Naming(f.urls, {}, h) == {}; }
    assert DropKeys(f, {}, now).blobs == f.blobs;
  }

  lemma DropAgain(f: Files, ks: set<UrlKey>, k: UrlKey, now: Time)
    requires k in ks || k !in f.urls
    ensures DropRow(DropKeys(f, ks, now), k, now) == DropKeys(f, ks + {k}, now)
  {
    if k in ks { assert ks + {k} == ks; } else { DropOneMore(f, ks, k, now); }
  }

  // ----- suite_signed_seen -----

  function MarkSeen(markers: Markers, m: MarkerKey, at: Time): Markers {
    markers[m := if m in markers then Max(markers[m], at) else at]
  }

  /** Moves the base's existing markers, under both schemes, up to now. */
  function StampBase(markers: Markers, host: string, base: string, now: Time): Markers {
    map m | m in markers :: if m.host == host && m.base == base then Max(markers[m], now) else markers[m]
  }

  /** The host's suite rows at the base or its twin, under either scheme. */
  function BaseRows(suites: Suites, host: string, base: string): set<SuiteKey> {
    set k | k in suites && k.host == host && AtBase(k.path, base)
  }

  // ----- suite_snapshot -----

  /** The never-downgrade snapshot clause: adopted, not retired, inline or detached. */
  predicate LiveSigned(s: Snapshot) {
    s.adoptedAt.Some? && s.retiredAt.None? && !s.form.Unsigned?
  }

  function Retire(snapshots: Snapshots, key: SuiteKey, now: Time): Snapshots {
    map s | s in snapshots ::
      if snapshots[s].key == key && snapshots[s].retiredAt.None?
      then snapshots[s].(retiredAt := Some(now)) else snapshots[s]
  }

  // ----- maxima -----

  lemma SomeTime(ts: set<Time>)
    ensures ts == {} || exists t :: t in ts
  {
    if !(exists t :: t in ts) { assert ts == {}; }
  }

  lemma {:induction false} MaxExists(ts: set<Time>)
    requires ts != {}
    ensures exists m :: m in ts && forall t :: t in ts ==> t <= m
    decreases |ts|
  {
    SomeTime(ts);
    var x :| x in ts;
    var rest := ts - {x};
    if rest == {} {
      assert x in ts && forall t :: t in ts ==> t == x || t in rest;
    } else {
      MaxExists(rest);
      var m :| m in rest && forall t :: t in rest ==> t <= m;
      assert forall t :: t in ts ==> t == x || t in rest;
      assert Max(x, m) in ts;
    }
  }

  /** SQL's MAX: NULL over no rows. */
  function MaxOf(ts: set<Time>): (m: Option<Time>)
    ensures m.None? <==> ts == {}
    ensures m.Some? ==> m.value in ts && forall t :: t in ts ==> t <= m.value
  {
    if ts == {} then None
    else
      MaxExists(ts);
      var m :| m in ts && forall t :: t in ts ==> t <= m;
      Some(m)
  }
}
