/** What each writer transaction leaves in the tables. A transaction that fails leaves them as they were,
    so it is given here by the error it reports or by the whole database it commits. */
module Transactions {
  import opened Text
  import opened Tables
  import SuitePaths

  datatype Error =
    | RowRefused                 // a constraint, or a row there already with other content, refuses a row
    | UnknownSnapshot | AlreadyAdopted | SnapshotRetired | UnsignedDowngrade | SuiteGone | NotCurrent | InvalidForm
    | NaturalKeyAdopted(id: SnapshotId) | ForeignMember | NoSkipRow | WrongContent | MetadataChanged | InvalidAnchor
    | NeedsAdoption | WrongSuite

  datatype Result<T> = Ok(value: T) | Err(error: Error)

  /** The database after a transaction: unchanged when it failed. */
  function Final(db: Db, r: Result<Db>): Db { if r.Ok? then r.value else db }

  // ----- rows inserted and upserted in a loop -----

  function Added<K, V>(t: map<K, V>, rows: seq<(K, V)>): map<K, V> {
    if rows == [] then t
    else
      var last := rows[|rows| - 1];
      Added(t, rows[..|rows| - 1])[last.0 := last.1]
  }

  /** Every row is new and no two have the same key: each INSERT succeeds. */
  predicate AllNew<K(==), V>(t: map<K, V>, rows: seq<(K, V)>) {
    && (forall i :: 0 <= i < |rows| ==> rows[i].0 !in t)
    && (forall i, j :: 0 <= i < j < |rows| ==> rows[i].0 != rows[j].0)
  }

  function Keyed<V>(id: SnapshotId, rows: seq<(string, V)>): seq<(MemberKey, V)> {
    seq(|rows|, i requires 0 <= i < |rows| => (MemberKey(id, rows[i].0), rows[i].1))
  }

  function KeyedPackages(id: SnapshotId, rows: seq<(UrlKey, Package)>): seq<(PackageKey, Package)> {
    seq(|rows|, i requires 0 <= i < |rows| => (PackageKey(rows[i].0, id), rows[i].1))
  }

  // ----- blob -----

  function PutBlob(db: Db, h: Hash, now: Time): Db {
    var b := if h !in db.blobs then Blob(0, Some(now))
             else if db.blobs[h].refcount <= 0 then db.blobs[h].(zeroedAt := Some(now))
             else db.blobs[h];
    db.(blobs := db.blobs[h := b])
  }

  function HeartbeatBlobs(db: Db, hs: set<Hash>, now: Time): Db {
    db.(blobs := map h | h in db.blobs ::
          if h in hs && db.blobs[h].refcount <= 0 then db.blobs[h].(zeroedAt := Some(now)) else db.blobs[h])
  }

  predicate UrlNames(urls: Urls, h: Hash) { exists k :: k in urls && urls[k].blob == Some(h) }
  predicate MemberNames(members: Members, h: Hash) { exists m :: m in members && members[m].blob == h }
  predicate AnchorNamesBlob(snapshots: Snapshots, h: Hash) {
    exists s :: s in snapshots && h in AnchorBlobs(snapshots[s].anchors)
  }

  /** Some url_path row, member or anchor references the blob. */
  predicate Referenced(db: Db, h: Hash) {
    UrlNames(db.urls, h) || MemberNames(db.members, h) || AnchorNamesBlob(db.snapshots, h)
  }

  /** The blobs whose grace has passed and that nothing references. */
  function Reapable(db: Db, cutoff: Time): set<Hash> {
    set h | h in db.blobs && db.blobs[h].refcount <= 0 && db.blobs[h].zeroedAt.Some?
            && db.blobs[h].zeroedAt.value < cutoff && !Referenced(db, h)
  }

  function ReapBlobs(db: Db, hs: set<Hash>): Db { db.(blobs := db.blobs - hs) }

  // ----- url_path -----

  predicate Stored(blobs: Blobs, h: Option<Hash>) { h.Some? ==> h.value in blobs }

  function PutUrl(db: Db, k: UrlKey, row: UrlRow): Result<Db> {
    if !Stored(db.blobs, row.blob) then Err(RowRefused)
    else Ok(db.(urls := db.urls[k := row.(droppedAt := None)]))
  }

  function TouchUrl(db: Db, k: UrlKey, now: Time): Db {
    if k !in db.urls then db
    else
      var row := db.urls[k];
      db.(urls := db.urls[k := row.(requestCount := row.requestCount + 1, lastRequested := Some(now),
        droppedAt := None)])
  }

  function DropUrls(db: Db, ks: set<UrlKey>, now: Time): Db {
    var f := DropKeys(Files(db.urls, db.blobs), ks, now);
    db.(urls := f.urls, blobs := f.blobs)
  }

  /** Compare-and-set of a row's blob; it keeps the drop stamp. */
  function RefreshUrl(db: Db, k: UrlKey, was: Hash, new_: Hash, now: Time): Result<Db> {
    if k !in db.urls || db.urls[k].blob != Some(was) then Ok(db)
    else if new_ !in db.blobs then Err(RowRefused)
    else
      var row := db.urls[k];
      var fetched := if was == new_ then row.lastFetched
                     else Some(Max(now, (if row.lastFetched.Some? then row.lastFetched.value else 0) + 1));
      Ok(db.(urls := db.urls[k := row.(blob := Some(new_), lastFetched := fetched)]))
  }

  /** The rows that still hold the content the caller saw. */
  function Unchanged(urls: Urls, rows: seq<(UrlKey, Option<Hash>)>): set<UrlKey> {
    set i | 0 <= i < |rows| && rows[i].0 in urls && urls[rows[i].0].blob == rows[i].1 :: rows[i].0
  }

  /** Re-warming a package: hotness is kept, the drop stamp cleared. */
  function WarmRow(urls: Urls, k: UrlKey, h: Hash, now: Time): Urls {
    urls[k := if k in urls then urls[k].(blob := Some(h), lastFetched := Some(now), droppedAt := None)
              else UrlRow(Some(h), false, None, 0, Some(now), None)]
  }

  function WarmRows(urls: Urls, rows: seq<(UrlKey, Hash)>, now: Time): Urls {
    if rows == [] then urls
    else
      var last := rows[|rows| - 1];
      WarmRow(WarmRows(urls, rows[..|rows| - 1], now), last.0, last.1, now)
  }

  function SeedRow(urls: Urls, k: UrlKey, h: Option<Hash>, now: Time): Urls {
    if h.None? then urls
    else
      urls[k := if k in urls then urls[k].(blob := h, isMetadata := true, lastFetched := Some(now), droppedAt := None)
                else UrlRow(h, true, None, 0, Some(now), None)]
  }

  /** The adopted snapshot's anchors, served at the suite's own paths. */
  function SeedAnchors(urls: Urls, s: Snapshot, names: seq<string>, now: Time): Urls {
    if names == [] then urls
    else
      var name := names[|names| - 1];
      SeedRow(SeedAnchors(urls, s, names[..|names| - 1], now), AnchorUrl(s.key, name),
        AnchorHash(s.form, name, s.anchors), now)
  }

  // ----- candidates -----

  datatype Candidate = Candidate(key: SuiteKey, form: Option<Form>, inRelease: Option<Hash>, release: Option<Hash>,
    gpg: Option<Hash>)

  predicate IsSingle(c: Candidate) { c.inRelease.Some? && c.release.None? && c.gpg.None? }
  predicate IsPair(c: Candidate) { c.inRelease.None? && c.release.Some? && c.gpg.Some? }

  /** The candidate's form; an unset one is read from the anchors it brings. */
  function CandidateForm(c: Candidate): (r: Result<Form>)
    ensures r.Ok? <==> if c.form == None then IsSingle(c) || IsPair(c)
                       else if c.form == Some(Detached) then IsPair(c) else IsSingle(c)
    ensures r.Ok? ==> (r.value.Detached? <==> IsPair(c)) && (c.form.Some? ==> r.value == c.form.value)
    ensures r.Ok? && c.form == None ==> !r.value.Unsigned?
  {
    match c.form
    case None => if IsSingle(c) then Ok(Inline) else if IsPair(c) then Ok(Detached) else Err(InvalidForm)
    case Some(Detached) => if IsPair(c) then Ok(Detached) else Err(InvalidForm)
    case Some(f) => if IsSingle(c) then Ok(f) else Err(InvalidForm)
  }

  function AnchorsOf(c: Candidate): Anchors
    requires IsSingle(c) || IsPair(c)
  {
    if IsSingle(c) then Single(c.inRelease.value) else Pair(c.release.value, c.gpg.value)
  }

  /** COALESCE(inrelease_hash, release_hash). */
  function NaturalHash(a: Anchors): Hash { if a.Single? then a.file else a.release }

  predicate SameNatural(s: Snapshot, key: SuiteKey, form: Form, h: Hash) {
    s.retiredAt.None? && s.key == key && s.form == form && NaturalHash(s.anchors) == h
  }

  /** `existing` is the non-retired snapshot with this natural key, if there is one. */
  predicate FindsNatural(snapshots: Snapshots, key: SuiteKey, form: Form, h: Hash, existing: Option<SnapshotId>) {
    match existing
    case Some(s) => s in snapshots && SameNatural(snapshots[s], key, form, h)
    case None => forall s :: s in snapshots ==> !SameNatural(snapshots[s], key, form, h)
  }

  /** A new candidate, or the un-adopted one with its natural key, refreshed. */
  function InsertCandidate(db: Db, c: Candidate, existing: Option<SnapshotId>, now: Time): Result<Db>
    requires existing.Some? ==> existing.value in db.snapshots
  {
    var form := CandidateForm(c);
    if form.Err? then Err(form.error)
    else
      var anchors := AnchorsOf(c);
      match existing
      case None =>
        if !(AnchorBlobs(anchors) <= db.blobs.Keys) then Err(RowRefused)
        else
          Ok(db.(snapshots := db.snapshots[db.nextId := Snapshot(c.key, form.value, anchors, now, now, None, None)],
                 nextId := db.nextId + 1))
      case Some(id) =>
        var s := db.snapshots[id];
        if s.adoptedAt.Some? then Err(NaturalKeyAdopted(id))
        else if !(AnchorBlobs(anchors) <= db.blobs.Keys) then Err(RowRefused)
        else
          Ok(db.(snapshots := db.snapshots[id := s.(anchors := anchors, heartbeatAt := now)]))
  }

  function HeartbeatSnapshot(db: Db, id: SnapshotId, now: Time): Db {
    if id !in db.snapshots then db
    else db.(snapshots := db.snapshots[id := db.snapshots[id].(heartbeatAt := now)])
  }

  // ----- signed history -----

  /** A marker of the base under either scheme. */
  predicate Marked(markers: Markers, host: string, base: string) {
    exists m :: m in markers && m.host == host && m.base == base
  }

  /** A live signed snapshot of the base or its twin under either scheme. */
  predicate HasLiveSigned(snapshots: Snapshots, host: string, base: string) {
    exists s ::
      s in snapshots && snapshots[s].key.host == host && AtBase(snapshots[s].key.path, base) && LiveSigned(snapshots[s])
  }

  /** What refuses an unsigned adoption. */
  predicate SignedHistory(db: Db, host: string, base: string) {
    Marked(db.markers, host, base) || HasLiveSigned(db.snapshots, host, base)
  }

  // ----- commit -----

  function AdoptedTimes(snapshots: Snapshots, key: SuiteKey): set<Time> {
    set s | s in snapshots && snapshots[s].key == key && snapshots[s].adoptedAt.Some? :: snapshots[s].adoptedAt.value
  }

  function AnchorFetches(urls: Urls, key: SuiteKey): set<Time> {
    set n | n in {"InRelease", "Release", "Release.gpg"} && AnchorUrl(key, n) in urls
            && urls[AnchorUrl(key, n)].lastFetched.Some? :: urls[AnchorUrl(key, n)].lastFetched.value
  }

  function After(t: Time, newest: Option<Time>): Time { if newest.Some? then Max(t, newest.value + 1) else t }

  /** adopted_at: past every earlier adoption of the suite and, for its first, past the fetch of its anchors. */
  function AdoptionStamp(db: Db, key: SuiteKey, now: Time): (t: Time)
    ensures t >= now && forall a :: a in AdoptedTimes(db.snapshots, key) ==> a < t
  {
    var stamp := After(now, MaxOf(AdoptedTimes(db.snapshots, key)));
    if key in db.suites && db.suites[key].current.Some? then stamp
    else After(stamp, MaxOf(AnchorFetches(db.urls, key)))
  }

  /** What an adoption brings besides its snapshot. */
  datatype Adoption = Adoption(members: seq<(string, Member)>, skipped: seq<(string, Hash)>,
                               packages: seq<(UrlKey, Package)>, prefetched: seq<(UrlKey, Hash)>)

  predicate BlobsStored(blobs: Blobs, rows: seq<(string, Member)>) {
    forall i :: 0 <= i < |rows| ==> rows[i].1.blob in blobs
  }

  predicate WarmStored(blobs: Blobs, rows: seq<(UrlKey, Hash)>) { forall i :: 0 <= i < |rows| ==> rows[i].1 in blobs }

  function ReleasePrior(blobs: Blobs, members: Members, prior: Option<SnapshotId>, now: Time): Blobs {
    if prior.Some? then Release(blobs, PinSet(members, prior.value), now) else blobs
  }

  /** Why a commit is refused, if it is. */
  function CommitError(db: Db, id: SnapshotId, a: Adoption): Option<Error> {
    if id !in db.snapshots then Some(UnknownSnapshot)
    else
      var s := db.snapshots[id];
      if s.adoptedAt.Some? then Some(AlreadyAdopted)
      else if s.retiredAt.Some? then Some(SnapshotRetired)
      else if s.form.Unsigned? && SignedHistory(db, s.key.host, MarkerBase(s.key.path)) then Some(UnsignedDowngrade)
      else if !AllNew(db.members, Keyed(id, a.members)) then Some(RowRefused)
      else if !BlobsStored(db.blobs, a.members) then Some(RowRefused)
      else if !AllNew(db.skipped, Keyed(id, a.skipped)) then Some(RowRefused)
      else if !AllNew(db.packages, KeyedPackages(id, a.packages)) then Some(RowRefused)
      else if !WarmStored(db.blobs, a.prefetched) then Some(RowRefused)
      else if s.key !in db.suites then Some(SuiteGone)
      else None
  }

  function Committed(db: Db, id: SnapshotId, a: Adoption, now: Time): Db
    requires CommitError(db, id, a).None?
  {
    var s := db.snapshots[id];
    var members := Added(db.members, Keyed(id, a.members));
    var prior := db.suites[s.key].current;
    db.(members := members,
        skipped := Added(db.skipped, Keyed(id, a.skipped)),
        packages := Added(db.packages, KeyedPackages(id, a.packages)),
        urls := SeedAnchors(WarmRows(db.urls, a.prefetched, now), s, AnchorNames(s.form), now),
        blobs := ReleasePrior(Bump(db.blobs, PinSet(members, id)), members, prior, now),
        suites := db.suites[s.key := db.suites[s.key].(current := Some(id))],
        snapshots := db.snapshots[id := s.(adoptedAt := Some(AdoptionStamp(db, s.key, now)))],
        markers := if s.form.Unsigned? then db.markers else MarkSeen(db.markers, MarkerOf(s.key), now))
  }

  function CommitAdoption(db: Db, id: SnapshotId, a: Adoption, now: Time): Result<Db> {
    var e := CommitError(db, id, a);
    if e.Some? then Err(e.value) else Ok(Committed(db, id, a, now))
  }

  // ----- members of the current snapshot -----

  predicate IsCurrent(suites: Suites, id: SnapshotId) { id in Currents(suites) }

  /** A blob is pinned once for a snapshot, however many members name it. */
  function PinOnce(blobs: Blobs, members: Members, id: SnapshotId, h: Hash): Blobs {
    if h in PinSet(members, id) then blobs else Bump(blobs, {h})
  }

  /** Each member is the skipped content at one more path. */
  predicate RepairsSkip(db: Db, id: SnapshotId, path: string, rows: seq<(MemberKey, Member)>) {
    && MemberKey(id, path) in db.skipped
    && (forall i :: 0 <= i < |rows| ==>
          rows[i].0.snapshot == id && rows[i].1
            == Member(db.skipped[MemberKey(id, path)], db.skipped[MemberKey(id, path)]))
    && (exists i :: 0 <= i < |rows| && rows[i].0.path == path)
  }

  predicate NoConflict(members: Members, rows: seq<(MemberKey, Member)>) {
    forall i :: 0 <= i < |rows| ==> rows[i].0 in members ==> members[rows[i].0] == rows[i].1
  }

  function RepairSkipped(db: Db, id: SnapshotId, path: string, rows: seq<(MemberKey, Member)>): Result<Db> {
    if !IsCurrent(db.suites, id) then Err(NotCurrent)
    else if MemberKey(id, path) !in db.skipped then Err(NoSkipRow)
    else if !RepairsSkip(db, id, path, rows) then Err(WrongContent)
    else if !NoConflict(db.members, rows) then Err(RowRefused)
    else
      var h := db.skipped[MemberKey(id, path)];
      if h !in db.blobs then Err(RowRefused)
      else
        Ok(db.(skipped := db.skipped - {MemberKey(id, path)},
               blobs := PinOnce(db.blobs, db.members, id, h),
               members := Added(db.members, rows)))
  }

  datatype Pins = Pins(members: Members, blobs: Blobs)

  /** One reconciled member: identical rows are skipped, a new one pins its blob once for the snapshot. */
  function ReconcileMember(p: Pins, id: SnapshotId, row: (MemberKey, Member)): Result<Pins> {
    var (k, m) := row;
    if k.snapshot != id then Err(ForeignMember)
    else if k in p.members then (if p.members[k].blob == m.blob then Ok(p) else Err(RowRefused))
    else if m.blob !in p.blobs then Err(RowRefused)
    else Ok(Pins(p.members[k := m], PinOnce(p.blobs, p.members, id, m.blob)))
  }

  function ReconcileMembers(p: Pins, id: SnapshotId, rows: seq<(MemberKey, Member)>): Result<Pins>
    decreases |rows|
  {
    if rows == [] then Ok(p)
    else
      var r := ReconcileMember(p, id, rows[0]);
      if r.Err? then r else ReconcileMembers(r.value, id, rows[1..])
  }

  predicate Contradicts(have: string, want: string) { have != "" && want != "" && have != want }
  function Healed(have: string, want: string): string { if have == "" then want else have }

  /** One reconciled declaration: a contradicting one fails, an empty identity column is healed. */
  function ReconcilePackage(packages: Packages, snapshots: Snapshots, row: (PackageKey, Package)): Result<Packages> {
    var (k, p) := row;
    if k !in packages then (if k.snapshot in snapshots then Ok(packages[k := p]) else Err(RowRefused))
    else
      var have := packages[k];
      if have.declared != p.declared || Contradicts(have.name, p.name) || Contradicts(have.arch, p.arch)
         || Contradicts(have.version, p.version) then Err(RowRefused)
      else
        Ok(packages[k := have.(name := Healed(have.name, p.name), arch := Healed(have.arch, p.arch),
                               version := Healed(have.version, p.version))])
  }

  function ReconcilePackages(packages: Packages, snapshots: Snapshots,
                             rows: seq<(PackageKey, Package)>): Result<Packages>
    decreases |rows|
  {
    if rows == [] then Ok(packages)
    else
      var r := ReconcilePackage(packages, snapshots, rows[0]);
      if r.Err? then r else ReconcilePackages(r.value, snapshots, rows[1..])
  }

  function Reconcile(db: Db, id: SnapshotId, rows: seq<(MemberKey, Member)>,
                     packages: seq<(PackageKey, Package)>): Result<Db> {
    if !IsCurrent(db.suites, id) then Err(NotCurrent)
    else
      var p := ReconcileMembers(Pins(db.members, db.blobs), id, rows);
      if p.Err? then Err(p.error)
      else
        var q := ReconcilePackages(db.packages, db.snapshots, packages);
        if q.Err? then Err(q.error)
        else Ok(db.(members := p.value.members, blobs := p.value.blobs, packages := q.value))
  }

  // ----- deleting suites -----

  /** The suite itself has a live signed snapshot. */
  predicate SuiteSigned(snapshots: Snapshots, key: SuiteKey) {
    exists s :: s in snapshots && snapshots[s].key == key && LiveSigned(snapshots[s])
  }

  /** deleteSuiteTx past its checks: the history is marked, the pins released, the snapshots retired,
      the row deleted and the base's markers moved up to now. */
  function DeleteSuite(db: Db, key: SuiteKey, now: Time): Db
    requires key in db.suites
  {
    var marked := if SuiteSigned(db.snapshots, key) then MarkSeen(db.markers, MarkerOf(key), now) else db.markers;
    db.(blobs := ReleasePrior(db.blobs, db.members, db.suites[key].current, now),
        snapshots := Retire(db.snapshots, key, now),
        suites := db.suites - {key},
        markers := StampBase(marked, key.host, MarkerBase(key.path), now))
  }

  datatype DeleteOutcome = Kept | Deleted | NoRow

  /** `cutoff` None deletes whatever the row's last request. */
  function DeleteCheck(db: Db, key: SuiteKey, want: Option<SnapshotId>, cutoff: Option<Time>): DeleteOutcome {
    if key !in db.suites then NoRow
    else
      var row := db.suites[key];
      if cutoff.Some? && (row.lastRequested.None? || row.lastRequested.value > cutoff.value) then Kept
      else if row.current != want then Kept
      else Deleted
  }

  function ReapSuite(db: Db, key: SuiteKey, want: Option<SnapshotId>, cutoff: Option<Time>, now: Time): Db {
    if DeleteCheck(db, key, want, cutoff).Deleted? then DeleteSuite(db, key, now) else db
  }

  function BaseAnchors(host: string, base: string): set<UrlKey> {
    set scheme, suite, name | scheme in {Http, Https} && suite in {base, base + "/."}
      && name in {"InRelease", "Release", "Release.gpg"} :: UrlKey(scheme, host, suite + "/" + name)
  }

  function Unmark(markers: Markers, host: string, base: string): Markers {
    map m | m in markers && !(m.host == host && m.base == base) :: markers[m]
  }

  /** Once no suite row of the base is left, its anchors and markers go too. */
  function ForgetSuite(db: Db, key: SuiteKey, want: Option<SnapshotId>, now: Time): Db {
    if !DeleteCheck(db, key, want, None).Deleted? then db
    else
      var d := DeleteSuite(db, key, now);
      var base := MarkerBase(key.path);
      if BaseRows(d.suites, key.host, base) != {} then d
      else
        var f := DropKeys(Files(d.urls, d.blobs), BaseAnchors(key.host, base), now);
        d.(urls := f.urls, blobs := f.blobs, markers := Unmark(d.markers, key.host, base))
  }

  // ----- markers -----

  predicate IsOrphan(suites: Suites, markers: Markers, m: MarkerKey, cutoff: Time) {
    m in markers && markers[m] < cutoff && BaseRows(suites, m.host, m.base) == {}
  }

  /** The sweep re-checks each listed marker in its own transaction. */
  function SweepMarkers(db: Db, keys: set<MarkerKey>, cutoff: Time): Db {
    db.(markers := map m | m in db.markers && !(m in keys && IsOrphan(db.suites, db.markers, m, cutoff)) ::
      db.markers[m])
  }

  function MarkAll(markers: Markers, marks: seq<(MarkerKey, Time)>): Markers {
    if marks == [] then markers
    else
      var last := marks[|marks| - 1];
      MarkSeen(MarkAll(markers, marks[..|marks| - 1]), last.0, last.1)
  }

  // ----- the legacy audit -----

  datatype Decision = Keep(id: SnapshotId) | Drop(id: SnapshotId) | Quarantine(id: SnapshotId, signed: bool,
    dropRows: bool)

  function MarkSnapshotBase(db: Db, id: SnapshotId): Markers {
    if id !in db.snapshots then db.markers
    else
      var s := db.snapshots[id];
      if s.form.Unsigned? || s.key !in db.suites then db.markers
      else MarkSeen(db.markers, MarkerOf(s.key), if s.adoptedAt.Some? then s.adoptedAt.value else s.createdAt)
  }

  function ClearCurrent(suites: Suites, id: SnapshotId): Suites {
    map k | k in suites :: if suites[k].current == Some(id) then suites[k].(current := None) else suites[k]
  }

  function QuarantineSnapshot(db: Db, id: SnapshotId, now: Time): Db {
    db.(suites := ClearCurrent(db.suites, id),
        blobs := if IsCurrent(db.suites, id) then Release(db.blobs, PinSet(db.members, id), now) else db.blobs,
        snapshots := if id in db.snapshots && db.snapshots[id].retiredAt.None?
                     then db.snapshots[id := db.snapshots[id].(retiredAt := Some(now))] else db.snapshots)
  }

  /** The rows that serve a quarantined single-file anchor, wherever they are. */
  function AnchorRows(db: Db, id: SnapshotId): set<UrlKey> {
    set k | k in db.urls && id in db.snapshots && db.snapshots[id].anchors.Single?
            && db.urls[k].blob == Some(db.snapshots[id].anchors.file)
  }

  function Decide(db: Db, d: Decision, now: Time): Db {
    match d
    case Keep(id) => db.(markers := MarkSnapshotBase(db, id), queue := db.queue - {id})
    case Drop(id) => db.(queue := db.queue - {id})
    case Quarantine(id, signed, dropRows) =>
      var q := QuarantineSnapshot(db, id, now);
      var r := if dropRows then DropUrls(q, AnchorRows(q, id), now) else q;
      r.(markers := if signed then MarkSnapshotBase(r, id) else r.markers, queue := r.queue - {id})
  }

  function DecideAll(db: Db, ds: seq<Decision>, now: Time): Db
    decreases |ds|
  {
    if ds == [] then db else DecideAll(Decide(db, ds[0], now), ds[1..], now)
  }

  // ----- creating suites -----

  datatype Caps = Caps(global: int, perHost: int)
  const EVICT_IDLE: int := 86400

  datatype CachedAnchor = CachedAnchor(path: string, blob: Option<Hash>, signed: bool, seenAt: Time)
  datatype Seed = Seed(key: SuiteKey, requestedAt: Time, signedSeenAt: Time, cached: seq<CachedAnchor>)
  datatype CreateOutcome = NotTried | Created | Exists | RejectedGlobal | RejectedHost
  datatype Creation = Creation(db: Db, outcome: CreateOutcome, evicted: bool, heldGone: bool, heldKept: bool)

  function HostRows(suites: Suites, host: string): set<SuiteKey> { set k | k in suites && k.host == host }

  /** The latest proof of signing the cached anchors still give; 0 for none. */
  function SeenAt(urls: Urls, seed: Seed, n: nat): Time
    requires n <= |seed.cached|
  {
    if n == 0 then seed.signedSeenAt
    else
      var (seen, a) := (SeenAt(urls, seed, n - 1), seed.cached[n - 1]);
      var k := UrlKey(seed.key.scheme, seed.key.host, a.path);
      var cur := if k in urls then urls[k].blob else None;
      if cur == a.blob && a.signed && a.blob.Some? then Max(seen, if a.seenAt <= 0 then seed.requestedAt else a.seenAt)
        else seen
  }

  function InsertSuite(db: Db, seed: Seed, rowid: nat): Db {
    var seen := SeenAt(db.urls, seed, |seed.cached|);
    db.(suites := db.suites[seed.key := SuiteRow(rowid, db.clock + 1, None, Some(seed.requestedAt))],
        clock := db.clock + 1,
        markers := if seen == 0 then db.markers else MarkSeen(db.markers, MarkerOf(seed.key), seen))
  }

  /** createSuiteTx: at the global cap a held idle candidate makes room, if it is still idle and un-adopted. */
  function CreateSuite(db: Db, seed: Seed, caps: Caps, held: Option<SuiteKey>, rowid: nat, now: Time): Creation {
    if seed.key in db.suites then Creation(db, Exists, false, false, false)
    else if caps.perHost > 0 && |HostRows(db.suites, seed.key.host)| >= caps.perHost then
      Creation(db, RejectedHost, false, false, false)
    else if caps.global > 0 && |db.suites| >= caps.global then
      if held.None? then Creation(db, RejectedGlobal, false, false, false)
      else
        var check := DeleteCheck(db, held.value, None, Some(now - EVICT_IDLE));
        if !check.Deleted? then Creation(db, RejectedGlobal, false, check.NoRow?, check.Kept?)
        else
          var d := DeleteSuite(db, held.value, now);
          if |db.suites| - 1 >= caps.global then Creation(d, RejectedGlobal, true, false, false)
          else Creation(InsertSuite(d, seed, rowid), Created, true, false, false)
    else Creation(InsertSuite(db, seed, rowid), Created, false, false, false)
  }

  // ----- the generation fence -----

  datatype Token = Token(rowid: nat, generation: nat)

  /** The suite row's token; (0, 0) while there is no row. */
  function TokenOf(suites: Suites, key: SuiteKey): Token {
    if key in suites then Token(suites[key].rowid, suites[key].generation) else Token(0, 0)
  }

  /** A fetched row to store, with the suite row it may create and the marker it may set (0 for none). */
  datatype Fetched = Fetched(k: UrlKey, row: UrlRow, token: Option<Token>, suite: Option<SuiteKey>,
    create: Option<Seed>, markSeenAt: Time)

  function StoreFetched(db: Db, f: Fetched, caps: Caps, held: Option<SuiteKey>, rowid: nat,
                        now: Time): Result<Creation> {
    if f.create.Some? && f.suite != Some(f.create.value.key) then Err(WrongSuite)
    else if f.token.Some? && f.token.value != (if f.suite.Some? then TokenOf(db.suites, f.suite.value)
      else Token(0, 0)) then
      Err(MetadataChanged)
    else
      var put := PutUrl(db, f.k, f.row);
      if put.Err? then Err(put.error)
      else
        var c := if f.create.Some? then CreateSuite(put.value, f.create.value, caps, held, rowid, now)
                 else Creation(put.value, NotTried, false, false, false);
        var d := c.db;
        if f.markSeenAt != 0 && f.suite.Some? && f.suite.value in d.suites
        then Ok(c.(db := d.(markers := MarkSeen(d.markers, MarkerOf(f.suite.value), f.markSeenAt))))
        else Ok(c)
  }

  predicate Contains(s: string, t: string) { t <= s || (s != "" && Contains(s[1..], t)) }

  /** The suite's cached metadata, by-hash names excepted. */
  function LegacyRows(urls: Urls, key: SuiteKey): set<UrlKey> {
    set k | k in urls && k.scheme == key.scheme && k.host == key.host && urls[k].isMetadata
            && SuitePaths.SuitePath(k.path) == key.path && !Contains(k.path, "/by-hash/")
  }

  function InvalidateLegacy(db: Db, key: SuiteKey, anchor: string, was: Hash, now: Time): Result<Db> {
    if !SuitePaths.IsCanonical(key.path)
      || (anchor != key.path + "/InRelease" && anchor != key.path + "/Release") then Err(InvalidAnchor)
    else if key !in db.suites then Err(SuiteGone)
    else if db.suites[key].current.Some? then Err(NeedsAdoption)
    else
      var k := UrlKey(key.scheme, key.host, anchor);
      if k !in db.urls || db.urls[k].blob != Some(was) then Err(MetadataChanged)
      else
        var d := DropUrls(db, LegacyRows(db.urls, key), now);
        Ok(d.(clock := db.clock + 1, suites := db.suites[key := db.suites[key].(generation := db.clock + 1)]))
  }

  function TouchSuite(db: Db, key: SuiteKey, now: Time): Db {
    if key !in db.suites then db else db.(suites := db.suites[key := db.suites[key].(lastRequested := Some(now))])
  }

  // ----- snapshot collection -----

  function RemoveSnapshots(db: Db, ids: set<SnapshotId>): Db {
    db.(members := map m | m in db.members && m.snapshot !in ids :: db.members[m],
        skipped := map m | m in db.skipped && m.snapshot !in ids :: db.skipped[m],
        packages := map p | p in db.packages && p.snapshot !in ids :: db.packages[p],
        snapshots := db.snapshots - ids)
  }

  /** Adopted, live, not current and not awaiting the audit: what displaced-snapshot collection ranks. */
  predicate IsDisplaced(db: Db, s: SnapshotId) {
    && s in db.snapshots && db.snapshots[s].adoptedAt.Some? && db.snapshots[s].retiredAt.None?
    && !IsCurrent(db.suites, s) && s !in db.queue
  }

  predicate NewerThan(snapshots: Snapshots, a: SnapshotId, b: SnapshotId)
    requires a in snapshots && b in snapshots && snapshots[a].adoptedAt.Some? && snapshots[b].adoptedAt.Some?
  {
    var (x, y) := (snapshots[a].adoptedAt.value, snapshots[b].adoptedAt.value);
    x > y || (x == y && a > b)
  }

  /** The suite's displaced snapshots that come before s in the ranking. */
  function DisplacedBefore(db: Db, s: SnapshotId): set<SnapshotId>
    requires IsDisplaced(db, s)
  {
    set t | t in db.snapshots && IsDisplaced(db, t) && db.snapshots[t].key == db.snapshots[s].key
      && NewerThan(db.snapshots, t, s)
  }

  predicate IsOrphanSnapshot(db: Db, s: SnapshotId, cutoff: Time) {
    s in db.snapshots && db.snapshots[s].adoptedAt.None? && db.snapshots[s].heartbeatAt < cutoff
      && !IsCurrent(db.suites, s)
  }

  /** ROW_NUMBER() > keepDisplaced. */
  predicate IsExcess(db: Db, s: SnapshotId, keep: nat) { IsDisplaced(db, s) && |DisplacedBefore(db, s)| >= keep }

  function Collectable(db: Db, cutoff: Time, keep: nat): set<SnapshotId> {
    set s | s in db.snapshots && (IsOrphanSnapshot(db, s, cutoff) || IsExcess(db, s, keep))
  }

  // ----- retired snapshots, a chunk at a time -----

  predicate IsDrainable(db: Db, s: SnapshotId) {
    s in db.snapshots && db.snapshots[s].retiredAt.Some? && !IsCurrent(db.suites, s)
  }

  /** The rows one chunk deletes of a retired snapshot, and whether its header goes too. */
  datatype Chunk = Chunk(id: SnapshotId, members: set<MemberKey>, skipped: set<MemberKey>, packages: set<PackageKey>,
    header: bool)

  function MembersOf(members: Members, id: SnapshotId): set<MemberKey> { set m | m in members && m.snapshot == id }
  function SkippedOf(skipped: Skipped, id: SnapshotId): set<MemberKey> { set m | m in skipped && m.snapshot == id }
  function PackagesOf(packages: Packages, id: SnapshotId): set<PackageKey> { set p | p in packages && p.snapshot == id }

  /** DELETE ... LIMIT n over `all`: some n rows, or all of them when there are fewer. */
  predicate Takes<T>(chosen: set<T>, all: set<T>, n: int) { chosen <= all && |chosen| == Min(n, |all|) }

  /** The countdown over the three child tables; the header goes only when they all came up short. */
  predicate IsChunk(db: Db, c: Chunk, limit: nat) {
    && IsDrainable(db, c.id) && (forall s :: s in db.snapshots && IsDrainable(db, s) ==> c.id <= s)
    && Takes(c.members, MembersOf(db.members, c.id), limit)
    && Takes(c.skipped, SkippedOf(db.skipped, c.id), limit - |c.members|)
    && Takes(c.packages, PackagesOf(db.packages, c.id), limit - |c.members| - |c.skipped|)
    && (c.header <==> limit - |c.members| - |c.skipped| - |c.packages| > 0)
  }

  function DrainChunk(db: Db, c: Chunk): Db {
    db.(members := db.members - c.members, skipped := db.skipped - c.skipped, packages := db.packages - c.packages,
        snapshots := if c.header then db.snapshots - {c.id} else db.snapshots)
  }
}
