/** Lookups among a suite's displaced snapshots, and that collecting snapshots never changes them. */
module Displaced {
  import opened Sorting
  import opened Tables
  import opened Transactions
  import opened Integrity
  import NewestN

  // ----- the lookup -----

  function AdoptedTime(snapshots: Snapshots, s: SnapshotId): Time {
    if s in snapshots && snapshots[s].adoptedAt.Some? then snapshots[s].adoptedAt.value else 0
  }

  /** ORDER BY adopted_at DESC, snapshot_id DESC. */
  function NewestFirst(snapshots: Snapshots): (SnapshotId, SnapshotId) -> bool {
    (a: SnapshotId, b: SnapshotId) =>
      AdoptedTime(snapshots, a) > AdoptedTime(snapshots, b)
        || (AdoptedTime(snapshots, a) == AdoptedTime(snapshots, b) && a > b)
  }

  lemma NewestFirstIsStrict(snapshots: Snapshots, ids: set<SnapshotId>)
    ensures StrictOn(NewestFirst(snapshots), ids)
  {
    hide AdoptedTime;
  }

  predicate IsEligible(snapshots: Snapshots, key: SuiteKey, current: SnapshotId, s: SnapshotId) {
    && s in snapshots && snapshots[s].key == key && snapshots[s].adoptedAt.Some? && snapshots[s].retiredAt.None?
    && s != current
  }

  function Eligible(snapshots: Snapshots, key: SuiteKey, current: SnapshotId): set<SnapshotId> {
    set s | s in snapshots && IsEligible(snapshots, key, current, s)
  }

  function Take<T>(s: seq<T>, n: nat): seq<T> { if |s| <= n then s else s[..n] }

  function Ranked(snapshots: Snapshots, key: SuiteKey, current: SnapshotId): (s: seq<SnapshotId>)
    ensures Ordered(NewestFirst(snapshots), s) && Elements(s) == Eligible(snapshots, key, current)
  {
    NewestFirstIsStrict(snapshots, Eligible(snapshots, key, current));
    SortedSeq(NewestFirst(snapshots), Eligible(snapshots, key, current))
  }

  /** The members at a path, in the order of their snapshots. */
  function MembersAt(members: Members, ids: seq<SnapshotId>, path: string): seq<(SnapshotId, Member)> {
    if ids == [] then []
    else
      var k := MemberKey(ids[0], path);
      (if k in members then [(ids[0], members[k])] else []) + MembersAt(members, ids[1..], path)
  }

  /** DisplacedSnapshotMembers: the path in the suite's newest `limit` displaced snapshots. */
  function DisplacedMembers(db: Db, key: SuiteKey, path: string, current: SnapshotId,
                            limit: nat): seq<(SnapshotId, Member)> {
    MembersAt(db.members, Take(Ranked(db.snapshots, key, current), limit), path)
  }

  // ----- ranks -----

  lemma {:induction false} DistinctSize<T>(s: seq<T>)
    requires Distinct(s)
    ensures |Elements(s)| == |s|
  {
    if s != [] {
      var front := s[..|s| - 1];
      DistinctSize(front);
      assert s == front + [s[|s| - 1]];
      assert Elements(s) == Elements(front) + {s[|s| - 1]} && s[|s| - 1] !in Elements(front);
    }
  }

  lemma OrderedBefore<T(!new)>(lt: (T, T) -> bool, s: seq<T>, i: nat, j: nat)
    requires StrictOn(lt, Elements(s)) && Ordered(lt, s) && i < |s| && j < |s| && lt(s[j], s[i])
    ensures j < i
  {
    assert s[i] in Elements(s) && s[j] in Elements(s);
  }

  /** In a sorted list, an element's index counts the elements before it. */
  lemma IndexIsRank<T(!new)>(lt: (T, T) -> bool, s: seq<T>, i: nat, before: set<T>)
    requires StrictOn(lt, Elements(s)) && Ordered(lt, s) && i < |s|
    requires forall y :: y in before ==> y in Elements(s) && lt(y, s[i])
    ensures |before| <= i
  {
    OrderedDistinct(lt, s);
    DistinctSize(s[..i]);
    assert s[i] in Elements(s);
    forall y | y in before ensures y in Elements(s[..i]) {
      var j :| 0 <= j < |s| && s[j] == y;
      OrderedBefore(lt, s, i, j);
      assert s[..i][j] == y;
    }
    NewestN.SubsetSize(before, Elements(s[..i]));
  }

  /** Removing elements past the first n of a sorted list keeps its first n. */
  lemma TakeAfterRemoval<T(!new)>(lt: (T, T) -> bool, s: seq<T>, t: seq<T>, n: nat)
    requires StrictOn(lt, Elements(s)) && Ordered(lt, s) && Ordered(lt, t) && Elements(t) <= Elements(s)
    requires forall x :: x in Take(s, n) ==> x in t
    ensures Take(t, n) == Take(s, n)
  {
    var p := Take(s, n);
    OrderedDistinct(lt, s);
    var gone := Elements(s) - Elements(t);
    var rest := Without(s[|p|..], gone);
    WithoutKeeps(lt, s[|p|..], gone);
    assert s == p + s[|p|..];
    JoinOrdered(lt, p, s[|p|..], rest);
    forall x ensures x in p + rest <==> x in t {
      assert x in t <==> x in Elements(t);
      assert x in s <==> x in Elements(s);
      assert x in s <==> x in p || x in s[|p|..];
    }
    assert Elements(p + rest) == Elements(t);
    StrictSubset(lt, Elements(s), Elements(t));
    OrderedUnique(lt, t, p + rest);
    if |s| <= n { assert s[|p|..] == []; }
  }

  lemma StrictSubset<T(!new)>(lt: (T, T) -> bool, xs: set<T>, ys: set<T>)
    requires StrictOn(lt, xs) && ys <= xs
    ensures StrictOn(lt, ys)
  {
  }

  function Without<T(==)>(s: seq<T>, gone: set<T>): seq<T> {
    if s == [] then [] else if s[0] in gone then Without(s[1..], gone) else [s[0]] + Without(s[1..], gone)
  }

  lemma {:induction false} WithoutKeeps<T(!new)>(lt: (T, T) -> bool, s: seq<T>, gone: set<T>)
    requires Ordered(lt, s)
    ensures Ordered(lt, Without(s, gone)) && forall x :: x in Without(s, gone) <==> x in s && x !in gone
  {
    if s != [] {
      WithoutKeeps(lt, s[1..], gone);
      var rest := Without(s[1..], gone);
      forall j | 0 <= j < |rest| ensures lt(s[0], rest[j]) {
        assert rest[j] in rest;
        var k :| 0 <= k < |s[1..]| && s[1..][k] == rest[j];
        assert lt(s[0], s[k + 1]);
      }
    }
  }

  lemma JoinOrdered<T(!new)>(lt: (T, T) -> bool, p: seq<T>, q: seq<T>, r: seq<T>)
    requires Ordered(lt, p + q) && Ordered(lt, r) && forall x :: x in r ==> x in q
    ensures Ordered(lt, p + r)
  {
    var (s, t) := (p + q, p + r);
    forall i, j | 0 <= i < j < |t| ensures lt(t[i], t[j]) {
      if j < |p| {
        assert t[i] == s[i] && t[j] == s[j];
      } else if i < |p| {
        assert t[j] in r;
        var k :| 0 <= k < |q| && q[k] == t[j];
        assert s[i] == t[i] && s[|p| + k] == t[j];
      } else {
        assert t[i] == r[i - |p|] && t[j] == r[j - |p|];
      }
    }
  }

  // ----- collection and the lookup -----

  /** The order does not depend on snapshots outside the list. */
  lemma SameOrder(a: Snapshots, b: Snapshots, s: seq<SnapshotId>)
    requires Ordered(NewestFirst(b), s) && forall x :: x in s ==> x in a && x in b && a[x] == b[x]
    ensures Ordered(NewestFirst(a), s)
  {
    forall i, j | 0 <= i < j < |s| ensures NewestFirst(a)(s[i], s[j]) {
      assert s[i] in s && s[j] in s && NewestFirst(b)(s[i], s[j]);
    }
  }

  lemma {:induction false} SameMembersAt(a: Members, b: Members, ids: seq<SnapshotId>, path: string)
    requires forall i :: 0 <= i < |ids| ==> SameMember(a, b, MemberKey(ids[i], path))
    ensures MembersAt(a, ids, path) == MembersAt(b, ids, path)
  {
    if ids != [] {
      assert SameMember(a, b, MemberKey(ids[0], path));
      SameMembersAt(a, b, ids[1..], path);
    }
  }

  predicate SameMember(a: Members, b: Members, k: MemberKey) { (k in a <==> k in b) && (k in a ==> a[k] == b[k]) }

  /** What the caller took for the suite's current snapshot has not been displaced since, or a newer one replaced it. */
  ghost predicate Stands(db: Db, key: SuiteKey, current: SnapshotId) {
    || !IsDisplaced(db, current)
    || (Inv(db) && HasCurrent(db, key) && NewestAt(db.suites, db.snapshots, key))
  }

  lemma RanksPast(db: Db, key: SuiteKey, current: SnapshotId, i: nat, before: set<SnapshotId>)
    requires i < |Ranked(db.snapshots, key, current)|
    requires forall t :: t in before ==> IsEligible(db.snapshots, key, current, t)
    requires var x := Ranked(db.snapshots, key, current)[i]; forall t :: t in before ==> NewestFirst(db.snapshots)(t, x)
    ensures |before| <= i
  {
    var s := Ranked(db.snapshots, key, current);
    NewestFirstIsStrict(db.snapshots, Elements(s));
    IndexIsRank(NewestFirst(db.snapshots), s, i, before);
  }

  /** A snapshot that collection takes from the suite ranks past the kept ones in the lookup, one earlier at most
      when the caller's snapshot was displaced and nothing replaced it. */
  lemma ExcessIsPast(db: Db, key: SuiteKey, current: SnapshotId, keep: nat, i: nat)
    requires var s := Ranked(db.snapshots, key, current); i < |s| && IsExcess(db, s[i], keep)
    ensures keep <= i + 1
    ensures Stands(db, key, current) ==> keep <= i
  {
    hide Inv;
    var x := Ranked(db.snapshots, key, current)[i];
    assert x in Elements(Ranked(db.snapshots, key, current));
    var others := DisplacedBefore(db, x) - {current};
    RanksPast(db, key, current, i, others);
    if IsDisplaced(db, current) {
      assert DisplacedBefore(db, x) <= others + {current};
      NewestN.SubsetSize(DisplacedBefore(db, x), others + {current});
      if Stands(db, key, current) {
        var c := db.suites[key].current.value;
        CurrentRanksFirst(db, key, x);
        RanksPast(db, key, current, i, others + {c});
      }
    } else {
      assert others == DisplacedBefore(db, x);
    }
  }

  lemma CurrentRanksFirst(db: Db, key: SuiteKey, x: SnapshotId)
    requires Inv(db) && HasCurrent(db, key) && NewestAt(db.suites, db.snapshots, key)
    requires IsDisplaced(db, x) && db.snapshots[x].key == key
    ensures var c := db.suites[key].current.value;
            && IsCurrent(db.suites, c) && c in db.snapshots && db.snapshots[c].key == key
            && db.snapshots[c].adoptedAt.Some? && db.snapshots[c].retiredAt.None?
            && NewestFirst(db.snapshots)(c, x)
  {
    var c := db.suites[key].current.value;
    assert CurrentOk(db.suites, db.snapshots);
    assert Rivals(db.snapshots, key, x, c);
  }

  // ----- exactly when collection reaches the last kept one -----

  /** The last of the first `keep` ranked snapshots is one collection may take: they are all displaced, and so is
      the caller's snapshot, which the lookup skips and collection ranks before it. */
  predicate Shifted(db: Db, key: SuiteKey, current: SnapshotId, keep: nat) {
    var s := Ranked(db.snapshots, key, current);
    && 0 < keep <= |s| && (forall i :: 0 <= i < keep ==> IsDisplaced(db, s[i]))
    && IsDisplaced(db, current) && db.snapshots[current].key == key
    && NewestFirst(db.snapshots)(current, s[keep - 1])
  }

  /** What comes before the i-th ranked snapshot in collection's ranking is among the earlier ones, and the caller's. */
  lemma BeforeRanked(db: Db, key: SuiteKey, current: SnapshotId, i: nat)
    requires var s := Ranked(db.snapshots, key, current); i < |s| && IsDisplaced(db, s[i])
    ensures var s := Ranked(db.snapshots, key, current);
            DisplacedBefore(db, s[i]) <= Elements(s[..i]) + {current}
    ensures var s := Ranked(db.snapshots, key, current);
            |Elements(s[..i])| == i && current !in Elements(s[..i]) && |Elements(s[..i]) + {current}| == i + 1
  {
    var s := Ranked(db.snapshots, key, current);
    NewestFirstIsStrict(db.snapshots, Elements(s));
    assert s[i] in Elements(s);
    forall t | t in DisplacedBefore(db, s[i]) && t != current ensures t in Elements(s[..i]) {
      assert IsEligible(db.snapshots, key, current, t);
      assert t in Elements(s);
      var j :| 0 <= j < |s| && s[j] == t;
      OrderedBefore(NewestFirst(db.snapshots), s, i, j);
      assert s[..i][j] == t;
    }
    OrderedDistinct(NewestFirst(db.snapshots), s);
    DistinctSize(s[..i]);
    NotRanked(db, key, current, i);
  }

  lemma NotRanked(db: Db, key: SuiteKey, current: SnapshotId, i: nat)
    requires i <= |Ranked(db.snapshots, key, current)|
    ensures current !in Elements(Ranked(db.snapshots, key, current)[..i])
  {
    var s := Ranked(db.snapshots, key, current);
    assert current !in Eligible(db.snapshots, key, current);
    forall j | 0 <= j < i ensures s[..i][j] != current { assert s[j] in Elements(s); }
  }

  /** All of a set that is no larger than its part is the part. */
  lemma FullSubset<T>(a: set<T>, b: set<T>)
    requires a <= b && |a| >= |b|
    ensures a == b
  {
    var rest := b - a;
    assert b == a + rest && |b| == |a| + |rest|;
    assert rest == {};
  }

  lemma ExcessIsShifted(db: Db, key: SuiteKey, current: SnapshotId, keep: nat)
    requires var s := Ranked(db.snapshots, key, current); 0 < keep <= |s| && IsExcess(db, s[keep - 1], keep)
    ensures Shifted(db, key, current, keep)
  {
    var s := Ranked(db.snapshots, key, current);
    var x := s[keep - 1];
    BeforeRanked(db, key, current, keep - 1);
    FullSubset(DisplacedBefore(db, x), Elements(s[..keep - 1]) + {current});
    assert x in Elements(s);
    assert current in DisplacedBefore(db, x);
    forall i | 0 <= i < keep ensures IsDisplaced(db, s[i]) {
      if i < keep - 1 {
        assert s[..keep - 1][i] == s[i];
        assert s[i] in DisplacedBefore(db, x);
      }
    }
  }

  lemma ShiftedBefore(db: Db, key: SuiteKey, current: SnapshotId, keep: nat, t: SnapshotId)
    requires Shifted(db, key, current, keep)
    requires t in Ranked(db.snapshots, key, current)[..keep - 1] || t == current
    ensures t in DisplacedBefore(db, Ranked(db.snapshots, key, current)[keep - 1])
  {
    hide IsDisplaced;
    var s := Ranked(db.snapshots, key, current);
    var x := s[keep - 1];
    assert x in Elements(s);
    if t != current {
      var j :| 0 <= j < keep - 1 && s[..keep - 1][j] == t;
      assert s[j] == t && s[j] in Elements(s) && NewestFirst(db.snapshots)(s[j], x);
    }
    DisplacedFields(db, t);
    DisplacedFields(db, x);
  }

  lemma ShiftedIsExcess(db: Db, key: SuiteKey, current: SnapshotId, keep: nat)
    requires Shifted(db, key, current, keep)
    ensures IsExcess(db, Ranked(db.snapshots, key, current)[keep - 1], keep)
  {
    hide IsDisplaced, DisplacedBefore, NewestFirst, Ranked;
    var s := Ranked(db.snapshots, key, current);
    var (x, all) := (s[keep - 1], Elements(s[..keep - 1]) + {current});
    BeforeRanked(db, key, current, keep - 1);
    forall t | t in all ensures t in DisplacedBefore(db, x) { ShiftedBefore(db, key, current, keep, t); }
    NewestN.SubsetSize(all, DisplacedBefore(db, x));
  }

  lemma DisplacedFields(db: Db, s: SnapshotId)
    ensures IsDisplaced(db, s) ==> s in db.snapshots && db.snapshots[s].adoptedAt.Some?
  {
  }

  /** The first ranked snapshots stay the first when none of them goes and nothing else changes. */
  lemma RanksUnchanged(db: Db, d: Db, key: SuiteKey, current: SnapshotId, limit: nat)
    requires forall s :: s in d.snapshots ==> s in db.snapshots && d.snapshots[s] == db.snapshots[s]
    requires forall s :: s in Take(Ranked(db.snapshots, key, current), limit) ==> s in d.snapshots
    ensures Take(Ranked(d.snapshots, key, current), limit) == Take(Ranked(db.snapshots, key, current), limit)
  {
    var (s, t) := (Ranked(db.snapshots, key, current), Ranked(d.snapshots, key, current));
    NewestFirstIsStrict(db.snapshots, Elements(s));
    assert forall x :: x in t ==> x in Elements(t);
    SameOrder(db.snapshots, d.snapshots, t);
    forall x | x in Take(s, limit) ensures x in t {
      assert x in Elements(s);
      assert x in Eligible(d.snapshots, key, current);
      assert x in Elements(t);
    }
    assert Elements(t) <= Elements(s);
    TakeAfterRemoval(NewestFirst(db.snapshots), s, t, limit);
  }

  /** The lookup reads only the snapshots it ranks first and their members. */
  lemma LookupUnchanged(db: Db, d: Db, key: SuiteKey, path: string, current: SnapshotId, limit: nat)
    requires forall s :: s in d.snapshots ==> s in db.snapshots && d.snapshots[s] == db.snapshots[s]
    requires forall s :: s in Take(Ranked(db.snapshots, key, current), limit) ==>
             s in d.snapshots && SameMember(db.members, d.members, MemberKey(s, path))
    ensures DisplacedMembers(d, key, path, current, limit) == DisplacedMembers(db, key, path, current, limit)
  {
    hide Ranked;
    RanksUnchanged(db, d, key, current, limit);
    SameMembersAt(db.members, d.members, Take(Ranked(db.snapshots, key, current), limit), path);
  }

  /** A caller whose snapshot stands is not shifted. */
  lemma StandsIsUnshifted(db: Db, key: SuiteKey, current: SnapshotId, keep: nat)
    requires Stands(db, key, current)
    ensures !Shifted(db, key, current, keep)
  {
    hide Stands, Shifted;
    if Shifted(db, key, current, keep) {
      ShiftedRange(db, key, current, keep);
      ShiftedIsExcess(db, key, current, keep);
      ExcessIsPast(db, key, current, keep, keep - 1);
    }
  }

  lemma ShiftedRange(db: Db, key: SuiteKey, current: SnapshotId, keep: nat)
    ensures Shifted(db, key, current, keep) ==> 0 < keep <= |Ranked(db.snapshots, key, current)|
  {
  }

  /** The first `limit` ranked snapshots are none that collection may take. */
  lemma FirstAreKept(db: Db, key: SuiteKey, current: SnapshotId, keep: nat, limit: nat, i: nat)
    requires limit <= keep && (limit < keep || !Shifted(db, key, current, keep))
    requires i < |Ranked(db.snapshots, key, current)| && i < limit
    ensures !IsExcess(db, Ranked(db.snapshots, key, current)[i], keep)
  {
    hide IsDisplaced, DisplacedBefore, Shifted;
    if IsExcess(db, Ranked(db.snapshots, key, current)[i], keep) {
      ExcessIsPast(db, key, current, keep, i);
      ExcessIsShifted(db, key, current, keep);
    }
  }

  /** No snapshot-collection batch changes a lookup that reads fewer displaced snapshots than collection keeps, nor one
      that reads as many and is not shifted. */
  lemma CollectionKeepsLookups(db: Db, ids: set<SnapshotId>, cutoff: Time, keep: nat, key: SuiteKey, path: string,
                               current: SnapshotId, limit: nat)
    requires ids <= Collectable(db, cutoff, keep) && limit <= keep && (limit < keep || !Shifted(db, key, current, keep))
    ensures DisplacedMembers(RemoveSnapshots(db, ids), key, path, current, limit)
            == DisplacedMembers(db, key, path, current, limit)
  {
    hide IsExcess, IsCurrent, Shifted;
    var (d, s) := (RemoveSnapshots(db, ids), Ranked(db.snapshots, key, current));
    forall x | x in Take(s, limit) ensures x in d.snapshots && SameMember(db.members, d.members, MemberKey(x, path)) {
      var i :| 0 <= i < |s| && i < limit && s[i] == x;
      assert x in Elements(s);
      FirstAreKept(db, key, current, keep, limit, i);
    }
    LookupUnchanged(db, d, key, path, current, limit);
  }

  lemma {:induction false} MembersAtPrefix(members: Members, ids: seq<SnapshotId>, n: nat, path: string)
    requires n <= |ids|
    ensures MembersAt(members, ids[..n], path) <= MembersAt(members, ids, path)
  {
    if n > 0 {
      MembersAtPrefix(members, ids[1..], n - 1, path);
      assert ids[..n][1..] == ids[1..][..n - 1];
    }
  }

  lemma LongerLookup(db: Db, key: SuiteKey, path: string, current: SnapshotId, limit: nat)
    ensures DisplacedMembers(db, key, path, current, limit) <= DisplacedMembers(db, key, path, current, limit + 1)
  {
    var s := Ranked(db.snapshots, key, current);
    if limit < |s| {
      MembersAtPrefix(db.members, Take(s, limit + 1), limit, path);
      assert Take(s, limit + 1)[..limit] == Take(s, limit);
    }
  }

  lemma LookupKeepsPrefix(db: Db, ids: set<SnapshotId>, cutoff: Time, keep: nat, key: SuiteKey, path: string,
                          current: SnapshotId, limit: nat)
    requires ids <= Collectable(db, cutoff, keep) && limit <= keep && (limit < keep || !Shifted(db, key, current, keep))
    ensures DisplacedMembers(db, key, path, current, limit)
            <= DisplacedMembers(RemoveSnapshots(db, ids), key, path, current, limit + 1)
  {
    hide Collectable, RemoveSnapshots, Shifted, DisplacedMembers;
    CollectionKeepsLookups(db, ids, cutoff, keep, key, path, current, limit);
    LongerLookup(RemoveSnapshots(db, ids), key, path, current, limit);
  }

  /** What the handler looks up, one snapshot more than collection keeps, still begins after a batch with
      everything the kept ones hold, or all but the last of them when the lookup is shifted. */
  lemma HandlerKeepsRetained(db: Db, ids: set<SnapshotId>, cutoff: Time, keep: nat, key: SuiteKey, path: string,
                             current: SnapshotId)
    requires ids <= Collectable(db, cutoff, keep)
    ensures var after := DisplacedMembers(RemoveSnapshots(db, ids), key, path, current, keep + 1);
            && (!Shifted(db, key, current, keep) ==> DisplacedMembers(db, key, path, current, keep) <= after)
            && (keep > 0 ==> DisplacedMembers(db, key, path, current, keep - 1) <= after)
  {
    hide Collectable, RemoveSnapshots, Shifted, DisplacedMembers;
    if !Shifted(db, key, current, keep) { LookupKeepsPrefix(db, ids, cutoff, keep, key, path, current, keep); }
    if keep > 0 {
      LookupKeepsPrefix(db, ids, cutoff, keep, key, path, current, keep - 1);
      LongerLookup(RemoveSnapshots(db, ids), key, path, current, keep);
    }
  }

  // ----- exactly when a batch can change what the lookup reads -----

  /** The lookup reads the same snapshots in both states. */
  ghost predicate SameRanks(db: Db, d: Db, key: SuiteKey, current: SnapshotId, limit: nat) {
    Take(Ranked(d.snapshots, key, current), limit) == Take(Ranked(db.snapshots, key, current), limit)
  }

  lemma BatchKeepsRanks(db: Db, ids: set<SnapshotId>, cutoff: Time, keep: nat, key: SuiteKey, current: SnapshotId)
    requires ids <= Collectable(db, cutoff, keep) && !Shifted(db, key, current, keep)
    ensures SameRanks(db, RemoveSnapshots(db, ids), key, current, keep)
  {
    hide IsExcess, IsCurrent, Shifted;
    var (d, s) := (RemoveSnapshots(db, ids), Ranked(db.snapshots, key, current));
    forall x | x in Take(s, keep) ensures x in d.snapshots {
      var i :| 0 <= i < |s| && i < keep && s[i] == x;
      assert x in Elements(s);
      FirstAreKept(db, key, current, keep, keep, i);
    }
    RanksUnchanged(db, d, key, current, keep);
  }

  lemma GoneIsNotRanked(db: Db, x: SnapshotId, key: SuiteKey, current: SnapshotId, limit: nat)
    ensures x !in Take(Ranked(RemoveSnapshots(db, {x}).snapshots, key, current), limit)
  {
    var t := Ranked(RemoveSnapshots(db, {x}).snapshots, key, current);
    assert forall y :: y in Take(t, limit) ==> y in Elements(t);
  }

  lemma ShiftedCollects(db: Db, cutoff: Time, keep: nat, key: SuiteKey, current: SnapshotId)
    requires Shifted(db, key, current, keep)
    ensures {Ranked(db.snapshots, key, current)[keep - 1]} <= Collectable(db, cutoff, keep)
  {
    hide Shifted, IsExcess;
    ShiftedRange(db, key, current, keep);
    ShiftedIsExcess(db, key, current, keep);
    var s := Ranked(db.snapshots, key, current);
    assert s[keep - 1] in Elements(s);
  }

  lemma ShiftedLosesRank(db: Db, cutoff: Time, keep: nat, key: SuiteKey, current: SnapshotId)
    requires Shifted(db, key, current, keep)
    ensures var x := Ranked(db.snapshots, key, current)[keep - 1];
            {x} <= Collectable(db, cutoff, keep) && !SameRanks(db, RemoveSnapshots(db, {x}), key, current, keep)
  {
    hide Shifted, Collectable, RemoveSnapshots, Ranked;
    ShiftedRange(db, key, current, keep);
    ShiftedCollects(db, cutoff, keep, key, current);
    var s := Ranked(db.snapshots, key, current);
    GoneIsNotRanked(db, s[keep - 1], key, current, keep);
    assert Take(s, keep)[keep - 1] == s[keep - 1];
  }

  /** Exactly when every batch leaves the lookup the same `keep` snapshots: it is not shifted. */
  lemma RanksKeptExactly(db: Db, cutoff: Time, keep: nat, key: SuiteKey, current: SnapshotId)
    ensures (forall ids :: ids <= Collectable(db, cutoff, keep) ==>
              SameRanks(db, RemoveSnapshots(db, ids), key, current, keep)) <==> !Shifted(db, key, current, keep)
  {
    hide Collectable, RemoveSnapshots, Shifted, SameRanks;
    ShiftedRange(db, key, current, keep);
    if Shifted(db, key, current, keep) {
      ShiftedLosesRank(db, cutoff, keep, key, current);
    } else {
      forall ids | ids <= Collectable(db, cutoff, keep)
        ensures SameRanks(db, RemoveSnapshots(db, ids), key, current, keep)
      {
        BatchKeepsRanks(db, ids, cutoff, keep, key, current);
      }
    }
  }

  /** Every row the lookup finds before the batch, it finds after it. */
  ghost predicate KeepsRows(db: Db, d: Db, key: SuiteKey, path: string, current: SnapshotId, limit: nat) {
    forall r :: r in DisplacedMembers(db, key, path, current, limit) ==>
      r in DisplacedMembers(d, key, path, current, limit)
  }

  lemma {:induction false} MembersAtFrom(members: Members, ids: seq<SnapshotId>, path: string)
    ensures forall r :: r in MembersAt(members, ids, path) <==>
              r.0 in ids && MemberKey(r.0, path) in members && r.1 == members[MemberKey(r.0, path)]
  {
    if ids != [] {
      MembersAtFrom(members, ids[1..], path);
      assert forall x :: x in ids <==> x == ids[0] || x in ids[1..];
    }
  }

  /** The batch that takes the last of the first `keep` takes its row. */
  lemma ShiftedLoses(db: Db, cutoff: Time, keep: nat, key: SuiteKey, path: string, current: SnapshotId)
    requires Shifted(db, key, current, keep)
    requires MemberKey(Ranked(db.snapshots, key, current)[keep - 1], path) in db.members
    ensures var x := Ranked(db.snapshots, key, current)[keep - 1];
            {x} <= Collectable(db, cutoff, keep) && !KeepsRows(db, RemoveSnapshots(db, {x}), key, path, current, keep)
  {
    hide Shifted, Collectable, RemoveSnapshots, Ranked;
    ShiftedRange(db, key, current, keep);
    ShiftedCollects(db, cutoff, keep, key, current);
    var s := Ranked(db.snapshots, key, current);
    var x := s[keep - 1];
    var d := RemoveSnapshots(db, {x});
    GoneIsNotRanked(db, x, key, current, keep);
    assert Take(s, keep)[keep - 1] == x;
    MembersAtFrom(db.members, Take(s, keep), path);
    MembersAtFrom(d.members, Take(Ranked(d.snapshots, key, current), keep), path);
    assert (x, db.members[MemberKey(x, path)]) in DisplacedMembers(db, key, path, current, keep);
  }

  /** Without a row of its own there, the last one adds nothing to the lookup. */
  lemma {:induction false} LastIsSilent(members: Members, ids: seq<SnapshotId>, path: string)
    requires ids != [] && MemberKey(ids[|ids| - 1], path) !in members
    ensures MembersAt(members, ids, path) == MembersAt(members, ids[..|ids| - 1], path)
  {
    if |ids| > 1 {
      LastIsSilent(members, ids[1..], path);
      assert ids[1..][..|ids| - 2] == ids[..|ids| - 1][1..];
    }
  }

  lemma ShiftedKeeps(db: Db, ids: set<SnapshotId>, cutoff: Time, keep: nat, key: SuiteKey, path: string,
                     current: SnapshotId)
    requires ids <= Collectable(db, cutoff, keep) && Shifted(db, key, current, keep)
    requires MemberKey(Ranked(db.snapshots, key, current)[keep - 1], path) !in db.members
    ensures KeepsRows(db, RemoveSnapshots(db, ids), key, path, current, keep)
  {
    hide Collectable, RemoveSnapshots, Shifted;
    ShiftedRange(db, key, current, keep);
    var s := Take(Ranked(db.snapshots, key, current), keep);
    LastIsSilent(db.members, s, path);
    assert s[..keep - 1] == Take(Ranked(db.snapshots, key, current), keep - 1);
    CollectionKeepsLookups(db, ids, cutoff, keep, key, path, current, keep - 1);
    LongerLookup(RemoveSnapshots(db, ids), key, path, current, keep - 1);
  }

  /** Exactly when every batch keeps every row of a lookup of as many snapshots as collection keeps: it is not shifted,
      or the last snapshot it reads has no row at the path. */
  lemma LookupKeptExactly(db: Db, cutoff: Time, keep: nat, key: SuiteKey, path: string, current: SnapshotId)
    ensures (forall ids :: ids <= Collectable(db, cutoff, keep) ==>
              KeepsRows(db, RemoveSnapshots(db, ids), key, path, current, keep)) <==>
            !(Shifted(db, key, current, keep) &&
              MemberKey(Ranked(db.snapshots, key, current)[keep - 1], path) in db.members)
  {
    hide Collectable, RemoveSnapshots, Shifted, DisplacedMembers;
    ShiftedRange(db, key, current, keep);
    var loses := Shifted(db, key, current, keep) &&
      MemberKey(Ranked(db.snapshots, key, current)[keep - 1], path) in db.members;
    if loses {
      ShiftedLoses(db, cutoff, keep, key, path, current);
    } else {
      forall ids | ids <= Collectable(db, cutoff, keep)
        ensures KeepsRows(db, RemoveSnapshots(db, ids), key, path, current, keep)
      {
        if Shifted(db, key, current, keep) {
          ShiftedKeeps(db, ids, cutoff, keep, key, path, current);
        } else {
          CollectionKeepsLookups(db, ids, cutoff, keep, key, path, current, keep);
        }
      }
    }
  }

  /** Nor does a chunk of a retired snapshot: the lookup reads live ones. */
  lemma DrainingKeepsLookups(db: Db, c: Chunk, rows: nat, key: SuiteKey, path: string, current: SnapshotId, limit: nat)
    requires IsChunk(db, c, rows)
    ensures DisplacedMembers(DrainChunk(db, c), key, path, current, limit)
            == DisplacedMembers(db, key, path, current, limit)
  {
    hide IsCurrent;
    var (d, s) := (DrainChunk(db, c), Ranked(db.snapshots, key, current));
    forall x | x in Take(s, limit) ensures x in d.snapshots && SameMember(db.members, d.members, MemberKey(x, path)) {
      assert x in Elements(s);
      assert x != c.id;
    }
    LookupUnchanged(db, d, key, path, current, limit);
  }
}
