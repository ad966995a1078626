/** The collector's batches: the prefiltered page query, the per-batch ranking memo, the loop over a page and
    the loop over pages, against one simple sweep of the whole table. */
module RetentionPass {
  import opened Text
  import opened Sorting
  import opened Tables
  import opened NewestN
  import opened Retention
  import opened Keys

  // ----- the ranking memo -----

  type Memo = map<Ranked, set<string>>

  ghost predicate MemoOk(c: Catalog, n: int, memo: Memo) {
    forall r :: r in memo ==> memo[r] == Newest(VersionsOf(c, r), n)
  }

  /** A query's rows, in whatever order they come. */
  method Listed(xs: set<string>) returns (s: seq<string>)
    ensures Elements(s) == xs
  {
    s := [];
    var left := xs;
    while left != {}
      invariant left <= xs && Elements(s) == xs - left
    {
      var x :| x in left;
      assert Elements(s + [x]) == Elements(s) + {x};
      s := s + [x];
      left := left - {x};
    }
  }

  method TopVersions(c: Catalog, r: Ranked, n: int, memo: Memo) returns (keep: set<string>, memo': Memo)
    requires Rankable(c) && MemoOk(c, n, memo)
    ensures keep == Newest(VersionsOf(c, r), n) && MemoOk(c, n, memo')
  {
    if r in memo { return memo[r], memo; }
    assert DebianRanks(VersionsOf(c, r));
    var versions := Listed(VersionsOf(c, r));
    keep := KeepNewest(versions, n);
    memo' := memo[r := keep];
  }

  // ----- the verdict on one row -----

  method IsRetained(c: Catalog, k: UrlKey, row: UrlRow, cutoff: Time, n: int, memo: Memo)
    returns (retained: bool, memo': Memo)
    requires Rankable(c) && MemoOk(c, n, memo)
    ensures retained <==> Retained(c, k, row, cutoff, n)
    ensures MemoOk(c, n, memo')
  {
    memo' := memo;
    if RecentlyRequested(row, cutoff) { return true, memo; }
    if (row.blob.Some? && ContentGuarded(c, row.blob.value)) || AnchorGuarded(c, k) { return true, memo; }
    if row.blob.None? { return false, memo; }
    retained, memo' := IsMirrored(c, k, row.blob.value, n, memo);
  }

  method IsMirrored(c: Catalog, k: UrlKey, h: Hash, n: int, memo: Memo) returns (mirrored: bool, memo': Memo)
    requires Rankable(c) && MemoOk(c, n, memo)
    ensures mirrored <==> Mirrored(c, k, h, n)
    ensures MemoOk(c, n, memo')
  {
    hide Rankable, MemoOk, Matches, VersionsOf, Newest;
    memo' := memo;
    var matches := Matches(c, k, h);
    if m :| m in matches && Incomplete(m) { return true, memo; }
    var left := matches;
    while left != {}
      invariant left <= matches && MemoOk(c, n, memo')
      invariant forall m :: m in matches && m !in left ==> m.version !in Newest(VersionsOf(c, RankedBy(k, m)), n)
    {
      var m :| m in left;
      var keep;
      keep, memo' := TopVersions(c, RankedBy(k, m), n, memo');
      if m.version in keep { return true, memo'; }
      left := left - {m};
    }
    mirrored := false;
  }

  // ----- one page -----

  datatype Counts = Counts(scanned: nat, stamped: nat, cleared: nat, deleted: nat)

  /** What a batch does to a row. */
  datatype Verdict = Leaves | ClearsStamp | DeletesRow | StampsRow

  ghost function VerdictOn(c: Catalog, k: UrlKey, row: UrlRow, p: Pass): Verdict {
    if Retained(c, k, row, p.cutoff, p.versions) then (if row.droppedAt.Some? then ClearsStamp else Leaves)
    else if p.hold <= 0 || Expired(row, p) then DeletesRow
    else if row.droppedAt.None? then StampsRow
    else Leaves
  }

  /** How many rows of ks get a verdict. */
  ghost function Tally(f: Files, c: Catalog, ks: set<UrlKey>, p: Pass, v: Verdict): nat {
    |set k | k in ks && k in f.urls && VerdictOn(c, k, f.urls[k], p) == v|
  }

  ghost function TallyAll(f: Files, c: Catalog, ks: set<UrlKey>, p: Pass, scanned: nat): Counts {
    Counts(scanned, Tally(f, c, ks, p, StampsRow), Tally(f, c, ks, p, ClearsStamp), Tally(f, c, ks, p, DeletesRow))
  }

  lemma TallyNext(f: Files, c: Catalog, ks: set<UrlKey>, k: UrlKey, p: Pass, v: Verdict)
    requires k !in ks && k in f.urls
    ensures Tally(f, c, ks + {k}, p, v) == Tally(f, c, ks, p, v) + (if VerdictOn(c, k, f.urls[k], p) == v then 1 else 0)
  {
    hide VerdictOn;
    var was := set x | x in ks && x in f.urls && VerdictOn(c, x, f.urls[x], p) == v;
    var now := set x | x in ks + {k} && x in f.urls && VerdictOn(c, x, f.urls[x], p) == v;
    if VerdictOn(c, k, f.urls[k], p) == v { assert now == was + {k}; } else { assert now == was; }
  }

  lemma TallyAllNext(f: Files, c: Catalog, batch: seq<UrlKey>, i: nat, p: Pass)
    requires Distinct(batch) && i < |batch| && batch[i] in f.urls
    ensures var (n, v) := (TallyAll(f, c, Elements(batch[..i]), p, i), VerdictOn(c, batch[i], f.urls[batch[i]], p));
            TallyAll(f, c, Elements(batch[..i + 1]), p, i + 1) ==
              Counts(i + 1, n.stamped + (if v.StampsRow? then 1 else 0), n.cleared + (if v.ClearsStamp? then 1 else 0),
                     n.deleted + (if v.DeletesRow? then 1 else 0))
  {
    hide Tally, VerdictOn;
    ElementsNext(batch, i);
    assert batch[i] !in Elements(batch[..i]);
    TallyNext(f, c, Elements(batch[..i]), batch[i], p, StampsRow);
    TallyNext(f, c, Elements(batch[..i]), batch[i], p, ClearsStamp);
    TallyNext(f, c, Elements(batch[..i]), batch[i], p, DeletesRow);
  }

  lemma TallyScanned(f: Files, c: Catalog, ks: set<UrlKey>, p: Pass, n: nat)
    ensures TallyAll(f, c, ks, p, n).scanned == n
  {
  }

  lemma TallyNone(f: Files, c: Catalog, p: Pass)
    ensures TallyAll(f, c, {}, p, 0) == Counts(0, 0, 0, 0)
  {
  }

  lemma SweepNone(f: Files, c: Catalog, p: Pass)
    ensures Sweep(f, c, {}, p) == f
  {
    SweepSkipped(f, c, {}, p);
  }

  /** What the loop does to one row is a sweep of that row. */
  lemma SweepKept(f: Files, c: Catalog, k: UrlKey, p: Pass)
    requires k in f.urls && !Deletes(c, k, f.urls[k], p)
    ensures Sweep(f, c, {k}, p) == f.(urls := f.urls[k := Settled(c, k, f.urls[k], p)])
  {
    hide Deletes, Settled;
    var g := Sweep(f, c, {k}, p);
    assert Doomed(f, c, {k}, p) == {};
    DropNone(f, p.now);
    forall x | x in g.urls || x in f.urls ensures x in g.urls && x in f.urls { SweepUrls(f, c, {k}, p, x); }
    forall x | x in f.urls ensures g.urls[x] == f.urls[k := Settled(c, k, f.urls[k], p)][x] {
      SweepUrls(f, c, {k}, p, x);
    }
    assert g.urls == f.urls[k := Settled(c, k, f.urls[k], p)];
  }

  lemma SweepDeleted(f: Files, c: Catalog, k: UrlKey, p: Pass)
    requires k in f.urls && Deletes(c, k, f.urls[k], p)
    ensures Sweep(f, c, {k}, p) == DropRow(f, k, p.now)
  {
    hide Deletes, Settled, DropRow;
    assert Doomed(f, c, {k}, p) == {k};
    DropNone(f, p.now);
    DropOneMore(f, {}, k, p.now);
    assert {} + {k} == {k};
    var (g, d) := (Sweep(f, c, {k}, p), DropKeys(f, {k}, p.now));
    assert g.urls == d.urls;
  }

  /** The next page starts where the last one ended: earlier rows are settled, this one is not. */
  lemma SweepNext(f: Files, c: Catalog, batch: seq<UrlKey>, i: nat, p: Pass)
    requires Distinct(batch) && i < |batch| && batch[i] in f.urls
    ensures var g := Sweep(f, c, Elements(batch[..i]), p);
            && batch[i] in g.urls && g.urls[batch[i]] == f.urls[batch[i]]
            && Sweep(g, c, {batch[i]}, p) == Sweep(f, c, Elements(batch[..i + 1]), p)
  {
    hide Sweep, Deletes, Settled;
    ElementsNext(batch, i);
    assert batch[i] !in Elements(batch[..i]);
    SweepUrls(f, c, Elements(batch[..i]), p, batch[i]);
    SweepTwice(f, c, Elements(batch[..i]), {batch[i]}, p);
  }

  method EvaluatePage(f: Files, c: Catalog, batch: seq<UrlKey>, p: Pass) returns (g: Files, n: Counts)
    requires Rankable(c) && Distinct(batch) && Elements(batch) <= f.urls.Keys
    ensures g == Sweep(f, c, Elements(batch), p)
    ensures n == TallyAll(f, c, Elements(batch), p, |batch|)
  {
    hide Sweep, Retained, Rankable, MemoOk, Tally, TallyAll;
    g, n := f, Counts(0, 0, 0, 0);
    TallyNone(f, c, p);
    SweepNone(f, c, p);
    assert Elements(batch[..0]) == {};
    var memo: Memo := map[];
    assert MemoOk(c, p.versions, memo) by { EmptyMemo(c, p.versions); }
    for i := 0 to |batch|
      invariant g == Sweep(f, c, Elements(batch[..i]), p) && MemoOk(c, p.versions, memo)
      invariant n == TallyAll(f, c, Elements(batch[..i]), p, i)
    {
      var k := batch[i];
      assert k in Elements(batch);
      var row := f.urls[k];
      SweepNext(f, c, batch, i, p);
      TallyAllNext(f, c, batch, i, p);
      assert n.scanned == i by { TallyScanned(f, c, Elements(batch[..i]), p, i); }
      n := n.(scanned := n.scanned + 1);
      var retained;
      retained, memo := IsRetained(c, k, row, p.cutoff, p.versions, memo);
      if retained {
        SweepKept(g, c, k, p);
        if row.droppedAt.Some? {
          g := g.(urls := g.urls[k := row.(droppedAt := None)]);
          n := n.(cleared := n.cleared + 1);
        } else {
          assert row.(droppedAt := None) == row && g.urls[k := row] == g.urls;
        }
        continue;
      }
      var expired := row.droppedAt.Some? && p.now - row.droppedAt.value >= p.hold;
      if p.hold <= 0 || expired {
        SweepDeleted(g, c, k, p);
        g := DropRow(g, k, p.now);
        n := n.(deleted := n.deleted + 1);
      } else if row.droppedAt.None? {
        SweepKept(g, c, k, p);
        g := g.(urls := g.urls[k := row.(droppedAt := Some(p.now))]);
        n := n.(stamped := n.stamped + 1);
      } else {
        SweepKept(g, c, k, p);
        assert g.urls[k := row] == g.urls;
      }
    }
    assert batch[..|batch|] == batch;
  }

  lemma EmptyMemo(c: Catalog, n: int)
    ensures MemoOk(c, n, map[])
  {
  }

  // ----- pages -----

  predicate Past(cursor: Option<UrlKey>, k: UrlKey) { cursor.None? || KeyLess(cursor.value, k) }

  /** The rows the page query sees: past the cursor and not skipped by the prefilter. */
  function Candidates(urls: Urls, cursor: Option<UrlKey>, cutoff: Time): set<UrlKey> {
    set k | k in urls && Past(cursor, k) && !Retention.Skipped(urls[k], cutoff)
  }

  /** The first `size` candidates in key order. */
  function Page(urls: Urls, cursor: Option<UrlKey>, cutoff: Time, size: nat): (batch: seq<UrlKey>)
    ensures Distinct(batch) && Ordered(KeyLess, batch) && |batch| <= size
    ensures Elements(batch) <= Candidates(urls, cursor, cutoff)
  {
    var all := SortedKeys(Candidates(urls, cursor, cutoff));
    var batch := if |all| <= size then all else all[..size];
    assert forall k :: k in batch ==> k in Elements(all);
    batch
  }

  /** The cursor a batch leaves: its last key, or the one it was given. */
  function NextCursor(batch: seq<UrlKey>, cursor: Option<UrlKey>): Option<UrlKey> {
    if batch == [] then cursor else Some(batch[|batch| - 1])
  }

  /** A page takes every candidate up to its last key. */
  lemma PageIsPrefix(urls: Urls, cursor: Option<UrlKey>, cutoff: Time, size: nat, k: UrlKey)
    requires size >= 1 && k in Candidates(urls, cursor, cutoff)
    ensures var batch := Page(urls, cursor, cutoff, size);
            k !in batch ==> batch != [] && KeyLess(batch[|batch| - 1], k)
  {
    hide KeyLess;
    var all := SortedKeys(Candidates(urls, cursor, cutoff));
    var batch := Page(urls, cursor, cutoff, size);
    assert k in Elements(all);
    var i :| 0 <= i < |all| && all[i] == k;
    if i < |batch| { assert batch[i] == k; }
  }

  /** The keys at or before the cursor. */
  function Reached(urls: Urls, cursor: Option<UrlKey>): set<UrlKey> { set k | k in urls && !Past(cursor, k) }

  /** One page sweeps the rest of the keys up to its last: the others there are skipped rows. */
  lemma PageAdvances(f: Files, c: Catalog, cursor: Option<UrlKey>, size: nat, p: Pass, g: Files, batch: seq<UrlKey>)
    requires size >= 1 && g == Sweep(f, c, Reached(f.urls, cursor), p)
    requires batch == Page(g.urls, cursor, p.cutoff, size) && batch != []
    ensures Elements(batch) <= g.urls.Keys
    ensures Sweep(g, c, Elements(batch), p) == Sweep(f, c, Reached(f.urls, NextCursor(batch, cursor)), p)
    ensures forall k :: k in Reached(f.urls, cursor) ==> k in Reached(f.urls, NextCursor(batch, cursor))
    ensures Past(cursor, batch[|batch| - 1])
  {
    hide Sweep, KeyLess, Retention.Skipped;
    var (last, done) := (batch[|batch| - 1], Reached(f.urls, cursor));
    var (next, now) := (NextCursor(batch, cursor), Elements(batch));
    assert last in now;
    forall k | k in done ensures k in Reached(f.urls, next) {
      if KeyLess(last, k) { if cursor.Some? { KeyTransitive(cursor.value, last, k); } }
    }
    var passed := Reached(f.urls, next) - done - now;
    BatchIsPast(f, c, cursor, size, p, g, batch);
    forall k | k in passed ensures k in g.urls ==> Retention.Skipped(g.urls[k], p.cutoff) {
      if k in g.urls && !Retention.Skipped(g.urls[k], p.cutoff) { PageIsPrefix(g.urls, cursor, p.cutoff, size, k); }
    }
    assert now !! passed && now <= Reached(f.urls, next);
    SweepTwice(f, c, done, now + passed, p);
    assert done + (now + passed) == Reached(f.urls, next);
    SweepTwice(g, c, passed, now, p);
    assert passed + now == now + passed;
    SweepSkipped(g, c, passed, p);
  }

  lemma BatchIsPast(f: Files, c: Catalog, cursor: Option<UrlKey>, size: nat, p: Pass, g: Files, batch: seq<UrlKey>)
    requires size >= 1 && g == Sweep(f, c, Reached(f.urls, cursor), p)
    requires batch == Page(g.urls, cursor, p.cutoff, size) && batch != []
    ensures Elements(batch) !! Reached(f.urls, cursor) && Elements(batch) <= Reached(f.urls, NextCursor(batch, cursor))
    ensures Elements(batch) <= g.urls.Keys
  {
    hide Sweep, KeyLess, Retention.Skipped;
    var last := batch[|batch| - 1];
    forall k | k in Elements(batch) ensures k in f.urls && k !in Reached(f.urls, cursor) && !KeyLess(last, k) {
      assert k in Candidates(g.urls, cursor, p.cutoff);
      SweepUrls(f, c, Reached(f.urls, cursor), p, k);
      var i :| 0 <= i < |batch| && batch[i] == k;
      KeyTrichotomy(last, k);
      assert i < |batch| - 1 ==> KeyLess(k, last);
    }
  }

  /** An empty page means every remaining row is skipped, so everything has been swept. */
  lemma LastPage(f: Files, c: Catalog, cursor: Option<UrlKey>, size: nat, p: Pass, g: Files)
    requires size >= 1 && g == Sweep(f, c, Reached(f.urls, cursor), p)
    requires Page(g.urls, cursor, p.cutoff, size) == []
    ensures g == Sweep(f, c, f.urls.Keys, p)
  {
    hide Sweep, KeyLess, Retention.Skipped;
    var done := Reached(f.urls, cursor);
    var rest := f.urls.Keys - done;
    forall k | k in rest && k in g.urls ensures Retention.Skipped(g.urls[k], p.cutoff) {
      if !Retention.Skipped(g.urls[k], p.cutoff) { PageIsPrefix(g.urls, cursor, p.cutoff, size, k); }
    }
    SweepTwice(f, c, done, rest, p);
    assert done + rest == f.urls.Keys;
    SweepSkipped(g, c, rest, p);
  }

  /** Looping batches from the empty cursor until one scans nothing, at a fixed time: it ends, visits keys in
      strictly increasing order, and leaves what one evaluation of every row leaves. */
  method PagedPass(f: Files, c: Catalog, size: nat, p: Pass) returns (g: Files, visited: seq<UrlKey>)
    requires Rankable(c) && size >= 1
    ensures g == Sweep(f, c, f.urls.Keys, p)
    ensures Ordered(KeyLess, visited)
  {
    hide Sweep, KeyLess, Rankable;
    g, visited := f, [];
    var cursor: Option<UrlKey> := None;
    assert Reached(f.urls, cursor) == {};
    SweepNone(f, c, p);
    while true
      invariant g == Sweep(f, c, Reached(f.urls, cursor), p)
      invariant Ordered(KeyLess, visited)
      invariant (forall k :: k in visited ==> cursor.Some? && (k == cursor.value || KeyLess(k, cursor.value)))
      decreases f.urls.Keys - Reached(f.urls, cursor)
    {
      var batch := Page(g.urls, cursor, p.cutoff, size);
      if batch == [] {
        LastPage(f, c, cursor, size, p, g);
        return;
      }
      PageAdvances(f, c, cursor, size, p, g, batch);
      BatchIsPast(f, c, cursor, size, p, g, batch);
      VisitMore(visited, batch, cursor, g.urls, p.cutoff);
      assert batch[|batch| - 1] in Elements(batch);
      visited := visited + batch;
      var n;
      g, n := EvaluatePage(g, c, batch, p);
      cursor := NextCursor(batch, cursor);
    }
  }

  lemma VisitMore(visited: seq<UrlKey>, batch: seq<UrlKey>, cursor: Option<UrlKey>, urls: Urls, cutoff: Time)
    requires Ordered(KeyLess, visited) && Ordered(KeyLess, batch) && batch != []
    requires forall k :: k in visited ==> cursor.Some? && (k == cursor.value || KeyLess(k, cursor.value))
    requires Elements(batch) <= Candidates(urls, cursor, cutoff)
    ensures Ordered(KeyLess, visited + batch)
    ensures forall k :: k in visited + batch ==> k == batch[|batch| - 1] || KeyLess(k, batch[|batch| - 1])
  {
    hide KeyLess, Retention.Skipped;
    forall a, b | a in visited && b in batch ensures KeyLess(a, b) {
      assert b in Elements(batch);
      if a != cursor.value { KeyTransitive(a, cursor.value, b); }
    }
    forall k | k in visited + batch ensures k == batch[|batch| - 1] || KeyLess(k, batch[|batch| - 1]) {
      if k in batch { var i :| 0 <= i < |batch| && batch[i] == k; }
    }
    var all := visited + batch;
    forall i, j | 0 <= i < j < |all| ensures KeyLess(all[i], all[j]) {
      if i < |visited| && j >= |visited| { assert all[i] in visited && all[j] in batch; }
    }
  }
}
