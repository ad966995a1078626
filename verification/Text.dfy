/** Strings as the cache and its path grammar use them: byte order, suffixes and '/'-separated segments.
    A character stands for one byte of the source's strings. */
module Text {

  datatype Option<+T> = None | Some(value: T)

  // ----- byte order (SQLite's BINARY collation, Go's string <) -----

  predicate Less(a: string, b: string) {
    if |b| == 0 then false
    else if |a| == 0 then true
    else a[0] < b[0] || (a[0] == b[0] && Less(a[1..], b[1..]))
  }

  lemma {:induction false} LessTotal(a: string, b: string)
    ensures Less(a, b) || a == b || Less(b, a)
  {
    if a != [] && b != [] && a[0] == b[0] {
      LessTotal(a[1..], b[1..]);
      assert a == [a[0]] + a[1..] && b == [b[0]] + b[1..];
    }
  }

  lemma {:induction false} LessAsymmetric(a: string, b: string)
    ensures !(Less(a, b) && Less(b, a))
    ensures !Less(a, a)
  {
    if a != [] && b != [] { LessAsymmetric(a[1..], b[1..]); }
    if a != [] { LessAsymmetric(a[1..], a[1..]); }
  }

  lemma {:induction false} LessTransitive(a: string, b: string, c: string)
    requires Less(a, b) && Less(b, c)
    ensures Less(a, c)
  {
    if a != [] && b != [] && c != [] && a[0] == b[0] == c[0] {
      LessTransitive(a[1..], b[1..], c[1..]);
    }
  }

  /** The strings in the half-open range ["s/", "s0") are exactly those that start with "s/":
      '0' is the byte after '/'. */
  lemma {:induction false} SlashRange(s: string, p: string)
    ensures (!Less(p, s + "/") && Less(p, s + "0")) <==> (s + "/") <= p
  {
    if s == [] {
      if |p| > 0 && p[0] == '/' { assert !Less(p[1..], []); }
      if |p| > 0 && p[0] < '0' && !(p[0] < '/') { assert p[0] == '/'; }
    } else if p == [] {
    } else {
      assert (s + "/")[1..] == s[1..] + "/" && (s + "0")[1..] == s[1..] + "0";
      SlashRange(s[1..], p[1..]);
      if (s + "/") <= p {
        assert p[0] == s[0];
        assert p[1..][..|s|] == s[1..] + "/";
      }
      if p[0] == s[0] && (s[1..] + "/") <= p[1..] {
        assert p == [p[0]] + p[1..];
        assert s + "/" == [s[0]] + (s[1..] + "/");
      }
    }
  }

  // ----- suffixes -----

  predicate HasSuffix(s: string, t: string) {
    |t| <= |s| && s[|s| - |t|..] == t
  }

  function TrimSuffix(s: string, t: string): string {
    if HasSuffix(s, t) then s[..|s| - |t|] else s
  }

  // ----- segments -----

  /** strings.Split(s, "/"): the pieces between separators; never empty. */
  function Split(s: string): (segs: seq<string>)
    ensures |segs| >= 1
    ensures forall i :: 0 <= i < |segs| ==> '/' !in segs[i]
  {
    if s == [] then [[]]
    else
      var rest := Split(s[1..]);
      if s[0] == '/' then [[]] + rest
      else [[s[0]] + rest[0]] + rest[1..]
  }

  /** strings.Join(segs, "/"). */
  function Join(segs: seq<string>): string {
    if |segs| == 0 then ""
    else if |segs| == 1 then segs[0]
    else segs[0] + "/" + Join(segs[1..])
  }

  lemma {:induction false} JoinSplit(s: string)
    ensures Join(Split(s)) == s
  {
    if s != [] {
      JoinSplit(s[1..]);
      var rest := Split(s[1..]);
      if s[0] == '/' {
        assert ([[]] + rest)[1..] == rest;
        assert "" + "/" + Join(rest) == s;
      } else {
        var segs := [[s[0]] + rest[0]] + rest[1..];
        if |rest| == 1 {
          assert Join(segs) == [s[0]] + rest[0];
        } else {
          assert segs[1..] == rest[1..];
          assert Join(segs) == ([s[0]] + rest[0]) + "/" + Join(rest[1..]) == [s[0]] + (rest[0] + "/" + Join(rest[1..]));
        }
      }
    }
  }

  lemma {:induction false} SplitSeparator(a: string, b: string)
    ensures Split(a + "/" + b) == Split(a) + Split(b)
  {
    var s := a + "/" + b;
    if a == [] {
      assert s[1..] == b;
    } else {
      var rest := Split(a[1..]);
      assert s[0] == a[0] && s[1..] == a[1..] + "/" + b;
      SplitSeparator(a[1..], b);
      var whole := Split(s[1..]);
      assert whole == rest + Split(b);
      assert whole[0] == rest[0] && whole[1..] == rest[1..] + Split(b);
    }
  }

  lemma {:induction false} SplitPlain(s: string)
    requires '/' !in s
    ensures Split(s) == [s]
  {
    if s != [] {
      SplitPlain(s[1..]);
      assert s == [s[0]] + s[1..];
    }
  }

  lemma {:induction false} SplitJoin(segs: seq<string>)
    requires |segs| >= 1
    requires forall i :: 0 <= i < |segs| ==> '/' !in segs[i]
    ensures Split(Join(segs)) == segs
  {
    SplitPlain(segs[0]);
    if |segs| == 1 {
      assert segs == [segs[0]];
    } else {
      SplitJoin(segs[1..]);
      SplitSeparator(segs[0], Join(segs[1..]));
      assert segs == [segs[0]] + segs[1..];
    }
  }

  lemma {:induction false} JoinAppend(a: seq<string>, b: seq<string>)
    requires |a| >= 1 && |b| >= 1
    ensures Join(a + b) == Join(a) + "/" + Join(b)
  {
    assert (a + b)[0] == a[0];
    if |a| == 1 {
      assert (a + b)[1..] == b;
    } else {
      JoinAppend(a[1..], b);
      assert (a + b)[1..] == a[1..] + b;
    }
  }
}
