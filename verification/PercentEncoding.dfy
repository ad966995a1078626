/** The percent-encoding of upstream request paths, as apt writes it, and its decoding (section 2.1 of RFC 3986). */
module PercentEncoding {
  import opened Text

  type Byte = b: int | 0 <= b < 256

  const PERCENT: Byte := 0x25

  /** The printable bytes escaped besides controls, space and non-ASCII: + ~ % " < > \ ^ ` { | } # ? */
  const RESERVED: set<Byte> := {0x2b, 0x7e, 0x25, 0x22, 0x3c, 0x3e, 0x5c, 0x5e, 0x60, 0x7b, 0x7c, 0x7d, 0x23, 0x3f}

  predicate NeedsEscape(c: Byte) { c <= 0x20 || c >= 0x7f || c in RESERVED }

  predicate IsPlain(p: seq<Byte>) { forall i :: 0 <= i < |p| ==> !NeedsEscape(p[i]) }

  /** "0123456789abcdef"[n]. */
  function HexLower(n: int): Byte
    requires 0 <= n < 16
  {
    if n < 10 then 0x30 + n else 0x57 + n
  }

  /** The value of a hexadecimal digit of either case. */
  function HexValue(c: Byte): Option<int> {
    if 0x30 <= c <= 0x39 then Some(c - 0x30)
    else if 0x61 <= c <= 0x66 then Some(c - 0x57)
    else if 0x41 <= c <= 0x46 then Some(c - 0x37)
    else None
  }

  function Escaped(c: Byte): seq<Byte> {
    if NeedsEscape(c) then [PERCENT, HexLower(c / 16), HexLower(c % 16)] else [c]
  }

  function Encode(p: seq<Byte>): seq<Byte> {
    if p == [] then [] else Escaped(p[0]) + Encode(p[1..])
  }

  /** Percent-decoding; None for a '%' that two hexadecimal digits do not follow. */
  function Decode(e: seq<Byte>): Option<seq<Byte>> {
    if e == [] then Some([])
    else if e[0] != PERCENT then
      match Decode(e[1..]) case Some(r) => Some([e[0]] + r) case None => None
    else if |e| < 3 || HexValue(e[1]).None? || HexValue(e[2]).None? then None
    else
      var c: Byte := 16 * HexValue(e[1]).value + HexValue(e[2]).value;
      match Decode(e[3..]) case Some(r) => Some([c] + r) case None => None
  }

  /** A sequence of bytes that need no escape and lower-case triplets of bytes that do. */
  predicate IsEncoding(e: seq<Byte>) {
    if e == [] then true
    else if e[0] != PERCENT then !NeedsEscape(e[0]) && IsEncoding(e[1..])
    else
      && |e| >= 3 && HexValue(e[1]).Some? && HexValue(e[2]).Some?
      && e[1] == HexLower(HexValue(e[1]).value) && e[2] == HexLower(HexValue(e[2]).value)
      && NeedsEscape(16 * HexValue(e[1]).value + HexValue(e[2]).value) && IsEncoding(e[3..])
  }

  lemma HexRoundTrip(n: int)
    requires 0 <= n < 16
    ensures HexValue(HexLower(n)) == Some(n) && !NeedsEscape(HexLower(n))
  {
  }

  /** Decoding an encoded path gives the path back. */
  lemma {:induction false} DecodeEncode(p: seq<Byte>)
    ensures Decode(Encode(p)) == Some(p)
  {
    if p != [] {
      DecodeEncode(p[1..]);
      var (c, e) := (p[0], Encode(p));
      HexRoundTrip(c / 16);
      HexRoundTrip(c % 16);
      assert e[|Escaped(c)|..] == Encode(p[1..]);
      assert p == [c] + p[1..];
    }
  }

  lemma EncodeIsInjective(p: seq<Byte>, q: seq<Byte>)
    requires Encode(p) == Encode(q)
    ensures p == q
  {
    DecodeEncode(p);
    DecodeEncode(q);
  }

  /** Every encoding is well formed, and every well-formed encoding is the encoding of what it decodes to. */
  lemma {:induction false} EncodeIsEncoding(p: seq<Byte>)
    ensures IsEncoding(Encode(p))
  {
    if p != [] {
      EncodeIsEncoding(p[1..]);
      var (c, e) := (p[0], Encode(p));
      HexRoundTrip(c / 16);
      HexRoundTrip(c % 16);
      assert e[|Escaped(c)|..] == Encode(p[1..]);
    }
  }

  lemma {:induction false} EncodingDecodes(e: seq<Byte>)
    requires IsEncoding(e)
    ensures Decode(e).Some? && Encode(Decode(e).value) == e
  {
    if e == [] {
    } else if e[0] != PERCENT {
      EncodingDecodes(e[1..]);
      var r := Decode(e[1..]).value;
      assert ([e[0]] + r)[1..] == r;
      assert e == [e[0]] + e[1..];
    } else {
      EncodingDecodes(e[3..]);
      var r := Decode(e[3..]).value;
      var (x, y) := (HexValue(e[1]).value, HexValue(e[2]).value);
      var c: Byte := 16 * x + y;
      assert c / 16 == x && c % 16 == y;
      assert ([c] + r)[1..] == r;
      assert e == [e[0], e[1], e[2]] + e[3..];
    }
  }

  /** The encodings are exactly the well-formed strings, and a byte that needs escaping
      appears in one only as the '%' of a triplet. */
  lemma EncodingsExactly(e: seq<Byte>)
    ensures IsEncoding(e) <==> exists p :: Encode(p) == e
    ensures IsEncoding(e) ==> forall i :: 0 <= i < |e| && NeedsEscape(e[i]) ==> e[i] == PERCENT
  {
    if IsEncoding(e) {
      EncodingDecodes(e);
      OnlyPercentNeedsEscape(e);
    }
    if p :| Encode(p) == e { EncodeIsEncoding(p); }
  }

  lemma {:induction false} OnlyPercentNeedsEscape(e: seq<Byte>)
    requires IsEncoding(e)
    ensures forall i :: 0 <= i < |e| && NeedsEscape(e[i]) ==> e[i] == PERCENT
  {
    if e == [] {
    } else if e[0] != PERCENT {
      OnlyPercentNeedsEscape(e[1..]);
      assert e == [e[0]] + e[1..];
    } else {
      OnlyPercentNeedsEscape(e[3..]);
      HexRoundTrip(HexValue(e[1]).value);
      HexRoundTrip(HexValue(e[2]).value);
      assert e == [e[0], e[1], e[2]] + e[3..];
    }
  }

  lemma {:induction false} PlainIsUnchanged(p: seq<Byte>)
    requires IsPlain(p)
    ensures Encode(p) == p
  {
    if p != [] { PlainIsUnchanged(p[1..]); }
  }

  lemma {:induction false} EncodeAppend(p: seq<Byte>, c: Byte)
    ensures Encode(p + [c]) == Encode(p) + Escaped(c)
  {
    if p == [] {
      assert [c][1..] == [];
    } else {
      assert (p + [c])[1..] == p[1..] + [c];
      EncodeAppend(p[1..], c);
    }
  }

  /** AptEncodePath: a count of the bytes to escape, then a builder filled byte by byte. */
  method AptEncodePath(p: seq<Byte>) returns (e: seq<Byte>)
    ensures e == Encode(p)
    ensures e == p <==> IsPlain(p)
  {
    var n: nat := 0;
    for i := 0 to |p|
      invariant n == 0 <==> IsPlain(p[..i])
    {
      assert p[..i + 1] == p[..i] + [p[i]];
      if NeedsEscape(p[i]) {
        assert p[..i + 1][i] == p[i];
        n := n + 1;
      }
    }
    assert p[..|p|] == p;
    if n == 0 {
      PlainIsUnchanged(p);
      return p;
    }
    e := [];
    for i := 0 to |p|
      invariant e == Encode(p[..i])
    {
      var c := p[i];
      EncodeAppend(p[..i], c);
      assert p[..i + 1] == p[..i] + [c];
      if NeedsEscape(c) {
        e := e + [PERCENT];
        e := e + [HexLower(c / 16)];
        e := e + [HexLower(c % 16)];
        continue;
      }
      e := e + [c];
    }
    EncodeGrows(p);
  }

  lemma {:induction false} EncodeGrows(p: seq<Byte>)
    ensures |Encode(p)| >= |p|
    ensures !IsPlain(p) ==> |Encode(p)| > |p|
  {
    if p != [] {
      EncodeGrows(p[1..]);
      if !NeedsEscape(p[0]) && IsPlain(p[1..]) { assert p == [p[0]] + p[1..]; }
    }
  }
}
