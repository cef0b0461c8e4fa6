/** The base64url alphabet of section 5 of RFC 4648, without '=' padding:
    Go's base64.RawURLEncoding and Python's urlsafe_b64encode(...).rstrip(b"="). */
module Base64Url {
  import opened Bytes
  import opened Wrappers

  /** The 64 symbols A-Z a-z 0-9 - _ . */
  predicate IsUrlSafe(c: char)
  {
    ('A' <= c <= 'Z') || ('a' <= c <= 'z') || ('0' <= c <= '9') || c == '-' || c == '_'
  }

  function Symbol(v: int): (c: char)
    requires 0 <= v < 64
    ensures IsUrlSafe(c)
  {
    if v < 26 then ('A' as int + v) as char
    else if v < 52 then ('a' as int + v - 26) as char
    else if v < 62 then ('0' as int + v - 52) as char
    else if v == 62 then '-'
    else '_'
  }

  function SymbolValue(c: char): (r: Option<int>)
    ensures r.Some? ==> 0 <= r.value < 64 && Symbol(r.value) == c
    ensures IsUrlSafe(c) ==> r.Some?
  {
    if 'A' <= c <= 'Z' then Some(c as int - 'A' as int)
    else if 'a' <= c <= 'z' then Some(c as int - 'a' as int + 26)
    else if '0' <= c <= '9' then Some(c as int - '0' as int + 52)
    else if c == '-' then Some(62)
    else if c == '_' then Some(63)
    else None
  }

  lemma SymbolValueOfSymbol(v: int)
    requires 0 <= v < 64
    ensures SymbolValue(Symbol(v)) == Some(v)
  {
  }

  /** Symbols are distinct, so a symbol determines its value. */
  lemma SymbolInjective(a: int, b: int)
    requires 0 <= a < 64 && 0 <= b < 64
    requires Symbol(a) == Symbol(b)
    ensures a == b
  {
    SymbolValueOfSymbol(a);
    SymbolValueOfSymbol(b);
  }

  /** The four six-bit values of a group of three octets. */
  function Sextets(b0: int, b1: int, b2: int): (v: seq<int>)
    requires 0 <= b0 < 256 && 0 <= b1 < 256 && 0 <= b2 < 256
    ensures |v| == 4 && forall i :: 0 <= i < 4 ==> 0 <= v[i] < 64
  {
    [b0 / 4, (b0 % 4) * 16 + b1 / 16, (b1 % 16) * 4 + b2 / 64, b2 % 64]
  }

  /** The three octets packed into four six-bit values. */
  function Octets(v0: int, v1: int, v2: int, v3: int): (b: seq<byte>)
    requires 0 <= v0 < 64 && 0 <= v1 < 64 && 0 <= v2 < 64 && 0 <= v3 < 64
    ensures |b| == 3
  {
    [v0 * 4 + v1 / 16, (v1 % 16) * 16 + v2 / 4, (v2 % 4) * 64 + v3]
  }

  /** Packing undoes splitting. */
  lemma OctetsOfSextets(b0: int, b1: int, b2: int)
    requires 0 <= b0 < 256 && 0 <= b1 < 256 && 0 <= b2 < 256
    ensures var v := Sextets(b0, b1, b2); Octets(v[0], v[1], v[2], v[3]) == [b0, b1, b2]
  {
    var q0, r0 := b0 / 4, b0 % 4;
    var q1, r1 := b1 / 16, b1 % 16;
    var q2, r2 := b2 / 64, b2 % 64;
    assert b0 == 4 * q0 + r0 && b1 == 16 * q1 + r1 && b2 == 64 * q2 + r2;
    var v1 := r0 * 16 + q1;
    var v2 := r1 * 4 + q2;
    assert v1 / 16 == r0 && v1 % 16 == q1;
    assert v2 / 4 == r1 && v2 % 4 == q2;
  }

  /** The six-bit values of a whole octet string: four per three octets,
      and a final one or two octets padded with zero bits to two or three. */
  function SextetsOf(bs: seq<byte>): (v: seq<int>)
    ensures forall i :: 0 <= i < |v| ==> 0 <= v[i] < 64
  {
    if |bs| >= 3 then Sextets(bs[0], bs[1], bs[2]) + SextetsOf(bs[3..])
    else if |bs| == 2 then Sextets(bs[0], bs[1], 0)[..3]
    else if |bs| == 1 then Sextets(bs[0], 0, 0)[..2]
    else []
  }

  /** Writes each six-bit value as its symbol. */
  function Spell(v: seq<int>): (s: string)
    requires forall i :: 0 <= i < |v| ==> 0 <= v[i] < 64
    ensures |s| == |v| && forall i :: 0 <= i < |s| ==> IsUrlSafe(s[i])
  {
    seq(|v|, i requires 0 <= i < |v| => Symbol(v[i]))
  }

  /** Unpadded base64url encoding. */
  function Encode(bs: seq<byte>): (s: string)
    ensures forall i :: 0 <= i < |s| ==> IsUrlSafe(s[i])
  {
    Spell(SextetsOf(bs))
  }

  function Values(s: string): (r: Option<seq<int>>)
    ensures r.Some? ==> |r.value| == |s| && forall i :: 0 <= i < |s| ==> 0 <= r.value[i] < 64 && Symbol(r.value[i]) == s[i]
  {
    if s == [] then Some([])
    else
      match SymbolValue(s[0])
      case None => None
      case Some(v) =>
        match Values(s[1..])
        case None => None
        case Some(rest) => Some([v] + rest)
  }

  function DecodeValues(v: seq<int>): (r: Option<seq<byte>>)
    requires forall i :: 0 <= i < |v| ==> 0 <= v[i] < 64
  {
    if |v| >= 4 then
      match DecodeValues(v[4..])
      case None => None
      case Some(rest) => Some(Octets(v[0], v[1], v[2], v[3]) + rest)
    else if |v| == 3 then Some(Octets(v[0], v[1], v[2], 0)[..2])
    else if |v| == 2 then Some(Octets(v[0], v[1], 0, 0)[..1])
    else if |v| == 1 then None
    else Some([])
  }

  /** Decodes unpadded base64url; None for a symbol outside the alphabet or
      a length that leaves a single dangling symbol. */
  function Decode(s: string): Option<seq<byte>>
  {
    match Values(s)
    case None => None
    case Some(v) => DecodeValues(v)
  }

  lemma ValuesOfEncoding(s: string)
    requires forall i :: 0 <= i < |s| ==> IsUrlSafe(s[i])
    ensures Values(s).Some?
  {
    if s != [] {
      ValuesOfEncoding(s[1..]);
    }
  }

  /** Reading the symbols back gives the values written. */
  lemma ValuesOfSpell(w: seq<int>)
    requires forall i :: 0 <= i < |w| ==> 0 <= w[i] < 64
    ensures Values(Spell(w)) == Some(w)
  {
    var s := Spell(w);
    ValuesOfEncoding(s);
    var v := Values(s).value;
    forall i | 0 <= i < |s| ensures v[i] == w[i] {
      SymbolInjective(v[i], w[i]);
    }
    assert v == w;
  }

  /** Packing the six-bit values gives back the octets. */
  lemma {:induction false} DecodeSextets(bs: seq<byte>)
    ensures DecodeValues(SextetsOf(bs)) == Some(bs)
    decreases |bs|
  {
    var v := SextetsOf(bs);
    if |bs| >= 3 {
      var g := Sextets(bs[0], bs[1], bs[2]);
      DecodeSextets(bs[3..]);
      assert v[4..] == SextetsOf(bs[3..]);
      OctetsOfSextets(bs[0], bs[1], bs[2]);
      assert Octets(v[0], v[1], v[2], v[3]) == [bs[0], bs[1], bs[2]];
      assert bs == [bs[0], bs[1], bs[2]] + bs[3..];
    } else if |bs| == 2 {
      var g := Sextets(bs[0], bs[1], 0);
      OctetsOfSextets(bs[0], bs[1], 0);
      assert v == g[..3] && g[3] == 0;
      assert Octets(g[0], g[1], g[2], g[3]) == [bs[0], bs[1], 0];
      assert [bs[0] as int, bs[1] as int, 0][..2] == bs;
    } else if |bs| == 1 {
      var g := Sextets(bs[0], 0, 0);
      OctetsOfSextets(bs[0], 0, 0);
      assert v == g[..2] && g[2] == 0 && g[3] == 0;
      assert Octets(g[0], g[1], g[2], g[3]) == [bs[0], 0, 0];
      assert [bs[0] as int, 0, 0][..1] == bs;
    }
  }

  /** Decoding inverts encoding, so the encoded form keeps every bit. */
  lemma DecodeEncode(bs: seq<byte>)
    ensures Decode(Encode(bs)) == Some(bs)
  {
    ValuesOfSpell(SextetsOf(bs));
    DecodeSextets(bs);
  }

  /** Four symbols per three octets, and two or three for a final one or two. */
  lemma {:induction false} EncodeLength(bs: seq<byte>)
    ensures |Encode(bs)| == 4 * (|bs| / 3) + (if |bs| % 3 == 0 then 0 else |bs| % 3 + 1)
    decreases |bs|
  {
    if |bs| >= 3 {
      EncodeLength(bs[3..]);
      assert |SextetsOf(bs)| == 4 + |SextetsOf(bs[3..])|;
      assert |bs[3..]| / 3 == |bs| / 3 - 1;
      assert |bs[3..]| % 3 == |bs| % 3;
    }
  }

  /** An MD5 digest (16 octets) encodes to 22 symbols. */
  lemma DigestLength(bs: seq<byte>)
    requires |bs| == 16
    ensures |Encode(bs)| == 22
  {
    EncodeLength(bs);
  }
}
