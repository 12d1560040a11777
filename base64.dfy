/** Go's `base64.StdEncoding.EncodeToString`: the standard alphabet of
    section 4 of RFC 4648, with `=` padding. `Decode` is the canonical
    decoder of the same section (padding bits must be zero); the translator
    never decodes, the decoder is here to show that encoding loses nothing.

    Both directions go through the 6-bit values: bytes are split into
    values and values spelled as characters, so that the arithmetic on
    bits and the table of characters are reasoned about apart. */
module Base64 {
  import opened Wrappers
  import opened GoText

  const Pad := '='

  // ---------------------------------------------------------------------
  // The alphabet

  /** The character encoding the 6-bit value `v`, as in the table of
      section 4 of RFC 4648: 0-25 are 'A'-'Z', 26-51 are 'a'-'z', 52-61 are
      '0'-'9', 62 is '+' and 63 is '/'. */
  function CharOf(v: int): char
    requires 0 <= v < 64
  {
    if v < 26 then ('A' as int + v) as char
    else if v < 52 then ('a' as int + (v - 26)) as char
    else if v < 62 then ('0' as int + (v - 52)) as char
    else if v == 62 then '+'
    else '/'
  }

  /** The 6-bit value a character encodes, or -1 when it is not in the alphabet. */
  function ValueOf(c: char): (v: int)
    ensures -1 <= v < 64
  {
    if 'A' <= c <= 'Z' then c as int - 'A' as int
    else if 'a' <= c <= 'z' then c as int - 'a' as int + 26
    else if '0' <= c <= '9' then c as int - '0' as int + 52
    else if c == '+' then 62
    else if c == '/' then 63
    else -1
  }

  /** The table read both ways is one bijection, and padding is not in it. */
  lemma ValueOfCharOf(v: int)
    requires 0 <= v < 64
    ensures ValueOf(CharOf(v)) == v && CharOf(v) != Pad
  {
  }

  lemma CharOfValueOf(c: char)
    requires ValueOf(c) >= 0
    ensures CharOf(ValueOf(c)) == c
  {
  }

  predicate AllSextets(vs: seq<int>) {
    forall k :: 0 <= k < |vs| ==> 0 <= vs[k] < 64
  }

  /** The characters spelling 6-bit values. */
  function Spell(vs: seq<int>): string
    requires AllSextets(vs)
  {
    seq(|vs|, k requires 0 <= k < |vs| => CharOf(vs[k]))
  }

  /** The values of the characters, -1 for those outside the alphabet. */
  function Values(s: string): seq<int> {
    seq(|s|, k requires 0 <= k < |s| => ValueOf(s[k]))
  }

  /** Reading back what was spelled gives the values; no padding is spelled. */
  lemma ValuesSpell(vs: seq<int>)
    requires AllSextets(vs)
    ensures Values(Spell(vs)) == vs
    ensures forall k :: 0 <= k < |vs| ==> Spell(vs)[k] != Pad
  {
    forall k | 0 <= k < |vs|
      ensures ValueOf(Spell(vs)[k]) == vs[k] && Spell(vs)[k] != Pad
    {
      ValueOfCharOf(vs[k]);
    }
  }

  /** Spelling the values of alphabet characters gives the characters. */
  lemma SpellValues(s: string)
    requires forall k :: 0 <= k < |s| ==> ValueOf(s[k]) >= 0
    ensures AllSextets(Values(s)) && Spell(Values(s)) == s
  {
    forall k | 0 <= k < |s|
      ensures CharOf(ValueOf(s[k])) == s[k]
    {
      CharOfValueOf(s[k]);
    }
  }

  lemma SpellAppend(a: seq<int>, b: seq<int>)
    requires AllSextets(a) && AllSextets(b)
    ensures AllSextets(a + b) && Spell(a + b) == Spell(a) + Spell(b)
  {
  }

  // ---------------------------------------------------------------------
  // Bytes and 6-bit values

  /** The four 6-bit values of three bytes, most significant bits first. */
  function Split(b0: Byte, b1: Byte, b2: Byte): seq<int> {
    [b0 / 4, (b0 % 4) * 16 + b1 / 16, (b1 % 16) * 4 + b2 / 64, b2 % 64]
  }

  /** The three bytes of four 6-bit values. */
  function Glue(v0: int, v1: int, v2: int, v3: int): seq<Byte>
    requires 0 <= v0 < 64 && 0 <= v1 < 64 && 0 <= v2 < 64 && 0 <= v3 < 64
  {
    [v0 * 4 + v1 / 16, (v1 % 16) * 16 + v2 / 4, (v2 % 4) * 64 + v3]
  }

  /** Splitting three bytes and gluing the values gives the bytes back; a
      zero last byte leaves the last value zero, and a zero middle byte too
      makes the low four bits of the second value zero. */
  lemma SplitGlue(b0: Byte, b1: Byte, b2: Byte)
    ensures var vs := Split(b0, b1, b2);
      && AllSextets(vs) && Glue(vs[0], vs[1], vs[2], vs[3]) == [b0, b1, b2]
      && (b2 == 0 ==> vs[3] == 0 && vs[2] % 4 == 0)
      && (b1 == 0 && b2 == 0 ==> vs[2] == 0 && vs[1] % 16 == 0)
  {
    var q0, r0 := b0 / 4, b0 % 4;
    var q1, r1 := b1 / 16, b1 % 16;
    var q2, r2 := b2 / 64, b2 % 64;
    assert b0 == q0 * 4 + r0 && 0 <= r0 < 4;
    assert b1 == q1 * 16 + r1 && 0 <= r1 < 16 && q1 < 16;
    assert b2 == q2 * 64 + r2 && 0 <= r2 < 64 && q2 < 4;
    var x1 := r0 * 16 + q1;
    assert x1 / 16 == r0 && x1 % 16 == q1;
    var x2 := r1 * 4 + q2;
    assert x2 / 4 == r1 && x2 % 4 == q2;
  }

  /** Gluing four 6-bit values and splitting the bytes gives the values
      back; a zero last value leaves the last byte as the low two bits of
      the third value, and so on. */
  lemma GlueSplit(v0: int, v1: int, v2: int, v3: int)
    requires 0 <= v0 < 64 && 0 <= v1 < 64 && 0 <= v2 < 64 && 0 <= v3 < 64
    ensures var ys := Glue(v0, v1, v2, v3);
      && Split(ys[0], ys[1], ys[2]) == [v0, v1, v2, v3]
      && (v3 == 0 && v2 % 4 == 0 ==> ys[2] == 0)
      && (v3 == 0 && v2 == 0 && v1 % 16 == 0 ==> ys[1] == 0 && ys[2] == 0)
  {
    var q1, r1 := v1 / 16, v1 % 16;
    var q2, r2 := v2 / 4, v2 % 4;
    assert v1 == q1 * 16 + r1 && 0 <= q1 < 4 && 0 <= r1 < 16;
    assert v2 == q2 * 4 + r2 && 0 <= q2 < 16 && 0 <= r2 < 4;
    var y0 := v0 * 4 + q1;
    assert y0 / 4 == v0 && y0 % 4 == q1;
    var y1 := r1 * 16 + q2;
    assert y1 / 16 == r1 && y1 % 16 == q2;
    var y2 := r2 * 64 + v3;
    assert y2 / 64 == r2 && y2 % 64 == v3;
  }

  /** The 6-bit values of the bytes: four per group of three; a last group
      of one or two bytes gives its first two or three values. */
  function Sextets(b: seq<Byte>): (vs: seq<int>)
    ensures AllSextets(vs)
    decreases |b|
  {
    if |b| == 0 then []
    else if |b| == 1 then SplitGlue(b[0], 0, 0); Split(b[0], 0, 0)[..2]
    else if |b| == 2 then SplitGlue(b[0], b[1], 0); Split(b[0], b[1], 0)[..3]
    else SplitGlue(b[0], b[1], b[2]); Split(b[0], b[1], b[2]) + Sextets(b[3..])
  }

  /** Four values per full group, and two or three for a last group of
      one or two bytes. */
  lemma {:induction false} SextetsLength(b: seq<Byte>)
    ensures |Sextets(b)| == 4 * (|b| / 3) + (if |b| % 3 == 0 then 0 else |b| % 3 + 1)
    decreases |b|
  {
    if |b| >= 3 {
      SextetsLength(b[3..]);
    }
  }

  /** The bytes of 6-bit values: three per group of four; a last group of
      two or three values gives one or two bytes, provided the bits left
      over are zero. */
  function Join(vs: seq<int>): Option<seq<Byte>>
    requires AllSextets(vs)
    decreases |vs|
  {
    if |vs| == 0 then Some([])
    else if |vs| == 1 then None
    else if |vs| == 2 then
      if vs[1] % 16 == 0 then Some(Glue(vs[0], vs[1], 0, 0)[..1]) else None
    else if |vs| == 3 then
      if vs[2] % 4 == 0 then Some(Glue(vs[0], vs[1], vs[2], 0)[..2]) else None
    else
      match Join(vs[4..])
      case None => None
      case Some(rest) => Some(Glue(vs[0], vs[1], vs[2], vs[3]) + rest)
  }

  /** Joining the values of some bytes gives the bytes. */
  lemma {:induction false} JoinSextets(b: seq<Byte>)
    ensures Join(Sextets(b)) == Some(b)
    decreases |b|
  {
    if |b| == 1 {
      JoinLast(b[0], 0, 1);
      assert Sextets(b) == Split(b[0], 0, 0)[..2];
      assert b == [b[0]];
    } else if |b| == 2 {
      JoinLast(b[0], b[1], 2);
      assert Sextets(b) == Split(b[0], b[1], 0)[..3];
      assert b == [b[0], b[1]];
    } else if |b| >= 3 {
      JoinSextets(b[3..]);
      JoinGroup(b);
    }
  }

  /** A last group of one or two bytes joins back from its values. */
  lemma JoinLast(b0: Byte, b1: Byte, n: nat)
    requires n == 1 || n == 2
    requires n == 1 ==> b1 == 0
    ensures Join(Split(b0, b1, 0)[..n + 1]) == Some(if n == 1 then [b0] else [b0, b1])
  {
    var vs := Split(b0, b1, 0);
    SplitGlue(b0, b1, 0);
    var t := vs[..n + 1];
    assert t[0] == vs[0] && t[1] == vs[1] && |t| == n + 1;
    if n == 1 {
      assert Glue(t[0], t[1], 0, 0) == [b0, 0, 0];
      assert Join(t) == Some(Glue(t[0], t[1], 0, 0)[..1]);
      assert [b0, 0, 0][..1] == [b0];
    } else {
      assert t[2] == vs[2];
      assert Glue(t[0], t[1], t[2], 0) == [b0, b1, 0];
      assert Join(t) == Some(Glue(t[0], t[1], t[2], 0)[..2]);
      assert [b0, b1, 0][..2] == [b0, b1];
    }
  }

  lemma JoinGroup(b: seq<Byte>)
    requires |b| >= 3 && Join(Sextets(b[3..])) == Some(b[3..])
    ensures Join(Sextets(b)) == Some(b)
  {
    var vs := Sextets(b);
    var g := Split(b[0], b[1], b[2]);
    SplitGlue(b[0], b[1], b[2]);
    assert vs == g + Sextets(b[3..]);
    Halves(g, Sextets(b[3..]));
    assert vs[0] == g[0] && vs[1] == g[1] && vs[2] == g[2] && vs[3] == g[3];
    JoinCons(vs);
    SplitThree(b);
  }

  /** A leading group of four values joins to three bytes before the rest. */
  lemma JoinCons(vs: seq<int>)
    requires |vs| >= 4 && AllSextets(vs) && Join(vs[4..]).Some?
    ensures Join(vs) == Some(Glue(vs[0], vs[1], vs[2], vs[3]) + Join(vs[4..]).value)
  {
  }

  lemma Halves<T>(a: seq<T>, c: seq<T>)
    ensures (a + c)[..|a|] == a && (a + c)[|a|..] == c
  {
  }

  lemma SplitThree<T>(b: seq<T>)
    requires |b| >= 3
    ensures b == [b[0], b[1], b[2]] + b[3..]
  {
  }

  /** Values that join to some bytes are the values of those bytes. */
  lemma {:induction false} SextetsJoin(vs: seq<int>)
    requires AllSextets(vs) && Join(vs).Some?
    ensures Sextets(Join(vs).value) == vs
    decreases |vs|
  {
    if |vs| == 2 {
      GlueSplit(vs[0], vs[1], 0, 0);
      var ys := Glue(vs[0], vs[1], 0, 0);
      assert Sextets([ys[0]]) == Split(ys[0], 0, 0)[..2];
    } else if |vs| == 3 {
      GlueSplit(vs[0], vs[1], vs[2], 0);
      var ys := Glue(vs[0], vs[1], vs[2], 0);
      assert Sextets([ys[0], ys[1]]) == Split(ys[0], ys[1], 0)[..3];
    } else if |vs| >= 4 {
      SextetsJoin(vs[4..]);
      SextetsGroup(vs);
    }
  }

  lemma SextetsGroup(vs: seq<int>)
    requires |vs| >= 4 && AllSextets(vs) && Join(vs[4..]).Some?
    requires Sextets(Join(vs[4..]).value) == vs[4..]
    ensures Join(vs).Some? && Sextets(Join(vs).value) == vs
  {
    var rest := Join(vs[4..]).value;
    var ys := Glue(vs[0], vs[1], vs[2], vs[3]);
    GlueSplit(vs[0], vs[1], vs[2], vs[3]);
    var b := ys + rest;
    assert Join(vs) == Some(b);
    assert b[3..] == rest;
    assert Sextets(b) == Split(b[0], b[1], b[2]) + Sextets(b[3..]);
    assert vs == vs[..4] + vs[4..];
  }

  // ---------------------------------------------------------------------
  // Encoding and decoding

  /** The padding after the last group: two characters after one byte,
      one after two, none after a full group. */
  function Padding(leftover: nat): string {
    if leftover == 1 then "==" else if leftover == 2 then "=" else ""
  }

  /** `base64.StdEncoding.EncodeToString`. */
  function Encode(b: seq<Byte>): string {
    Spell(Sextets(b)) + Padding(|b| % 3)
  }

  /** The encoding has four characters per started group of three bytes. */
  lemma EncodeLength(b: seq<Byte>)
    ensures |Encode(b)| == 4 * ((|b| + 2) / 3)
  {
    SextetsLength(b);
  }

  /** The number of padding characters at the end, at most two. */
  function PadCount(s: string): (p: nat)
    ensures p <= 2 && p <= |s|
  {
    if |s| >= 1 && s[|s| - 1] == Pad then
      if |s| >= 2 && s[|s| - 2] == Pad then 2 else 1
    else 0
  }

  /** Strict decoding: whole groups of four, padding only at the end,
      every other character in the alphabet, and zero bits left over. */
  function Decode(s: string): Option<seq<Byte>> {
    if |s| % 4 != 0 then None
    else
      var body := s[..|s| - PadCount(s)];
      if forall k | 0 <= k < |body| :: ValueOf(body[k]) >= 0 then
        assert AllSextets(Values(body));
        Join(Values(body))
      else None
  }

  /** Decoding an encoding gives the bytes back. */
  lemma DecodeEncode(b: seq<Byte>)
    ensures Decode(Encode(b)) == Some(b)
  {
    var vs := Sextets(b);
    var sp := Spell(vs);
    var s := Encode(b);
    assert s == sp + Padding(|b| % 3);
    ValuesSpell(vs);
    EncodedPadding(b);
    Halves(sp, Padding(|b| % 3));
    assert s[..|s| - PadCount(s)] == sp;
    assert forall k :: 0 <= k < |sp| ==> ValueOf(sp[k]) == Values(sp)[k] >= 0;
    EncodeLength(b);
    FourTimes((|b| + 2) / 3);
    DecodeBody(s, sp);
    JoinSextets(b);
  }

  lemma FourTimes(n: int)
    ensures (4 * n) % 4 == 0
  {
  }

  /** A string of whole groups whose characters before the padding are all
      in the alphabet decodes as the values of those characters join. */
  lemma DecodeBody(s: string, body: string)
    requires |s| % 4 == 0 && body == s[..|s| - PadCount(s)]
    requires forall k :: 0 <= k < |body| ==> ValueOf(body[k]) >= 0
    ensures AllSextets(Values(body))
    ensures Decode(s) == Join(Values(body))
  {
  }

  /** The padding of an encoding is counted exactly. */
  lemma EncodedPadding(b: seq<Byte>)
    ensures PadCount(Encode(b)) == |Padding(|b| % 3)|
  {
    var vs := Sextets(b);
    var sp := Spell(vs);
    var s := Encode(b);
    ValuesSpell(vs);
    assert s == sp + Padding(|b| % 3);
    if |b| % 3 == 2 {
      assert s[|s| - 1] == Pad && s[|s| - 2] == sp[|sp| - 1];
    } else if |b| % 3 == 0 && |s| > 0 {
      assert s[|s| - 1] == sp[|sp| - 1];
    }
  }

  /** A string that decodes is the encoding of what it decodes to: the
      encoding is the only canonical spelling of its bytes. */
  lemma EncodeDecode(s: string)
    requires Decode(s).Some?
    ensures Encode(Decode(s).value) == s
  {
    var p := PadCount(s);
    var body := s[..|s| - p];
    SpellValues(body);
    var vs := Values(body);
    var b := Decode(s).value;
    assert Join(vs) == Some(b);
    SextetsJoin(vs);
    assert Spell(Sextets(b)) == body;
    SextetsLength(b);
    DecodedPadding(s, |b|);
    assert s == body + s[|s| - p..];
  }

  /** The padding of a decodable string is the one its byte count calls for. */
  lemma DecodedPadding(s: string, n: nat)
    requires |s| % 4 == 0
    requires |s| - PadCount(s) == 4 * (n / 3) + (if n % 3 == 0 then 0 else n % 3 + 1)
    ensures s[|s| - PadCount(s)..] == Padding(n % 3)
  {
    var p := PadCount(s);
    if p == 2 {
      assert s[|s| - 2..] == [s[|s| - 2], s[|s| - 1]];
    } else if p == 1 {
      assert s[|s| - 1..] == [s[|s| - 1]];
    }
  }

  // ---------------------------------------------------------------------
  // The vector of sanity_test.go

  /** "fake-image-data" encodes to "ZmFrZS1pbWFnZS1kYXRh". */
  lemma FakeImageDataVector()
    ensures Encode(StringToBytes("fake-image-data")) == "ZmFrZS1pbWFnZS1kYXRh"
  {
    var b := StringToBytes("fake-image-data");
    assert |b| == 15;
    EncodeWhole(b);
    FakeImageDataBytes();
    FakeImageDataSextets(b);
    FakeImageDataSpell();
  }

  /** Bytes in whole groups encode without padding. */
  lemma EncodeWhole(b: seq<Byte>)
    requires |b| % 3 == 0
    ensures Encode(b) == Spell(Sextets(b))
  {
    assert Padding(|b| % 3) == "";
  }

  lemma FakeImageDataSpell()
    ensures AllSextets(Split(102, 97, 107) + (Split(101, 45, 105) + (Split(109, 97, 103)
                       + (Split(101, 45, 100) + Split(97, 116, 97)))))
    ensures Spell(Split(102, 97, 107) + (Split(101, 45, 105) + (Split(109, 97, 103)
                  + (Split(101, 45, 100) + Split(97, 116, 97))))) == "ZmFrZS1pbWFnZS1kYXRh"
  {
    var g0, g1, g2, g3, g4 := Split(102, 97, 107), Split(101, 45, 105), Split(109, 97, 103),
                              Split(101, 45, 100), Split(97, 116, 97);
    SplitGlue(102, 97, 107);
    SplitGlue(101, 45, 105);
    SplitGlue(109, 97, 103);
    SplitGlue(101, 45, 100);
    SplitGlue(97, 116, 97);
    SpellAppend(g3, g4);
    SpellAppend(g2, g3 + g4);
    SpellAppend(g1, g2 + (g3 + g4));
    SpellAppend(g0, g1 + (g2 + (g3 + g4)));
    FakeImageDataGroups();
    FakeImageDataText();
  }

  lemma FakeImageDataBytes()
    ensures StringToBytes("fake-image-data") == [102, 97, 107, 101, 45, 105, 109, 97, 103, 101, 45, 100, 97, 116, 97]
  {
  }

  lemma FakeImageDataSextets(b: seq<Byte>)
    requires b == [102, 97, 107, 101, 45, 105, 109, 97, 103, 101, 45, 100, 97, 116, 97]
    ensures Sextets(b) == Split(102, 97, 107) + (Split(101, 45, 105) + (Split(109, 97, 103)
                        + (Split(101, 45, 100) + Split(97, 116, 97))))
  {
    var g4: seq<Byte> := [97, 116, 97];
    var g3: seq<Byte> := [101, 45, 100] + g4;
    var g2: seq<Byte> := [109, 97, 103] + g3;
    var g1: seq<Byte> := [101, 45, 105] + g2;
    assert b == [102, 97, 107] + g1;
    assert g4 == [97, 116, 97] + [];
    SextetsCons(97, 116, 97, []);
    assert Split(97, 116, 97) + [] == Split(97, 116, 97);
    SextetsCons(101, 45, 100, g4);
    SextetsCons(109, 97, 103, g3);
    SextetsCons(101, 45, 105, g2);
    SextetsCons(102, 97, 107, g1);
  }

  /** A full group in front adds its four values in front. */
  lemma SextetsCons(x: Byte, y: Byte, z: Byte, rest: seq<Byte>)
    ensures Sextets([x, y, z] + rest) == Split(x, y, z) + Sextets(rest)
  {
    var b := [x, y, z] + rest;
    assert b[0] == x && b[1] == y && b[2] == z && b[3..] == rest;
  }

  lemma FakeImageDataGroups()
    ensures Spell(Split(102, 97, 107)) == "ZmFr"
    ensures Spell(Split(101, 45, 105)) == "ZS1p"
    ensures Spell(Split(109, 97, 103)) == "bWFn"
    ensures Spell(Split(101, 45, 100)) == "ZS1k"
    ensures Spell(Split(97, 116, 97)) == "YXRh"
  {
    assert Split(102, 97, 107) == [25, 38, 5, 43];
    assert Split(101, 45, 105) == [25, 18, 53, 41];
    assert Split(109, 97, 103) == [27, 22, 5, 39];
    assert Split(101, 45, 100) == [25, 18, 53, 36];
    assert Split(97, 116, 97) == [24, 23, 17, 33];
  }

  lemma FakeImageDataText()
    ensures "ZmFr" + ("ZS1p" + ("bWFn" + ("ZS1k" + "YXRh"))) == "ZmFrZS1pbWFnZS1kYXRh"
  {
  }
}
