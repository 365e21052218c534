/** The base64 encoding of section 4 of RFC 4648 (alphabet A-Z a-z 0-9 + /,
    padding with '='), as PHP's base64_encode produces it for the
    Authorization header, with a strict decoder as its inverse. */
module Base64 {
  import opened Values

  /** The padding character of section 3.2 of RFC 4648. */
  const Pad: char := '='

  /** Table 1 of section 4 of RFC 4648: the character for a 6-bit value. */
  function Digit(i: int): (c: char)
    requires 0 <= i < 64
  {
    if i < 26 then ('A' as int + i) as char
    else if i < 52 then ('a' as int + i - 26) as char
    else if i < 62 then ('0' as int + i - 52) as char
    else if i == 62 then '+'
    else '/'
  }

  /** The 6-bit value of an alphabet character, or -1 for any other character
      (the padding character included). */
  function Sextet(c: char): (v: int)
    ensures -1 <= v < 64
    ensures v >= 0 ==> Digit(v) == c
  {
    if 'A' <= c <= 'Z' then c as int - 'A' as int
    else if 'a' <= c <= 'z' then c as int - 'a' as int + 26
    else if '0' <= c <= '9' then c as int - '0' as int + 52
    else if c == '+' then 62
    else if c == '/' then 63
    else -1
  }

  lemma SextetOfDigit(i: int)
    requires 0 <= i < 64
    ensures Sextet(Digit(i)) == i
  {
  }

  predicate IsDigit(c: char) {
    Sextet(c) >= 0
  }

  /** The encoding: every 3 octets become 4 characters; a final group of 1 or
      2 octets is zero-filled and padded to 4 characters with '='. */
  function Encode(b: seq<byte>): (s: string)
    ensures |s| == 4 * ((|b| + 2) / 3)
    ensures forall i | 0 <= i < |s| :: IsDigit(s[i]) || s[i] == Pad
    decreases |b|
  {
    if |b| == 0 then ""
    else if |b| == 1 then
      [Digit(b[0] / 4), Digit((b[0] % 4) * 16), Pad, Pad]
    else if |b| == 2 then
      [Digit(b[0] / 4), Digit((b[0] % 4) * 16 + b[1] / 16), Digit((b[1] % 16) * 4), Pad]
    else Quad(b[0], b[1], b[2]) + Encode(b[3..])
  }

  /** The test vectors of section 10 of RFC 4648, which fix the alphabet and
      the bit order: "f", "fo", "foo", "foob", "fooba" and "foobar". */
  lemma Rfc4648Vectors()
    ensures Encode([]) == ""
    ensures Encode([102]) == "Zg=="
    ensures Encode([102, 111]) == "Zm8="
    ensures Encode([102, 111, 111]) == "Zm9v"
    ensures Encode([102, 111, 111, 98]) == "Zm9vYg=="
    ensures Encode([102, 111, 111, 98, 97]) == "Zm9vYmE="
    ensures Encode([102, 111, 111, 98, 97, 114]) == "Zm9vYmFy"
  {
    ShortVectors();
    AfterFoo([]);
    AfterFoo([98]);
    AfterFoo([98, 97]);
    AfterFoo([98, 97, 114]);
    assert [102, 111, 111] + [] == [102, 111, 111];
    assert [102, 111, 111] + [98] == [102, 111, 111, 98];
    assert [102, 111, 111] + [98, 97] == [102, 111, 111, 98, 97];
    assert [102, 111, 111] + [98, 97, 114] == [102, 111, 111, 98, 97, 114];
  }

  lemma ShortVectors()
    ensures Encode([102]) == "Zg=="
    ensures Encode([102, 111]) == "Zm8="
    ensures Encode([98]) == "Yg=="
    ensures Encode([98, 97]) == "YmE="
    ensures Encode([98, 97, 114]) == "YmFy"
  {
    var bar: seq<byte> := [98, 97, 114];
    assert bar[3..] == [];
  }

  /** Encoding "foo" followed by more octets. */
  lemma AfterFoo(t: seq<byte>)
    ensures Encode([102, 111, 111] + t) == "Zm9v" + Encode(t)
  {
    var b := [102, 111, 111] + t;
    assert b[3..] == t;
    assert Quad(b[0], b[1], b[2]) == "Zm9v";
  }

  /** The 4 characters for a full group of 3 octets. */
  function Quad(b0: byte, b1: byte, b2: byte): string {
    [Digit(b0 / 4), Digit((b0 % 4) * 16 + b1 / 16), Digit((b1 % 16) * 4 + b2 / 64), Digit(b2 % 64)]
  }

  /** One 4-character group without padding. */
  function DecodeFull(q: string): Option<seq<byte>>
    requires |q| == 4
  {
    var v0, v1, v2, v3 := Sextet(q[0]), Sextet(q[1]), Sextet(q[2]), Sextet(q[3]);
    if v0 < 0 || v1 < 0 || v2 < 0 || v3 < 0 then None
    else Some([v0 * 4 + v1 / 16, (v1 % 16) * 16 + v2 / 4, (v2 % 4) * 64 + v3])
  }

  /** The last 4-character group, which may carry one or two padding
      characters; the bits beyond the last octet must be zero. */
  function DecodeLast(q: string): Option<seq<byte>>
    requires |q| == 4
  {
    var v0, v1, v2 := Sextet(q[0]), Sextet(q[1]), Sextet(q[2]);
    if q[2] == Pad && q[3] == Pad then
      if v0 < 0 || v1 < 0 || v1 % 16 != 0 then None
      else Some([v0 * 4 + v1 / 16])
    else if q[3] == Pad then
      if v0 < 0 || v1 < 0 || v2 < 0 || v2 % 4 != 0 then None
      else Some([v0 * 4 + v1 / 16, (v1 % 16) * 16 + v2 / 4])
    else DecodeFull(q)
  }

  /** Strict decoding: `None` for any text that Encode does not produce. */
  function Decode(s: string): (r: Option<seq<byte>>)
    decreases |s|
  {
    if |s| == 0 then Some([])
    else if |s| < 4 then None
    else if |s| == 4 then DecodeLast(s)
    else
      match DecodeFull(s[..4])
      case None => None
      case Some(g) =>
        match Decode(s[4..])
        case None => None
        case Some(rest) => Some(g + rest)
  }

  lemma FullGroupRoundTrip(b0: byte, b1: byte, b2: byte)
    ensures var c1, c2 := (b0 % 4) * 16 + b1 / 16, (b1 % 16) * 4 + b2 / 64;
            && (b0 / 4) * 4 + c1 / 16 == b0
            && (c1 % 16) * 16 + c2 / 4 == b1
            && (c2 % 4) * 64 + b2 % 64 == b2
  {
  }

  /** Decoding the encoding of any octet string gives back that string. */
  lemma {:induction false} DecodeEncode(b: seq<byte>)
    ensures Decode(Encode(b)) == Some(b)
    decreases |b|
  {
    if |b| == 0 {
    } else if |b| == 1 {
      OneOctetDecodes(b[0]);
      assert b == [b[0]];
    } else if |b| == 2 {
      TwoOctetsDecode(b[0], b[1]);
      assert b == [b[0], b[1]];
    } else {
      SplitGroup(b);
      if |b| == 3 {
        QuadAloneDecodes(b[0], b[1], b[2]);
      } else {
        DecodeEncode(b[3..]);
        QuadThenDecodes(b[0], b[1], b[2], Encode(b[3..]));
      }
    }
  }

  lemma SplitGroup(b: seq<byte>)
    requires |b| >= 3
    ensures b == [b[0], b[1], b[2]] + b[3..]
    ensures |b| == 3 ==> b == [b[0], b[1], b[2]] && Encode(b[3..]) == []
  {
  }

  /** A full group in front of a decodable text decodes to its three octets
      in front of that text's octets. */
  lemma QuadThenDecodes(b0: byte, b1: byte, b2: byte, t: string)
    requires Decode(t).Some? && |t| >= 4
    ensures Decode(Quad(b0, b1, b2) + t) == Some([b0, b1, b2] + Decode(t).value)
  {
    var q := Quad(b0, b1, b2);
    QuadDecodes(b0, b1, b2);
    assert (q + t)[..4] == q;
    assert (q + t)[4..] == t;
    assert |q + t| > 4;
    assert Decode(q + t) == match DecodeFull(q)
      case None => None
      case Some(g) => match Decode(t) case None => None case Some(rest) => Some(g + rest);
  }

  lemma QuadAloneDecodes(b0: byte, b1: byte, b2: byte)
    ensures Decode(Quad(b0, b1, b2)) == Some([b0, b1, b2])
  {
    var q := Quad(b0, b1, b2);
    QuadDecodes(b0, b1, b2);
    assert Decode(q) == DecodeLast(q);
  }

  lemma OneOctetDecodes(b0: byte)
    ensures Decode(Encode([b0])) == Some([b0])
  {
    var v0, v1 := b0 / 4, (b0 % 4) * 16;
    SextetOfDigit(v0);
    SextetOfDigit(v1);
    var q := Encode([b0]);
    assert q == [Digit(v0), Digit(v1), Pad, Pad];
    assert v1 % 16 == 0 && v0 * 4 + v1 / 16 == b0;
    assert Decode(q) == DecodeLast(q);
  }

  lemma TwoOctetsDecode(b0: byte, b1: byte)
    ensures Decode(Encode([b0, b1])) == Some([b0, b1])
  {
    var v0, v1, v2 := b0 / 4, (b0 % 4) * 16 + b1 / 16, (b1 % 16) * 4;
    SextetOfDigit(v0);
    SextetOfDigit(v1);
    SextetOfDigit(v2);
    FullGroupRoundTrip(b0, b1, 0);
    var q := Encode([b0, b1]);
    assert q == [Digit(v0), Digit(v1), Digit(v2), Pad];
    assert Decode(q) == DecodeLast(q);
  }

  lemma QuadDecodes(b0: byte, b1: byte, b2: byte)
    ensures |Quad(b0, b1, b2)| == 4
    ensures DecodeFull(Quad(b0, b1, b2)) == Some([b0, b1, b2])
    ensures DecodeLast(Quad(b0, b1, b2)) == Some([b0, b1, b2])
  {
    var v0, v1, v2, v3 := b0 / 4, (b0 % 4) * 16 + b1 / 16, (b1 % 16) * 4 + b2 / 64, b2 % 64;
    SextetOfDigit(v0);
    SextetOfDigit(v1);
    SextetOfDigit(v2);
    SextetOfDigit(v3);
    FullGroupRoundTrip(b0, b1, b2);
  }

  /** Every text the decoder accepts is the encoding of what it decodes to,
      so Encode is a bijection onto the texts Decode accepts. */
  lemma {:induction false} EncodeDecode(s: string)
    requires Decode(s).Some?
    ensures Encode(Decode(s).value) == s
    decreases |s|
  {
    if |s| == 0 {
    } else if |s| == 4 {
      LastGroupEncodes(s);
    } else {
      var q, t := s[..4], s[4..];
      var g := FullGroupEncodes(q);
      EncodeDecode(t);
      var rest := Decode(t).value;
      var b := [g.0, g.1, g.2] + rest;
      assert Decode(s).value == b;
      assert b[3..] == rest;
      assert Encode(b) == Quad(b[0], b[1], b[2]) + Encode(b[3..]);
      assert s == q + t;
    }
  }

  lemma FullGroupEncodes(q: string) returns (g: (byte, byte, byte))
    requires |q| == 4 && DecodeFull(q).Some?
    ensures DecodeFull(q).value == [g.0, g.1, g.2]
    ensures Quad(g.0, g.1, g.2) == q
  {
    var v0, v1, v2, v3 := Sextet(q[0]), Sextet(q[1]), Sextet(q[2]), Sextet(q[3]);
    var d := DecodeFull(q).value;
    g := (d[0], d[1], d[2]);
    assert d[0] / 4 == v0 && (d[0] % 4) * 16 + d[1] / 16 == v1;
    assert (d[1] % 16) * 4 + d[2] / 64 == v2 && d[2] % 64 == v3;
  }

  lemma LastGroupEncodes(q: string)
    requires |q| == 4 && DecodeLast(q).Some?
    ensures Encode(DecodeLast(q).value) == q
  {
    var g := DecodeLast(q).value;
    if q[2] == Pad && q[3] == Pad {
      assert g[0] / 4 == Sextet(q[0]) && (g[0] % 4) * 16 == Sextet(q[1]);
    } else if q[3] == Pad {
      assert g[0] / 4 == Sextet(q[0]) && (g[0] % 4) * 16 + g[1] / 16 == Sextet(q[1]);
      assert (g[1] % 16) * 4 == Sextet(q[2]);
    } else {
      var t := FullGroupEncodes(q);
      assert Encode(g) == Quad(g[0], g[1], g[2]) + Encode([]);
    }
  }
}
