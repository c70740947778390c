/** The standard base64 alphabet with padding (section 4 of RFC 4648), as the
    `general_purpose::STANDARD` engine encodes and decodes it: encoding always
    pads to a multiple of four characters, and decoding accepts exactly the
    canonical encodings (padding only at the end, unused trailing bits zero). */
module Base64 {
  import opened Basics

  /** A six-bit group, the value one base64 character carries. */
  type sextet = x: int | 0 <= x < 64

  function SextetChar(n: sextet): (c: char)
    ensures CharSextet(c) == Some(n)
    ensures c != '='
  {
    if n < 26 then ('A' as int + n) as char
    else if n < 52 then ('a' as int + (n - 26)) as char
    else if n < 62 then ('0' as int + (n - 52)) as char
    else if n == 62 then '+'
    else '/'
  }

  /** The value of an alphabet character; `None` for anything else, padding included. */
  function CharSextet(c: char): Option<sextet>
  {
    if 'A' <= c <= 'Z' then Some(c as int - 'A' as int)
    else if 'a' <= c <= 'z' then Some(c as int - 'a' as int + 26)
    else if '0' <= c <= '9' then Some(c as int - '0' as int + 52)
    else if c == '+' then Some(62)
    else if c == '/' then Some(63)
    else None
  }

  lemma CharSextetInverse(c: char)
    requires CharSextet(c).Some?
    ensures SextetChar(CharSextet(c).value) == c
  {
  }

  /** Three bytes split into four six-bit groups, most significant bits first. */
  function Sextets(b0: byte, b1: byte, b2: byte): (r: seq<sextet>)
    ensures |r| == 4
  {
    [b0 / 4, (b0 % 4) * 16 + b1 / 16, (b1 % 16) * 4 + b2 / 64, b2 % 64]
  }

  /** Four six-bit groups joined back into three bytes. */
  function Octets(c0: sextet, c1: sextet, c2: sextet, c3: sextet): (r: seq<byte>)
    ensures |r| == 3
  {
    [c0 * 4 + c1 / 16, (c1 % 16) * 16 + c2 / 4, (c2 % 4) * 64 + c3]
  }

  lemma SplitJoin(b0: byte, b1: byte, b2: byte)
    ensures var c0, c1, c2, c3 := b0 / 4, (b0 % 4) * 16 + b1 / 16, (b1 % 16) * 4 + b2 / 64, b2 % 64;
      c0 * 4 + c1 / 16 == b0 && (c1 % 16) * 16 + c2 / 4 == b1 && (c2 % 4) * 64 + c3 == b2
  {
  }

  lemma JoinSplit(c0: sextet, c1: sextet, c2: sextet, c3: sextet)
    ensures var b0, b1, b2 := c0 * 4 + c1 / 16, (c1 % 16) * 16 + c2 / 4, (c2 % 4) * 64 + c3;
      b0 / 4 == c0 && (b0 % 4) * 16 + b1 / 16 == c1 && (b1 % 16) * 4 + b2 / 64 == c2 && b2 % 64 == c3
  {
  }

  lemma OctetsOfSextets(b0: byte, b1: byte, b2: byte)
    ensures var c := Sextets(b0, b1, b2); Octets(c[0], c[1], c[2], c[3]) == [b0, b1, b2]
  {
    SplitJoin(b0, b1, b2);
  }

  lemma SextetsOfOctets(c0: sextet, c1: sextet, c2: sextet, c3: sextet)
    ensures var b := Octets(c0, c1, c2, c3); Sextets(b[0], b[1], b[2]) == [c0, c1, c2, c3]
  {
    JoinSplit(c0, c1, c2, c3);
  }

  /** Three bytes as four characters. */
  function EncodeTriple(b0: byte, b1: byte, b2: byte): string
  {
    var c := Sextets(b0, b1, b2);
    [SextetChar(c[0]), SextetChar(c[1]), SextetChar(c[2]), SextetChar(c[3])]
  }

  /** A final two bytes, padded with one `=`. */
  function EncodePair(b0: byte, b1: byte): string
  {
    var c := Sextets(b0, b1, 0);
    [SextetChar(c[0]), SextetChar(c[1]), SextetChar(c[2]), '=']
  }

  /** A final single byte, padded with `==`. */
  function EncodeSingle(b0: byte): string
  {
    var c := Sextets(b0, 0, 0);
    [SextetChar(c[0]), SextetChar(c[1]), '=', '=']
  }

  function Encode(b: seq<byte>): (s: string)
    ensures |s| == (|b| + 2) / 3 * 4
    decreases |b|
  {
    if |b| == 0 then []
    else if |b| == 1 then EncodeSingle(b[0])
    else if |b| == 2 then EncodePair(b[0], b[1])
    else EncodeTriple(b[0], b[1], b[2]) + Encode(b[3..])
  }

  /** Four alphabet characters as three bytes. */
  function DecodeQuad(q: string): Option<seq<byte>>
    requires |q| == 4
  {
    match (CharSextet(q[0]), CharSextet(q[1]), CharSextet(q[2]), CharSextet(q[3]))
    case (Some(c0), Some(c1), Some(c2), Some(c3)) => Some(Octets(c0, c1, c2, c3))
    case _ => None
  }

  /** The last four characters, which may end in one or two `=`; the bits
      the padding leaves unused must be zero. */
  function DecodeFinalQuad(q: string): Option<seq<byte>>
    requires |q| == 4
  {
    if q[2] == '=' && q[3] == '=' then
      match (CharSextet(q[0]), CharSextet(q[1]))
      case (Some(c0), Some(c1)) =>
        if c1 % 16 == 0 then Some(Octets(c0, c1, 0, 0)[..1]) else None
      case _ => None
    else if q[3] == '=' then
      match (CharSextet(q[0]), CharSextet(q[1]), CharSextet(q[2]))
      case (Some(c0), Some(c1), Some(c2)) =>
        if c2 % 4 == 0 then Some(Octets(c0, c1, c2, 0)[..2]) else None
      case _ => None
    else
      DecodeQuad(q)
  }

  function Decode(s: string): (r: Option<seq<byte>>)
    ensures r.Some? ==> |s| % 4 == 0 && (r.value == [] <==> s == [])
    decreases |s|
  {
    if |s| == 0 then Some([])
    else if |s| < 4 then None
    else if |s| == 4 then DecodeFinalQuad(s)
    else
      match DecodeQuad(s[..4])
      case None => None
      case Some(g) =>
        match Decode(s[4..])
        case None => None
        case Some(rest) => Some(g + rest)
  }

  lemma TripleRoundTrip(b0: byte, b1: byte, b2: byte)
    ensures DecodeQuad(EncodeTriple(b0, b1, b2)) == Some([b0, b1, b2])
    ensures DecodeFinalQuad(EncodeTriple(b0, b1, b2)) == Some([b0, b1, b2])
  {
    var q := EncodeTriple(b0, b1, b2);
    OctetsOfSextets(b0, b1, b2);
    assert q[3] != '=';
  }

  lemma PairRoundTrip(b0: byte, b1: byte)
    ensures DecodeFinalQuad(EncodePair(b0, b1)) == Some([b0, b1])
  {
    var q, c := EncodePair(b0, b1), Sextets(b0, b1, 0);
    OctetsOfSextets(b0, b1, 0);
    assert c[3] == 0 && c[2] % 4 == 0;
    assert CharSextet(q[0]) == Some(c[0]) && CharSextet(q[1]) == Some(c[1]) && CharSextet(q[2]) == Some(c[2]);
    assert q[2] != '=' && q[3] == '=';
    assert Octets(c[0], c[1], c[2], 0)[..2] == [b0, b1];
  }

  lemma SingleRoundTrip(b0: byte)
    ensures DecodeFinalQuad(EncodeSingle(b0)) == Some([b0])
  {
    var q, c := EncodeSingle(b0), Sextets(b0, 0, 0);
    OctetsOfSextets(b0, 0, 0);
    assert c[2] == 0 && c[3] == 0 && c[1] % 16 == 0;
    assert CharSextet(q[0]) == Some(c[0]) && CharSextet(q[1]) == Some(c[1]);
    assert q[2] == '=' && q[3] == '=';
    assert Octets(c[0], c[1], 0, 0)[..1] == [b0];
  }

  /** What `signature` produces, `try_verify` decodes back: decoding inverts encoding. */
  lemma {:induction false} DecodeEncode(b: seq<byte>)
    ensures Decode(Encode(b)) == Some(b)
    decreases |b|
  {
    if |b| <= 3 {
      ShortRoundTrip(b);
    } else {
      DecodeEncode(b[3..]);
      LongRoundTrip(b);
    }
  }

  /** One step of the round trip: the first three bytes make a full quad
      that decodes back to them, and the rest is decoded after it. */
  lemma LongRoundTrip(b: seq<byte>)
    requires |b| > 3 && Decode(Encode(b[3..])) == Some(b[3..])
    ensures Decode(Encode(b)) == Some(b)
  {
    var q, t := EncodeTriple(b[0], b[1], b[2]), Encode(b[3..]);
    assert Encode(b) == q + t;
    TripleRoundTrip(b[0], b[1], b[2]);
    DecodeAfterQuad(q, t);
    FirstThree(b);
  }

  /** The round trip for at most three bytes: one final quad, or nothing. */
  lemma ShortRoundTrip(b: seq<byte>)
    requires |b| <= 3
    ensures Decode(Encode(b)) == Some(b)
  {
    if |b| == 1 {
      RoundTrip1(b);
    } else if |b| == 2 {
      RoundTrip2(b);
    } else if |b| == 3 {
      RoundTrip3(b);
    }
  }

  lemma RoundTrip1(b: seq<byte>)
    requires |b| == 1
    ensures Decode(Encode(b)) == Some(b)
  {
    var q := EncodeSingle(b[0]);
    assert Encode(b) == q;
    assert Decode(q) == DecodeFinalQuad(q);
    SingleRoundTrip(b[0]);
    assert [b[0]] == b;
  }

  lemma RoundTrip2(b: seq<byte>)
    requires |b| == 2
    ensures Decode(Encode(b)) == Some(b)
  {
    var q := EncodePair(b[0], b[1]);
    assert Encode(b) == q;
    assert Decode(q) == DecodeFinalQuad(q);
    PairRoundTrip(b[0], b[1]);
    assert [b[0], b[1]] == b;
  }

  lemma RoundTrip3(b: seq<byte>)
    requires |b| == 3
    ensures Decode(Encode(b)) == Some(b)
  {
    var q := EncodeTriple(b[0], b[1], b[2]);
    assert Encode(b) == q + Encode(b[3..]) == q;
    assert Decode(q) == DecodeFinalQuad(q);
    TripleRoundTrip(b[0], b[1], b[2]);
    FirstThree(b);
  }

  /** The first three bytes and the rest make up the whole. */
  lemma FirstThree(b: seq<byte>)
    requires |b| >= 3
    ensures [b[0], b[1], b[2]] + b[3..] == b
    ensures |b| == 3 ==> [b[0], b[1], b[2]] == b
  {
    assert [b[0], b[1], b[2]] == b[..3];
  }

  /** A full quad followed by more text decodes to the quad's bytes and then the rest. */
  lemma DecodeAfterQuad(q: string, t: string)
    requires |q| == 4 && |t| > 0 && DecodeQuad(q).Some? && Decode(t).Some?
    ensures Decode(q + t) == Some(DecodeQuad(q).value + Decode(t).value)
  {
    var s := q + t;
    assert s[..4] == q && s[4..] == t;
  }

  lemma QuadCanonical(q: string)
    requires |q| == 4 && DecodeQuad(q).Some?
    ensures var g := DecodeQuad(q).value; EncodeTriple(g[0], g[1], g[2]) == q
  {
    var c0, c1, c2, c3 := CharSextet(q[0]).value, CharSextet(q[1]).value,
                          CharSextet(q[2]).value, CharSextet(q[3]).value;
    SextetsOfOctets(c0, c1, c2, c3);
    CharSextetInverse(q[0]);
    CharSextetInverse(q[1]);
    CharSextetInverse(q[2]);
    CharSextetInverse(q[3]);
  }

  lemma FinalQuadCanonical(q: string)
    requires |q| == 4 && DecodeFinalQuad(q).Some?
    ensures Encode(DecodeFinalQuad(q).value) == q
  {
    var g := DecodeFinalQuad(q).value;
    if q[2] == '=' && q[3] == '=' {
      var c0, c1 := CharSextet(q[0]).value, CharSextet(q[1]).value;
      SextetsOfOctets(c0, c1, 0, 0);
      CharSextetInverse(q[0]);
      CharSextetInverse(q[1]);
    } else if q[3] == '=' {
      var c0, c1, c2 := CharSextet(q[0]).value, CharSextet(q[1]).value, CharSextet(q[2]).value;
      SextetsOfOctets(c0, c1, c2, 0);
      CharSextetInverse(q[0]);
      CharSextetInverse(q[1]);
      CharSextetInverse(q[2]);
    } else {
      QuadCanonical(q);
      assert g[3..] == [];
    }
  }

  /** Decoding accepts only canonical encodings: whatever decodes re-encodes to
      the very same text, so a signature has exactly one base64 form. */
  lemma {:induction false} EncodeDecode(s: string)
    requires Decode(s).Some?
    ensures Encode(Decode(s).value) == s
    decreases |s|
  {
    if |s| == 0 {
    } else if |s| == 4 {
      FinalQuadCanonical(s);
    } else {
      var g := DecodeQuad(s[..4]).value;
      var rest := Decode(s[4..]).value;
      QuadCanonical(s[..4]);
      EncodeDecode(s[4..]);
      var b := g + rest;
      assert b[..3] == g && b[3..] == rest;
      assert s == s[..4] + s[4..];
    }
  }
}
