/**
  Padded base64 over bytes, with the alphabet of section 4 of RFC 4648: the
  encoding PHP's `base64_encode` produces, and a decoder for it.
 */
module Base64 {
  import opened Results

  type byte = x: int | 0 <= x < 256

  /** The 64 characters of the base64 alphabet: `A-Z a-z 0-9 + /`. */
  predicate IsAlphabetChar(c: char) {
    ('A' <= c <= 'Z') || ('a' <= c <= 'z') || ('0' <= c <= '9') || c == '+' || c == '/'
  }

  /** The character that encodes the 6-bit value `n`. */
  function CharOf(n: int): (c: char)
    requires 0 <= n < 64
    ensures IsAlphabetChar(c)
  {
    if n < 26 then ('A' as int + n) as char
    else if n < 52 then ('a' as int + (n - 26)) as char
    else if n < 62 then ('0' as int + (n - 52)) as char
    else if n == 62 then '+'
    else '/'
  }

  /** The 6-bit value an alphabet character encodes; None for any other character. */
  function ValueOf(c: char): (r: Option<int>)
    ensures r.Some? <==> IsAlphabetChar(c)
    ensures r.Some? ==> 0 <= r.value < 64 && CharOf(r.value) == c
  {
    if 'A' <= c <= 'Z' then Some(c as int - 'A' as int)
    else if 'a' <= c <= 'z' then Some(c as int - 'a' as int + 26)
    else if '0' <= c <= '9' then Some(c as int - '0' as int + 52)
    else if c == '+' then Some(62)
    else if c == '/' then Some(63)
    else None
  }

  lemma ValueOfCharOf(n: int)
    requires 0 <= n < 64
    ensures ValueOf(CharOf(n)) == Some(n)
  {}

  /** Three bytes become four characters. */
  function EncodeTriple(b0: byte, b1: byte, b2: byte): string {
    [CharOf(b0 / 4), CharOf((b0 % 4) * 16 + b1 / 16), CharOf((b1 % 16) * 4 + b2 / 64), CharOf(b2 % 64)]
  }

  /** Two final bytes become three characters and one `=`. */
  function EncodePair(b0: byte, b1: byte): string {
    [CharOf(b0 / 4), CharOf((b0 % 4) * 16 + b1 / 16), CharOf((b1 % 16) * 4), '=']
  }

  /** One final byte becomes two characters and `==`. */
  function EncodeSingle(b0: byte): string {
    [CharOf(b0 / 4), CharOf((b0 % 4) * 16), '=', '=']
  }

  /** The number of `=` characters that pad the encoding of `n` bytes. */
  function Padding(n: nat): nat {
    (3 - n % 3) % 3
  }

  /** `base64_encode`. */
  function Encode(b: seq<byte>): (s: string)
    ensures |s| == 4 * ((|b| + 2) / 3)
    decreases |b|
  {
    if |b| == 0 then ""
    else if |b| == 1 then EncodeSingle(b[0])
    else if |b| == 2 then EncodePair(b[0], b[1])
    else
      assert (|b| + 2) / 3 == (|b[3..]| + 2) / 3 + 1;
      EncodeTriple(b[0], b[1], b[2]) + Encode(b[3..])
  }

  /**
    `s` is alphabet characters followed by exactly `pad` characters `=`.
   */
  predicate Shaped(s: string, pad: nat) {
    forall i :: 0 <= i < |s| ==> (s[i] == '=' <==> i >= |s| - pad) && (s[i] != '=' ==> IsAlphabetChar(s[i]))
  }

  /** The encoding is padded with exactly as many `=` as the length of the input calls for. */
  lemma {:induction false} EncodeShape(b: seq<byte>)
    ensures Shaped(Encode(b), Padding(|b|))
    decreases |b|
  {
    if |b| == 1 {
      EncodeOfSingle(b);
      SingleShaped(b[0]);
    } else if |b| == 2 {
      EncodeOfPair(b);
      PairShaped(b[0], b[1]);
    } else if |b| >= 3 {
      EncodeShape(b[3..]);
      EncodeUnfold(b);
      var q := EncodeTriple(b[0], b[1], b[2]);
      TripleShaped(b[0], b[1], b[2]);
      if |b| > 3 {
        EncodeNonEmpty(b[3..]);
      }
      PaddingStep(|b|);
      ShapedConcat(q, Encode(b[3..]), Padding(|b|));
    }
  }

  lemma PaddingStep(n: nat)
    requires n >= 3
    ensures Padding(n - 3) == Padding(n) && Padding(n) < 3
    ensures n == 3 ==> Padding(n) == 0
  {
    assert (n - 3) % 3 == n % 3;
  }

  lemma SingleShaped(b0: byte)
    ensures Shaped(EncodeSingle(b0), 2)
  {
    var e := EncodeSingle(b0);
    assert IsAlphabetChar(e[0]) && IsAlphabetChar(e[1]);
  }

  lemma PairShaped(b0: byte, b1: byte)
    ensures Shaped(EncodePair(b0, b1), 1)
  {
    var e := EncodePair(b0, b1);
    assert IsAlphabetChar(e[0]) && IsAlphabetChar(e[1]) && IsAlphabetChar(e[2]);
  }

  lemma TripleShaped(b0: byte, b1: byte, b2: byte)
    ensures Shaped(EncodeTriple(b0, b1, b2), 0)
  {
    var e := EncodeTriple(b0, b1, b2);
    assert IsAlphabetChar(e[0]) && IsAlphabetChar(e[1]) && IsAlphabetChar(e[2]) && IsAlphabetChar(e[3]);
  }

  /** A full group in front of a shaped rest keeps the rest's padding. */
  lemma ShapedConcat(q: string, rest: string, pad: nat)
    requires Shaped(q, 0) && Shaped(rest, pad) && pad <= |rest|
    ensures Shaped(q + rest, pad)
  {
    forall i | 0 <= i < |q + rest|
      ensures ((q + rest)[i] == '=' <==> i >= |q + rest| - pad) &&
              ((q + rest)[i] != '=' ==> IsAlphabetChar((q + rest)[i]))
    {
      if i < |q| {
        assert (q + rest)[i] == q[i];
      } else {
        assert (q + rest)[i] == rest[i - |q|];
      }
    }
  }

  /** The bytes that four 6-bit values encode. */
  function Bytes3(n0: int, n1: int, n2: int, n3: int): seq<byte>
    requires 0 <= n0 < 64 && 0 <= n1 < 64 && 0 <= n2 < 64 && 0 <= n3 < 64
  {
    [n0 * 4 + n1 / 16, (n1 % 16) * 16 + n2 / 4, (n2 % 4) * 64 + n3]
  }

  /** A group of four alphabet characters. */
  function DecodeQuad(c0: char, c1: char, c2: char, c3: char): Option<seq<byte>> {
    match (ValueOf(c0), ValueOf(c1), ValueOf(c2), ValueOf(c3))
    case (Some(n0), Some(n1), Some(n2), Some(n3)) => Some(Bytes3(n0, n1, n2, n3))
    case _ => None
  }

  /** The last group, which may end in one or two `=`. */
  function DecodeFinal(c0: char, c1: char, c2: char, c3: char): Option<seq<byte>> {
    if c2 == '=' && c3 == '=' then
      match (ValueOf(c0), ValueOf(c1))
      case (Some(n0), Some(n1)) => Some(Bytes3(n0, n1, 0, 0)[..1])
      case _ => None
    else if c3 == '=' then
      match (ValueOf(c0), ValueOf(c1), ValueOf(c2))
      case (Some(n0), Some(n1), Some(n2)) => Some(Bytes3(n0, n1, n2, 0)[..2])
      case _ => None
    else DecodeQuad(c0, c1, c2, c3)
  }

  /**
    Decodes padded base64. Unlike the encoder's output, not every string
    decodes: its length must be a multiple of four, every character must come
    from the alphabet, and `=` may only end the last group.
   */
  function Decode(s: string): Option<seq<byte>>
    decreases |s|
  {
    if |s| == 0 then Some([])
    else if |s| < 4 then None
    else if |s| == 4 then DecodeFinal(s[0], s[1], s[2], s[3])
    else
      match DecodeQuad(s[0], s[1], s[2], s[3])
      case None => None
      case Some(q) =>
        match Decode(s[4..])
        case None => None
        case Some(rest) => Some(q + rest)
  }

  lemma TripleRoundTrip(b0: byte, b1: byte, b2: byte)
    ensures DecodeQuad(EncodeTriple(b0, b1, b2)[0], EncodeTriple(b0, b1, b2)[1],
                       EncodeTriple(b0, b1, b2)[2], EncodeTriple(b0, b1, b2)[3]) == Some([b0, b1, b2])
  {
    var n0, n1, n2, n3 := b0 / 4, (b0 % 4) * 16 + b1 / 16, (b1 % 16) * 4 + b2 / 64, b2 % 64;
    var e := EncodeTriple(b0, b1, b2);
    ValueOfCharOf(n0); ValueOfCharOf(n1); ValueOfCharOf(n2); ValueOfCharOf(n3);
    assert ValueOf(e[0]) == Some(n0) && ValueOf(e[1]) == Some(n1);
    assert ValueOf(e[2]) == Some(n2) && ValueOf(e[3]) == Some(n3);
    Bytes3OfTriple(b0, b1, b2);
  }

  /** Regrouping the four 6-bit values of a triple gives its three bytes back. */
  lemma Bytes3OfTriple(b0: byte, b1: byte, b2: byte)
    ensures Bytes3(b0 / 4, (b0 % 4) * 16 + b1 / 16, (b1 % 16) * 4 + b2 / 64, b2 % 64) == [b0, b1, b2]
  {
    var n1, n2 := (b0 % 4) * 16 + b1 / 16, (b1 % 16) * 4 + b2 / 64;
    assert n1 / 16 == b0 % 4 && n1 % 16 == b1 / 16;
    assert n2 / 4 == b1 % 16 && n2 % 4 == b2 / 64;
  }

  lemma PairRoundTrip(b0: byte, b1: byte)
    ensures DecodeFinal(EncodePair(b0, b1)[0], EncodePair(b0, b1)[1],
                        EncodePair(b0, b1)[2], EncodePair(b0, b1)[3]) == Some([b0, b1])
  {
    var n0, n1, n2 := b0 / 4, (b0 % 4) * 16 + b1 / 16, (b1 % 16) * 4;
    ValueOfCharOf(n0); ValueOfCharOf(n1); ValueOfCharOf(n2);
    var e := EncodePair(b0, b1);
    assert e[2] != '=' && e[3] == '=';
    assert n1 / 16 == b0 % 4 && n1 % 16 == b1 / 16;
    assert n2 / 4 == b1 % 16;
    assert Bytes3(n0, n1, n2, 0) == [b0, b1, 0];
    assert ValueOf(e[0]) == Some(n0) && ValueOf(e[1]) == Some(n1) && ValueOf(e[2]) == Some(n2);
    assert DecodeFinal(e[0], e[1], e[2], e[3]) == Some(Bytes3(n0, n1, n2, 0)[..2]);
    assert [b0, b1, 0][..2] == [b0, b1];
  }

  lemma SingleRoundTrip(b0: byte)
    ensures DecodeFinal(EncodeSingle(b0)[0], EncodeSingle(b0)[1],
                        EncodeSingle(b0)[2], EncodeSingle(b0)[3]) == Some([b0])
  {
    var n0, n1 := b0 / 4, (b0 % 4) * 16;
    ValueOfCharOf(n0); ValueOfCharOf(n1);
    assert n1 / 16 == b0 % 4;
    var e := EncodeSingle(b0);
    assert e[2] == '=' && e[3] == '=';
    assert ValueOf(e[0]) == Some(n0) && ValueOf(e[1]) == Some(n1);
    assert DecodeFinal(e[0], e[1], e[2], e[3]) == Some(Bytes3(n0, n1, 0, 0)[..1]);
    assert Bytes3(n0, n1, 0, 0)[..1] == [b0];
  }

  /** A valid group of four followed by a decodable rest decodes to the concatenation. */
  lemma DecodeGroupThenRest(q: string, rest: string, x: seq<byte>, y: seq<byte>)
    requires |q| == 4 && |rest| > 0
    requires DecodeQuad(q[0], q[1], q[2], q[3]) == Some(x)
    requires Decode(rest) == Some(y)
    ensures Decode(q + rest) == Some(x + y)
  {
    var s := q + rest;
    assert s[0] == q[0] && s[1] == q[1] && s[2] == q[2] && s[3] == q[3];
    assert s[4..] == rest;
  }

  /** Decoding undoes encoding, for every byte string. */
  lemma {:induction false} DecodeEncode(b: seq<byte>)
    ensures Decode(Encode(b)) == Some(b)
    decreases |b|
  {
    if |b| == 1 {
      DecodeEncodeSingle(b);
    } else if |b| == 2 {
      DecodeEncodePair(b);
    } else if |b| == 3 {
      DecodeEncodeTriple(b);
    } else if |b| > 3 {
      DecodeEncode(b[3..]);
      DecodeEncodeLonger(b);
    }
  }

  lemma DecodeEncodeSingle(b: seq<byte>)
    requires |b| == 1
    ensures Decode(Encode(b)) == Some(b)
  {
    EncodeOfSingle(b);
    DecodeSingle(b[0]);
    assert b == [b[0]];
  }

  lemma EncodeOfSingle(b: seq<byte>)
    requires |b| == 1
    ensures Encode(b) == EncodeSingle(b[0])
  {}

  lemma DecodeSingle(b0: byte)
    ensures Decode(EncodeSingle(b0)) == Some([b0])
  {
    SingleRoundTrip(b0);
    assert |EncodeSingle(b0)| == 4;
  }

  lemma DecodeEncodePair(b: seq<byte>)
    requires |b| == 2
    ensures Decode(Encode(b)) == Some(b)
  {
    EncodeOfPair(b);
    DecodePair(b[0], b[1]);
    PairOf(b);
  }

  lemma EncodeOfPair(b: seq<byte>)
    requires |b| == 2
    ensures Encode(b) == EncodePair(b[0], b[1])
  {}

  lemma PairOf(b: seq<byte>)
    requires |b| == 2
    ensures b == [b[0], b[1]]
  {}

  lemma DecodePair(b0: byte, b1: byte)
    ensures Decode(EncodePair(b0, b1)) == Some([b0, b1])
  {
    PairRoundTrip(b0, b1);
    assert |EncodePair(b0, b1)| == 4;
  }

  lemma DecodeEncodeTriple(b: seq<byte>)
    requires |b| == 3
    ensures Decode(Encode(b)) == Some(b)
  {
    EncodeOfTriple(b);
    DecodeTriple(b[0], b[1], b[2]);
    TripleOf(b);
  }

  lemma EncodeOfTriple(b: seq<byte>)
    requires |b| == 3
    ensures Encode(b) == EncodeTriple(b[0], b[1], b[2])
  {
    assert Encode(b[3..]) == [];
    assert EncodeTriple(b[0], b[1], b[2]) + [] == EncodeTriple(b[0], b[1], b[2]);
  }

  lemma TripleOf(b: seq<byte>)
    requires |b| == 3
    ensures b == [b[0], b[1], b[2]]
  {}

  lemma DecodeTriple(b0: byte, b1: byte, b2: byte)
    ensures Decode(EncodeTriple(b0, b1, b2)) == Some([b0, b1, b2])
  {
    TripleRoundTrip(b0, b1, b2);
    var q := EncodeTriple(b0, b1, b2);
    assert |q| == 4;
    assert q[3] != '=';
  }

  lemma DecodeEncodeLonger(b: seq<byte>)
    requires |b| > 3
    requires Decode(Encode(b[3..])) == Some(b[3..])
    ensures Decode(Encode(b)) == Some(b)
  {
    TripleRoundTrip(b[0], b[1], b[2]);
    var q := EncodeTriple(b[0], b[1], b[2]);
    var rest := Encode(b[3..]);
    EncodeNonEmpty(b[3..]);
    EncodeUnfold(b);
    DecodeGroupThenRest(q, rest, [b[0], b[1], b[2]], b[3..]);
    SplitThree(b);
  }

  lemma SplitThree(b: seq<byte>)
    requires |b| >= 3
    ensures [b[0], b[1], b[2]] + b[3..] == b
  {}

  lemma EncodeNonEmpty(b: seq<byte>)
    requires |b| > 0
    ensures |Encode(b)| >= 4
  {
    assert (|b| + 2) / 3 >= 1;
  }

  lemma EncodeUnfold(b: seq<byte>)
    requires |b| >= 3
    ensures Encode(b) == EncodeTriple(b[0], b[1], b[2]) + Encode(b[3..])
  {}

  /** Distinct byte strings have distinct encodings. */
  lemma EncodeInjective(a: seq<byte>, b: seq<byte>)
    requires Encode(a) == Encode(b)
    ensures a == b
  {
    DecodeEncode(a);
    DecodeEncode(b);
  }
}
