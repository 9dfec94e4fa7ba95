/** Bytes, and the UTF-8 decoding of RFC 3629 section 4 as Go's unicode/utf8 performs it:
    a malformed sequence decodes to U+FFFD and consumes one byte. */
module Utf8 {
  type byte = b: int | 0 <= b < 256

  const RUNE_ERROR := 0xFFFD

  /** A decoded rune and the number of bytes it took. */
  datatype Decoded = Decoded(r: int, n: nat)

  predicate IsContinuation(b: byte) {
    0x80 <= b < 0xC0
  }

  /** The Unicode scalar values: code points that are not surrogates. */
  predicate IsScalar(r: int) {
    0 <= r < 0xD800 || 0xE000 <= r < 0x110000
  }

  /** The second byte of a three-byte sequence led by `b0` excludes overlong forms and surrogates. */
  predicate SecondOfThree(b0: byte, b1: byte) {
    && IsContinuation(b1)
    && (b0 == 0xE0 ==> 0xA0 <= b1)
    && (b0 == 0xED ==> b1 < 0xA0)
  }

  /** The second byte of a four-byte sequence led by `b0` excludes overlong and too large forms. */
  predicate SecondOfFour(b0: byte, b1: byte) {
    && IsContinuation(b1)
    && (b0 == 0xF0 ==> 0x90 <= b1)
    && (b0 == 0xF4 ==> b1 < 0x90)
  }

  /** Appends the six payload bits of a continuation byte. */
  function Join(high: int, b: byte): int {
    high * 64 + (b as int - 0x80)
  }

  /** The continuation byte that holds the low six bits of `r`. */
  function Low(r: nat): byte {
    0x80 + r % 64
  }

  lemma JoinLow(high: nat, b: byte)
    requires IsContinuation(b)
    ensures Join(high, b) / 64 == high && Low(Join(high, b)) == b
  {
  }

  lemma LowJoin(r: nat)
    ensures Join(r / 64, Low(r)) == r && IsContinuation(Low(r))
  {
  }

  function DecodeRune(s: seq<byte>): (d: Decoded)
    ensures d.n <= |s| && d.n <= 4
    ensures d.n == 0 <==> s == []
  {
    if s == [] then Decoded(RUNE_ERROR, 0)
    else if s[0] < 0x80 then Decoded(s[0], 1)
    else if 0xC2 <= s[0] < 0xE0 && |s| >= 2 && IsContinuation(s[1]) then
      Decoded(Join(s[0] as int - 0xC0, s[1]), 2)
    else if 0xE0 <= s[0] < 0xF0 && |s| >= 3 && SecondOfThree(s[0], s[1]) && IsContinuation(s[2]) then
      Decoded(Join(Join(s[0] as int - 0xE0, s[1]), s[2]), 3)
    else if 0xF0 <= s[0] < 0xF5 && |s| >= 4 && SecondOfFour(s[0], s[1]) && IsContinuation(s[2]) && IsContinuation(s[3]) then
      Decoded(Join(Join(Join(s[0] as int - 0xF0, s[1]), s[2]), s[3]), 4)
    else Decoded(RUNE_ERROR, 1)
  }

  /** Go's test for a malformed sequence: U+FFFD decoded from a single byte. */
  predicate BadDecode(d: Decoded) {
    d.r == RUNE_ERROR && d.n == 1
  }

  function Encode(r: int): (s: seq<byte>)
    requires IsScalar(r)
    ensures 1 <= |s| <= 4
  {
    if r < 0x80 then [r]
    else if r < 0x800 then [0xC0 + r / 64, Low(r)]
    else if r < 0x10000 then [0xE0 + r / 64 / 64, Low(r / 64), Low(r)]
    else [0xF0 + r / 64 / 64 / 64, Low(r / 64 / 64), Low(r / 64), Low(r)]
  }

  /** Decoding undoes encoding, whatever follows. */
  lemma DecodeEncode(r: int, t: seq<byte>)
    requires IsScalar(r)
    ensures DecodeRune(Encode(r) + t) == Decoded(r, |Encode(r)|)
    ensures (Encode(r) + t)[|Encode(r)|..] == t
  {
    var s := Encode(r) + t;
    assert forall i :: 0 <= i < |Encode(r)| ==> s[i] == Encode(r)[i];
    LowJoin(r);
    LowJoin(r / 64);
    LowJoin(r / 64 / 64);
  }

  /** Encoding undoes every decoding that Go does not report as malformed. */
  lemma EncodeDecode(s: seq<byte>)
    requires s != [] && !BadDecode(DecodeRune(s))
    ensures IsScalar(DecodeRune(s).r)
    ensures Encode(DecodeRune(s).r) == s[..DecodeRune(s).n]
  {
    var d := DecodeRune(s);
    if d.n == 2 {
      JoinLow(s[0] as int - 0xC0, s[1]);
    } else if d.n == 3 {
      var high := Join(s[0] as int - 0xE0, s[1]);
      JoinLow(s[0] as int - 0xE0, s[1]);
      JoinLow(high, s[2]);
    } else if d.n == 4 {
      var high := Join(s[0] as int - 0xF0, s[1]);
      JoinLow(s[0] as int - 0xF0, s[1]);
      JoinLow(high, s[2]);
      JoinLow(Join(high, s[2]), s[3]);
    }
  }

  /** The bit patterns of RFC 3629 section 3: the bits of the code point, six to a continuation byte. */
  function Bits(r: int): (s: seq<byte>)
    requires 0 <= r <= 0x10FFFF
  {
    if r <= 0x7F then [r]
    else if r <= 0x7FF then [192 + r / 64, 128 + r % 64]
    else if r <= 0xFFFF then [224 + r / 4096, 128 + r / 64 % 64, 128 + r % 64]
    else [240 + r / 262144, 128 + r / 4096 % 64, 128 + r / 64 % 64, 128 + r % 64]
  }

  lemma EncodeIsBits(r: int)
    requires 0 <= r <= 0xD7FF || 0xE000 <= r <= 0x10FFFF
    ensures IsScalar(r) && Encode(r) == Bits(r)
  {
    assert r / 64 / 64 == r / 4096 && r / 64 / 64 / 64 == r / 262144;
  }

  /** Decoding finds the code point, other than a surrogate, whose bits are at the front; if there is
      none, it takes one byte and gives U+FFFD. */
  lemma DecodeMeaning(s: seq<byte>, r: int)
    requires s != [] && (0 <= r <= 0xD7FF || 0xE000 <= r <= 0x10FFFF)
    ensures Bits(r) <= s ==> DecodeRune(s) == Decoded(r, |Bits(r)|)
    ensures var d := DecodeRune(s);
      || d == Decoded(0xFFFD, 1)
      || ((0 <= d.r <= 0xD7FF || 0xE000 <= d.r <= 0x10FFFF) && Bits(d.r) == s[..d.n])
  {
    EncodeIsBits(r);
    if Bits(r) <= s {
      DecodeEncode(r, s[|Bits(r)|..]);
      assert Bits(r) + s[|Bits(r)|..] == s;
    }
    if !BadDecode(DecodeRune(s)) {
      EncodeDecode(s);
      EncodeIsBits(DecodeRune(s).r);
    }
  }

  /** Inside a decoded rune every later byte decodes alone, as malformed. */
  lemma InsideRune(s: seq<byte>, i: nat)
    requires 0 < i < DecodeRune(s).n
    ensures DecodeRune(s[i..]) == Decoded(RUNE_ERROR, 1)
  {
    assert IsContinuation(s[i]);
  }
}
