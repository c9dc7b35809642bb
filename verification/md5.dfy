/**
 * Model of the MD5 helper classes of LK8000 (Common/Source/utils/md5.cpp):
 * the keyed and unkeyed initialisation of the MD5 context, and MD5::Final,
 * which renders the 16-byte digest as 32 lower-case hexadecimal digits.
 *
 * The MD5 compression routines (md5_init_ctx's block state,
 * md5_process_bytes, md5_finish_ctx) are not part of this model: Final takes
 * the 16 digest bytes that md5_finish_ctx writes into `resbuf` as its input.
 */
module Md5 {
  import opened Wrappers

  /** `unsigned int`, 32 bits wide on the platforms LK8000 targets. */
  newtype uint32 = x: int | 0 <= x < 0x1_0000_0000

  /** `unsigned char`: one byte of the digest. */
  newtype byte = x: int | 0 <= x < 256

  /** Number of bytes in an MD5 digest (`unsigned char resbuf[16]`). */
  const DigestSize: nat := 16

  // ---------------------------------------------------------------------------
  // The MD5 context words A, B, C, D
  // ---------------------------------------------------------------------------

  /** Initial chaining words that md5_init_ctx stores (RFC 1321, section 3.3). */
  const InitA: uint32 := 0x6745_2301
  const InitB: uint32 := 0xefcd_ab89
  const InitC: uint32 := 0x98ba_dcfe
  const InitD: uint32 := 0x1032_5476

  /**
   * MD5_Base: owns the MD5 context. Only the four chaining words are
   * modelled; the byte counter and the partial-block buffer belong to the
   * md5 routines that are not part of this model.
   */
  class Md5Base {
    var a: uint32
    var b: uint32
    var c: uint32
    var d: uint32

    /** MD5_Base(): a context started by Init(). */
    constructor ()
      ensures a == InitA && b == InitB && c == InitC && d == InitD
    {
      a, b, c, d := InitA, InitB, InitC, InitD;
    }

    /** MD5_Base(key1, key2, key3, key4): a context started by the keyed Init. */
    constructor Keyed(key1: uint32, key2: uint32, key3: uint32, key4: uint32)
      ensures a == key1 && b == key2 && c == key3 && d == key4
    {
      a, b, c, d := key1, key2, key3, key4;
    }

    /** MD5_Base::Init(): md5_init_ctx, which restores the standard words. */
    method Init()
      modifies this
      ensures a == InitA && b == InitB && c == InitC && d == InitD
    {
      a, b, c, d := InitA, InitB, InitC, InitD;
    }

    /**
     * MD5_Base::Init(key1, ..., key4): md5_init_ctx, then the context words
     * A, B, C, D are overwritten by key1, key2, key3, key4 in that order.
     */
    method InitKeyed(key1: uint32, key2: uint32, key3: uint32, key4: uint32)
      modifies this
      ensures a == key1 && b == key2 && c == key3 && d == key4
    {
      Init();
      a := key1;
      b := key2;
      c := key3;
      d := key4;
    }
  }

  /** Seeding with the standard words gives the same context as the unkeyed Init. */
  method KeyedWithStandardWords() returns (same: bool)
    ensures same
  {
    var plain := new Md5Base();
    var keyed := new Md5Base.Keyed(InitA, InitB, InitC, InitD);
    same := plain.a == keyed.a && plain.b == keyed.b && plain.c == keyed.c && plain.d == keyed.d;
  }

  // ---------------------------------------------------------------------------
  // Hex digits
  // ---------------------------------------------------------------------------

  /** The table `Digit` of MD5::Final. */
  const Digit: string := "0123456789abcdef"

  /** Hex digit `k` spelled out: '0'..'9', then 'a'..'f'. */
  function HexDigit(k: int): (ch: char)
    requires 0 <= k < 16
  {
    if k < 10 then ('0' as int + k) as char else ('a' as int + k - 10) as char
  }

  /** Entry `k` of the `Digit` table is hex digit `k`. */
  lemma DigitTable(k: int)
    requires 0 <= k < 16
    ensures |Digit| == 16 && Digit[k] == HexDigit(k)
  {
  }

  /** The value of a lower-case hex digit, or None for any other character. */
  function DigitValue(ch: char): (r: Option<int>)
    ensures r.Some? ==> 0 <= r.value < 16 && HexDigit(r.value) == ch
    ensures r.None? ==> forall k :: 0 <= k < 16 ==> HexDigit(k) != ch
  {
    if '0' <= ch <= '9' then Some(ch as int - '0' as int)
    else if 'a' <= ch <= 'f' then Some(ch as int - 'a' as int + 10)
    else None
  }

  lemma DigitValueOfDigit(k: int)
    requires 0 <= k < 16
    ensures DigitValue(HexDigit(k)) == Some(k)
  {
  }

  // ---------------------------------------------------------------------------
  // Reading a digest byte through `char c`
  // ---------------------------------------------------------------------------

  /**
   * The value of `char c` when the loop of MD5::Final reads an unsigned
   * digest byte `b` through plain `char`: where char is signed, bytes from
   * 0x80 up read as negative numbers (two's complement).
   */
  function CharValue(b: byte, signedChar: bool): (c: int)
    ensures signedChar ==> -128 <= c < 128
    ensures !signedChar ==> 0 <= c < 256
    ensures c % 256 == b as int
  {
    if signedChar && b >= 0x80 then b as int - 256 else b as int
  }

  /** The bit pattern of a byte, built by counting up from zero. */
  function Bits(b: byte): (r: bv8)
    ensures r as int == b as int
  {
    if b == 0 then 0 else Bits(b - 1) + 1
  }

  /** Widening a char's bit pattern to a 32-bit int: sign extension where char is signed. */
  function Extend(bits: bv8, signedChar: bool): (w: bv32)
  {
    if signedChar && bits >= 0x80 then (bits as bv32) | 0xFFFF_FF00 else bits as bv32
  }

  /** The 32-bit `int` that `c` is promoted to before `&` is applied. */
  function Promote(b: byte, signedChar: bool): (w: bv32)
  {
    Extend(Bits(b), signedChar)
  }

  lemma ZeroExtendBelow(bits: bv8)
    ensures (bits as bv32) < 0x100
    ensures (bits as bv32) as int == bits as int
  {
  }

  lemma OrHighOnesIsAdd(w: bv32)
    requires w < 0x100
    ensures w | 0xFFFF_FF00 == w + 0xFFFF_FF00
    ensures (w + 0xFFFF_FF00) as int == w as int + 0xFFFF_FF00
  {
  }

  lemma ExtendValue(bits: bv8, signedChar: bool)
    ensures Extend(bits, signedChar) as int
         == if signedChar && bits as int >= 0x80 then bits as int + 0xFFFF_FF00 else bits as int
  {
    ZeroExtendBelow(bits);
    if signedChar && bits >= 0x80 {
      OrHighOnesIsAdd(bits as bv32);
    }
  }

  /** The 32-bit two's-complement image of the char's value. */
  lemma CharValueModulo(b: byte, signedChar: bool)
    ensures CharValue(b, signedChar) % 0x1_0000_0000
         == if signedChar && b as int >= 0x80 then b as int + 0xFFFF_FF00 else b as int
  {
  }

  /** The promoted word is the two's-complement image of the char's value. */
  lemma PromoteIsTwosComplement(b: byte, signedChar: bool)
    ensures Promote(b, signedChar) as int == CharValue(b, signedChar) % 0x1_0000_0000
  {
    var bits := Bits(b);
    ExtendValue(bits, signedChar);
    CharValueModulo(b, signedChar);
  }

  /** `(c & 0xF0) >> 4`: the table index of the first digit. */
  function HighIndex(b: byte, signedChar: bool): (r: int)
    ensures 0 <= r < 16
  {
    ((Promote(b, signedChar) & 0xF0) >> 4) as int
  }

  /** `(c & 0x0F) >> 0`: the table index of the second digit. */
  function LowIndex(b: byte, signedChar: bool): (r: int)
    ensures 0 <= r < 16
  {
    (Promote(b, signedChar) & 0x0F) as int
  }

  lemma ExtendNibbles(bits: bv8, signedChar: bool)
    ensures ((Extend(bits, signedChar) & 0xF0) >> 4) as int == bits as int / 16
    ensures (Extend(bits, signedChar) & 0x0F) as int == bits as int % 16
  {
  }

  /**
   * Whatever the signedness of char, the two indices are the byte's high and
   * low nibble: sign extension only sets bits that the masks clear.
   */
  lemma NibbleIndices(b: byte, signedChar: bool)
    ensures HighIndex(b, signedChar) == b as int / 16
    ensures LowIndex(b, signedChar) == b as int % 16
  {
    ExtendNibbles(Bits(b), signedChar);
  }

  // ---------------------------------------------------------------------------
  // Hex encoding: the specification of MD5::Final
  // ---------------------------------------------------------------------------

  /** The two digits of one byte, high nibble first. */
  function HexPair(b: byte): (s: string)
  {
    [HexDigit(b as int / 16), HexDigit(b as int % 16)]
  }

  /** The hex text of a byte sequence, two digits per byte, in byte order. */
  function HexEncode(bytes: seq<byte>): (r: string)
    ensures |r| == 2 * |bytes|
  {
    if bytes == [] then "" else HexEncode(bytes[..|bytes| - 1]) + HexPair(bytes[|bytes| - 1])
  }

  /** A string made only of characters of the `Digit` table. */
  predicate IsLowerHex(s: string)
  {
    forall k :: 0 <= k < |s| ==> s[k] in Digit
  }

  /** Characters 2i and 2i+1 are the digits of byte i's high and low nibble. */
  lemma {:induction false} HexEncodeAt(bytes: seq<byte>, i: int)
    requires 0 <= i < |bytes|
    ensures HexEncode(bytes)[2 * i] == HexDigit(bytes[i] as int / 16)
    ensures HexEncode(bytes)[2 * i + 1] == HexDigit(bytes[i] as int % 16)
  {
    var n := |bytes| - 1;
    var prefix := bytes[..n];
    assert HexEncode(bytes) == HexEncode(prefix) + HexPair(bytes[n]);
    if i < n {
      HexEncodeAt(prefix, i);
    }
  }

  /** Every character of the encoding is one of the sixteen in `Digit`. */
  lemma HexEncodeIsLowerHex(bytes: seq<byte>)
    ensures IsLowerHex(HexEncode(bytes))
  {
    var r := HexEncode(bytes);
    forall k | 0 <= k < |r|
      ensures r[k] in Digit
    {
      var i := k / 2;
      HexEncodeAt(bytes, i);
      DigitTable(bytes[i] as int / 16);
      DigitTable(bytes[i] as int % 16);
      if k % 2 == 0 {
        assert k == 2 * i;
      } else {
        assert k == 2 * i + 1;
      }
    }
  }

  // ---------------------------------------------------------------------------
  // Decoding: the inverse that shows the encoding loses nothing
  // ---------------------------------------------------------------------------

  /** The byte whose high nibble is `hi` and low nibble is `lo`. */
  function ByteOf(hi: int, lo: int): (b: byte)
    requires 0 <= hi < 16 && 0 <= lo < 16
    ensures b as int / 16 == hi && b as int % 16 == lo
  {
    (16 * hi + lo) as byte
  }

  /** Reads each pair of digits as 16 * high + low; None for odd length or a non-digit. */
  function HexDecode(text: string): (r: Option<seq<byte>>)
    ensures r.Some? ==> 2 * |r.value| == |text|
  {
    if text == [] then Some([])
    else if |text| == 1 then None
    else
      var n := |text| - 2;
      var prefix := HexDecode(text[..n]);
      var hi := DigitValue(text[n]);
      var lo := DigitValue(text[n + 1]);
      if prefix.Some? && hi.Some? && lo.Some? then Some(prefix.value + [ByteOf(hi.value, lo.value)])
      else None
  }

  lemma NibblesDetermineByte(b: byte)
    ensures ByteOf(b as int / 16, b as int % 16) == b
  {
  }

  lemma LastSplit<T>(s: seq<T>)
    requires s != []
    ensures s[..|s| - 1] + [s[|s| - 1]] == s
  {
  }

  lemma LastTwoSplit<T>(s: seq<T>)
    requires |s| >= 2
    ensures s[..|s| - 2] + [s[|s| - 2], s[|s| - 1]] == s
  {
  }

  /** Decoding a text with one more digit pair appends one byte. */
  lemma DecodeSnoc(front: string, hi: int, lo: int)
    requires HexDecode(front).Some? && 0 <= hi < 16 && 0 <= lo < 16
    ensures HexDecode(front + [HexDigit(hi), HexDigit(lo)])
         == Some(HexDecode(front).value + [ByteOf(hi, lo)])
  {
    var text := front + [HexDigit(hi), HexDigit(lo)];
    assert text[..|front|] == front;
    assert text[|front|] == HexDigit(hi) && text[|front| + 1] == HexDigit(lo);
    DigitValueOfDigit(hi);
    DigitValueOfDigit(lo);
  }

  /** Round trip: decoding the hex text recovers the bytes. */
  lemma {:induction false} DecodeEncode(bytes: seq<byte>)
    ensures HexDecode(HexEncode(bytes)) == Some(bytes)
  {
    if bytes != [] {
      var n := |bytes| - 1;
      var b := bytes[n];
      DecodeEncode(bytes[..n]);
      DecodeSnoc(HexEncode(bytes[..n]), b as int / 16, b as int % 16);
      NibblesDetermineByte(b);
      LastSplit(bytes);
    }
  }

  /** Conversely, a text that decodes is exactly the encoding of what it decodes to. */
  lemma {:induction false} EncodeDecode(text: string, bytes: seq<byte>)
    requires HexDecode(text) == Some(bytes)
    ensures HexEncode(bytes) == text
  {
    if text != [] {
      var n := |text| - 2;
      var prefix := HexDecode(text[..n]).value;
      var hi := DigitValue(text[n]).value;
      var lo := DigitValue(text[n + 1]).value;
      var b := ByteOf(hi, lo);
      assert bytes == prefix + [b];
      assert bytes[..|bytes| - 1] == prefix;
      EncodeDecode(text[..n], prefix);
      assert HexPair(b) == [text[n], text[n + 1]];
      LastTwoSplit(text);
    }
  }

  /** Distinct digests give distinct hex strings. */
  lemma HexEncodeInjective(x: seq<byte>, y: seq<byte>)
    requires HexEncode(x) == HexEncode(y)
    ensures x == y
  {
    DecodeEncode(x);
    DecodeEncode(y);
  }

  // ---------------------------------------------------------------------------
  // MD5::Final
  // ---------------------------------------------------------------------------

  /**
   * MD5::Final after md5_finish_ctx has filled `resbuf`: for each byte, read
   * as `char c`, appends Digit[(c & 0xF0) >> 4] and then Digit[(c & 0x0F) >> 0].
   * `signedChar` says whether the platform's plain char is signed.
   */
  method Final(resbuf: seq<byte>, signedChar: bool) returns (out: string)
    requires |resbuf| == DigestSize
    ensures |out| == 2 * DigestSize
    ensures out == HexEncode(resbuf)
    ensures IsLowerHex(out)
    ensures HexDecode(out) == Some(resbuf)
  {
    out := "";
    for i := 0 to |resbuf|
      invariant out == HexEncode(resbuf[..i])
    {
      var c := resbuf[i];
      NibbleIndices(c, signedChar);
      DigitTable(HighIndex(c, signedChar));
      DigitTable(LowIndex(c, signedChar));
      out := out + [Digit[HighIndex(c, signedChar)]];
      out := out + [Digit[LowIndex(c, signedChar)]];
      assert resbuf[..i + 1][..i] == resbuf[..i];
    }
    assert resbuf[..|resbuf|] == resbuf;
    HexEncodeIsLowerHex(resbuf);
    DecodeEncode(resbuf);
  }

  // ---------------------------------------------------------------------------
  // The digests of the unit test
  // ---------------------------------------------------------------------------

  /** Pair `i` of `text` is the two digits of byte `i`. */
  predicate PairAt(bytes: seq<byte>, text: string, i: nat)
    requires i < |bytes| && |text| == 2 * |bytes|
  {
    text[2 * i] == HexDigit(bytes[i] as int / 16) && text[2 * i + 1] == HexDigit(bytes[i] as int % 16)
  }

  /** A text of twice the length whose every pair spells its byte is the encoding. */
  lemma HexEncodeFromPairs(bytes: seq<byte>, text: string)
    requires |text| == 2 * |bytes|
    requires forall i :: 0 <= i < |bytes| ==> PairAt(bytes, text, i)
    ensures HexEncode(bytes) == text
  {
    var r := HexEncode(bytes);
    forall k | 0 <= k < |text|
      ensures r[k] == text[k]
    {
      var i := k / 2;
      assert PairAt(bytes, text, i);
      HexEncodeAt(bytes, i);
      if k % 2 == 0 {
        assert k == 2 * i;
      } else {
        assert k == 2 * i + 1;
      }
    }
  }

  /** The sixteen pair checks of a digest text, written out one by one. */
  lemma DigestFromPairs(bytes: seq<byte>, text: string)
    requires |bytes| == DigestSize && |text| == 2 * DigestSize
    requires PairAt(bytes, text, 0) && PairAt(bytes, text, 1) && PairAt(bytes, text, 2)
    requires PairAt(bytes, text, 3) && PairAt(bytes, text, 4) && PairAt(bytes, text, 5)
    requires PairAt(bytes, text, 6) && PairAt(bytes, text, 7) && PairAt(bytes, text, 8)
    requires PairAt(bytes, text, 9) && PairAt(bytes, text, 10) && PairAt(bytes, text, 11)
    requires PairAt(bytes, text, 12) && PairAt(bytes, text, 13) && PairAt(bytes, text, 14)
    requires PairAt(bytes, text, 15)
    ensures HexEncode(bytes) == text
  {
    forall i | 0 <= i < |bytes|
      ensures PairAt(bytes, text, i)
    {
      assert i == 0 || i == 1 || i == 2 || i == 3 || i == 4 || i == 5 || i == 6 || i == 7
          || i == 8 || i == 9 || i == 10 || i == 11 || i == 12 || i == 13 || i == 14 || i == 15;
    }
    HexEncodeFromPairs(bytes, text);
  }

  /** MD5(""), the digest of the empty input, and the text the unit test expects. */
  lemma EmptyInputDigestText()
    ensures HexEncode([0xd4, 0x1d, 0x8c, 0xd9] + [0x8f, 0x00, 0xb2, 0x04]
                  + [0xe9, 0x80, 0x09, 0x98] + [0xec, 0xf8, 0x42, 0x7e])
         == "d41d8cd9" + "8f00b204" + "e9800998" + "ecf8427e"
  {
    DigestFromPairs([0xd4, 0x1d, 0x8c, 0xd9] + [0x8f, 0x00, 0xb2, 0x04]
                    + [0xe9, 0x80, 0x09, 0x98] + [0xec, 0xf8, 0x42, 0x7e],
                    "d41d8cd9" + "8f00b204" + "e9800998" + "ecf8427e");
  }

  /** MD5("test") and the text the unit test expects. */
  lemma TestDigestText()
    ensures HexEncode([0x09, 0x8f, 0x6b, 0xcd] + [0x46, 0x21, 0xd3, 0x73]
                  + [0xca, 0xde, 0x4e, 0x83] + [0x26, 0x27, 0xb4, 0xf6])
         == "098f6bcd" + "4621d373" + "cade4e83" + "2627b4f6"
  {
    DigestFromPairs([0x09, 0x8f, 0x6b, 0xcd] + [0x46, 0x21, 0xd3, 0x73]
                    + [0xca, 0xde, 0x4e, 0x83] + [0x26, 0x27, 0xb4, 0xf6],
                    "098f6bcd" + "4621d373" + "cade4e83" + "2627b4f6");
  }

  /** MD5("test123") and the text the unit test expects. */
  lemma Test123DigestText()
    ensures HexEncode([0xcc, 0x03, 0xe7, 0x47] + [0xa6, 0xaf, 0xbb, 0xcb]
                  + [0xf8, 0xbe, 0x76, 0x68] + [0xac, 0xfe, 0xbe, 0xe5])
         == "cc03e747" + "a6afbbcb" + "f8be7668" + "acfebee5"
  {
    DigestFromPairs([0xcc, 0x03, 0xe7, 0x47] + [0xa6, 0xaf, 0xbb, 0xcb]
                    + [0xf8, 0xbe, 0x76, 0x68] + [0xac, 0xfe, 0xbe, 0xe5],
                    "cc03e747" + "a6afbbcb" + "f8be7668" + "acfebee5");
  }

  /** MD5("test1234") and the text the unit test expects. */
  lemma Test1234DigestText()
    ensures HexEncode([0x16, 0xd7, 0xa4, 0xfc] + [0xa7, 0x44, 0x2d, 0xda]
                  + [0x3a, 0xd9, 0x3c, 0x9a] + [0x72, 0x65, 0x97, 0xe4])
         == "16d7a4fc" + "a7442dda" + "3ad93c9a" + "726597e4"
  {
    DigestFromPairs([0x16, 0xd7, 0xa4, 0xfc] + [0xa7, 0x44, 0x2d, 0xda]
                    + [0x3a, 0xd9, 0x3c, 0x9a] + [0x72, 0x65, 0x97, 0xe4],
                    "16d7a4fc" + "a7442dda" + "3ad93c9a" + "726597e4");
  }
}
