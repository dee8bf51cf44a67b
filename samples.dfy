/**
 * Decoding of one 16-bit PCM sample from two bytes of the stream into a
 * real number: `[0, 1]` for unsigned formats, `[-32767/32768, 1]` for
 * signed ones, as the program does it; and the decoding the sample formats
 * define (byte order honoured, signed words read as two's complement), with
 * the inputs on which the two differ.
 */
module Samples {

  /** The two properties of the stream's sample format that decoding consults. */
  datatype AudioFormat = AudioFormat(isSigned: bool, isLittleEndian: bool)

  const MaxRaw: int := 65535

  /**
   * The raw 16-bit value assembled from `lo` (the byte at the sample's
   * address) and `hi` (the byte after it). Both branches of the endianness
   * test put `hi` in the upper byte, so the flag does not affect the value.
   */
  function RawValue(lo: bv8, hi: bv8, littleEndian: bool): (v: bv16)
    ensures v as int == lo as int + 256 * hi as int
  {
    var r := if littleEndian then ((hi as bv16) << 8) | (lo as bv16)
             else (lo as bv16) | ((hi as bv16) << 8);
    assert r as int == lo as int + 256 * hi as int by {
      OrIsSum(lo, hi);
      SumAsInt(lo, hi);
      WidenByte(lo);
      WidenByte(hi);
    }
    r
  }

  /** The two bytes occupy disjoint bits, so or-ing them is adding them. */
  lemma OrIsSum(lo: bv8, hi: bv8)
    ensures ((hi as bv16) << 8) | (lo as bv16) == (hi as bv16) * 256 + (lo as bv16)
    ensures (lo as bv16) | ((hi as bv16) << 8) == (hi as bv16) * 256 + (lo as bv16)
  {
  }

  /** The 16-bit sum of the two widened bytes does not overflow. */
  lemma SumAsInt(lo: bv8, hi: bv8)
    ensures ((hi as bv16) * 256 + (lo as bv16)) as int
         == (hi as bv16) as int * 256 + (lo as bv16) as int
  {
  }

  lemma WidenByte(x: bv8)
    ensures (x as bv16) as int == x as int
  {
  }

  lemma RawValueIgnoresEndianness(lo: bv8, hi: bv8)
    ensures RawValue(lo, hi, true) == RawValue(lo, hi, false)
    ensures RawValue(lo, hi, true) as int <= MaxRaw
  {
  }

  /** Scaling of a raw value; signed formats are offset by 32767 first. */
  function Normalize(value: int, isSigned: bool): (x: real)
    requires 0 <= value <= MaxRaw
    ensures isSigned ==> -32767.0 / 32768.0 <= x <= 1.0
    ensures !isSigned ==> 0.0 <= x <= 1.0
  {
    if isSigned then (value - 32767) as real / 32768.0
    else value as real / 65535.0
  }

  /** Scaling loses nothing: distinct raw values give distinct, ordered samples. */
  lemma NormalizeStrictlyIncreasing(a: int, b: int, isSigned: bool)
    requires 0 <= a < b <= MaxRaw
    ensures Normalize(a, isSigned) < Normalize(b, isSigned)
  {
  }

  /** The extremes of both scalings. */
  lemma NormalizeExtremes()
    ensures Normalize(0, false) == 0.0 && Normalize(MaxRaw, false) == 1.0
    ensures Normalize(0, true) == -32767.0 / 32768.0 && Normalize(MaxRaw, true) == 1.0
    ensures Normalize(32767, true) == 0.0
  {
  }

  /** `get_sample`: the sample whose two bytes start at `stream[off]`. */
  function GetSample(stream: seq<bv8>, off: nat, format: AudioFormat): (x: real)
    requires off + 1 < |stream|
    ensures x == Normalize(stream[off] as int + 256 * stream[off + 1] as int, format.isSigned)
  {
    var value := RawValue(stream[off], stream[off + 1], format.isLittleEndian);
    Normalize(value as int, format.isSigned)
  }

  /** The endianness flag of the format never changes a decoded sample. */
  lemma GetSampleIgnoresEndianness(stream: seq<bv8>, off: nat, signed: bool)
    requires off + 1 < |stream|
    ensures GetSample(stream, off, AudioFormat(signed, true))
         == GetSample(stream, off, AudioFormat(signed, false))
  {
  }

  /**
   * A signed stream holds two's complement values, so silence is the byte
   * pair `00 00` and -1 is `FF FF`. The offset in `Normalize` reads them as
   * almost full negative and full positive scale.
   */
  lemma SignedDecodingAsWritten(littleEndian: bool)
    ensures GetSample([0, 0], 0, AudioFormat(true, littleEndian)) == -32767.0 / 32768.0
    ensures GetSample([0xFF, 0xFF], 0, AudioFormat(true, littleEndian)) == 1.0
  {
  }

  /**
   * A big-endian stream holding the value 1 (bytes `00 01`) decodes as if
   * the bytes were little-endian, that is as the value 256.
   */
  lemma BigEndianDecodingAsWritten()
    ensures GetSample([0, 1], 0, AudioFormat(true, false)) == (256 - 32767) as real / 32768.0
    ensures GetSample([0, 1], 0, AudioFormat(false, false)) == 256.0 / 65535.0
  {
  }

  /** The 16-bit word stored in the pair of bytes `b0 b1`, in the format's byte order. */
  function SampleWord(b0: bv8, b1: bv8, littleEndian: bool): (v: int)
    ensures 0 <= v <= MaxRaw
    ensures littleEndian ==> v % 256 == b0 as int && v / 256 == b1 as int
    ensures !littleEndian ==> v % 256 == b1 as int && v / 256 == b0 as int
  {
    if littleEndian then b0 as int + 256 * b1 as int else b1 as int + 256 * b0 as int
  }

  /** The two's complement reading of a 16-bit word. */
  function AsInt16(word: int): (s: int)
    requires 0 <= word <= MaxRaw
    ensures -32768 <= s <= 32767
    ensures s == word || s == word - 65536
  {
    if word < 32768 then word else word - 65536
  }

  /** `get_sample` as the sample formats define it: byte order honoured, signed words read as `int16`. */
  function GetSampleIntended(stream: seq<bv8>, off: nat, format: AudioFormat): (x: real)
    requires off + 1 < |stream|
    ensures format.isSigned ==> -1.0 <= x <= 32767.0 / 32768.0
    ensures !format.isSigned ==> 0.0 <= x <= 1.0
  {
    var word := SampleWord(stream[off], stream[off + 1], format.isLittleEndian);
    if format.isSigned then AsInt16(word) as real / 32768.0 else word as real / 65535.0
  }

  /**
   * `b0 b1` are the two bytes that store the signed 16-bit value `s` in
   * the given byte order: the two's complement word of `s`, split into its
   * low and high byte.
   */
  predicate StoresSigned16(b0: bv8, b1: bv8, littleEndian: bool, s: int) {
    var u := if s < 0 then s + 65536 else s;
    var lo, hi := if littleEndian then b0 else b1, if littleEndian then b1 else b0;
    -32768 <= s <= 32767 && lo as int == u % 256 && hi as int == u / 256
  }

  /** Decoding undoes storing: any stored signed value comes back as itself over 32768. */
  lemma Signed16RoundTrip(b0: bv8, b1: bv8, littleEndian: bool, s: int)
    requires StoresSigned16(b0, b1, littleEndian, s)
    ensures GetSampleIntended([b0, b1], 0, AudioFormat(true, littleEndian)) == s as real / 32768.0
  {
  }

  /** Decoding loses nothing: two byte pairs with the same signed sample are equal. */
  lemma GetSampleIntendedInjective(b0: bv8, b1: bv8, c0: bv8, c1: bv8, format: AudioFormat)
    requires GetSampleIntended([b0, b1], 0, format) == GetSampleIntended([c0, c1], 0, format)
    ensures b0 == c0 && b1 == c1
  {
    var wb := SampleWord(b0, b1, format.isLittleEndian);
    var wc := SampleWord(c0, c1, format.isLittleEndian);
    ScalingInjective(wb, wc, format.isSigned);
    SampleWordInjective(b0, b1, c0, c1, format.isLittleEndian);
  }

  /** Distinct words scale to distinct samples, in both readings. */
  lemma ScalingInjective(wb: int, wc: int, isSigned: bool)
    requires 0 <= wb <= MaxRaw && 0 <= wc <= MaxRaw
    requires isSigned ==> AsInt16(wb) as real / 32768.0 == AsInt16(wc) as real / 32768.0
    requires !isSigned ==> wb as real / 65535.0 == wc as real / 65535.0
    ensures wb == wc
  {
    if isSigned {
      assert AsInt16(wb) == AsInt16(wc);
    }
  }

  /** The word determines both bytes. */
  lemma SampleWordInjective(b0: bv8, b1: bv8, c0: bv8, c1: bv8, littleEndian: bool)
    requires SampleWord(b0, b1, littleEndian) == SampleWord(c0, c1, littleEndian)
    ensures b0 == c0 && b1 == c1
  {
    ByteIntInjective(b0, c0);
    ByteIntInjective(b1, c1);
  }

  lemma ByteIntInjective(a: bv8, b: bv8)
    requires a as int == b as int
    ensures a == b
  {
  }

  /** With the intended decoding, silence is 0 and -1 is the smallest step below it. */
  lemma SignedDecodingIntended(littleEndian: bool)
    ensures GetSampleIntended([0, 0], 0, AudioFormat(true, littleEndian)) == 0.0
    ensures GetSampleIntended([0xFF, 0xFF], 0, AudioFormat(true, littleEndian)) == -1.0 / 32768.0
  {
  }
}
