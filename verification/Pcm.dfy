/** Little-endian PCM samples of one to four bytes: offset binary for one byte, two's complement above. */
module Pcm {

  type byte = b: int | 0 <= b < 256

  predicate ValidWidth(width: int) {
    1 <= width <= 4
  }

  /** Half the number of codes a sample of this width has: 2^(8 * width - 1). */
  function Half(width: nat): (h: int)
    requires ValidWidth(width)
    ensures h >= 128
  {
    if width == 1 then 128 else 256 * Half(width - 1)
  }

  predicate InRange(value: int, width: nat)
    requires ValidWidth(width)
  {
    -Half(width) <= value < Half(width)
  }

  function Pow256(n: nat): (p: int)
    ensures p >= 1
  {
    if n == 0 then 1 else 256 * Pow256(n - 1)
  }

  function FromLittleEndian(bytes: seq<byte>): (u: nat)
    ensures u < Pow256(|bytes|)
  {
    if |bytes| == 0 then 0 else bytes[0] + 256 * FromLittleEndian(bytes[1..])
  }

  function ToLittleEndian(u: nat, width: nat): (bytes: seq<byte>)
    ensures |bytes| == width
  {
    if width == 0 then [] else [u % 256] + ToLittleEndian(u / 256, width - 1)
  }

  function DecodeSample(bytes: seq<byte>): (value: int)
    requires ValidWidth(|bytes|)
  {
    if |bytes| == 1 then bytes[0] - 128
    else
      var u := FromLittleEndian(bytes);
      if u >= Half(|bytes|) then u - 2 * Half(|bytes|) else u
  }

  function Clamp(value: int, lowest: int, highest: int): int {
    if value < lowest then lowest else if value > highest then highest else value
  }

  function EncodeSample(value: int, width: nat): (bytes: seq<byte>)
    requires ValidWidth(width)
    ensures |bytes| == width
  {
    var v := Clamp(value, -Half(width), Half(width) - 1);
    if width == 1 then [v + 128]
    else ToLittleEndian(if v < 0 then v + 2 * Half(width) else v, width)
  }

  lemma {:induction false} HalfIsHalf(width: nat)
    requires ValidWidth(width)
    ensures 2 * Half(width) == Pow256(width)
  {
    if width == 1 {
      assert Pow256(1) == 256 * Pow256(0);
    } else {
      HalfIsHalf(width - 1);
    }
  }

  lemma {:induction false} FromToLittleEndian(u: nat, width: nat)
    requires u < Pow256(width)
    ensures FromLittleEndian(ToLittleEndian(u, width)) == u
  {
    if width > 0 {
      FromToLittleEndian(u / 256, width - 1);
      assert ToLittleEndian(u, width)[1..] == ToLittleEndian(u / 256, width - 1);
    }
  }

  lemma {:induction false} ToFromLittleEndian(bytes: seq<byte>)
    ensures ToLittleEndian(FromLittleEndian(bytes), |bytes|) == bytes
  {
    if |bytes| > 0 {
      ToFromLittleEndian(bytes[1..]);
      var rest := FromLittleEndian(bytes[1..]);
      assert (bytes[0] + 256 * rest) / 256 == rest;
      assert [bytes[0]] + bytes[1..] == bytes;
    }
  }

  function Digit(bytes: seq<byte>, i: nat): int {
    if i < |bytes| then bytes[i] else 0
  }

  /** The value of the bytes, least first. */
  function Unsigned(bytes: seq<byte>): int {
    Digit(bytes, 0) + 256 * Digit(bytes, 1) + 65536 * Digit(bytes, 2) + 16777216 * Digit(bytes, 3)
  }

  /** What a sample stands for: one byte is counted from 128; more are negative when the top bit is set. */
  lemma SampleValue(bytes: seq<byte>)
    requires ValidWidth(|bytes|)
    ensures DecodeSample(bytes) ==
            if |bytes| == 1 then Digit(bytes, 0) - 128
            else if Digit(bytes, |bytes| - 1) < 128 then Unsigned(bytes)
            else Unsigned(bytes) - (if |bytes| == 2 then 65536 else if |bytes| == 3 then 16777216 else 4294967296)
  {
    assert Half(1) == 128 && Half(2) == 32768 && Half(3) == 8388608;
    UnsignedIs(bytes);
  }

  lemma UnsignedIs(bytes: seq<byte>)
    requires ValidWidth(|bytes|)
    ensures FromLittleEndian(bytes) == Unsigned(bytes)
  {
    var b1 := bytes[1..];
    assert FromLittleEndian(bytes) == bytes[0] + 256 * FromLittleEndian(b1);
    if |bytes| > 1 {
      var b2 := b1[1..];
      assert FromLittleEndian(b1) == b1[0] + 256 * FromLittleEndian(b2);
      if |bytes| > 2 {
        var b3 := b2[1..];
        assert FromLittleEndian(b2) == b2[0] + 256 * FromLittleEndian(b3);
      }
    }
  }

  lemma DecodeInRange(bytes: seq<byte>)
    requires ValidWidth(|bytes|)
    ensures InRange(DecodeSample(bytes), |bytes|)
  {
    HalfIsHalf(|bytes|);
  }

  lemma DecodeEncodeInRange(value: int, width: nat)
    requires ValidWidth(width) && InRange(value, width)
    ensures DecodeSample(EncodeSample(value, width)) == value
  {
    HalfIsHalf(width);
    if width > 1 {
      FromToLittleEndian(if value < 0 then value + 2 * Half(width) else value, width);
    }
  }

  /** Decoding undoes encoding for exactly the values in range; outside it the encoder saturates. */
  lemma DecodeEncode(value: int, width: nat)
    requires ValidWidth(width)
    ensures DecodeSample(EncodeSample(value, width)) == Clamp(value, -Half(width), Half(width) - 1)
    ensures DecodeSample(EncodeSample(value, width)) == value <==> InRange(value, width)
  {
    var v := Clamp(value, -Half(width), Half(width) - 1);
    assert EncodeSample(value, width) == EncodeSample(v, width);
    DecodeEncodeInRange(v, width);
  }

  /** Every byte pattern is the code of the sample it decodes to. */
  lemma EncodeDecode(bytes: seq<byte>)
    requires ValidWidth(|bytes|)
    ensures EncodeSample(DecodeSample(bytes), |bytes|) == bytes
  {
    HalfIsHalf(|bytes|);
    DecodeInRange(bytes);
    if |bytes| > 1 {
      ToFromLittleEndian(bytes);
    }
  }
}
