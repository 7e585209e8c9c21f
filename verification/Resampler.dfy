/** The standard-library linear resampler for interleaved PCM prompts. */
module Resampler {
  import opened Blocks
  import opened Pcm

  // ----- Rounding -------------------------------------------------------------------------------

  /** The integer nearest to num / den; a tie goes to the even neighbour. */
  function RoundHalfEven(num: int, den: int): (r: int)
    requires den > 0
    ensures 2 * (num - r * den) <= den && 2 * (r * den - num) <= den
    ensures 2 * (num - r * den) == den || 2 * (r * den - num) == den ==> r % 2 == 0
  {
    var q, rem := num / den, num % den;
    assert q * den + rem == num;
    assert (q + 1) * den == q * den + den;
    if 2 * rem < den || (2 * rem == den && q % 2 == 0) then q else q + 1
  }

  lemma RoundAtLeast(num: int, den: int, low: int)
    requires den > 0 && low * den <= num
    ensures low <= RoundHalfEven(num, den)
  {
    var r := RoundHalfEven(num, den);
    if r < low {
      MulLe(r + 1, low, den);
      assert false;
    }
  }

  lemma RoundAtMost(num: int, den: int, high: int)
    requires den > 0 && num <= high * den
    ensures RoundHalfEven(num, den) <= high
  {
    var r := RoundHalfEven(num, den);
    if r > high {
      MulLe(high + 1, r, den);
      assert false;
    }
  }

  lemma RoundWithin(num: int, den: int, low: int, high: int)
    requires den > 0 && low * den <= num <= high * den
    ensures low <= RoundHalfEven(num, den) <= high
  {
    RoundAtLeast(num, den, low);
    RoundAtMost(num, den, high);
  }

  lemma RoundExact(q: int, den: int)
    requires den > 0
    ensures RoundHalfEven(q * den, den) == q
  {
    RoundWithin(q * den, den, q, q);
  }

  // ----- Specification --------------------------------------------------------------------------

  /** What the WAV reader guarantees about the stream, and the rate the caller asks for. */
  datatype Format = Format(channels: nat, width: nat, sourceRate: nat, targetRate: nat) {
    predicate Valid() {
      channels > 0 && ValidWidth(width) && sourceRate > 0 && targetRate > 0
    }

    /** channels * width; see Blocks.TimesIsProduct. */
    function FrameWidth(): (w: nat)
      requires Valid()
      ensures w > 0
    {
      TimesLe(1, channels, width);
      Times(channels, width)
    }
  }

  /** A frame as its samples, one per channel. */
  type Frame = seq<int>

  function Decoded(bytes: seq<byte>, f: Format): (frame: Frame)
    requires f.Valid() && |bytes| == f.FrameWidth()
    ensures |frame| == f.channels
  {
    CutTimes(bytes, f.channels, f.width);
    var cells := Cut(bytes, f.width);
    seq(f.channels, c requires 0 <= c < f.channels => DecodeSample(cells[c]))
  }

  function EncodedFrame(frame: Frame, f: Format): (bytes: seq<byte>)
    requires f.Valid() && |frame| == f.channels
    ensures |bytes| == f.FrameWidth()
  {
    var cells := Cells(frame, f.width);
    JoinLength(cells, f.width);
    Join(cells)
  }

  function Cells(frame: Frame, width: nat): (cells: seq<seq<byte>>)
    requires ValidWidth(width)
    ensures |cells| == |frame| && AllOf(cells, width)
  {
    seq(|frame|, c requires 0 <= c < |frame| => EncodeSample(frame[c], width))
  }

  lemma MulDiv(a: nat, b: nat)
    requires b > 0
    ensures a * b / b == a
  {
    var q := a * b / b;
    assert q * b + a * b % b == a * b;
    if q < a {
      MulLe(q + 1, a, b);
      assert false;
    }
    if q > a {
      MulLe(a + 1, q, b);
      assert false;
    }
  }

  lemma CutTimes(bytes: seq<byte>, n: nat, size: nat)
    requires size > 0 && |bytes| == Times(n, size)
    ensures |Cut(bytes, size)| == n
  {
    CutCount(bytes, size);
    TimesIsProduct(n, size);
    MulDiv(n, size);
  }

  /** The whole frames of an interleaved buffer. */
  function Frames(buffer: seq<byte>, f: Format): (frames: seq<Frame>)
    requires f.Valid()
    ensures forall frame :: frame in frames ==> |frame| == f.channels
  {
    var blocks := Cut(buffer, f.FrameWidth());
    seq(|blocks|, i requires 0 <= i < |blocks| => Decoded(blocks[i], f))
  }

  function TargetCount(n: nat, f: Format): (count: nat)
    requires f.Valid()
    ensures count >= 1
  {
    var rounded := RoundHalfEven(n * f.targetRate, f.sourceRate);
    if rounded < 1 then 1 else rounded
  }

  function Min(a: int, b: int): int {
    if a < b then a else b
  }

  function LeftIndex(i: nat, n: nat, f: Format): (left: nat)
    requires f.Valid() && n > 0
    ensures left < n
  {
    Min(i * f.sourceRate / f.targetRate, n - 1)
  }

  function RightIndex(i: nat, n: nat, f: Format): (right: nat)
    requires f.Valid() && n > 0
    ensures right < n
  {
    Min(LeftIndex(i, n, f) + 1, n - 1)
  }

  /** The value part / whole of the way from left to right, rounded to an integer. */
  function Blend(left: int, right: int, part: int, whole: nat): int
    requires whole > 0
  {
    RoundHalfEven(left * whole + (right - left) * part, whole)
  }

  function Interpolated(frames: seq<Frame>, f: Format, i: nat, c: nat): int
    requires f.Valid() && |frames| > 0 && c < f.channels
    requires forall frame :: frame in frames ==> |frame| == f.channels
  {
    var left := LeftIndex(i, |frames|, f);
    Blend(frames[left][c], frames[RightIndex(i, |frames|, f)][c],
          i * f.sourceRate - left * f.targetRate, f.targetRate)
  }

  function OutputFrame(frames: seq<Frame>, f: Format, i: nat): (frame: Frame)
    requires f.Valid() && |frames| > 0
    requires forall frame :: frame in frames ==> |frame| == f.channels
    ensures |frame| == f.channels
  {
    seq(f.channels, c requires 0 <= c < f.channels => Interpolated(frames, f, i, c))
  }

  /** The first m encoded output frames. */
  function Output(frames: seq<Frame>, f: Format, m: nat): (out: seq<seq<byte>>)
    requires f.Valid() && |frames| > 0
    requires forall frame :: frame in frames ==> |frame| == f.channels
    ensures |out| == m && AllOf(out, f.FrameWidth())
  {
    seq(m, i requires 0 <= i < m => EncodedFrame(OutputFrame(frames, f, i), f))
  }

  function Resampled(buffer: seq<byte>, f: Format): seq<byte>
    requires f.Valid()
  {
    var frames := Frames(buffer, f);
    if |frames| == 0 then [] else Join(Output(frames, f, TargetCount(|frames|, f)))
  }

  // ----- The loops of the program ---------------------------------------------------------------

  /** Where the sample of frame i, channel c starts in a buffer. */
  function Offset(i: nat, c: nat, f: Format): nat
    requires f.Valid()
  {
    Times(i, f.FrameWidth()) + Times(c, f.width)
  }

  /** A sample of the frame view, found by cutting twice. */
  lemma FrameCell(buffer: seq<byte>, f: Format, i: nat, c: nat)
    requires f.Valid() && i < |Frames(buffer, f)| && c < f.channels
    ensures i < |Cut(buffer, f.FrameWidth())| && |Cut(buffer, f.FrameWidth())[i]| == f.FrameWidth()
    ensures var cells := Cut(Cut(buffer, f.FrameWidth())[i], f.width);
            c < |cells| && DecodeSample(cells[c]) == Frames(buffer, f)[i][c]
  {
    hide Times, DecodeSample, Format.FrameWidth;
    var block := Cut(buffer, f.FrameWidth())[i];
    WidthIs(f);
    CutTimes(block, f.channels, f.width);
  }

  lemma WidthIs(f: Format)
    requires f.Valid()
    ensures f.FrameWidth() == Times(f.channels, f.width)
  {
  }

  /** The sample decoded at that offset is the one of the frame view. */
  lemma SampleOffset(buffer: seq<byte>, f: Format, i: nat, c: nat)
    requires f.Valid() && i < |Frames(buffer, f)| && c < f.channels
    ensures Offset(i, c, f) + f.width <= |buffer|
    ensures DecodeSample(buffer[Offset(i, c, f)..Offset(i, c, f) + f.width]) == Frames(buffer, f)[i][c]
  {
    hide Frames, Times, DecodeSample, Format.FrameWidth;
    FrameCell(buffer, f, i, c);
    var block := Cut(buffer, f.FrameWidth())[i];
    CutAt(buffer, f.FrameWidth(), i);
    CutAt(block, f.width, c);
    TimesLe(c + 1, f.channels, f.width);
    SliceOfBlock(buffer, Times(i, f.FrameWidth()), f.FrameWidth(), block, Times(c, f.width), f.width);
  }

  /** From position low up to high the output holds what is expected there. */
  ghost predicate Holds(output: seq<byte>, expected: seq<byte>, low: nat, high: nat) {
    high <= |output| && high <= |expected| && forall k :: low <= k < high ==> output[k] == expected[k]
  }

  /** Writes the code of one sample at its offset in the output. */
  method WriteSample(output: array<byte>, offset: nat, code: seq<byte>, ghost expected: seq<byte>)
    requires offset + |code| <= output.Length && offset + |code| <= |expected|
    requires Holds(output[..], expected, 0, offset) && code == expected[offset..offset + |code|]
    modifies output
    ensures Holds(output[..], expected, 0, offset + |code|)
  {
    for k := 0 to |code|
      invariant Holds(output[..], expected, 0, offset + k)
    {
      output[offset + k] := code[k];
    }
  }

  lemma FrameCountIs(buffer: seq<byte>, f: Format)
    requires f.Valid()
    ensures |Frames(buffer, f)| == |buffer| / f.FrameWidth()
  {
    CutCount(buffer, f.FrameWidth());
  }

  method ResamplePcmLinear(buffer: seq<byte>, f: Format) returns (result: seq<byte>)
    requires f.Valid()
    ensures result == Resampled(buffer, f)
  {
    hide Resampled, Frames, TargetCount, Format.FrameWidth;
    var frameWidth := f.FrameWidth();
    var frameCount := |buffer| / frameWidth;
    FrameCountIs(buffer, f);
    if frameCount == 0 {
      NoFrames(buffer, f);
      return [];
    }
    var targetCount := TargetCount(frameCount, f);
    var output := new byte[Times(targetCount, frameWidth)](_ => 0);
    ghost var expected := Resampled(buffer, f);
    ResampledLength(buffer, f);
    for outputIndex := 0 to targetCount
      invariant Times(outputIndex, frameWidth) <= output.Length
      invariant Holds(output[..], expected, 0, Times(outputIndex, frameWidth))
    {
      TimesLe(outputIndex + 1, targetCount, frameWidth);
      FillFrame(buffer, f, frameCount, outputIndex, output, expected);
    }
    result := output[..];
    HoldsAll(result, expected);
  }

  lemma NoFrames(buffer: seq<byte>, f: Format)
    requires f.Valid() && Frames(buffer, f) == []
    ensures Resampled(buffer, f) == []
  {
  }

  lemma HoldsAll(output: seq<byte>, expected: seq<byte>)
    requires |output| == |expected| && Holds(output, expected, 0, |output|)
    ensures output == expected
  {
  }

  lemma ResampledLength(buffer: seq<byte>, f: Format)
    requires f.Valid() && |Frames(buffer, f)| > 0
    ensures |Resampled(buffer, f)| == Times(TargetCount(|Frames(buffer, f)|, f), f.FrameWidth())
  {
    JoinLength(Output(Frames(buffer, f), f, TargetCount(|Frames(buffer, f)|, f)), f.FrameWidth());
  }

  /** One turn of the outer loop: every channel of one output frame. */
  method FillFrame(
    buffer: seq<byte>, f: Format, frameCount: nat, i: nat, output: array<byte>, ghost expected: seq<byte>)
    requires f.Valid() && frameCount == |Frames(buffer, f)| > 0 && i < TargetCount(frameCount, f)
    requires expected == Resampled(buffer, f) && |expected| == output.Length
    requires Holds(output[..], expected, 0, Times(i, f.FrameWidth()))
    modifies output
    ensures Holds(output[..], expected, 0, Times(i + 1, f.FrameWidth()))
  {
    hide Resampled, Frames, OutputFrame, Cells, TargetCount, EncodeSample;
    for c := 0 to f.channels
      invariant Holds(output[..], expected, 0, Offset(i, c, f))
    {
      var code := SampleCode(buffer, f, frameCount, i, c);
      ResampledAt(buffer, f, i, c);
      WriteSample(output, Offset(i, c, f), code, expected);
    }
  }

  /** The code found in the conversion at the offset of frame i, channel c. */
  lemma ResampledAt(buffer: seq<byte>, f: Format, i: nat, c: nat)
    requires f.Valid() && |Frames(buffer, f)| > 0 && i < TargetCount(|Frames(buffer, f)|, f) && c < f.channels
    ensures var o := Offset(i, c, f);
            && o + f.width <= |Resampled(buffer, f)|
            && Resampled(buffer, f)[o..o + f.width] == Cells(OutputFrame(Frames(buffer, f), f, i), f.width)[c]
  {
    hide Frames, OutputFrame, TargetCount, Join, Times;
    var frames := Frames(buffer, f);
    var blocks := Output(frames, f, TargetCount(|frames|, f));
    JoinInside(blocks, f.FrameWidth(), i, Cells(OutputFrame(frames, f, i), f.width), f.width, c);
  }

  lemma CodeIs(frames: seq<Frame>, f: Format, i: nat, c: nat)
    requires f.Valid() && |frames| > 0 && c < f.channels
    requires forall frame :: frame in frames ==> |frame| == f.channels
    ensures Cells(OutputFrame(frames, f, i), f.width)[c] == EncodeSample(Interpolated(frames, f, i, c), f.width)
  {
  }

  /** The code of one output sample, from the two source samples decoded at their byte offsets. */
  method SampleCode(buffer: seq<byte>, f: Format, frameCount: nat, i: nat, c: nat) returns (code: seq<byte>)
    requires f.Valid() && frameCount == |Frames(buffer, f)| > 0 && c < f.channels
    ensures code == Cells(OutputFrame(Frames(buffer, f), f, i), f.width)[c]
  {
    hide Frames, Times, Blend, DecodeSample, EncodeSample, Cells, OutputFrame, LeftIndex, RightIndex;
    CodeIs(Frames(buffer, f), f, i, c);
    var left := LeftIndex(i, frameCount, f);
    var right := RightIndex(i, frameCount, f);
    SampleOffset(buffer, f, left, c);
    SampleOffset(buffer, f, right, c);
    PartIs(i, frameCount, f);
    var leftSample := DecodeSample(buffer[Offset(left, c, f)..Offset(left, c, f) + f.width]);
    var rightSample := DecodeSample(buffer[Offset(right, c, f)..Offset(right, c, f) + f.width]);
    var value := Blend(leftSample, rightSample, i * f.sourceRate - left * f.targetRate, f.targetRate);
    code := EncodeSample(value, f.width);
  }

  /** The way from the left neighbour is never negative. */
  lemma PartIs(i: nat, n: nat, f: Format)
    requires f.Valid() && n > 0
    ensures i * f.sourceRate - LeftIndex(i, n, f) * f.targetRate >= 0
  {
    var t := f.targetRate;
    var position := i * f.sourceRate / t;
    DivMod(i * f.sourceRate, t);
    MulLe(LeftIndex(i, n, f), position, t);
  }

  // ----- Properties -----------------------------------------------------------------------------

  lemma DivLess(x: nat, n: nat, t: nat)
    requires t > 0 && x < n * t
    ensures x / t < n
  {
    var q := x / t;
    assert q * t + x % t == x;
    if q >= n {
      MulLe(n, q, t);
      assert false;
    }
  }

  /** The left-index guard never binds: every output position is inside the source. */
  lemma PositionInside(n: nat, f: Format, i: nat)
    requires f.Valid() && n > 0 && i < TargetCount(n, f)
    ensures i * f.sourceRate / f.targetRate <= n - 1
    ensures LeftIndex(i, n, f) == i * f.sourceRate / f.targetRate
  {
    var s, t := f.sourceRate, f.targetRate;
    if i > 0 {
      var count := RoundHalfEven(n * t, s);
      MulLe(i + 1, count, s);
      assert (i + 1) * s == i * s + s;
      DivLess(i * s, n, t);
    } else {
      DivLess(0 * s, n, t);
    }
  }

  lemma DivMod(x: nat, t: nat)
    requires t > 0
    ensures 0 <= x - x / t * t < t
  {
    assert x - x / t * t == x % t;
  }

  /** The offset from the left neighbour is a proper fraction of one source frame. */
  lemma PartInside(n: nat, f: Format, i: nat)
    requires f.Valid() && n > 0 && i < TargetCount(n, f)
    ensures 0 <= i * f.sourceRate - LeftIndex(i, n, f) * f.targetRate < f.targetRate
  {
    PositionInside(n, f, i);
    DivMod(i * f.sourceRate, f.targetRate);
  }

  lemma MulBetween(d: nat, part: nat, whole: nat)
    requires part <= whole
    ensures 0 <= d * part <= d * whole
  {
    MulLe(part, whole, d);
    assert part * d == d * part && whole * d == d * whole;
  }

  lemma MulSub(a: int, b: int, c: int)
    ensures (a - b) * c == a * c - b * c
  {
  }

  lemma BlendBetween(left: int, right: int, part: nat, whole: nat)
    requires part < whole
    ensures left <= Blend(left, right, part, whole) <= right || right <= Blend(left, right, part, whole) <= left
  {
    MulSub(right, left, part);
    MulSub(left, right, part);
    if left <= right {
      MulBetween(right - left, part, whole);
      MulSub(right, left, whole);
      RoundWithin(left * whole + (right - left) * part, whole, left, right);
    } else {
      MulBetween(left - right, part, whole);
      MulSub(left, right, whole);
      RoundWithin(left * whole + (right - left) * part, whole, right, left);
    }
  }

  lemma FramesInRange(buffer: seq<byte>, f: Format, i: nat, c: nat)
    requires f.Valid() && i < |Frames(buffer, f)| && c < f.channels
    ensures InRange(Frames(buffer, f)[i][c], f.width)
  {
    SampleOffset(buffer, f, i, c);
    var offset := Offset(i, c, f);
    DecodeInRange(buffer[offset..offset + f.width]);
  }

  /** An output sample lies between its two source neighbours, hence in range: the encoder never saturates. */
  lemma Between(buffer: seq<byte>, f: Format, i: nat, c: nat)
    requires f.Valid() && c < f.channels
    requires |Frames(buffer, f)| > 0 && i < TargetCount(|Frames(buffer, f)|, f)
    ensures var frames := Frames(buffer, f);
            var left, right := frames[LeftIndex(i, |frames|, f)][c], frames[RightIndex(i, |frames|, f)][c];
            var value := Interpolated(frames, f, i, c);
            (left <= value <= right || right <= value <= left) && InRange(value, f.width)
  {
    var frames := Frames(buffer, f);
    var n := |frames|;
    var l, r := LeftIndex(i, n, f), RightIndex(i, n, f);
    PartInside(n, f, i);
    BlendBetween(frames[l][c], frames[r][c], i * f.sourceRate - l * f.targetRate, f.targetRate);
    FramesInRange(buffer, f, l, c);
    FramesInRange(buffer, f, r, c);
  }

  /** Decoding an encoded frame gives it back when its samples are in range. */
  lemma DecodeEncodeFrame(frame: Frame, f: Format)
    requires f.Valid() && |frame| == f.channels
    requires forall c :: 0 <= c < f.channels ==> InRange(frame[c], f.width)
    ensures Decoded(EncodedFrame(frame, f), f) == frame
  {
    var cells := Cells(frame, f.width);
    CutJoin(cells, f.width);
    forall c | 0 <= c < f.channels
      ensures DecodeSample(cells[c]) == frame[c]
    {
      DecodeEncode(frame[c], f.width);
    }
  }

  /** Encoding a decoded frame gives its bytes back. */
  lemma EncodeDecodeFrame(bytes: seq<byte>, f: Format)
    requires f.Valid() && |bytes| == f.FrameWidth()
    ensures EncodedFrame(Decoded(bytes, f), f) == bytes
  {
    var cells := Cut(bytes, f.width);
    CutTimes(bytes, f.channels, f.width);
    forall c | 0 <= c < f.channels
      ensures Cells(Decoded(bytes, f), f.width)[c] == cells[c]
    {
      EncodeDecode(cells[c]);
    }
    assert Cells(Decoded(bytes, f), f.width) == cells;
    JoinCut(bytes, f.width);
    JoinLength(cells, f.width);
  }

  /** What the whole conversion is: the number of bytes, and the sample found at every place of the output. */
  lemma OutputFrames(buffer: seq<byte>, f: Format)
    requires f.Valid() && |Frames(buffer, f)| > 0
    ensures var frames := Frames(buffer, f);
            var count := TargetCount(|frames|, f);
            && |Resampled(buffer, f)| == Times(count, f.FrameWidth())
            && Frames(Resampled(buffer, f), f) == seq(count, i requires 0 <= i < count => OutputFrame(frames, f, i))
  {
    var frames := Frames(buffer, f);
    var count := TargetCount(|frames|, f);
    var blocks := Output(frames, f, count);
    CutJoin(blocks, f.FrameWidth());
    JoinLength(blocks, f.FrameWidth());
    forall i | 0 <= i < count
      ensures Decoded(blocks[i], f) == OutputFrame(frames, f, i)
    {
      forall c | 0 <= c < f.channels
        ensures InRange(OutputFrame(frames, f, i)[c], f.width)
      {
        Between(buffer, f, i, c);
      }
      DecodeEncodeFrame(OutputFrame(frames, f, i), f);
    }
  }

  /** v is the integer nearest to num / den, the even one of two that are equally near. */
  predicate IsNearest(v: int, num: int, den: int) {
    && -den <= 2 * (num - v * den) <= den
    && (2 * (num - v * den) == den || 2 * (num - v * den) == -den ==> v % 2 == 0)
  }

  /** A source position inside the last frame has no right neighbour but itself. */
  function Neighbour(left: nat, n: nat): nat {
    if left + 1 < n then left + 1 else left
  }

  lemma BlendNearest(left: int, right: int, part: int, whole: nat)
    requires whole > 0
    ensures IsNearest(Blend(left, right, part, whole), left * (whole - part) + right * part, whole)
  {
    assert left * whole + (right - left) * part == left * (whole - part) + right * part;
  }

  /** v is the integer nearest to the point, place / t frames into the source, of the straight line through the two
      source samples around it. */
  predicate OnLine(v: int, frames: seq<Frame>, c: nat, place: nat, t: nat)
    requires t > 0
  {
    var left, part := place / t, place % t;
    var right := Neighbour(left, |frames|);
    && left < |frames| && c < |frames[left]| && c < |frames[right]|
    && IsNearest(v, frames[left][c] * (t - part) + frames[right][c] * part, t)
  }

  function SampleAt(buffer: seq<byte>, f: Format, i: nat, c: nat): int
    requires f.Valid() && c < f.channels && i < |Frames(buffer, f)|
  {
    var frame := Frames(buffer, f)[i];
    assert frame in Frames(buffer, f);
    frame[c]
  }

  lemma InterpolatedOnLine(frames: seq<Frame>, f: Format, i: nat, c: nat)
    requires f.Valid() && c < f.channels && |frames| > 0 && i < TargetCount(|frames|, f)
    requires forall frame :: frame in frames ==> |frame| == f.channels
    ensures OnLine(Interpolated(frames, f, i, c), frames, c, i * f.sourceRate, f.targetRate)
  {
    hide Blend, IsNearest, TargetCount;
    var n := |frames|;
    var left := LeftIndex(i, n, f);
    PositionInside(n, f, i);
    var p := i * f.sourceRate;
    assert p - left * f.targetRate == p % f.targetRate;
    BlendNearest(frames[left][c], frames[Neighbour(left, n)][c], p % f.targetRate, f.targetRate);
  }

  /** Sample i of every channel of out lies, up to rounding, on the line through the source samples around the place
      i * source / target. */
  ghost predicate Interpolates(out: seq<byte>, buffer: seq<byte>, f: Format)
    requires f.Valid()
  {
    forall i: nat, c: nat :: i < |Frames(out, f)| && c < f.channels ==>
      OnLine(SampleAt(out, f, i, c), Frames(buffer, f), c, i * f.sourceRate, f.targetRate)
  }

  /** The conversion is linear interpolation. */
  lemma OnTheLine(buffer: seq<byte>, f: Format)
    requires f.Valid()
    ensures Interpolates(Resampled(buffer, f), buffer, f)
  {
    hide Resampled, OnLine, Frames, Interpolated, TargetCount;
    var out := Resampled(buffer, f);
    if |Frames(buffer, f)| == 0 {
      NoFrames(buffer, f);
      EmptyFrames(f);
    } else {
      OutputFrames(buffer, f);
      forall i: nat, c: nat | i < |Frames(out, f)| && c < f.channels
        ensures OnLine(SampleAt(out, f, i, c), Frames(buffer, f), c, i * f.sourceRate, f.targetRate)
      {
        InterpolatedOnLine(Frames(buffer, f), f, i, c);
      }
    }
  }

  lemma EmptyFrames(f: Format)
    requires f.Valid()
    ensures Frames([], f) == []
  {
  }

  /** The number of output frames is the integer nearest to n * target / source, and at least one. */
  lemma OutputCount(buffer: seq<byte>, f: Format)
    requires f.Valid()
    ensures var n, count := |Frames(buffer, f)|, |Frames(Resampled(buffer, f), f)|;
            && (count == 0 <==> n == 0)
            && (n > 0 && count > 1 ==> IsNearest(count, n * f.targetRate, f.sourceRate))
            && (n > 0 && count == 1 ==> exists near :: near <= 1 && IsNearest(near, n * f.targetRate, f.sourceRate))
  {
    var n := |Frames(buffer, f)|;
    hide Frames, Resampled;
    if n == 0 {
      NoFrames(buffer, f);
      EmptyFrames(f);
    } else {
      OutputFrames(buffer, f);
      assert IsNearest(RoundHalfEven(n * f.targetRate, f.sourceRate), n * f.targetRate, f.sourceRate);
    }
  }

  /** The bytes of the whole frames of a buffer. */
  function WholeFrames(buffer: seq<byte>, f: Format): (whole: seq<byte>)
    requires f.Valid()
    ensures whole <= buffer && |buffer| - |whole| < f.FrameWidth()
  {
    JoinCut(buffer, f.FrameWidth());
    Join(Cut(buffer, f.FrameWidth()))
  }

  /** Up by a whole factor and back: every byte of every whole frame returns. */
  lemma RoundTrip(buffer: seq<byte>, channels: nat, width: nat, rate: nat, k: nat)
    requires channels > 0 && ValidWidth(width) && rate > 0 && k > 0
    ensures Format(channels, width, rate, k * rate).Valid() && Format(channels, width, k * rate, rate).Valid()
    ensures var up, down := Format(channels, width, rate, k * rate), Format(channels, width, k * rate, rate);
            Resampled(Resampled(buffer, up), down) == WholeFrames(buffer, up)
  {
    assert k * rate > 0;
    var up, down := Format(channels, width, rate, k * rate), Format(channels, width, k * rate, rate);
    RoundTripOf(buffer, up, down, k);
  }

  lemma RoundTripOf(buffer: seq<byte>, up: Format, down: Format, k: nat)
    requires up.Valid() && down.Valid() && k > 0 && up.targetRate == k * up.sourceRate
    requires down == up.(sourceRate := up.targetRate, targetRate := up.sourceRate)
    ensures Resampled(Resampled(buffer, up), down) == WholeFrames(buffer, up)
  {
    hide Times, Format.FrameWidth, TargetCount, OutputFrame;
    var frames := Frames(buffer, up);
    if |frames| == 0 {
      NoFrames(buffer, up);
      NoBlocks(buffer, up, down);
    } else {
      var high := Resampled(buffer, up);
      BackIsWhole(buffer, up, down, k);
      hide Frames, Output;
      assert Resampled(high, down) == Join(Output(Frames(high, down), down, |frames|));
    }
  }

  lemma NoBlocks(buffer: seq<byte>, up: Format, down: Format)
    requires up.Valid() && down.Valid() && |Frames(buffer, up)| == 0
    ensures Resampled([], down) == [] && WholeFrames(buffer, up) == []
  {
    assert Frames([], down) == [];
  }

  /** Coming back, the frames of the source are those converted, and their codes are its bytes. */
  lemma BackIsWhole(buffer: seq<byte>, up: Format, down: Format, k: nat)
    requires up.Valid() && down.Valid() && k > 0 && up.targetRate == k * up.sourceRate
    requires down == up.(sourceRate := up.targetRate, targetRate := up.sourceRate) && |Frames(buffer, up)| > 0
    ensures var high, n := Frames(Resampled(buffer, up), down), |Frames(buffer, up)|;
            && |high| > 0 && TargetCount(|high|, down) == n && Output(high, down, n) == Cut(buffer, up.FrameWidth())
  {
    hide Times, Resampled, Format.FrameWidth, Interpolated, OutputFrame;
    var frames, n := Frames(buffer, up), |Frames(buffer, up)|;
    Counts(n, up.sourceRate, k);
    OutputFrames(buffer, up);
    var high := Frames(Resampled(buffer, up), up);
    SameFrames(Resampled(buffer, up), up, down);
    var blocks := Cut(buffer, up.FrameWidth());
    SameWidth(up, down);
    forall i | 0 <= i < n
      ensures |high| > 0 && Output(high, down, n)[i] == blocks[i]
    {
      RoundTripFrame(frames, high, up, down, k, i);
      EncodeDecodeFrame(blocks[i], up);
      SameCode(frames[i], up, down);
    }
  }

  lemma SameWidth(f: Format, g: Format)
    requires f.channels == g.channels && f.width == g.width && f.Valid() && g.Valid()
    ensures f.FrameWidth() == g.FrameWidth()
  {
  }

  lemma SameCode(frame: Frame, f: Format, g: Format)
    requires f.channels == g.channels && f.width == g.width && f.Valid() && g.Valid() && |frame| == f.channels
    ensures EncodedFrame(frame, f) == EncodedFrame(frame, g)
  {
  }

  /** The frame view does not depend on the rates. */
  lemma SameFrames(buffer: seq<byte>, f: Format, g: Format)
    requires f.Valid() && g.Valid() && f.channels == g.channels && f.width == g.width
    ensures Frames(buffer, f) == Frames(buffer, g)
  {
  }

  lemma Counts(n: nat, rate: nat, k: nat)
    requires n > 0 && rate > 0 && k > 0
    ensures RoundHalfEven(n * (k * rate), rate) == n * k
    ensures RoundHalfEven((n * k) * rate, k * rate) == n
    ensures n * k >= 1
  {
    MulAssoc(n, k, rate);
    RoundExact(n * k, rate);
    RoundExact(n, k * rate);
  }

  lemma MulAssoc(a: int, b: int, c: int)
    ensures a * (b * c) == (a * b) * c
  {
  }

  /** A position that is a whole number of source frames reproduces that frame. */
  lemma OnFrame(frames: seq<Frame>, f: Format, i: nat, j: nat)
    requires f.Valid() && j < |frames| && i * f.sourceRate == j * f.targetRate
    requires forall frame :: frame in frames ==> |frame| == f.channels
    ensures OutputFrame(frames, f, i) == frames[j]
  {
    MulDiv(j, f.targetRate);
    assert LeftIndex(i, |frames|, f) == j;
    forall c | 0 <= c < f.channels
      ensures Interpolated(frames, f, i, c) == frames[j][c]
    {
      var right := frames[RightIndex(i, |frames|, f)][c];
      assert (right - frames[j][c]) * 0 == 0;
      RoundExact(frames[j][c], f.targetRate);
    }
  }

  lemma RoundTripFrame(frames: seq<Frame>, high: seq<Frame>, up: Format, down: Format, k: nat, i: nat)
    requires up.Valid() && down.Valid() && k > 0 && i < |frames|
    requires down == up.(sourceRate := up.targetRate, targetRate := up.sourceRate)
    requires up.targetRate == k * up.sourceRate
    requires forall frame :: frame in frames ==> |frame| == up.channels
    requires |high| == |frames| * k && forall j :: 0 <= j < |high| ==> high[j] == OutputFrame(frames, up, j)
    ensures |high| > 0 && (forall frame :: frame in high ==> |frame| == up.channels)
    ensures OutputFrame(high, down, i) == frames[i]
  {
    MulLe(i + 1, |frames|, k);
    assert (i + 1) * k == i * k + k;
    assert i * k < |high|;
    MulAssoc(i, k, up.sourceRate);
    OnFrame(high, down, i, i * k);
    OnFrame(frames, up, i * k, i);
  }
}
