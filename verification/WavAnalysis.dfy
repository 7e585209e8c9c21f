/** Chunked signal statistics of a PCM16 recording, channel by channel. */
module WavAnalysis {
  import opened Blocks
  import opened Options
  import opened Pcm
  import opened Resampler

  // ----- What is measured -----------------------------------------------------------------------

  function Abs(x: int): nat {
    if x < 0 then -x else x
  }

  /** The least magnitude that counts as clipped; see ClippedAt. */
  const CLIPPED: nat := 32736

  lemma ClippedAt(sample: int)
    ensures Abs(sample) as real / 32768.0 >= 0.999 <==> Abs(sample) >= CLIPPED
  {
  }

  function Max(a: nat, b: nat): nat {
    if a < b then b else a
  }

  function Peak(signal: seq<int>): nat {
    if signal == [] then 0 else Max(Peak(signal[..|signal| - 1]), Abs(signal[|signal| - 1]))
  }

  function Square(x: int): nat {
    Abs(x) * Abs(x)
  }

  function Energy(signal: seq<int>): nat {
    if signal == [] then 0 else Energy(signal[..|signal| - 1]) + Square(signal[|signal| - 1])
  }

  function Clips(signal: seq<int>): nat {
    if signal == [] then 0
    else Clips(signal[..|signal| - 1]) + (if Abs(signal[|signal| - 1]) >= CLIPPED then 1 else 0)
  }

  /** One channel of the first n frames. */
  function Signal(frames: seq<Frame>, c: nat, n: nat): (signal: seq<int>)
    requires n <= |frames| && forall i :: 0 <= i < |frames| ==> c < |frames[i]|
    ensures |signal| == n && forall i :: 0 <= i < n ==> signal[i] == frames[i][c]
  {
    if n == 0 then [] else Signal(frames, c, n - 1) + [frames[n - 1][c]]
  }

  /** Peak and energy are in units of 1/32768 and its square. */
  datatype ChannelStats = ChannelStats(peak: nat, energy: nat, clips: nat, count: nat) {
    predicate ZeroSignal() {
      peak == 0
    }

    predicate ClippingDetected() {
      clips > 0
    }
  }

  function StatsOf(signal: seq<int>): ChannelStats {
    ChannelStats(Peak(signal), Energy(signal), Clips(signal), |signal|)
  }

  // ----- Outcome of an analysis -----------------------------------------------------------------

  datatype Header = Header(channels: nat, rate: nat, width: nat, declared: nat, compressed: bool)

  datatype Problem = Compression | BadMetadata | PartialFrame | WrongFrameCount

  datatype Analysis = Rejected(problem: Problem) | Unsupported | Analyzed(channels: seq<ChannelStats>)

  function Pcm16(channels: nat): Format {
    Format(channels, 2, 1, 1)
  }

  /** The result for a recording, whatever the size of the chunks it is read in. */
  ghost predicate IsAnalysis(header: Header, data: seq<byte>, result: Analysis) {
    if header.compressed then result == Rejected(Compression)
    else if header.channels == 0 || header.rate == 0 then result == Rejected(BadMetadata)
    else if header.width != 2 then result == Unsupported
    else
      var f := Pcm16(header.channels);
      var frames := Frames(data, f);
      if WholeLength(|data|, f.FrameWidth()) != |data| then result == Rejected(PartialFrame)
      else if |frames| != header.declared then result == Rejected(WrongFrameCount)
      else result.Analyzed? && |result.channels| == header.channels
           && forall c :: 0 <= c < header.channels ==> result.channels[c] == StatsOf(Signal(frames, c, |frames|))
  }

  // ----- The program ----------------------------------------------------------------------------

  /** The lists the loops update in place. */
  class Accumulators {
    const channels: nat
    const peaks: array<nat>
    const sums: array<nat>
    const clippingCounts: array<nat>
    const sampleCounts: array<nat>

    constructor (channels: nat)
      ensures Valid() && this.channels == channels
      ensures fresh(peaks) && fresh(sums) && fresh(clippingCounts) && fresh(sampleCounts)
      ensures forall c :: 0 <= c < channels ==> At(c) == ChannelStats(0, 0, 0, 0)
    {
      this.channels := channels;
      peaks := new nat[channels](_ => 0);
      sums := new nat[channels](_ => 0);
      clippingCounts := new nat[channels](_ => 0);
      sampleCounts := new nat[channels](_ => 0);
    }

    predicate Valid() {
      && peaks.Length == sums.Length == clippingCounts.Length == sampleCounts.Length == channels
      && peaks != sums && peaks != clippingCounts && peaks != sampleCounts
      && sums != clippingCounts && sums != sampleCounts && clippingCounts != sampleCounts
    }

    function At(c: nat): ChannelStats
      requires Valid() && c < channels
      reads peaks, sums, clippingCounts, sampleCounts
    {
      ChannelStats(peaks[c], sums[c], clippingCounts[c], sampleCounts[c])
    }

    method Add(c: nat, sample: int)
      requires Valid() && c < channels
      modifies peaks, sums, clippingCounts, sampleCounts
      ensures At(c) == Extended(old(At(c)), sample)
      ensures forall k :: 0 <= k < channels && k != c ==> At(k) == old(At(k))
    {
      peaks[c] := Max(peaks[c], Abs(sample));
      sums[c] := sums[c] + Square(sample);
      sampleCounts[c] := sampleCounts[c] + 1;
      if Abs(sample) >= CLIPPED {
        clippingCounts[c] := clippingCounts[c] + 1;
      }
    }

    /** Channels below c have n + 1 samples of the frames, the others n. */
    ghost predicate Holds(frames: seq<Frame>, n: nat, c: nat)
      requires Valid() && c <= channels && n <= |frames| && (c > 0 ==> n < |frames|)
      requires forall i :: 0 <= i < |frames| ==> |frames[i]| == channels
      reads peaks, sums, clippingCounts, sampleCounts
    {
      forall k :: 0 <= k < channels ==> At(k) == StatsOf(Signal(frames, k, if k < c then n + 1 else n))
    }

    /** One frame of raw bytes, channel after channel. */
    method AddFrame(raw: seq<byte>, start: nat, ghost frames: seq<Frame>, ghost n: nat)
      requires Valid() && start + Times(channels, 2) <= |raw|
      requires n < |frames| && forall i :: 0 <= i < |frames| ==> |frames[i]| == channels
      requires forall c: nat :: c < channels ==> SampleIn(raw, start, c) == frames[n][c]
      requires Holds(frames, n, 0)
      modifies peaks, sums, clippingCounts, sampleCounts
      ensures Holds(frames, n + 1, 0)
    {
      var offset := start;
      for c := 0 to channels
        invariant offset == start + Times(c, 2)
        invariant Holds(frames, n, c)
      {
        TimesLe(c + 1, channels, 2);
        var sample := DecodeSample(raw[offset..offset + 2]);
        assert sample == SampleIn(raw, start, c);
        Add(c, sample);
        offset := offset + 2;
        StatsOfNext(frames, c, n);
      }
    }
  }

  /** The sample of channel c in the frame that starts here. */
  function SampleIn(raw: seq<byte>, start: nat, c: nat): int {
    var offset := start + Times(c, 2);
    if offset + 2 <= |raw| then DecodeSample(raw[offset..offset + 2]) else 0
  }

  function Extended(s: ChannelStats, sample: int): ChannelStats {
    ChannelStats(Max(s.peak, Abs(sample)), s.energy + Square(sample),
                 s.clips + (if Abs(sample) >= CLIPPED then 1 else 0), s.count + 1)
  }

  lemma StatsOfNext(frames: seq<Frame>, c: nat, n: nat)
    requires n < |frames| && forall i :: 0 <= i < |frames| ==> c < |frames[i]|
    ensures StatsOf(Signal(frames, c, n + 1)) == Extended(StatsOf(Signal(frames, c, n)), frames[n][c])
  {
    var signal := Signal(frames, c, n + 1);
    assert signal[..n] == Signal(frames, c, n);
  }

  lemma FramesFit(data: seq<byte>, f: Format, n: nat)
    requires f.Valid() && Times(n, f.FrameWidth()) <= |data|
    ensures n <= |Frames(data, f)|
  {
    CutFits(data, f.FrameWidth(), n);
  }

  /** A chunk that starts after done whole frames. */
  ghost predicate ChunkAt(data: seq<byte>, f: Format, done: nat, chunk: seq<byte>)
    requires f.Valid()
  {
    var position := Times(done, f.FrameWidth());
    position + |chunk| <= |data| && chunk == data[position..position + |chunk|]
  }

  /** The sample the loops find in place j of a chunk is the one of the whole recording. */
  lemma ChunkSample(data: seq<byte>, channels: nat, done: nat, chunk: seq<byte>, j: nat, c: nat)
    requires c < channels && ChunkAt(data, Pcm16(channels), done, chunk)
    requires done + j < |Frames(data, Pcm16(channels))|
    requires Times(j, Pcm16(channels).FrameWidth()) + Times(c, 2) + 2 <= |chunk|
    ensures SampleIn(chunk, Times(j, Pcm16(channels).FrameWidth()), c) == Frames(data, Pcm16(channels))[done + j][c]
  {
    hide Frames, Times, DecodeSample, Format.FrameWidth;
    var f := Pcm16(channels);
    TimesAdd(done, j, f.FrameWidth());
    SampleOffset(data, f, done + j, c);
    SampleShift(data, chunk, Times(done, f.FrameWidth()), Times(j, f.FrameWidth()), c);
  }

  lemma ChunkFrame(data: seq<byte>, channels: nat, done: nat, chunk: seq<byte>, j: nat)
    requires channels > 0 && ChunkAt(data, Pcm16(channels), done, chunk)
    requires Times(j + 1, Pcm16(channels).FrameWidth()) <= |chunk|
    ensures done + j < |Frames(data, Pcm16(channels))|
    ensures Times(j, Pcm16(channels).FrameWidth()) + Times(channels, 2) <= |chunk|
    ensures forall c: nat :: c < channels ==>
      SampleIn(chunk, Times(j, Pcm16(channels).FrameWidth()), c) == Frames(data, Pcm16(channels))[done + j][c]
  {
    var f := Pcm16(channels);
    TimesAdd(done, j + 1, f.FrameWidth());
    FramesFit(data, f, done + (j + 1));
    hide Frames, SampleIn;
    forall c: nat | c < channels
      ensures SampleIn(chunk, Times(j, f.FrameWidth()), c) == Frames(data, f)[done + j][c]
    {
      TimesLe(c + 1, channels, 2);
      ChunkSample(data, channels, done, chunk, j, c);
    }
  }

  lemma SampleShift(data: seq<byte>, chunk: seq<byte>, position: nat, start: nat, c: nat)
    requires position + |chunk| <= |data| && chunk == data[position..position + |chunk|]
    requires start + Times(c, 2) + 2 <= |chunk|
    ensures SampleIn(chunk, start, c) == SampleIn(data, position + start, c)
  {
    hide DecodeSample;
    SliceOfSlice(data, position, position + |chunk|, start + Times(c, 2), start + Times(c, 2) + 2);
  }

  /** Reads at most chunkFrames frames at a time and never keeps more than one chunk. */
  method AnalyzeWave(header: Header, data: seq<byte>, chunkFrames: nat) returns (result: Analysis)
    requires chunkFrames >= 1
    ensures IsAnalysis(header, data, result)
  {
    if header.compressed {
      return Rejected(Compression);
    }
    if header.channels == 0 || header.rate == 0 {
      return Rejected(BadMetadata);
    }
    if header.width != 2 {
      return Unsupported;
    }
    var f := Pcm16(header.channels);
    ghost var frames := Frames(data, f);
    var lists := new Accumulators(header.channels);
    var framesRead := ReadAll(lists, f, data, chunkFrames, frames);
    if framesRead.None? {
      return Rejected(PartialFrame);
    }
    if framesRead.value != header.declared {
      return Rejected(WrongFrameCount);
    }
    var channels := Collect(lists, frames);
    result := Analyzed(channels);
  }

  /** The chunk loop: the number of frames read, or nothing when a chunk ends inside a frame. */
  method ReadAll(lists: Accumulators, f: Format, data: seq<byte>, chunkFrames: nat, ghost frames: seq<Frame>)
    returns (count: Option<nat>)
    requires chunkFrames >= 1 && lists.Valid() && lists.channels > 0 && f == Pcm16(lists.channels)
    requires frames == Frames(data, f) && lists.Holds(frames, 0, 0)
    modifies lists.peaks, lists.sums, lists.clippingCounts, lists.sampleCounts
    ensures count.None? <==> WholeLength(|data|, f.FrameWidth()) != |data|
    ensures count.Some? ==> count.value == |frames| && lists.Holds(frames, |frames|, 0)
  {
    hide Frames, Accumulators.Holds, Format.FrameWidth, Times;
    var bytesPerFrame := f.FrameWidth();
    NoTimes(bytesPerFrame);
    var chunkBytes := Times(chunkFrames, bytesPerFrame);
    TimesLe(1, chunkFrames, bytesPerFrame);
    var framesRead: nat := 0;
    var position: nat := 0;
    while position < |data|
      invariant position == Times(framesRead, bytesPerFrame) <= |data| && framesRead <= |frames|
      invariant lists.Holds(frames, framesRead, 0)
    {
      var raw := data[position..position + Min(chunkBytes, |data| - position)];
      WholeDivMod(|raw|, bytesPerFrame);
      if |raw| % bytesPerFrame != 0 {
        PartialChunk(|data|, framesRead, |raw|, chunkFrames, bytesPerFrame);
        return None;
      }
      var frameCount := |raw| / bytesPerFrame;
      AddChunk(lists, f, data, raw, framesRead, frameCount, frames);
      TimesAdd(framesRead, frameCount, bytesPerFrame);
      assert Times(frameCount, bytesPerFrame) == |raw|;
      framesRead := framesRead + frameCount;
      position := position + |raw|;
    }
    WholeLengthTimes(framesRead, bytesPerFrame);
    AllFramesRead(data, f, framesRead);
    return Some(framesRead);
  }

  lemma NoTimes(size: nat)
    ensures Times(0, size) == 0 && Times(1, size) == size
  {
  }

  lemma AllFramesRead(data: seq<byte>, f: Format, n: nat)
    requires f.Valid() && Times(n, f.FrameWidth()) == |data|
    ensures |Frames(data, f)| == n
  {
    CutFits(data, f.FrameWidth(), n);
    CutFits(data, f.FrameWidth(), n + 1);
  }

  /** A chunk with a partial frame is the last one, so the recording has a partial frame. */
  lemma PartialChunk(total: nat, done: nat, length: nat, chunkFrames: nat, size: nat)
    requires size > 0 && Times(done, size) < total && WholeLength(length, size) != length
    requires length == Min(Times(chunkFrames, size), total - Times(done, size))
    ensures WholeLength(total, size) != total
  {
    WholeLengthTimes(chunkFrames, size);
    WholeLengthAfter(done, length, size);
  }

  method AddChunk(lists: Accumulators, f: Format, ghost data: seq<byte>, raw: seq<byte>, ghost framesRead: nat,
                  frameCount: nat, ghost frames: seq<Frame>)
    requires f == Pcm16(lists.channels) && lists.channels > 0 && frames == Frames(data, f) && lists.Valid()
    requires ChunkAt(data, f, framesRead, raw) && |raw| == Times(frameCount, f.FrameWidth())
    requires framesRead <= |frames| && lists.Holds(frames, framesRead, 0)
    modifies lists.peaks, lists.sums, lists.clippingCounts, lists.sampleCounts
    ensures framesRead + frameCount <= |frames| && lists.Holds(frames, framesRead + frameCount, 0)
  {
    hide Frames, Accumulators.Holds, Format.FrameWidth, SampleIn;
    var start := 0;
    for j := 0 to frameCount
      invariant start == Times(j, f.FrameWidth()) && framesRead + j <= |frames|
      invariant lists.Holds(frames, framesRead + j, 0)
    {
      TimesLe(j + 1, frameCount, f.FrameWidth());
      ChunkFrame(data, lists.channels, framesRead, raw, j);
      lists.AddFrame(raw, start, frames, framesRead + j);
      start := start + f.FrameWidth();
    }
  }

  method Collect(lists: Accumulators, ghost frames: seq<Frame>) returns (channels: seq<ChannelStats>)
    requires lists.Valid() && forall i :: 0 <= i < |frames| ==> |frames[i]| == lists.channels
    requires lists.Holds(frames, |frames|, 0)
    ensures |channels| == lists.channels
    ensures forall c :: 0 <= c < lists.channels ==> channels[c] == StatsOf(Signal(frames, c, |frames|))
  {
    channels := [];
    for c := 0 to lists.channels
      invariant |channels| == c
      invariant forall k :: 0 <= k < c ==> channels[k] == StatsOf(Signal(frames, k, |frames|))
    {
      channels := channels + [lists.At(c)];
    }
  }

  // ----- What the statistics mean ---------------------------------------------------------------

  /** The peak is the largest magnitude in the signal. */
  lemma {:induction false} PeakIsMaximum(signal: seq<int>)
    ensures forall i :: 0 <= i < |signal| ==> Abs(signal[i]) <= Peak(signal)
    ensures signal != [] ==> exists i :: 0 <= i < |signal| && Abs(signal[i]) == Peak(signal)
    decreases |signal|
  {
    if signal != [] {
      var front := signal[..|signal| - 1];
      PeakIsMaximum(front);
      if Abs(signal[|signal| - 1]) >= Peak(front) {
        assert Abs(signal[|signal| - 1]) == Peak(signal);
      } else {
        var i :| 0 <= i < |front| && Abs(front[i]) == Peak(front);
        assert Abs(signal[i]) == Peak(signal);
      }
    }
  }

  /** The positions of the clipped samples. */
  ghost function ClippedPositions(signal: seq<int>): set<int> {
    set i | 0 <= i < |signal| && Abs(signal[i]) >= CLIPPED
  }

  lemma {:induction false} ClipsCountsPositions(signal: seq<int>)
    ensures Clips(signal) == |ClippedPositions(signal)|
    decreases |signal|
  {
    if signal != [] {
      var n := |signal| - 1;
      var front := signal[..n];
      ClipsCountsPositions(front);
      if Abs(signal[n]) >= CLIPPED {
        assert ClippedPositions(signal) == ClippedPositions(front) + {n};
      } else {
        assert ClippedPositions(signal) == ClippedPositions(front);
      }
    }
  }

  lemma SquareMonotone(a: nat, b: nat)
    requires a <= b
    ensures a * a <= b * b && (a > 0 ==> a * a >= a)
  {
  }

  /** Root mean square at most peak, in squares: energy <= count * peak^2. */
  lemma {:induction false} EnergyBelowPeak(signal: seq<int>, peak: nat)
    requires forall i :: 0 <= i < |signal| ==> Abs(signal[i]) <= peak
    ensures Energy(signal) <= Times(|signal|, peak * peak)
    decreases |signal|
  {
    if signal != [] {
      var front := signal[..|signal| - 1];
      EnergyBelowPeak(front, peak);
      SquareMonotone(Abs(signal[|signal| - 1]), peak);
    }
  }

  lemma {:induction false} EnergyAtLeastPeak(signal: seq<int>)
    ensures Peak(signal) <= Energy(signal)
    decreases |signal|
  {
    if signal != [] {
      var front, last := signal[..|signal| - 1], Abs(signal[|signal| - 1]);
      EnergyAtLeastPeak(front);
      SquareMonotone(last, last);
    }
  }

  function Products(a: seq<int>, b: seq<int>): int
    requires |a| == |b|
  {
    if a == [] then 0 else a[0] * b[0] + Products(a[1..], b[1..])
  }

  lemma {:induction false} ProductsMore(a: seq<int>, x: int)
    ensures Products(a + [x], a + [x]) == Products(a, a) + x * x
  {
    if a == [] {
      assert ([] + [x])[1..] == [];
    } else {
      assert (a + [x])[1..] == a[1..] + [x];
      ProductsMore(a[1..], x);
    }
  }

  /** The energy, whose mean the report shows as a root mean square, is the signal multiplied by itself. */
  lemma {:induction false} EnergyIsProducts(signal: seq<int>)
    ensures Energy(signal) == Products(signal, signal)
    decreases |signal|
  {
    if signal != [] {
      var front, last := signal[..|signal| - 1], signal[|signal| - 1];
      EnergyIsProducts(front);
      ProductsMore(front, last);
      assert signal == front + [last];
      assert Abs(last) * Abs(last) == last * last;
    }
  }

  /** What a report says about a channel: silence is all zeros, clipping is a peak at the threshold,
      the mean square lies between zero and the squared peak and is zero only in silence. */
  lemma ReportMeans(signal: seq<int>)
    ensures var s := StatsOf(signal);
            && (s.ZeroSignal() <==> forall i :: 0 <= i < |signal| ==> signal[i] == 0)
            && (s.ClippingDetected() <==> s.peak >= CLIPPED)
            && s.energy <= Times(s.count, s.peak * s.peak)
            && (s.energy == 0 <==> s.ZeroSignal())
            && s.clips <= s.count
  {
    PeakIsMaximum(signal);
    EnergyBelowPeak(signal, Peak(signal));
    EnergyAtLeastPeak(signal);
    ClipsVersusPeak(signal);
    if Peak(signal) == 0 {
      EnergyOfSilence(signal);
    }
  }

  lemma {:induction false} EnergyOfSilence(signal: seq<int>)
    requires Peak(signal) == 0
    ensures Energy(signal) == 0 && forall i :: 0 <= i < |signal| ==> signal[i] == 0
    decreases |signal|
  {
    if signal != [] {
      EnergyOfSilence(signal[..|signal| - 1]);
    }
  }

  lemma {:induction false} ClipsVersusPeak(signal: seq<int>)
    ensures Clips(signal) > 0 <==> Peak(signal) >= CLIPPED
    ensures Clips(signal) <= |signal|
    decreases |signal|
  {
    if signal != [] {
      ClipsVersusPeak(signal[..|signal| - 1]);
    }
  }

  /** Decoded samples stay within full scale, so no reported peak exceeds 1.0. */
  lemma {:induction false} PeakWithinFullScale(data: seq<byte>, channels: nat, c: nat, n: nat)
    requires c < channels && n <= |Frames(data, Pcm16(channels))|
    ensures Peak(Signal(Frames(data, Pcm16(channels)), c, n)) <= 32768
    decreases n
  {
    if n > 0 {
      hide Frames;
      var frames := Frames(data, Pcm16(channels));
      PeakWithinFullScale(data, channels, c, n - 1);
      FramesInRange(data, Pcm16(channels), n - 1, c);
      assert Half(2) == 256 * Half(1);
      var signal := Signal(frames, c, n);
      assert signal[..n - 1] == Signal(frames, c, n - 1);
    }
  }

  /** Two runs over the same recording report the same, whatever their chunk sizes. */
  lemma ChunkSizeIrrelevant(header: Header, data: seq<byte>, a: Analysis, b: Analysis)
    requires IsAnalysis(header, data, a) && IsAnalysis(header, data, b)
    ensures a == b
  {
    if a.Analyzed? {
      assert a.channels == b.channels;
    }
  }
}
