/** The rate cache of spoken prompts: validation, conversion and file-by-file replacement. */
module PromptCache {
  import opened Blocks
  import opened Options
  import opened Pcm
  import opened Resampler

  /** The spoken prompts, Front_Left and Front_Right, are known by their place in the list of file names. */
  const PROMPTS: nat := 2

  /** A file as the WAV reader meets it: declared is the data length in the header, data what is really there. */
  datatype WavFile =
    | Unreadable
    | Wav(channels: nat, width: nat, rate: nat, compressed: bool, declared: nat, data: seq<byte>)

  /** An accepted PCM stream. */
  datatype Stream = Stream(channels: nat, width: nat, rate: nat, frames: seq<byte>) {
    predicate Valid() {
      channels > 0 && ValidWidth(width) && rate > 0 && frames != []
    }

    function To(targetRate: Rate): Format {
      Format(channels, width, rate, targetRate)
    }
  }

  /** A rate a caller may ask for. */
  type Rate = r: nat | r > 0 witness 1

  /** A directory seen through the two file names; a missing file reads like a broken one. */
  type Files = files: seq<WavFile> | |files| == PROMPTS witness [Unreadable, Unreadable]

  const EMPTY: Files := [Unreadable, Unreadable]

  /** The bytes the reader delivers when asked for every frame the header declares. */
  function Delivered(file: WavFile): seq<byte>
    requires file.Wav? && file.channels > 0 && ValidWidth(file.width)
  {
    var frameWidth := Format(file.channels, file.width, 1, 1).FrameWidth();
    var wanted := WholeLength(file.declared, frameWidth);
    if wanted <= |file.data| then file.data[..wanted] else file.data
  }

  function ReadPcmWav(file: WavFile): (stream: Option<Stream>)
    ensures stream.Some? ==> stream.value.Valid()
  {
    if file.Unreadable? || file.channels == 0 || !ValidWidth(file.width) || file.rate == 0 then None
    else if file.compressed then None
    else if Delivered(file) == [] then None
    else Some(Stream(file.channels, file.width, file.rate, Delivered(file)))
  }

  function WritePcmWav(channels: nat, width: nat, rate: nat, frames: seq<byte>): WavFile {
    Wav(channels, width, rate, false, |frames|, frames)
  }

  function Converted(source: Stream, targetRate: Rate): WavFile
    requires source.Valid()
  {
    WritePcmWav(source.channels, source.width, targetRate,
                if source.rate == targetRate then source.frames else Resampled(source.frames, source.To(targetRate)))
  }

  predicate FileIsValid(file: WavFile, targetRate: Rate) {
    ReadPcmWav(file).Some? && ReadPcmWav(file).value.rate == targetRate
  }

  predicate CacheIsValid(cache: Files, targetRate: Rate) {
    forall i :: 0 <= i < PROMPTS ==> FileIsValid(cache[i], targetRate)
  }

  predicate SourcesReadable(sources: Files) {
    forall i :: 0 <= i < PROMPTS ==> ReadPcmWav(sources[i]).Some?
  }

  predicate AlreadyAtRate(sources: Files, targetRate: Rate) {
    forall i :: 0 <= i < PROMPTS ==> FileIsValid(sources[i], targetRate)
  }

  datatype Outcome = Failed | UseSources | UseCache(reused: bool)

  /** The cache after its first m prompts have been replaced by fresh conversions. */
  function Replaced(cache: Files, sources: Files, targetRate: Rate, m: nat): (files: Files)
    requires SourcesReadable(sources) && m <= PROMPTS
    ensures forall i :: 0 <= i < m ==> files[i] == Converted(ReadPcmWav(sources[i]).value, targetRate)
    ensures forall i :: m <= i < PROMPTS ==> files[i] == cache[i]
  {
    if m == 0 then cache
    else Replaced(cache, sources, targetRate, m - 1)[m - 1 := Converted(ReadPcmWav(sources[m - 1]).value, targetRate)]
  }

  /** One call; it stops, for whatever reason, before replacement number fault when there is such a number. */
  datatype Call = Call(target: Option<Rate>, fault: nat)

  function Prepare(cache: Files, sources: Files, call: Call): (Files, Outcome) {
    if !SourcesReadable(sources) then (cache, Failed)
    else if call.target.None? || AlreadyAtRate(sources, call.target.value) then (cache, UseSources)
    else if CacheIsValid(cache, call.target.value) then (cache, UseCache(true))
    else if call.fault < PROMPTS then (Replaced(cache, sources, call.target.value, call.fault), Failed)
    else (Replaced(cache, sources, call.target.value, PROMPTS), UseCache(false))
  }

  // ----- The program ----------------------------------------------------------------------------

  class CacheDirectory {
    var files: Files

    constructor ()
      ensures files == EMPTY
    {
      files := EMPTY;
    }

    /** The check reads prompt after prompt and gives up at the first that does not fit. */
    method CheckCache(targetRate: Rate) returns (valid: bool)
      ensures valid == CacheIsValid(files, targetRate)
    {
      for i := 0 to PROMPTS
        invariant forall j :: 0 <= j < i ==> FileIsValid(files[j], targetRate)
      {
        var stream := ReadPcmWav(files[i]);
        if stream.None? || stream.value.rate != targetRate {
          return false;
        }
      }
      return true;
    }

    static method ReadSources(sources: Files) returns (streams: Option<seq<Stream>>)
      ensures streams.Some? <==> SourcesReadable(sources)
      ensures streams.Some? ==> |streams.value| == PROMPTS
      ensures streams.Some? ==> forall i :: 0 <= i < PROMPTS ==> ReadPcmWav(sources[i]) == Some(streams.value[i])
    {
      var read: seq<Stream> := [];
      for i := 0 to PROMPTS
        invariant |read| == i
        invariant forall j :: 0 <= j < i ==> ReadPcmWav(sources[j]) == Some(read[j])
      {
        var stream := ReadPcmWav(sources[i]);
        if stream.None? {
          return None;
        }
        read := read + [stream.value];
      }
      return Some(read);
    }

    method PreparePromptWavs(sources: Files, call: Call) returns (outcome: Outcome)
      modifies this
      ensures (files, outcome) == Prepare(old(files), sources, call)
    {
      var streams := ReadSources(sources);
      if streams.None? {
        return Failed;
      }
      if call.target.None? || forall i :: 0 <= i < PROMPTS ==> streams.value[i].rate == call.target.value {
        return UseSources;
      }
      var valid := CheckCache(call.target.value);
      if valid {
        return UseCache(true);
      }
      var completed := ReplaceAll(sources, streams.value, call.target.value, call.fault);
      outcome := if completed then UseCache(false) else Failed;
    }

    /** Converts and replaces prompt after prompt, unless stopped before replacement number fault. */
    method ReplaceAll(ghost sources: Files, streams: seq<Stream>, targetRate: Rate, fault: nat)
      returns (completed: bool)
      requires SourcesReadable(sources) && |streams| == PROMPTS
      requires forall i :: 0 <= i < PROMPTS ==> ReadPcmWav(sources[i]) == Some(streams[i])
      modifies this
      ensures completed == (fault >= PROMPTS)
      ensures files == Replaced(old(files), sources, targetRate, if completed then PROMPTS else fault)
    {
      for i := 0 to PROMPTS
        invariant i <= fault
        invariant files == Replaced(old(files), sources, targetRate, i)
      {
        if i == fault {
          return false;
        }
        var source := streams[i];
        assert source.Valid();
        var converted := source.frames;
        if source.rate != targetRate {
          converted := ResamplePcmLinear(source.frames, source.To(targetRate));
        }
        files := files[i := WritePcmWav(source.channels, source.width, targetRate, converted)];
      }
      return true;
    }
  }

  // ----- Properties -----------------------------------------------------------------------------

  /** A file this code wrote for a source: the conversion at the rate in its own header. */
  predicate IsConversion(file: WavFile, source: Stream)
    requires source.Valid()
  {
    file.Wav? && file.rate > 0 && file == Converted(source, file.rate)
  }

  /** Every cached file is missing or the conversion of its source. */
  predicate Faithful(cache: Files, sources: Files) {
    forall i :: 0 <= i < PROMPTS && cache[i] != Unreadable ==>
      ReadPcmWav(sources[i]).Some? && IsConversion(cache[i], ReadPcmWav(sources[i]).value)
  }

  /** No call, completed or interrupted between or before its replacements, leaves a wrong file. */
  lemma PrepareFaithful(cache: Files, sources: Files, call: Call)
    requires Faithful(cache, sources)
    ensures Faithful(Prepare(cache, sources, call).0, sources)
  {
    hide Resampled, Delivered;
    var after := Prepare(cache, sources, call).0;
    forall i | 0 <= i < PROMPTS && after[i] != Unreadable
      ensures ReadPcmWav(sources[i]).Some? && IsConversion(after[i], ReadPcmWav(sources[i]).value)
    {
      if after[i] != cache[i] {
        assert after[i] == Converted(ReadPcmWav(sources[i]).value, call.target.value);
      }
    }
  }

  /** The cache after a whole history of calls at any rates, with any interruptions. */
  function Run(cache: Files, sources: Files, calls: seq<Call>): Files
    decreases |calls|
  {
    if calls == [] then cache else Run(Prepare(cache, sources, calls[0]).0, sources, calls[1..])
  }

  lemma {:induction false} RunFaithful(cache: Files, sources: Files, calls: seq<Call>)
    requires Faithful(cache, sources)
    ensures Faithful(Run(cache, sources, calls), sources)
    decreases |calls|
  {
    if calls != [] {
      PrepareFaithful(cache, sources, calls[0]);
      RunFaithful(Prepare(cache, sources, calls[0]).0, sources, calls[1..]);
    }
  }

  /** A valid faithful cache is what converting now would write. */
  lemma ValidIsRecomputed(cache: Files, sources: Files, targetRate: Rate)
    requires Faithful(cache, sources) && CacheIsValid(cache, targetRate) && SourcesReadable(sources)
    ensures cache == Replaced(EMPTY, sources, targetRate, PROMPTS)
  {
    hide Resampled, Delivered;
    var renewed := Replaced(EMPTY, sources, targetRate, PROMPTS);
    forall i | 0 <= i < PROMPTS
      ensures cache[i] == renewed[i]
    {
      assert FileIsValid(cache[i], targetRate);
    }
  }

  lemma ReplacedAll(cache: Files, sources: Files, targetRate: Rate)
    requires SourcesReadable(sources)
    ensures Replaced(cache, sources, targetRate, PROMPTS) == Replaced(EMPTY, sources, targetRate, PROMPTS)
  {
    hide Converted;
    var a, b := Replaced(cache, sources, targetRate, PROMPTS), Replaced(EMPTY, sources, targetRate, PROMPTS);
    assert forall i :: 0 <= i < PROMPTS ==> a[i] == b[i];
  }

  /** In every history, whatever answers from the cache answers what converting again would have written. */
  lemma ReuseIsRecomputation(sources: Files, calls: seq<Call>, call: Call)
    ensures var answer := Prepare(Run(EMPTY, sources, calls), sources, call);
            answer.1.UseCache? ==>
              && SourcesReadable(sources) && call.target.Some?
              && answer.0 == Replaced(EMPTY, sources, call.target.value, PROMPTS)
  {
    var cache := Run(EMPTY, sources, calls);
    RunFaithful(EMPTY, sources, calls);
    var answer := Prepare(cache, sources, call);
    if answer.1 == UseCache(true) {
      ValidIsRecomputed(cache, sources, call.target.value);
    } else if answer.1.UseCache? {
      ReplacedAll(cache, sources, call.target.value);
    }
  }

  /** An interrupted call leaves nothing behind that a later complete call does not repair. */
  lemma InterruptionRepaired(cache: Files, sources: Files, targetRate: Rate, fault: nat)
    requires Faithful(cache, sources) && SourcesReadable(sources) && !AlreadyAtRate(sources, targetRate)
    ensures var broken := Prepare(cache, sources, Call(Some(targetRate), fault)).0;
            Prepare(broken, sources, Call(Some(targetRate), PROMPTS)).0
            == Replaced(EMPTY, sources, targetRate, PROMPTS)
  {
    var call := Call(Some(targetRate), fault);
    var broken := Prepare(cache, sources, call).0;
    PrepareFaithful(cache, sources, call);
    if CacheIsValid(broken, targetRate) {
      ValidIsRecomputed(broken, sources, targetRate);
    } else {
      ReplacedAll(broken, sources, targetRate);
    }
  }

  // ----- What a call answers ----------------------------------------------------------------------

  /** The reader accepts exactly uncompressed files of whole-byte samples that deliver something, and delivers as much
      of their data as the whole frames they declare. */
  lemma ReadableIff(file: WavFile)
    ensures ReadPcmWav(file).Some? <==>
              && file.Wav? && !file.compressed && file.channels > 0 && 1 <= file.width <= 4 && file.rate > 0
              && file.data != [] && file.declared >= Times(file.channels, file.width)
    ensures ReadPcmWav(file).Some? ==>
              && ReadPcmWav(file).value.channels == file.channels && ReadPcmWav(file).value.width == file.width
              && ReadPcmWav(file).value.rate == file.rate && ReadPcmWav(file).value.frames <= file.data
              && (file.declared - |ReadPcmWav(file).value.frames| < Times(file.channels, file.width)
                  || ReadPcmWav(file).value.frames == file.data)
  {
  }

  predicate Readable(files: Files) {
    ReadPcmWav(files[0]).Some? && ReadPcmWav(files[1]).Some?
  }

  /** Both files say so in their own headers. */
  predicate AtRate(files: Files, rate: Rate) {
    files[0].Wav? && files[0].rate == rate && files[1].Wav? && files[1].rate == rate
  }

  lemma ChecksAre(files: Files, rate: Rate)
    ensures SourcesReadable(files) <==> Readable(files)
    ensures AlreadyAtRate(files, rate) <==> Readable(files) && AtRate(files, rate)
    ensures CacheIsValid(files, rate) <==> Readable(files) && AtRate(files, rate)
  {
    ReadableIff(files[0]);
    ReadableIff(files[1]);
    hide ReadPcmWav;
  }

  /** Exactly when a call fails, is answered by the sources themselves, by the cache as it is, or by a conversion. One
      source at another rate is enough for all of them to be converted. */
  lemma OutcomeIff(cache: Files, sources: Files, call: Call)
    ensures var (files, outcome) := Prepare(cache, sources, call);
            var readable := Readable(sources);
            var fits := call.target.None? || AtRate(sources, call.target.value);
            var held := call.target.Some? && Readable(cache) && AtRate(cache, call.target.value);
            && (outcome == UseSources <==> readable && fits)
            && (outcome == UseCache(true) <==> readable && !fits && held)
            && (outcome == UseCache(false) <==> readable && !fits && !held && call.fault >= PROMPTS)
            && (files != cache ==> readable && !fits && !held)
  {
    ChecksAre(sources, 1);
    if call.target.Some? {
      ChecksAre(sources, call.target.value);
      ChecksAre(cache, call.target.value);
    }
    hide SourcesReadable, AlreadyAtRate, CacheIsValid, Readable, AtRate, Replaced;
  }

  /** The files a successful call answers with. */
  function Answer(cache: Files, sources: Files, call: Call): Files {
    var (files, outcome) := Prepare(cache, sources, call);
    if outcome == UseSources then sources else files
  }

  /** Whatever a successful call answers with is at the rate asked for. */
  lemma AnswerAtRate(cache: Files, sources: Files, call: Call)
    requires call.target.Some? && Prepare(cache, sources, call).1 != Failed
    ensures forall i :: 0 <= i < PROMPTS ==>
              Answer(cache, sources, call)[i].Wav? && Answer(cache, sources, call)[i].rate == call.target.value
  {
    OutcomeIff(cache, sources, call);
    hide ReadPcmWav;
    ReadableIff(cache[0]);
    ReadableIff(cache[1]);
  }

  /** What is written for a source: the same channels and width at the rate asked for, the samples unchanged at that
      rate and linearly interpolated at any other. */
  lemma ConvertedIsLinear(source: Stream, rate: Rate)
    requires source.Valid()
    ensures var file := Converted(source, rate);
            && file.Wav? && file.channels == source.channels && file.width == source.width && file.rate == rate
            && !file.compressed && file.declared == |file.data|
            && (source.rate == rate ==> file.data == source.frames)
            && (source.rate != rate ==> Interpolates(file.data, source.frames, source.To(rate)))
  {
    hide Resampled;
    OnTheLine(source.frames, source.To(rate));
  }

  // ----- When a second call reuses --------------------------------------------------------------

  predicate HasWholeFrame(source: Stream)
    requires source.Valid()
  {
    |source.frames| >= source.To(1).FrameWidth()
  }

  lemma WidthIgnoresRate(source: Stream, rate: Rate)
    requires source.Valid()
    ensures source.To(rate).FrameWidth() == source.To(1).FrameWidth()
         == Format(source.channels, source.width, 1, 1).FrameWidth()
  {
  }

  /** A conversion of a stream can be read back exactly when the stream has a whole frame. */
  lemma ConvertedReadable(source: Stream, rate: Rate)
    requires source.Valid()
    ensures ReadPcmWav(Converted(source, rate)).Some? <==> HasWholeFrame(source)
    ensures HasWholeFrame(source) ==> ReadPcmWav(Converted(source, rate)).value.rate == rate
  {
    var file := Converted(source, rate);
    var w := source.To(1).FrameWidth();
    WidthIgnoresRate(source, rate);
    if source.rate != rate {
      HasFrames(source, rate);
      if |Frames(source.frames, source.To(rate))| > 0 {
        var count := TargetCount(|Frames(source.frames, source.To(rate))|, source.To(rate));
        ResampledLength(source.frames, source.To(rate));
        TimesLe(1, count, w);
        WholeLengthTimes(count, w);
      }
    }
  }

  lemma HasFrames(source: Stream, rate: Rate)
    requires source.Valid()
    ensures |Frames(source.frames, source.To(rate))| > 0 <==> HasWholeFrame(source)
  {
    WidthIgnoresRate(source, rate);
  }

  /** After a completed conversion the next call at that rate reuses the cache exactly when every source
      has a whole frame; otherwise it converts again on every call. */
  lemma SecondCallReuses(cache: Files, sources: Files, targetRate: Rate)
    requires SourcesReadable(sources) && !AlreadyAtRate(sources, targetRate)
    requires Prepare(cache, sources, Call(Some(targetRate), PROMPTS)).1 == UseCache(false)
    ensures var call := Call(Some(targetRate), PROMPTS);
            var again := Prepare(Prepare(cache, sources, call).0, sources, call);
            again.1 == UseCache(forall i :: 0 <= i < PROMPTS ==> HasWholeFrame(ReadPcmWav(sources[i]).value))
  {
    hide Converted, ReadPcmWav, HasWholeFrame;
    var renewed := Prepare(cache, sources, Call(Some(targetRate), PROMPTS)).0;
    forall i | 0 <= i < PROMPTS
      ensures FileIsValid(renewed[i], targetRate) <==> HasWholeFrame(ReadPcmWav(sources[i]).value)
    {
      ConvertedReadable(ReadPcmWav(sources[i]).value, targetRate);
    }
  }

  /** A truncated source that the reader accepts and whose conversion it then rejects, call after call. */
  lemma TruncatedSourceNeverReused()
    ensures var broken := Wav(1, 2, 48000, false, 2, [7]);
            var call := Call(Some(16000), PROMPTS);
            && SourcesReadable([broken, broken])
            && Prepare(Prepare(EMPTY, [broken, broken], call).0, [broken, broken], call).1 == UseCache(false)
  {
    var broken := Wav(1, 2, 48000, false, 2, [7]);
    assert Times(1, 2) == 2;
    var stream := Stream(1, 2, 48000, [7]);
    assert ReadPcmWav(broken) == Some(stream);
    assert !HasWholeFrame(stream);
    var sources: Files := [broken, broken];
    assert ReadPcmWav(sources[0]) == Some(stream) && ReadPcmWav(sources[1]) == Some(stream);
    assert !FileIsValid(sources[0], 16000) && !FileIsValid(EMPTY[0], 16000);
    SecondCallReuses(EMPTY, sources, 16000);
    assert !HasWholeFrame(ReadPcmWav(sources[0]).value);
  }
}
