# Verified models of the test bench

The repository is a desktop test bench for a robot's Jetson computer: it records and plays audio over SSH, runs
stress tests with evidence collectors, and summarises logs. This project models the parts of it that are algorithms or
protocols, in Dafny, and proves what they promise. Where the code does less than its names, comments or tests promise,
the code is modelled as it is, an input that shows the difference is given, and the exact condition under which the
promise holds is proved.

`dafny verify dfyconfig.toml` checks everything.

## How the files belong together

| component | files |
|---|---|
| prompt resampler and rate cache | `Blocks`, `Pcm`, `Resampler`, `PromptCache` |
| stress-test run protocol | `StressProtocol` (state and steps), `StressTheorems` (conservation, results), `StressSettled` (what runs when), `StressStarts` (failures while starting), `StressVerdicts` (what ends an attempt, and how), `StressRuns` (runs that go wrong), `StressProgram` (the runner as a class) |
| adaptive CPU load | `LoadStrategy`, `CpuController` |
| audio manager | `AudioProtocol` (state and steps), `AudioTheorems` (ownership), `AudioLive` (processes), `AudioResults` (published results), `AudioOrphans` (what is left behind), `AudioOutcomes` (what every result comes from), `AudioCalls` (requests, stops, files), `AudioParts` (recording, playback and left/right test apart), `AudioRuns` (runs that go wrong), `AudioProgram` (the manager as a class) |
| system metrics from logs | `Metrics` (parser and samples), `MetricsLines` (the same on the lines of a log) |
| log follower | `LogTail` |
| WAV analysis | `WavAnalysis` |
| reliability campaigns | `Campaigns` (state and steps), `CampaignOutcomes` (whole campaigns) |
| kernel-line monitor | `KernelMonitor` |
| Bluetooth test plan | `BluetoothPlan` |

Each imperative component appears twice: once as a class whose fields are the source's fields (the audio manager's are
grouped by activity, and a request's identifier and kind are one value) and whose methods update them step by step, and once as a function from state to state. Every method's postcondition says that the whole new state
is that function of the old one; the theorems are about the function, over every event and every run. The outside world
(SSH, processes, timers, files, clocks) enters as parameters of the steps: what an operation answers, whether a process
starts, which identifier it gets, whether the connection stands. Fields marked as history in the state datatypes are
ghost in the classes: they record what happened and decide nothing.

## What was found

* **Stress runner.** A collector that fails at once under load assistance takes the attempt out of RUNNING while `start_all`
  goes on starting collectors, the CPU load included. If no process launched before it is alive, the result is written and what
  is launched afterwards runs beside it (`RunsAfterResultIff`, reached in `LoadStartsAfterResult`): a local process runs until
  the next turn of the event loop, on which the evidence manager is deleted and its processes with it. If one is alive, no result
  is written; what is launched afterwards is never told to stop (`RunsUntoldIff`), and the attempt hangs in STOPPING until that
  ends by itself: no stop, no review and no other collector moves it on (`UntoldForever`, reached in `LoadRunsUntold`). Runs
  without such a start, and only these, are in order at every step (`EveryRunInOrderIff`). An attempt comes into a state in
  which nothing is left that could end it exactly when its last running collector is a local process that was told to stop
  before it had begun and that then fails to start (`StuckIff`, `StuckForever`, reached in `StuckReached`).
* **Audio manager.** `start_recording` with an invalid configuration forgets a recording that is running, whose process
  then goes on unowned beside the next activity (`StepTracked`, `ForgottenRecording`); the shutdown methods tell their process to
  stop and forget it at once, so that it may still run when the next activity starts (`ReleasedRecording`). An automated
  playback that is stopped by the playback's own button publishes no result, blocks the next one, and is reported as passed
  when another file, played by hand, has ended (`OrphansPlaybackIff`, `OrphanBlocksPlayback`, `StoppedPlaybackReportsPass`); a
  shutdown leaves an automated capture behind in the same way (`OrphansCaptureIff`, `CaptureOrphaned`). A full-duplex
  verification answered after the connection was lost publishes a second result (`LateVerificationPublishesAgain`,
  `DuplexPublishesTwice`). A volume, routing or file-validation request pending when a recording ends never gets its answer
  (`RequestLostIff`, `VolumeLost`).
* **Prompt cache.** The second call reuses the cache exactly if every source has one whole frame; a source
  that is accepted with less is converted again on every call (`SecondCallReuses`, `TruncatedSourceNeverReused`).
* **CPU controller.** The target is approached exactly if the gap is less than 105 points (`ConvergesIff`).
* **Metrics.** A log may be cut exactly where nothing is being collected (`SafeCutIff`); after a timestamp line alone, for
  example, a cut changes the summary. Usages account for the busy ticks inside the runs of snapshots that hold a core, and so
  for all of them exactly if the core was idle in the gaps (`WholeDifferenceIff`).
* **Campaigns.** A timer left over by a stop lets the next campaign pass with no iteration, or skip a number
  (`LeftoverTimerBreaks`). A stop leaves one between two iterations, and during one when the stop action itself reports a
  result after which the campaign would go on (`StopLeavesTimerIff`); nothing else does (`OnlyStopLeavesTimer`). Both ways are
  reached (`EmptyPassReached`, `EmptyPassAfterStopDuring`). Without an interval, an iteration that was started is recorded as blocked when the
  one before it was refused after it had reported (`RefusalMisplacedIff`, `StartedYetBlocked`). Numbers, counts and the single
  report are right even then (`EveryPatientRun`).
* **Bluetooth plan.** Answers are matched by test identifier alone, so an answer from a stopped plan can become the result of the
  next one (`ImpatientIsNot`, reached in `OldAnswerPublished`).
* **Log follower.** A truncated file that has grown past the old offset again before the next poll goes unnoticed
  (`RestartIffNoticed`); a changed file that is gone when it is to be read loses its notice (`NoticeLost`).
* **Kernel monitor.** After pruning, a forgotten line is recorded again when it is read again (`RecordsIff`): a growing log that
  is polled is recorded as if it were read once exactly if no poll meets such a line (`PollsReadOnceIff`,
  `TenThousandAndOne`).

## Model

| member | source | states |
|---|---|---|
| Pcm.DecodeInRange | desktop_app/audio/speaker_test_prompts.py:65-71 | every code of width 1 to 4 decodes into the signed range of its width |
| Pcm.SampleValue | desktop_app/audio/speaker_test_prompts.py:65-71 | the value of a sample of each width from its bytes: least byte first, two's complement, one byte around 128 |
| Pcm.DecodeEncode | desktop_app/audio/speaker_test_prompts.py:74-81 | decoding an encoded value gives the clamped value, and the value itself exactly if it is in range |
| Pcm.EncodeDecode | desktop_app/audio/speaker_test_prompts.py:65-81 | encoding a decoded sample gives back its bytes, so the codec is a bijection on in-range samples |
| Resampler.RoundHalfEven | desktop_app/audio/speaker_test_prompts.py:102 | the result is a nearest integer to the quotient and the even one of two equally near |
| Resampler.ResamplePcmLinear | desktop_app/audio/speaker_test_prompts.py:84-119 | the nested loops that fill the output in place compute the conversion of the whole frames of the buffer, empty for none; OnTheLine says what that is |
| Resampler.FillFrame | desktop_app/audio/speaker_test_prompts.py:104-118 | one turn of the outer loop adds exactly the bytes of one converted frame and keeps those before it |
| Resampler.SampleCode | desktop_app/audio/speaker_test_prompts.py:104-118 | the sample computed from the two neighbours found by byte offsets is that of the frame-wise conversion |
| Resampler.FrameCountIs | desktop_app/audio/speaker_test_prompts.py:98-99 | the buffer is cut into its whole frames, their number being the integer quotient |
| Resampler.PositionInside | desktop_app/audio/speaker_test_prompts.py:104-107 | the left-index guard never binds: every output position lies before the last source frame |
| Resampler.Between | desktop_app/audio/speaker_test_prompts.py:112-118 | every output sample lies between its two source neighbours and in range, so the encoder never saturates |
| Resampler.OutputFrames | desktop_app/audio/speaker_test_prompts.py:98-119 | the output has exactly the stated frames in order; what they are is stated by the next two rows |
| Resampler.OnTheLine | desktop_app/audio/speaker_test_prompts.py:104-118 | every sample of every converted buffer is the integer nearest, ties to even, to the point of the straight line through the two source samples around its place |
| Resampler.OutputCount | desktop_app/audio/speaker_test_prompts.py:102 | the number of output frames is the integer nearest to n * target / source, ties to even, but at least one, and none for none |
| Resampler.RoundTrip | desktop_app/audio/speaker_test_prompts.py:84-119 | converting to k times the rate and back returns every byte of every whole frame, for all widths, channels, rates and k |
| PromptCache.CacheDirectory.CheckCache | desktop_app/audio/speaker_test_prompts.py:159-171 | the loop with early return accepts exactly the caches whose files are all readable at the wanted rate |
| PromptCache.CacheDirectory.PreparePromptWavs | desktop_app/audio/speaker_test_prompts.py:174-243 | files and outcome of a call, interrupted at any replacement or not, are those of the specification |
| PromptCache.CacheDirectory.ReplaceAll | desktop_app/audio/speaker_test_prompts.py:199-236 | a replacement loop interrupted at file m leaves the first m files new and the others as they were |
| PromptCache.PrepareFaithful | desktop_app/audio/speaker_test_prompts.py:174-243 | no call leaves a file that is not the conversion of its source at the rate in its own header |
| PromptCache.ReadableIff | desktop_app/audio/speaker_test_prompts.py:44-62 | which files the reader accepts, and that it delivers the frames they declare as far as present |
| PromptCache.OutcomeIff | desktop_app/audio/speaker_test_prompts.py:174-243 | exactly when a call fails, is answered by the sources, by the cache as it is, or by a conversion; one source at another rate is enough to convert all |
| PromptCache.AnswerAtRate | desktop_app/audio/speaker_test_prompts.py:174-243 | whatever a successful call answers with is at the rate asked for |
| PromptCache.ConvertedIsLinear | desktop_app/audio/speaker_test_prompts.py:199-236 | a written file keeps channels and width, its samples unchanged at the same rate and linearly interpolated at another |
| PromptCache.RunFaithful | desktop_app/audio/speaker_test_prompts.py:174-243 | nor does any sequence of calls, interrupted or not |
| PromptCache.ReuseIsRecomputation | desktop_app/audio/speaker_test_prompts.py:192-195 | in every history, an answer from the cache is what converting again into an empty cache would have written |
| PromptCache.InterruptionRepaired | desktop_app/audio/speaker_test_prompts.py:197-243 | a complete call after one interrupted anywhere ends with the files of an uninterrupted one |
| PromptCache.ConvertedReadable | desktop_app/audio/speaker_test_prompts.py:44-62 | a converted file can be read back, at its rate, exactly if its source has a whole frame |
| PromptCache.SecondCallReuses | desktop_app/audio/speaker_test_prompts.py:192-195 | the call after a completed conversion reuses the cache exactly if every source has a whole frame |
| PromptCache.TruncatedSourceNeverReused | desktop_app/audio/speaker_test_prompts.py:44-62 | a source of one byte in two-byte frames is accepted and converted again on the second call |
| LogTail.SplitLinesCover | desktop_app/stress/log_tail.py:67 | splitting loses no byte and yields lines, each ending at its first terminator |
| LogTail.SplitLinesTerminated | desktop_app/stress/log_tail.py:67 | every line but the last ends in CR or LF, and a CR LF pair is never split |
| LogTail.SuffixLines | desktop_app/stress/log_tail.py:59-68 | wherever a text is cut, even inside a line or a CR LF pair, all lines of the rest but its first are the last lines of the whole |
| LogTail.SuffixSuffices | desktop_app/stress/log_tail.py:59-68 | a suffix with more than n line feeds has the same last n lines as the whole text |
| LogTail.ReadLastLines | desktop_app/stress/log_tail.py:53-68 | the backwards chunked read returns exactly the last n lines of the whole file, for every file, n and chunk size |
| LogTail.IncrementalLogTail.Select | desktop_app/stress/log_tail.py:15-26 | selection positions the follower at the end of the file and shows its last lines, or that it is not there |
| LogTail.IncrementalLogTail.ReadNew | desktop_app/stress/log_tail.py:28-50 | a poll moves the follower and returns text as specified, for every combination of the two looks at the file |
| LogTail.DeliversEveryByteOnce | desktop_app/stress/log_tail.py:15-50 | after selection, any appends and polls deliver every later byte exactly once and in order |
| LogTail.LateFileFromStart | desktop_app/stress/log_tail.py:15-50 | a file that was absent when selected is delivered from its very first byte, once and in order, without a notice |
| LogTail.PollShows | desktop_app/stress/log_tail.py:28-50 | what one poll shows, with a notice exactly if a change is shown |
| LogTail.NoticeLost | desktop_app/stress/log_tail.py:36-50 | a changed file that is gone before it is read is delivered from byte 0 without a notice when it is back |
| LogTail.RestartIffNoticed | desktop_app/stress/log_tail.py:36-39 | after a replacement or rewrite delivery restarts at byte 0 exactly if the identity differs or the size is below the offset; otherwise the bytes before the old offset are lost |
| Metrics.SystemMetricsSummary.FeedLines | desktop_app/stress/evidence_summary.py:100-141 | the line loop leaves the summary that applying the parsed snapshots one by one leaves; what those hold is stated on lines by MetricsLines |
| Metrics.SystemMetricsSummary.ApplySnapshot | desktop_app/stress/evidence_summary.py:199-230 | usage, remembered counters, samples and last values after one snapshot |
| Metrics.PiecesLikeWhole | desktop_app/stress/evidence_summary.py:100-141 | a log fed in any number of pieces, each cut right after a swap or compact line, leaves the state of feeding it whole |
| Metrics.SafeCutIff | desktop_app/stress/evidence_summary.py:100-141 | a cut is harmless for every memory and continuation exactly if no snapshot is being collected there |
| Metrics.SamplesTraced | desktop_app/stress/evidence_summary.py:199-218 | the samples of a core are, snapshot after snapshot, the usage from ticks where it can be compared, else the value a compact line shows, else nothing |
| Metrics.TicksAreNeighbours | desktop_app/stress/evidence_summary.py:202-214 | those from ticks compare exactly the consecutive CPU-bearing snapshots that both contain the core, never across a gap |
| Metrics.UsagesBounded | desktop_app/stress/evidence_summary.py:207-210 | every usage from ticks lies in [0, 100] |
| Metrics.BusyTicksConserved | desktop_app/stress/evidence_summary.py:199-210 | where neighbouring counters never go back, usages weighted by their ticks sum to the busy ticks inside the longest runs of snapshots that hold the core |
| Metrics.WholeDifferenceIff | desktop_app/stress/evidence_summary.py:199-214 | that sum is at most the busy ticks between first and last snapshot, and all of them exactly if none fall into the gaps between runs |
| Metrics.LogSamples | desktop_app/stress/evidence_summary.py:100-230 | the statements above for every log, compact lines or not, as it is fed; a sample not from ticks stands in a compact line |
| MetricsLines.CountersAreFields | desktop_app/stress/evidence_summary.py:143-154 | a CPU line counts exactly if it has four fields; its busy ticks are fields 0, 1, 2, 5, 6 and 7, its idle ticks fields 3 and 4, and nothing behind the eighth counts |
| MetricsLines.ParseShows | desktop_app/stress/evidence_summary.py:100-141 | the snapshots hold, core by core, the last counted fields of their segment of the log, which swap, compact and time-stamp lines delimit |
| MetricsLines.LogHistory | desktop_app/stress/evidence_summary.py:100-218 | the counters every usage rests on are those fields, segment by segment, for every log |
| MetricsLines.LogBusyTicks | desktop_app/stress/evidence_summary.py:199-210 | usages weighted by their ticks sum to the differences of the busy fields between neighbouring segments that both hold the core |
| MetricsLines.StateIsLatest | desktop_app/stress/evidence_summary.py:219-230 | time stamp, loads, memory, swap and uptime on display are those of the last line of the log that shows them |
| MetricsLines.UsageIsLast | desktop_app/stress/evidence_summary.py:199-218 | the usages on display are those of the last snapshot |
| Metrics.AverageBetween | desktop_app/stress/evidence_summary.py:84-98 | the average shown lies between minimum and maximum |
| WavAnalysis.AnalyzeWave | desktop_app/audio/audio_automation.py:249-353 | the chunked loop over accumulator lists yields, per channel, peak, energy, clip count and sample count of the de-interleaved signal, or the error the source raises |
| WavAnalysis.Accumulators.AddFrame | desktop_app/audio/audio_automation.py:298-308 | the inner loop advances every channel's four accumulators by one sample in place |
| WavAnalysis.ChunkSizeIrrelevant | desktop_app/audio/audio_automation.py:290-309 | the report does not depend on the chunk size |
| WavAnalysis.PeakIsMaximum | desktop_app/audio/audio_automation.py:304 | the peak bounds every magnitude and is attained |
| WavAnalysis.EnergyIsProducts | desktop_app/audio/audio_automation.py:305-306 | the energy is the signal multiplied by itself, sample by sample |
| WavAnalysis.ClipsCountsPositions | desktop_app/audio/audio_automation.py:307-308 | the clip count is the number of positions at or above the threshold |
| WavAnalysis.ClippedAt | desktop_app/audio/audio_automation.py:302-308 | the normalised threshold is a magnitude of 32736 |
| WavAnalysis.ReportMeans | desktop_app/audio/audio_automation.py:316-336 | silence is all zeros, clipping is a peak at the threshold, the mean square is at most the squared peak and zero only in silence |
| WavAnalysis.PeakWithinFullScale | desktop_app/audio/audio_automation.py:300-304 | no reported peak exceeds full scale |
| LoadStrategy.StrategyIff | desktop_app/stress/load_strategy.py:33-82 | load is injected exactly for known values with the baseline below the target, observed exactly where the target is met or may be exceeded, and started exactly then and with the tool present |
| CpuController.AssistStartsPositive | desktop_app/stress/collectors.py:418 | a decision to assist makes the first load positive: the gap, but at most one step |
| CpuController.AdaptiveCpu.TakeTurn | desktop_app/stress/collectors.py:419-428 | one turn of the loop, with at most one stress child alive after it |
| CpuController.AdaptiveCpu.Run | desktop_app/stress/collectors.py:418-431 | a run is the specified sequence of turns and ends with no child alive |
| CpuController.ExactMove | desktop_app/stress/collectors.py:423-428 | a turn that is due takes five off the load, down to 0, when more than the target is measured, adds five, up to the ceiling, when less is, and changes nothing else |
| CpuController.OneSidedRun | desktop_app/stress/collectors.py:419-428 | as long as all due measurements are above the target, or all below, the load has moved by exactly five a chance, as far as it can |
| CpuController.LoadGone | desktop_app/stress/collectors.py:419-428 | so it is gone, or at its ceiling, after ceil(way / 5) chances |
| CpuController.LoopEnds | desktop_app/stress/collectors.py:419 | exactly the turns that begin in time and before a signal are taken |
| CpuController.EveryRunSound | desktop_app/stress/collectors.py:405-428 | for all measurements the load stays in [0, min(target, 100)], moves at most 5, only in the direction asked for, at least 20 s apart |
| CpuController.NearStays | desktop_app/stress/collectors.py:423-428 | once strictly within one step of the target, always |
| CpuController.NearOrClimbing | desktop_app/stress/collectors.py:423-428 | until then every chance adds a full step, up to 100 percent |
| CpuController.ConvergesIff | desktop_app/stress/collectors.py:405-428 | the target is approached at all exactly if the gap is below 105, and then after ceil(gap / 5) adjustments at most |
| CpuController.ExactRunConverges | desktop_app/stress/collectors.py:419-428 | in every run where CPU is baseline plus load, that many adjustments end strictly within one step |
| StressProgram.StressTestRunner.Enqueue | desktop_app/stress/runner.py:87-130 | refused or accepted exactly as specified, keeping the invariant |
| StressProgram.StressTestRunner.DiscardPrepared | desktop_app/stress/runner.py:132-154 | only a prepared selection is discarded, without a result |
| StressProgram.StressTestRunner.StartCurrent | desktop_app/stress/runner.py:270-333 | an attempt starts exactly if prepared, permitted and created |
| StressProgram.StressTestRunner.OnPrepareTimer | desktop_app/stress/runner.py:156-199 | after a result the next queued test is prepared, or the selection is finished |
| StressProgram.StressTestRunner.FinishForReview | desktop_app/stress/runner.py:335-343 | leaves RUNNING with the pending status NEEDS_REVIEW and stops all collectors |
| StressProgram.StressTestRunner.Stop | desktop_app/stress/runner.py:345-356 | leaves RUNNING with the pending status STOPPED and stops all collectors |
| StressProgram.StressTestRunner.OnEvidenceChanged | desktop_app/stress/runner.py:358-383 | the three reactions to a changed record |
| StressProgram.StressTestRunner.StartAll | desktop_app/stress/collectors.py:813-819 | every collector is started once, in plan order, the workload last |
| StressProgram.StressTestRunner.StopAll | desktop_app/stress/collectors.py:821-824 | every collector is asked to stop, then the end is reported if none runs |
| StressProgram.StressTestRunner.StartOne | desktop_app/stress/collectors.py:472-544 | what starting does to each kind of collector, on every answer |
| StressProgram.StressTestRunner.OnCollector | desktop_app/stress/collectors.py:562-646 | what each process event does to a collector and through it to the attempt |
| StressTheorems.StepKept | desktop_app/stress/runner.py:87-455 | selected tests are finished, current, queued or discarded in selection order, and each started attempt has one result or is under way, after every step |
| StressTheorems.EveryRunKept | desktop_app/stress/runner.py:87-455 | the same in every run from the start |
| StressTheorems.ExitFixesFinal | desktop_app/stress/runner.py:335-387 | RUNNING is left only by stop, review or a collector, also in the start that entered it, and the step that leaves it fixes NEEDS_REVIEW, STOPPED or ERROR |
| StressTheorems.StartExit | desktop_app/stress/runner.py:270-333 | a start leaves the attempt running without a result, or fixes ERROR |
| StressTheorems.HappensNeverStopped | desktop_app/stress/runner.py:358-383 | no collector event takes a running attempt to STOPPED |
| StressTheorems.FinalFixed | desktop_app/stress/runner.py:385-387 | in every continuation the next result is that of the stopping attempt with the status fixed then, however often the end is reported |
| StressTheorems.ResultsGrow | desktop_app/stress/runner.py:389-455 | no result is ever changed or taken back |
| StressVerdicts.HappensGives | desktop_app/stress/runner.py:358-383 | while an attempt runs, the completion of the workload of an automatic test ends it for review, an error of that workload, or of another collector under load assistance, as ERROR, and no other collector event ends it |
| StressVerdicts.StepVerdict | desktop_app/stress/runner.py:335-387 | the same for every event, from events, specs and statuses alone: exactly which steps fix a final status, and which one |
| StressVerdicts.EveryRunCounted | desktop_app/stress/runner.py:335-455 | in every run and for each final status there are exactly as many results, one still due included, as events that fix it |
| StressVerdicts.NeverStoppedAlone | desktop_app/stress/runner.py:345-356 | in every run without a stop by the user, no result is STOPPED |
| StressVerdicts.CollectorAfter | desktop_app/stress/collectors.py:562-646 | the status and process every event leaves its collector with, whatever becomes of the attempt |
| StressVerdicts.StartStatus | desktop_app/stress/collectors.py:472-544 | the status a start leaves its collector with |
| StressVerdicts.StartIff | desktop_app/stress/runner.py:270-333 | an attempt starts exactly if a test is prepared, its evidence can be collected and its load decision permits it |
| StressVerdicts.EnqueueIff | desktop_app/stress/runner.py:87-130 | a selection is taken exactly if allowed, not empty and nothing is under way or finished but not yet followed |
| StressSettled.NothingRunsAtResult | desktop_app/stress/collectors.py:813-840 | in every run, unless a collector was set running after RUNNING had been left, nothing runs once the result is written and all that runs while stopping has been told |
| StressStarts.StartEndsIff | desktop_app/stress/runner.py:358-383 | start_all takes the attempt out of RUNNING exactly if some collector fails at once in a way that ends attempts |
| StressStarts.StartFails | desktop_app/stress/collectors.py:813-819 | the first such failure writes ERROR unless a process launched before it is alive; every later collector is started nevertheless, untold |
| StressStarts.RunsAfterResultIff | desktop_app/stress/collectors.py:813-840 | a collector runs after the result was written exactly if one is launched after the first failure, and no process before it |
| StressStarts.RunsUntoldIff | desktop_app/stress/collectors.py:813-840 | one runs untold in an attempt that is stopping exactly if it is launched after the first failure, and a process before it |
| StressStarts.StartsLateIff | desktop_app/stress/collectors.py:813-819 | a collector is set running after RUNNING was left exactly if it is launched after one that fails, and exactly then the attempt is in disorder |
| StressStarts.LateIffAnotherFails | desktop_app/stress/runner.py:362-373 | with one workload: exactly if, under load assistance, another collector fails and then the workload, or one further down the plan, is launched |
| StressStarts.EveryRunInOrderIff | desktop_app/stress/runner.py:385-455 | a run never has anything running after a written result, or untold while stopping, exactly if none of its starts launches a collector after one that fails |
| StressStarts.UntoldHolds | desktop_app/stress/runner.py:335-356 | an untold collector keeps an attempt stopping through every event but its own; a stop or a review changes nothing at all |
| StressStarts.UntoldForever | desktop_app/stress/runner.py:385-387 | the same in every continuation, which has no result |
| StressRuns.LoadStartsAfterResult | desktop_app/stress/collectors.py:813-819 | a local sampler whose process cannot be created under load assistance writes ERROR, then the load is started, and is gone after the next event-loop turn |
| StressRuns.LoadRunsUntold | desktop_app/stress/collectors.py:813-819 | with another sampler alive, the failure only stops the attempt, and the load started after it keeps it in STOPPING whatever else happens |
| StressSettled.StuckForever | desktop_app/stress/runner.py:385-387 | a stopping attempt with nothing running is changed by no event |
| StressSettled.StuckIff | desktop_app/stress/collectors.py:577-580 | it comes about exactly if the last running process was told to stop while starting and then fails to start |
| StressRuns.StuckReached | desktop_app/stress/collectors.py:577-580 | a run from the start that ends so |
| AudioProgram.AudioManager.RunAudioPrecheck | desktop_app/audio/audio_manager.py:452-469 | guards of the pre-check; true exactly if its request was submitted, otherwise one result has been published |
| AudioProgram.AudioManager.AnalyzeLastWav | desktop_app/audio/audio_manager.py:501-537 | guards of the analysis; true exactly if its request was submitted, otherwise one result has been published |
| AudioProgram.AudioManager.CaptureAudio | desktop_app/audio/audio_manager.py:471-499 | automated capture, including its end when recording does not start; true exactly if the preflight was submitted, otherwise exactly one capture result has been published in the call |
| AudioProgram.AudioManager.StartRecording | desktop_app/audio/audio_manager.py:1522-1604 | all guards and failures of starting a recording; true exactly if the preflight was submitted |
| AudioProgram.AudioManager.StartAutomationPlayback | desktop_app/audio/audio_manager.py:539-559 | automated playback, including its end when playing does not start; true exactly if the validation was submitted, otherwise one result has been published |
| AudioProgram.AudioManager.StartFullDuplex | desktop_app/audio/audio_manager.py:561-630 | guards and preflight of full duplex; true exactly if it was submitted, otherwise one result has been published |
| AudioProgram.AudioManager.RunSpeakerChannelTest | desktop_app/audio/audio_manager.py:1187-1235 | guards and preflight of the channel test; true exactly if it was submitted, otherwise one result has been published |
| AudioProgram.AudioManager.StartSpeakerTest | desktop_app/audio/audio_manager.py:1388-1477 | guards and preflight of the left/right test; true exactly if it was submitted |
| AudioProgram.AudioManager.PlayWavFile | desktop_app/audio/audio_manager.py:1035-1068 | guards of manual playback, including the validated-path check; true exactly if the mixer request was submitted |
| AudioProgram.AudioManager.ValidateWavFile | desktop_app/audio/audio_manager.py:986-1033 | the former validation is forgotten first, whatever follows; true exactly if the validation was submitted |
| AudioProgram.AudioManager.DiscoverDevices | desktop_app/audio/audio_manager.py:939-967 | guards of discovery; true exactly if it was submitted |
| AudioProgram.AudioManager.SetDefaultSource | desktop_app/audio/audio_manager.py:1747-1791 | guards of changing the input, which a recording forbids; true exactly if the request was submitted |
| AudioProgram.AudioManager.StopAutomation | desktop_app/audio/audio_manager.py:632-673 | stops the four automated activities one after the other; true exactly if one of them was told to stop |
| AudioProgram.AudioManager.ShutdownPlayback | desktop_app/audio/audio_manager.py:1167-1174 | stops the process, drops the request and clears the state, but not the automated playback |
| AudioProgram.AudioManager.ShutdownSpeakerTest | desktop_app/audio/audio_manager.py:1479-1486 | stops the process, drops the request and clears the state |
| AudioProgram.AudioManager.ShutdownRecording | desktop_app/audio/audio_manager.py:1617-1624 | stops the process, drops the request and clears the state, but not the automated capture |
| AudioProgram.AudioManager.OnOperationSucceeded | desktop_app/audio/audio_manager.py:1838-1947 | what each answer does, by pending kind |
| AudioProgram.AudioManager.OnOperationFailed | desktop_app/audio/audio_manager.py:1949-2021 | what each failure does, by pending kind |
| AudioProgram.AudioManager.MarkFullDuplexProcessDone | desktop_app/audio/audio_manager.py:843-909 | full duplex ends or is verified when both processes are done; any other identifier is ignored |
| AudioProgram.AudioManager.OnProcessStarted | desktop_app/audio/audio_manager.py:2023-2050 | a process that begins although its stop was requested is told again |
| AudioProgram.AudioManager.OnProcessFinished | desktop_app/audio/audio_manager.py:2078-2133 | the owner of an ended process, and only the owner, moves on |
| AudioProgram.AudioManager.OnProcessFailed | desktop_app/audio/audio_manager.py:2135-2174 | likewise for a failed one; the other half of a duplex is told to stop |
| AudioProgram.AudioManager.OnJetsonDisconnected | desktop_app/audio/audio_manager.py:2176-2236 | the whole sequence of releases |
| AudioTheorems.StepOwned | desktop_app/audio/audio_manager.py:205-251 | every step keeps at most one of recording, playback, left/right test, channel test and full duplex owned, preflights and verifications included |
| AudioTheorems.EveryRunExclusive | desktop_app/audio/audio_manager.py:205-251 | the same in every run |
| AudioTheorems.StaleChangesNothing | desktop_app/audio/audio_manager.py:1838-1840 | an answer to no pending request changes nothing, and an event of a process no activity owns, alive or not, changes nothing but that it has ended |
| AudioLive.StepTracked | desktop_app/audio/audio_manager.py:1522-1528 | every process that has not ended, told to stop or not, stays one its activity waits for, except at exactly the steps that release it: an invalid recording request, the shutdowns, and a duplex whose second process cannot start |
| AudioLive.StepAnswerable | desktop_app/audio/audio_manager.py:1636-1645 | of the processes not told to stop, exactly the invalid recording request forgets one |
| AudioLive.OneActivityLive | desktop_app/audio/audio_manager.py:205-251 | in runs that release none, two processes that have not ended are the two halves of a full duplex |
| AudioLive.OneActivityUntold | desktop_app/audio/audio_manager.py:205-251 | in runs with no invalid request beside a recording, shutdowns or not, so are two that have neither ended nor been told to stop |
| AudioRuns.ForgottenRecording | desktop_app/audio/audio_manager.py:1636-1645 | a run in which a speaker test starts beside a forgotten recording that was never told to stop |
| AudioRuns.ReleasedRecording | desktop_app/audio/audio_manager.py:1617-1624 | a run in which it starts beside one that a shutdown has told to stop |
| AudioResults.StepOwes | desktop_app/audio/audio_manager.py:340-450 | every step keeps begun actions equal to ended plus active ones, up to three exactly described upsets |
| AudioResults.EveryRunAccountsFor | desktop_app/audio/audio_manager.py:675-801 | in every run, the captures, playbacks and channel tests begun are those whose result stands among the published ones and the one still flagged as active, if any |
| AudioResults.CaptureAnswers | desktop_app/audio/audio_manager.py:471-499 | an automated capture is under way when the call returns and nothing was published, or it is not and exactly one capture result was |
| AudioResults.PlaybackAnswers | desktop_app/audio/audio_manager.py:539-559 | likewise for an automated playback |
| AudioOutcomes.StepPublishes | desktop_app/audio/audio_manager.py:340-801 | every step publishes, for each action, exactly the results that the event, the pending request, the flags and the processes tell, in every state |
| AudioOutcomes.PassIff | desktop_app/audio/audio_manager.py:1694-1745 | a capture passes exactly if it was not stopped and its recording was found valid, or its archiving ends; a playback or channel test if its process ended with code 0 and was not stopped; a full duplex, pre-check or analysis if its own check says so |
| AudioOutcomes.EveryRunPublishes | desktop_app/audio/audio_manager.py:340-801 | in every run the published results of each action are exactly those its events show, in order |
| AudioOutcomes.EveryPassVerified | desktop_app/audio/audio_manager.py:1694-1745 | in every run no more captures pass than recordings were found valid |
| AudioCalls.CallSubmitsIff | desktop_app/audio/audio_manager.py:452-1165 | every call submits its request exactly if it is connected, nothing it would disturb is pending or under way, and what it needs is there |
| AudioCalls.StepFiles | desktop_app/audio/audio_manager.py:986-1033 | after every event the last recording is the last one found valid, and the validated file the one last asked for and found |
| AudioCalls.PlaysValidated | desktop_app/audio/audio_manager.py:1035-1068 | a file played by hand is the validated one |
| AudioCalls.StopReaches | desktop_app/audio/audio_manager.py:632-673 | every stop and shutdown tells exactly the processes of the activities in question |
| AudioCalls.StopMarksAll | desktop_app/audio/audio_manager.py:632-673 | after the stop of all automation, everything automated still under way is marked as stopped |
| AudioCalls.StoppedEndsStopped | desktop_app/audio/audio_manager.py:675-801 | a capture or playback so marked stays marked and can be published as nothing but stopped |
| AudioCalls.DuplexTells | desktop_app/audio/audio_manager.py:2135-2174 | when one half of a duplex fails or the second cannot start, the other is told to stop |
| AudioCalls.BeganTold | desktop_app/audio/audio_manager.py:2023-2050 | a recording or playback that begins after its stop is told again |
| AudioParts.StepParts | desktop_app/audio/audio_manager.py:939-2236 | what every event makes of the recording, the playback and the left/right test, in every state |
| AudioResults.LateVerificationPublishesAgain | desktop_app/audio/audio_manager.py:1868-1883 | a duplex verification answered after a disconnection publishes a second result |
| AudioRuns.DuplexPublishesTwice | desktop_app/audio/audio_manager.py:1868-1883 | a run in which one full duplex is published as blocked and then again with its outcome |
| AudioOrphans.OrphansPlaybackIff | desktop_app/audio/audio_manager.py:2103-2118 | the exact steps that leave an automated playback without a playback |
| AudioOrphans.OrphanBlocksPlayback | desktop_app/audio/audio_manager.py:541-542 | while it is left so, every automated playback is refused |
| AudioOrphans.StoppedPlaybackPasses | desktop_app/audio/audio_manager.py:2109-2113 | the next file played by hand publishes it as passed |
| AudioRuns.PlaybackOrphaned | desktop_app/audio/audio_manager.py:2103-2108 | a run to a stopped automated playback without a result |
| AudioRuns.StoppedPlaybackReportsPass | desktop_app/audio/audio_manager.py:2103-2113 | its continuation, in which the only result ever published says that it passed |
| AudioOrphans.OrphansCaptureIff | desktop_app/audio/audio_manager.py:1617-1624 | the exact steps that leave an automated capture without a recording |
| AudioRuns.CaptureOrphaned | desktop_app/audio/audio_manager.py:1617-1624 | a run to such a capture |
| AudioOrphans.RequestLostIff | desktop_app/audio/audio_manager.py:1663-1692 | a pending volume, routing, discovery or validation request is given up exactly if a recording that ended is to be verified, or the connection is lost while recording |
| AudioRuns.VolumeLost | desktop_app/audio/audio_manager.py:1663-1692 | a run in which a volume request meets the end of a recording, after which its answer changes nothing |
| AudioOrphans.DisconnectReleases | desktop_app/audio/audio_manager.py:2176-2236 | a lost connection releases everything but a duplex verification under way, and ends all automation |
| BluetoothPlan.BluetoothTestRunner.RunSelected | core/bluetooth/bluetooth_test_runner.py:63-80 | unknown tests are filtered out and the plan begun, unless one runs or none is left |
| BluetoothPlan.BluetoothTestRunner.RequestStop | core/bluetooth/bluetooth_test_runner.py:85-96 | the queue is dropped, the current test alone is skipped, the plan finishes |
| BluetoothPlan.BluetoothTestRunner.RunNext | core/bluetooth/bluetooth_test_runner.py:98-109 | the mutual recursion through answers given at once terminates and computes the specified state |
| BluetoothPlan.BluetoothTestRunner.OnTestCompleted | core/bluetooth/bluetooth_test_runner.py:111-116 | any completion, of a probe that was sent or not, is accepted exactly if its test is the current one |
| BluetoothPlan.StepKept | core/bluetooth/bluetooth_test_runner.py:63-158 | every step keeps the plan equal to published, current, waiting, skipped and dropped tests in order |
| BluetoothPlan.EveryRun | core/bluetooth/bluetooth_test_runner.py:63-158 | in every run only the current test is RUNNING, a plan at rest has no test left and finished once, an unstopped one published a result per selected test in order, a stopped one a prefix and at most one skipped |
| BluetoothPlan.SelectPublishes | core/bluetooth/bluetooth_test_runner.py:63-109 | beginning a plan publishes the results of the leading tests that are answered at once, all as errors without a manager |
| BluetoothPlan.CompletePublishes | core/bluetooth/bluetooth_test_runner.py:111-141 | the completion of the current test is published as its result, as an error if its evidence cannot be written, then those of the tests answered at once after it; any other publishes nothing |
| BluetoothPlan.KnownCounts | core/bluetooth/bluetooth_test_runner.py:63-70 | the plan holds each test asked for as often as asked for if it is known, and no other |
| BluetoothPlan.StopShows | core/bluetooth/bluetooth_test_runner.py:85-96 | a stop shows the current test as skipped and publishes nothing |
| BluetoothPlan.EveryRunShows | core/bluetooth/bluetooth_test_runner.py:118-147 | in every run a test that is not running shows its last published result, was skipped, or was never run |
| BluetoothPlan.PatientIsGenuine | core/bluetooth/bluetooth_test_runner.py:111-113 | if no plan begins while an old probe is unanswered, and only probes that were sent are answered, each once, every published result answers its own probe |
| BluetoothPlan.ImpatientIsNot | core/bluetooth/bluetooth_test_runner.py:111-113 | and from every state with such a probe a wrong answer can be published |
| BluetoothPlan.OldAnswerPublished | core/bluetooth/bluetooth_test_runner.py:85-116 | a run from the start that does so |
| Campaigns.AudioIterationRunner.Begin | desktop_app/audio/audio_runtime.py:599-629 | from every state, a campaign begins exactly if none is active and at least one iteration is asked for, and order is kept if no timer was left |
| Campaigns.AudioIterationRunner.HandleActionResult | desktop_app/audio/audio_runtime.py:631-659 | a result is recorded for the awaited iteration and the campaign ends, pauses or goes on at once |
| Campaigns.AudioIterationRunner.RunNext | desktop_app/audio/audio_runtime.py:681-710 | the next iteration, with results reported inside the call and refusals |
| Campaigns.AudioIterationRunner.OnTimer | desktop_app/audio/audio_runtime.py:656-657 | a timer that fires starts the next iteration, if a campaign is active |
| Campaigns.AudioIterationRunner.Cancel | desktop_app/audio/audio_runtime.py:661-679 | stopping, with a result reported by the stop itself |
| Campaigns.CountsSum | desktop_app/audio/audio_runtime.py:724-727 | the four counts of a report sum to its completed iterations |
| Campaigns.StepOrderly | desktop_app/audio/audio_runtime.py:599-740 | a campaign always waits for exactly one result or one timer and has numbered results for all earlier iterations, if begun with no timer left |
| Campaigns.EveryPatientRun | desktop_app/audio/audio_runtime.py:599-740 | each campaign reports once; iterations are numbered from one, no more than asked for, and PASS means all took place and passed, for every interval |
| CampaignOutcomes.CampaignReports | desktop_app/audio/audio_runtime.py:599-740 | a campaign with an interval reports once, when its last iteration or one it stops at has its result: the results so far in order, refused ones as blocked, and PASS exactly if all passed |
| CampaignOutcomes.CampaignPauses | desktop_app/audio/audio_runtime.py:631-659 | until then it reports nothing and waits for its timer |
| CampaignOutcomes.StopReports | desktop_app/audio/audio_runtime.py:661-679 | a stop reports STOPPED with the results there are and the present iteration as stopped |
| CampaignOutcomes.BeginsIff | desktop_app/audio/audio_runtime.py:599-629 | a campaign begins exactly if none is active and at least one iteration is asked for |
| Campaigns.LeftoverTimerBreaks | desktop_app/audio/audio_runtime.py:681-687 | from every idle state with a timer left this fails, for every length of the next campaign |
| Campaigns.StopLeavesTimerIff | desktop_app/audio/audio_runtime.py:661-679 | a stop leaves a timer exactly if it comes between two iterations, or if it makes the iteration report a result after which the campaign would pause; either way the campaign is over |
| Campaigns.OnlyStopLeavesTimer | desktop_app/audio/audio_runtime.py:631-659 | no other step that ends a campaign leaves a timer |
| Campaigns.EmptyPassReached | desktop_app/audio/audio_runtime.py:661-687 | a run in which the second campaign passes with no iteration |
| Campaigns.EmptyPassAfterStopDuring | desktop_app/audio/audio_runtime.py:661-687 | the same after a stop during an iteration whose stop action reports at once |
| Campaigns.RefusalMisplacedIff | desktop_app/audio/audio_runtime.py:693-710 | a refusal is recorded for another iteration exactly if its action had reported too, which needs a zero interval |
| Campaigns.StartedYetBlocked | desktop_app/audio/audio_runtime.py:693-708 | two iterations of which the second is recorded as blocked although it started |
| KernelMonitor.AudioRuntimeMonitor.ConsumeKernelEvents | desktop_app/audio/audio_runtime.py:487-500 | events, counters and memory after reading a log, of which five thousand lines stay when there are more than ten thousand, and exactly the categories of its new lines |
| KernelMonitor.AudioRuntimeMonitor.RecordEvent | desktop_app/audio/audio_runtime.py:520-540 | one event and its counter, keeping every counter right |
| KernelMonitor.AudioRuntimeMonitor.RecordProcessOutput | desktop_app/audio/audio_runtime.py:328-336 | process output is recorded once per line and only in the audio categories |
| KernelMonitor.RecordCounted | desktop_app/audio/audio_runtime.py:520-534 | each counter is the number of its events and all events are counted or SYSTEM, after every event |
| KernelMonitor.ReadingRecords | desktop_app/audio/audio_runtime.py:487-500 | reading a log records, in order, one event with its category for each classified line at its first occurrence, unless remembered |
| KernelMonitor.OutputRecords | desktop_app/audio/audio_runtime.py:328-336 | process output records likewise those about audio alone, and remembers every line |
| KernelMonitor.PollingIsReadingOnce | desktop_app/audio/audio_runtime.py:487-500 | polling ever longer versions of a log is reading the last one once, up to ten thousand distinct lines |
| KernelMonitor.RecordsIff | desktop_app/audio/audio_runtime.py:491-499 | reading records something exactly if it meets a classified line that is not remembered |
| KernelMonitor.PollsCount | desktop_app/audio/audio_runtime.py:487-500 | for logs of any size, polling records what one reading of the last log does and one event more for each forgotten line a poll meets |
| KernelMonitor.PollsReadOnceIff | desktop_app/audio/audio_runtime.py:487-500 | so the events are those of one reading exactly if no poll meets a classified line that was seen before and pruned |
| KernelMonitor.TenThousandAndOne | desktop_app/audio/audio_runtime.py:497-499 | a log of ten thousand and one different lines, polled twice, is recorded more than once |

## Left out

- Floating point: positions, usages, loads and means are exact rationals or integers, so rounding error is not modelled; decibel values and square roots are not part of the model.
- `audioop.ratecv`: only the linear fallback of the resampler is modelled; where that module is installed the program uses it instead.
- The copy of the prompt preparer that runs remotely (desktop_app/audio/speaker_test_prompts.py:246-404): it repeats the local algorithm.
- The number that stress-ng is given: the controller's load is modelled, its rounding to an integer of at least one is not.
- PromptCache.CacheDirectory.PreparePromptWavs: the temporary file of each replacement is not modelled; a replacement takes place whole or not at all.
- Text: decoding, regular expressions, timestamps and rendering are not modelled; metrics start from lexed lines, the kernel monitor from stripped lines and a classifier that may be any function.
- LogTail.IncrementalLogTail.Select: the file is taken not to change between looking at its size and reading it.
- Metrics: memory and swap percentages, uptime parsing and the rendered report are only displayed.
- The immediate-baseline path of the stress runner (desktop_app/stress/runner.py:201-268): nothing reaches it.
- Collectors are values in the runner's list, not objects of their own; their logs, times and error texts are not modelled.
- Tests are values: that a queued definition object may be shared, and the statuses WAITING and NOT_RUN of tests that are not current, are not modelled.
- StressProgram.StressTestRunner.Enqueue: environment status, override and evidence root are one answer, allowed or not.
- Forced killing two seconds after a stop: it shows as the end of the process.
- StressProgram.StressTestRunner.OnPrepareTimer: the evidence manager's deletion (desktop_app/stress/runner.py:453-455) and the preparation of the next test, both due on the next turn of the event loop, are one step; a local process that a late start has begun ends there with its collector. That a remote process would run on is not modelled.
- The SSH worker drops a stop for a process that has not begun (desktop_app/workers/ssh_probe_worker.py:239-243). To be told to stop is therefore never taken to mean that the process ends: a remote collector told too early keeps its attempt in STOPPING until its process ends or the connection is lost.
- AudioProgram.AudioManager.OnOperationSucceeded: slots connected to the manager's signals do not call back into it, messages, state strings and evidence records are not modelled, and a remote path is a number.
- AudioProgram.AudioManager.OnJetsonDisconnected: a lost connection is taken to end every remote process at once; that one may run on beyond it is not modelled.
- The audio manager's small queries, volume validation and operator verification of the speakers: they own nothing and only display.
- BluetoothPlan.BluetoothTestRunner.RunSelected: slots that start a plan from inside a signal are not modelled; log texts are left out.
- Campaigns.AudioIterationRunner.HandleActionResult: results of other actions than the repeated one, which are ignored, do not appear; times and evidence files are left out.
- The runtime monitor's device transitions and samples.
- Qt widgets, Wi-Fi, camera, LiDAR and ROS controllers, registries, catalogues and keyword classification: they would add only easy members.
