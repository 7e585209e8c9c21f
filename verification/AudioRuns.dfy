/** Runs of the audio manager, from its first state, that reach what the other modules describe. */
module AudioRuns {
  import opened Options
  import opened AudioProtocol
  import opened AudioTheorems
  import opened AudioResults
  import opened AudioOrphans

  /** A connected device that gives these identifiers to a submitted operation and a started process. */
  function Given(submit: nat, launch: nat): Env {
    Env(true, Some(submit), Some(launch), None, false)
  }

  lemma {:induction false} RunAppend(s: State, a: seq<Event>, b: seq<Event>)
    ensures Run(s, a + b) == Run(Run(s, a), b)
    decreases |a|
  {
    if a == [] {
      assert a + b == b;
    } else {
      assert (a + b)[1..] == a[1..] + b;
      RunAppend(Step(s, a[0]), a[1..], b);
    }
  }

  lemma RunOne(s: State, a: Event)
    ensures Run(s, [a]) == Step(s, a)
  {
    assert [a][1..] == [];
    assert Run(Step(s, a), []) == Step(s, a);
  }

  lemma RunTwo(s: State, a: Event, b: Event)
    ensures Run(s, [a, b]) == Step(Step(s, a), b)
  {
    hide Step;
    assert [a, b][1..] == [b];
    RunOne(Step(s, a), b);
  }

  lemma RunThree(s: State, a: Event, b: Event, c: Event)
    ensures Run(s, [a, b, c]) == Step(Step(Step(s, a), b), c)
  {
    hide Step;
    assert [a, b, c][1..] == [b, c];
    RunTwo(Step(s, a), b, c);
  }

  // ----- A forgotten and a released recording -----------------------------------------------------------

  const RECORDING: seq<Event> := [ERecord(Some(7), Given(1, 2)), ESucceeded(1, ConfigReady(7, true), Given(1, 2))]
  const TESTING: seq<Event> := [ETest(Given(3, 4)), ESucceeded(3, TestReady, Given(3, 4))]

  lemma Recorded()
    ensures Run(IDLE, RECORDING) == IDLE.(live := {2}, rec := Recording(Some(2), Some(7), true, false))
  {
    RunTwo(IDLE, RECORDING[0], RECORDING[1]);
  }

  lemma Tested(s: State)
    requires Owned(s) && !Busy(s) && !RecordingBusy(s) && !s.play.active
    ensures Run(s, TESTING) == s.(live := s.live + {4}, test := SpeakerTest(Some(4), true))
  {
    hide Step, Owned;
    RunTwo(s, TESTING[0], TESTING[1]);
    TestAsked(s);
    TestBegins(s);
  }

  lemma TestAsked(s: State)
    requires !Busy(s) && !RecordingBusy(s) && !s.play.active
    ensures Step(s, TESTING[0]) == s.(request := Some(Request(3, KTestPreflight)), test := s.test.(active := true))
  {
  }

  lemma TestBegins(s: State)
    requires s.request.None?
    ensures Step(s.(request := Some(Request(3, KTestPreflight)), test := s.test.(active := true)), TESTING[1])
         == s.(live := s.live + {4}, test := SpeakerTest(Some(4), true))
  {
  }

  /** A recording is running; an invalid recording request makes the manager forget it, and the speaker test then
      starts beside it. */
  lemma ForgottenRecording()
    ensures var s := Run(IDLE, RECORDING + [ERecord(None, Given(3, 4))] + TESTING);
            s.live == {2, 4} && s.told == {} && !OwnsRecording(s) && s.test.id == Some(4)
  {
    Recorded();
    RunAppend(IDLE, RECORDING, [ERecord(None, Given(3, 4))]);
    RunAppend(IDLE, RECORDING + [ERecord(None, Given(3, 4))], TESTING);
    var s := Run(IDLE, RECORDING);
    RunOne(s, ERecord(None, Given(3, 4)));
    var t := Step(s, ERecord(None, Given(3, 4)));
    assert t == s.(rec := Recording(None, Some(7), false, false));
    Tested(t);
  }

  /** A shutdown tells the recording to stop and does not wait for it: the test starts beside the old process. */
  lemma ReleasedRecording()
    ensures var s := Run(IDLE, RECORDING + [EShutdownRecording] + TESTING);
            s.live == {2, 4} && s.told == {2} && !OwnsRecording(s) && s.test.id == Some(4)
  {
    Recorded();
    RunAppend(IDLE, RECORDING, [EShutdownRecording]);
    RunAppend(IDLE, RECORDING + [EShutdownRecording], TESTING);
    var s := Run(IDLE, RECORDING);
    RunOne(s, EShutdownRecording);
    var t := Step(s, EShutdownRecording);
    assert t == s.(rec := Recording(None, Some(7), false, false), told := {2});
    Tested(t);
  }

  // ----- An orphaned automated capture --------------------------------------------------------------------

  const CAPTURING: seq<Event> := [ECapture(Some(7), Given(1, 2)), ESucceeded(1, ConfigReady(7, true), Given(1, 2))]

  /** An automated capture is running. */
  const CAPTURED: State := IDLE.(
    live := {2}, begun := NONE_YET.(capture := 1), capture := Automation(true, false, false),
    rec := Recording(Some(2), Some(7), true, false))

  lemma CaptureAsked()
    ensures Step(IDLE, CAPTURING[0])
         == CAPTURED.(live := {}, rec := IDLE.rec.(path := Some(7)), request := Some(Request(1, KRecordingPreflight)))
  {
  }

  lemma MadeCapture()
    ensures Run(IDLE, CAPTURING) == CAPTURED
  {
    CaptureAsked();
    RunTwo(IDLE, CAPTURING[0], CAPTURING[1]);
    assert {} + {2} == {2};
  }

  lemma CaptureOrphaned()
    ensures OrphanedCapture(Run(IDLE, CAPTURING + [EShutdownRecording]))
  {
    MadeCapture();
    RunAppend(IDLE, CAPTURING, [EShutdownRecording]);
    RunOne(CAPTURED, EShutdownRecording);
  }

  // ----- A stopped automated playback ---------------------------------------------------------------------

  const VERIFIED: seq<Event> := [EFinished(2, 0, Given(3, 3)), ESucceeded(3, Verified(true, 7), Given(3, 3))]
  const STOPPED: seq<Event> := [EStopPlayback, EFinished(5, SIGTERM, Given(6, 6))]
  const PLAYING: seq<Event> := [EAutoPlayback(Given(4, 5)), ESucceeded(4, PlaybackReady(7), Given(4, 5))]
  const VALIDATED: seq<Event> := [EValidateFile(Some(9), Given(6, 6)), ESucceeded(6, FileFound(9), Given(6, 6))]

  /** A recording has been made and verified. */
  const READY: State := IDLE.(lastRecorded := Some(7), rec := Recording(None, Some(7), false, false))

  lemma MadeReady()
    ensures Run(IDLE, RECORDING + VERIFIED) == READY
  {
    hide Step;
    Recorded();
    RunAppend(IDLE, RECORDING, VERIFIED);
    var s := Run(IDLE, RECORDING);
    RunTwo(s, VERIFIED[0], VERIFIED[1]);
    RecordingEnds(s);
    RecordingVerifies();
  }

  const UNVERIFIED: State := READY.(
    lastRecorded := None, rec := Recording(Some(2), Some(7), false, false),
    request := Some(Request(3, KRecordingVerify)))

  lemma RecordingEnds(s: State)
    requires s == IDLE.(live := {2}, rec := Recording(Some(2), Some(7), true, false))
    ensures Step(s, VERIFIED[0]) == UNVERIFIED
  {
    assert {2} - {2} == {};
  }

  lemma RecordingVerifies()
    ensures Step(UNVERIFIED, VERIFIED[1]) == READY
  {
  }

  /** An automated playback is running. */
  const PLAYED: State := READY.(
    live := {5}, begun := NONE_YET.(play := 1), auto := Automation(true, false, false),
    play := Playback(Some(5), Some(7), true, false, Some(RecordedFile)))

  lemma MadePlaying()
    ensures Run(READY, PLAYING) == PLAYED
  {
    RunTwo(READY, PLAYING[0], PLAYING[1]);
    assert {} + {5} == {5};
  }

  /** It was stopped by the playback's own button and has ended, without a result. */
  const ORPHANED: State := PLAYED.(
    live := {}, told := {5}, play := Playback(None, None, false, false, Some(RecordedFile)))

  lemma MadeOrphan()
    ensures Run(PLAYED, STOPPED) == ORPHANED
  {
    RunTwo(PLAYED, STOPPED[0], STOPPED[1]);
    assert {} + {5} == {5} && {5} - {5} == {};
    assert Step(PLAYED, STOPPED[0]) == PLAYED.(told := {5}, play := PLAYED.play.(stop := true));
  }

  lemma MadeValid()
    ensures Run(ORPHANED, VALIDATED) == ORPHANED.(validated := Some(9), validatedInput := Some(9))
  {
    RunTwo(ORPHANED, VALIDATED[0], VALIDATED[1]);
  }

  const TO_ORPHAN: seq<Event> := RECORDING + VERIFIED + PLAYING + STOPPED

  lemma PlaybackOrphaned()
    ensures Run(IDLE, TO_ORPHAN) == ORPHANED && OrphanedPlayback(ORPHANED) && ORPHANED.book.published == []
  {
    MadeReady();
    MadePlaying();
    MadeOrphan();
    RunAppend(IDLE, RECORDING + VERIFIED, PLAYING);
    RunAppend(IDLE, RECORDING + VERIFIED + PLAYING, STOPPED);
  }

  /** The only result that was ever published for it says that it passed, and comes when another file, validated and
      played by hand, has ended. */
  lemma StoppedPlaybackReportsPass()
    ensures Run(IDLE, TO_ORPHAN + VALIDATED + BY_HAND).book.published == [Result(Play, Pass, false)]
  {
    hide Step, OrphanedPlayback;
    PlaybackOrphaned();
    MadeValid();
    RunAppend(IDLE, TO_ORPHAN, VALIDATED);
    RunAppend(IDLE, TO_ORPHAN + VALIDATED, BY_HAND);
    var s := ORPHANED.(validated := Some(9), validatedInput := Some(9));
    RunThree(s, BY_HAND[0], BY_HAND[1], BY_HAND[2]);
    ByHand(s);
  }

  const BY_HAND: seq<Event> := [
    EPlay(Some(9), Given(7, 8)), ESucceeded(7, MixerReady, Given(7, 8)), EFinished(8, 0, Given(9, 9))]

  lemma ByHand(s: State)
    requires s == ORPHANED.(validated := Some(9), validatedInput := Some(9))
    ensures Step(Step(Step(s, BY_HAND[0]), BY_HAND[1]), BY_HAND[2]).book.published == [Result(Play, Pass, false)]
  {
    StepsAre(s);
    hide Step, PlayFile, Succeeded, Finished;
    StoppedPlaybackPasses(s, 9, Given(7, 8), Given(7, 8), Given(9, 9));
  }

  lemma StepsAre(s: State)
    ensures Step(s, BY_HAND[0]) == PlayFile(s, Some(9), Given(7, 8))
    ensures forall t :: Step(t, BY_HAND[1]) == Succeeded(t, 7, MixerReady, Given(7, 8))
    ensures forall t :: Step(t, BY_HAND[2]) == Finished(t, 8, 0, Given(9, 9))
  {
  }

  // ----- A lost request ---------------------------------------------------------------------------------------

  /** The volume is asked for while a recording runs; the recording ends, and the answer is then for nobody. */
  lemma VolumeLost()
    ensures Run(IDLE, RECORDING + [EVolume(true, Given(3, 3))]) == VOLUME_ASKED
    ensures var over := Step(VOLUME_ASKED, EFinished(2, 0, Given(4, 4)));
            && over.request == Some(Request(4, KRecordingVerify))
            && forall answer, env :: Succeeded(over, 3, answer, env) == over
  {
    Recorded();
    RunAppend(IDLE, RECORDING, [EVolume(true, Given(3, 3))]);
    RunOne(Run(IDLE, RECORDING), EVolume(true, Given(3, 3)));
    VolumeOver();
  }

  const VOLUME_ASKED: State :=
    IDLE.(live := {2}, rec := Recording(Some(2), Some(7), true, false), request := Some(Request(3, KVolume)))

  lemma VolumeOver()
    ensures Step(VOLUME_ASKED, EFinished(2, 0, Given(4, 4))).request == Some(Request(4, KRecordingVerify))
  {
  }

  // ----- A duplex verified after the connection was lost ----------------------------------------------------

  const DUPLEX: Env := Env(true, Some(1), Some(2), Some(3), false)
  const BOTH: seq<Event> := [EDuplex(true, Some(9), DUPLEX), ESucceeded(1, DuplexReady(true), DUPLEX)]
  const ENDED: seq<Event> := [EFinished(2, 0, Given(4, 4)), EFinished(3, 0, Given(4, 4))]

  /** Both processes have ended well, and the verification is under way. */
  const VERIFYING: State := IDLE.(
    begun := NONE_YET.(duplex := 1), request := Some(Request(4, KDuplexVerify)),
    duplex := Duplex(true, Some(2), Some(3), true, true, 0, 0, false, false))

  lemma MadeVerifying()
    ensures Run(IDLE, BOTH + ENDED) == VERIFYING
  {
    RunAppend(IDLE, BOTH, ENDED);
    BothStart();
    BothEnd();
  }

  /** Both processes have been started. */
  const STARTED: State := VERIFYING.(
    request := None, live := {2, 3}, duplex := Duplex(true, Some(2), Some(3), false, false, 0, 0, false, false))

  lemma BothStart()
    ensures Run(IDLE, BOTH) == STARTED
  {
    RunTwo(IDLE, BOTH[0], BOTH[1]);
    assert {} + {2} + {3} == {2, 3};
  }

  lemma BothEnd()
    ensures Run(STARTED, ENDED) == VERIFYING
  {
    RunTwo(STARTED, ENDED[0], ENDED[1]);
    assert {2, 3} - {2} == {3} && {3} - {3} == {};
  }

  lemma DuplexPublishesTwice(outcome: Outcome)
    ensures var s := Run(IDLE, BOTH + ENDED + [EDisconnect, ESucceeded(4, ActionDone(outcome), Given(5, 5))]);
            && s.begun.Count(FullDuplex) == 1
            && s.book.published == [Result(FullDuplex, Blocked, false), Result(FullDuplex, outcome, false)]
  {
    var late := ESucceeded(4, ActionDone(outcome), Given(5, 5));
    MadeVerifying();
    RunAppend(IDLE, BOTH + ENDED, [EDisconnect, late]);
    hide Run;
    LostAndAnswered(VERIFYING, outcome);
  }

  lemma LostAndAnswered(s: State, outcome: Outcome)
    requires OnlyVerifies(s) && s.request.value.id == 4
    ensures var t := Run(s, [EDisconnect, ESucceeded(4, ActionDone(outcome), Given(5, 5))]);
            && t.begun == s.begun
            && t.book.published
               == s.book.published + [Result(FullDuplex, Blocked, false), Result(FullDuplex, outcome, false)]
  {
    hide Step, Disconnect;
    RunTwo(s, EDisconnect, ESucceeded(4, ActionDone(outcome), Given(5, 5)));
    LostVerifying(s);
    StepDisconnects(s);
    LateAnswer(Disconnect(s), outcome);
  }

  /** Nothing but a duplex verification is under way. */
  predicate OnlyVerifies(s: State) {
    && KindIs(s, KDuplexVerify) && s.duplex.active && !s.auto.active && !s.capture.active && !s.test.active
    && !s.chan.active && !s.play.active && !RecordingBusy(s)
  }

  lemma LostVerifying(s: State)
    requires OnlyVerifies(s)
    ensures var t := Disconnect(s);
            && t.request == s.request && t.begun == s.begun
            && t.book.published == s.book.published + [Result(FullDuplex, Blocked, false)]
  {
    hide FinishCapture, FinishPlayback;
    var t := s.(validated := None, validatedInput := None, live := {});
    NothingToFinish(t);
    assert DropRequest(t) == t && DropTest(t) == t && DropChannel(t) == t;
    assert DropPlayback(t) == t && DropRecording(t) == t;
  }

  lemma NothingToFinish(s: State)
    ensures !s.auto.active ==> FinishPlayback(s, Blocked) == s
    ensures !s.capture.active ==> FinishCapture(s, Blocked) == s
  {
  }

  lemma LateAnswer(s: State, outcome: Outcome)
    requires s.request == Some(Request(4, KDuplexVerify))
    ensures var t := Step(s, ESucceeded(4, ActionDone(outcome), Given(5, 5)));
            t.begun == s.begun && t.book.published == s.book.published + [Result(FullDuplex, outcome, false)]
  {
  }

  lemma StepDisconnects(s: State)
    ensures Step(s, EDisconnect) == Disconnect(s)
  {
  }
}
