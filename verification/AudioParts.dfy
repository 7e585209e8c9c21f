/** Recording, playback and left/right test apart: what every event makes of each of them. */
module AudioParts {
  import opened Options
  import opened AudioProtocol
  import opened AudioTheorems
  import opened AudioOutcomes
  import opened AudioCalls

  // ----- The left/right test ------------------------------------------------------------------------

  const NO_TEST: SpeakerTest := SpeakerTest(None, false)

  /** It is under way from its call on until its preparation fails, its process ends, it is shut down or the connection
      is lost. */
  function TestAfter(s: State, e: Event): SpeakerTest {
    match e
    case ETest(_) => if Undisturbed(s, e) then s.test.(active := true) else s.test
    case ESucceeded(id, answer, env) =>
      if Answers(s, id) != Some(KTestPreflight) || !answer.TestReady? then s.test
      else if env.launch.Some? then s.test.(id := env.launch)
      else NO_TEST
    case EFailed(id, _) => if Answers(s, id) == Some(KTestPreflight) then NO_TEST else s.test
    case EFinished(p, _, _) => if IsTest(s, p) && !IsDuplex(s, p) then NO_TEST else s.test
    case EBroke(p, _) => if IsTest(s, p) && !IsDuplex(s, p) then NO_TEST else s.test
    case EShutdownTest => NO_TEST
    case EDisconnect => if s.test.active || KindIs(s, KTestPreflight) then NO_TEST else s.test
    case _ => s.test
  }

  // ----- The recording ------------------------------------------------------------------------------

  function Released(r: Recording): Recording {
    r.(id := None, active := false, stop := false)
  }

  /** Nothing stands in the way of a recording. */
  predicate RecordingAllowed(s: State, env: Env) {
    && env.connected && s.request.None? && !s.test.active && !s.chan.active && !s.duplex.active
    && !s.rec.active && s.rec.id.None? && !s.play.active
  }

  /** A recording that is asked for keeps its file, unless it cannot even be prepared. */
  function RecordingAsked(s: State, config: Option<Path>, env: Env): Recording {
    if config.None? then Released(s.rec)
    else if !RecordingAllowed(s, env) then s.rec
    else if env.submit.None? then Released(s.rec).(path := config)
    else s.rec.(path := config, stop := false)
  }

  /** After its process the recording is still to be verified, if that can be asked for. */
  function RecordingEnded(s: State, env: Env): Recording {
    if Unverified(s, env).Some? then Released(s.rec) else s.rec.(active := false)
  }

  function RecordingStopped(s: State): Recording {
    if s.rec.id.Some? && s.rec.active then s.rec.(stop := true) else s.rec
  }

  function RecordingAfter(s: State, e: Event): Recording {
    match e
    case ERecord(config, env) => RecordingAsked(s, config, env)
    case ECapture(config, env) =>
      if s.capture.active || s.duplex.active || Occupied(s) || s.play.active then s.rec
      else RecordingAsked(s, config, env)
    case ESucceeded(id, answer, env) =>
      if Answers(s, id) == Some(KRecordingPreflight) && answer.ConfigReady? then
        if answer.buildable && env.launch.Some? then Recording(env.launch, Some(answer.path), true, false)
        else Released(s.rec)
      else if Answers(s, id) == Some(KRecordingVerify) && answer.Verified? then Released(s.rec)
      else s.rec
    case EFailed(id, _) =>
      if Answers(s, id) == Some(KRecordingPreflight) || Answers(s, id) == Some(KRecordingVerify) then Released(s.rec)
      else s.rec
    case EFinished(p, code, env) =>
      if !IsRecording(s, p) then s.rec
      else if code == 0 || code == -15 || s.rec.stop then RecordingEnded(s, env)
      else Released(s.rec)
    case EBroke(p, env) =>
      if !IsRecording(s, p) then s.rec else if s.rec.stop then RecordingEnded(s, env) else Released(s.rec)
    case EStopRecording => RecordingStopped(s)
    case EStopAutomation =>
      if !s.capture.active then s.rec
      else if KindIs(s, KRecordingPreflight) then Released(s.rec)
      else RecordingStopped(s)
    case EShutdownRecording => Released(s.rec)
    case EDisconnect => if RecordingBusy(s) then Released(s.rec) else s.rec
    case _ => s.rec
  }

  // ----- The playback -------------------------------------------------------------------------------

  function Silent(p: Playback): Playback {
    p.(id := None, file := None, active := false, stop := false)
  }

  function Playing(p: Playback, id: nat): Playback {
    p.(id := Some(id), active := true, stop := false)
  }

  function PlaybackStopped(s: State): Playback {
    if s.play.active && s.play.id.Some? then s.play.(stop := true) else s.play
  }

  function PlaybackResumed(s: State, env: Env): Playback {
    if s.play.file.Some? && s.play.source.Some? && env.launch.Some? then Playing(s.play, env.launch.value) else s.play
  }

  /** The file asked for could be played if the request could be submitted. */
  predicate PlaybackAllowed(s: State, path: Option<Path>, env: Env) {
    Undisturbed(s, EPlay(path, env.(submit := Some(0)))) && WasValidated(s, path)
  }

  function PlaybackAfter(s: State, e: Event): Playback {
    match e
    case EPlay(path, env) =>
      if !PlaybackAllowed(s, path, env) then s.play
      else if env.submit.None? then s.play.(source := None, file := None)
      else s.play.(source := Some(NormalFile), file := s.validated)
    case EPlayRecorded(_) => if Undisturbed(s, e) && Proper(s, e) then s.play.(source := Some(RecordedFile)) else s.play
    case EAutoPlayback(_) => if Undisturbed(s, e) && Proper(s, e) then s.play.(source := Some(RecordedFile)) else s.play
    case ESucceeded(id, answer, env) =>
      if Answers(s, id) == Some(KRecordedValidate) && answer.FileFound? then
        if env.submit.None? then s.play.(source := None, file := None)
        else s.play.(source := Some(RecordedFile), file := Some(answer.path))
      else if Answers(s, id) == Some(KRecordedValidate) && answer.PlaybackReady? then
        var found := s.play.(source := Some(RecordedFile), file := Some(answer.path));
        if env.launch.Some? then Playing(found, env.launch.value) else found
      else if Answers(s, id) == Some(KPlaybackMixer) && answer.MixerReady? then PlaybackResumed(s, env)
      else s.play
    case EFailed(id, env) =>
      if Answers(s, id) == Some(KPlaybackMixer) && env.connected then PlaybackResumed(s, env) else s.play
    case EFinished(p, _, _) => if IsPlayback(s, p) then Silent(s.play) else s.play
    case EBroke(p, _) => if IsPlayback(s, p) then Silent(s.play) else s.play
    case EStopPlayback => PlaybackStopped(s)
    case EStopAutomation =>
      if !s.auto.active then s.play
      else if KindIs(s, KRecordedValidate) then Silent(s.play)
      else PlaybackStopped(s)
    case EShutdownPlayback => Silent(s.play)
    case EDisconnect => if s.play.active then Silent(s.play) else s.play
    case _ => s.play
  }

  // ----- Every step -----------------------------------------------------------------------------------

  predicate SameParts(s: State, t: State) {
    t.test == s.test && t.rec == s.rec && t.play == s.play
  }

  predicate PartsAfter(s: State, e: Event, t: State) {
    t.test == TestAfter(s, e) && t.rec == RecordingAfter(s, e) && t.play == PlaybackAfter(s, e)
  }

  lemma FinishParts()
    ensures forall s, o :: SameParts(s, FinishCapture(s, o)) && SameParts(s, FinishPlayback(s, o))
    ensures forall s, o :: SameParts(s, FinishDuplex(s, o)) && SameParts(s, FinishChannel(s, o))
  {
    hide Closed;
  }

  lemma CaptureParts(s: State, e: Event)
    requires e.ECapture? || e.ERecord?
    ensures PartsAfter(s, e, Step(s, e))
  {
    hide FinishCapture, FinishPlayback, FinishDuplex, FinishChannel, Denied;
    FinishParts();
  }

  lemma CallParts(s: State, e: Event)
    requires IsCall(e) && !e.ECapture? && !e.ERecord?
    ensures PartsAfter(s, e, Step(s, e))
  {
    hide FinishCapture, FinishPlayback, FinishDuplex, FinishChannel, Denied;
    FinishParts();
  }

  lemma AnswerParts(s: State, id: nat, answer: Answer, env: Env)
    ensures PartsAfter(s, ESucceeded(id, answer, env), Succeeded(s, id, answer, env))
  {
    hide FinishCapture, FinishPlayback, FinishDuplex, FinishChannel, Closed;
    FinishParts();
  }

  lemma RefusalParts(s: State, id: nat, env: Env)
    ensures PartsAfter(s, EFailed(id, env), Failed(s, id, env)) && SameParts(s, Began(s, id))
  {
    hide FinishCapture, FinishPlayback, FinishDuplex, FinishChannel, Closed;
    FinishParts();
  }

  lemma EndParts(s: State, id: nat, code: int, env: Env)
    ensures PartsAfter(s, EFinished(id, code, env), Finished(s, id, code, env))
  {
    hide FinishCapture, FinishPlayback, FinishDuplex, FinishChannel;
    FinishParts();
  }

  lemma BreakParts(s: State, id: nat, env: Env)
    ensures PartsAfter(s, EBroke(id, env), Broke(s, id, env))
  {
    hide FinishCapture, FinishPlayback, FinishDuplex, FinishChannel;
    FinishParts();
  }

  lemma StopParts(s: State)
    ensures SameParts(s, StopDuplex(StopChannel(s)))
    ensures StopCapture(s).test == s.test && StopCapture(s).play == s.play
    ensures StopCapture(s).rec
         == if !s.capture.active then s.rec
            else if KindIs(s, KRecordingPreflight) then Released(s.rec) else RecordingStopped(s)
    ensures StopAuto(s).test == s.test && StopAuto(s).rec == s.rec
    ensures StopAuto(s).play
         == if !s.auto.active then s.play
            else if KindIs(s, KRecordedValidate) then Silent(s.play) else PlaybackStopped(s)
  {
    hide FinishCapture, FinishPlayback, FinishDuplex, FinishChannel;
    FinishParts();
  }

  lemma StopAutomationParts(s: State)
    ensures PartsAfter(s, EStopAutomation, StopAutomation(s))
  {
    hide StopChannel, StopDuplex, StopCapture, StopAuto;
    StopsApart(s);
    StopParts(s);
    StopParts(StopDuplex(StopChannel(s)));
    StopParts(StopCapture(StopDuplex(StopChannel(s))));
  }

  lemma CeaseParts(s: State, e: Event)
    requires IsCease(e) && !e.EStopAutomation?
    ensures PartsAfter(s, e, Step(s, e))
  {
    hide FinishChannel;
    FinishParts();
  }

  lemma DropParts(s: State)
    ensures SameParts(s, DropRequest(s)) && SameParts(s, DropChannel(s))
    ensures DropTest(s).rec == s.rec && DropTest(s).play == s.play
    ensures DropTest(s).test == if s.test.active || KindIs(s, KTestPreflight) then NO_TEST else s.test
    ensures DropPlayback(s).test == s.test && DropPlayback(s).rec == s.rec
    ensures DropPlayback(s).play == if s.play.active then Silent(s.play) else s.play
    ensures DropRecording(s).test == s.test && DropRecording(s).play == s.play
    ensures DropRecording(s).rec == if RecordingBusy(s) then Released(s.rec) else s.rec
  {
    hide FinishCapture, FinishPlayback, FinishDuplex, FinishChannel, Closed;
    FinishParts();
  }

  /** The drops before it take no request of the recording or of the left/right test. */
  lemma DropKinds(s: State)
    ensures KindIs(DropRequest(s), KTestPreflight) == KindIs(s, KTestPreflight)
    ensures RecordingBusy(DropRequest(s)) == RecordingBusy(s) && RecordingBusy(DropTest(s)) == RecordingBusy(s)
  {
    hide FinishDuplex, Closed;
    FinishParts();
    FinishRequests();
  }

  lemma DropOthers(s: State)
    ensures RecordingBusy(DropChannel(s)) == RecordingBusy(s) && RecordingBusy(DropPlayback(s)) == RecordingBusy(s)
  {
    hide FinishPlayback, FinishChannel;
    FinishParts();
    FinishRequests();
  }

  lemma DisconnectParts(s: State)
    ensures PartsAfter(s, EDisconnect, Disconnect(s))
  {
    hide DropRequest, DropTest, DropChannel, DropPlayback, DropRecording, FinishDuplex;
    var t0 := s.(validated := None, validatedInput := None, live := {});
    var t1 := DropRequest(t0);
    var t2 := DropTest(t1);
    var t3 := DropChannel(t2);
    DropKinds(t0);
    DropKinds(t1);
    DropOthers(t2);
    DropOthers(t3);
    DropParts(t0);
    DropParts(t1);
    DropParts(t2);
    DropParts(t3);
    DropParts(DropPlayback(t3));
    FinishParts();
  }

  /** In every state, what every event makes of the recording, the playback and the left/right test. */
  lemma StepParts(s: State, e: Event)
    ensures PartsAfter(s, e, Step(s, e))
  {
    hide Succeeded, Failed, Finished, Broke, Began, Disconnect, StopAutomation;
    match e
    case ESucceeded(id, answer, env) => AnswerParts(s, id, answer, env);
    case EFailed(id, env) => RefusalParts(s, id, env);
    case EBegan(id) => RefusalParts(s, id, Env(false, None, None, None, false));
    case EFinished(id, code, env) => EndParts(s, id, code, env);
    case EBroke(id, env) => BreakParts(s, id, env);
    case EDisconnect => DisconnectParts(s);
    case EStopAutomation => StopAutomationParts(s);
    case ECapture(_, _) => hide *; CaptureParts(s, e);
    case ERecord(_, _) => hide *; CaptureParts(s, e);
    case _ => hide *; OtherParts(s, e);
  }

  lemma OtherParts(s: State, e: Event)
    requires (IsCall(e) && !e.ECapture? && !e.ERecord?) || (IsCease(e) && !e.EStopAutomation?)
    ensures PartsAfter(s, e, Step(s, e))
  {
    hide *;
    if IsCease(e) && !e.EStopAutomation? {
      CeaseParts(s, e);
    } else {
      CallParts(s, e);
    }
  }
}
