/** The audio manager as a program: its fields, grouped by activity, and one method for each of its own. */
module AudioProgram {
  import opened Options
  import opened AudioProtocol
  import opened AudioTheorems

  class AudioManager {
    var request: Option<Request>
    var validatedFile: Option<Path>
    var validatedInput: Option<Path>
    var lastRecorded: Option<Path>
    var playback: Playback
    var recording: Recording
    var speakerTest: SpeakerTest
    var channel: Channel
    var capture: Automation
    var auto: Automation
    var duplex: Duplex
    var book: Book
    ghost var live: set<nat>
    ghost var told: set<nat>
    ghost var begun: Tally

    ghost function View(): State
      reads this
    {
      State(request, playback, recording, speakerTest, channel, capture, auto, duplex, lastRecorded, validatedFile,
            validatedInput, live, told, begun, book)
    }

    /** At most one activity is owned. */
    ghost predicate Valid()
      reads this
    {
      Owned(View())
    }

    constructor ()
      ensures View() == IDLE && Valid()
    {
      request, validatedFile, validatedInput, lastRecorded := None, None, None, None;
      playback, recording := Playback(None, None, false, false, None), Recording(None, None, false, false);
      speakerTest, channel, duplex := SpeakerTest(None, false), Channel(None, false, false), NO_DUPLEX;
      capture, auto := NO_AUTOMATION, NO_AUTOMATION;
      live, told, begun, book := {}, {}, NONE_YET, NO_PAGES;
    }

    // ----- Guards -----------------------------------------------------------------------------------

    predicate RequestIs(kind: Kind)
      reads this
    {
      request.Some? && request.value.kind == kind
    }

    predicate IsBusy()
      reads this
    {
      request.Some? || speakerTest.active || channel.active || duplex.active
    }

    predicate IsRecordingBusy()
      reads this
    {
      recording.active || recording.id.Some? || RequestIs(KRecordingPreflight) || RequestIs(KRecordingVerify)
    }

    // ----- Results ----------------------------------------------------------------------------------

    method Publish(action: Action, outcome: Outcome)
      modifies this
      ensures View() == Finish(old(View()), action, outcome)
    {
      book := Closed(book, action, outcome);
    }

    method Block(action: Action)
      modifies this
      ensures View() == Refuse(old(View()), action)
    {
      book := Denied(book, action);
    }

    method StopProcess(id: Option<nat>)
      modifies this
      ensures View() == Told(old(View()), id)
    {
      if id.Some? {
        told := told + {id.value};
      }
    }

    method Submit(id: nat, kind: Kind)
      modifies this
      ensures View() == Submitted(old(View()), id, kind)
    {
      request := Some(Request(id, kind));
    }

    method FinishCapture(outcome: Outcome)
      modifies this
      ensures View() == AudioProtocol.FinishCapture(old(View()), outcome)
    {
      if !capture.active {
        return;
      }
      var final := if capture.stop then Stopped else outcome;
      capture := NO_AUTOMATION;
      Publish(Capture, final);
    }

    method FinishPlayback(outcome: Outcome)
      modifies this
      ensures View() == AudioProtocol.FinishPlayback(old(View()), outcome)
    {
      if !auto.active {
        return;
      }
      var final := if auto.stop then Stopped else outcome;
      auto := NO_AUTOMATION;
      Publish(Play, final);
    }

    method FinishDuplex(outcome: Outcome)
      modifies this
      ensures View() == AudioProtocol.FinishDuplex(old(View()), outcome)
    {
      if !duplex.active {
        return;
      }
      duplex := NO_DUPLEX.(captureCode := duplex.captureCode, playbackCode := duplex.playbackCode);
      Publish(FullDuplex, outcome);
    }

    method FinishChannel(outcome: Outcome)
      modifies this
      ensures View() == AudioProtocol.FinishChannel(old(View()), outcome)
    {
      if !channel.active {
        return;
      }
      channel := Channel(None, false, false);
      Publish(ChannelTest, outcome);
    }

    method ClearRecording()
      modifies this
      ensures View() == AudioProtocol.ClearRecording(old(View()))
    {
      recording := recording.(id := None, active := false, stop := false);
    }

    method ClearPlayback()
      modifies this
      ensures View() == AudioProtocol.ClearPlayback(old(View()))
    {
      playback := playback.(id := None, file := None, active := false, stop := false);
    }

    method ClearTest()
      modifies this
      ensures View() == AudioProtocol.ClearTest(old(View()))
    {
      speakerTest := SpeakerTest(None, false);
    }

    method FailRecording(outcome: Outcome)
      modifies this
      ensures View() == AudioProtocol.FailRecording(old(View()), outcome)
    {
      FinishCapture(outcome);
      ClearRecording();
    }

    // ----- Starting ---------------------------------------------------------------------------------

    method RunAudioPrecheck(env: Env) returns (ok: bool)
      requires Valid()
      modifies this
      ensures View() == RunPrecheck(old(View()), env) && Valid()
      ensures ok <==> Asked(old(View()), View(), KPrecheck)
      ensures if ok then book == old(book) else OneResult(old(View()), View(), Precheck)
    {
      PrecheckOwned(View(), env);
      hide Owned;
      if IsBusy() || IsRecordingBusy() || !env.connected || env.submit.None? {
        Block(Precheck);
        return false;
      }
      Submit(env.submit.value, KPrecheck);
      begun := begun.Plus(Precheck);
      return true;
    }

    method StartRecording(config: Option<Path>, env: Env) returns (ok: bool)
      modifies this
      ensures View() == Record(old(View()), config, env) && ok == Records(old(View()), config, env)
    {
      if config.None? {
        FailRecording(Fail);
        return false;
      }
      if IsRecordingBusy() || IsBusy() || playback.active || speakerTest.active || !env.connected {
        return false;
      }
      recording := recording.(path := config, stop := false);
      if env.submit.None? {
        FailRecording(Fail);
        return false;
      }
      Submit(env.submit.value, KRecordingPreflight);
      return true;
    }

    method CaptureAudio(config: Option<Path>, env: Env) returns (ok: bool)
      requires Valid()
      modifies this
      ensures View() == RunCapture(old(View()), config, env) && Valid()
      ensures ok <==> Asked(old(View()), View(), KRecordingPreflight)
      ensures if ok then book == old(book) else OneResult(old(View()), View(), Capture)
    {
      CaptureOwned(View(), config, env);
      hide Owned;
      hide Record;
      if capture.active || duplex.active || IsBusy() || IsRecordingBusy() || playback.active {
        Block(Capture);
        return false;
      }
      capture := Automation(true, false, env.archive);
      begun := begun.Plus(Capture);
      ok := StartRecording(config, env);
      if !ok {
        FinishCapture(Fail);
      }
    }

    method AnalyzeLastWav(env: Env) returns (ok: bool)
      requires Valid()
      modifies this
      ensures View() == RunAnalysis(old(View()), env) && Valid()
      ensures ok <==> Asked(old(View()), View(), KAnalyze)
      ensures if ok then book == old(book) else OneResult(old(View()), View(), Analyze)
    {
      AnalysisOwned(View(), env);
      hide Owned;
      if IsBusy() || IsRecordingBusy() || playback.active || lastRecorded.None? || !env.connected || env.submit.None? {
        Block(Analyze);
        return false;
      }
      Submit(env.submit.value, KAnalyze);
      begun := begun.Plus(Analyze);
      return true;
    }

    method PlayRecordedFile(env: Env) returns (ok: bool)
      modifies this
      ensures View() == PlayRecorded(old(View()), env) && ok == PlaysRecorded(old(View()), env)
    {
      if playback.active || IsRecordingBusy() || speakerTest.active || IsBusy() || !env.connected || lastRecorded.None?
         || env.submit.None?
      {
        return false;
      }
      playback := playback.(source := Some(RecordedFile));
      Submit(env.submit.value, KRecordedValidate);
      return true;
    }

    method StartAutomationPlayback(env: Env) returns (ok: bool)
      requires Valid()
      modifies this
      ensures View() == RunPlayback(old(View()), env) && Valid()
      ensures ok <==> Asked(old(View()), View(), KRecordedValidate)
      ensures if ok then book == old(book) else OneResult(old(View()), View(), Play)
    {
      AutoPlaybackOwned(View(), env);
      hide Owned;
      if auto.active || duplex.active || lastRecorded.None? || IsBusy() || IsRecordingBusy() || playback.active
         || !env.connected
      {
        Block(Play);
        return false;
      }
      auto := Automation(true, false, false);
      begun := begun.Plus(Play);
      ok := PlayRecordedFile(env);
      if !ok {
        FinishPlayback(Fail);
      }
    }

    method StartFullDuplex(valid: bool, path: Option<Path>, env: Env) returns (ok: bool)
      requires Valid()
      modifies this
      ensures View() == RunDuplex(old(View()), valid, path, env) && Valid()
      ensures ok <==> Asked(old(View()), View(), KDuplexPreflight)
      ensures if ok then book == old(book) else OneResult(old(View()), View(), FullDuplex)
    {
      DuplexOwned(View(), valid, path, env);
      hide Owned;
      if duplex.active || IsBusy() || IsRecordingBusy() || playback.active || speakerTest.active
         || (path.None? && lastRecorded.None?) || !env.connected || !valid
      {
        Block(FullDuplex);
        return false;
      }
      duplex := NO_DUPLEX.(active := true);
      begun := begun.Plus(FullDuplex);
      if env.submit.None? {
        FinishDuplex(Blocked);
        return false;
      }
      Submit(env.submit.value, KDuplexPreflight);
      return true;
    }

    method RunSpeakerChannelTest(valid: bool, env: Env) returns (ok: bool)
      requires Valid()
      modifies this
      ensures View() == RunChannel(old(View()), valid, env) && Valid()
      ensures ok <==> Asked(old(View()), View(), KChannelPreflight)
      ensures if ok then book == old(book) else OneResult(old(View()), View(), ChannelTest)
    {
      ChannelOwned(View(), valid, env);
      hide Owned;
      if !valid || channel.active || IsBusy() || IsRecordingBusy() || playback.active || speakerTest.active
         || !env.connected
      {
        Block(ChannelTest);
        return false;
      }
      channel := channel.(active := true, stop := false);
      begun := begun.Plus(ChannelTest);
      if env.submit.None? {
        FinishChannel(Blocked);
        return false;
      }
      Submit(env.submit.value, KChannelPreflight);
      return true;
    }

    method StartSpeakerTest(env: Env) returns (ok: bool)
      requires Valid()
      modifies this
      ensures View() == RunTest(old(View()), env) && Valid()
      ensures ok <==> Asked(old(View()), View(), KTestPreflight)
    {
      TestOwned(View(), env);
      hide Owned;
      if speakerTest.active || playback.active || IsRecordingBusy() || IsBusy() || !env.connected || env.submit.None? {
        return false;
      }
      Submit(env.submit.value, KTestPreflight);
      speakerTest := speakerTest.(active := true);
      return true;
    }

    method SubmitHousehold(kind: Kind, allowed: bool, env: Env) returns (ok: bool)
      modifies this
      ensures View() == Housekeeping(old(View()), kind, allowed, env)
      ensures ok <==> Asked(old(View()), View(), kind)
    {
      if !allowed || IsBusy() || !env.connected || env.submit.None? {
        return false;
      }
      Submit(env.submit.value, kind);
      return true;
    }

    method DiscoverDevices(env: Env) returns (ok: bool)
      requires Valid()
      modifies this
      ensures View() == Housekeeping(old(View()), KDiscovery, !RecordingBusy(old(View())), env) && Valid()
      ensures ok <==> Asked(old(View()), View(), KDiscovery)
    {
      HousekeepingOwned(View(), KDiscovery, !IsRecordingBusy(), env);
      hide Owned;
      ok := SubmitHousehold(KDiscovery, !IsRecordingBusy(), env);
    }

    method SetDefaultSource(valid: bool, env: Env) returns (ok: bool)
      requires Valid()
      modifies this
      ensures View() == Housekeeping(old(View()), KRouteSource, valid && !RecordingBusy(old(View())), env) && Valid()
      ensures ok <==> Asked(old(View()), View(), KRouteSource)
    {
      HousekeepingOwned(View(), KRouteSource, valid && !IsRecordingBusy(), env);
      hide Owned;
      ok := SubmitHousehold(KRouteSource, valid && !IsRecordingBusy(), env);
    }

    method ValidateWavFile(path: Option<Path>, env: Env) returns (ok: bool)
      requires Valid()
      modifies this
      ensures View() == ValidateFile(old(View()), path, env) && Valid()
      ensures ok <==> Asked(old(View()), View(), KValidateFile)
    {
      ValidateOwned(View(), path, env);
      hide Owned;
      validatedFile, validatedInput := None, path;
      ok := SubmitHousehold(KValidateFile, path.Some?, env);
    }

    method StartPlaybackProcess(path: Path, source: Source, env: Env) returns (ok: bool)
      modifies this
      ensures View() == StartPlayback(old(View()), path, source, env)
      ensures ok == env.submit.Some? && (ok ==> KindIs(View(), KPlaybackMixer))
      ensures !ok ==> request == old(request)
    {
      playback := playback.(source := Some(source), file := Some(path));
      if env.submit.None? {
        playback := playback.(source := None, file := None);
        return false;
      }
      Submit(env.submit.value, KPlaybackMixer);
      return true;
    }

    method PlayWavFile(path: Option<Path>, env: Env) returns (ok: bool)
      requires Valid()
      modifies this
      ensures View() == PlayFile(old(View()), path, env) && Valid()
      ensures ok <==> Asked(old(View()), View(), KPlaybackMixer)
    {
      PlayFileOwned(View(), path, env);
      hide Owned;
      if path.None? || playback.active || IsRecordingBusy() || speakerTest.active || IsBusy() || !env.connected
         || validatedFile.None?
      {
        return false;
      }
      if validatedInput.Some? {
        if validatedInput != path {
          return false;
        }
      } else if validatedFile != path {
        return false;
      }
      ok := StartPlaybackProcess(validatedFile.value, NormalFile, env);
    }

    // ----- Stopping ---------------------------------------------------------------------------------

    method StopPlayback() returns (ok: bool)
      modifies this
      ensures View() == AudioProtocol.StopPlayback(old(View())) && ok == StopsPlayback(old(View()))
    {
      ok := playback.active && playback.id.Some?;
      if ok {
        playback := playback.(stop := true);
        StopProcess(playback.id);
      }
    }

    method StopRecording() returns (ok: bool)
      modifies this
      ensures View() == AudioProtocol.StopRecording(old(View())) && ok == StopsRecording(old(View()))
    {
      ok := recording.id.Some? && recording.active && !recording.stop;
      if ok {
        recording := recording.(stop := true);
        StopProcess(recording.id);
      }
    }

    method StopSpeakerChannelTest() returns (ok: bool)
      modifies this
      ensures View() == StopChannel(old(View())) && ok == StopsChannel(old(View()))
    {
      if !channel.active {
        return false;
      }
      channel := channel.(stop := true);
      if RequestIs(KChannelPreflight) {
        request := None;
        FinishChannel(Stopped);
        return true;
      }
      StopProcess(channel.id);
      return channel.id.Some?;
    }

    method StopFullDuplex() returns (ok: bool)
      modifies this
      ensures View() == StopDuplex(old(View())) && ok == StopsDuplex(old(View()))
    {
      if !duplex.active {
        return false;
      }
      duplex := duplex.(stop := true);
      StopProcess(duplex.captureId);
      StopProcess(duplex.playbackId);
      ok := duplex.captureId.Some? || duplex.playbackId.Some?;
      if RequestIs(KDuplexPreflight) {
        request := None;
        FinishDuplex(Stopped);
        ok := true;
      }
    }

    method StopCaptureAutomation() returns (ok: bool)
      modifies this
      ensures View() == StopCapture(old(View())) && ok == StopsCapture(old(View()))
    {
      if !capture.active {
        return false;
      }
      capture := capture.(stop := true);
      if RequestIs(KRecordingPreflight) {
        request := None;
        ClearRecording();
        FinishCapture(Stopped);
        return true;
      }
      ok := StopRecording();
    }

    method StopPlaybackAutomation() returns (ok: bool)
      modifies this
      ensures View() == StopAuto(old(View())) && ok == StopsAuto(old(View()))
    {
      if !auto.active {
        return false;
      }
      auto := auto.(stop := true);
      if RequestIs(KRecordedValidate) {
        request := None;
        ClearPlayback();
        FinishPlayback(Stopped);
        return true;
      }
      ok := StopPlayback();
    }

    method StopAutomation() returns (stopped: bool)
      requires Valid()
      modifies this
      ensures View() == AudioProtocol.StopAutomation(old(View())) && Valid()
      ensures stopped == StopsSome(old(View()))
    {
      StopAutomationOwned(View());
      StopsAreIndependent(View());
      hide Owned, StopChannel, StopDuplex, StopCapture, StopAuto, StopsChannel, StopsDuplex, StopsCapture, StopsAuto;
      stopped := StopSpeakerChannelTest();
      var duplexStopped := StopFullDuplex();
      var captureStopped := StopCaptureAutomation();
      var playbackStopped := StopPlaybackAutomation();
      stopped := stopped || duplexStopped || captureStopped || playbackStopped;
    }

    method ShutdownPlayback()
      requires Valid()
      modifies this
      ensures View() == AudioProtocol.ShutdownPlayback(old(View())) && Valid()
    {
      hide Owned, AudioProtocol.StopPlayback;
      StopPlaybackOwned(View());
      StopProcess(playback.id);
      if RequestIs(KRecordedValidate) || RequestIs(KPlaybackMixer) {
        request := None;
      }
      ClearPlayback();
    }

    method ShutdownRecording()
      requires Valid()
      modifies this
      ensures View() == AudioProtocol.ShutdownRecording(old(View())) && Valid()
    {
      hide Owned, AudioProtocol.StopRecording;
      StopRecordingOwned(View());
      StopProcess(recording.id);
      if RequestIs(KRecordingPreflight) || RequestIs(KRecordingVerify) {
        request := None;
      }
      ClearRecording();
    }

    method ShutdownSpeakerTest()
      requires Valid()
      modifies this
      ensures View() == ShutdownTest(old(View())) && Valid()
    {
      hide Owned;
      ShutdownTestOwned(View());
      StopProcess(speakerTest.id);
      if RequestIs(KTestPreflight) {
        request := None;
      }
      ClearTest();
    }

    // ----- Answers ----------------------------------------------------------------------------------

    method Launch(id: nat)
      modifies this
      ensures View() == Launched(old(View()), id)
    {
      live := live + {id};
    }

    method StartRecordingProcess(path: Path, buildable: bool, env: Env)
      modifies this
      ensures View() == LaunchRecording(old(View()), path, buildable, env)
    {
      if !buildable || env.launch.None? {
        FailRecording(Fail);
        return;
      }
      recording := Recording(env.launch, Some(path), true, false);
      Launch(env.launch.value);
    }

    method StartPlaybackRemoteProcess(path: Path, source: Source, env: Env)
      modifies this
      ensures View() == LaunchPlayback(old(View()), path, source, env)
    {
      playback := playback.(source := Some(source), file := Some(path));
      if env.launch.None? {
        FinishPlayback(Fail);
        return;
      }
      playback := playback.(id := env.launch, active := true, stop := false);
      Launch(env.launch.value);
    }

    method ResumePlaybackProcess(env: Env)
      modifies this
      ensures View() == ResumePlayback(old(View()), env)
    {
      if playback.file.Some? && playback.source.Some? {
        StartPlaybackRemoteProcess(playback.file.value, playback.source.value, env);
      }
    }

    method StartSpeakerTestProcess(env: Env)
      modifies this
      ensures View() == LaunchTest(old(View()), env)
    {
      if env.launch.None? {
        ClearTest();
        return;
      }
      speakerTest := speakerTest.(id := env.launch);
      Launch(env.launch.value);
    }

    method StartSpeakerChannelProcess(env: Env)
      modifies this
      ensures View() == LaunchChannel(old(View()), env)
    {
      if env.launch.None? {
        FinishChannel(Fail);
        return;
      }
      channel := channel.(id := env.launch);
      Launch(env.launch.value);
    }

    method StartFullDuplexProcesses(valid: bool, env: Env)
      modifies this
      ensures View() == LaunchDuplex(old(View()), valid, env)
    {
      if duplex.stop {
        FinishDuplex(Stopped);
        return;
      }
      if !valid || env.launch.None? {
        FinishDuplex(Fail);
        return;
      }
      duplex := duplex.(captureId := env.launch);
      Launch(env.launch.value);
      if env.second.None? {
        StopProcess(env.launch);
        FinishDuplex(Fail);
        return;
      }
      duplex := duplex.(playbackId := env.second);
      Launch(env.second.value);
    }

    method VerifyRecordingOutput(env: Env)
      modifies this
      ensures View() == VerifyRecording(old(View()), env)
    {
      if recording.path.None? || !env.connected {
        FailRecording(if env.connected then Fail else Disconnected);
      } else if env.submit.None? {
        FailRecording(Fail);
      } else {
        Submit(env.submit.value, KRecordingVerify);
      }
    }

    method CompleteRecordingVerification(valid: bool, path: Path, env: Env)
      modifies this
      ensures View() == RecordingVerified(old(View()), valid, path, env)
    {
      ClearRecording();
      if !valid {
        FinishCapture(Fail);
        return;
      }
      lastRecorded := Some(path);
      if capture.active {
        if capture.archive && env.archive && env.submit.Some? {
          Submit(env.submit.value, KArchive);
          return;
        }
        FinishCapture(Pass);
      }
    }

    method Dispatch(kind: Kind, answer: Answer, env: Env)
      modifies this
      ensures View() == Answered(old(View()), kind, answer, env)
    {
      hide LaunchChannel, AudioProtocol.FinishCapture, LaunchDuplex, LaunchRecording, StartPlayback, LaunchPlayback,
        ResumePlayback, LaunchTest, RecordingVerified;
      match kind
      case KPrecheck => if answer.ActionDone? { Publish(Precheck, answer.outcome); }
      case KAnalyze => if answer.ActionDone? { Publish(Analyze, answer.outcome); }
      case KChannelPreflight => if answer.ChannelReady? { StartSpeakerChannelProcess(env); }
      case KArchive => FinishCapture(Pass);
      case KDuplexPreflight => if answer.DuplexReady? { StartFullDuplexProcesses(answer.valid, env); }
      case KDuplexVerify =>
        if answer.ActionDone? {
          Publish(FullDuplex, answer.outcome);
          duplex := NO_DUPLEX;
        }
      case KRecordingPreflight => if answer.ConfigReady? { StartRecordingProcess(answer.path, answer.buildable, env); }
      case KRecordedValidate =>
        if answer.FileFound? {
          var _ := StartPlaybackProcess(answer.path, RecordedFile, env);
        } else if answer.PlaybackReady? {
          StartPlaybackRemoteProcess(answer.path, RecordedFile, env);
        }
      case KPlaybackMixer => if answer.MixerReady? { ResumePlaybackProcess(env); }
      case KTestPreflight => if answer.TestReady? { StartSpeakerTestProcess(env); }
      case KRecordingVerify => if answer.Verified? { CompleteRecordingVerification(answer.valid, answer.path, env); }
      case KValidateFile => if answer.FileFound? { validatedFile := Some(answer.path); }
      case KDiscovery =>
      case KVolume =>
      case KRouteSink =>
      case KRouteSource =>
    }

    method OnOperationSucceeded(id: nat, answer: Answer, env: Env)
      requires Valid()
      modifies this
      ensures View() == Succeeded(old(View()), id, answer, env) && Valid()
    {
      hide Answered, Owned;
      SucceededOwned(View(), id, answer, env);
      if request.None? || request.value.id != id {
        return;
      }
      var kind := request.value.kind;
      request := None;
      Dispatch(kind, answer, env);
    }

    method DispatchFailure(kind: Kind, env: Env)
      modifies this
      ensures View() == Refused(old(View()), kind, env)
    {
      hide AudioProtocol.FinishChannel, AudioProtocol.FinishCapture, AudioProtocol.FinishDuplex,
        AudioProtocol.FailRecording, AudioProtocol.FinishPlayback, ResumePlayback, AudioProtocol.ClearTest;
      match kind
      case KPrecheck => Publish(Precheck, Fail);
      case KAnalyze => Publish(Analyze, Fail);
      case KChannelPreflight => FinishChannel(Blocked);
      case KArchive => FinishCapture(Pass);
      case KDuplexPreflight => FinishDuplex(Fail);
      case KDuplexVerify => FinishDuplex(Fail);
      case KRecordingPreflight => FailRecording(Fail);
      case KRecordingVerify => FailRecording(Fail);
      case KRecordedValidate => FinishPlayback(Fail);
      case KPlaybackMixer => if env.connected { ResumePlaybackProcess(env); }
      case KTestPreflight => ClearTest();
      case KValidateFile =>
      case KDiscovery =>
      case KVolume =>
      case KRouteSink =>
      case KRouteSource =>
    }

    method OnOperationFailed(id: nat, env: Env)
      requires Valid()
      modifies this
      ensures View() == Failed(old(View()), id, env) && Valid()
    {
      hide Refused, Owned;
      FailedOwned(View(), id, env);
      if request.None? || request.value.id != id {
        return;
      }
      var kind := request.value.kind;
      request := None;
      DispatchFailure(kind, env);
    }

    // ----- Processes --------------------------------------------------------------------------------

    method OnProcessStarted(id: nat)
      requires Valid()
      modifies this
      ensures View() == Began(old(View()), id) && Valid()
    {
      BeganOwned(View(), id);
      hide Owned;
      if duplex.captureId == Some(id) || duplex.playbackId == Some(id) {
        return;
      }
      if speakerTest.id == Some(id) && speakerTest.active {
        return;
      }
      if channel.id == Some(id) && channel.active {
        return;
      }
      if playback.id == Some(id) && playback.active {
        if playback.stop {
          StopProcess(Some(id));
        }
        return;
      }
      if recording.id == Some(id) && recording.active && recording.stop {
        StopProcess(Some(id));
      }
    }

    method MarkFullDuplexProcessDone(id: nat, code: int, error: bool, env: Env)
      modifies this
      ensures View() == DuplexDone(old(View()), id, code, error, env)
    {
      if duplex.captureId == Some(id) {
        duplex := duplex.(captureDone := true, captureCode := code);
      } else if duplex.playbackId != Some(id) {
        return;
      } else {
        duplex := duplex.(playbackDone := true, playbackCode := code);
      }
      if error {
        duplex := duplex.(failed := true);
      }
      if !(duplex.captureDone && duplex.playbackDone) {
        return;
      }
      if duplex.stop {
        FinishDuplex(Stopped);
      } else if duplex.failed || duplex.captureCode != 0 || duplex.playbackCode != 0 || !env.connected
                || env.submit.None?
      {
        FinishDuplex(Fail);
      } else {
        Submit(env.submit.value, KDuplexVerify);
      }
    }

    method EndPlayback(outcome: Outcome)
      modifies this
      ensures View() == PlaybackOver(old(View()), outcome)
    {
      var wasStopping := playback.stop;
      ClearPlayback();
      if !wasStopping {
        FinishPlayback(outcome);
      }
    }

    method EndRecording(env: Env)
      modifies this
      ensures View() == RecordingOver(old(View()), env)
    {
      recording := recording.(active := false);
      VerifyRecordingOutput(env);
    }

    method OnProcessFinished(id: nat, code: int, env: Env)
      requires Valid()
      modifies this
      ensures View() == Finished(old(View()), id, code, env) && Valid()
    {
      hide Owned, DuplexDone, AudioProtocol.ClearTest, AudioProtocol.FinishChannel, PlaybackOver, RecordingOver,
        AudioProtocol.FailRecording;
      FinishedOwned(View(), id, code, env);
      live := live - {id};
      if duplex.captureId == Some(id) || duplex.playbackId == Some(id) {
        MarkFullDuplexProcessDone(id, code, false, env);
      } else if speakerTest.id == Some(id) && speakerTest.active {
        ClearTest();
      } else if channel.id == Some(id) && channel.active {
        FinishChannel(if channel.stop then Stopped else if code == 0 then Pass else Fail);
      } else if playback.id == Some(id) {
        EndPlayback(if code == 0 then Pass else Fail);
      } else if recording.id == Some(id) {
        if code != 0 && code != SIGTERM && !recording.stop {
          recording := recording.(active := false);
          FailRecording(Fail);
        } else {
          EndRecording(env);
        }
      }
    }

    method OnProcessFailed(id: nat, env: Env)
      requires Valid()
      modifies this
      ensures View() == Broke(old(View()), id, env) && Valid()
    {
      hide Owned, DuplexDone, AudioProtocol.ClearTest, AudioProtocol.FinishChannel, PlaybackOver, RecordingOver,
        AudioProtocol.FailRecording;
      BrokeOwned(View(), id, env);
      live := live - {id};
      if duplex.captureId == Some(id) || duplex.playbackId == Some(id) {
        MarkFullDuplexProcessDone(id, -1, true, env);
        StopProcess(if duplex.captureId == Some(id) then duplex.playbackId else duplex.captureId);
      } else if speakerTest.id == Some(id) && speakerTest.active {
        ClearTest();
      } else if channel.id == Some(id) && channel.active {
        FinishChannel(if channel.stop then Stopped else Fail);
      } else if playback.id == Some(id) {
        EndPlayback(Fail);
      } else if recording.id == Some(id) {
        if recording.stop {
          EndRecording(env);
        } else {
          FailRecording(Fail);
        }
      }
    }

    method DropPendingRequest()
      modifies this
      ensures View() == DropRequest(old(View()))
    {
      if RequestIs(KPrecheck) {
        request := None;
        Publish(Precheck, Blocked);
      } else if RequestIs(KAnalyze) {
        request := None;
        Publish(Analyze, Blocked);
      } else if RequestIs(KDuplexPreflight) {
        request := None;
        FinishDuplex(Blocked);
      }
      if RequestIs(KRecordedValidate) || RequestIs(KPlaybackMixer) {
        request := None;
      }
    }

    method DropSpeakerTest()
      modifies this
      ensures View() == DropTest(old(View()))
    {
      var wasActive := speakerTest.active || RequestIs(KTestPreflight);
      if RequestIs(KTestPreflight) {
        request := None;
      }
      if wasActive {
        ClearTest();
      }
    }

    method DropSpeakerChannel()
      modifies this
      ensures View() == DropChannel(old(View()))
    {
      var wasActive := channel.active || RequestIs(KChannelPreflight);
      if RequestIs(KChannelPreflight) {
        request := None;
      }
      if wasActive {
        channel := channel.(id := None, stop := true);
        FinishChannel(Blocked);
      }
    }

    method OnJetsonDisconnected()
      requires Valid()
      modifies this
      ensures View() == Disconnect(old(View())) && Valid()
    {
      hide Owned, DropRequest, DropTest, DropChannel, AudioProtocol.FinishPlayback, AudioProtocol.FinishCapture,
        AudioProtocol.FinishDuplex;
      DisconnectOwned(View());
      validatedFile, validatedInput, live := None, None, {};
      DropPendingRequest();
      DropSpeakerTest();
      DropSpeakerChannel();
      if playback.active {
        ClearPlayback();
      }
      FinishPlayback(Blocked);
      if IsRecordingBusy() {
        request := None;
        ClearRecording();
      }
      FinishCapture(Blocked);
      FinishDuplex(Blocked);
    }
  }
}
