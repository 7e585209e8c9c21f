/** Automation that nothing will end, requests that are never answered, and what a lost connection releases. */
module AudioOrphans {
  import opened Options
  import opened AudioProtocol
  import opened AudioTheorems
  import opened AudioResults

  // ----- Automation that nothing will end -----------------------------------------------------------------

  /** An automated playback without a playback. */
  predicate OrphanedPlayback(s: State) {
    s.auto.active && !OwnsPlayback(s)
  }

  /** An automated capture without a recording or its archive. */
  predicate OrphanedCapture(s: State) {
    s.capture.active && !OwnsRecording(s) && !KindIs(s, KArchive)
  }

  /** A pending request fails. */
  predicate FailsNow(s: State, e: Event, kind: Kind) {
    KindIs(s, kind) && e.EFailed? && e.id == s.request.value.id
  }

  /** What leaves an automated playback behind: the end of a stopped playback, a shutdown, and preparations that
      come to nothing. */
  predicate OrphansPlayback(s: State, e: Event) {
    s.auto.active
    && (((e.EFinished? || e.EBroke?) && s.play.id == Some(e.id) && s.play.stop)
        || (e.EShutdownPlayback? && OwnsPlayback(s))
        || (Answers(s, e, KRecordedValidate) && !e.answer.PlaybackReady?
            && !(e.answer.FileFound? && e.env.submit.Some?))
        || (Answers(s, e, KPlaybackMixer) && !e.answer.MixerReady?)
        || (FailsNow(s, e, KPlaybackMixer) && !e.env.connected))
  }

  /** What leaves an automated capture behind: a shutdown, and ill-typed answers. */
  predicate OrphansCapture(s: State, e: Event) {
    s.capture.active
    && ((e.EShutdownRecording? && OwnsRecording(s))
        || (Answers(s, e, KRecordingPreflight) && !e.answer.ConfigReady?)
        || (Answers(s, e, KRecordingVerify) && !e.answer.Verified? && s.rec.id.None?))
  }

  lemma PrecheckOrphans(s: State, env: Env)
    requires Owned(s) && !OrphanedPlayback(s)
    ensures !OrphanedPlayback(RunPrecheck(s, env))
  {
  }

  lemma CaptureOrphans(s: State, config: Option<Path>, env: Env)
    requires Owned(s) && !OrphanedPlayback(s)
    ensures !OrphanedPlayback(RunCapture(s, config, env))
  {
  }

  lemma AnalysisOrphans(s: State, env: Env)
    requires Owned(s) && !OrphanedPlayback(s)
    ensures !OrphanedPlayback(RunAnalysis(s, env))
  {
  }

  lemma AutoPlaybackOrphans(s: State, env: Env)
    requires Owned(s) && !OrphanedPlayback(s)
    ensures !OrphanedPlayback(RunPlayback(s, env))
  {
  }

  lemma StartDuplexOrphans(s: State, valid: bool, path: Option<Path>, env: Env)
    requires Owned(s) && !OrphanedPlayback(s)
    ensures !OrphanedPlayback(RunDuplex(s, valid, path, env))
  {
  }

  lemma ChannelOrphans(s: State, valid: bool, env: Env)
    requires Owned(s) && !OrphanedPlayback(s)
    ensures !OrphanedPlayback(RunChannel(s, valid, env))
  {
  }

  lemma TestOrphans(s: State, env: Env)
    requires Owned(s) && !OrphanedPlayback(s)
    ensures !OrphanedPlayback(RunTest(s, env))
  {
  }

  lemma RecordOrphans(s: State, config: Option<Path>, env: Env)
    requires Owned(s) && !OrphanedPlayback(s)
    ensures !OrphanedPlayback(Record(s, config, env))
  {
  }

  lemma BeginOrphans(s: State, e: Event)
    requires Owned(s) && !OrphanedPlayback(s) && IsBegin(e)
    ensures !OrphanedPlayback(Step(s, e))
  {
    hide Owned, OrphanedPlayback, RunPrecheck, RunCapture, RunAnalysis, RunPlayback, RunDuplex, RunChannel, RunTest;
    match e
    case EPrecheck(env) => PrecheckOrphans(s, env);
    case ECapture(config, env) => CaptureOrphans(s, config, env);
    case EAnalyze(env) => AnalysisOrphans(s, env);
    case EAutoPlayback(env) => AutoPlaybackOrphans(s, env);
    case EDuplex(valid, path, env) => StartDuplexOrphans(s, valid, path, env);
    case EChannel(valid, env) => ChannelOrphans(s, valid, env);
    case ETest(env) => TestOrphans(s, env);
  }

  lemma AsksOrphans(s: State, t: State)
    requires !OrphanedPlayback(s) && OnlyAsks(s, t)
    ensures !OrphanedPlayback(t)
  {
  }

  lemma BeganOrphans(s: State, p: nat)
    requires !OrphanedPlayback(s)
    ensures !OrphanedPlayback(Began(s, p))
  {
  }

  lemma StopPlaybackOrphans(s: State)
    requires Owned(s) && !OrphanedPlayback(s)
    ensures !OrphanedPlayback(StopPlayback(s))
  {
  }

  lemma StopRecordingOrphans(s: State)
    requires Owned(s) && !OrphanedPlayback(s)
    ensures !OrphanedPlayback(StopRecording(s))
  {
  }

  lemma StopChannelOrphans(s: State)
    requires Owned(s) && !OrphanedPlayback(s)
    ensures !OrphanedPlayback(StopChannel(s))
  {
  }

  lemma ShutdownPlaybackOrphans(s: State)
    requires Owned(s) && !OrphanedPlayback(s)
    ensures OrphanedPlayback(ShutdownPlayback(s)) <==> s.auto.active && OwnsPlayback(s)
  {
  }

  lemma ShutdownRecordingOrphans(s: State)
    requires Owned(s) && !OrphanedPlayback(s)
    ensures !OrphanedPlayback(ShutdownRecording(s))
  {
  }

  lemma ShutdownTestOrphans(s: State)
    requires Owned(s) && !OrphanedPlayback(s)
    ensures !OrphanedPlayback(ShutdownTest(s))
  {
  }

  lemma CeaseOrphans(s: State, e: Event)
    requires Owned(s) && !OrphanedPlayback(s) && IsCease(e)
    ensures OrphanedPlayback(Step(s, e)) <==> OrphansPlayback(s, e)
  {
    hide Owned, OrphanedPlayback, StopAutomation, StopPlayback, StopRecording, StopChannel, ShutdownPlayback,
      ShutdownRecording, ShutdownTest;
    match e
    case EStopAutomation => StopAutomationOrphans(s);
    case EStopPlayback => StopPlaybackOrphans(s);
    case EStopRecording => StopRecordingOrphans(s);
    case EStopChannel => StopChannelOrphans(s);
    case EShutdownPlayback => ShutdownPlaybackOrphans(s);
    case EShutdownRecording => ShutdownRecordingOrphans(s);
    case EShutdownTest => ShutdownTestOrphans(s);
  }

  lemma StopAutomationOrphans(s: State)
    requires !OrphanedPlayback(s)
    ensures !OrphanedPlayback(StopAutomation(s))
  {
    hide StopChannel, StopDuplex, StopCapture;
    StopsKeepPlayback(s);
    StopsKeepPlayback(StopChannel(s));
    StopsKeepPlayback(StopDuplex(StopChannel(s)));
  }

  /** Stopping the other automations keeps the playback and what it waits for. */
  predicate KeepsPlayback(s: State, t: State) {
    && t.auto == s.auto && t.play == s.play && KindIs(t, KRecordedValidate) == KindIs(s, KRecordedValidate)
    && KindIs(t, KPlaybackMixer) == KindIs(s, KPlaybackMixer)
  }

  lemma StopsKeepPlayback(s: State)
    ensures KeepsPlayback(s, StopChannel(s)) && KeepsPlayback(s, StopDuplex(s)) && KeepsPlayback(s, StopCapture(s))
  {
  }

  lemma AnswerOrphans(s: State, id: nat, answer: Answer, env: Env)
    requires Owned(s) && !OrphanedPlayback(s)
    ensures OrphanedPlayback(Succeeded(s, id, answer, env)) <==> OrphansPlayback(s, ESucceeded(id, answer, env))
  {
    if s.request.Some? && s.request.value.id == id {
      hide Answered, Owned;
      var kind := s.request.value.kind;
      if kind == KRecordedValidate || kind == KPlaybackMixer {
        PlaybackAnswerOrphans(s, kind, answer, env);
      } else {
        OtherAnswerOrphans(s, kind, answer, env);
      }
    }
  }

  lemma PlaybackAnswerOrphans(s: State, kind: Kind, answer: Answer, env: Env)
    requires Owned(s) && !OrphanedPlayback(s) && KindIs(s, kind)
    requires kind == KRecordedValidate || kind == KPlaybackMixer
    ensures OrphanedPlayback(Answered(s.(request := None), kind, answer, env))
            <==> OrphansPlayback(s, ESucceeded(s.request.value.id, answer, env))
  {
  }

  lemma OtherAnswerOrphans(s: State, kind: Kind, answer: Answer, env: Env)
    requires !OrphanedPlayback(s) && KindIs(s, kind) && kind != KRecordedValidate && kind != KPlaybackMixer
    ensures !OrphanedPlayback(Answered(s.(request := None), kind, answer, env))
  {
  }

  lemma FailOrphans(s: State, id: nat, env: Env)
    requires Owned(s) && !OrphanedPlayback(s)
    ensures OrphanedPlayback(Failed(s, id, env)) <==> OrphansPlayback(s, EFailed(id, env))
  {
  }

  lemma DuplexOrphans(s: State, id: nat, code: int, error: bool, env: Env)
    requires Owned(s) && !OrphanedPlayback(s) && IsDuplex(s, id)
    ensures !s.auto.active && !DuplexDone(s, id, code, error, env).auto.active && s.play.id.None?
  {
  }

  /** Ends of other processes do not touch an automated playback. */
  lemma OtherOrphans(s: State, env: Env, o: Outcome)
    requires !OrphanedPlayback(s)
    ensures !OrphanedPlayback(ClearTest(s)) && !OrphanedPlayback(FinishChannel(s, o))
    ensures s.rec.id.Some? && Owned(s) ==>
      !OrphanedPlayback(RecordingOver(s, env)) && !OrphanedPlayback(FailRecording(s, o))
      && !OrphanedPlayback(FailRecording(s.(rec := s.rec.(active := false)), o))
  {
  }

  lemma NotPlaying(s: State, id: nat)
    requires Owned(s) && (IsTest(s, id) || IsChannel(s, id))
    ensures s.play.id.None?
  {
  }

  lemma OverOrphans(s: State, id: nat, code: int, env: Env)
    requires Owned(s) && !OrphanedPlayback(s)
    ensures OrphanedPlayback(Finished(s, id, code, env)) <==> OrphansPlayback(s, EFinished(id, code, env))
  {
    var t := Over(s, id);
    OwnedSame(s, t);
    if IsDuplex(s, id) {
      hide Owned, DuplexDone;
      DuplexOrphans(t, id, code, false, env);
    } else if IsTest(s, id) || IsChannel(s, id) {
      hide Owned, ClearTest, FinishChannel;
      NotPlaying(s, id);
      OtherOrphans(t, env, if s.chan.stop then Stopped else if code == 0 then Pass else Fail);
    } else if s.play.id != Some(id) {
      hide Owned, RecordingOver, FailRecording;
      OtherOrphans(t, env, Fail);
    }
  }

  lemma BrokeOrphans(s: State, id: nat, env: Env)
    requires Owned(s) && !OrphanedPlayback(s)
    ensures OrphanedPlayback(Broke(s, id, env)) <==> OrphansPlayback(s, EBroke(id, env))
  {
    var t := Over(s, id);
    OwnedSame(s, t);
    if IsDuplex(s, id) {
      hide Owned, DuplexDone;
      DuplexOrphans(t, id, -1, true, env);
    } else if IsTest(s, id) || IsChannel(s, id) {
      hide Owned, ClearTest, FinishChannel;
      NotPlaying(s, id);
      OtherOrphans(t, env, if s.chan.stop then Stopped else Fail);
    } else if s.play.id != Some(id) {
      hide Owned, RecordingOver, FailRecording;
      OtherOrphans(t, env, Fail);
    }
  }

  lemma DisconnectOrphans(s: State)
    ensures !Disconnect(s).auto.active && !Disconnect(s).capture.active
  {
  }

  /** An automated playback is left without a playback by exactly these steps. */
  lemma OrphansPlaybackIff(s: State, e: Event)
    requires Owned(s) && !OrphanedPlayback(s)
    ensures OrphanedPlayback(Step(s, e)) <==> OrphansPlayback(s, e)
  {
    hide Owned, Record, Succeeded, Failed, Began, Finished, Broke, Disconnect, OnlyAsks, OrphanedPlayback;
    if IsBegin(e) {
      BeginOrphans(s, e);
    } else if IsCease(e) {
      CeaseOrphans(s, e);
    } else if IsQuiet(e) {
      QuietAsks(s, e);
      AsksOrphans(s, Step(s, e));
    } else {
      match e
      case ERecord(config, env) => RecordOrphans(s, config, env);
      case ESucceeded(id, answer, env) => AnswerOrphans(s, id, answer, env);
      case EFailed(id, env) => FailOrphans(s, id, env);
      case EBegan(id) => BeganOrphans(s, id);
      case EFinished(id, code, env) => OverOrphans(s, id, code, env);
      case EBroke(id, env) => BrokeOrphans(s, id, env);
      case EDisconnect => DisconnectedOrphans(s);
    }
  }

  lemma DisconnectedOrphans(s: State)
    ensures !OrphanedPlayback(Disconnect(s))
  {
    DisconnectOrphans(s);
  }

  lemma PrecheckLeaves(s: State, env: Env)
    requires Owned(s) && !OrphanedCapture(s)
    ensures !OrphanedCapture(RunPrecheck(s, env))
  {
  }

  lemma CaptureLeaves(s: State, config: Option<Path>, env: Env)
    requires Owned(s) && !OrphanedCapture(s)
    ensures !OrphanedCapture(RunCapture(s, config, env))
  {
  }

  lemma AnalysisLeaves(s: State, env: Env)
    requires Owned(s) && !OrphanedCapture(s)
    ensures !OrphanedCapture(RunAnalysis(s, env))
  {
  }

  lemma AutoPlaybackLeaves(s: State, env: Env)
    requires Owned(s) && !OrphanedCapture(s)
    ensures !OrphanedCapture(RunPlayback(s, env))
  {
  }

  lemma StartDuplexLeaves(s: State, valid: bool, path: Option<Path>, env: Env)
    requires Owned(s) && !OrphanedCapture(s)
    ensures !OrphanedCapture(RunDuplex(s, valid, path, env))
  {
  }

  lemma ChannelLeaves(s: State, valid: bool, env: Env)
    requires Owned(s) && !OrphanedCapture(s)
    ensures !OrphanedCapture(RunChannel(s, valid, env))
  {
  }

  lemma TestLeaves(s: State, env: Env)
    requires Owned(s) && !OrphanedCapture(s)
    ensures !OrphanedCapture(RunTest(s, env))
  {
  }

  lemma RecordLeaves(s: State, config: Option<Path>, env: Env)
    requires Owned(s) && !OrphanedCapture(s)
    ensures !OrphanedCapture(Record(s, config, env))
  {
  }

  lemma BeginLeaves(s: State, e: Event)
    requires Owned(s) && !OrphanedCapture(s) && IsBegin(e)
    ensures !OrphanedCapture(Step(s, e))
  {
    hide Owned, OrphanedCapture, RunPrecheck, RunCapture, RunAnalysis, RunPlayback, RunDuplex, RunChannel, RunTest;
    match e
    case EPrecheck(env) => PrecheckLeaves(s, env);
    case ECapture(config, env) => CaptureLeaves(s, config, env);
    case EAnalyze(env) => AnalysisLeaves(s, env);
    case EAutoPlayback(env) => AutoPlaybackLeaves(s, env);
    case EDuplex(valid, path, env) => StartDuplexLeaves(s, valid, path, env);
    case EChannel(valid, env) => ChannelLeaves(s, valid, env);
    case ETest(env) => TestLeaves(s, env);
  }

  lemma AsksLeaves(s: State, t: State)
    requires !OrphanedCapture(s) && OnlyAsks(s, t)
    ensures !OrphanedCapture(t)
  {
  }

  lemma BeganLeaves(s: State, p: nat)
    requires !OrphanedCapture(s)
    ensures !OrphanedCapture(Began(s, p))
  {
  }

  lemma StopPlaybackLeaves(s: State)
    requires Owned(s) && !OrphanedCapture(s)
    ensures !OrphanedCapture(StopPlayback(s))
  {
  }

  lemma StopRecordingLeaves(s: State)
    requires Owned(s) && !OrphanedCapture(s)
    ensures !OrphanedCapture(StopRecording(s))
  {
  }

  lemma StopChannelLeaves(s: State)
    requires Owned(s) && !OrphanedCapture(s)
    ensures !OrphanedCapture(StopChannel(s))
  {
  }

  lemma ShutdownPlaybackLeaves(s: State)
    requires Owned(s) && !OrphanedCapture(s)
    ensures !OrphanedCapture(ShutdownPlayback(s))
  {
  }

  lemma ShutdownRecordingLeaves(s: State)
    requires Owned(s) && !OrphanedCapture(s)
    ensures OrphanedCapture(ShutdownRecording(s)) <==> s.capture.active && OwnsRecording(s)
  {
  }

  lemma ShutdownTestLeaves(s: State)
    requires Owned(s) && !OrphanedCapture(s)
    ensures !OrphanedCapture(ShutdownTest(s))
  {
  }

  lemma CeaseLeaves(s: State, e: Event)
    requires Owned(s) && !OrphanedCapture(s) && IsCease(e)
    ensures OrphanedCapture(Step(s, e)) <==> OrphansCapture(s, e)
  {
    hide Owned, OrphanedCapture, StopAutomation, StopPlayback, StopRecording, StopChannel, ShutdownPlayback,
      ShutdownRecording, ShutdownTest;
    match e
    case EStopAutomation => StopAutomationLeaves(s);
    case EStopPlayback => StopPlaybackLeaves(s);
    case EStopRecording => StopRecordingLeaves(s);
    case EStopChannel => StopChannelLeaves(s);
    case EShutdownPlayback => ShutdownPlaybackLeaves(s);
    case EShutdownRecording => ShutdownRecordingLeaves(s);
    case EShutdownTest => ShutdownTestLeaves(s);
  }

  /** Stopping the other automations keeps the recording and what it waits for. */
  predicate KeepsCapture(s: State, t: State) {
    && t.capture == s.capture && t.rec == s.rec && KindIs(t, KRecordingPreflight) == KindIs(s, KRecordingPreflight)
    && KindIs(t, KRecordingVerify) == KindIs(s, KRecordingVerify) && KindIs(t, KArchive) == KindIs(s, KArchive)
  }

  lemma StopsKeepCapture(s: State)
    ensures KeepsCapture(s, StopChannel(s)) && KeepsCapture(s, StopDuplex(s))
  {
  }

  lemma StopAutoKeepsCapture(s: State)
    ensures KeepsCapture(s, StopAuto(s))
  {
  }

  lemma StopAutomationLeaves(s: State)
    requires !OrphanedCapture(s)
    ensures !OrphanedCapture(StopAutomation(s))
  {
    hide StopChannel, StopDuplex, StopAuto;
    StopsKeepCapture(s);
    StopsKeepCapture(StopChannel(s));
    StopAutoKeepsCapture(StopCapture(StopDuplex(StopChannel(s))));
  }

  lemma AnswerLeaves(s: State, id: nat, answer: Answer, env: Env)
    requires Owned(s) && !OrphanedCapture(s)
    ensures OrphanedCapture(Succeeded(s, id, answer, env)) <==> OrphansCapture(s, ESucceeded(id, answer, env))
  {
    if s.request.Some? && s.request.value.id == id {
      hide Answered, Owned;
      var kind := s.request.value.kind;
      if kind == KRecordingPreflight || kind == KRecordingVerify {
        RecordingAnswerLeaves(s, kind, answer, env);
      } else {
        OtherAnswerLeaves(s, kind, answer, env);
      }
    }
  }

  lemma RecordingAnswerLeaves(s: State, kind: Kind, answer: Answer, env: Env)
    requires Owned(s) && KindIs(s, kind) && (kind == KRecordingPreflight || kind == KRecordingVerify)
    ensures OrphanedCapture(Answered(s.(request := None), kind, answer, env))
            <==> OrphansCapture(s, ESucceeded(s.request.value.id, answer, env))
  {
  }

  lemma OtherAnswerLeaves(s: State, kind: Kind, answer: Answer, env: Env)
    requires !OrphanedCapture(s) && KindIs(s, kind) && kind != KRecordingPreflight && kind != KRecordingVerify
    ensures !OrphanedCapture(Answered(s.(request := None), kind, answer, env))
  {
  }

  lemma FailLeaves(s: State, id: nat, env: Env)
    requires Owned(s) && !OrphanedCapture(s)
    ensures !OrphanedCapture(Failed(s, id, env))
  {
  }

  lemma DuplexLeaves(s: State, id: nat, code: int, error: bool, env: Env)
    requires Owned(s) && !OrphanedCapture(s) && IsDuplex(s, id)
    ensures !OrphanedCapture(DuplexDone(s, id, code, error, env))
  {
  }

  lemma RecordingLeaves(s: State, env: Env)
    requires s.rec.id.Some?
    ensures !OrphanedCapture(RecordingOver(s, env)) && !OrphanedCapture(FailRecording(s, Fail))
    ensures !OrphanedCapture(FailRecording(s.(rec := s.rec.(active := false)), Fail))
  {
  }

  lemma OverLeaves(s: State, id: nat, code: int, env: Env)
    requires Owned(s) && !OrphanedCapture(s)
    ensures !OrphanedCapture(Finished(s, id, code, env))
  {
    hide Owned, DuplexDone, RecordingOver, FailRecording;
    var t := Over(s, id);
    OwnedSame(s, t);
    if IsDuplex(s, id) {
      DuplexLeaves(t, id, code, false, env);
    } else if s.rec.id == Some(id) {
      RecordingLeaves(t, env);
    }
  }

  lemma BrokeLeaves(s: State, id: nat, env: Env)
    requires Owned(s) && !OrphanedCapture(s)
    ensures !OrphanedCapture(Broke(s, id, env))
  {
    hide Owned, DuplexDone, RecordingOver, FailRecording;
    var t := Over(s, id);
    OwnedSame(s, t);
    if IsDuplex(s, id) {
      DuplexLeaves(t, id, -1, true, env);
    } else if s.rec.id == Some(id) {
      RecordingLeaves(t, env);
    }
  }

  /** An automated capture is left without a recording by exactly these steps. */
  lemma OrphansCaptureIff(s: State, e: Event)
    requires Owned(s) && !OrphanedCapture(s)
    ensures OrphanedCapture(Step(s, e)) <==> OrphansCapture(s, e)
  {
    hide Owned, Record, Succeeded, Failed, Began, Finished, Broke, Disconnect, OnlyAsks, OrphanedCapture;
    if IsBegin(e) {
      BeginLeaves(s, e);
    } else if IsCease(e) {
      CeaseLeaves(s, e);
    } else if IsQuiet(e) {
      QuietAsks(s, e);
      AsksLeaves(s, Step(s, e));
    } else {
      match e
      case ERecord(config, env) => RecordLeaves(s, config, env);
      case ESucceeded(id, answer, env) => AnswerLeaves(s, id, answer, env);
      case EFailed(id, env) => FailLeaves(s, id, env);
      case EBegan(id) => BeganLeaves(s, id);
      case EFinished(id, code, env) => OverLeaves(s, id, code, env);
      case EBroke(id, env) => BrokeLeaves(s, id, env);
      case EDisconnect => DisconnectedLeaves(s);
    }
  }

  lemma DisconnectedLeaves(s: State)
    ensures !OrphanedCapture(Disconnect(s))
  {
    DisconnectOrphans(s);
  }

  /** As long as the flag stays, no automated playback can begin. */
  lemma OrphanBlocksPlayback(s: State, env: Env)
    requires s.auto.active
    ensures RunPlayback(s, env) == s.(book := RunPlayback(s, env).book)
    ensures RunPlayback(s, env).book.published == s.book.published + [Result(Play, Blocked, true)]
  {
  }

  /** After an automated playback was stopped by the playback's own stop button, the next file played by hand
      ends the automated action too, and publishes that it passed. */
  lemma StoppedPlaybackPasses(s: State, path: Path, play: Env, mixer: Env, over: Env)
    requires Owned(s) && OrphanedPlayback(s) && !s.auto.stop && !Busy(s) && !RecordingBusy(s)
    requires s.validated == Some(path) && s.validatedInput == Some(path)
    requires play.connected && play.submit.Some? && mixer.launch.Some?
    ensures var started := Succeeded(PlayFile(s, Some(path), play), play.submit.value, MixerReady, mixer);
            var t := Finished(started, mixer.launch.value, 0, over);
            t.book.published == s.book.published + [Result(Play, Pass, false)] && t.begun == s.begun
  {
    var asked := PlayFile(s, Some(path), play);
    assert asked.play.file == Some(path) && asked.play.source == Some(NormalFile);
    var started := Succeeded(asked, play.submit.value, MixerReady, mixer);
    assert started.play.id == mixer.launch && !started.play.stop && started.auto == s.auto;
    var id := mixer.launch.value;
    assert !IsDuplex(started, id) && !IsTest(started, id) && !IsChannel(started, id);
  }

  // ----- Requests that are never answered ------------------------------------------------------------------

  /** A request beside the activities. */
  predicate Household(kind: Kind) {
    Light(kind) || kind == KDiscovery || kind == KRouteSource
  }

  /** A finished recording goes on to be verified. */
  predicate Verifies(s: State, e: Event) {
    match e
    case EFinished(id, code, env) =>
      s.rec.id == Some(id) && (code == 0 || code == SIGTERM || s.rec.stop) && s.rec.path.Some? && env.connected
      && env.submit.Some?
    case EBroke(id, env) => s.rec.id == Some(id) && s.rec.stop && s.rec.path.Some? && env.connected && env.submit.Some?
    case _ => false
  }

  predicate IsAnswer(e: Event, id: nat) {
    (e.ESucceeded? || e.EFailed?) && e.id == id
  }

  lemma AnswerEnds(s: State, e: Event)
    requires s.request.Some? && Household(s.request.value.kind) && (e.ESucceeded? || e.EFailed?)
    ensures Step(s, e).request == if IsAnswer(e, s.request.value.id) then None else s.request
  {
  }

  lemma OverLoses(s: State, e: Event)
    requires Owned(s) && s.request.Some? && Household(s.request.value.kind) && e.EFinished?
    ensures Step(s, e).request
         == if Verifies(s, e) then Some(Request(e.env.submit.value, KRecordingVerify)) else s.request
  {
    HouseholdBeside(s);
    hide Owned, FinishCapture, FinishPlayback;
    KeepsRequest(Over(s, e.id));
  }

  lemma BrokeLoses(s: State, e: Event)
    requires Owned(s) && s.request.Some? && Household(s.request.value.kind) && e.EBroke?
    ensures Step(s, e).request
         == if Verifies(s, e) then Some(Request(e.env.submit.value, KRecordingVerify)) else s.request
  {
    HouseholdBeside(s);
    hide Owned, FinishCapture, FinishPlayback;
    KeepsRequest(Over(s, e.id));
  }

  /** With a household request pending, neither test nor a duplex is under way. */
  lemma HouseholdBeside(s: State)
    requires Owned(s) && s.request.Some? && Household(s.request.value.kind)
    ensures !s.test.active && !s.chan.active && s.duplex.captureId.None? && s.duplex.playbackId.None?
  {
  }

  lemma KeepsRequest(s: State)
    ensures forall o :: FinishCapture(s, o).request == s.request
    ensures forall o :: FinishCapture(s.(rec := s.rec.(active := false)), o).request == s.request
    ensures forall o :: FinishPlayback(ClearPlayback(s), o).request == s.request
  {
  }

  lemma OthersKeep(s: State, e: Event)
    requires Owned(s) && s.request.Some? && Household(s.request.value.kind)
    requires !e.ESucceeded? && !e.EFailed? && !e.EFinished? && !e.EBroke? && !e.EDisconnect? && !e.EStopAutomation?
    ensures Step(s, e).request == s.request
  {
    hide Owned;
  }

  lemma StopAllKeeps(s: State)
    requires s.request.Some? && Household(s.request.value.kind)
    ensures StopAutomation(s).request == s.request
  {
  }

  lemma DisconnectLoses(s: State)
    requires Owned(s) && s.request.Some? && Household(s.request.value.kind)
    ensures Disconnect(s).request == if RecordingBusy(s) then None else s.request
  {
    hide Owned, DropRequest, DropTest, DropChannel, DropPlayback, DropRecording, FinishDuplex;
    var t := s.(validated := None, validatedInput := None, live := {});
    HouseholdDrops(t);
    DropTestFrame(t);
    HouseholdDrops(DropTest(t));
    DropChannelFrame(DropTest(t));
    HouseholdDrops(DropChannel(DropTest(t)));
    DropPlaybackFrame(DropChannel(DropTest(t)));
    DropRecordingFrame(DropPlayback(DropChannel(DropTest(t))));
    DuplexFrame(DropRecording(DropPlayback(DropChannel(DropTest(t)))));
  }

  lemma HouseholdDrops(s: State)
    requires s.request.Some? && Household(s.request.value.kind)
    ensures DropRequest(s) == s && DropTest(s).request == s.request && DropChannel(s).request == s.request
  {
  }

  lemma DropTestFrame(s: State)
    ensures var t := DropTest(s);
            !OwnsTest(t) && t.chan == s.chan && t.play == s.play && t.rec == s.rec && Shrinks(s, t)
    ensures KindIs(DropTest(s), KDuplexVerify) == KindIs(s, KDuplexVerify)
  {
  }

  lemma DropChannelFrame(s: State)
    ensures var t := DropChannel(s);
            !OwnsChannel(t) && t.test == s.test && t.play == s.play && t.rec == s.rec && Shrinks(s, t)
    ensures KindIs(DropChannel(s), KDuplexVerify) == KindIs(s, KDuplexVerify)
  {
  }

  lemma DropPlaybackFrame(s: State)
    ensures var t := DropPlayback(s);
            && !t.play.active && !t.auto.active && t.test == s.test && t.chan == s.chan && t.rec == s.rec
            && t.request == s.request
  {
  }

  lemma DropRecordingFrame(s: State)
    ensures var t := DropRecording(s);
            && !RecordingBusy(t) && !t.capture.active && t.test == s.test && t.chan == s.chan && t.play == s.play
            && t.auto == s.auto && t.request == if RecordingBusy(s) then None else s.request
  {
  }

  lemma DuplexFrame(s: State)
    ensures var t := FinishDuplex(s, Blocked);
            && !t.duplex.active && t.test == s.test && t.chan == s.chan && t.play == s.play && t.rec == s.rec
            && t.auto == s.auto && t.capture == s.capture && t.request == s.request && t.live == s.live
  {
  }

  /** A household request is given up without its answer exactly when a recording that has ended asks to be
      verified, or when the connection is lost while recording. */
  lemma RequestLostIff(s: State, e: Event)
    requires Owned(s) && s.request.Some? && Household(s.request.value.kind) && !IsAnswer(e, s.request.value.id)
    requires Verifies(s, e) ==> e.env.submit != Some(s.request.value.id)
    ensures Step(s, e).request != s.request <==> Verifies(s, e) || (e.EDisconnect? && RecordingBusy(s))
  {
    hide Owned, Step;
    if e.ESucceeded? || e.EFailed? {
      AnswerEnds(s, e);
    } else if e.EFinished? {
      OverLoses(s, e);
    } else if e.EBroke? {
      BrokeLoses(s, e);
    } else if e.EDisconnect? {
      DisconnectLoses(s);
      StepIs(s, e);
    } else if e.EStopAutomation? {
      StopAllKeeps(s);
      StepIs(s, e);
    } else {
      OthersKeep(s, e);
    }
  }

  lemma StepIs(s: State, e: Event)
    ensures e.EDisconnect? ==> Step(s, e) == Disconnect(s)
    ensures e.EStopAutomation? ==> Step(s, e) == StopAutomation(s)
  {
  }

  // ----- What a lost connection releases --------------------------------------------------------------------

  /** Nothing stays owned but a duplex verification that is already under way, and every automation is ended. */
  lemma DisconnectReleases(s: State)
    requires Owned(s)
    ensures var t := Disconnect(s);
            && !OwnsRecording(t) && !OwnsPlayback(t) && !OwnsTest(t) && !OwnsChannel(t)
            && (OwnsDuplex(t) <==> KindIs(s, KDuplexVerify))
            && !t.capture.active && !t.auto.active && !t.duplex.active
  {
    hide Owned, DropRequest, DropTest, DropChannel, DropPlayback, DropRecording, FinishDuplex;
    var t0 := s.(validated := None, validatedInput := None, live := {});
    OwnedSame(s, t0);
    DropRequestOwned(t0);
    var t1 := DropRequest(t0);
    DropRequestFrame(t0);
    DropTestOwned(t1);
    var t2 := DropTest(t1);
    DropTestFrame(t1);
    DropChannelOwned(t2);
    var t3 := DropChannel(t2);
    DropChannelFrame(t2);
    DropPlaybackOwned(t3);
    var t4 := DropPlayback(t3);
    DropPlaybackFrame(t3);
    if KindIs(t4, KDuplexVerify) {
      VerifyExcludes(t4);
    }
    DropRecordingFrame(t4);
    DuplexFrame(DropRecording(t4));
  }

  lemma DropRequestFrame(s: State)
    ensures var t := DropRequest(s);
            !KindIs(t, KDuplexPreflight) && !KindIs(t, KRecordedValidate) && !KindIs(t, KPlaybackMixer)
    ensures KindIs(DropRequest(s), KDuplexVerify) == KindIs(s, KDuplexVerify)
  {
  }

  lemma VerifyExcludes(s: State)
    requires Owned(s) && KindIs(s, KDuplexVerify)
    ensures !RecordingBusy(s)
  {
  }
}
