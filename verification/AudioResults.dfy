/** Which automation results the audio manager publishes, and which it owes or publishes twice. */
module AudioResults {
  import opened Options
  import opened AudioProtocol
  import opened AudioTheorems

  // ----- One result for each action begun ---------------------------------------------------------------

  predicate Active(s: State, a: Action) {
    match a
    case Precheck => KindIs(s, KPrecheck)
    case Analyze => KindIs(s, KAnalyze)
    case Capture => s.capture.active
    case Play => s.auto.active
    case FullDuplex => s.duplex.active
    case ChannelTest => s.chan.active
  }

  /** Actions begun that are neither active nor ended: negative when too many results were published. */
  function Owed(s: State, a: Action): int {
    s.begun.Count(a) - s.book.ended.Count(a) - (if Active(s, a) then 1 else 0)
  }

  /** A pending request is answered by this event. */
  predicate Answers(s: State, e: Event, kind: Kind) {
    KindIs(s, kind) && e.ESucceeded? && e.id == s.request.value.id
  }

  /** How a step upsets the account: a verification answered after its duplex had already ended publishes a
      second result; an ill-typed answer to a pre-check or an analysis publishes none. */
  function Upset(s: State, e: Event, a: Action): int {
    if a == FullDuplex && Answers(s, e, KDuplexVerify) && e.answer.ActionDone? && !s.duplex.active then -1
    else if a == Precheck && Answers(s, e, KPrecheck) && !e.answer.ActionDone? then 1
    else if a == Analyze && Answers(s, e, KAnalyze) && !e.answer.ActionDone? then 1
    else 0
  }

  lemma FinishCounts(s: State, action: Action, o: Outcome, a: Action)
    ensures var t := Finish(s, action, o);
            t.begun == s.begun && t.book.ended.Count(a) == s.book.ended.Count(a) + (if a == action then 1 else 0)
  {
    hide Endings;
    PlusCount(s.book.ended, action, a);
  }

  lemma FinishOwes(s: State, o: Outcome, a: Action)
    ensures Owed(FinishCapture(s, o), a) == Owed(s, a) && Owed(FinishPlayback(s, o), a) == Owed(s, a)
    ensures Owed(FinishDuplex(s, o), a) == Owed(s, a) && Owed(FinishChannel(s, o), a) == Owed(s, a)
  {
    hide Closed, Tally.Count, Tally.Plus;
    FinishCounts(s.(capture := NO_AUTOMATION), Capture, if s.capture.stop then Stopped else o, a);
    FinishCounts(s.(auto := NO_AUTOMATION), Play, if s.auto.stop then Stopped else o, a);
    var d := s.duplex;
    FinishCounts(s.(duplex := Duplex(false, None, None, false, false, d.captureCode, d.playbackCode, false, false)),
                 FullDuplex, o, a);
    FinishCounts(s.(chan := Channel(None, false, false)), ChannelTest, o, a);
  }

  /** Neither history nor activity of any automation action changes. */
  predicate SameAccount(s: State, t: State) {
    && t.begun == s.begun && t.book.ended == s.book.ended && t.capture.active == s.capture.active
    && t.auto.active == s.auto.active && t.duplex.active == s.duplex.active && t.chan.active == s.chan.active
    && (KindIs(t, KPrecheck) == KindIs(s, KPrecheck)) && (KindIs(t, KAnalyze) == KindIs(s, KAnalyze))
  }

  lemma SameOwes(s: State, t: State, a: Action)
    requires SameAccount(s, t)
    ensures Owed(t, a) == Owed(s, a)
  {
  }

  lemma PrecheckOwes(s: State, env: Env, a: Action)
    requires Owned(s)
    ensures Owed(RunPrecheck(s, env), a) == Owed(s, a)
  {
  }

  lemma AnalysisOwes(s: State, env: Env, a: Action)
    requires Owned(s)
    ensures Owed(RunAnalysis(s, env), a) == Owed(s, a)
  {
  }

  lemma TestOwes(s: State, env: Env, a: Action)
    requires Owned(s)
    ensures Owed(RunTest(s, env), a) == Owed(s, a)
  {
  }

  lemma StartDuplexOwes(s: State, valid: bool, path: Option<Path>, env: Env, a: Action)
    requires Owned(s)
    ensures Owed(RunDuplex(s, valid, path, env), a) == Owed(s, a)
  {
  }

  lemma StartChannelOwes(s: State, valid: bool, env: Env, a: Action)
    requires Owned(s)
    ensures Owed(RunChannel(s, valid, env), a) == Owed(s, a)
  {
  }

  lemma RecordOwes(s: State, config: Option<Path>, env: Env, a: Action)
    requires Owned(s)
    ensures Owed(Record(s, config, env), a) == Owed(s, a)
  {
    hide FinishCapture, Owed;
    FailRecordingOwes(s, Fail, a);
    var t := s.(rec := s.rec.(path := config, stop := false));
    SameOwes(s, t, a);
    FailRecordingOwes(t, Fail, a);
    if MayRecord(s, env) && env.submit.Some? {
      SameOwes(t, Submitted(t, env.submit.value, KRecordingPreflight), a);
    }
  }

  lemma FailRecordingOwes(s: State, o: Outcome, a: Action)
    ensures Owed(FailRecording(s, o), a) == Owed(s, a)
  {
    hide FinishCapture, Owed;
    FinishOwes(s, o, a);
    SameOwes(FinishCapture(s, o), FailRecording(s, o), a);
  }

  lemma CaptureOwes(s: State, config: Option<Path>, env: Env, a: Action)
    requires Owned(s)
    ensures Owed(RunCapture(s, config, env), a) == Owed(s, a)
  {
    hide Record, FinishCapture, Owned, Owed, Tally.Count, Tally.Plus;
    if s.capture.active || s.duplex.active || Busy(s) || RecordingBusy(s) || s.play.active {
      SameOwes(s, Refuse(s, Capture), a);
    } else {
      var t := Begin(s.(capture := Automation(true, false, env.archive)), Capture);
      CaptureBegins(s, env.archive, a);
      OwnedSame(s, t);
      RecordOwes(t, config, env, a);
      FinishOwes(Record(t, config, env), Fail, a);
    }
  }

  lemma CaptureBegins(s: State, archive: bool, a: Action)
    requires !s.capture.active
    ensures Owed(Begin(s.(capture := Automation(true, false, archive)), Capture), a) == Owed(s, a)
  {
    PlusCount(s.begun, Capture, a);
  }

  lemma AutoPlaybackOwes(s: State, env: Env, a: Action)
    requires Owned(s)
    ensures Owed(RunPlayback(s, env), a) == Owed(s, a)
  {
    hide FinishPlayback, Owned, Owed, Tally.Count, Tally.Plus;
    var t := Begin(s.(auto := Automation(true, false, false)), Play);
    if !s.auto.active {
      PlaybackBegins(s, a);
    }
    FinishOwes(t, Fail, a);
    SameOwes(s, Refuse(s, Play), a);
    if PlaysRecorded(t, env) {
      SameOwes(t, PlayRecorded(t, env), a);
    }
  }

  lemma PlaybackBegins(s: State, a: Action)
    requires !s.auto.active
    ensures Owed(Begin(s.(auto := Automation(true, false, false)), Play), a) == Owed(s, a)
  {
    PlusCount(s.begun, Play, a);
  }

  lemma AsksOwes(s: State, t: State, a: Action)
    requires OnlyAsks(s, t)
    ensures Owed(t, a) == Owed(s, a)
  {
    hide Owed;
    SameOwes(s, t, a);
  }

  lemma BeganOwes(s: State, p: nat, a: Action)
    ensures Owed(Began(s, p), a) == Owed(s, a)
  {
    hide Owed;
    SameOwes(s, Began(s, p), a);
  }

  lemma StopPlaybackOwes(s: State, a: Action)
    ensures Owed(StopPlayback(s), a) == Owed(s, a)
  {
    hide Owed;
    SameOwes(s, StopPlayback(s), a);
  }

  lemma StopRecordingOwes(s: State, a: Action)
    ensures Owed(StopRecording(s), a) == Owed(s, a)
  {
    hide Owed;
    SameOwes(s, StopRecording(s), a);
  }

  lemma ShutdownPlaybackOwes(s: State, a: Action)
    ensures Owed(ShutdownPlayback(s), a) == Owed(s, a)
  {
    hide Owed;
    SameOwes(s, ShutdownPlayback(s), a);
  }

  lemma ShutdownRecordingOwes(s: State, a: Action)
    ensures Owed(ShutdownRecording(s), a) == Owed(s, a)
  {
    hide Owed;
    SameOwes(s, ShutdownRecording(s), a);
  }

  lemma ShutdownTestOwes(s: State, a: Action)
    ensures Owed(ShutdownTest(s), a) == Owed(s, a)
  {
    hide Owed;
    SameOwes(s, ShutdownTest(s), a);
  }

  lemma StopChannelOwes(s: State, a: Action)
    ensures Owed(StopChannel(s), a) == Owed(s, a)
  {
    hide FinishChannel, Owed;
    var t := s.(chan := s.chan.(stop := true));
    SameOwes(s, if KindIs(t, KChannelPreflight) then t.(request := None) else Told(t, t.chan.id), a);
    FinishOwes(t.(request := None), Stopped, a);
  }

  lemma StopDuplexOwes(s: State, a: Action)
    ensures Owed(StopDuplex(s), a) == Owed(s, a)
  {
    hide FinishDuplex, Owed;
    var t := Told(Told(s.(duplex := s.duplex.(stop := true)), s.duplex.captureId), s.duplex.playbackId);
    SameOwes(s, if KindIs(t, KDuplexPreflight) then t.(request := None) else t, a);
    FinishOwes(t.(request := None), Stopped, a);
  }

  lemma StopCaptureOwes(s: State, a: Action)
    ensures Owed(StopCapture(s), a) == Owed(s, a)
  {
    hide FinishCapture, Owed;
    var t := s.(capture := s.capture.(stop := true));
    SameOwes(s, if KindIs(t, KRecordingPreflight) then ClearRecording(t.(request := None)) else StopRecording(t), a);
    FinishOwes(ClearRecording(t.(request := None)), Stopped, a);
  }

  lemma StopAutoOwes(s: State, a: Action)
    ensures Owed(StopAuto(s), a) == Owed(s, a)
  {
    hide FinishPlayback, Owed;
    var t := s.(auto := s.auto.(stop := true));
    SameOwes(s, if KindIs(t, KRecordedValidate) then ClearPlayback(t.(request := None)) else StopPlayback(t), a);
    FinishOwes(ClearPlayback(t.(request := None)), Stopped, a);
  }

  lemma StopAutomationOwes(s: State, a: Action)
    ensures Owed(StopAutomation(s), a) == Owed(s, a)
  {
    hide StopChannel, StopDuplex, StopCapture, StopAuto, Owed;
    StopChannelOwes(s, a);
    StopDuplexOwes(StopChannel(s), a);
    StopCaptureOwes(StopDuplex(StopChannel(s)), a);
    StopAutoOwes(StopCapture(StopDuplex(StopChannel(s))), a);
  }

  lemma LaunchOwes(s: State, path: Path, source: Source, env: Env, a: Action)
    ensures Owed(LaunchPlayback(s, path, source, env), a) == Owed(s, a)
  {
    hide FinishPlayback, Owed;
    var t := s.(play := s.play.(source := Some(source), file := Some(path)));
    SameOwes(s, t, a);
    FinishOwes(t, Fail, a);
    if env.launch.Some? {
      SameOwes(s, LaunchPlayback(s, path, source, env), a);
    }
  }

  lemma LaunchTestsOwes(s: State, env: Env, a: Action)
    ensures Owed(LaunchChannel(s, env), a) == Owed(s, a) && Owed(LaunchTest(s, env), a) == Owed(s, a)
  {
    hide FinishChannel, Owed;
    FinishOwes(s, Fail, a);
    SameOwes(s, LaunchTest(s, env), a);
    if env.launch.Some? {
      SameOwes(s, LaunchChannel(s, env), a);
    }
  }

  lemma LaunchDuplexOwes(s: State, valid: bool, env: Env, a: Action)
    ensures Owed(LaunchDuplex(s, valid, env), a) == Owed(s, a)
  {
    hide FinishDuplex, Owed, Told, Launched;
    FinishOwes(s, Stopped, a);
    FinishOwes(s, Fail, a);
    if env.launch.Some? {
      HalfOwes(s, env.launch.value, a);
      var t := Launched(s.(duplex := s.duplex.(captureId := env.launch)), env.launch.value);
      FinishOwes(Told(t, env.launch), Fail, a);
      if env.second.Some? {
        BothOwes(t, env.second.value, a);
      }
    }
  }

  lemma HalfOwes(s: State, id: nat, a: Action)
    ensures var t := Launched(s.(duplex := s.duplex.(captureId := Some(id))), id);
            Owed(t, a) == Owed(s, a) && Owed(Told(t, Some(id)), a) == Owed(s, a)
  {
    var t := Launched(s.(duplex := s.duplex.(captureId := Some(id))), id);
    SameOwes(s, t, a);
    SameOwes(t, Told(t, Some(id)), a);
  }

  lemma BothOwes(s: State, id: nat, a: Action)
    ensures Owed(Launched(s.(duplex := s.duplex.(playbackId := Some(id))), id), a) == Owed(s, a)
  {
    SameOwes(s, Launched(s.(duplex := s.duplex.(playbackId := Some(id))), id), a);
  }

  lemma LaunchRecordingOwes(s: State, path: Path, buildable: bool, env: Env, a: Action)
    ensures Owed(LaunchRecording(s, path, buildable, env), a) == Owed(s, a)
  {
    hide FailRecording, Owed;
    FailRecordingOwes(s, Fail, a);
    if buildable && env.launch.Some? {
      SameOwes(s, LaunchRecording(s, path, buildable, env), a);
    }
  }

  lemma VerifiedOwes(s: State, valid: bool, path: Path, env: Env, a: Action)
    requires s.request.None?
    ensures Owed(RecordingVerified(s, valid, path, env), a) == Owed(s, a)
  {
    hide FinishCapture, Owed;
    var t := ClearRecording(s);
    var u := t.(lastRecorded := Some(path));
    SameOwes(s, t, a);
    SameOwes(s, u, a);
    FinishOwes(t, Fail, a);
    FinishOwes(u, Pass, a);
    if env.submit.Some? {
      SameOwes(u, Submitted(u, env.submit.value, KArchive), a);
    }
  }

  lemma StartPlaybackOwes(s: State, path: Path, source: Source, env: Env, a: Action)
    requires s.request.None?
    ensures Owed(StartPlayback(s, path, source, env), a) == Owed(s, a)
  {
    SameOwes(s, StartPlayback(s, path, source, env), a);
  }

  lemma SucceededOwes(s: State, id: nat, answer: Answer, env: Env, a: Action)
    ensures Owed(Succeeded(s, id, answer, env), a) == Owed(s, a) + Upset(s, ESucceeded(id, answer, env), a)
  {
    if s.request.Some? && s.request.value.id == id {
      var kind := s.request.value.kind;
      var t := s.(request := None);
      if kind == KPrecheck || kind == KAnalyze {
        AnsweredCheckOwes(s, answer, env, a);
      } else if kind == KDuplexVerify {
        AnsweredVerifyOwes(s, answer, env, a);
      } else {
        hide Owed;
        SameOwes(s, t, a);
        AnsweredOwes(t, kind, answer, env, a);
      }
    }
  }

  lemma AnsweredCheckOwes(s: State, answer: Answer, env: Env, a: Action)
    requires KindIs(s, KPrecheck) || KindIs(s, KAnalyze)
    ensures var id := s.request.value.id;
            Owed(Succeeded(s, id, answer, env), a) == Owed(s, a) + Upset(s, ESucceeded(id, answer, env), a)
  {
    if answer.ActionDone? {
      hide Closed, Tally.Count, Tally.Plus;
      FinishCounts(s.(request := None), Precheck, answer.outcome, a);
      FinishCounts(s.(request := None), Analyze, answer.outcome, a);
    }
  }

  lemma AnsweredVerifyOwes(s: State, answer: Answer, env: Env, a: Action)
    requires KindIs(s, KDuplexVerify)
    ensures var id := s.request.value.id;
            Owed(Succeeded(s, id, answer, env), a) == Owed(s, a) + Upset(s, ESucceeded(id, answer, env), a)
  {
    if answer.ActionDone? {
      hide Closed, Tally.Count, Tally.Plus;
      FinishCounts(s.(request := None, duplex := NO_DUPLEX), FullDuplex, answer.outcome, a);
    }
  }

  lemma AnsweredOwes(s: State, kind: Kind, answer: Answer, env: Env, a: Action)
    requires s.request.None? && kind != KPrecheck && kind != KAnalyze && kind != KDuplexVerify
    ensures Owed(Answered(s, kind, answer, env), a) == Owed(s, a)
  {
    hide Owed, LaunchPlayback, LaunchChannel, LaunchTest, LaunchDuplex, LaunchRecording, RecordingVerified,
      StartPlayback, FinishCapture;
    match kind
    case KChannelPreflight => LaunchTestsOwes(s, env, a);
    case KTestPreflight => LaunchTestsOwes(s, env, a);
    case KArchive => FinishOwes(s, Pass, a);
    case KDuplexPreflight => if answer.DuplexReady? { LaunchDuplexOwes(s, answer.valid, env, a); }
    case KRecordingPreflight =>
      if answer.ConfigReady? { LaunchRecordingOwes(s, answer.path, answer.buildable, env, a); }
    case KRecordedValidate =>
      if answer.FileFound? { StartPlaybackOwes(s, answer.path, RecordedFile, env, a); }
      if answer.PlaybackReady? { LaunchOwes(s, answer.path, RecordedFile, env, a); }
    case KPlaybackMixer => ResumeOwes(s, env, a);
    case KRecordingVerify => if answer.Verified? { VerifiedOwes(s, answer.valid, answer.path, env, a); }
    case KValidateFile => if answer.FileFound? { SameOwes(s, s.(validated := Some(answer.path)), a); }
    case KDiscovery =>
    case KVolume =>
    case KRouteSink =>
    case KRouteSource =>
  }

  lemma ResumeOwes(s: State, env: Env, a: Action)
    ensures Owed(ResumePlayback(s, env), a) == Owed(s, a)
  {
    hide LaunchPlayback;
    if s.play.file.Some? && s.play.source.Some? {
      LaunchOwes(s, s.play.file.value, s.play.source.value, env, a);
    }
  }

  lemma FailedOwes(s: State, id: nat, env: Env, a: Action)
    ensures Owed(Failed(s, id, env), a) == Owed(s, a)
  {
    if s.request.Some? && s.request.value.id == id {
      var kind := s.request.value.kind;
      var t := s.(request := None);
      if kind == KPrecheck || kind == KAnalyze {
        RefusedCheckOwes(s, env, a);
      } else {
        hide Owed, Refused;
        SameOwes(s, t, a);
        RefusedOwes(t, kind, env, a);
      }
    }
  }

  lemma RefusedCheckOwes(s: State, env: Env, a: Action)
    requires KindIs(s, KPrecheck) || KindIs(s, KAnalyze)
    ensures Owed(Failed(s, s.request.value.id, env), a) == Owed(s, a)
  {
    hide Closed, Tally.Count, Tally.Plus;
    FinishCounts(s.(request := None), Precheck, Fail, a);
    FinishCounts(s.(request := None), Analyze, Fail, a);
  }

  lemma RefusedOwes(s: State, kind: Kind, env: Env, a: Action)
    requires kind != KPrecheck && kind != KAnalyze
    ensures Owed(Refused(s, kind, env), a) == Owed(s, a)
  {
    hide Owed, FinishCapture, FinishPlayback, FinishChannel, FinishDuplex, FailRecording, ResumePlayback, ClearTest;
    FinishOwes(s, Pass, a);
    FinishOwes(s, Fail, a);
    FinishOwes(s, Blocked, a);
    FailRecordingOwes(s, Fail, a);
    ResumeOwes(s, env, a);
    ClearTestOwes(s, a);
  }

  lemma DuplexDoneOwes(s: State, id: nat, code: int, error: bool, env: Env, a: Action)
    requires Owned(s) && IsDuplex(s, id)
    ensures Owed(DuplexDone(s, id, code, error, env), a) == Owed(s, a)
  {
    hide FinishDuplex, Owed;
    var d := if s.duplex.captureId == Some(id) then s.duplex.(captureDone := true, captureCode := code)
             else s.duplex.(playbackDone := true, playbackCode := code);
    var t := s.(duplex := d.(failed := d.failed || error));
    SameOwes(s, t, a);
    FinishOwes(t, Stopped, a);
    FinishOwes(t, Fail, a);
    if env.submit.Some? {
      SameOwes(t, Submitted(t, env.submit.value, KDuplexVerify), a);
    }
  }

  lemma RecordingOverOwes(s: State, env: Env, a: Action)
    requires Owned(s) && s.rec.id.Some?
    ensures Owed(RecordingOver(s, env), a) == Owed(s, a)
  {
    hide FailRecording, Owed;
    var t := s.(rec := s.rec.(active := false));
    SameOwes(s, t, a);
    FailRecordingOwes(t, Fail, a);
    FailRecordingOwes(t, Disconnected, a);
    if env.submit.Some? {
      SameOwes(t, Submitted(t, env.submit.value, KRecordingVerify), a);
    }
  }

  lemma PlaybackOverOwes(s: State, o: Outcome, a: Action)
    ensures Owed(PlaybackOver(s, o), a) == Owed(s, a)
  {
    hide FinishPlayback, Owed;
    SameOwes(s, ClearPlayback(s), a);
    FinishOwes(ClearPlayback(s), o, a);
  }

  lemma FinishedOwes(s: State, p: nat, code: int, env: Env, a: Action)
    requires Owned(s)
    ensures Owed(Finished(s, p, code, env), a) == Owed(s, a)
  {
    hide Owned, Owed, DuplexDone, ClearTest, FinishChannel, PlaybackOver, RecordingOver, FailRecording;
    var t := Over(s, p);
    OwnedSame(s, t);
    SameOwes(s, t, a);
    if IsDuplex(s, p) {
      DuplexDoneOwes(t, p, code, false, env, a);
    } else if IsTest(s, p) {
      ClearTestOwes(t, a);
    } else if IsChannel(s, p) {
      FinishOwes(t, if t.chan.stop then Stopped else if code == 0 then Pass else Fail, a);
    } else if s.play.id == Some(p) {
      PlaybackOverOwes(t, if code == 0 then Pass else Fail, a);
    } else if s.rec.id == Some(p) {
      RecordingOverOwes(t, env, a);
      SameOwes(t, t.(rec := t.rec.(active := false)), a);
      FailRecordingOwes(t.(rec := t.rec.(active := false)), Fail, a);
    }
  }

  lemma ClearTestOwes(s: State, a: Action)
    ensures Owed(ClearTest(s), a) == Owed(s, a)
  {
    SameOwes(s, ClearTest(s), a);
  }

  lemma BrokeOwes(s: State, p: nat, env: Env, a: Action)
    requires Owned(s)
    ensures Owed(Broke(s, p, env), a) == Owed(s, a)
  {
    hide Owned, Owed, DuplexDone, ClearTest, FinishChannel, PlaybackOver, RecordingOver, FailRecording;
    var t := Over(s, p);
    OwnedSame(s, t);
    SameOwes(s, t, a);
    if IsDuplex(s, p) {
      DuplexDoneOwes(t, p, -1, true, env, a);
      SameOwes(DuplexDone(t, p, -1, true, env), DuplexFailed(t, p, env), a);
    } else if IsTest(s, p) {
      ClearTestOwes(t, a);
    } else if IsChannel(s, p) {
      FinishOwes(t, if s.chan.stop then Stopped else Fail, a);
    } else if s.play.id == Some(p) {
      PlaybackOverOwes(t, Fail, a);
    } else if s.rec.id == Some(p) {
      RecordingOverOwes(t, env, a);
      FailRecordingOwes(t, Fail, a);
    }
  }

  lemma DropRequestOwes(s: State, a: Action)
    ensures Owed(DropRequest(s), a) == Owed(s, a)
  {
    if !KindIs(s, KPrecheck) && !KindIs(s, KAnalyze) {
      hide FinishDuplex, Owed;
      SameOwes(s, s.(request := None), a);
      FinishOwes(s.(request := None), Blocked, a);
    }
  }

  lemma DropTestsOwes(s: State, a: Action)
    ensures Owed(DropTest(s), a) == Owed(s, a) && Owed(DropChannel(s), a) == Owed(s, a)
  {
    hide FinishChannel, Owed;
    SameOwes(s, DropTest(s), a);
    var freed := if KindIs(s, KChannelPreflight) then s.(request := None) else s;
    var t := freed.(chan := s.chan.(id := None, stop := true));
    SameOwes(s, t, a);
    FinishOwes(t, Blocked, a);
  }

  lemma DropPlaybackOwes(s: State, a: Action)
    ensures Owed(DropPlayback(s), a) == Owed(s, a)
  {
    hide FinishPlayback, Owed;
    var t := if s.play.active then ClearPlayback(s) else s;
    SameOwes(s, t, a);
    FinishOwes(t, Blocked, a);
  }

  lemma DropRecordingOwes(s: State, a: Action)
    requires Owned(s)
    ensures Owed(DropRecording(s), a) == Owed(s, a)
  {
    hide FinishCapture, Owed;
    var t := if RecordingBusy(s) then ClearRecording(s.(request := None)) else s;
    SameOwes(s, t, a);
    FinishOwes(t, Blocked, a);
  }

  lemma DisconnectOwes(s: State, a: Action)
    requires Owned(s)
    ensures Owed(Disconnect(s), a) == Owed(s, a)
  {
    hide Owned, Owed, DropRequest, DropTest, DropChannel, DropPlayback, DropRecording, FinishDuplex;
    var t0 := s.(validated := None, validatedInput := None, live := {});
    var t1 := DropRequest(t0);
    var t2 := DropTest(t1);
    var t3 := DropChannel(t2);
    var t4 := DropPlayback(t3);
    OwnedSame(s, t0);
    DropRequestOwned(t0);
    DropTestOwned(t1);
    DropChannelOwned(t2);
    DropPlaybackOwned(t3);
    SameOwes(s, t0, a);
    DropRequestOwes(t0, a);
    DropTestsOwes(t1, a);
    DropTestsOwes(t2, a);
    DropPlaybackOwes(t3, a);
    DropRecordingOwes(t4, a);
    FinishOwes(DropRecording(t4), Blocked, a);
  }

  lemma BeginOwes(s: State, e: Event, a: Action)
    requires Owned(s) && IsBegin(e)
    ensures Owed(Step(s, e), a) == Owed(s, a)
  {
    hide Owned, Owed, RunPrecheck, RunCapture, RunAnalysis, RunPlayback, RunDuplex, RunChannel, RunTest;
    match e
    case EPrecheck(env) => PrecheckOwes(s, env, a);
    case ECapture(config, env) => CaptureOwes(s, config, env, a);
    case EAnalyze(env) => AnalysisOwes(s, env, a);
    case EAutoPlayback(env) => AutoPlaybackOwes(s, env, a);
    case EDuplex(valid, path, env) => StartDuplexOwes(s, valid, path, env, a);
    case EChannel(valid, env) => StartChannelOwes(s, valid, env, a);
    case ETest(env) => TestOwes(s, env, a);
  }

  lemma CeaseOwes(s: State, e: Event, a: Action)
    requires IsCease(e)
    ensures Owed(Step(s, e), a) == Owed(s, a)
  {
    hide Owed, StopAutomation, StopPlayback, StopRecording, StopChannel, ShutdownPlayback, ShutdownRecording,
      ShutdownTest;
    match e
    case EStopAutomation => StopAutomationOwes(s, a);
    case EStopPlayback => StopPlaybackOwes(s, a);
    case EStopRecording => StopRecordingOwes(s, a);
    case EStopChannel => StopChannelOwes(s, a);
    case EShutdownPlayback => ShutdownPlaybackOwes(s, a);
    case EShutdownRecording => ShutdownRecordingOwes(s, a);
    case EShutdownTest => ShutdownTestOwes(s, a);
  }

  /** Each automation action that begins is active or has published exactly one result, and the account is
      upset in exactly three ways. */
  lemma StepOwes(s: State, e: Event, a: Action)
    requires Owned(s)
    ensures Owed(Step(s, e), a) == Owed(s, a) + Upset(s, e, a)
  {
    hide Owned, Owed, Record, Succeeded, Failed, Finished, Broke, Disconnect, Began, OnlyAsks;
    if IsBegin(e) {
      BeginOwes(s, e, a);
    } else if IsCease(e) {
      CeaseOwes(s, e, a);
    } else if IsQuiet(e) {
      QuietAsks(s, e);
      AsksOwes(s, Step(s, e), a);
    } else {
      match e
      case ERecord(config, env) => RecordOwes(s, config, env, a);
      case ESucceeded(id, answer, env) => SucceededOwes(s, id, answer, env, a);
      case EFailed(id, env) => FailedOwes(s, id, env, a);
      case EBegan(id) => BeganOwes(s, id, a);
      case EFinished(id, code, env) => FinishedOwes(s, id, code, env, a);
      case EBroke(id, env) => BrokeOwes(s, id, env, a);
      case EDisconnect => DisconnectOwes(s, a);
    }
  }

  /** The account of a whole run, the sum of its upsets. */
  function Upsets(s: State, events: seq<Event>, a: Action): int
    decreases |events|
  {
    if events == [] then 0 else Upset(s, events[0], a) + Upsets(Step(s, events[0]), events[1..], a)
  }

  lemma {:induction false} RunOwes(s: State, events: seq<Event>, a: Action)
    requires Owned(s)
    ensures Owed(Run(s, events), a) == Owed(s, a) + Upsets(s, events, a)
    decreases |events|
  {
    if events != [] {
      hide Owned, Owed, Upset, Step;
      StepOwned(s, events[0]);
      StepOwes(s, events[0], a);
      RunOwes(Step(s, events[0]), events[1..], a);
    }
  }

  lemma {:induction false} NeverUpset(s: State, events: seq<Event>, a: Action)
    requires a == Capture || a == Play || a == ChannelTest
    ensures Upsets(s, events, a) == 0
    decreases |events|
  {
    if events != [] {
      NeverUpset(Step(s, events[0]), events[1..], a);
    }
  }

  /** In every run whatever, captures, playbacks and channel tests publish one result for each beginning. */
  lemma EveryRunAccountsFor(events: seq<Event>, a: Action)
    requires a == Capture || a == Play || a == ChannelTest
    ensures var s := Run(IDLE, events);
            s.begun.Count(a) == Endings(s.book.published, a) + (if Active(s, a) then 1 else 0)
  {
    hide Run, Endings, Pages.Matched, Upsets;
    RunOwes(IDLE, events, a);
    NeverUpset(IDLE, events, a);
    BookCounts(Run(IDLE, events).book, a);
  }

  /** An automated capture or playback is under way when the call returns, and nothing has been published; or
      it is not, and exactly one result of it has been published before the call returned. */
  lemma CaptureAnswers(s: State, config: Option<Path>, env: Env)
    requires !s.capture.active
    ensures var t := RunCapture(s, config, env);
            if Asked(s, t, KRecordingPreflight) then t.capture.active && t.book == s.book
            else !t.capture.active && OneResult(s, t, Capture)
  {
  }

  lemma PlaybackAnswers(s: State, env: Env)
    requires !s.auto.active
    ensures var t := RunPlayback(s, env);
            if Asked(s, t, KRecordedValidate) then t.auto.active && t.book == s.book
            else !t.auto.active && OneResult(s, t, Play)
  {
  }

  /** A connection lost while a duplex is being verified publishes its result; the verification, when it is
      answered after all, publishes another. */
  lemma LateVerificationPublishesAgain(s: State, outcome: Outcome, env: Env)
    requires Owned(s) && s.duplex.active && KindIs(s, KDuplexVerify)
    ensures var id := s.request.value.id;
            var t := Succeeded(Disconnect(s), id, ActionDone(outcome), env);
            && Endings(t.book.published, FullDuplex) == Endings(s.book.published, FullDuplex) + 2
            && t.begun.Count(FullDuplex) == s.begun.Count(FullDuplex)
            && t.book.published != []
            && t.book.published[|t.book.published| - 1] == Result(FullDuplex, outcome, false)
  {
    hide Disconnect, Owned;
    hide Endings, Pages.Matched;
    VerificationSurvives(s);
    DisconnectOwes(s, FullDuplex);
    BookCounts(s.book, FullDuplex);
    BookCounts(Disconnect(s).book, FullDuplex);
    BookCounts(Succeeded(Disconnect(s), s.request.value.id, ActionDone(outcome), env).book, FullDuplex);
  }

  lemma FinishBegun(s: State, o: Outcome)
    ensures FinishCapture(s, o).begun == s.begun && FinishPlayback(s, o).begun == s.begun
    ensures FinishDuplex(s, o).begun == s.begun && FinishDuplex(s, o).request == s.request
    ensures !FinishDuplex(s, o).duplex.active
  {
  }

  lemma VerificationSurvives(s: State)
    requires Owned(s) && s.duplex.active && KindIs(s, KDuplexVerify)
    ensures Disconnect(s).request == s.request && !Disconnect(s).duplex.active
    ensures Disconnect(s).begun == s.begun
  {
    hide FinishCapture, FinishPlayback, FinishDuplex;
    var t0 := s.(validated := None, validatedInput := None, live := {});
    assert DropRequest(t0) == t0 && DropTest(t0) == t0 && DropChannel(t0) == t0;
    var t := DropPlayback(t0);
    assert t == FinishPlayback(t0, Blocked);
    FinishSame(t0, Blocked);
    FinishBegun(t0, Blocked);
    assert DropRecording(t) == FinishCapture(t, Blocked);
    FinishSame(t, Blocked);
    FinishBegun(t, Blocked);
    FinishBegun(DropRecording(t), Blocked);
  }
}
