/** Who owns the audio device: what every run of the audio manager keeps. */
module AudioTheorems {
  import opened Options
  import opened AudioProtocol

  // ----- At most one owner --------------------------------------------------------------------------

  predicate OwnsRecording(s: State) {
    RecordingBusy(s)
  }

  predicate OwnsPlayback(s: State) {
    s.play.active || KindIs(s, KRecordedValidate) || KindIs(s, KPlaybackMixer)
  }

  predicate OwnsTest(s: State) {
    s.test.active || KindIs(s, KTestPreflight)
  }

  predicate OwnsChannel(s: State) {
    s.chan.active || KindIs(s, KChannelPreflight)
  }

  predicate OwnsDuplex(s: State) {
    s.duplex.active || KindIs(s, KDuplexPreflight) || KindIs(s, KDuplexVerify)
  }

  predicate Exclusive(s: State) {
    && (OwnsRecording(s) ==> !OwnsPlayback(s) && !OwnsTest(s) && !OwnsChannel(s) && !OwnsDuplex(s))
    && (OwnsPlayback(s) ==> !OwnsTest(s) && !OwnsChannel(s) && !OwnsDuplex(s))
    && (OwnsTest(s) ==> !OwnsChannel(s) && !OwnsDuplex(s))
    && (OwnsChannel(s) ==> !OwnsDuplex(s))
  }

  /** Identifiers belong to activities. */
  predicate Wired(s: State) {
    && (s.play.active <==> s.play.id.Some?)
    && (s.rec.active ==> s.rec.id.Some?)
    && (s.test.id.Some? ==> s.test.active)
    && (s.chan.id.Some? ==> s.chan.active)
    && (s.duplex.captureId.Some? || s.duplex.playbackId.Some? ==> s.duplex.active)
  }

  /** Beside an activity that is under way, the request slot holds nothing but its own next phase, or, while
      recording or playing, housekeeping. */
  predicate Slotted(s: State) {
    && (KindIs(s, KTestPreflight) ==> s.test.active && s.test.id.None?)
    && (KindIs(s, KChannelPreflight) ==> s.chan.active && s.chan.id.None?)
    && (KindIs(s, KDuplexPreflight) ==> s.duplex.active && s.duplex.captureId.None? && s.duplex.playbackId.None?)
    && (KindIs(s, KRecordingPreflight) ==> s.rec.id.None?)
    && (KindIs(s, KPlaybackMixer) ==> s.play.file.Some? && s.play.source.Some?)
    && (KindIs(s, KRecordedValidate) || KindIs(s, KPlaybackMixer) ==> !s.play.active)
    && (s.test.active ==> s.request.None? || KindIs(s, KTestPreflight))
    && (s.chan.active ==> s.request.None? || KindIs(s, KChannelPreflight))
    && (s.duplex.active ==> s.request.None? || KindIs(s, KDuplexPreflight) || KindIs(s, KDuplexVerify))
    && (s.rec.id.Some? ==> s.request.None? || KindIs(s, KRecordingVerify) || Light(s.request.value.kind))
  }

  /** Requests that may be pending while a recording runs. */
  predicate Light(kind: Kind) {
    kind == KVolume || kind == KValidateFile || kind == KRouteSink
  }

  predicate Owned(s: State) {
    Exclusive(s) && Wired(s) && Slotted(s)
  }

  /** Ownership does not depend on the automation flags, the files or the history. */
  predicate SameOwners(s: State, t: State) {
    && t.request == s.request && t.play == s.play && t.rec == s.rec && t.test == s.test && t.chan == s.chan
    && t.duplex == s.duplex
  }

  lemma OwnedSame(s: State, t: State)
    requires Owned(s) && SameOwners(s, t)
    ensures Owned(t)
  {
  }

  lemma FinishSame(s: State, o: Outcome)
    ensures SameOwners(s, FinishCapture(s, o)) && SameOwners(s, FinishPlayback(s, o))
  {
  }

  lemma RecordOwned(s: State, config: Option<Path>, env: Env)
    requires Owned(s)
    ensures Owned(Record(s, config, env))
  {
    hide FinishCapture;
    FinishSame(s, Fail);
    FinishSame(s.(rec := s.rec.(path := config, stop := false)), Fail);
  }

  lemma FailRecordingOwned(s: State, o: Outcome)
    requires Owned(s)
    ensures Owned(FailRecording(s, o))
  {
    hide FinishCapture;
    FinishSame(s, o);
  }

  lemma ChannelStopsAlone(s: State)
    ensures var t := StopChannel(s);
            StopsDuplex(t) == StopsDuplex(s) && StopsCapture(t) == StopsCapture(s) && StopsAuto(t) == StopsAuto(s)
  {
  }

  lemma DuplexStopsAlone(s: State)
    ensures var t := StopDuplex(s); StopsCapture(t) == StopsCapture(s) && StopsAuto(t) == StopsAuto(s)
  {
  }

  lemma CaptureStopsAlone(s: State)
    ensures StopsAuto(StopCapture(s)) == StopsAuto(s)
  {
  }

  /** Whether each of the four has something to stop does not depend on those stopped before it. */
  lemma StopsAreIndependent(s: State)
    ensures var a := StopChannel(s); var b := StopDuplex(a); var c := StopCapture(b);
            StopsDuplex(a) == StopsDuplex(s) && StopsCapture(b) == StopsCapture(s) && StopsAuto(c) == StopsAuto(s)
  {
    hide StopChannel, StopDuplex, StopCapture, StopsDuplex, StopsCapture, StopsAuto;
    ChannelStopsAlone(s);
    DuplexStopsAlone(StopChannel(s));
    CaptureStopsAlone(StopDuplex(StopChannel(s)));
  }

  lemma PrecheckOwned(s: State, env: Env)
    requires Owned(s)
    ensures Owned(RunPrecheck(s, env))
  {
  }

  lemma AnalysisOwned(s: State, env: Env)
    requires Owned(s)
    ensures Owned(RunAnalysis(s, env))
  {
  }

  lemma TestOwned(s: State, env: Env)
    requires Owned(s)
    ensures Owned(RunTest(s, env))
  {
  }

  lemma DuplexOwned(s: State, valid: bool, path: Option<Path>, env: Env)
    requires Owned(s)
    ensures Owned(RunDuplex(s, valid, path, env))
  {
  }

  lemma ChannelOwned(s: State, valid: bool, env: Env)
    requires Owned(s)
    ensures Owned(RunChannel(s, valid, env))
  {
  }

  lemma CaptureOwned(s: State, config: Option<Path>, env: Env)
    requires Owned(s)
    ensures Owned(RunCapture(s, config, env))
  {
    hide Owned, Record, FinishCapture;
    var t := Begin(s.(capture := Automation(true, false, env.archive)), Capture);
    OwnedSame(s, t);
    RecordOwned(t, config, env);
    var u := Record(t, config, env);
    FinishSame(u, Fail);
    OwnedSame(u, FinishCapture(u, Fail));
    OwnedSame(s, Refuse(s, Capture));
  }

  lemma PlayRecordedOwned(s: State, env: Env)
    requires Owned(s)
    ensures Owned(PlayRecorded(s, env))
  {
  }

  lemma AutoPlaybackOwned(s: State, env: Env)
    requires Owned(s)
    ensures Owned(RunPlayback(s, env))
  {
    hide Owned, PlayRecorded, FinishPlayback;
    var t := Begin(s.(auto := Automation(true, false, false)), Play);
    OwnedSame(s, t);
    PlayRecordedOwned(t, env);
    FinishSame(t, Fail);
    OwnedSame(t, FinishPlayback(t, Fail));
    OwnedSame(s, Refuse(s, Play));
  }

  lemma HousekeepingOwned(s: State, kind: Kind, allowed: bool, env: Env)
    requires Owned(s)
    requires Light(kind) || ((kind == KDiscovery || kind == KRouteSource) && (allowed ==> !RecordingBusy(s)))
    ensures Owned(Housekeeping(s, kind, allowed, env))
  {
  }

  lemma ValidateOwned(s: State, path: Option<Path>, env: Env)
    requires Owned(s)
    ensures Owned(ValidateFile(s, path, env))
  {
    hide Owned, Housekeeping;
    var t := s.(validated := None, validatedInput := path);
    OwnedSame(s, t);
    HousekeepingOwned(t, KValidateFile, path.Some?, env);
  }

  lemma PlayFileOwned(s: State, path: Option<Path>, env: Env)
    requires Owned(s)
    ensures Owned(PlayFile(s, path, env))
  {
  }

  lemma StopPlaybackOwned(s: State)
    requires Owned(s)
    ensures Owned(StopPlayback(s)) && Owned(ShutdownPlayback(s))
  {
  }

  lemma StopRecordingOwned(s: State)
    requires Owned(s)
    ensures Owned(StopRecording(s)) && Owned(ShutdownRecording(s))
  {
  }

  lemma StopChannelOwned(s: State)
    requires Owned(s)
    ensures Owned(StopChannel(s))
  {
  }

  lemma ShutdownTestOwned(s: State)
    requires Owned(s)
    ensures Owned(ShutdownTest(s))
  {
  }

  lemma StopDuplexOwned(s: State)
    requires Owned(s)
    ensures Owned(StopDuplex(s))
  {
    hide FinishDuplex, Owned, Told;
    if s.duplex.active {
      var u := s.(duplex := s.duplex.(stop := true));
      var t := Told(Told(u, s.duplex.captureId), s.duplex.playbackId);
      StopFlagOwned(s);
      ToldSame(u, s.duplex.captureId);
      ToldSame(Told(u, s.duplex.captureId), s.duplex.playbackId);
      OwnedSame(u, t);
      if KindIs(t, KDuplexPreflight) {
        FreedOwned(t);
        EndDuplexOwned(t.(request := None), Stopped);
      }
    }
  }

  lemma StopFlagOwned(s: State)
    requires Owned(s)
    ensures Owned(s.(duplex := s.duplex.(stop := true)))
  {
  }

  lemma ToldSame(s: State, id: Option<nat>)
    ensures SameOwners(s, Told(s, id))
  {
  }

  lemma StopCaptureOwned(s: State)
    requires Owned(s)
    ensures Owned(StopCapture(s))
  {
    hide FinishCapture;
    var t := s.(capture := s.capture.(stop := true));
    FinishSame(ClearRecording(t.(request := None)), Stopped);
  }

  lemma StopAutoOwned(s: State)
    requires Owned(s)
    ensures Owned(StopAuto(s))
  {
    hide FinishPlayback;
    var t := s.(auto := s.auto.(stop := true));
    FinishSame(ClearPlayback(t.(request := None)), Stopped);
  }

  lemma StopAutomationOwned(s: State)
    requires Owned(s)
    ensures Owned(StopAutomation(s))
  {
    hide Owned, StopChannel, StopDuplex, StopCapture, StopAuto;
    StopChannelOwned(s);
    StopDuplexOwned(StopChannel(s));
    StopCaptureOwned(StopDuplex(StopChannel(s)));
    StopAutoOwned(StopCapture(StopDuplex(StopChannel(s))));
  }

  lemma AnsweredTestsOwned(s: State, kind: Kind, answer: Answer, env: Env)
    requires Owned(s) && KindIs(s, kind) && (kind == KTestPreflight || kind == KChannelPreflight)
    ensures Owned(Answered(s.(request := None), kind, answer, env))
  {
  }

  lemma AnsweredDuplexOwned(s: State, kind: Kind, answer: Answer, env: Env)
    requires Owned(s) && KindIs(s, kind) && (kind == KDuplexPreflight || kind == KDuplexVerify)
    ensures Owned(Answered(s.(request := None), kind, answer, env))
  {
  }

  lemma AnsweredPlaybackOwned(s: State, kind: Kind, answer: Answer, env: Env)
    requires Owned(s) && KindIs(s, kind) && (kind == KRecordedValidate || kind == KPlaybackMixer)
    ensures Owned(Answered(s.(request := None), kind, answer, env))
  {
    hide Owned, StartPlayback, LaunchPlayback;
    var t := s.(request := None);
    FreedOwned(s);
    NothingElse(s, kind);
    if answer.FileFound? {
      StartPlaybackOwned(t, answer.path, RecordedFile, env);
    }
    if answer.PlaybackReady? {
      LaunchPlaybackOwned(t, answer.path, RecordedFile, env);
    }
    if t.play.file.Some? && t.play.source.Some? {
      LaunchPlaybackOwned(t, t.play.file.value, t.play.source.value, env);
    }
  }

  /** Nothing is owned and nothing is pending. */
  predicate Free(s: State) {
    !Busy(s) && !s.play.active && !s.rec.active && s.rec.id.None?
  }

  lemma NothingElse(s: State, kind: Kind)
    requires Owned(s) && KindIs(s, kind) && (kind == KRecordedValidate || kind == KPlaybackMixer)
    ensures Free(s.(request := None))
  {
  }

  lemma StartPlaybackOwned(s: State, path: Path, source: Source, env: Env)
    requires Owned(s) && Free(s)
    ensures Owned(StartPlayback(s, path, source, env))
  {
  }

  lemma LaunchPlaybackOwned(s: State, path: Path, source: Source, env: Env)
    requires Owned(s) && Free(s)
    ensures Owned(LaunchPlayback(s, path, source, env))
  {
  }

  lemma AnsweredRecordingOwned(s: State, kind: Kind, answer: Answer, env: Env)
    requires Owned(s) && KindIs(s, kind) && (kind == KRecordingPreflight || kind == KRecordingVerify)
    ensures Owned(Answered(s.(request := None), kind, answer, env))
  {
    hide Owned, FailRecording, RecordingVerified, LaunchRecording;
    var t := s.(request := None);
    FreedOwned(s);
    if answer.Verified? && kind == KRecordingVerify {
      VerifiedOwned(s, answer.valid, answer.path, env);
    } else if answer.ConfigReady? && kind == KRecordingPreflight {
      LaunchRecordingOwned(s, answer.path, answer.buildable, env);
    }
  }

  lemma LaunchRecordingOwned(s: State, path: Path, buildable: bool, env: Env)
    requires Owned(s) && KindIs(s, KRecordingPreflight)
    ensures Owned(LaunchRecording(s.(request := None), path, buildable, env))
  {
    hide FinishCapture;
    FinishSame(s.(request := None), Fail);
  }

  lemma VerifiedOwned(s: State, valid: bool, path: Path, env: Env)
    requires Owned(s) && KindIs(s, KRecordingVerify)
    ensures Owned(RecordingVerified(s.(request := None), valid, path, env))
  {
    hide FinishCapture;
    var t := ClearRecording(s.(request := None));
    FinishSame(t, Fail);
    FinishSame(t.(lastRecorded := Some(path)), Pass);
  }

  predicate Plain(kind: Kind) {
    kind == KPrecheck || kind == KAnalyze || kind == KArchive || kind == KValidateFile || kind == KDiscovery
    || kind == KVolume || kind == KRouteSink || kind == KRouteSource
  }

  lemma AnsweredPlainOwned(s: State, kind: Kind, answer: Answer, env: Env)
    requires Owned(s) && KindIs(s, kind) && Plain(kind)
    ensures Owned(Answered(s.(request := None), kind, answer, env))
    ensures Owned(Refused(s.(request := None), kind, env))
  {
    hide Owned, FinishCapture;
    var t := s.(request := None);
    FreedOwned(s);
    FinishSame(t, Pass);
    OwnedSame(t, Answered(t, kind, answer, env));
    OwnedSame(t, Refused(t, kind, env));
  }

  lemma FreedOwned(s: State)
    requires Owned(s)
    ensures Owned(s.(request := None))
  {
  }

  lemma SucceededOwned(s: State, id: nat, answer: Answer, env: Env)
    requires Owned(s)
    ensures Owned(Succeeded(s, id, answer, env))
  {
    if s.request.Some? && s.request.value.id == id {
      hide Owned, Answered;
      var kind := s.request.value.kind;
      if kind == KTestPreflight || kind == KChannelPreflight {
        AnsweredTestsOwned(s, kind, answer, env);
      } else if kind == KDuplexPreflight || kind == KDuplexVerify {
        AnsweredDuplexOwned(s, kind, answer, env);
      } else if kind == KRecordedValidate || kind == KPlaybackMixer {
        AnsweredPlaybackOwned(s, kind, answer, env);
      } else if kind == KRecordingPreflight || kind == KRecordingVerify {
        AnsweredRecordingOwned(s, kind, answer, env);
      } else {
        AnsweredPlainOwned(s, kind, answer, env);
      }
    }
  }

  lemma RefusedOwned(s: State, kind: Kind, env: Env)
    requires Owned(s) && KindIs(s, kind) && !Plain(kind)
    ensures Owned(Refused(s.(request := None), kind, env))
  {
    hide Owned;
    var t := s.(request := None);
    if kind == KRecordingPreflight || kind == KRecordingVerify {
      FreedOwned(s);
      FailRecordingOwned(t, Fail);
    } else if kind == KRecordedValidate || kind == KPlaybackMixer {
      RefusedPlaybackOwned(s, kind, env);
    } else {
      RefusedTestsOwned(s, kind, env);
    }
  }

  lemma RefusedPlaybackOwned(s: State, kind: Kind, env: Env)
    requires Owned(s) && KindIs(s, kind) && (kind == KRecordedValidate || kind == KPlaybackMixer)
    ensures Owned(Refused(s.(request := None), kind, env))
  {
    hide Owned, FinishPlayback, LaunchPlayback;
    var t := s.(request := None);
    FreedOwned(s);
    NothingElse(s, kind);
    FinishSame(t, Fail);
    OwnedSame(t, FinishPlayback(t, Fail));
    if t.play.file.Some? && t.play.source.Some? {
      LaunchPlaybackOwned(t, t.play.file.value, t.play.source.value, env);
    }
  }

  lemma RefusedTestsOwned(s: State, kind: Kind, env: Env)
    requires Owned(s) && KindIs(s, kind)
    requires kind == KTestPreflight || kind == KChannelPreflight || kind == KDuplexPreflight || kind == KDuplexVerify
    ensures Owned(Refused(s.(request := None), kind, env))
  {
  }

  lemma FailedOwned(s: State, id: nat, env: Env)
    requires Owned(s)
    ensures Owned(Failed(s, id, env))
  {
    if s.request.Some? && s.request.value.id == id {
      hide Owned, Refused;
      var kind := s.request.value.kind;
      if Plain(kind) {
        AnsweredPlainOwned(s, kind, Unexpected, env);
      } else {
        RefusedOwned(s, kind, env);
      }
    }
  }

  lemma DuplexDoneOwned(s: State, id: nat, code: int, error: bool, env: Env)
    requires Owned(s) && IsDuplex(s, id)
    ensures Owned(DuplexDone(s, id, code, error, env))
  {
    hide FinishDuplex, Owned;
    var d := if s.duplex.captureId == Some(id) then s.duplex.(captureDone := true, captureCode := code)
             else s.duplex.(playbackDone := true, playbackCode := code);
    var t := s.(duplex := d.(failed := d.failed || error));
    MarkedOwned(s, t, id);
    EndDuplexOwned(t, Stopped);
    EndDuplexOwned(t, Fail);
    if env.submit.Some? {
      VerifyDuplexOwned(t, env.submit.value);
    }
  }

  lemma MarkedOwned(s: State, t: State, id: nat)
    requires Owned(s) && IsDuplex(s, id) && t == s.(duplex := t.duplex)
    requires t.duplex.active == s.duplex.active && t.duplex.captureId == s.duplex.captureId
    requires t.duplex.playbackId == s.duplex.playbackId
    ensures Owned(t) && IsDuplex(t, id) && !KindIs(t, KDuplexPreflight) && t.duplex.active
  {
  }

  lemma VerifyDuplexOwned(s: State, id: nat)
    requires Owned(s) && s.duplex.active
    ensures Owned(Submitted(s, id, KDuplexVerify))
  {
  }

  lemma RecordingOverOwned(s: State, env: Env)
    requires Owned(s) && s.rec.id.Some?
    ensures Owned(RecordingOver(s, env))
  {
    hide Owned, FailRecording;
    var t := s.(rec := s.rec.(active := false));
    InactiveOwned(s);
    FailRecordingOwned(t, Fail);
    FailRecordingOwned(t, Disconnected);
    if env.submit.Some? {
      VerifyOwned(t, env.submit.value);
    }
  }

  lemma VerifyOwned(s: State, id: nat)
    requires Owned(s) && s.rec.id.Some?
    ensures Owned(Submitted(s, id, KRecordingVerify))
  {
  }

  lemma PlaybackOverOwned(s: State, o: Outcome)
    requires Owned(s) && s.play.id.Some?
    ensures Owned(PlaybackOver(s, o))
  {
    hide FinishPlayback;
    FinishSame(ClearPlayback(s), o);
  }

  lemma TestsOverOwned(s: State, o: Outcome)
    requires Owned(s) && s.request.None?
    ensures Owned(ClearTest(s)) && Owned(FinishChannel(s, o))
  {
  }

  lemma NoRequestWith(s: State, id: nat)
    requires Owned(s) && (IsTest(s, id) || IsChannel(s, id))
    ensures s.request.None?
  {
  }

  lemma FinishedOwned(s: State, id: nat, code: int, env: Env)
    requires Owned(s)
    ensures Owned(Finished(s, id, code, env))
  {
    hide Owned, DuplexDone, ClearTest, ChannelOver, PlaybackOver, RecordingOver, FailRecording;
    var t := Over(s, id);
    OwnedSame(s, t);
    if IsDuplex(s, id) {
      DuplexDoneOwned(t, id, code, false, env);
    } else if IsTest(s, id) || IsChannel(s, id) {
      NoRequestWith(s, id);
      ChannelOverIs(t, code);
      TestsOverOwned(t, if t.chan.stop then Stopped else if code == 0 then Pass else Fail);
    } else if s.play.id == Some(id) {
      PlaybackOverOwned(t, if code == 0 then Pass else Fail);
    } else if s.rec.id == Some(id) {
      RecordingOverOwned(t, env);
      InactiveOwned(t);
      FailRecordingOwned(t.(rec := t.rec.(active := false)), Fail);
    }
  }

  lemma ChannelOverIs(s: State, code: int)
    ensures ChannelOver(s, code) == FinishChannel(s, if s.chan.stop then Stopped else if code == 0 then Pass else Fail)
  {
  }

  lemma InactiveOwned(s: State)
    requires Owned(s)
    ensures Owned(s.(rec := s.rec.(active := false)))
  {
  }

  lemma BeganOwned(s: State, id: nat)
    requires Owned(s)
    ensures Owned(Began(s, id))
  {
    OwnedSame(s, Began(s, id));
  }

  lemma BrokeOwned(s: State, id: nat, env: Env)
    requires Owned(s)
    ensures Owned(Broke(s, id, env))
  {
    hide Owned, DuplexDone, ClearTest, FinishChannel, PlaybackOver, RecordingOver, FailRecording;
    var t := Over(s, id);
    OwnedSame(s, t);
    if IsDuplex(s, id) {
      DuplexDoneOwned(t, id, -1, true, env);
      OwnedSame(DuplexDone(t, id, -1, true, env), DuplexFailed(t, id, env));
    } else if IsTest(s, id) || IsChannel(s, id) {
      NoRequestWith(s, id);
      TestsOverOwned(t, if s.chan.stop then Stopped else Fail);
    } else if s.play.id == Some(id) {
      PlaybackOverOwned(t, Fail);
    } else if s.rec.id == Some(id) {
      RecordingOverOwned(t, env);
      FailRecordingOwned(t, Fail);
    }
  }

  predicate Shrinks(s: State, t: State) {
    t.request == s.request || t.request.None?
  }

  lemma DropRequestOwned(s: State)
    requires Owned(s)
    ensures Owned(DropRequest(s)) && !KindIs(DropRequest(s), KDuplexPreflight)
  {
  }

  lemma DropTestOwned(s: State)
    requires Owned(s)
    ensures Owned(DropTest(s)) && Shrinks(s, DropTest(s))
  {
  }

  lemma DropChannelOwned(s: State)
    requires Owned(s)
    ensures Owned(DropChannel(s)) && Shrinks(s, DropChannel(s))
  {
  }

  lemma DropPlaybackOwned(s: State)
    requires Owned(s)
    ensures Owned(DropPlayback(s)) && Shrinks(s, DropPlayback(s))
  {
    hide FinishPlayback;
    FinishSame(if s.play.active then ClearPlayback(s) else s, Blocked);
  }

  lemma DropRecordingOwned(s: State)
    requires Owned(s)
    ensures Owned(DropRecording(s)) && Shrinks(s, DropRecording(s))
  {
    var t := if RecordingBusy(s) then ClearRecording(s.(request := None)) else s;
    FinishSame(t, Blocked);
  }

  lemma EndDuplexOwned(s: State, o: Outcome)
    requires Owned(s) && !KindIs(s, KDuplexPreflight)
    ensures Owned(FinishDuplex(s, o))
  {
  }

  lemma DisconnectOwned(s: State)
    requires Owned(s)
    ensures Owned(Disconnect(s))
  {
    hide Owned, DropRequest, DropTest, DropChannel, DropPlayback, DropRecording, FinishDuplex;
    var t0 := s.(validated := None, validatedInput := None, live := {});
    OwnedSame(s, t0);
    DropRequestOwned(t0);
    var t1 := DropRequest(t0);
    DropTestOwned(t1);
    var t2 := DropTest(t1);
    DropChannelOwned(t2);
    var t3 := DropChannel(t2);
    DropPlaybackOwned(t3);
    var t4 := DropPlayback(t3);
    DropRecordingOwned(t4);
    var t5 := DropRecording(t4);
    EndDuplexOwned(t5, Blocked);
  }

  /** A request is made for playing a file or beside the activities, or nothing happens. */
  predicate OnlyAsks(s: State, t: State) {
    && t == s.(request := t.request, play := s.play.(source := t.play.source, file := t.play.file),
               validated := t.validated, validatedInput := t.validatedInput)
    && (t.request == s.request || (!Busy(s) && t.request.Some? && Asks(t.request.value.kind)))
  }

  predicate Asks(kind: Kind) {
    Light(kind) || kind == KDiscovery || kind == KRouteSource || kind == KRecordedValidate || kind == KPlaybackMixer
  }

  lemma PlayFileAsks(s: State, path: Option<Path>, env: Env)
    ensures OnlyAsks(s, PlayFile(s, path, env)) && OnlyAsks(s, PlayRecorded(s, env))
  {
  }

  lemma HousekeepingAsks(s: State, kind: Kind, allowed: bool, env: Env)
    requires Asks(kind)
    ensures OnlyAsks(s, Housekeeping(s, kind, allowed, env))
  {
  }

  lemma ValidateAsks(s: State, path: Option<Path>, env: Env)
    ensures OnlyAsks(s, ValidateFile(s, path, env))
  {
  }

  predicate IsBegin(e: Event) {
    e.EPrecheck? || e.ECapture? || e.EAnalyze? || e.EAutoPlayback? || e.EDuplex? || e.EChannel? || e.ETest?
  }

  predicate IsCease(e: Event) {
    e.EStopAutomation? || e.EStopPlayback? || e.EStopRecording? || e.EStopChannel? || e.EShutdownPlayback?
    || e.EShutdownRecording? || e.EShutdownTest?
  }

  predicate IsQuiet(e: Event) {
    e.EPlay? || e.EPlayRecorded? || e.EDiscover? || e.EVolume? || e.ERouteSink? || e.ERouteSource? || e.EValidateFile?
  }

  lemma QuietAsks(s: State, e: Event)
    requires IsQuiet(e)
    ensures OnlyAsks(s, Step(s, e))
  {
    hide PlayFile, PlayRecorded, Housekeeping, ValidateFile, OnlyAsks;
    match e
    case EPlay(path, env) => PlayFileAsks(s, path, env);
    case EPlayRecorded(env) => PlayFileAsks(s, None, env);
    case EDiscover(env) => HousekeepingAsks(s, KDiscovery, !RecordingBusy(s), env);
    case EVolume(valid, env) => HousekeepingAsks(s, KVolume, valid, env);
    case ERouteSink(valid, env) => HousekeepingAsks(s, KRouteSink, valid, env);
    case ERouteSource(valid, env) => HousekeepingAsks(s, KRouteSource, valid && !RecordingBusy(s), env);
    case EValidateFile(path, env) => ValidateAsks(s, path, env);
  }

  lemma BeginOwned(s: State, e: Event)
    requires Owned(s) && IsBegin(e)
    ensures Owned(Step(s, e))
  {
    hide Owned, RunPrecheck, RunCapture, RunAnalysis, RunPlayback, RunDuplex, RunChannel, RunTest;
    match e
    case EPrecheck(env) => PrecheckOwned(s, env);
    case ECapture(config, env) => CaptureOwned(s, config, env);
    case EAnalyze(env) => AnalysisOwned(s, env);
    case EAutoPlayback(env) => AutoPlaybackOwned(s, env);
    case EDuplex(valid, path, env) => DuplexOwned(s, valid, path, env);
    case EChannel(valid, env) => ChannelOwned(s, valid, env);
    case ETest(env) => TestOwned(s, env);
  }

  lemma CeaseOwned(s: State, e: Event)
    requires Owned(s) && IsCease(e)
    ensures Owned(Step(s, e))
  {
    hide Owned, StopAutomation, StopPlayback, StopRecording, StopChannel, ShutdownPlayback, ShutdownRecording,
      ShutdownTest;
    match e
    case EStopAutomation => StopAutomationOwned(s);
    case EStopPlayback => StopPlaybackOwned(s);
    case EStopRecording => StopRecordingOwned(s);
    case EStopChannel => StopChannelOwned(s);
    case EShutdownPlayback => StopPlaybackOwned(s);
    case EShutdownRecording => StopRecordingOwned(s);
    case EShutdownTest => ShutdownTestOwned(s);
  }

  lemma QuietOwned(s: State, e: Event)
    requires Owned(s) && IsQuiet(e)
    ensures Owned(Step(s, e))
  {
    hide Owned, PlayFile, PlayRecorded, Housekeeping, ValidateFile;
    match e
    case EPlay(path, env) => PlayFileOwned(s, path, env);
    case EPlayRecorded(env) => PlayRecordedOwned(s, env);
    case EDiscover(env) => HousekeepingOwned(s, KDiscovery, !RecordingBusy(s), env);
    case EVolume(valid, env) => HousekeepingOwned(s, KVolume, valid, env);
    case ERouteSink(valid, env) => HousekeepingOwned(s, KRouteSink, valid, env);
    case ERouteSource(valid, env) => HousekeepingOwned(s, KRouteSource, valid && !RecordingBusy(s), env);
    case EValidateFile(path, env) => ValidateOwned(s, path, env);
  }

  /** Every step keeps ownership exclusive. */
  lemma StepOwned(s: State, e: Event)
    requires Owned(s)
    ensures Owned(Step(s, e))
  {
    hide Owned, Record, Succeeded, Failed, Began, Finished, Broke, Disconnect;
    if IsBegin(e) {
      BeginOwned(s, e);
    } else if IsCease(e) {
      CeaseOwned(s, e);
    } else if IsQuiet(e) {
      QuietOwned(s, e);
    } else {
      match e
      case ERecord(config, env) => RecordOwned(s, config, env);
      case ESucceeded(id, answer, env) => SucceededOwned(s, id, answer, env);
      case EFailed(id, env) => FailedOwned(s, id, env);
      case EBegan(id) => BeganOwned(s, id);
      case EFinished(id, code, env) => FinishedOwned(s, id, code, env);
      case EBroke(id, env) => BrokeOwned(s, id, env);
      case EDisconnect => DisconnectOwned(s);
    }
  }

  /** In every run at most one activity is owned, preflights and verifications included. */
  lemma {:induction false} RunOwned(s: State, events: seq<Event>)
    requires Owned(s)
    ensures Owned(Run(s, events))
    decreases |events|
  {
    if events != [] {
      StepOwned(s, events[0]);
      RunOwned(Step(s, events[0]), events[1..]);
    }
  }

  lemma EveryRunExclusive(events: seq<Event>)
    ensures Exclusive(Run(IDLE, events))
  {
    RunOwned(IDLE, events);
  }

  // ----- Stale identifiers ----------------------------------------------------------------------------

  /** The processes some activity waits for. */
  predicate Held(s: State, id: nat) {
    s.rec.id == Some(id) || s.play.id == Some(id) || s.test.id == Some(id) || s.chan.id == Some(id) || IsDuplex(s, id)
  }

  predicate Pending(s: State, id: nat) {
    s.request.Some? && s.request.value.id == id
  }

  /** An event carrying an identifier that is not owned at that moment changes nothing, even if it is the end of a
      process that was released or forgotten: only the history notes that this has ended. */
  lemma StaleChangesNothing(s: State, id: nat, answer: Answer, code: int, env: Env)
    ensures !Pending(s, id) ==> Succeeded(s, id, answer, env) == s && Failed(s, id, env) == s
    ensures !Held(s, id) ==> Began(s, id) == s && Finished(s, id, code, env) == Broke(s, id, env) == Over(s, id)
    ensures !Held(s, id) && id !in s.live ==> Over(s, id) == s
  {
    if id !in s.live {
      assert s.live - {id} == s.live;
    }
  }
}
