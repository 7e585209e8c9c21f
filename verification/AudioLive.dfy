/** Every process the audio manager has started is one it waits for until it ends, and the steps that forget one. */
module AudioLive {
  import opened Options
  import opened AudioProtocol
  import opened AudioTheorems

  /** If this process is live, some activity waits for it. */
  predicate Accounted(s: State, id: nat) {
    id in s.live ==> Held(s, id)
  }

  /** A process whose end was noted is not live; a duplex is verified after both its processes have ended. */
  predicate Spent(s: State, id: nat) {
    && (s.rec.id == Some(id) && !s.rec.active ==> id !in s.live)
    && (s.duplex.captureId == Some(id) && s.duplex.captureDone ==> id !in s.live)
    && (s.duplex.playbackId == Some(id) && s.duplex.playbackDone ==> id !in s.live)
    && Flags(s)
  }

  predicate Flags(s: State) {
    && (s.duplex.captureDone ==> s.duplex.captureId.Some?)
    && (s.duplex.playbackDone ==> s.duplex.playbackId.Some?)
    && (KindIs(s, KDuplexVerify) && s.duplex.active ==> s.duplex.captureDone && s.duplex.playbackDone)
    && (KindIs(s, KRecordingVerify) ==> !s.rec.active)
  }

  predicate Tracked(s: State, id: nat) {
    Accounted(s, id) && Spent(s, id)
  }

  /** A live process is forgotten without having been told to stop: a recording is requested with an invalid
      configuration. */
  predicate Loses(s: State, e: Event, id: nat) {
    e.ERecord? && e.config.None? && s.rec.id == Some(id) && id in s.live
  }

  /** A live process is told to stop and forgotten at once: the shutdowns, and a duplex whose second process cannot
      be started. Whether and when it stops is not waited for. */
  predicate LetsGo(s: State, e: Event, id: nat) {
    || (e.EShutdownPlayback? && s.play.id == Some(id) && id in s.live)
    || (e.EShutdownRecording? && s.rec.id == Some(id) && id in s.live)
    || (e.EShutdownTest? && s.test.id == Some(id) && id in s.live)
    || (e.ESucceeded? && Pending(s, e.id) && KindIs(s, KDuplexPreflight) && HalfStarts(s, e.answer, e.env)
        && e.env.launch == Some(id))
  }

  predicate HalfStarts(s: State, answer: Answer, env: Env) {
    !s.duplex.stop && answer.DuplexReady? && answer.valid && env.launch.Some? && env.second.None?
  }

  predicate Releases(s: State, e: Event, id: nat) {
    Loses(s, e, id) || LetsGo(s, e, id)
  }

  lemma TrackedSame(s: State, t: State, id: nat)
    requires Tracked(s, id) && SameOwners(s, t) && t.live <= s.live
    ensures Tracked(t, id)
  {
  }

  lemma RecordTracked(s: State, config: Option<Path>, env: Env, id: nat)
    requires Owned(s) && Tracked(s, id)
    ensures Spent(Record(s, config, env), id)
    ensures Accounted(Record(s, config, env), id) <==> !(config.None? && s.rec.id == Some(id) && id in s.live)
  {
  }

  lemma PrecheckTracked(s: State, env: Env, id: nat)
    requires Owned(s) && Tracked(s, id)
    ensures Tracked(RunPrecheck(s, env), id)
  {
  }

  lemma AnalysisTracked(s: State, env: Env, id: nat)
    requires Owned(s) && Tracked(s, id)
    ensures Tracked(RunAnalysis(s, env), id)
  {
  }

  lemma AutoPlaybackTracked(s: State, env: Env, id: nat)
    requires Owned(s) && Tracked(s, id)
    ensures Tracked(RunPlayback(s, env), id)
  {
  }

  lemma DuplexTracked(s: State, valid: bool, path: Option<Path>, env: Env, id: nat)
    requires Owned(s) && Tracked(s, id)
    ensures Tracked(RunDuplex(s, valid, path, env), id)
  {
  }

  lemma ChannelTracked(s: State, valid: bool, env: Env, id: nat)
    requires Owned(s) && Tracked(s, id)
    ensures Tracked(RunChannel(s, valid, env), id)
  {
  }

  lemma TestTracked(s: State, env: Env, id: nat)
    requires Owned(s) && Tracked(s, id)
    ensures Tracked(RunTest(s, env), id)
  {
  }

  lemma CaptureTracked(s: State, config: Option<Path>, env: Env, id: nat)
    requires Owned(s) && Tracked(s, id)
    ensures Tracked(RunCapture(s, config, env), id)
  {
    hide Owned, Record, FinishCapture, Tracked;
    if !(s.capture.active || s.duplex.active || Busy(s) || RecordingBusy(s) || s.play.active) {
      var t := Begin(s.(capture := Automation(true, false, env.archive)), Capture);
      OwnedSame(s, t);
      TrackedSame(s, t, id);
      RecordKeeps(t, config, env, id);
      var u := Record(t, config, env);
      FinishSame(u, Fail);
      FinishLive(u, Fail);
      TrackedSame(u, FinishCapture(u, Fail), id);
    }
    TrackedSame(s, Refuse(s, Capture), id);
  }

  lemma RecordKeeps(s: State, config: Option<Path>, env: Env, id: nat)
    requires Owned(s) && Tracked(s, id) && !RecordingBusy(s)
    ensures Tracked(Record(s, config, env), id)
  {
    RecordTracked(s, config, env, id);
  }

  lemma FinishLive(s: State, o: Outcome)
    ensures FinishCapture(s, o).live == s.live && FinishPlayback(s, o).live == s.live
    ensures FinishDuplex(s, o).live == s.live && FinishChannel(s, o).live == s.live
  {
  }

  lemma AsksTracked(s: State, t: State, id: nat)
    requires Tracked(s, id) && OnlyAsks(s, t)
    ensures Tracked(t, id)
  {
  }

  lemma StopPlaybackTracked(s: State, id: nat)
    requires Owned(s) && Tracked(s, id)
    ensures Tracked(StopPlayback(s), id)
  {
  }

  lemma StopRecordingTracked(s: State, id: nat)
    requires Owned(s) && Tracked(s, id)
    ensures Tracked(StopRecording(s), id)
  {
  }

  lemma StopChannelTracked(s: State, id: nat)
    requires Owned(s) && Tracked(s, id)
    ensures Tracked(StopChannel(s), id)
  {
  }

  lemma ShutdownPlaybackTracked(s: State, id: nat)
    requires Owned(s) && Tracked(s, id)
    ensures Tracked(ShutdownPlayback(s), id) <==> !(s.play.id == Some(id) && id in s.live)
  {
  }

  lemma ShutdownRecordingTracked(s: State, id: nat)
    requires Owned(s) && Tracked(s, id)
    ensures Tracked(ShutdownRecording(s), id) <==> !(s.rec.id == Some(id) && id in s.live)
  {
  }

  lemma ShutdownTestTracked(s: State, id: nat)
    requires Owned(s) && Tracked(s, id)
    ensures Tracked(ShutdownTest(s), id) <==> !(s.test.id == Some(id) && id in s.live)
  {
  }

  lemma StopDuplexTracked(s: State, id: nat)
    requires Owned(s) && Tracked(s, id)
    ensures Tracked(StopDuplex(s), id)
  {
  }

  lemma StopCaptureTracked(s: State, id: nat)
    requires Owned(s) && Tracked(s, id)
    ensures Tracked(StopCapture(s), id)
  {
  }

  lemma StopAutoTracked(s: State, id: nat)
    requires Owned(s) && Tracked(s, id)
    ensures Tracked(StopAuto(s), id)
  {
  }

  lemma StopAutomationTracked(s: State, id: nat)
    requires Owned(s) && Tracked(s, id)
    ensures Tracked(StopAutomation(s), id)
  {
    hide Owned, Tracked, StopChannel, StopDuplex, StopCapture, StopAuto;
    StopChannelOwned(s);
    StopChannelTracked(s, id);
    var t := StopChannel(s);
    StopDuplexOwned(t);
    StopDuplexTracked(t, id);
    StopCaptureOwned(StopDuplex(t));
    StopCaptureTracked(StopDuplex(t), id);
    StopAutoTracked(StopCapture(StopDuplex(t)), id);
  }

  lemma AnsweredRecordingTracked(s: State, kind: Kind, answer: Answer, env: Env, id: nat)
    requires Owned(s) && Tracked(s, id) && KindIs(s, kind) && (kind == KRecordingPreflight || kind == KRecordingVerify)
    ensures Tracked(Answered(s.(request := None), kind, answer, env), id)
  {
  }

  lemma AnsweredDuplexTracked(s: State, kind: Kind, answer: Answer, env: Env, id: nat)
    requires Owned(s) && Tracked(s, id) && KindIs(s, kind) && (kind == KDuplexPreflight || kind == KDuplexVerify)
    ensures Tracked(Answered(s.(request := None), kind, answer, env), id)
            <==> !(kind == KDuplexPreflight && HalfStarts(s, answer, env) && env.launch == Some(id))
  {
    hide LaunchDuplex;
    if answer.DuplexReady? && kind == KDuplexPreflight {
      LaunchDuplexTracked(s, answer.valid, env, id);
    }
  }

  lemma LaunchDuplexTracked(s: State, valid: bool, env: Env, id: nat)
    requires Owned(s) && Tracked(s, id) && KindIs(s, KDuplexPreflight)
    ensures Tracked(LaunchDuplex(s.(request := None), valid, env), id)
            <==> !(HalfStarts(s, DuplexReady(valid), env) && env.launch == Some(id))
  {
    if HalfStarts(s, DuplexReady(valid), env) {
      HalfTracked(s, valid, env, id);
    } else {
      WholeTracked(s, valid, env, id);
    }
  }

  lemma HalfTracked(s: State, valid: bool, env: Env, id: nat)
    requires Owned(s) && Tracked(s, id) && KindIs(s, KDuplexPreflight) && HalfStarts(s, DuplexReady(valid), env)
    ensures Tracked(LaunchDuplex(s.(request := None), valid, env), id) <==> env.launch != Some(id)
  {
  }

  lemma WholeTracked(s: State, valid: bool, env: Env, id: nat)
    requires Owned(s) && Tracked(s, id) && KindIs(s, KDuplexPreflight) && !HalfStarts(s, DuplexReady(valid), env)
    ensures Tracked(LaunchDuplex(s.(request := None), valid, env), id)
  {
  }

  lemma AnsweredOtherTracked(s: State, kind: Kind, answer: Answer, env: Env, id: nat)
    requires Owned(s) && Tracked(s, id) && KindIs(s, kind)
    requires kind != KRecordingPreflight && kind != KRecordingVerify
    requires kind != KDuplexPreflight && kind != KDuplexVerify
    ensures Tracked(Answered(s.(request := None), kind, answer, env), id)
  {
  }

  lemma SucceededTracked(s: State, r: nat, answer: Answer, env: Env, id: nat)
    requires Owned(s) && Tracked(s, id)
    ensures Tracked(Succeeded(s, r, answer, env), id) <==> !LetsGo(s, ESucceeded(r, answer, env), id)
  {
    if s.request.Some? && s.request.value.id == r {
      hide Owned, Tracked, Answered;
      var kind := s.request.value.kind;
      if kind == KRecordingPreflight || kind == KRecordingVerify {
        AnsweredRecordingTracked(s, kind, answer, env, id);
      } else if kind == KDuplexPreflight || kind == KDuplexVerify {
        AnsweredDuplexTracked(s, kind, answer, env, id);
      } else {
        AnsweredOtherTracked(s, kind, answer, env, id);
      }
    }
  }

  lemma FailedTracked(s: State, r: nat, env: Env, id: nat)
    requires Owned(s) && Tracked(s, id)
    ensures Tracked(Failed(s, r, env), id)
  {
    if s.request.Some? && s.request.value.id == r {
      hide Tracked, Owned, Refused, FailRecording;
      var kind := s.request.value.kind;
      var t := s.(request := None);
      FreedOwned(s);
      if kind == KRecordingPreflight || kind == KRecordingVerify {
        FailRecordingTracked(s, Fail, id);
        RefusedRecordingIs(t, kind, env);
      } else if kind == KRecordedValidate || kind == KPlaybackMixer {
        RefusedPlaybackTracked(s, kind, env, id);
      } else {
        RefusedOtherTracked(s, kind, env, id);
      }
    }
  }

  lemma RefusedRecordingIs(s: State, kind: Kind, env: Env)
    requires kind == KRecordingPreflight || kind == KRecordingVerify
    ensures Refused(s, kind, env) == FailRecording(s, Fail)
  {
  }

  lemma FailRecordingTracked(s: State, o: Outcome, id: nat)
    requires Owned(s) && Tracked(s, id) && (KindIs(s, KRecordingPreflight) || KindIs(s, KRecordingVerify))
    ensures Tracked(FailRecording(s.(request := None), o), id)
  {
    hide FinishCapture;
    FinishSame(s.(request := None), o);
    FinishLive(s.(request := None), o);
  }

  lemma RefusedPlaybackTracked(s: State, kind: Kind, env: Env, id: nat)
    requires Owned(s) && Tracked(s, id) && KindIs(s, kind) && (kind == KRecordedValidate || kind == KPlaybackMixer)
    ensures Tracked(Refused(s.(request := None), kind, env), id)
  {
  }

  lemma RefusedOtherTracked(s: State, kind: Kind, env: Env, id: nat)
    requires Owned(s) && Tracked(s, id) && KindIs(s, kind) && kind != KRecordedValidate && kind != KPlaybackMixer
    requires kind != KRecordingPreflight && kind != KRecordingVerify
    ensures Tracked(Refused(s.(request := None), kind, env), id)
  {
  }

  lemma DuplexDoneTracked(s: State, p: nat, code: int, error: bool, env: Env, id: nat)
    requires Owned(s) && Tracked(s, id) && p !in s.live && IsDuplex(s, p)
    ensures Tracked(DuplexDone(s, p, code, error, env), id)
  {
    hide Exclusive, Slotted;
  }

  lemma RecordingOverTracked(s: State, p: nat, env: Env, id: nat)
    requires Owned(s) && Tracked(s, id) && p !in s.live && s.rec.id == Some(p)
    ensures Tracked(RecordingOver(s, env), id) && Tracked(FailRecording(s.(rec := s.rec.(active := false)), Fail), id)
    ensures Tracked(FailRecording(s, Fail), id)
  {
    hide FinishCapture;
    var t := s.(rec := s.rec.(active := false));
    FinishSame(s, Fail);
    FinishLive(s, Fail);
    FinishSame(t, Fail);
    FinishLive(t, Fail);
    FinishSame(t, Disconnected);
    FinishLive(t, Disconnected);
  }

  lemma PlaybackOverTracked(s: State, p: nat, o: Outcome, id: nat)
    requires Owned(s) && Tracked(s, id) && p !in s.live && s.play.id == Some(p)
    ensures Tracked(PlaybackOver(s, o), id)
  {
    hide FinishPlayback;
    FinishSame(ClearPlayback(s), o);
    FinishLive(ClearPlayback(s), o);
  }

  lemma TestsOverTracked(s: State, p: nat, o: Outcome, id: nat)
    requires Owned(s) && Tracked(s, id) && p !in s.live
    ensures s.test.id == Some(p) ==> Tracked(ClearTest(s), id)
    ensures s.chan.id == Some(p) ==> Tracked(FinishChannel(s, o), id)
  {
  }

  lemma FinishedTracked(s: State, p: nat, code: int, env: Env, id: nat)
    requires Owned(s) && Tracked(s, id)
    ensures Tracked(Finished(s, p, code, env), id)
  {
    hide Owned, Tracked, DuplexDone, ClearTest, ChannelOver, PlaybackOver, RecordingOver, FailRecording;
    var t := Over(s, p);
    OwnedSame(s, t);
    TrackedSame(s, t, id);
    if IsDuplex(s, p) {
      DuplexDoneTracked(t, p, code, false, env, id);
    } else if IsTest(s, p) || IsChannel(s, p) {
      ChannelOverIs(t, code);
      TestsOverTracked(t, p, if t.chan.stop then Stopped else if code == 0 then Pass else Fail, id);
    } else if s.play.id == Some(p) {
      PlaybackOverTracked(t, p, if code == 0 then Pass else Fail, id);
    } else if s.rec.id == Some(p) {
      RecordingOverTracked(t, p, env, id);
    }
  }

  lemma BrokeTracked(s: State, p: nat, env: Env, id: nat)
    requires Owned(s) && Tracked(s, id)
    ensures Tracked(Broke(s, p, env), id)
  {
    hide Owned, Tracked, DuplexDone, ClearTest, FinishChannel, PlaybackOver, RecordingOver, FailRecording;
    var t := Over(s, p);
    OwnedSame(s, t);
    TrackedSame(s, t, id);
    if IsDuplex(s, p) {
      DuplexDoneTracked(t, p, -1, true, env, id);
      TrackedSame(DuplexDone(t, p, -1, true, env), DuplexFailed(t, p, env), id);
    } else if IsTest(s, p) || IsChannel(s, p) {
      TestsOverTracked(t, p, if s.chan.stop then Stopped else Fail, id);
    } else if s.play.id == Some(p) {
      PlaybackOverTracked(t, p, Fail, id);
    } else if s.rec.id == Some(p) {
      RecordingOverTracked(t, p, env, id);
    }
  }

  lemma DropLive(s: State)
    requires Flags(s)
    ensures DropRequest(s).live == s.live && Flags(DropRequest(s))
  {
  }

  lemma DropTestsLive(s: State)
    requires Flags(s)
    ensures DropTest(s).live == s.live && DropChannel(s).live == s.live
    ensures Flags(DropTest(s)) && Flags(DropChannel(s))
  {
  }

  lemma DropLiveToo(s: State)
    requires Flags(s)
    ensures DropPlayback(s).live == s.live && DropRecording(s).live == s.live && FinishDuplex(s, Blocked).live == s.live
    ensures Flags(DropPlayback(s)) && Flags(DropRecording(s)) && Flags(FinishDuplex(s, Blocked))
  {
  }

  lemma DisconnectTracked(s: State, id: nat)
    requires Tracked(s, id)
    ensures Disconnect(s).live == {} && Tracked(Disconnect(s), id)
  {
    hide DropRequest, DropTest, DropChannel, DropPlayback, DropRecording, FinishDuplex;
    var t0 := s.(validated := None, validatedInput := None, live := {});
    var t1 := DropRequest(t0);
    var t2 := DropTest(t1);
    var t3 := DropChannel(t2);
    var t4 := DropPlayback(t3);
    DropLive(t0);
    DropTestsLive(t1);
    DropTestsLive(t2);
    DropLiveToo(t3);
    DropLiveToo(t4);
    DropLiveToo(DropRecording(t4));
  }

  lemma BeginTracked(s: State, e: Event, id: nat)
    requires Owned(s) && Tracked(s, id) && IsBegin(e)
    ensures Tracked(Step(s, e), id)
  {
    hide Owned, Tracked, RunPrecheck, RunCapture, RunAnalysis, RunPlayback, RunDuplex, RunChannel, RunTest;
    match e
    case EPrecheck(env) => PrecheckTracked(s, env, id);
    case ECapture(config, env) => CaptureTracked(s, config, env, id);
    case EAnalyze(env) => AnalysisTracked(s, env, id);
    case EAutoPlayback(env) => AutoPlaybackTracked(s, env, id);
    case EDuplex(valid, path, env) => DuplexTracked(s, valid, path, env, id);
    case EChannel(valid, env) => ChannelTracked(s, valid, env, id);
    case ETest(env) => TestTracked(s, env, id);
  }

  lemma CeaseTracked(s: State, e: Event, id: nat)
    requires Owned(s) && Tracked(s, id) && IsCease(e)
    ensures Tracked(Step(s, e), id) <==> !Releases(s, e, id)
  {
    hide Owned, Tracked, StopAutomation, StopPlayback, StopRecording, StopChannel, ShutdownPlayback, ShutdownRecording,
      ShutdownTest;
    match e
    case EStopAutomation => StopAutomationTracked(s, id);
    case EStopPlayback => StopPlaybackTracked(s, id);
    case EStopRecording => StopRecordingTracked(s, id);
    case EStopChannel => StopChannelTracked(s, id);
    case EShutdownPlayback => ShutdownPlaybackTracked(s, id);
    case EShutdownRecording => ShutdownRecordingTracked(s, id);
    case EShutdownTest => ShutdownTestTracked(s, id);
  }

  /** Every process in play stays tracked by every step, except exactly by those that release it. */
  lemma StepTracked(s: State, e: Event, id: nat)
    requires Owned(s) && Tracked(s, id)
    ensures Tracked(Step(s, e), id) <==> !Releases(s, e, id)
  {
    hide Owned, Tracked, Record, Succeeded, Failed, Began, Finished, Broke, Disconnect, OnlyAsks;
    if IsBegin(e) {
      BeginTracked(s, e, id);
    } else if IsCease(e) {
      CeaseTracked(s, e, id);
    } else if IsQuiet(e) {
      QuietAsks(s, e);
      AsksTracked(s, Step(s, e), id);
    } else {
      match e
      case ERecord(config, env) => RecordLoses(s, config, env, id);
      case ESucceeded(r, answer, env) => SucceededTracked(s, r, answer, env, id);
      case EFailed(r, env) => FailedTracked(s, r, env, id);
      case EBegan(p) => BeganTracked(s, p, id);
      case EFinished(p, code, env) => FinishedTracked(s, p, code, env, id);
      case EBroke(p, env) => BrokeTracked(s, p, env, id);
      case EDisconnect => DisconnectTracked(s, id);
    }
  }

  lemma RecordLoses(s: State, config: Option<Path>, env: Env, id: nat)
    requires Owned(s) && Tracked(s, id)
    ensures Tracked(Record(s, config, env), id) <==> !Loses(s, ERecord(config, env), id)
  {
    RecordTracked(s, config, env, id);
  }

  lemma BeganTracked(s: State, p: nat, id: nat)
    requires Tracked(s, id)
    ensures Tracked(Began(s, p), id)
  {
    TrackedSame(s, Began(s, p), id);
  }

  /** This step releases no process. */
  predicate Careful(s: State, e: Event) {
    match e
    case ERecord(config, _) => config.None? ==> !IsLive(s, s.rec.id)
    case EShutdownPlayback => !IsLive(s, s.play.id)
    case EShutdownRecording => !IsLive(s, s.rec.id)
    case EShutdownTest => !IsLive(s, s.test.id)
    case ESucceeded(id, answer, env) =>
      !(Pending(s, id) && KindIs(s, KDuplexPreflight) && HalfStarts(s, answer, env))
    case _ => true
  }

  lemma CarefulReleasesNone(s: State, e: Event, id: nat)
    requires Careful(s, e)
    ensures !Releases(s, e, id)
  {
  }

  predicate IsLive(s: State, id: Option<nat>) {
    id.Some? && id.value in s.live
  }

  predicate CarefulRun(s: State, events: seq<Event>)
    decreases |events|
  {
    events == [] || (Careful(s, events[0]) && CarefulRun(Step(s, events[0]), events[1..]))
  }

  lemma {:induction false} RunTracked(s: State, events: seq<Event>, id: nat)
    requires Owned(s) && Tracked(s, id) && CarefulRun(s, events)
    ensures Tracked(Run(s, events), id)
    decreases |events|
  {
    if events != [] {
      hide Owned, Tracked, Step, Careful, Releases;
      CarefulReleasesNone(s, events[0], id);
      StepOwned(s, events[0]);
      StepTracked(s, events[0], id);
      RunTracked(Step(s, events[0]), events[1..], id);
    }
  }

  /** Two processes of one activity. */
  predicate SameActivity(s: State, a: nat, b: nat) {
    a == b || (IsDuplex(s, a) && IsDuplex(s, b))
  }

  lemma HeldTogether(s: State, a: nat, b: nat)
    requires Owned(s) && Held(s, a) && Held(s, b)
    ensures SameActivity(s, a, b)
  {
  }

  /** In every run that releases none, two processes that have not ended, told to stop or not, are the two halves
      of a full duplex. */
  lemma OneActivityLive(events: seq<Event>, a: nat, b: nat)
    requires CarefulRun(IDLE, events)
    ensures var s := Run(IDLE, events);
            a in s.live && b in s.live ==> Held(s, a) && Held(s, b) && SameActivity(s, a, b)
  {
    RunOwned(IDLE, events);
    RunTracked(IDLE, events, a);
    RunTracked(IDLE, events, b);
    var s := Run(IDLE, events);
    if a in s.live && b in s.live {
      HeldTogether(s, a, b);
    }
  }

  // ----- Processes not told to stop ---------------------------------------------------------------------

  lemma PrecheckTold(s: State, env: Env)
    ensures RunPrecheck(s, env).told == s.told
  {
  }

  lemma AnalysisTold(s: State, env: Env)
    ensures RunAnalysis(s, env).told == s.told
  {
  }

  lemma AutoPlaybackTold(s: State, env: Env)
    ensures RunPlayback(s, env).told == s.told
  {
  }

  lemma DuplexTold(s: State, valid: bool, path: Option<Path>, env: Env)
    ensures RunDuplex(s, valid, path, env).told == s.told
  {
  }

  lemma ChannelTold(s: State, valid: bool, env: Env)
    ensures RunChannel(s, valid, env).told == s.told
  {
  }

  lemma TestTold(s: State, env: Env)
    ensures RunTest(s, env).told == s.told
  {
  }

  lemma CaptureTold(s: State, config: Option<Path>, env: Env)
    ensures RunCapture(s, config, env).told == s.told
  {
  }

  lemma RecordTold(s: State, config: Option<Path>, env: Env)
    ensures Record(s, config, env).told == s.told
  {
  }

  lemma AsksTold(s: State, t: State)
    requires OnlyAsks(s, t)
    ensures t.told == s.told
  {
  }

  lemma StopPlaybackTold(s: State, id: nat)
    requires id in s.told
    ensures id in StopPlayback(s).told
  {
  }

  lemma StopRecordingTold(s: State, id: nat)
    requires id in s.told
    ensures id in StopRecording(s).told
  {
  }

  lemma StopChannelTold(s: State, id: nat)
    requires id in s.told
    ensures id in StopChannel(s).told
  {
  }

  lemma ShutdownPlaybackTold(s: State, id: nat)
    requires id in s.told
    ensures id in ShutdownPlayback(s).told
  {
  }

  lemma ShutdownRecordingTold(s: State, id: nat)
    requires id in s.told
    ensures id in ShutdownRecording(s).told
  {
  }

  lemma ShutdownTestTold(s: State, id: nat)
    requires id in s.told
    ensures id in ShutdownTest(s).told
  {
  }

  lemma StopAutomationTold(s: State, id: nat)
    requires id in s.told
    ensures id in StopAutomation(s).told
  {
    hide StopChannel, StopDuplex, StopCapture, StopAuto;
    StopPartsTold(s, id);
    StopPartsTold(StopChannel(s), id);
    StopPartsTold(StopDuplex(StopChannel(s)), id);
    StopPartsTold(StopCapture(StopDuplex(StopChannel(s))), id);
  }

  lemma StopPartsTold(s: State, id: nat)
    requires id in s.told
    ensures id in StopChannel(s).told && id in StopDuplex(s).told && id in StopCapture(s).told && id in StopAuto(s).told
  {
  }

  lemma AnswersTold(s: State, r: nat, answer: Answer, env: Env, id: nat)
    requires id in s.told
    ensures id in Succeeded(s, r, answer, env).told && id in Failed(s, r, env).told
  {
  }

  lemma EndsTold(s: State, p: nat, code: int, env: Env, id: nat)
    requires id in s.told
    ensures id in Finished(s, p, code, env).told
  {
  }

  lemma BeganTold(s: State, p: nat, id: nat)
    requires id in s.told
    ensures id in Began(s, p).told
  {
  }

  lemma BreaksTold(s: State, p: nat, env: Env, id: nat)
    requires id in s.told
    ensures id in Broke(s, p, env).told
  {
  }

  lemma DropsTold(s: State)
    ensures DropRequest(s).told == s.told && DropTest(s).told == s.told && DropChannel(s).told == s.told
    ensures DropPlayback(s).told == s.told && DropRecording(s).told == s.told && FinishDuplex(s, Blocked).told == s.told
  {
  }

  lemma DisconnectTold(s: State)
    ensures Disconnect(s).told == s.told
  {
    hide DropRequest, DropTest, DropChannel, DropPlayback, DropRecording, FinishDuplex;
    var t0 := s.(validated := None, validatedInput := None, live := {});
    var t1 := DropRequest(t0);
    var t2 := DropTest(t1);
    var t3 := DropChannel(t2);
    var t4 := DropPlayback(t3);
    DropsTold(t0);
    DropsTold(t1);
    DropsTold(t2);
    DropsTold(t3);
    DropsTold(t4);
    DropsTold(DropRecording(t4));
  }

  lemma BeginTold(s: State, e: Event)
    requires IsBegin(e)
    ensures Step(s, e).told == s.told
  {
    hide RunPrecheck, RunCapture, RunAnalysis, RunPlayback, RunDuplex, RunChannel, RunTest;
    match e
    case EPrecheck(env) => PrecheckTold(s, env);
    case ECapture(config, env) => CaptureTold(s, config, env);
    case EAnalyze(env) => AnalysisTold(s, env);
    case EAutoPlayback(env) => AutoPlaybackTold(s, env);
    case EDuplex(valid, path, env) => DuplexTold(s, valid, path, env);
    case EChannel(valid, env) => ChannelTold(s, valid, env);
    case ETest(env) => TestTold(s, env);
  }

  lemma CeaseTold(s: State, e: Event, id: nat)
    requires id in s.told && IsCease(e)
    ensures id in Step(s, e).told
  {
    hide StopAutomation, StopPlayback, StopRecording, StopChannel, ShutdownPlayback, ShutdownRecording, ShutdownTest;
    match e
    case EStopAutomation => StopAutomationTold(s, id);
    case EStopPlayback => StopPlaybackTold(s, id);
    case EStopRecording => StopRecordingTold(s, id);
    case EStopChannel => StopChannelTold(s, id);
    case EShutdownPlayback => ShutdownPlaybackTold(s, id);
    case EShutdownRecording => ShutdownRecordingTold(s, id);
    case EShutdownTest => ShutdownTestTold(s, id);
  }

  /** What has been told stays told. */
  lemma StepTold(s: State, e: Event, id: nat)
    requires id in s.told
    ensures id in Step(s, e).told
  {
    hide Record, Succeeded, Failed, Finished, Broke, Began, Disconnect, OnlyAsks;
    if IsBegin(e) {
      BeginTold(s, e);
    } else if IsCease(e) {
      CeaseTold(s, e, id);
    } else if IsQuiet(e) {
      QuietAsks(s, e);
      AsksTold(s, Step(s, e));
    } else {
      match e
      case ERecord(config, env) => RecordTold(s, config, env);
      case ESucceeded(r, answer, env) => AnswersTold(s, r, answer, env, id);
      case EFailed(r, env) => AnswersTold(s, r, Unexpected, env, id);
      case EBegan(p) => BeganTold(s, p, id);
      case EFinished(p, code, env) => EndsTold(s, p, code, env, id);
      case EBroke(p, env) => BreaksTold(s, p, env, id);
      case EDisconnect => DisconnectTold(s);
    }
  }

  lemma LetGoTold(s: State, e: Event, id: nat)
    requires LetsGo(s, e, id)
    ensures id in Step(s, e).told
  {
  }

  /** A process is tracked, or it has been told to stop. */
  predicate Answerable(s: State, id: nat) {
    Tracked(s, id) || id in s.told
  }

  lemma LostUntold(s: State, config: Option<Path>, env: Env, id: nat)
    requires config.None?
    ensures Record(s, config, env).told == s.told
  {
  }

  /** Of the processes not told to stop, exactly one kind of step forgets one. */
  lemma StepAnswerable(s: State, e: Event, id: nat)
    requires Owned(s) && Answerable(s, id)
    ensures Answerable(Step(s, e), id) <==> !(Loses(s, e, id) && id !in s.told)
  {
    hide Owned, Tracked, Step;
    if id in s.told {
      StepTold(s, e, id);
    } else {
      StepTracked(s, e, id);
      if LetsGo(s, e, id) {
        LetGoTold(s, e, id);
      } else if Loses(s, e, id) {
        LostUntold(s, e.config, e.env, id);
        RecordStep(s, e);
      }
    }
  }

  lemma RecordStep(s: State, e: Event)
    requires e.ERecord?
    ensures Step(s, e) == Record(s, e.config, e.env)
  {
  }

  /** No recording that runs unstopped meets an invalid request. */
  predicate ValidRun(s: State, events: seq<Event>)
    decreases |events|
  {
    events == []
    || (!(events[0].ERecord? && events[0].config.None? && IsLive(s, s.rec.id) && s.rec.id.value !in s.told)
        && ValidRun(Step(s, events[0]), events[1..]))
  }

  lemma {:induction false} RunAnswerable(s: State, events: seq<Event>, id: nat)
    requires Owned(s) && Answerable(s, id) && ValidRun(s, events)
    ensures Answerable(Run(s, events), id)
    decreases |events|
  {
    if events != [] {
      hide Owned, Answerable, Step;
      StepOwned(s, events[0]);
      StepAnswerable(s, events[0], id);
      RunAnswerable(Step(s, events[0]), events[1..], id);
    }
  }

  /** In every run without such a request, shutdowns or not, two processes that have neither ended nor been told to
      stop are the two halves of a full duplex. */
  lemma OneActivityUntold(events: seq<Event>, a: nat, b: nat)
    requires ValidRun(IDLE, events)
    ensures var s := Run(IDLE, events);
            a in s.live - s.told && b in s.live - s.told ==> Held(s, a) && Held(s, b) && SameActivity(s, a, b)
  {
    RunOwned(IDLE, events);
    RunAnswerable(IDLE, events, a);
    RunAnswerable(IDLE, events, b);
    var s := Run(IDLE, events);
    if a in s.live - s.told && b in s.live - s.told {
      HeldTogether(s, a, b);
    }
  }
}
