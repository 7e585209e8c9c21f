/** What the calls ask for, whom a stop reaches, and which files are used. */
module AudioCalls {
  import opened Options
  import opened AudioProtocol
  import opened AudioTheorems
  import opened AudioOutcomes

  // ----- When a call submits its request ----------------------------------------------------------

  predicate IsCall(e: Event) {
    IsBegin(e) || IsQuiet(e) || e.ERecord?
  }

  function KindOf(e: Event): Kind
    requires IsCall(e)
  {
    match e
    case EPrecheck(_) => KPrecheck
    case ECapture(_, _) => KRecordingPreflight
    case ERecord(_, _) => KRecordingPreflight
    case EAnalyze(_) => KAnalyze
    case EAutoPlayback(_) => KRecordedValidate
    case EPlayRecorded(_) => KRecordedValidate
    case EDuplex(_, _, _) => KDuplexPreflight
    case EChannel(_, _) => KChannelPreflight
    case ETest(_) => KTestPreflight
    case EPlay(_, _) => KPlaybackMixer
    case EDiscover(_) => KDiscovery
    case EVolume(_, _) => KVolume
    case ERouteSink(_, _) => KRouteSink
    case ERouteSource(_, _) => KRouteSource
    case EValidateFile(_, _) => KValidateFile
  }

  /** Volume, output routing and file validation do not disturb a recording. */
  predicate BesideRecording(e: Event) {
    e.EVolume? || e.ERouteSink? || e.EValidateFile?
  }

  /** These and the calls that own nothing do not disturb a playback; nor does a pre-check. */
  predicate BesidePlayback(e: Event) {
    BesideRecording(e) || e.EPrecheck? || e.EDiscover? || e.ERouteSource?
  }

  /** The file asked for is the one that was validated. */
  predicate WasValidated(s: State, path: Option<Path>) {
    && path.Some? && s.validated.Some?
    && (s.validatedInput == path || (s.validatedInput.None? && s.validated == path))
  }

  /** What a call itself needs. */
  predicate Proper(s: State, e: Event) {
    match e
    case ECapture(config, _) => config.Some? && !s.capture.active
    case ERecord(config, _) => config.Some?
    case EAnalyze(_) => s.lastRecorded.Some?
    case EAutoPlayback(_) => s.lastRecorded.Some? && !s.auto.active
    case EPlayRecorded(_) => s.lastRecorded.Some?
    case EDuplex(valid, path, _) => valid && (path.Some? || s.lastRecorded.Some?)
    case EChannel(valid, _) => valid
    case EVolume(valid, _) => valid
    case ERouteSink(valid, _) => valid
    case ERouteSource(valid, _) => valid
    case EValidateFile(path, _) => path.Some?
    case EPlay(path, _) => WasValidated(s, path)
    case _ => true
  }

  /** Nothing is pending or under way that the call would disturb, and the remote side takes the request. */
  predicate Undisturbed(s: State, e: Event)
    requires IsCall(e)
  {
    && e.env.connected && e.env.submit.Some?
    && s.request.None? && !s.test.active && !s.chan.active && !s.duplex.active
    && (BesideRecording(e) || !(s.rec.active || s.rec.id.Some?))
    && (BesidePlayback(e) || !s.play.active)
  }

  /** A call submits its request exactly if it is free to and proper; otherwise what is pending stays pending. */
  lemma CallSubmitsIff(s: State, e: Event)
    requires IsCall(e)
    ensures Step(s, e).request == if Undisturbed(s, e) && Proper(s, e) then Some(Request(e.env.submit.value, KindOf(e)))
                                  else s.request
  {
    hide FinishCapture, FinishPlayback, FinishDuplex, FinishChannel, Denied;
    FinishRequests();
  }

  // ----- Which files are used ---------------------------------------------------------------------

  lemma FinishFiles()
    ensures forall s, o :: SameFiles(s, FinishCapture(s, o)) && SameFiles(s, FinishPlayback(s, o))
    ensures forall s, o :: SameFiles(s, FinishDuplex(s, o)) && SameFiles(s, FinishChannel(s, o))
  {
    hide Closed;
  }

  predicate SameFiles(s: State, t: State) {
    t.lastRecorded == s.lastRecorded && t.validated == s.validated && t.validatedInput == s.validatedInput
  }

  function RecordedAfter(s: State, e: Event): Option<Path> {
    if Verifies(s, e) then Some(e.answer.path) else s.lastRecorded
  }

  function ValidatedAfter(s: State, e: Event): Option<Path> {
    match e
    case EValidateFile(_, _) => None
    case EDisconnect => None
    case ESucceeded(id, answer, _) =>
      if Answers(s, id) == Some(KValidateFile) && answer.FileFound? then Some(answer.path) else s.validated
    case _ => s.validated
  }

  function InputAfter(s: State, e: Event): Option<Path> {
    match e
    case EValidateFile(path, _) => path
    case EDisconnect => None
    case _ => s.validatedInput
  }

  predicate FilesAfter(s: State, e: Event, t: State) {
    t.lastRecorded == RecordedAfter(s, e) && t.validated == ValidatedAfter(s, e) && t.validatedInput == InputAfter(s, e)
  }

  lemma AnswerFiles(s: State, id: nat, answer: Answer, env: Env)
    ensures FilesAfter(s, ESucceeded(id, answer, env), Succeeded(s, id, answer, env))
  {
    hide FinishCapture, FinishPlayback, FinishDuplex, FinishChannel, Closed;
    FinishFiles();
  }

  lemma RefusalFiles(s: State, id: nat, env: Env)
    ensures SameFiles(s, Failed(s, id, env)) && SameFiles(s, Began(s, id))
  {
    hide FinishCapture, FinishPlayback, FinishDuplex, FinishChannel, Closed;
    FinishFiles();
  }

  lemma EndFiles(s: State, id: nat, code: int, env: Env)
    ensures SameFiles(s, Finished(s, id, code, env))
  {
    hide FinishCapture, FinishPlayback, FinishDuplex, FinishChannel, Closed;
    FinishFiles();
  }

  lemma BreakFiles(s: State, id: nat, env: Env)
    ensures SameFiles(s, Broke(s, id, env))
  {
    hide FinishCapture, FinishPlayback, FinishDuplex, FinishChannel, Closed;
    FinishFiles();
  }

  lemma CallFiles(s: State, e: Event)
    requires IsCall(e)
    ensures FilesAfter(s, e, Step(s, e))
  {
    hide FinishCapture, FinishPlayback, FinishDuplex, FinishChannel, Closed, Denied, Busy, RecordingBusy;
    FinishFiles();
  }

  lemma StopFiles(s: State)
    ensures SameFiles(s, StopChannel(s)) && SameFiles(s, StopDuplex(s)) && SameFiles(s, StopCapture(s))
    ensures SameFiles(s, StopAuto(s))
  {
    hide FinishCapture, FinishPlayback, FinishDuplex, FinishChannel, Closed;
    FinishFiles();
  }

  lemma StopAutomationFiles(s: State)
    ensures SameFiles(s, StopAutomation(s))
  {
    hide StopChannel, StopDuplex, StopCapture, StopAuto;
    StopFiles(s);
    StopFiles(StopChannel(s));
    StopFiles(StopDuplex(StopChannel(s)));
    StopFiles(StopCapture(StopDuplex(StopChannel(s))));
  }

  lemma CeaseFiles(s: State, e: Event)
    requires IsCease(e)
    ensures FilesAfter(s, e, Step(s, e))
  {
    hide StopAutomation, StopChannel, StopPlayback, StopRecording, ShutdownPlayback, ShutdownRecording, ShutdownTest;
    StopFiles(s);
    StopAutomationFiles(s);
    TellingFiles(s);
  }

  lemma TellingFiles(s: State)
    ensures SameFiles(s, StopPlayback(s)) && SameFiles(s, StopRecording(s)) && SameFiles(s, ShutdownPlayback(s))
    ensures SameFiles(s, ShutdownRecording(s)) && SameFiles(s, ShutdownTest(s))
  {
  }

  lemma DropFiles(s: State)
    ensures SameFiles(s, DropRequest(s)) && SameFiles(s, DropTest(s)) && SameFiles(s, DropChannel(s))
    ensures SameFiles(s, DropPlayback(s)) && SameFiles(s, DropRecording(s))
  {
    hide FinishCapture, FinishPlayback, FinishDuplex, FinishChannel, Closed;
    FinishFiles();
  }

  lemma DisconnectFiles(s: State)
    ensures FilesAfter(s, EDisconnect, Disconnect(s))
  {
    hide DropRequest, DropTest, DropChannel, DropPlayback, DropRecording, FinishDuplex;
    var t0 := s.(validated := None, validatedInput := None, live := {});
    var t1 := DropRequest(t0);
    var t2 := DropTest(t1);
    var t3 := DropChannel(t2);
    DropFiles(t0);
    DropFiles(t1);
    DropFiles(t2);
    DropFiles(t3);
    DropFiles(DropPlayback(t3));
    FinishFiles();
  }

  /** The last recording is the last one found valid; the validated file is the one last asked for and found, and is
      forgotten with the next validation or with the connection. */
  lemma StepFiles(s: State, e: Event)
    ensures FilesAfter(s, e, Step(s, e))
  {
    hide Succeeded, Failed, Finished, Broke, Began, Disconnect;
    match e
    case ESucceeded(id, answer, env) => AnswerFiles(s, id, answer, env);
    case EFailed(id, env) => RefusalFiles(s, id, env);
    case EBegan(id) => RefusalFiles(s, id, Env(false, None, None, None, false));
    case EFinished(id, code, env) => EndFiles(s, id, code, env);
    case EBroke(id, env) => BreakFiles(s, id, env);
    case EDisconnect => DisconnectFiles(s);
    case _ => hide *; OtherFiles(s, e);
  }

  lemma OtherFiles(s: State, e: Event)
    requires IsCall(e) || IsCease(e)
    ensures FilesAfter(s, e, Step(s, e))
  {
    hide *;
    if IsCall(e) {
      CallFiles(s, e);
    } else {
      CeaseFiles(s, e);
    }
  }

  /** A file played by hand is the validated one. */
  lemma PlaysValidated(s: State, e: Event)
    requires e.EPlay? && Step(s, e).request != s.request
    ensures WasValidated(s, e.path) && Step(s, e).play.file == s.validated
    ensures Step(s, e).play.source == Some(NormalFile)
  {
    hide FinishPlayback;
  }

  // ----- Whom a stop reaches ------------------------------------------------------------------------

  function Opt(id: Option<nat>): set<nat> {
    if id.None? then {} else {id.value}
  }

  function PlaybackToStop(s: State): set<nat> {
    if s.play.active then Opt(s.play.id) else {}
  }

  function RecordingToStop(s: State): set<nat> {
    if s.rec.active && !s.rec.stop then Opt(s.rec.id) else {}
  }

  function ChannelToStop(s: State): set<nat> {
    if s.chan.active && !KindIs(s, KChannelPreflight) then Opt(s.chan.id) else {}
  }

  function DuplexToStop(s: State): set<nat> {
    if s.duplex.active then Opt(s.duplex.captureId) + Opt(s.duplex.playbackId) else {}
  }

  /** The processes told to stop by each call: those of the activity in question, and by the stop of all automation
      those of every automated activity that is not just being prepared. */
  function ToStop(s: State, e: Event): set<nat>
    requires IsCease(e)
  {
    match e
    case EStopPlayback => PlaybackToStop(s)
    case EStopRecording => RecordingToStop(s)
    case EStopChannel => ChannelToStop(s)
    case EShutdownPlayback => Opt(s.play.id)
    case EShutdownRecording => Opt(s.rec.id)
    case EShutdownTest => Opt(s.test.id)
    case EStopAutomation =>
      ChannelToStop(s) + DuplexToStop(s)
      + (if s.capture.active && !KindIs(s, KRecordingPreflight) then RecordingToStop(s) else {})
      + (if s.auto.active && !KindIs(s, KRecordedValidate) then PlaybackToStop(s) else {})
  }

  lemma FinishTold()
    ensures forall s, o :: FinishCapture(s, o).told == s.told && FinishPlayback(s, o).told == s.told
    ensures forall s, o :: FinishDuplex(s, o).told == s.told && FinishChannel(s, o).told == s.told
  {
    hide Closed;
  }

  lemma StopTold(s: State)
    ensures StopChannel(s).told == s.told + ChannelToStop(s) && StopDuplex(s).told == s.told + DuplexToStop(s)
    ensures StopCapture(s).told
         == s.told + (if s.capture.active && !KindIs(s, KRecordingPreflight) then RecordingToStop(s) else {})
    ensures StopAuto(s).told
         == s.told + (if s.auto.active && !KindIs(s, KRecordedValidate) then PlaybackToStop(s) else {})
  {
    hide FinishCapture, FinishPlayback, FinishDuplex, FinishChannel;
    FinishTold();
  }

  lemma StopsBeside(s: State)
    ensures var t := StopDuplex(StopChannel(s)); t.rec == s.rec && t.play == s.play
    ensures StopCapture(s).play == s.play
  {
    hide Closed;
  }

  lemma StopAutomationTold(s: State)
    ensures StopAutomation(s).told == s.told + ToStop(s, EStopAutomation)
  {
    hide StopChannel, StopDuplex, StopCapture, StopAuto;
    StopsApart(s);
    StopsBeside(s);
    StopsBeside(StopDuplex(StopChannel(s)));
    StopTold(s);
    StopTold(StopChannel(s));
    StopTold(StopDuplex(StopChannel(s)));
    StopTold(StopCapture(StopDuplex(StopChannel(s))));
  }

  /** A stop tells exactly these. */
  lemma StopReaches(s: State, e: Event)
    requires IsCease(e)
    ensures Step(s, e).told == s.told + ToStop(s, e)
  {
    hide *;
    if e.EStopAutomation? {
      StopAutomationTold(s);
      StopsAll(s);
    } else {
      OneStopReaches(s, e);
    }
  }

  lemma StopsAll(s: State)
    ensures Step(s, EStopAutomation) == StopAutomation(s)
  {
  }

  lemma OneStopReaches(s: State, e: Event)
    requires IsCease(e) && !e.EStopAutomation?
    ensures Step(s, e).told == s.told + ToStop(s, e)
  {
    hide StopChannel, FinishChannel, RecordingToStop, PlaybackToStop, StopPlayback, StopRecording;
    StopTold(s);
    TellingTold(s);
  }

  lemma TellingTold(s: State)
    ensures StopPlayback(s).told == s.told + PlaybackToStop(s)
    ensures StopRecording(s).told == s.told + RecordingToStop(s)
  {
  }

  lemma StopMarks(s: State)
    ensures var t := StopChannel(s); t.chan.active ==> t.chan.stop
    ensures var t := StopDuplex(s); (t.duplex.active ==> t.duplex.stop) && t.chan == s.chan
    ensures var t := StopCapture(s); (t.capture.active ==> t.capture.stop) && t.chan == s.chan && t.duplex == s.duplex
    ensures var t := StopAuto(s);
            (t.auto.active ==> t.auto.stop) && t.chan == s.chan && t.duplex == s.duplex && t.capture == s.capture
  {
    hide Closed;
  }

  /** The stop of all automation leaves nothing automated that is not marked as stopped. */
  lemma StopMarksAll(s: State)
    ensures var t := StopAutomation(s);
            && (t.chan.active ==> t.chan.stop) && (t.duplex.active ==> t.duplex.stop)
            && (t.capture.active ==> t.capture.stop) && (t.auto.active ==> t.auto.stop)
  {
    hide StopChannel, StopDuplex, StopCapture, StopAuto;
    StopMarks(s);
    StopMarks(StopChannel(s));
    StopMarks(StopDuplex(StopChannel(s)));
    StopMarks(StopCapture(StopDuplex(StopChannel(s))));
  }

  /** Each half of a duplex is told when the other fails, and a first half without a second one too. */
  lemma DuplexTells(s: State, id: nat, answer: Answer, env: Env)
    requires s.duplex.active
    ensures IsDuplex(s, id) && Broke(s, id, env).duplex.active ==>
              Broke(s, id, env).told
              == s.told + Opt(if s.duplex.captureId == Some(id) then s.duplex.playbackId else s.duplex.captureId)
    ensures Answers(s, id) == Some(KDuplexPreflight) && answer == DuplexReady(true) && !s.duplex.stop
            && env.launch.Some? && env.second.None? ==>
              Succeeded(s, id, answer, env).told == s.told + {env.launch.value}
  {
    hide Closed;
  }

  /** A process that begins after it was asked to stop is told again. */
  lemma BeganTold(s: State, id: nat)
    ensures IsPlayback(s, id) && s.play.active && s.play.stop ==> Began(s, id).told == s.told + {id}
    ensures IsRecording(s, id) && s.rec.active && s.rec.stop ==> Began(s, id).told == s.told + {id}
    ensures !s.play.stop && !s.rec.stop ==> Began(s, id) == s
  {
  }

  // ----- A stop that was asked for is what is published -----------------------------------------------

  /** A stopped capture or playback stays so. */
  predicate StaysStopped(s: State, t: State) {
    && (s.capture.active && s.capture.stop && t.capture.active ==> t.capture.stop)
    && (s.auto.active && s.auto.stop && t.auto.active ==> t.auto.stop)
  }

  /** Ending another activity, or the same one, takes no stop back. */
  lemma FinishStays()
    ensures forall s, o :: SameAutos(s, FinishDuplex(s, o)) && SameAutos(s, FinishChannel(s, o))
    ensures forall s, o :: FinishCapture(s, o).auto == s.auto && FinishCapture(s, o).capture == Idle(s.capture)
    ensures forall s, o :: FinishPlayback(s, o).capture == s.capture && FinishPlayback(s, o).auto == Idle(s.auto)
  {
    hide Closed;
  }

  predicate SameAutos(s: State, t: State) {
    t.capture == s.capture && t.auto == s.auto
  }

  function Idle(a: Automation): Automation {
    if a.active then NO_AUTOMATION else a
  }

  lemma CallStays(s: State, e: Event)
    requires IsCall(e)
    ensures StaysStopped(s, Step(s, e))
  {
    hide FinishCapture, FinishPlayback, FinishDuplex, FinishChannel, Denied;
    FinishStays();
  }

  lemma StopStays(s: State)
    ensures SameAutos(s, StopDuplex(StopChannel(s)))
    ensures StaysStopped(s, StopCapture(s)) && StopCapture(s).auto == s.auto
    ensures StaysStopped(s, StopAuto(s)) && StopAuto(s).capture == s.capture
  {
    hide FinishCapture, FinishPlayback, FinishDuplex, FinishChannel;
    FinishStays();
  }

  lemma CeaseStays(s: State, e: Event)
    requires IsCease(e)
    ensures StaysStopped(s, Step(s, e))
  {
    hide FinishChannel, StopDuplex, StopCapture, StopAuto;
    FinishStays();
    StopStays(s);
    StopStays(StopDuplex(StopChannel(s)));
    StopStays(StopCapture(StopDuplex(StopChannel(s))));
  }

  lemma AnswerStays(s: State, id: nat, answer: Answer, env: Env)
    ensures StaysStopped(s, Succeeded(s, id, answer, env)) && StaysStopped(s, Failed(s, id, env))
  {
    hide FinishCapture, FinishPlayback, FinishDuplex, FinishChannel, Closed;
    FinishStays();
  }

  lemma EndStays(s: State, id: nat, code: int, env: Env)
    ensures StaysStopped(s, Finished(s, id, code, env)) && StaysStopped(s, Broke(s, id, env))
    ensures StaysStopped(s, Began(s, id))
  {
    hide FinishCapture, FinishPlayback, FinishDuplex, FinishChannel;
    FinishStays();
  }

  lemma DropStays(s: State)
    ensures SameAutos(s, DropRequest(s)) && SameAutos(s, DropChannel(DropTest(s)))
    ensures DropPlayback(s).capture == s.capture && DropPlayback(s).auto == Idle(s.auto)
    ensures DropRecording(s).auto == s.auto && DropRecording(s).capture == Idle(s.capture)
  {
    hide FinishCapture, FinishPlayback, FinishDuplex, FinishChannel, Closed;
    FinishStays();
  }

  lemma DisconnectStays(s: State)
    ensures StaysStopped(s, Disconnect(s))
  {
    hide DropRequest, DropTest, DropChannel, DropPlayback, DropRecording, FinishDuplex;
    var t0 := s.(validated := None, validatedInput := None, live := {});
    var t3 := DropChannel(DropTest(DropRequest(t0)));
    DropStays(t0);
    DropStays(DropRequest(t0));
    DropStays(t3);
    DropStays(DropPlayback(t3));
    FinishStays();
  }

  lemma StepStays(s: State, e: Event)
    ensures StaysStopped(s, Step(s, e))
  {
    hide Succeeded, Failed, Finished, Broke, Began, Disconnect;
    match e
    case ESucceeded(id, answer, env) => AnswerStays(s, id, answer, env);
    case EFailed(id, env) => AnswerStays(s, id, Unexpected, env);
    case EBegan(id) => EndStays(s, id, 0, Env(false, None, None, None, false));
    case EFinished(id, code, env) => EndStays(s, id, code, env);
    case EBroke(id, env) => EndStays(s, id, 0, env);
    case EDisconnect => DisconnectStays(s);
    case _ =>
      hide *;
      if IsCall(e) {
        CallStays(s, e);
      } else {
        CeaseOrCall(e);
        CeaseStays(s, e);
      }
  }

  lemma CeaseOrCall(e: Event)
    ensures IsCall(e) || IsCease(e) || e.ESucceeded? || e.EFailed? || e.EBegan? || e.EFinished? || e.EBroke?
            || e.EDisconnect?
  {
  }

  /** A capture or playback that was asked to stop is under way, and to be stopped. */
  predicate Stopping(s: State, a: Action) {
    if a == Capture then s.capture.active && s.capture.stop else a == Play && s.auto.active && s.auto.stop
  }

  /** Whatever happens then, it stays to be stopped for as long as it is under way, and can end as nothing else. */
  lemma StoppedEndsStopped(s: State, e: Event, a: Action, o: Outcome)
    requires Stopping(s, a)
    ensures Publishes(s, e, a, o) ==> o == Stopped
    ensures (if a == Capture then Step(s, e).capture.active else Step(s, e).auto.active) ==> Stopping(Step(s, e), a)
  {
    hide Story, Step, CallShown, EndShown;
    StepStays(s, e);
    StepPublishes(s, e, a);
    if Publishes(s, e, a, o) {
      SameRest(Story(s.book, a), [Result(a, o, false)], CallShown(s, e, a) + EndShown(s, e, a));
      OnlyStopped(s, e, a);
    }
  }

  lemma OnlyStopped(s: State, e: Event, a: Action)
    requires Stopping(s, a)
    ensures forall o :: CallShown(s, e, a) + EndShown(s, e, a) == [Result(a, o, false)] ==> o == Stopped
  {
    EitherShown(s, e, a);
    if IsBegin(e) {
      assert CallShown(s, e, a) + EndShown(s, e, a) == CallShown(s, e, a);
    } else {
      assert CallShown(s, e, a) + EndShown(s, e, a) == EndShown(s, e, a);
    }
  }
}
