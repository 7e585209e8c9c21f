/** The audio manager: recording, playback, speaker test, channel test and full duplex over one request slot. */
module AudioProtocol {
  import opened Options

  type Path = nat

  datatype Kind =
    | KPrecheck | KAnalyze | KArchive | KDuplexPreflight | KDuplexVerify | KDiscovery | KVolume | KValidateFile
    | KRouteSink | KRouteSource | KRecordedValidate | KPlaybackMixer | KChannelPreflight | KTestPreflight
    | KRecordingPreflight | KRecordingVerify

  datatype Request = Request(id: nat, kind: Kind)

  datatype Source = NormalFile | RecordedFile

  datatype Playback = Playback(id: Option<nat>, file: Option<Path>, active: bool, stop: bool, source: Option<Source>)

  datatype Recording = Recording(id: Option<nat>, path: Option<Path>, active: bool, stop: bool)

  datatype SpeakerTest = SpeakerTest(id: Option<nat>, active: bool)

  datatype Channel = Channel(id: Option<nat>, active: bool, stop: bool)

  /** An automated capture or playback: running, asked to stop, and (captures) to be archived. */
  datatype Automation = Automation(active: bool, stop: bool, archive: bool)

  datatype Duplex = Duplex(
    active: bool, captureId: Option<nat>, playbackId: Option<nat>, captureDone: bool, playbackDone: bool,
    captureCode: int, playbackCode: int, stop: bool, failed: bool)

  datatype Action = Precheck | Capture | Analyze | Play | FullDuplex | ChannelTest

  datatype Outcome = Pass | Fail | Stopped | Blocked | Disconnected

  /** A published result; a refusal answers an action that was not begun. */
  datatype Result = Result(action: Action, outcome: Outcome, refusal: bool)

  /** How often each action occurred. */
  datatype Tally = Tally(precheck: int, capture: int, analyze: int, play: int, duplex: int, channel: int) {
    function Count(a: Action): int {
      match a
      case Precheck => precheck
      case Capture => capture
      case Analyze => analyze
      case Play => play
      case FullDuplex => duplex
      case ChannelTest => channel
    }

    function Plus(a: Action): Tally {
      match a
      case Precheck => this.(precheck := precheck + 1)
      case Capture => this.(capture := capture + 1)
      case Analyze => this.(analyze := analyze + 1)
      case Play => this.(play := play + 1)
      case FullDuplex => this.(duplex := duplex + 1)
      case ChannelTest => this.(channel := channel + 1)
    }
  }

  const NONE_YET: Tally := Tally(0, 0, 0, 0, 0, 0)

  /** How many of these results end an action. */
  function Endings(published: seq<Result>, a: Action): int {
    if published == [] then 0
    else
      var last := published[|published| - 1];
      Endings(published[..|published| - 1], a) + (if last.action == a && !last.refusal then 1 else 0)
  }

  /** Results in the order of publication, and how many of them end each action. */
  datatype Pages = Pages(published: seq<Result>, ended: Tally) {
    ghost predicate Matched() {
      forall a :: ended.Count(a) == Endings(published, a)
    }
  }

  type Book = b: Pages | b.Matched() witness Pages([], NONE_YET)

  lemma MatchedMore(b: Book, r: Result)
    ensures Pages(b.published + [r], if r.refusal then b.ended else b.ended.Plus(r.action)).Matched()
  {
    var more := b.published + [r];
    assert more[..|more| - 1] == b.published;
    forall a
      ensures (if r.refusal then b.ended else b.ended.Plus(r.action)).Count(a) == Endings(more, a)
    {
      assert b.ended.Count(a) == Endings(b.published, a);
      PlusCount(b.ended, r.action, a);
    }
  }

  lemma PlusCount(t: Tally, a: Action, b: Action)
    ensures t.Plus(a).Count(b) == t.Count(b) + (if a == b then 1 else 0)
  {
  }

  function Closed(b: Book, a: Action, o: Outcome): Book {
    MatchedMore(b, Result(a, o, false));
    Pages(b.published + [Result(a, o, false)], b.ended.Plus(a))
  }

  function Denied(b: Book, a: Action): Book {
    MatchedMore(b, Result(a, Blocked, true));
    Pages(b.published + [Result(a, Blocked, true)], b.ended)
  }

  lemma BookCounts(b: Book, a: Action)
    ensures b.ended.Count(a) == Endings(b.published, a)
  {
    hide Endings;
    assert b.Matched();
  }

  const NO_PAGES: Book := Pages([], NONE_YET)

  datatype State = State(
    request: Option<Request>, play: Playback, rec: Recording, test: SpeakerTest, chan: Channel, capture: Automation,
    auto: Automation, duplex: Duplex, lastRecorded: Option<Path>, validated: Option<Path>, validatedInput: Option<Path>,
    // History: processes started that have not ended, those told to stop, the automation actions begun, and the
    // results published.
    live: set<nat>, told: set<nat>, begun: Tally, book: Book)

  const NO_AUTOMATION: Automation := Automation(false, false, false)
  const NO_DUPLEX: Duplex := Duplex(false, None, None, false, false, 0, 0, false, false)

  const IDLE: State := State(
    None, Playback(None, None, false, false, None), Recording(None, None, false, false), SpeakerTest(None, false),
    Channel(None, false, false), NO_AUTOMATION, NO_AUTOMATION, NO_DUPLEX, None, None, None, {}, {}, NONE_YET, NO_PAGES)

  /** What the remote side answers during one step: whether it is connected, the identifier given to a submitted
      operation and to each started process, and whether the evidence session takes captures. */
  datatype Env = Env(connected: bool, submit: Option<nat>, launch: Option<nat>, second: Option<nat>, archive: bool)

  predicate KindIs(s: State, kind: Kind) {
    s.request.Some? && s.request.value.kind == kind
  }

  predicate Busy(s: State) {
    s.request.Some? || s.test.active || s.chan.active || s.duplex.active
  }

  predicate RecordingBusy(s: State) {
    s.rec.active || s.rec.id.Some? || KindIs(s, KRecordingPreflight) || KindIs(s, KRecordingVerify)
  }

  // ----- Bookkeeping ------------------------------------------------------------------------------

  function Submitted(s: State, id: nat, kind: Kind): State {
    s.(request := Some(Request(id, kind)))
  }

  function Launched(s: State, id: nat): State {
    s.(live := s.live + {id})
  }

  function Told(s: State, id: Option<nat>): State {
    if id.None? then s else s.(told := s.told + {id.value})
  }

  function Over(s: State, id: nat): State {
    s.(live := s.live - {id})
  }

  function Refuse(s: State, action: Action): State {
    s.(book := Denied(s.book, action))
  }

  function Begin(s: State, action: Action): State {
    s.(begun := s.begun.Plus(action))
  }

  function Finish(s: State, action: Action, outcome: Outcome): State {
    s.(book := Closed(s.book, action, outcome))
  }

  function FinishCapture(s: State, outcome: Outcome): State {
    if !s.capture.active then s
    else Finish(s.(capture := NO_AUTOMATION), Capture, if s.capture.stop then Stopped else outcome)
  }

  function FinishPlayback(s: State, outcome: Outcome): State {
    if !s.auto.active then s
    else Finish(s.(auto := NO_AUTOMATION), Play, if s.auto.stop then Stopped else outcome)
  }

  function FinishDuplex(s: State, outcome: Outcome): State {
    if !s.duplex.active then s
    else
      var d := s.duplex;
      Finish(s.(duplex := Duplex(false, None, None, false, false, d.captureCode, d.playbackCode, false, false)),
             FullDuplex, outcome)
  }

  function FinishChannel(s: State, outcome: Outcome): State {
    if !s.chan.active then s else Finish(s.(chan := Channel(None, false, false)), ChannelTest, outcome)
  }

  function ClearRecording(s: State): State {
    s.(rec := s.rec.(id := None, active := false, stop := false))
  }

  function ClearPlayback(s: State): State {
    s.(play := s.play.(id := None, file := None, active := false, stop := false))
  }

  function ClearTest(s: State): State {
    s.(test := SpeakerTest(None, false))
  }

  function FailRecording(s: State, outcome: Outcome): State {
    ClearRecording(FinishCapture(s, outcome))
  }

  // ----- Starting ---------------------------------------------------------------------------------

  function RunPrecheck(s: State, env: Env): State {
    if Busy(s) || RecordingBusy(s) || !env.connected || env.submit.None? then Refuse(s, Precheck)
    else Begin(Submitted(s, env.submit.value, KPrecheck), Precheck)
  }

  predicate MayRecord(s: State, env: Env) {
    !RecordingBusy(s) && !Busy(s) && !s.play.active && env.connected
  }

  function Record(s: State, config: Option<Path>, env: Env): State {
    if config.None? then FailRecording(s, Fail)
    else if !MayRecord(s, env) then s
    else
      var t := s.(rec := s.rec.(path := config, stop := false));
      if env.submit.None? then FailRecording(t, Fail) else Submitted(t, env.submit.value, KRecordingPreflight)
  }

  predicate Records(s: State, config: Option<Path>, env: Env) {
    config.Some? && MayRecord(s, env) && env.submit.Some?
  }

  function RunCapture(s: State, config: Option<Path>, env: Env): State {
    if s.capture.active || s.duplex.active || Busy(s) || RecordingBusy(s) || s.play.active then Refuse(s, Capture)
    else
      var t := Begin(s.(capture := Automation(true, false, env.archive)), Capture);
      var u := Record(t, config, env);
      if Records(t, config, env) then u else FinishCapture(u, Fail)
  }

  function RunAnalysis(s: State, env: Env): State {
    if Busy(s) || RecordingBusy(s) || s.play.active || s.lastRecorded.None? || !env.connected || env.submit.None? then
      Refuse(s, Analyze)
    else Begin(Submitted(s, env.submit.value, KAnalyze), Analyze)
  }

  predicate PlaysRecorded(s: State, env: Env) {
    && !s.play.active && !RecordingBusy(s) && !Busy(s) && env.connected && s.lastRecorded.Some? && env.submit.Some?
  }

  function PlayRecorded(s: State, env: Env): State {
    if !PlaysRecorded(s, env) then s
    else Submitted(s.(play := s.play.(source := Some(RecordedFile))), env.submit.value, KRecordedValidate)
  }

  function RunPlayback(s: State, env: Env): State {
    if s.auto.active || s.duplex.active || s.lastRecorded.None? || Busy(s) || RecordingBusy(s) || s.play.active
       || !env.connected
    then Refuse(s, Play)
    else
      var t := Begin(s.(auto := Automation(true, false, false)), Play);
      if PlaysRecorded(t, env) then PlayRecorded(t, env) else FinishPlayback(t, Fail)
  }

  function RunDuplex(s: State, valid: bool, path: Option<Path>, env: Env): State {
    if s.duplex.active || Busy(s) || RecordingBusy(s) || s.play.active || s.test.active
       || (path.None? && s.lastRecorded.None?) || !env.connected || !valid
    then Refuse(s, FullDuplex)
    else
      var t := Begin(s.(duplex := NO_DUPLEX.(active := true)), FullDuplex);
      if env.submit.None? then FinishDuplex(t, Blocked) else Submitted(t, env.submit.value, KDuplexPreflight)
  }

  function RunChannel(s: State, valid: bool, env: Env): State {
    if !valid || s.chan.active || Busy(s) || RecordingBusy(s) || s.play.active || s.test.active || !env.connected then
      Refuse(s, ChannelTest)
    else
      var t := Begin(s.(chan := s.chan.(active := true, stop := false)), ChannelTest);
      if env.submit.None? then FinishChannel(t, Blocked) else Submitted(t, env.submit.value, KChannelPreflight)
  }

  function RunTest(s: State, env: Env): State {
    if s.test.active || s.play.active || RecordingBusy(s) || Busy(s) || !env.connected || env.submit.None? then s
    else Submitted(s, env.submit.value, KTestPreflight).(test := s.test.(active := true))
  }

  /** Requests that own nothing: volume, mute, routing and discovery. */
  function Housekeeping(s: State, kind: Kind, allowed: bool, env: Env): State {
    if !allowed || Busy(s) || !env.connected || env.submit.None? then s else Submitted(s, env.submit.value, kind)
  }

  function ValidateFile(s: State, path: Option<Path>, env: Env): State {
    Housekeeping(s.(validated := None, validatedInput := path), KValidateFile, path.Some?, env)
  }

  function StartPlayback(s: State, path: Path, source: Source, env: Env): State {
    if env.submit.None? then s.(play := s.play.(source := None, file := None))
    else Submitted(s.(play := s.play.(source := Some(source), file := Some(path))), env.submit.value, KPlaybackMixer)
  }

  function PlayFile(s: State, path: Option<Path>, env: Env): State {
    if path.None? || s.play.active || RecordingBusy(s) || s.test.active || Busy(s) || !env.connected
       || s.validated.None?
       || (if s.validatedInput.Some? then s.validatedInput != path else s.validated != path)
    then s
    else StartPlayback(s, s.validated.value, NormalFile, env)
  }

  /** A request of this kind has been submitted in answer to a call. */
  predicate Asked(s: State, t: State, kind: Kind) {
    s.request.None? && KindIs(t, kind)
  }

  /** Exactly one result has been published, and it is one of this action. */
  predicate OneResult(s: State, t: State, a: Action) {
    var before, after := s.book.published, t.book.published;
    |after| == |before| + 1 && before <= after && after[|before|].action == a
  }

  // ----- Stopping ---------------------------------------------------------------------------------

  function StopPlayback(s: State): State {
    if !s.play.active || s.play.id.None? then s else Told(s.(play := s.play.(stop := true)), s.play.id)
  }

  function StopRecording(s: State): State {
    if s.rec.id.None? || !s.rec.active || s.rec.stop then s else Told(s.(rec := s.rec.(stop := true)), s.rec.id)
  }

  function StopChannel(s: State): State {
    if !s.chan.active then s
    else
      var t := s.(chan := s.chan.(stop := true));
      if KindIs(t, KChannelPreflight) then FinishChannel(t.(request := None), Stopped) else Told(t, t.chan.id)
  }

  function StopDuplex(s: State): State {
    if !s.duplex.active then s
    else
      var t := Told(Told(s.(duplex := s.duplex.(stop := true)), s.duplex.captureId), s.duplex.playbackId);
      if KindIs(t, KDuplexPreflight) then FinishDuplex(t.(request := None), Stopped) else t
  }

  function StopCapture(s: State): State {
    if !s.capture.active then s
    else
      var t := s.(capture := s.capture.(stop := true));
      if KindIs(t, KRecordingPreflight) then FinishCapture(ClearRecording(t.(request := None)), Stopped)
      else StopRecording(t)
  }

  function StopAuto(s: State): State {
    if !s.auto.active then s
    else
      var t := s.(auto := s.auto.(stop := true));
      if KindIs(t, KRecordedValidate) then FinishPlayback(ClearPlayback(t.(request := None)), Stopped)
      else StopPlayback(t)
  }

  function StopAutomation(s: State): State {
    StopAuto(StopCapture(StopDuplex(StopChannel(s))))
  }

  predicate StopsChannel(s: State) {
    s.chan.active && (KindIs(s, KChannelPreflight) || s.chan.id.Some?)
  }

  predicate StopsDuplex(s: State) {
    s.duplex.active && (s.duplex.captureId.Some? || s.duplex.playbackId.Some? || KindIs(s, KDuplexPreflight))
  }

  predicate StopsRecording(s: State) {
    s.rec.id.Some? && s.rec.active && !s.rec.stop
  }

  predicate StopsCapture(s: State) {
    s.capture.active && (KindIs(s, KRecordingPreflight) || StopsRecording(s))
  }

  predicate StopsPlayback(s: State) {
    s.play.active && s.play.id.Some?
  }

  predicate StopsAuto(s: State) {
    s.auto.active && (KindIs(s, KRecordedValidate) || StopsPlayback(s))
  }

  /** Some process of an automated activity is told to stop, or its preparation given up. */
  predicate StopsSome(s: State) {
    StopsChannel(s) || StopsDuplex(s) || StopsCapture(s) || StopsAuto(s)
  }

  function ShutdownPlayback(s: State): State {
    var t := Told(s, s.play.id);
    ClearPlayback(if KindIs(t, KRecordedValidate) || KindIs(t, KPlaybackMixer) then t.(request := None) else t)
  }

  function ShutdownRecording(s: State): State {
    var t := Told(s, s.rec.id);
    ClearRecording(if KindIs(t, KRecordingPreflight) || KindIs(t, KRecordingVerify) then t.(request := None) else t)
  }

  function ShutdownTest(s: State): State {
    var t := Told(s, s.test.id);
    ClearTest(if KindIs(t, KTestPreflight) then t.(request := None) else t)
  }

  // ----- Answers to requests ------------------------------------------------------------------------

  datatype Answer =
    | Unexpected
    | ActionDone(outcome: Outcome)
    | ArchiveDone
    | DuplexReady(valid: bool)
    | ChannelReady
    | TestReady
    | ConfigReady(path: Path, buildable: bool)
    | FileFound(path: Path)
    | PlaybackReady(path: Path)
    | MixerReady
    | Verified(valid: bool, path: Path)

  function LaunchRecording(s: State, path: Path, buildable: bool, env: Env): State {
    if !buildable || env.launch.None? then FailRecording(s, Fail)
    else Launched(s.(rec := Recording(env.launch, Some(path), true, false)), env.launch.value)
  }

  function LaunchPlayback(s: State, path: Path, source: Source, env: Env): State {
    var t := s.(play := s.play.(source := Some(source), file := Some(path)));
    if env.launch.None? then FinishPlayback(t, Fail)
    else Launched(t.(play := t.play.(id := env.launch, active := true, stop := false)), env.launch.value)
  }

  function LaunchTest(s: State, env: Env): State {
    if env.launch.None? then ClearTest(s) else Launched(s.(test := s.test.(id := env.launch)), env.launch.value)
  }

  function LaunchChannel(s: State, env: Env): State {
    if env.launch.None? then FinishChannel(s, Fail)
    else Launched(s.(chan := s.chan.(id := env.launch)), env.launch.value)
  }

  function LaunchDuplex(s: State, valid: bool, env: Env): State {
    if s.duplex.stop then FinishDuplex(s, Stopped)
    else if !valid || env.launch.None? then FinishDuplex(s, Fail)
    else
      var t := Launched(s.(duplex := s.duplex.(captureId := env.launch)), env.launch.value);
      if env.second.None? then FinishDuplex(Told(t, env.launch), Fail)
      else Launched(t.(duplex := t.duplex.(playbackId := env.second)), env.second.value)
  }

  function VerifyRecording(s: State, env: Env): State {
    if s.rec.path.None? || !env.connected then FailRecording(s, if env.connected then Fail else Disconnected)
    else if env.submit.None? then FailRecording(s, Fail)
    else Submitted(s, env.submit.value, KRecordingVerify)
  }

  function RecordingVerified(s: State, valid: bool, path: Path, env: Env): State {
    var t := ClearRecording(s);
    if !valid then FinishCapture(t, Fail)
    else
      var u := t.(lastRecorded := Some(path));
      if u.capture.active && u.capture.archive && env.archive && env.submit.Some? then
        Submitted(u, env.submit.value, KArchive)
      else FinishCapture(u, Pass)
  }

  function ResumePlayback(s: State, env: Env): State {
    if s.play.file.None? || s.play.source.None? then s
    else LaunchPlayback(s, s.play.file.value, s.play.source.value, env)
  }

  function Answered(s: State, kind: Kind, answer: Answer, env: Env): State {
    match kind
    case KPrecheck => if answer.ActionDone? then Finish(s, Precheck, answer.outcome) else s
    case KAnalyze => if answer.ActionDone? then Finish(s, Analyze, answer.outcome) else s
    case KChannelPreflight => if answer.ChannelReady? then LaunchChannel(s, env) else s
    case KArchive => FinishCapture(s, Pass)
    case KDuplexPreflight => if answer.DuplexReady? then LaunchDuplex(s, answer.valid, env) else s
    case KDuplexVerify =>
      if answer.ActionDone? then Finish(s.(duplex := NO_DUPLEX), FullDuplex, answer.outcome) else s
    case KRecordingPreflight =>
      if answer.ConfigReady? then LaunchRecording(s, answer.path, answer.buildable, env) else s
    case KRecordedValidate =>
      if answer.FileFound? then StartPlayback(s, answer.path, RecordedFile, env)
      else if answer.PlaybackReady? then LaunchPlayback(s, answer.path, RecordedFile, env)
      else s
    case KPlaybackMixer => if answer.MixerReady? then ResumePlayback(s, env) else s
    case KTestPreflight => if answer.TestReady? then LaunchTest(s, env) else s
    case KRecordingVerify => if answer.Verified? then RecordingVerified(s, answer.valid, answer.path, env) else s
    case KValidateFile => if answer.FileFound? then s.(validated := Some(answer.path)) else s
    case KDiscovery => s
    case KVolume => s
    case KRouteSink => s
    case KRouteSource => s
  }

  function Succeeded(s: State, id: nat, answer: Answer, env: Env): State {
    if s.request.None? || s.request.value.id != id then s
    else Answered(s.(request := None), s.request.value.kind, answer, env)
  }

  function Refused(s: State, kind: Kind, env: Env): State {
    match kind
    case KPrecheck => Finish(s, Precheck, Fail)
    case KAnalyze => Finish(s, Analyze, Fail)
    case KChannelPreflight => FinishChannel(s, Blocked)
    case KArchive => FinishCapture(s, Pass)
    case KDuplexPreflight => FinishDuplex(s, Fail)
    case KDuplexVerify => FinishDuplex(s, Fail)
    case KRecordingPreflight => FailRecording(s, Fail)
    case KRecordingVerify => FailRecording(s, Fail)
    case KRecordedValidate => FinishPlayback(s, Fail)
    case KPlaybackMixer => if env.connected then ResumePlayback(s, env) else s
    case KTestPreflight => ClearTest(s)
    case KValidateFile => s
    case KDiscovery => s
    case KVolume => s
    case KRouteSink => s
    case KRouteSource => s
  }

  function Failed(s: State, id: nat, env: Env): State {
    if s.request.None? || s.request.value.id != id then s
    else Refused(s.(request := None), s.request.value.kind, env)
  }

  // ----- Process events -----------------------------------------------------------------------------

  predicate IsDuplex(s: State, id: nat) {
    s.duplex.captureId == Some(id) || s.duplex.playbackId == Some(id)
  }

  predicate IsTest(s: State, id: nat) {
    s.test.id == Some(id) && s.test.active
  }

  predicate IsChannel(s: State, id: nat) {
    s.chan.id == Some(id) && s.chan.active
  }

  /** A process that has just begun although its stop was requested is told again. */
  function Began(s: State, id: nat): State {
    if IsDuplex(s, id) || IsTest(s, id) || IsChannel(s, id) then s
    else if s.play.id == Some(id) && s.play.active then if s.play.stop then Told(s, Some(id)) else s
    else if s.rec.id != Some(id) || !s.rec.active then s
    else if s.rec.stop then Told(s, Some(id))
    else s
  }

  function DuplexDone(s: State, id: nat, code: int, error: bool, env: Env): State {
    if !IsDuplex(s, id) then s else MarkedDone(s, id, code, error, env)
  }

  function MarkedDone(s: State, id: nat, code: int, error: bool, env: Env): State {
    var d := if s.duplex.captureId == Some(id) then s.duplex.(captureDone := true, captureCode := code)
             else s.duplex.(playbackDone := true, playbackCode := code);
    var t := s.(duplex := d.(failed := d.failed || error));
    if !d.captureDone || !d.playbackDone then t
    else if d.stop then FinishDuplex(t, Stopped)
    else if t.duplex.failed || d.captureCode != 0 || d.playbackCode != 0 || !env.connected || env.submit.None? then
      FinishDuplex(t, Fail)
    else Submitted(t, env.submit.value, KDuplexVerify)
  }

  function PlaybackOver(s: State, outcome: Outcome): State {
    var t := ClearPlayback(s);
    if s.play.stop then t else FinishPlayback(t, outcome)
  }

  function ChannelOver(s: State, code: int): State {
    FinishChannel(s, if s.chan.stop then Stopped else if code == 0 then Pass else Fail)
  }

  function RecordingOver(s: State, env: Env): State {
    VerifyRecording(s.(rec := s.rec.(active := false)), env)
  }

  const SIGTERM: int := -15

  function Finished(s: State, id: nat, code: int, env: Env): State {
    var t := Over(s, id);
    if IsDuplex(s, id) then DuplexDone(t, id, code, false, env)
    else if IsTest(s, id) then ClearTest(t)
    else if IsChannel(s, id) then ChannelOver(t, code)
    else if s.play.id == Some(id) then PlaybackOver(t, if code == 0 then Pass else Fail)
    else if s.rec.id != Some(id) then t
    else if code != 0 && code != SIGTERM && !s.rec.stop then FailRecording(t.(rec := t.rec.(active := false)), Fail)
    else RecordingOver(t, env)
  }

  /** When one process of a full duplex fails, the other is told to stop. */
  function DuplexFailed(s: State, id: nat, env: Env): State {
    var t := DuplexDone(s, id, -1, true, env);
    Told(t, if t.duplex.captureId == Some(id) then t.duplex.playbackId else t.duplex.captureId)
  }

  function Broke(s: State, id: nat, env: Env): State {
    var t := Over(s, id);
    if IsDuplex(s, id) then DuplexFailed(t, id, env)
    else if IsTest(s, id) then ClearTest(t)
    else if IsChannel(s, id) then FinishChannel(t, if s.chan.stop then Stopped else Fail)
    else if s.play.id == Some(id) then PlaybackOver(t, Fail)
    else if s.rec.id != Some(id) then t
    else if s.rec.stop then RecordingOver(t, env)
    else FailRecording(t, Fail)
  }

  // ----- Losing the connection ----------------------------------------------------------------------

  function DropRequest(s: State): State {
    if KindIs(s, KPrecheck) then Finish(s.(request := None), Precheck, Blocked)
    else if KindIs(s, KAnalyze) then Finish(s.(request := None), Analyze, Blocked)
    else if KindIs(s, KDuplexPreflight) then FinishDuplex(s.(request := None), Blocked)
    else if KindIs(s, KRecordedValidate) || KindIs(s, KPlaybackMixer) then s.(request := None)
    else s
  }

  function DropTest(s: State): State {
    if s.test.active || KindIs(s, KTestPreflight) then
      ClearTest(if KindIs(s, KTestPreflight) then s.(request := None) else s)
    else s
  }

  function DropChannel(s: State): State {
    if s.chan.active || KindIs(s, KChannelPreflight) then
      FinishChannel((if KindIs(s, KChannelPreflight) then s.(request := None) else s)
                    .(chan := s.chan.(id := None, stop := true)), Blocked)
    else s
  }

  function DropPlayback(s: State): State {
    FinishPlayback(if s.play.active then ClearPlayback(s) else s, Blocked)
  }

  function DropRecording(s: State): State {
    FinishCapture(if RecordingBusy(s) then ClearRecording(s.(request := None)) else s, Blocked)
  }

  function Disconnect(s: State): State {
    var t := DropRequest(s.(validated := None, validatedInput := None, live := {}));
    FinishDuplex(DropRecording(DropPlayback(DropChannel(DropTest(t)))), Blocked)
  }

  // ----- All events ---------------------------------------------------------------------------------

  datatype Event =
    | EPrecheck(env: Env)
    | ECapture(config: Option<Path>, env: Env)
    | EAnalyze(env: Env)
    | EAutoPlayback(env: Env)
    | EDuplex(valid: bool, path: Option<Path>, env: Env)
    | EChannel(valid: bool, env: Env)
    | ETest(env: Env)
    | ERecord(config: Option<Path>, env: Env)
    | EPlay(path: Option<Path>, env: Env)
    | EPlayRecorded(env: Env)
    | EDiscover(env: Env)
    | EVolume(valid: bool, env: Env)
    | ERouteSink(valid: bool, env: Env)
    | ERouteSource(valid: bool, env: Env)
    | EValidateFile(path: Option<Path>, env: Env)
    | EStopAutomation
    | EStopPlayback
    | EStopRecording
    | EStopChannel
    | EShutdownPlayback
    | EShutdownRecording
    | EShutdownTest
    | ESucceeded(id: nat, answer: Answer, env: Env)
    | EFailed(id: nat, env: Env)
    | EBegan(id: nat)
    | EFinished(id: nat, code: int, env: Env)
    | EBroke(id: nat, env: Env)
    | EDisconnect

  function Step(s: State, e: Event): State {
    match e
    case EPrecheck(env) => RunPrecheck(s, env)
    case ECapture(config, env) => RunCapture(s, config, env)
    case EAnalyze(env) => RunAnalysis(s, env)
    case EAutoPlayback(env) => RunPlayback(s, env)
    case EDuplex(valid, path, env) => RunDuplex(s, valid, path, env)
    case EChannel(valid, env) => RunChannel(s, valid, env)
    case ETest(env) => RunTest(s, env)
    case ERecord(config, env) => Record(s, config, env)
    case EPlay(path, env) => PlayFile(s, path, env)
    case EPlayRecorded(env) => PlayRecorded(s, env)
    case EDiscover(env) => Housekeeping(s, KDiscovery, !RecordingBusy(s), env)
    case EVolume(valid, env) => Housekeeping(s, KVolume, valid, env)
    case ERouteSink(valid, env) => Housekeeping(s, KRouteSink, valid, env)
    case ERouteSource(valid, env) => Housekeeping(s, KRouteSource, valid && !RecordingBusy(s), env)
    case EValidateFile(path, env) => ValidateFile(s, path, env)
    case EStopAutomation => StopAutomation(s)
    case EStopPlayback => StopPlayback(s)
    case EStopRecording => StopRecording(s)
    case EStopChannel => StopChannel(s)
    case EShutdownPlayback => ShutdownPlayback(s)
    case EShutdownRecording => ShutdownRecording(s)
    case EShutdownTest => ShutdownTest(s)
    case ESucceeded(id, answer, env) => Succeeded(s, id, answer, env)
    case EFailed(id, env) => Failed(s, id, env)
    case EBegan(id) => Began(s, id)
    case EFinished(id, code, env) => Finished(s, id, code, env)
    case EBroke(id, env) => Broke(s, id, env)
    case EDisconnect => Disconnect(s)
  }

  function Run(s: State, events: seq<Event>): State
    decreases |events|
  {
    if events == [] then s else Run(Step(s, events[0]), events[1..])
  }
}
