/** What every published outcome comes from. */
module AudioOutcomes {
  import opened Options
  import opened AudioProtocol
  import opened AudioTheorems

  // ----- The outcome an event gives to each automated action --------------------------------------

  /** The pending request, if its answer carries this identifier. */
  function Answers(s: State, id: nat): Option<Kind> {
    if s.request.Some? && s.request.value.id == id then Some(s.request.value.kind) else None
  }

  /** The process is the recording's and no other activity's. */
  predicate IsRecording(s: State, p: nat) {
    s.rec.id == Some(p) && !IsDuplex(s, p) && !IsTest(s, p) && !IsChannel(s, p) && s.play.id != Some(p)
  }

  predicate IsPlayback(s: State, p: nat) {
    s.play.id == Some(p) && !IsDuplex(s, p) && !IsTest(s, p) && !IsChannel(s, p)
  }

  predicate IsOnlyChannel(s: State, p: nat) {
    IsChannel(s, p) && !IsDuplex(s, p) && !IsTest(s, p)
  }

  /** A verified capture is archived where it was begun in a session and one still takes it. */
  predicate Archives(s: State, env: Env) {
    s.capture.active && s.capture.archive && env.archive && env.submit.Some?
  }

  /** A recording that is over cannot even be verified. */
  function Unverified(s: State, env: Env): Option<Outcome> {
    if !env.connected then Some(Disconnected)
    else if s.rec.path.None? || env.submit.None? then Some(Fail)
    else None
  }

  function CaptureOutcome(s: State, e: Event): Option<Outcome> {
    match e
    case ERecord(config, env) =>
      if config.None? || (MayRecord(s, env) && env.submit.None?) then Some(Fail) else None
    case EStopAutomation => if KindIs(s, KRecordingPreflight) then Some(Stopped) else None
    case ESucceeded(id, answer, env) =>
      if Answers(s, id) == Some(KRecordingVerify) && answer.Verified? then
        if !answer.valid then Some(Fail) else if Archives(s, env) then None else Some(Pass)
      else if Answers(s, id) == Some(KArchive) then Some(Pass)
      else if Answers(s, id) == Some(KRecordingPreflight) && answer.ConfigReady? then
        if answer.buildable && env.launch.Some? then None else Some(Fail)
      else None
    case EFailed(id, _) =>
      if Answers(s, id) == Some(KArchive) then Some(Pass)
      else if Answers(s, id) == Some(KRecordingPreflight) || Answers(s, id) == Some(KRecordingVerify) then Some(Fail)
      else None
    case EFinished(p, code, env) =>
      if !IsRecording(s, p) then None
      else if code == 0 || code == -15 || s.rec.stop then Unverified(s, env)
      else Some(Fail)
    case EBroke(p, env) =>
      if !IsRecording(s, p) then None else if s.rec.stop then Unverified(s, env) else Some(Fail)
    case EDisconnect => Some(Blocked)
    case _ => None
  }

  /** The file to be played is known but its player cannot be started. */
  predicate CannotResume(s: State, env: Env) {
    s.play.file.Some? && s.play.source.Some? && env.launch.None?
  }

  function PlayOutcome(s: State, e: Event): Option<Outcome> {
    match e
    case EStopAutomation => if KindIs(s, KRecordedValidate) then Some(Stopped) else None
    case ESucceeded(id, answer, env) =>
      if (Answers(s, id) == Some(KRecordedValidate) && answer.PlaybackReady? && env.launch.None?)
         || (Answers(s, id) == Some(KPlaybackMixer) && answer.MixerReady? && CannotResume(s, env))
      then Some(Fail) else None
    case EFailed(id, env) =>
      if Answers(s, id) == Some(KRecordedValidate)
         || (Answers(s, id) == Some(KPlaybackMixer) && env.connected && CannotResume(s, env))
      then Some(Fail) else None
    case EFinished(p, code, _) =>
      if !IsPlayback(s, p) || s.play.stop then None else if code == 0 then Some(Pass) else Some(Fail)
    case EBroke(p, _) => if IsPlayback(s, p) && !s.play.stop then Some(Fail) else None
    case EDisconnect => Some(Blocked)
    case _ => None
  }

  function ChannelOutcome(s: State, e: Event): Option<Outcome> {
    match e
    case EStopAutomation => if KindIs(s, KChannelPreflight) then Some(Stopped) else None
    case EStopChannel => if KindIs(s, KChannelPreflight) then Some(Stopped) else None
    case ESucceeded(id, answer, env) =>
      if Answers(s, id) == Some(KChannelPreflight) && answer.ChannelReady? && env.launch.None? then Some(Fail)
      else None
    case EFailed(id, _) => if Answers(s, id) == Some(KChannelPreflight) then Some(Blocked) else None
    case EFinished(p, code, _) =>
      if !IsOnlyChannel(s, p) then None
      else if s.chan.stop then Some(Stopped)
      else if code == 0 then Some(Pass)
      else Some(Fail)
    case EBroke(p, _) => if !IsOnlyChannel(s, p) then None else if s.chan.stop then Some(Stopped) else Some(Fail)
    case EDisconnect => Some(Blocked)
    case _ => None
  }

  /** The end of the second of the two processes decides: stopped, or failed unless both ended well and the verification
      of the recording could be asked for. */
  function DuplexEnd(s: State, p: nat, code: int, error: bool, env: Env): Option<Outcome> {
    var captures := s.duplex.captureId == Some(p);
    var otherDone := if captures then s.duplex.playbackDone else s.duplex.captureDone;
    var otherCode := if captures then s.duplex.playbackCode else s.duplex.captureCode;
    if !IsDuplex(s, p) || !otherDone then None
    else if s.duplex.stop then Some(Stopped)
    else if !error && !s.duplex.failed && code == 0 && otherCode == 0 && env.connected && env.submit.Some? then None
    else Some(Fail)
  }

  function DuplexOutcome(s: State, e: Event): Option<Outcome> {
    match e
    case EStopAutomation => if KindIs(s, KDuplexPreflight) then Some(Stopped) else None
    case ESucceeded(id, answer, env) =>
      if Answers(s, id) == Some(KDuplexPreflight) && answer.DuplexReady? then
        if s.duplex.stop then Some(Stopped)
        else if answer.valid && env.launch.Some? && env.second.Some? then None
        else Some(Fail)
      else None
    case EFailed(id, _) =>
      if Answers(s, id) == Some(KDuplexPreflight) || Answers(s, id) == Some(KDuplexVerify) then Some(Fail) else None
    case EFinished(p, code, env) => DuplexEnd(s, p, code, false, env)
    case EBroke(p, env) => DuplexEnd(s, p, -1, true, env)
    case EDisconnect => Some(Blocked)
    case _ => None
  }

  /** A pre-check or an analysis ends as its answer says; so does a full duplex by its verification, even when it is no
      longer under way. */
  function ReportedOutcome(s: State, e: Event, kind: Kind): Option<Outcome> {
    match e
    case ESucceeded(id, answer, _) =>
      if Answers(s, id) == Some(kind) && answer.ActionDone? then Some(answer.outcome) else None
    case EFailed(id, _) => if Answers(s, id) == Some(kind) then Some(Fail) else None
    case EDisconnect => if KindIs(s, kind) then Some(Blocked) else None
    case _ => None
  }

  /** The results of an action that a step shows when it ends what is under way. */
  function EndShown(s: State, e: Event, a: Action): seq<Result> {
    match a
    case Precheck => Shown(a, true, false, ReportedOutcome(s, e, KPrecheck))
    case Analyze => Shown(a, true, false, ReportedOutcome(s, e, KAnalyze))
    case Capture => Shown(a, s.capture.active, s.capture.stop, CaptureOutcome(s, e))
    case Play => Shown(a, s.auto.active, s.auto.stop, PlayOutcome(s, e))
    case ChannelTest => Shown(a, s.chan.active, false, ChannelOutcome(s, e))
    case FullDuplex =>
      if e.ESucceeded? && Answers(s, e.id) == Some(KDuplexVerify) then
        Shown(a, true, false, ReportedOutcome(s, e, KDuplexVerify))
      else Shown(a, s.duplex.active, false, DuplexOutcome(s, e))
  }

  /** What is under way ends with this outcome, or as stopped if a stop was asked for. */
  function Shown(a: Action, active: bool, stopped: bool, outcome: Option<Outcome>): seq<Result> {
    if !active || outcome.None? then [] else [Result(a, if stopped then Stopped else outcome.value, false)]
  }

  predicate Occupied(s: State) {
    Busy(s) || RecordingBusy(s)
  }

  /** The results a call of an automated action shows before it returns: a refusal, or a failure right after it has
      begun. */
  function CallShown(s: State, e: Event, a: Action): seq<Result> {
    match e
    case EPrecheck(env) =>
      if a == Precheck && (Occupied(s) || !env.connected || env.submit.None?) then [Result(a, Blocked, true)] else []
    case EAnalyze(env) =>
      if a == Analyze && (Occupied(s) || s.play.active || s.lastRecorded.None? || !env.connected || env.submit.None?)
      then [Result(a, Blocked, true)] else []
    case ECapture(config, env) =>
      if a != Capture then []
      else if s.capture.active || s.duplex.active || Occupied(s) || s.play.active then [Result(a, Blocked, true)]
      else if config.None? || !env.connected || env.submit.None? then [Result(a, Fail, false)]
      else []
    case EAutoPlayback(env) =>
      if a != Play then []
      else if s.auto.active || s.duplex.active || s.lastRecorded.None? || Occupied(s) || s.play.active || !env.connected
      then [Result(a, Blocked, true)]
      else if env.submit.None? then [Result(a, Fail, false)]
      else []
    case EDuplex(valid, path, env) =>
      if a != FullDuplex then []
      else if s.duplex.active || Occupied(s) || s.play.active || s.test.active || (path.None? && s.lastRecorded.None?)
              || !env.connected || !valid
      then [Result(a, Blocked, true)]
      else if env.submit.None? then [Result(a, Blocked, false)]
      else []
    case EChannel(valid, env) =>
      if a != ChannelTest then []
      else if !valid || s.chan.active || Occupied(s) || s.play.active || s.test.active || !env.connected
      then [Result(a, Blocked, true)]
      else if env.submit.None? then [Result(a, Blocked, false)]
      else []
    case _ => []
  }

  // ----- Every step publishes exactly that ----------------------------------------------------------

  /** The published results of one action, in their order. */
  function Of(published: seq<Result>, a: Action): seq<Result> {
    if published == [] then []
    else
      var last := published[|published| - 1];
      Of(published[..|published| - 1], a) + (if last.action == a then [last] else [])
  }

  function Story(b: Book, a: Action): seq<Result> {
    Of(b.published, a)
  }

  /** One more result in the book is one more for its action. */
  lemma BookShows(b: Book, a: Action)
    ensures forall action, o :: Story(Closed(b, action, o), a)
              == Story(b, a) + (if action == a then [Result(a, o, false)] else [])
    ensures forall action :: Story(Denied(b, action), a)
              == Story(b, a) + (if action == a then [Result(a, Blocked, true)] else [])
    ensures Story(b, a) + [] == Story(b, a)
  {
    forall action, o
      ensures Story(Closed(b, action, o), a) == Story(b, a) + (if action == a then [Result(a, o, false)] else [])
    {
      assert (b.published + [Result(action, o, false)])[..|b.published|] == b.published;
    }
    forall action
      ensures Story(Denied(b, action), a) == Story(b, a) + (if action == a then [Result(a, Blocked, true)] else [])
    {
      assert (b.published + [Result(action, Blocked, true)])[..|b.published|] == b.published;
    }
  }

  predicate Gains(s: State, t: State, a: Action, shown: seq<Result>) {
    Story(t.book, a) == Story(s.book, a) + shown
  }

  lemma CaptureGains(s: State, config: Option<Path>, env: Env, a: Action)
    ensures Gains(s, RunCapture(s, config, env), a, CallShown(s, ECapture(config, env), a))
    ensures Gains(s, Record(s, config, env), a, EndShown(s, ERecord(config, env), a))
  {
    hide Story, Closed, Denied;
    BookShows(s.book, a);
  }

  lemma CallGains(s: State, e: Event, a: Action)
    requires IsBegin(e) && !e.ECapture?
    ensures Gains(s, Step(s, e), a, CallShown(s, e, a))
  {
    hide Story, Closed, Denied;
    BookShows(s.book, a);
  }

  predicate RecordingKind(kind: Option<Kind>) {
    kind == Some(KRecordingVerify) || kind == Some(KArchive) || kind == Some(KRecordingPreflight)
  }

  predicate DuplexKind(kind: Option<Kind>) {
    kind == Some(KDuplexPreflight) || kind == Some(KDuplexVerify)
  }

  predicate PlayKind(kind: Option<Kind>) {
    kind == Some(KRecordedValidate) || kind == Some(KPlaybackMixer)
  }

  lemma RecordingAnswerGains(s: State, id: nat, answer: Answer, env: Env, a: Action)
    requires RecordingKind(Answers(s, id))
    ensures Gains(s, Succeeded(s, id, answer, env), a, EndShown(s, ESucceeded(id, answer, env), a))
  {
    hide Story, Closed, Denied;
    BookShows(s.book, a);
  }

  lemma DuplexAnswerGains(s: State, id: nat, answer: Answer, env: Env, a: Action)
    requires DuplexKind(Answers(s, id))
    ensures Gains(s, Succeeded(s, id, answer, env), a, EndShown(s, ESucceeded(id, answer, env), a))
  {
    hide Story, Closed, Denied;
    BookShows(s.book, a);
  }

  lemma PlayAnswerGains(s: State, id: nat, answer: Answer, env: Env, a: Action)
    requires PlayKind(Answers(s, id))
    ensures Gains(s, Succeeded(s, id, answer, env), a, EndShown(s, ESucceeded(id, answer, env), a))
  {
    hide Story, Closed, Denied;
    BookShows(s.book, a);
  }

  lemma OtherAnswerGains(s: State, id: nat, answer: Answer, env: Env, a: Action)
    requires var kind := Answers(s, id); !RecordingKind(kind) && !DuplexKind(kind) && !PlayKind(kind)
    ensures Gains(s, Succeeded(s, id, answer, env), a, EndShown(s, ESucceeded(id, answer, env), a))
  {
    hide Story, Closed, Denied;
    BookShows(s.book, a);
  }

  lemma AnswerGains(s: State, id: nat, answer: Answer, env: Env, a: Action)
    ensures Gains(s, Succeeded(s, id, answer, env), a, EndShown(s, ESucceeded(id, answer, env), a))
  {
    hide *;
    if RecordingKind(Answers(s, id)) {
      RecordingAnswerGains(s, id, answer, env, a);
    } else if DuplexKind(Answers(s, id)) {
      DuplexAnswerGains(s, id, answer, env, a);
    } else if PlayKind(Answers(s, id)) {
      PlayAnswerGains(s, id, answer, env, a);
    } else {
      OtherAnswerGains(s, id, answer, env, a);
    }
  }

  lemma RefusalGains(s: State, id: nat, env: Env, a: Action)
    ensures Gains(s, Failed(s, id, env), a, EndShown(s, EFailed(id, env), a))
  {
    hide Story, Closed, Denied;
    BookShows(s.book, a);
  }

  lemma DuplexDoneGains(s: State, p: nat, code: int, error: bool, env: Env, a: Action)
    requires IsDuplex(s, p)
    ensures Gains(s, DuplexDone(s, p, code, error, env), a,
                  Shown(FullDuplex, s.duplex.active && a == FullDuplex, false, DuplexEnd(s, p, code, error, env)))
  {
    hide Story, Closed, Denied;
    BookShows(s.book, a);
  }

  lemma DuplexEndGains(s: State, p: nat, code: int, env: Env, a: Action)
    requires IsDuplex(s, p)
    ensures Gains(s, Finished(s, p, code, env), a, EndShown(s, EFinished(p, code, env), a))
    ensures Gains(s, Broke(s, p, env), a, EndShown(s, EBroke(p, env), a))
  {
    hide Story, DuplexDone;
    DuplexDoneGains(Over(s, p), p, code, false, env, a);
    DuplexDoneGains(Over(s, p), p, -1, true, env, a);
  }

  lemma OtherEndGains(s: State, p: nat, code: int, env: Env, a: Action)
    requires !IsDuplex(s, p)
    ensures Gains(s, Finished(s, p, code, env), a, EndShown(s, EFinished(p, code, env), a))
  {
    hide Story, Closed, Denied;
    BookShows(s.book, a);
  }

  lemma OtherBreakGains(s: State, p: nat, env: Env, a: Action)
    requires !IsDuplex(s, p)
    ensures Gains(s, Broke(s, p, env), a, EndShown(s, EBroke(p, env), a))
  {
    hide Story, Closed, Denied;
    BookShows(s.book, a);
  }

  lemma StopTestsGain(s: State, a: Action)
    ensures Gains(s, StopChannel(s), a, Shown(ChannelTest, s.chan.active && a == ChannelTest, false,
                                              if KindIs(s, KChannelPreflight) then Some(Stopped) else None))
    ensures Gains(s, StopDuplex(s), a, Shown(FullDuplex, s.duplex.active && a == FullDuplex, false,
                                             if KindIs(s, KDuplexPreflight) then Some(Stopped) else None))
  {
    hide Story, Closed, Denied;
    BookShows(s.book, a);
  }

  lemma StopAutosGain(s: State, a: Action)
    ensures Gains(s, StopCapture(s), a, Shown(Capture, s.capture.active && a == Capture, false,
                                              if KindIs(s, KRecordingPreflight) then Some(Stopped) else None))
    ensures Gains(s, StopAuto(s), a, Shown(Play, s.auto.active && a == Play, false,
                                           if KindIs(s, KRecordedValidate) then Some(Stopped) else None))
  {
    hide Story, Closed, Denied;
    BookShows(s.book, a);
  }

  /** What the four stops of an automation stop leave alone of one another. */
  predicate SameAutomation(s: State, t: State, kind: Kind) {
    && (KindIs(t, kind) == KindIs(s, kind)) && t.capture == s.capture && t.auto == s.auto
  }

  lemma StopsApart(s: State)
    ensures StopChannel(s).duplex == s.duplex
    ensures var t := StopChannel(s); KindIs(t, KDuplexPreflight) == KindIs(s, KDuplexPreflight)
    ensures var t := StopDuplex(StopChannel(s)); SameAutomation(s, t, KRecordingPreflight)
    ensures var t := StopCapture(StopDuplex(StopChannel(s)));
            t.auto == s.auto && KindIs(t, KRecordedValidate) == KindIs(s, KRecordedValidate)
  {
    hide Closed;
  }

  lemma StopAutomationGains(s: State, a: Action)
    ensures Gains(s, StopAutomation(s), a, EndShown(s, EStopAutomation, a))
  {
    hide Story, StopChannel, StopDuplex, StopCapture, StopAuto;
    StopsApart(s);
    StopTestsGain(s, a);
    StopTestsGain(StopChannel(s), a);
    StopAutosGain(StopDuplex(StopChannel(s)), a);
    StopAutosGain(StopCapture(StopDuplex(StopChannel(s))), a);
    AddNone(s.book, a);
  }

  lemma AddNone(b: Book, a: Action)
    ensures Story(b, a) + [] == Story(b, a)
  {
  }

  lemma DropRequestGains(s: State, a: Action)
    ensures var t := DropRequest(s);
            && Gains(s, t, a, if a == Precheck && KindIs(s, KPrecheck) then [Result(a, Blocked, false)]
                              else if a == Analyze && KindIs(s, KAnalyze) then [Result(a, Blocked, false)]
                              else if a == FullDuplex && KindIs(s, KDuplexPreflight) && s.duplex.active then
                                [Result(a, Blocked, false)]
                              else [])
            && t.duplex.active == (s.duplex.active && !KindIs(s, KDuplexPreflight))
            && t.capture == s.capture && t.auto == s.auto && t.chan == s.chan
  {
    hide Story, Closed, Denied;
    BookShows(s.book, a);
  }

  lemma DropTestsGain(s: State, a: Action)
    ensures var t := DropChannel(DropTest(s));
            && Gains(s, t, a, Shown(ChannelTest, s.chan.active && a == ChannelTest, false, Some(Blocked)))
            && t.capture == s.capture && t.auto == s.auto && t.duplex == s.duplex
  {
    hide Story, Closed, Denied;
    BookShows(s.book, a);
  }

  lemma DropAutosGain(s: State, a: Action)
    ensures var t := DropPlayback(s);
            && Gains(s, t, a, Shown(Play, s.auto.active && a == Play, s.auto.stop, Some(Blocked)))
            && t.capture == s.capture && t.duplex == s.duplex
    ensures var t := DropRecording(s);
            && Gains(s, t, a, Shown(Capture, s.capture.active && a == Capture, s.capture.stop, Some(Blocked)))
            && t.duplex == s.duplex
  {
    hide Story, Closed, Denied;
    BookShows(s.book, a);
  }

  lemma FinishDuplexGains(s: State, a: Action)
    ensures Gains(s, FinishDuplex(s, Blocked), a,
                  Shown(FullDuplex, s.duplex.active && a == FullDuplex, false, Some(Blocked)))
  {
    hide Story, Closed, Denied;
    BookShows(s.book, a);
  }

  lemma DisconnectGains(s: State, a: Action)
    ensures Gains(s, Disconnect(s), a, EndShown(s, EDisconnect, a))
  {
    hide Story, DropRequest, DropTest, DropChannel, DropPlayback, DropRecording, FinishDuplex;
    var t0 := s.(validated := None, validatedInput := None, live := {});
    var t1 := DropRequest(t0);
    var t3 := DropChannel(DropTest(t1));
    var t4 := DropPlayback(t3);
    DropRequestGains(t0, a);
    DropTestsGain(t1, a);
    DropAutosGain(t3, a);
    DropAutosGain(t4, a);
    FinishDuplexGains(DropRecording(t4), a);
    AddNone(s.book, a);
  }

  lemma StopChannelGains(s: State, a: Action)
    ensures Gains(s, StopChannel(s), a, EndShown(s, EStopChannel, a))
  {
    hide Story, StopChannel;
    AddNone(s.book, a);
    StopTestsGain(s, a);
  }

  lemma CeaseGains(s: State, e: Event, a: Action)
    requires IsCease(e)
    ensures Gains(s, Step(s, e), a, EndShown(s, e, a))
  {
    hide Story, StopAutomation, StopChannel, StopPlayback, StopRecording, ShutdownPlayback, ShutdownRecording,
      ShutdownTest, EndShown;
    AddNone(s.book, a);
    match e
    case EStopAutomation => StopAutomationGains(s, a);
    case EStopChannel => StopChannelGains(s, a);
    case _ => OtherStopsSame(s, e, a);
  }

  lemma OtherStopsSame(s: State, e: Event, a: Action)
    requires IsCease(e) && !e.EStopAutomation? && !e.EStopChannel?
    ensures Step(s, e).book == s.book && EndShown(s, e, a) == []
  {
  }

  /** Every step publishes exactly the results described above, action by action, in every state whatever. */
  lemma StepPublishes(s: State, e: Event, a: Action)
    ensures Gains(s, Step(s, e), a, CallShown(s, e, a) + EndShown(s, e, a))
  {
    hide Story, Succeeded, Failed, Finished, Broke, Disconnect, Began, OnlyAsks, RunCapture, Record;
    EitherShown(s, e, a);
    AddNone(s.book, a);
    if e.ECapture? {
      CaptureGains(s, e.config, e.env, a);
    } else if IsBegin(e) {
      CallGains(s, e, a);
    } else if IsCease(e) {
      CeaseGains(s, e, a);
    } else if IsQuiet(e) {
      QuietAsks(s, e);
      SameBook(s, Step(s, e));
    } else {
      match e
      case ERecord(config, env) => CaptureGains(s, config, env, a);
      case ESucceeded(id, answer, env) => AnswerGains(s, id, answer, env, a);
      case EFailed(id, env) => RefusalGains(s, id, env, a);
      case EBegan(id) => BeganSame(s, id);
      case EFinished(id, code, env) => EndGains(s, id, code, env, a);
      case EBroke(id, env) => BreakGains(s, id, env, a);
      case EDisconnect => DisconnectGains(s, a);
    }
  }

  lemma EndGains(s: State, p: nat, code: int, env: Env, a: Action)
    ensures Gains(s, Finished(s, p, code, env), a, EndShown(s, EFinished(p, code, env), a))
  {
    hide *;
    if IsDuplex(s, p) {
      DuplexEndGains(s, p, code, env, a);
    } else {
      OtherEndGains(s, p, code, env, a);
    }
  }

  lemma BreakGains(s: State, p: nat, env: Env, a: Action)
    ensures Gains(s, Broke(s, p, env), a, EndShown(s, EBroke(p, env), a))
  {
    hide *;
    if IsDuplex(s, p) {
      DuplexEndGains(s, p, 0, env, a);
    } else {
      OtherBreakGains(s, p, env, a);
    }
  }

  lemma BeganSame(s: State, p: nat)
    ensures Began(s, p).book == s.book
  {
  }

  lemma SameBook(s: State, t: State)
    requires OnlyAsks(s, t)
    ensures t.book == s.book
  {
  }

  /** A call shows something about its own action only, and ends nothing else. */
  lemma EitherShown(s: State, e: Event, a: Action)
    ensures IsBegin(e) || IsQuiet(e) ==> EndShown(s, e, a) == []
    ensures !IsBegin(e) ==> CallShown(s, e, a) == []
    ensures e.EBegan? ==> EndShown(s, e, a) == []
  {
  }

  // ----- When an action has passed --------------------------------------------------------------------

  /** The step publishes one result of this action, which ends it with this outcome. */
  predicate Publishes(s: State, e: Event, a: Action, o: Outcome) {
    Gains(s, Step(s, e), a, [Result(a, o, false)])
  }

  /** The recording is found to be a valid capture. */
  predicate Verifies(s: State, e: Event) {
    e.ESucceeded? && Answers(s, e.id) == Some(KRecordingVerify) && e.answer.Verified? && e.answer.valid
  }

  /** The archiving of a capture comes to its end, well or not. */
  predicate EndsArchiving(s: State, e: Event) {
    (e.ESucceeded? && Answers(s, e.id) == Some(KArchive)) || (e.EFailed? && Answers(s, e.id) == Some(KArchive))
  }

  predicate Reports(s: State, e: Event, kind: Kind, o: Outcome) {
    e.ESucceeded? && Answers(s, e.id) == Some(kind) && e.answer == ActionDone(o)
  }

  /** What an action must have done to pass. A capture: its recording was found valid, and archived if it is to be. A
      playback or a channel test: its process ended with code 0. None of them was told to stop. The others: the remote
      check itself says so. */
  predicate Earns(s: State, e: Event, a: Action) {
    match a
    case Capture =>
      s.capture.active && !s.capture.stop
      && ((Verifies(s, e) && !Archives(s, e.env)) || EndsArchiving(s, e))
    case Play =>
      s.auto.active && !s.auto.stop && e.EFinished? && IsPlayback(s, e.id) && !s.play.stop && e.code == 0
    case ChannelTest => e.EFinished? && IsOnlyChannel(s, e.id) && !s.chan.stop && e.code == 0
    case FullDuplex => Reports(s, e, KDuplexVerify, Pass)
    case Precheck => Reports(s, e, KPrecheck, Pass)
    case Analyze => Reports(s, e, KAnalyze, Pass)
  }

  lemma SameRest(front: seq<Result>, x: seq<Result>, y: seq<Result>)
    requires front + x == front + y
    ensures x == y
  {
    assert (front + x)[|front|..] == x && (front + y)[|front|..] == y;
  }

  lemma ShownPassIff(s: State, e: Event, a: Action)
    ensures CallShown(s, e, a) + EndShown(s, e, a) == [Result(a, Pass, false)] <==> Earns(s, e, a)
    ensures |CallShown(s, e, a) + EndShown(s, e, a)| <= 1
  {
    EitherShown(s, e, a);
    var call, end := CallShown(s, e, a), EndShown(s, e, a);
    if IsBegin(e) {
      assert call + end == call;
    } else {
      assert call + end == end;
      EndPassIff(s, e, a);
    }
  }

  lemma EndPassIff(s: State, e: Event, a: Action)
    requires !IsBegin(e)
    ensures EndShown(s, e, a) == [Result(a, Pass, false)] <==> Earns(s, e, a)
  {
  }

  /** A pass is published exactly when it is earned. */
  lemma PassIff(s: State, e: Event, a: Action)
    ensures Publishes(s, e, a, Pass) <==> Earns(s, e, a)
  {
    hide Story, Step, CallShown, EndShown, Earns;
    StepPublishes(s, e, a);
    ShownPassIff(s, e, a);
    if Publishes(s, e, a, Pass) {
      SameRest(Story(s.book, a), [Result(a, Pass, false)], CallShown(s, e, a) + EndShown(s, e, a));
    }
  }

  /** The results that a run shows, step by step. */
  function ShownBy(s: State, events: seq<Event>, a: Action): seq<Result>
    decreases |events|
  {
    if events == [] then []
    else CallShown(s, events[0], a) + EndShown(s, events[0], a) + ShownBy(Step(s, events[0]), events[1..], a)
  }

  lemma {:induction false} RunPublishes(s: State, events: seq<Event>, a: Action)
    ensures Gains(s, Run(s, events), a, ShownBy(s, events, a))
    decreases |events|
  {
    hide Story, Step, CallShown, EndShown;
    if events != [] {
      StepPublishes(s, events[0], a);
      RunPublishes(Step(s, events[0]), events[1..], a);
    } else {
      AddNone(s.book, a);
    }
  }

  /** In every run, the published results of each action are those its events show, and nothing else. */
  lemma EveryRunPublishes(events: seq<Event>, a: Action)
    ensures Of(Run(IDLE, events).book.published, a) == ShownBy(IDLE, events, a)
  {
    hide Run, ShownBy;
    RunPublishes(IDLE, events, a);
    assert Story(NO_PAGES, a) == [];
  }

  function Passes(story: seq<Result>): nat {
    if story == [] then 0
    else Passes(story[..|story| - 1]) + (if story[|story| - 1].outcome == Pass then 1 else 0)
  }

  /** How many captures were verified as valid in a run. */
  function Verifications(s: State, events: seq<Event>): nat
    decreases |events|
  {
    if events == [] then 0
    else (if Verifies(s, events[0]) then 1 else 0) + Verifications(Step(s, events[0]), events[1..])
  }

  /** Archiving has not been begun. */
  predicate NoArchiving(s: State, t: State) {
    KindIs(t, KArchive) ==> KindIs(s, KArchive)
  }

  lemma FinishRequests()
    ensures forall s, o :: FinishCapture(s, o).request == s.request
    ensures forall s, o :: FinishPlayback(s, o).request == s.request
    ensures forall s, o :: FinishDuplex(s, o).request == s.request
    ensures forall s, o :: FinishChannel(s, o).request == s.request
  {
    hide Closed;
  }

  lemma CallArchives(s: State, e: Event)
    requires IsBegin(e) || (IsCease(e) && !e.EStopAutomation?) || e.ERecord?
    ensures NoArchiving(s, Step(s, e))
  {
    hide FinishCapture, FinishPlayback, FinishDuplex, FinishChannel, Denied;
    FinishRequests();
  }

  lemma StopsArchive(s: State)
    ensures NoArchiving(s, StopChannel(s)) && NoArchiving(s, StopDuplex(s)) && NoArchiving(s, StopCapture(s))
    ensures NoArchiving(s, StopAuto(s))
  {
    hide FinishCapture, FinishPlayback, FinishDuplex, FinishChannel;
    FinishRequests();
  }

  lemma StopAutomationArchives(s: State)
    ensures NoArchiving(s, StopAutomation(s))
  {
    hide StopChannel, StopDuplex, StopCapture, StopAuto;
    StopsArchive(s);
    StopsArchive(StopChannel(s));
    StopsArchive(StopDuplex(StopChannel(s)));
    StopsArchive(StopCapture(StopDuplex(StopChannel(s))));
  }

  lemma AnswerArchives(s: State, id: nat, answer: Answer, env: Env)
    ensures var e, t := ESucceeded(id, answer, env), Succeeded(s, id, answer, env);
            && (Verifies(s, e) && Archives(s, env) ==> KindIs(t, KArchive))
            && (KindIs(t, KArchive) ==>
                  (Verifies(s, e) && Archives(s, env)) || (KindIs(s, KArchive) && !EndsArchiving(s, e)))
  {
    hide FinishCapture, FinishPlayback, FinishDuplex, FinishChannel, Closed;
    FinishRequests();
  }

  lemma EndArchives(s: State, id: nat, code: int, env: Env)
    ensures KindIs(Failed(s, id, env), KArchive) ==> KindIs(s, KArchive) && !EndsArchiving(s, EFailed(id, env))
    ensures NoArchiving(s, Finished(s, id, code, env)) && NoArchiving(s, Broke(s, id, env))
    ensures NoArchiving(s, Began(s, id))
  {
    hide FinishCapture, FinishPlayback, FinishDuplex, FinishChannel, Closed;
    FinishRequests();
  }

  lemma DisconnectArchives(s: State)
    ensures NoArchiving(s, Disconnect(s))
  {
    hide FinishCapture, FinishPlayback, FinishDuplex, FinishChannel, Closed;
    FinishRequests();
  }

  /** A capture is being archived only after its recording was found valid. */
  lemma ArchivesIff(s: State, e: Event)
    ensures Verifies(s, e) && Archives(s, e.env) ==> KindIs(Step(s, e), KArchive)
    ensures KindIs(Step(s, e), KArchive) ==>
              (Verifies(s, e) && Archives(s, e.env)) || (KindIs(s, KArchive) && !EndsArchiving(s, e))
  {
    hide Succeeded, Failed, Finished, Broke, Disconnect, Began, OnlyAsks, StopAutomation;
    if IsQuiet(e) {
      QuietAsks(s, e);
      AsksNoArchiving(s, Step(s, e));
    } else {
      match e
      case EStopAutomation => StopAutomationArchives(s);
      case ESucceeded(id, answer, env) => AnswerArchives(s, id, answer, env);
      case EFailed(id, env) => EndArchives(s, id, 0, env);
      case EBegan(id) => EndArchives(s, id, 0, Env(false, None, None, None, false));
      case EFinished(id, code, env) => EndArchives(s, id, code, env);
      case EBroke(id, env) => EndArchives(s, id, 0, env);
      case EDisconnect => DisconnectArchives(s);
      case _ => hide *; CallArchives(s, e);
    }
  }

  lemma AsksNoArchiving(s: State, t: State)
    requires OnlyAsks(s, t)
    ensures NoArchiving(s, t)
  {
  }

  /** The captures that have passed, and the one being archived. */
  function Credit(s: State): nat {
    Passes(Story(s.book, Capture)) + (if KindIs(s, KArchive) then 1 else 0)
  }

  lemma PassesMore(story: seq<Result>, more: seq<Result>)
    requires |more| <= 1
    ensures Passes(story + more) == Passes(story) + (if more != [] && more[0].outcome == Pass then 1 else 0)
  {
    if more == [] {
      assert story + more == story;
    } else {
      assert (story + more)[..|story|] == story;
    }
  }

  lemma StepVerified(s: State, e: Event)
    ensures Credit(Step(s, e)) <= Credit(s) + (if Verifies(s, e) then 1 else 0)
  {
    hide Story, Step, Passes, CallShown, EndShown;
    StepPublishes(s, e, Capture);
    ShownPassIff(s, e, Capture);
    ArchivesIff(s, e);
    PassesMore(Story(s.book, Capture), CallShown(s, e, Capture) + EndShown(s, e, Capture));
    PassShown(s, e, Capture);
  }

  lemma PassShown(s: State, e: Event, a: Action)
    ensures var shown := CallShown(s, e, a) + EndShown(s, e, a);
            shown != [] ==> shown == [Result(a, shown[0].outcome, shown[0].refusal)]
                            && (shown[0].outcome == Pass ==> !shown[0].refusal)
  {
    EitherShown(s, e, a);
    if IsBegin(e) {
      assert CallShown(s, e, a) + EndShown(s, e, a) == CallShown(s, e, a);
    } else {
      assert CallShown(s, e, a) + EndShown(s, e, a) == EndShown(s, e, a);
    }
  }

  lemma {:induction false} RunVerified(s: State, events: seq<Event>)
    ensures Credit(Run(s, events)) <= Credit(s) + Verifications(s, events)
    decreases |events|
  {
    if events != [] {
      hide Step, Credit, Verifies;
      StepVerified(s, events[0]);
      RunVerified(Step(s, events[0]), events[1..]);
    }
  }

  /** In every run no more captures pass than recordings were verified as valid. */
  lemma EveryPassVerified(events: seq<Event>)
    ensures Passes(Of(Run(IDLE, events).book.published, Capture)) <= Verifications(IDLE, events)
  {
    hide Run, Verifications;
    RunVerified(IDLE, events);
    assert Story(NO_PAGES, Capture) == [];
  }
}
