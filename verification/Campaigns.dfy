/** Reliability campaigns: one action repeated, with answers that may come before the call returns. */
module Campaigns {
  import opened Options

  datatype Status = Pass | Fail | Blocked | Stopped

  datatype Iteration = Iteration(number: nat, status: Status)

  /** The result of the repeated action. */
  datatype Outcome = Outcome(status: Status, success: bool)

  /** What starting the action does: perhaps it reports a result before it returns, and it may refuse. */
  datatype Answer = Answer(sync: Option<Outcome>, started: bool)

  datatype Final = Final(state: Status, total: nat, iterations: seq<Iteration>) {
    function Completed(): nat {
      |iterations|
    }
  }

  /** paced: the interval is positive. timers: timers that have been started and have not fired. */
  datatype State = State(
    active: bool, awaiting: bool, total: nat, current: nat, paced: bool, stopOnFailure: bool, results: seq<Iteration>,
    timers: nat, begun: nat, finals: seq<Final>)

  const IDLE: State := State(false, false, 0, 0, false, false, [], 0, 0, [])

  function Left(s: State): nat {
    if s.current < s.total then s.total - s.current else 0
  }

  predicate AllPass(results: seq<Iteration>) {
    forall k :: 0 <= k < |results| ==> results[k].status == Pass
  }

  function Finish(s: State, state: Status): State {
    if !s.active then s
    else s.(active := false, awaiting := false, finals := s.finals + [Final(state, s.total, s.results)])
  }

  function Recorded(s: State, status: Status): State {
    s.(awaiting := false, results := s.results + [Iteration(s.current, status)])
  }

  /** The rest of the answers is returned too. */
  function Handle(s: State, o: Outcome, answers: seq<Answer>): (State, seq<Answer>)
    decreases Left(s), 2
  {
    if !s.active || !s.awaiting then (s, answers)
    else
      var t := Recorded(s, o.status);
      if !o.success && t.stopOnFailure then (Finish(t, Fail), answers)
      else if t.current >= t.total then (Finish(t, if AllPass(t.results) then Pass else Fail), answers)
      else if t.paced then (t.(timers := t.timers + 1), answers)
      else StartNext(t, answers)
  }

  function First(answers: seq<Answer>): Answer {
    if answers == [] then Answer(None, true) else answers[0]
  }

  function Rest(answers: seq<Answer>): seq<Answer> {
    if answers == [] then [] else answers[1..]
  }

  /** The action of the next iteration is started; if it reports at once, that is handled inside the call. */
  function Attempt(s: State, answers: seq<Answer>): (State, seq<Answer>)
    requires s.current < s.total
    decreases Left(s), 0
  {
    var t := s.(current := s.current + 1, awaiting := true);
    if First(answers).sync.Some? then Handle(t, First(answers).sync.value, Rest(answers)) else (t, Rest(answers))
  }

  /** A refusal counts for the iteration that is awaited when the call returns. */
  function Refusal(s: State): State {
    var t := Recorded(s, Blocked);
    if t.current >= t.total then Finish(t, Blocked)
    else if t.stopOnFailure then Finish(t, Fail)
    else t.(timers := t.timers + 1)
  }

  function StartNext(s: State, answers: seq<Answer>): (State, seq<Answer>)
    decreases Left(s), 1
  {
    if !s.active then (s, answers)
    else if s.current >= s.total then (Finish(s, Pass), answers)
    else
      var (t, rest) := Attempt(s, answers);
      (if !First(answers).started && t.awaiting then Refusal(t) else t, rest)
  }

  function Begun(s: State, total: nat, paced: bool, stopOnFailure: bool): State {
    s.(active := true, awaiting := false, total := total, current := 0, paced := paced, stopOnFailure := stopOnFailure,
       results := [], begun := s.begun + 1)
  }

  function Start(s: State, iterations: int, paced: bool, stopOnFailure: bool, answers: seq<Answer>): State {
    if s.active || iterations < 1 then s else StartNext(Begun(s, iterations, paced, stopOnFailure), answers).0
  }

  /** Stopping may itself make the action report its result. */
  function Stop(s: State, sync: Option<Outcome>, answers: seq<Answer>): State {
    if !s.active then s
    else
      var t := if sync.Some? then Handle(s, sync.value, answers).0 else s;
      Finish(if t.awaiting then Recorded(t, Stopped) else t, Stopped)
  }

  function Fire(s: State, answers: seq<Answer>): State {
    if s.timers == 0 then s else StartNext(s.(timers := s.timers - 1), answers).0
  }

  datatype Event =
    | EStart(iterations: int, paced: bool, stopOnFailure: bool, answers: seq<Answer>)
    | EResult(outcome: Outcome, answers: seq<Answer>)
    | EStop(sync: Option<Outcome>, answers: seq<Answer>)
    | ETimer(answers: seq<Answer>)

  function Step(s: State, e: Event): State {
    match e
    case EStart(iterations, paced, stopOnFailure, answers) => Start(s, iterations, paced, stopOnFailure, answers)
    case EResult(o, answers) => Handle(s, o, answers).0
    case EStop(sync, answers) => Stop(s, sync, answers)
    case ETimer(answers) => Fire(s, answers)
  }

  function Run(s: State, events: seq<Event>): State
    decreases |events|
  {
    if events == [] then s else Run(Step(s, events[0]), events[1..])
  }

  // ----- Campaign reports ---------------------------------------------------------------------------------

  predicate Numbered(results: seq<Iteration>) {
    forall k :: 0 <= k < |results| ==> results[k].number == k + 1
  }

  function Count(results: seq<Iteration>, status: Status): nat {
    if results == [] then 0
    else Count(results[..|results| - 1], status) + (if results[|results| - 1].status == status then 1 else 0)
  }

  /** The four counts of a report are all of its iterations. */
  lemma {:induction false} CountsSum(results: seq<Iteration>)
    ensures Count(results, Pass) + Count(results, Fail) + Count(results, Blocked) + Count(results, Stopped) == |results|
  {
    if results != [] {
      CountsSum(results[..|results| - 1]);
      match results[|results| - 1].status
      case Pass =>
      case Fail =>
      case Blocked =>
      case Stopped =>
    }
  }

  /** Iterations are numbered from one without gaps and are no more than asked for; a pass means that all of them
      took place and passed. */
  predicate Sound(f: Final) {
    && Numbered(f.iterations) && f.Completed() <= f.total
    && (f.state == Pass ==> f.Completed() == f.total && AllPass(f.iterations))
  }

  predicate Reports(s: State) {
    && s.begun == |s.finals| + (if s.active then 1 else 0)
    && forall k :: 0 <= k < |s.finals| ==> Sound(s.finals[k])
  }

  /** Between two steps: the campaign waits for one result or for one timer, and has a result for every earlier
      iteration. */
  predicate Orderly(s: State) {
    && Reports(s)
    && (s.awaiting ==> s.active)
    && (s.active ==>
          && Numbered(s.results) && 1 <= s.current <= s.total
          && |s.results| == s.current - (if s.awaiting then 1 else 0)
          && s.timers == (if s.awaiting then 0 else 1)
          && (!s.awaiting ==> s.current < s.total))
  }

  /** An iteration has just been given its result, or none has begun. */
  predicate Between(s: State) {
    && Reports(s) && s.active && !s.awaiting && s.timers == 0 && Numbered(s.results)
    && |s.results| == s.current < s.total
  }

  lemma FinishOrderly(s: State, state: Status)
    requires Reports(s) && s.active && Numbered(s.results) && |s.results| <= s.total
    requires state == Pass ==> |s.results| == s.total && AllPass(s.results)
    ensures Orderly(Finish(s, state))
  {
  }

  lemma RefusalOrderly(s: State)
    requires Orderly(s) && s.awaiting
    ensures Orderly(Refusal(s))
  {
    var t := Recorded(s, Blocked);
    FinishOrderly(t, Blocked);
    FinishOrderly(t, Fail);
  }

  lemma {:induction false} HandleOrderly(s: State, o: Outcome, answers: seq<Answer>)
    requires Orderly(s) && s.awaiting
    ensures Orderly(Handle(s, o, answers).0)
    ensures var t := Handle(s, o, answers).0; t.awaiting ==> !s.paced && t.current > s.current && t.active
    decreases Left(s), 2
  {
    var t := Recorded(s, o.status);
    FinishOrderly(t, Fail);
    if t.current >= t.total {
      FinishOrderly(t, if AllPass(t.results) then Pass else Fail);
    } else if !t.paced {
      StartNextOrderly(t, answers);
    }
  }

  lemma {:induction false} StartNextOrderly(s: State, answers: seq<Answer>)
    requires Between(s)
    ensures Orderly(StartNext(s, answers).0)
    ensures var t := StartNext(s, answers).0; t.awaiting ==> t.active && t.current > s.current
    decreases Left(s), 1
  {
    var t := s.(current := s.current + 1, awaiting := true);
    assert Orderly(t);
    if First(answers).sync.Some? {
      HandleOrderly(t, First(answers).sync.value, Rest(answers));
    }
    var u := Attempt(s, answers).0;
    if u.awaiting {
      RefusalOrderly(u);
    }
  }

  lemma StopOrderly(s: State, sync: Option<Outcome>, answers: seq<Answer>)
    requires Orderly(s)
    ensures Orderly(Stop(s, sync, answers))
  {
    if s.active {
      if sync.Some? && s.awaiting {
        HandleOrderly(s, sync.value, answers);
      }
      var t := if sync.Some? then Handle(s, sync.value, answers).0 else s;
      if t.active {
        FinishOrderly(if t.awaiting then Recorded(t, Stopped) else t, Stopped);
      }
    }
  }

  /** A campaign is begun only when no timer of an earlier one is left. */
  predicate Patient(s: State, e: Event) {
    e.EStart? && !s.active && e.iterations >= 1 ==> s.timers == 0
  }

  lemma StepOrderly(s: State, e: Event)
    requires Orderly(s) && Patient(s, e)
    ensures Orderly(Step(s, e))
  {
    match e
    case EStart(iterations, paced, stopOnFailure, answers) =>
      if !s.active && iterations >= 1 {
        StartNextOrderly(Begun(s, iterations, paced, stopOnFailure), answers);
      }
    case EResult(o, answers) => if s.active && s.awaiting { HandleOrderly(s, o, answers); }
    case EStop(sync, answers) => StopOrderly(s, sync, answers);
    case ETimer(answers) =>
      if s.active && s.timers > 0 {
        StartNextOrderly(s.(timers := s.timers - 1), answers);
      }
  }

  lemma KeepsOrder(s: State, e: Event)
    ensures Orderly(s) && Patient(s, e) ==> Orderly(Step(s, e))
  {
    if Orderly(s) && Patient(s, e) {
      StepOrderly(s, e);
    }
  }

  predicate PatientRun(s: State, events: seq<Event>)
    decreases |events|
  {
    events == [] || (Patient(s, events[0]) && PatientRun(Step(s, events[0]), events[1..]))
  }

  /** In a patient run, whatever the interval and however the answers come: each campaign reports exactly once,
      and every report is sound. */
  lemma {:induction false} PatientRunsAreOrderly(s: State, events: seq<Event>)
    requires Orderly(s) && PatientRun(s, events)
    ensures Orderly(Run(s, events))
    decreases |events|
  {
    if events != [] {
      StepOrderly(s, events[0]);
      PatientRunsAreOrderly(Step(s, events[0]), events[1..]);
    }
  }

  lemma EveryPatientRun(events: seq<Event>)
    requires PatientRun(IDLE, events)
    ensures var s := Run(IDLE, events);
            && s.begun == |s.finals| + (if s.active then 1 else 0)
            && forall k :: 0 <= k < |s.finals| ==> Sound(s.finals[k])
  {
    PatientRunsAreOrderly(IDLE, events);
  }

  // ----- A timer left over --------------------------------------------------------------------------------

  /** Patience is needed: with a timer left, a campaign of one iteration can pass without any, and a longer one
      can give its first result the number two. */
  lemma LeftoverTimerBreaks(s: State, n: nat, stopOnFailure: bool)
    requires Orderly(s) && !s.active && s.timers > 0 && n >= 1
    ensures var t := Run(s, [EStart(n, true, stopOnFailure, []), ETimer([])]);
            n == 1 ==> !t.active && t.finals == s.finals + [Final(Pass, 1, [])] && !Sound(Final(Pass, 1, []))
    ensures var t := Run(s, [EStart(n, true, stopOnFailure, []), ETimer([]), EResult(Outcome(Pass, true), [])]);
            n > 1 ==> t.results == [Iteration(2, Pass)]
  {
    var e1, e2, e3 := EStart(n, true, stopOnFailure, []), ETimer([]), EResult(Outcome(Pass, true), []);
    var s0 := Begun(s, n, true, stopOnFailure);
    var s1 := s0.(current := 1, awaiting := true);
    Asynchronous(s0);
    assert Step(s, e1) == s1;
    var s2 := if n == 1 then Finish(s1.(timers := s1.timers - 1), Pass) else s1.(timers := s1.timers - 1, current := 2);
    if n > 1 {
      Asynchronous(s1.(timers := s1.timers - 1));
    }
    assert Step(s1, e2) == s2;
    var s3 := Step(s2, e3);
    assert n > 1 ==> s3.results == [Iteration(2, Pass)];
    RunThree(s, e1, e2, e3);
  }

  /** Starting an action that will answer later. */
  lemma Asynchronous(s: State)
    requires s.active && s.current < s.total
    ensures StartNext(s, []).0 == s.(current := s.current + 1, awaiting := true)
  {
  }

  lemma RunThree(s: State, a: Event, b: Event, c: Event)
    ensures Run(s, [a, b]) == Step(Step(s, a), b) && Run(s, [a, b, c]) == Step(Step(Step(s, a), b), c)
  {
    hide Step;
    assert [a, b, c][1..] == [b, c] && [b, c][1..] == [c] && [c][1..] == [] && [a, b][1..] == [b] && [b][1..] == [];
    assert Run(Step(s, a), [b]) == Run(Step(Step(s, a), b), []);
    assert Run(Step(s, a), [b, c]) == Run(Step(Step(s, a), b), [c]) == Run(Step(Step(Step(s, a), b), c), []);
  }

  /** How many further starts report their result before they return; the one after them does not. */
  function Chain(answers: seq<Answer>): nat
    decreases |answers|
  {
    if First(answers).sync.None? then 0 else 1 + Chain(Rest(answers))
  }

  /** One of these starts, or the one after them, is refused. */
  predicate Refuses(answers: seq<Answer>)
    decreases |answers|
  {
    !First(answers).started || (First(answers).sync.Some? && Refuses(Rest(answers)))
  }

  /** Without an interval a timer comes only from a refusal, and none where a failure ends the campaign: exactly if
      the chain of starts that follows ends at an iteration before the last and has a refused one. */
  predicate ChainPauses(s: State, answers: seq<Answer>) {
    !s.stopOnFailure && Refuses(answers) && s.current + 1 + Chain(answers) < s.total
  }

  lemma {:induction false} HandleNeverPauses(s: State, o: Outcome, answers: seq<Answer>)
    requires s.stopOnFailure && !s.paced
    ensures Handle(s, o, answers).0.timers == s.timers && Handle(s, o, answers).0.stopOnFailure
    decreases Left(s), 2
  {
    if s.active && s.awaiting && s.current < s.total {
      StartNeverPauses(Recorded(s, o.status), answers);
    }
  }

  lemma {:induction false} StartNeverPauses(s: State, answers: seq<Answer>)
    requires s.stopOnFailure && !s.paced
    ensures StartNext(s, answers).0.timers == s.timers && StartNext(s, answers).0.stopOnFailure
    decreases Left(s), 1
  {
    if s.active && s.current < s.total && First(answers).sync.Some? {
      HandleNeverPauses(s.(current := s.current + 1, awaiting := true), First(answers).sync.value, Rest(answers));
    }
  }

  /** Where a chain of starts ends: at an iteration that is awaited, at a pause, or with the campaign. */
  lemma {:induction false} ChainEnds(s: State, answers: seq<Answer>)
    requires Between(s) && !s.paced && !s.stopOnFailure
    ensures var t, m := StartNext(s, answers).0, s.current + 1 + Chain(answers);
            && (t.awaiting <==> m <= s.total && !Refuses(answers))
            && (t.awaiting ==> t.active && t.current == m && t.timers == 0)
            && (t.timers > 0 <==> m < s.total && Refuses(answers))
            && t.total == s.total && !t.stopOnFailure
    decreases Left(s)
  {
    if First(answers).sync.Some? {
      var o := First(answers).sync.value;
      var t := s.(current := s.current + 1, awaiting := true);
      var u := Recorded(t, o.status);
      assert Orderly(t);
      if t.current < t.total {
        assert Between(u);
        assert Handle(t, o, Rest(answers)) == StartNext(u, Rest(answers));
        ChainEnds(u, Rest(answers));
      } else {
        assert Handle(t, o, Rest(answers)).0.timers == 0 && !Handle(t, o, Rest(answers)).0.awaiting;
      }
    }
  }

  /** When a stop leaves a timer: between two iterations; or during one, if the stop action itself makes it report
      a result after which the campaign would go on, with an interval, or without one in a chain that pauses. */
  predicate StopPauses(s: State, sync: Option<Outcome>, answers: seq<Answer>) {
    !s.awaiting
    || (sync.Some? && s.current < s.total
        && (if s.paced then sync.value.success || !s.stopOnFailure else ChainPauses(s, answers)))
  }

  lemma StopLeavesTimerIff(s: State, sync: Option<Outcome>, answers: seq<Answer>)
    requires Orderly(s) && s.active
    ensures Stop(s, sync, answers).timers > 0 <==> StopPauses(s, sync, answers)
    ensures !Stop(s, sync, answers).active
  {
    if s.awaiting && sync.Some? {
      var o := sync.value;
      var t := Recorded(s, o.status);
      if (o.success || !s.stopOnFailure) && s.current < s.total && !s.paced {
        assert Between(t);
        assert Handle(s, o, answers) == StartNext(t, answers);
        if s.stopOnFailure {
          StartNeverPauses(t, answers);
        } else {
          ChainEnds(t, answers);
        }
      }
    }
  }

  /** Nothing else leaves one: when a step other than a stop ends a campaign, no timer is left. */
  lemma OnlyStopLeavesTimer(s: State, e: Event)
    requires Orderly(s) && s.active && !e.EStop? && !Step(s, e).active
    ensures Step(s, e).timers == 0
  {
    match e
    case EStart(_, _, _, _) =>
    case EResult(o, answers) =>
      if s.awaiting {
        HandleEnds(s, o, answers);
      }
    case ETimer(answers) =>
      if s.timers > 0 {
        StartEnds(s.(timers := s.timers - 1), answers);
      }
  }

  lemma {:induction false} HandleEnds(s: State, o: Outcome, answers: seq<Answer>)
    requires Orderly(s) && s.awaiting
    ensures !Handle(s, o, answers).0.active ==> Handle(s, o, answers).0.timers == 0
    decreases Left(s), 2
  {
    var t := Recorded(s, o.status);
    if (o.success || !s.stopOnFailure) && s.current < s.total && !s.paced {
      assert Between(t);
      StartEnds(t, answers);
    }
  }

  lemma {:induction false} StartEnds(s: State, answers: seq<Answer>)
    requires Between(s)
    ensures !StartNext(s, answers).0.active ==> StartNext(s, answers).0.timers == 0
    decreases Left(s), 1
  {
    var t := s.(current := s.current + 1, awaiting := true);
    assert Orderly(t);
    if First(answers).sync.Some? {
      HandleEnds(t, First(answers).sync.value, Rest(answers));
      HandleOrderly(t, First(answers).sync.value, Rest(answers));
    }
  }

  /** A campaign stopped between its two iterations, and then one of a single iteration. */
  const STOPPED_BETWEEN: seq<Event> := [EStart(2, true, false, []), EResult(Outcome(Pass, true), []), EStop(None, [])]

  lemma TimerLeft()
    ensures var s := Run(IDLE, STOPPED_BETWEEN);
            Orderly(s) && !s.active && s.timers == 1 && s.finals == [Final(Stopped, 2, [Iteration(1, Pass)])]
  {
    var a, b, c := STOPPED_BETWEEN[0], STOPPED_BETWEEN[1], STOPPED_BETWEEN[2];
    RunThree(IDLE, a, b, c);
    var s0 := Begun(IDLE, 2, true, false);
    Asynchronous(s0);
    var s1 := s0.(current := 1, awaiting := true);
    assert Step(IDLE, a) == s1;
    StepOrderly(IDLE, a);
    StepOrderly(s1, b);
    var s2 := s1.(awaiting := false, results := [Iteration(1, Pass)], timers := 1);
    assert Step(s1, b) == s2;
    StepOrderly(s2, c);
  }

  /** The second campaign passes with no iteration at all. */
  lemma EmptyPassReached()
    ensures Run(IDLE, STOPPED_BETWEEN + [EStart(1, true, false, []), ETimer([])]).finals
         == [Final(Stopped, 2, [Iteration(1, Pass)]), Final(Pass, 1, [])]
  {
    TimerLeft();
    RunAppend(IDLE, STOPPED_BETWEEN, [EStart(1, true, false, []), ETimer([])]);
    LeftoverTimerBreaks(Run(IDLE, STOPPED_BETWEEN), 1, false);
  }

  /** A campaign stopped during its first iteration, where the stop action makes that iteration report at once. */
  const STOPPED_DURING: seq<Event> := [EStart(2, true, false, []), EStop(Some(Outcome(Stopped, false)), [])]

  lemma TimerLeftDuring()
    ensures var s := Run(IDLE, STOPPED_DURING);
            Orderly(s) && !s.active && s.timers == 1 && s.finals == [Final(Stopped, 2, [Iteration(1, Stopped)])]
  {
    var a, b := STOPPED_DURING[0], STOPPED_DURING[1];
    RunThree(IDLE, a, b, b);
    var s0 := Begun(IDLE, 2, true, false);
    Asynchronous(s0);
    var s1 := s0.(current := 1, awaiting := true);
    assert Step(IDLE, a) == s1;
    StepOrderly(IDLE, a);
    StepOrderly(s1, b);
    assert Handle(s1, Outcome(Stopped, false), []).0
        == s1.(awaiting := false, results := [Iteration(1, Stopped)], timers := 1);
  }

  lemma EmptyPassAfterStopDuring()
    ensures Run(IDLE, STOPPED_DURING + [EStart(1, true, false, []), ETimer([])]).finals
         == [Final(Stopped, 2, [Iteration(1, Stopped)]), Final(Pass, 1, [])]
  {
    TimerLeftDuring();
    RunAppend(IDLE, STOPPED_DURING, [EStart(1, true, false, []), ETimer([])]);
    LeftoverTimerBreaks(Run(IDLE, STOPPED_DURING), 1, false);
  }

  lemma {:induction false} RunAppend(s: State, a: seq<Event>, b: seq<Event>)
    ensures Run(s, a + b) == Run(Run(s, a), b)
    decreases |a|
  {
    if a == [] {
      assert a + b == b;
    } else {
      assert (a + b)[1..] == a[1..] + b;
      RunAppend(Step(s, a[0]), a[1..], b);
    }
  }

  // ----- A refusal recorded for the wrong iteration -----------------------------------------------------

  /** A refused start is recorded as blocked for another iteration than its own exactly if the action had also
      reported a result and, without an interval, the campaign has gone on to an iteration it still awaits. */
  lemma RefusalMisplacedIff(s: State, answers: seq<Answer>)
    requires Between(s) && !First(answers).started && Attempt(s, answers).0.awaiting
    ensures var t := Attempt(s, answers).0;
            Refusal(t).results == t.results + [Iteration(t.current, Blocked)]
            && (t.current != s.current + 1 <==> First(answers).sync.Some?)
            && (First(answers).sync.Some? ==> !s.paced)
  {
    var t := s.(current := s.current + 1, awaiting := true);
    assert Orderly(t);
    if First(answers).sync.Some? {
      HandleOrderly(t, First(answers).sync.value, Rest(answers));
    }
  }

  /** Two iterations, no interval: the first is blocked at once, the second is under way, and is recorded as
      blocked although it has started. */
  lemma StartedYetBlocked()
    ensures var answers := [Answer(Some(Outcome(Blocked, false)), false), Answer(None, true)];
            Start(IDLE, 2, false, false, answers).finals
            == [Final(Blocked, 2, [Iteration(1, Blocked), Iteration(2, Blocked)])]
  {
    var second := [Answer(None, true)];
    var answers := [Answer(Some(Outcome(Blocked, false)), false), Answer(None, true)];
    assert Rest(answers) == second;
    var s := Begun(IDLE, 2, false, false);
    var t := s.(current := 1, awaiting := true);
    var u := Recorded(t, Blocked);
    var v := u.(current := 2, awaiting := true);
    assert Attempt(u, second).0 == v;
    assert StartNext(u, second).0 == v;
    assert Handle(t, Outcome(Blocked, false), second) == StartNext(u, second);
    assert Attempt(s, answers).0 == v;
    assert StartNext(s, answers).0 == Refusal(v);
    assert v.results + [Iteration(2, Blocked)] == [Iteration(1, Blocked), Iteration(2, Blocked)];
  }

  // ----- The program ------------------------------------------------------------------------------------------

  class AudioIterationRunner {
    var active: bool
    var awaiting: bool
    var total: nat
    var current: nat
    var paced: bool
    var stopOnFailure: bool
    var results: seq<Iteration>
    var timers: nat
    ghost var begun: nat
    ghost var finals: seq<Final>

    ghost function View(): State
      reads this
    {
      State(active, awaiting, total, current, paced, stopOnFailure, results, timers, begun, finals)
    }

    constructor ()
      ensures View() == IDLE && Orderly(View())
    {
      active, awaiting, total, current, paced, stopOnFailure := false, false, 0, 0, false, false;
      results, timers, begun, finals := [], 0, 0, [];
    }

    method FinishCampaign(state: Status)
      modifies this
      ensures View() == Finish(old(View()), state)
    {
      if !active {
        return;
      }
      active, awaiting := false, false;
      finals := finals + [Final(state, total, results)];
    }

    method Append(status: Status)
      modifies this
      ensures View() == Recorded(old(View()), status)
    {
      awaiting := false;
      results := results + [Iteration(current, status)];
    }

    method EveryPass() returns (all: bool)
      ensures all == AllPass(results)
    {
      var k := 0;
      while k < |results|
        invariant 0 <= k <= |results| && forall j :: 0 <= j < k ==> results[j].status == Pass
      {
        if results[k].status != Pass {
          return false;
        }
        k := k + 1;
      }
      return true;
    }

    method HandleActionResult(o: Outcome, answers: seq<Answer>) returns (rest: seq<Answer>)
      modifies this
      ensures (View(), rest) == Handle(old(View()), o, answers)
      decreases Left(View()), 2
    {
      rest := answers;
      if !active || !awaiting {
        return;
      }
      Append(o.status);
      if !o.success && stopOnFailure {
        FinishCampaign(Fail);
      } else if current >= total {
        var all := EveryPass();
        FinishCampaign(if all then Pass else Fail);
      } else if paced {
        timers := timers + 1;
      } else {
        rest := RunNext(answers);
      }
    }

    /** The answers stand for what the start action does, in the order of its calls. */
    method RunNext(answers: seq<Answer>) returns (rest: seq<Answer>)
      modifies this
      ensures (View(), rest) == StartNext(old(View()), answers)
      decreases Left(View()), 1
    {
      if !active {
        return answers;
      }
      if current >= total {
        FinishCampaign(Pass);
        return answers;
      }
      current, awaiting := current + 1, true;
      var answer := First(answers);
      rest := Rest(answers);
      if answer.sync.Some? {
        rest := HandleActionResult(answer.sync.value, rest);
      }
      assert (View(), rest) == Attempt(old(View()), answers);
      if !answer.started && awaiting {
        Append(Blocked);
        if current >= total || stopOnFailure {
          FinishCampaign(if current >= total then Blocked else Fail);
        } else {
          timers := timers + 1;
        }
      }
    }

    method Begin(iterations: int, positiveInterval: bool, stopAtFailure: bool, answers: seq<Answer>) returns (ok: bool)
      modifies this
      ensures View() == Start(old(View()), iterations, positiveInterval, stopAtFailure, answers)
      ensures ok == (!old(active) && iterations >= 1)
      ensures old(Orderly(View())) && (ok ==> old(timers) == 0) ==> Orderly(View())
    {
      KeepsOrder(View(), EStart(iterations, positiveInterval, stopAtFailure, answers));
      if active || iterations < 1 {
        return false;
      }
      active, awaiting, total, current := true, false, iterations, 0;
      paced, stopOnFailure, results, begun := positiveInterval, stopAtFailure, [], begun + 1;
      var _ := RunNext(answers);
      return true;
    }

    method Cancel(sync: Option<Outcome>, answers: seq<Answer>) returns (ok: bool)
      modifies this
      ensures View() == Stop(old(View()), sync, answers) && ok == old(active)
      ensures old(Orderly(View())) ==> Orderly(View())
    {
      KeepsOrder(View(), EStop(sync, answers));
      if !active {
        return false;
      }
      if sync.Some? {
        var _ := HandleActionResult(sync.value, answers);
      }
      if awaiting {
        Append(Stopped);
      }
      FinishCampaign(Stopped);
      return true;
    }

    method OnTimer(answers: seq<Answer>)
      modifies this
      ensures View() == Fire(old(View()), answers)
      ensures old(Orderly(View())) ==> Orderly(View())
    {
      KeepsOrder(View(), ETimer(answers));
      if timers > 0 {
        timers := timers - 1;
        var _ := RunNext(answers);
      }
    }
  }
}
