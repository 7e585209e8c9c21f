/** What every run of the stress-test protocol keeps. */
module StressTheorems {
  import opened Options
  import opened StressProtocol

  // ----- Conservation, one result per attempt, final status ---------------------------------------

  function Tests(results: seq<Result>): seq<Test> {
    if results == [] then [] else Tests(results[..|results| - 1]) + [results[|results| - 1].test]
  }

  /** The tests finished since the present selection was made. */
  function Done(r: Runner): seq<Test> {
    if r.base <= |r.results| then Tests(r.results[r.base..]) else []
  }

  /** The current test as long as it has no result. */
  function Open(r: Runner): seq<Test> {
    if r.current.None? || r.status.Finished? then [] else [r.current.value]
  }

  /** Selected tests are finished, current, queued or discarded, in the order of selection. */
  predicate Conserved(r: Runner) {
    && r.base <= |r.results|
    && r.selected == Done(r) + Open(r) + r.queue + r.discarded
    && (r.discarded != [] ==> r.current.None?)
    && (r.current.None? ==> r.queue == [])
  }

  /** Every started attempt has one result, or is the one that is Running or Stopping. */
  predicate OneResultEach(r: Runner) {
    r.started == |r.results| + (if Busy(r) then 1 else 0)
  }

  predicate Ordered(r: Runner) {
    && (r.prepareDue <==> r.current.Some? && r.status.Finished?)
    && Pended(r)
    && (r.current.None? || r.status == Prepared ==> r.collectors == [])
    && (r.current.Some? && r.status.Finished? ==>
          r.results != [] && r.results[|r.results| - 1] == Result(r.current.value, r.status.final))
  }

  predicate Kept(r: Runner) {
    Conserved(r) && OneResultEach(r) && Ordered(r)
  }

  lemma DoneOneMore(r: Runner, s: Runner, result: Result)
    requires r.base <= |r.results| && s.base == r.base && s.results == r.results + [result]
    ensures Done(s) == Done(r) + [result.test]
  {
    assert s.results[s.base..] == r.results[r.base..] + [result];
    assert (r.results[r.base..] + [result])[..|r.results[r.base..]|] == r.results[r.base..];
  }

  lemma FlowsKeep(r: Runner, s: Runner)
    requires Kept(r) && Flows(r, s) && Pended(s)
    ensures Kept(s)
  {
    hide Conserved, Tests;
    if s.results == r.results {
      StaysConserved(r, s);
    } else {
      EndsKeep(r, s, s.status.final);
    }
  }

  lemma StaysConserved(r: Runner, s: Runner)
    requires Conserved(r) && SameTask(r, s) && s.results == r.results
    requires s.status.Finished? == r.status.Finished?
    ensures Conserved(s)
  {
    assert Done(s) == Done(r) && Open(s) == Open(r);
  }

  lemma EndsKeep(r: Runner, s: Runner, final: Final)
    requires Conserved(r) && r.current.Some? && Busy(r) && SameTask(r, s) && Ends(r, s, final)
    ensures Conserved(s)
  {
    hide Tests, SameTask;
    TaskParts(r, s);
    DoneOneMore(r, s, Result(r.current.value, final));
    assert Done(s) + [] + r.queue == Done(r) + [r.current.value] + r.queue;
  }

  lemma TaskParts(r: Runner, s: Runner)
    requires SameTask(r, s)
    ensures s.selected == r.selected && s.queue == r.queue && s.base == r.base
    ensures s.discarded == r.discarded && s.current == r.current
  {
  }

  lemma PrepareNextKept(r: Runner)
    requires r.base <= |r.results| && r.selected == Done(r) + r.queue && r.discarded == []
    requires r.started == |r.results|
    ensures Kept(PrepareNext(r))
  {
    if r.queue == [] {
      assert Done(r) + [] + [] + [] == Done(r) + r.queue;
    } else {
      assert Done(r) + [r.queue[0]] + r.queue[1..] + [] == Done(r) + r.queue;
    }
  }

  lemma EnqueueKept(r: Runner, tests: seq<Test>, allowed: bool)
    requires Kept(r)
    ensures Kept(Enqueue(r, tests, allowed))
  {
    if Enqueue(r, tests, allowed) != r {
      var t := r.(queue := tests, current := None, collectors := [],
                  pending := if r.current.Some? then None else r.pending,
                  base := |r.results|, selected := tests, discarded := []);
      assert t.results[t.base..] == [] && Done(t) == [];
      assert [] + tests == tests;
      hide Done, Tests;
      PrepareNextKept(t);
    }
  }

  lemma DiscardKept(r: Runner)
    requires Kept(r)
    ensures Kept(Discard(r))
  {
    if r.current.Some? && r.status == Prepared {
      var s := Discard(r);
      assert Done(s) == Done(r) && Open(s) == [] && s.queue == [];
      hide Done;
      Moved(Done(r), r.discarded, r.current.value, r.queue);
    }
  }

  lemma Moved(done: seq<Test>, discarded: seq<Test>, current: Test, queue: seq<Test>)
    requires discarded == []
    ensures done + [current] + queue + discarded == done + [] + [] + (discarded + [current] + queue)
  {
    assert discarded + [current] + queue == [current] + queue;
  }

  lemma LaunchpadKept(r: Runner)
    requires Kept(r) && MayStart(r)
    ensures Kept(Launchpad(r))
  {
    hide Tests, Built;
    assert Done(Launchpad(r)) == Done(r);
    assert Open(Launchpad(r)) == Open(r);
  }

  lemma StartKept(r: Runner, created: bool, answers: seq<Answer>)
    requires Kept(r)
    ensures Kept(StartCurrent(r, created, answers))
  {
    if MayStart(r) && created && |answers| == |r.current.value.plan| {
      hide StartFrom, Kept, Flows, Places, Built, StartOrder, StartCurrent;
      var t := Launchpad(r);
      StartsAll(r, answers);
      LaunchpadKept(r);
      KeptPends(t);
      StartFromFlows(t, StartOrder(t.collectors), answers);
      FlowsKeep(t, StartCurrent(r, created, answers));
    }
  }

  lemma StartsAll(r: Runner, answers: seq<Answer>)
    requires MayStart(r) && |answers| == |r.current.value.plan|
    ensures var t := Launchpad(r);
            && |t.collectors| == |answers|
            && (forall k :: 0 <= k < |StartOrder(t.collectors)| ==> StartOrder(t.collectors)[k] < |t.collectors|)
            && StartCurrent(r, true, answers) == StartFrom(t, StartOrder(t.collectors), answers)
  {
    hide StartFrom, StartOrder, Built;
  }

  /** The runner at the moment start_all begins. */
  function Launchpad(r: Runner): Runner
    requires r.current.Some?
  {
    r.(status := Running, pending := None, collectors := Built(r.current.value.plan), started := r.started + 1,
       late := false)
  }

  lemma StepKept(r: Runner, e: Event)
    requires Kept(r)
    ensures Kept(Step(r, e))
  {
    hide Flows, Kept, StartCurrent, Enqueue, Discard, Happens, Leave, PrepareNext;
    match e
    case EEnqueue(tests, allowed) => EnqueueKept(r, tests, allowed);
    case EDiscard => DiscardKept(r);
    case EStart(created, answers) => StartKept(r, created, answers);
    case EStop => LeaveKept(r, WasStopped);
    case EReview => LeaveKept(r, NeedsReview);
    case EHappens(i, h) =>
      KeptPends(r);
      HappensFlows(r, i, h);
      FlowsKeep(r, Happens(r, i, h));
    case EPrepareNext => NextKept(r);
  }

  lemma KeptPends(r: Runner)
    requires Kept(r)
    ensures Pended(r)
  {
  }

  lemma LeaveKept(r: Runner, final: Final)
    requires Kept(r)
    ensures r.current.Some? && r.status == Running ==> Kept(Leave(r, final))
  {
    if r.current.Some? && r.status == Running {
      hide Leave;
      LeaveFlows(r, final);
      assert Flows(r, Leave(r, final));
      FlowsKeep(r, Leave(r, final));
    }
  }

  lemma NextKept(r: Runner)
    requires Kept(r)
    ensures r.prepareDue ==> Kept(PrepareNext(r))
  {
    if r.prepareDue {
      assert Done(r) + [] + r.queue + [] == Done(r) + r.queue;
      PrepareNextKept(r);
    }
  }

  /** In every run: conservation of the selection, and one result for each started attempt. */
  lemma {:induction false} RunKept(r: Runner, events: seq<Event>)
    requires Kept(r)
    ensures Kept(Run(r, events))
    decreases |events|
  {
    if events != [] {
      StepKept(r, events[0]);
      RunKept(Step(r, events[0]), events[1..]);
    }
  }

  lemma EveryRunKept(events: seq<Event>)
    ensures Kept(Run(IDLE, events))
  {
    assert IDLE.results[0..] == [];
    RunKept(IDLE, events);
  }

  // ----- The final status is fixed when Running is left -------------------------------------------

  /** What a final status must come from. */
  predicate Caused(r: Runner, e: Event, final: Final) {
    match e
    case EStop => final == WasStopped
    case EReview => final == NeedsReview
    case EHappens(_, _) => final == WasError || final == NeedsReview
    case EStart(_, _) => final == WasError
    case _ => false
  }

  /** One step leaves Running only by stop, review or a collector, and that step fixes the final status. A start
      whose collectors fail at once enters and leaves Running in the same step. */
  lemma ExitFixesFinal(r: Runner, e: Event)
    requires Kept(r) && r.current.Some? && (r.status == Running || (r.status == Prepared && e.EStart?))
    ensures Step(r, e).current == r.current
    ensures var s := Step(r, e);
            || s == r
            || (s.status == Running && s.results == r.results)
            || exists final :: Caused(r, e, final) && Leaves(r, s, final)
  {
    match e
    case EStart(created, answers) => StartExit(r, created, answers); assert Caused(r, e, WasError);
    case EStop => LeaveFlows(r, WasStopped); assert Caused(r, e, WasStopped);
    case EReview => LeaveFlows(r, NeedsReview); assert Caused(r, e, NeedsReview);
    case EHappens(i, h) =>
      HappensFlows(r, i, h);
      HappensNeverStopped(r, i, h);
      var s := Step(r, e);
      if s.status != Running {
        assert Leaves(r, s, NeedsReview) || Leaves(r, s, WasError);
        assert Caused(r, e, NeedsReview) && Caused(r, e, WasError);
      }
    case _ =>
  }

  /** Only the user's stop gives the status STOPPED. */
  lemma HappensNeverStopped(r: Runner, i: nat, h: Happening)
    requires Kept(r) && r.current.Some? && r.status == Running
    ensures !Leaves(r, Happens(r, i, h), WasStopped)
  {
    if i < |r.collectors| {
      hide Kept, End, SetStatus, SameTask, EndStatus;
      var dead := WithAlive(r, i, false);
      match h
      case Started => SetStatusExit(r, i, Active);
      case TimerFired => EndExit(r, i, Completed);
      case Exited(ok) => EndExit(dead, i, EndStatus(r.collectors[i], ok));
      case Crashed => CrashExit(r, i);
      case Failed => EndExit(dead, i, Error);
    }
  }

  lemma CrashExit(r: Runner, i: nat)
    requires i < |r.collectors| && r.current.Some? && r.status == Running
    ensures !Leaves(r, Happens(r, i, Crashed), WasStopped)
  {
    hide End, SetStatus;
    var c := r.collectors[i];
    var dead := WithAlive(r, i, false);
    EndExit(dead, i, EndStatus(c, false));
    EndExit(dead, i, Error);
    EndFlows(dead, i, Error);
    var said := End(dead, i, Error);
    if said.status == Running {
      EndExit(said, i, EndStatus(c, false));
    } else {
      EndFlows(said, i, EndStatus(c, false));
    }
  }

  lemma SetStatusExit(r: Runner, i: nat, status: CollectorStatus)
    requires i < |r.collectors| && r.current.Some? && r.status == Running
    ensures var s := SetStatus(r, i, status);
            s.status == Running || Leaves(r, s, NeedsReview) || Leaves(r, s, WasError)
  {
    var t := WithStatus(r, i, status);
    LeaveFlows(t, NeedsReview);
    LeaveFlows(t, WasError);
  }

  lemma EndExit(r: Runner, i: nat, status: CollectorStatus)
    requires i < |r.collectors| && r.current.Some? && r.status == Running
    ensures var s := End(r, i, status);
            s.status == Running || Leaves(r, s, NeedsReview) || Leaves(r, s, WasError)
  {
    SetStatusExit(r, i, status);
    SetStatusFlows(r, i, status);
    var t := SetStatus(r, i, status);
    var marked := t.(collectors := t.collectors[i := t.collectors[i].(terminal := true)]);
    EmitFlows(marked);
  }

  /** A status other than Completed leaves Running for an error alone. */
  lemma EndFails(r: Runner, i: nat, status: CollectorStatus)
    requires i < |r.collectors| && r.current.Some? && r.status == Running && status != Completed
    ensures Stays(r, End(r, i, status)) || Leaves(r, End(r, i, status), WasError)
    ensures Stays(r, SetStatus(r, i, status)) || Leaves(r, SetStatus(r, i, status), WasError)
  {
    hide Leave;
    LeaveFlows(WithStatus(r, i, status), WasError);
    var t := SetStatus(r, i, status);
    SetStatusFlows(r, i, status);
    EmitFlows(t.(collectors := t.collectors[i := t.collectors[i].(terminal := true)]));
  }

  lemma StartOneExit(r: Runner, i: nat, answer: Answer)
    requires i < |r.collectors| && r.current.Some? && r.status == Running
    ensures Stays(r, StartOne(r, i, answer)) || Leaves(r, StartOne(r, i, answer), WasError)
  {
    hide End, SetStatus, Leaves;
    var begun := WithStatus(r, i, Starting);
    QuietStatus(r, i, Starting);
    QuietStatus(r, i, Active);
    EndFails(r, i, ManualRequired);
    EndFails(r, i, r.collectors[i].spec.unavailable);
    EndFails(begun, i, Error);
    SameBase(r, begun, StartOne(r, i, answer));
    SameBase(r, r, StartOne(r, i, answer));
  }

  lemma SameBase(r: Runner, b: Runner, s: Runner)
    requires r.current.Some? && SameTask(r, b) && Stays(r, b)
    ensures (forall final :: Leaves(r, s, final) == Leaves(b, s, final)) && Stays(r, s) == Stays(b, s)
  {
  }

  /** A status that ends nothing changes nothing else. */
  lemma QuietStatus(r: Runner, i: nat, status: CollectorStatus)
    requires i < |r.collectors| && status != Error && status != Completed
    ensures SetStatus(r, i, status) == WithStatus(r, i, status)
  {
  }

  lemma {:induction false} StartFromExit(r: Runner, order: seq<nat>, answers: seq<Answer>)
    requires (forall k :: 0 <= k < |order| ==> order[k] < |r.collectors|) && |answers| == |r.collectors|
    requires r.current.Some? && r.status == Running
    ensures var s := StartFrom(r, order, answers); Stays(r, s) || Leaves(r, s, WasError)
    decreases |order|
  {
    if order != [] {
      hide StartOne;
      var s := StartOne(r, order[0], answers[order[0]]);
      StartOneExit(r, order[0], answers[order[0]]);
      StartOneFlows(r, order[0], answers[order[0]]);
      if s.status == Running {
        StartFromExit(s, order[1..], answers);
      } else {
        StartFromFlows(s, order[1..], answers);
      }
    }
  }

  /** start_all either leaves the attempt running or fixes ERROR as its final status. */
  lemma StartExit(r: Runner, created: bool, answers: seq<Answer>)
    requires Kept(r) && r.current.Some?
    ensures StartCurrent(r, created, answers).current == r.current
    ensures var s := StartCurrent(r, created, answers);
            s == r || (s.status == Running && s.results == r.results) || Leaves(r, s, WasError)
  {
    if MayStart(r) && created && |answers| == |r.current.value.plan| {
      hide StartFrom, StartOrder, StartCurrent, Kept, Built;
      StartsAll(r, answers);
      StartFromFlows(Launchpad(r), StartOrder(Launchpad(r).collectors), answers);
      StartFromExit(Launchpad(r), StartOrder(Launchpad(r).collectors), answers);
    }
  }

  /** The attempt is still stopping, with the final status it left Running with. */
  predicate Awaits(r: Runner, s: Runner) {
    s.status == Stopping && s.pending == r.pending && s.results == r.results && s.current == r.current
  }

  /** The next result after those of r is that of its attempt with the final status it left Running with. */
  predicate GotResult(r: Runner, s: Runner)
    requires r.current.Some? && r.pending.Some?
  {
    r.results + [Result(r.current.value, r.pending.value)] <= s.results
  }

  /** From then on, in every continuation, the next result is that of this attempt with that status. */
  lemma {:induction false} FinalFixed(r: Runner, events: seq<Event>)
    requires Kept(r) && r.current.Some? && r.status == Stopping
    ensures r.pending.Some? && (Awaits(r, Run(r, events)) || GotResult(r, Run(r, events)))
    decreases |events|
  {
    KeptPends(r);
    if events != [] {
      hide Step, Kept;
      var s := Step(r, events[0]);
      StepKept(r, events[0]);
      StoppingStep(r, events[0]);
      if s.status == Stopping {
        FinalFixed(s, events[1..]);
      } else {
        ResultsGrow(s, events[1..]);
      }
    }
  }

  lemma StoppingStep(r: Runner, e: Event)
    requires Kept(r) && r.current.Some? && r.status == Stopping
    ensures var s := Step(r, e);
            && r.pending.Some? && s.current == r.current
            && (Awaits(r, s)
                || (s.status.Finished? && s.results == r.results + [Result(r.current.value, r.pending.value)]))
  {
    hide Happens;
    if e.EHappens? {
      HappensFlows(r, e.i, e.h);
    }
  }

  /** Results are only ever appended. */
  lemma {:induction false} ResultsGrow(r: Runner, events: seq<Event>)
    requires Kept(r)
    ensures r.results <= Run(r, events).results
    decreases |events|
  {
    if events != [] {
      StepKept(r, events[0]);
      StepAppends(r, events[0]);
      ResultsGrow(Step(r, events[0]), events[1..]);
    }
  }

  lemma StartNone(r: Runner, created: bool, answers: seq<Answer>)
    requires !MayStart(r)
    ensures StartCurrent(r, created, answers) == r
  {
  }

  lemma StepAppends(r: Runner, e: Event)
    requires Kept(r)
    ensures r.results <= Step(r, e).results && |Step(r, e).results| <= |r.results| + 1
  {
    hide Happens, Leave, Conserved, Open, Done, StartCurrent;
    match e
    case EStart(created, answers) =>
      if r.current.Some? {
        StartExit(r, created, answers);
      } else {
        StartNone(r, created, answers);
      }
    case EStop => if r.current.Some? && r.status == Running { LeaveFlows(r, WasStopped); }
    case EReview => if r.current.Some? && r.status == Running { LeaveFlows(r, NeedsReview); }
    case EHappens(i, h) => HappensFlows(r, i, h);
    case _ =>
  }
}
