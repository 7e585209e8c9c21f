/** Runs of the stress protocol, from its first state, that end as the other modules describe. */
module StressRuns {
  import opened Options
  import LoadStrategy
  import opened StressProtocol
  import opened StressTheorems
  import opened StressSettled
  import opened StressStarts

  const SAMPLER: Spec := Spec(false, Process, Error, Error)
  const LOAD: Spec := Spec(true, Process, Error, Error)
  const ASSIST: LoadStrategy.Decision :=
    LoadStrategy.Decision(LoadStrategy.LoadAssist, Some(50.0), Some(10.0), Some(40.0), Some(LoadStrategy.Minimum),
                          Some(true))
  const ASSISTED: Test := Test(1, true, true, ASSIST, [SAMPLER, LOAD])

  const BUSIER: Test := Test(3, true, true, ASSIST, [SAMPLER, SAMPLER, LOAD])

  function Chosen(test: Test): Runner {
    IDLE.(current := Some(test), selected := [test])
  }

  lemma ChosenFirst(test: Test)
    ensures Step(IDLE, EEnqueue([test], true)) == Chosen(test) && Kept(Chosen(test))
  {
    assert IDLE.results[0..] == [] && [test][1..] == [];
    StepKept(IDLE, EEnqueue([test], true));
  }

  lemma RunTwo(r: Runner, a: Event, b: Event)
    ensures Run(r, [a, b]) == Step(Step(r, a), b)
  {
    hide Step;
    assert [a, b][1..] == [b] && [b][1..] == [];
    assert Run(Step(r, a), [b]) == Run(Step(Step(r, a), b), []);
  }

  /** A local sampler whose process cannot be created ends the load-assisted attempt at once. The load is started
      all the same, after the result was written, and runs until the next turn of the event loop, on which the
      evidence manager is deleted and its processes with it. */
  lemma LoadStartsAfterResult()
    ensures var r := Run(IDLE, [EEnqueue([ASSISTED], true), EStart(true, [Broken, Launched])]);
            && r.results == [Result(ASSISTED, WasError)] && r.late && !NoneRunning(r.collectors)
            && r.prepareDue && Step(r, EPrepareNext).collectors == []
  {
    var r, answers := Chosen(ASSISTED), [Broken, Launched];
    hide StartCurrent;
    ChosenFirst(ASSISTED);
    RunTwo(IDLE, EEnqueue([ASSISTED], true), EStart(true, answers));
    assert FailsFirst(ASSISTED, answers, 0) && Before(ASSISTED, 0, 1) && Launches(ASSISTED, answers, 1);
    StartFails(r, answers, 0);
    StartExit(r, true, answers);
    assert StartCurrent(r, true, answers).collectors[1].Running();
  }

  /** With another sampler running, the failure only stops the attempt. The load started after it was never told to
      stop: no stop, no review and nothing the other collectors do ends the attempt, until the load ends by itself. */
  lemma LoadRunsUntold(events: seq<Event>)
    requires forall k :: 0 <= k < |events| ==> !(events[k].EHappens? && events[k].i == 2)
    ensures var r := Run(IDLE, [EEnqueue([BUSIER], true), EStart(true, [Launched, Broken, Launched])]);
            && r.current == Some(BUSIER) && r.status == Stopping && r.pending == Some(WasError) && r.results == []
            && Untold(r, 2) && Untold(Run(r, events), 2) && Run(r, events).results == []
  {
    var r, answers := Chosen(BUSIER), [Launched, Broken, Launched];
    hide StartCurrent, Untold, Run;
    ChosenFirst(BUSIER);
    RunTwo(IDLE, EEnqueue([BUSIER], true), EStart(true, answers));
    assert FailsFirst(BUSIER, answers, 1) && Before(BUSIER, 1, 2) && Launches(BUSIER, answers, 2);
    assert Before(BUSIER, 0, 1) && Lasts(BUSIER, answers, 0);
    StartFails(r, answers, 1);
    StartExit(r, true, answers);
    var s := StartCurrent(r, true, answers);
    assert Untold(s, 2) by { Begins(s); }
    StartKept(r, true, answers);
    UntoldForever(s, events, 2);
  }

  lemma Begins(s: Runner)
    requires s.current.Some? && s.status == Stopping && |s.collectors| == 3 && Begun(s.collectors[2], LOAD, Launched)
    ensures Untold(s, 2)
  {
  }

  // ----- An attempt that cannot end ---------------------------------------------------------------------

  const GUIDED: Test := Test(2, false, false, ASSIST, [SAMPLER])

  /** Its one process is starting. */
  const STARTING: Collector := Collector(SAMPLER, Starting, true, false, false)

  function Guided(status: Status, pending: Option<Final>, collectors: seq<Collector>, started: nat): Runner {
    IDLE.(current := Some(GUIDED), selected := [GUIDED], status := status, pending := pending, collectors := collectors,
          started := started)
  }

  lemma GuidedEnqueued()
    ensures Enqueue(IDLE, [GUIDED], true) == Guided(Prepared, None, [], 0)
  {
    assert [GUIDED][1..] == [];
  }

  lemma GuidedStarts()
    ensures StartCurrent(Guided(Prepared, None, [], 0), true, [Launched]) == Guided(Running, None, [STARTING], 1)
  {
    var r, t := Guided(Prepared, None, [], 0), Guided(Running, None, [Fresh(SAMPLER)], 1);
    assert Launchpad(r) == t;
    StartsAll(r, [Launched]);
    GuidedOrder(t);
    GuidedLaunches(t);
    hide StartOne, StartOrder, StartCurrent;
    StartFromOne(t, 0, [Launched]);
  }

  lemma StartFromOne(r: Runner, i: nat, answers: seq<Answer>)
    requires i < |r.collectors| && |answers| == |r.collectors|
    ensures StartFrom(r, [i], answers) == StartOne(r, i, answers[i])
  {
    hide StartOne;
    assert [i][1..] == [];
    assert StartFrom(StartOne(r, i, answers[i]), [], answers) == StartOne(r, i, answers[i]);
  }

  lemma GuidedOrder(t: Runner)
    requires t.collectors == [Fresh(SAMPLER)]
    ensures StartOrder(t.collectors) == [0]
  {
    OnePlace(t.collectors, 1, 1);
    assert Places(t.collectors, false, 0) == [];
    assert Places(t.collectors, false, 1) == [0];
  }

  lemma GuidedLaunches(t: Runner)
    requires t == Guided(Running, None, [Fresh(SAMPLER)], 1)
    ensures StartOne(t, 0, Launched) == Guided(Running, None, [STARTING], 1)
  {
    QuietStatus(t, 0, Starting);
    assert StartOne(t, 0, Launched).collectors == [STARTING];
  }

  lemma GuidedStops(r: Runner)
    requires r == Guided(Running, None, [STARTING], 1)
    ensures Stop(r) == Guided(Stopping, Some(WasStopped), [STARTING.(stopRequested := true)], 1)
  {
    var t := Guided(Stopping, Some(WasStopped), [STARTING], 1);
    var s := StopOne(t, 0);
    assert s.collectors == [STARTING.(stopRequested := true)] && s.collectors[0].Running();
    assert StopFrom(t, 0) == StopFrom(s, 1) == s;
  }

  lemma GuidedFails(r: Runner)
    requires r == Guided(Stopping, Some(WasStopped), [STARTING.(stopRequested := true)], 1)
    ensures Stuck(Happens(r, 0, Failed))
  {
    assert r.collectors[0].Running();
    HappensStuckIff(r, 0, Failed);
  }

  /** One local process, asked to stop before it has begun, which then fails to start. */
  lemma StuckReached()
    ensures Stuck(Run(IDLE, [EEnqueue([GUIDED], true), EStart(true, [Launched]), EStop, EHappens(0, Failed)]))
  {
    var r0, r1 := Guided(Prepared, None, [], 0), Guided(Running, None, [STARTING], 1);
    hide Stuck;
    GuidedEnqueued();
    GuidedStarts();
    GuidedStops(r1);
    GuidedFails(Stop(r1));
    hide Enqueue, StartCurrent, Stop, Happens, Stuck, Run, Guided;
    RunFour(IDLE, EEnqueue([GUIDED], true), EStart(true, [Launched]), EStop, EHappens(0, Failed));
  }

  lemma RunFour(r: Runner, a: Event, b: Event, c: Event, d: Event)
    ensures Run(r, [a, b, c, d]) == Step(Step(Step(Step(r, a), b), c), d)
  {
    hide Step;
    assert [a, b, c, d][1..] == [b, c, d] && [b, c, d][1..] == [c, d] && [c, d][1..] == [d] && [d][1..] == [];
    var s := Step(Step(r, a), b);
    assert Run(r, [a, b, c, d]) == Run(Step(r, a), [b, c, d]) == Run(s, [c, d]);
    assert Run(s, [c, d]) == Run(Step(s, c), [d]) == Run(Step(Step(s, c), d), []);
  }
}
