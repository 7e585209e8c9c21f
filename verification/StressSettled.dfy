/** What is running when an attempt gets its result, and when an attempt can never get one. */
module StressSettled {
  import opened Options
  import opened StressProtocol
  import opened StressTheorems

  // ----- No collector runs once the result is written ---------------------------------------------

  /** Process and status of one collector agree. */
  predicate Sound(c: Collector) {
    match c.spec.kind
    case Manual => !c.alive && !c.Running()
    case Observation => !c.alive
    case Process => c.alive ==> !c.terminal
    case Remote => c.alive <==> c.Running()
  }

  predicate AllSound(r: Runner) {
    forall i :: 0 <= i < |r.collectors| ==> Sound(r.collectors[i])
  }

  /** Of the first n collectors, those that still run have been asked to stop. */
  predicate Told(r: Runner, n: nat)
    requires n <= |r.collectors|
  {
    forall i :: 0 <= i < n && r.collectors[i].Running() ==>
      r.collectors[i].stopRequested && r.collectors[i].spec.kind != Observation
  }

  predicate Settled(r: Runner, n: nat)
    requires n <= |r.collectors|
  {
    && (r.status == Stopping || r.status.Finished?)
    && Told(r, n)
    && (r.status.Finished? ==> NoneRunning(r.collectors))
  }

  /** Unless a collector was set running late, everything is told to stop and a result means nothing runs. */
  predicate Tidy(r: Runner) {
    && AllSound(r)
    && (r.late || r.collectors == [] || (r.current.Some? && (r.status == Running || Settled(r, |r.collectors|))))
  }

  /** Stopping starts and ends no process. */
  predicate SameProcesses(r: Runner, s: Runner) {
    && |s.collectors| == |r.collectors|
    && forall i :: 0 <= i < |r.collectors| ==>
         s.collectors[i].alive == r.collectors[i].alive && s.collectors[i].terminal == r.collectors[i].terminal
         && s.collectors[i].spec == r.collectors[i].spec
         && (!r.collectors[i].Running() ==> s.collectors[i] == r.collectors[i])
  }

  lemma StopOneSettles(r: Runner, i: nat)
    requires i < |r.collectors| && AllSound(r) && Settled(r, i) && r.current.Some?
    ensures var s := StopOne(r, i); AllSound(s) && Settled(s, i + 1) && s.current.Some? && SameProcesses(r, s)
  {
    var c := r.collectors[i];
    if c.spec.kind == Observation && c.Running() {
      var t := WithStatus(r, i, Stopped);
      assert t.collectors[i] == c.(status := Stopped);
    } else if c.spec.kind != Manual && c.Running() {
      var s := StopOne(r, i);
      assert s.collectors[i] == c.(stopRequested := true);
    }
  }

  lemma {:induction false} StopFromSettles(r: Runner, i: nat)
    requires i <= |r.collectors| && AllSound(r) && Settled(r, i) && r.current.Some?
    ensures var s := StopFrom(r, i);
            AllSound(s) && Settled(s, |s.collectors|) && s.current.Some? && SameProcesses(r, s)
    decreases |r.collectors| - i
  {
    if i < |r.collectors| {
      hide StopOne, Sound, Settled;
      StopOneSettles(r, i);
      StopFromSettles(StopOne(r, i), i + 1);
    }
  }

  lemma LeaveSettles(r: Runner, final: Final)
    requires AllSound(r) && r.current.Some?
    ensures var s := Leave(r, final);
            AllSound(s) && Settled(s, |s.collectors|) && s.current.Some? && SameProcesses(r, s)
  {
    var t := r.(pending := Some(final), status := Stopping);
    StopFromSettles(t, 0);
  }

  lemma SetStatusTidy(r: Runner, i: nat, status: CollectorStatus)
    requires i < |r.collectors| && Tidy(WithStatus(r, i, status))
    ensures Tidy(SetStatus(r, i, status)) && SameProcesses(WithStatus(r, i, status), SetStatus(r, i, status))
    ensures SetStatus(r, i, status).late == r.late
  {
    var t := WithStatus(r, i, status);
    if r.current.Some? && r.status == Running {
      LeaveSettles(t, NeedsReview);
      LeaveSettles(t, WasError);
      LeaveFlows(t, NeedsReview);
      LeaveFlows(t, WasError);
    }
  }

  lemma EmitTidy(r: Runner)
    requires Tidy(r)
    ensures Tidy(EmitIfStopped(r)) && EmitIfStopped(r).collectors == r.collectors
    ensures EmitIfStopped(r).late == r.late
  {
  }

  /** No collector but the i-th is touched, unless it was running. */
  predicate Untouched(r: Runner, s: Runner, i: nat) {
    && |s.collectors| == |r.collectors|
    && forall j :: 0 <= j < |r.collectors| && j != i && !r.collectors[j].Running() ==>
         s.collectors[j] == r.collectors[j]
  }

  lemma EndTidy(r: Runner, i: nat, status: CollectorStatus)
    requires i < |r.collectors| && Tidy(WithStatus(r, i, status)) && !r.collectors[i].alive
    requires status != Starting && status != Active
    ensures var s := End(r, i, status); Tidy(s) && Untouched(r, s, i) && s.late == r.late
    ensures var s := End(r, i, status);
            && s.collectors[i] == r.collectors[i].(status := status, terminal := true)
            && forall j :: 0 <= j < |r.collectors| ==> s.collectors[j].alive == r.collectors[j].alive
  {
    hide SetStatus, EmitIfStopped;
    SetStatusTidy(r, i, status);
    var t := SetStatus(r, i, status);
    var marked := t.(collectors := t.collectors[i := t.collectors[i].(terminal := true)]);
    assert t.collectors[i] == r.collectors[i].(status := status);
    assert marked.collectors[i] == t.collectors[i].(terminal := true);
    assert forall j :: 0 <= j < |t.collectors| && j != i ==> marked.collectors[j] == t.collectors[j];
    assert Tidy(marked);
    EmitTidy(marked);
  }

  lemma StartOneTidy(r: Runner, i: nat, answer: Answer)
    requires i < |r.collectors| && Tidy(r) && r.current.Some?
    requires r.status == Running || r.late || !Runs(r.collectors[i].spec, answer)
    requires r.collectors[i] == Fresh(r.collectors[i].spec)
    ensures var s := StartOne(r, i, answer); Tidy(s) && Untouched(r, s, i)
  {
    hide End, SetStatus, Tidy;
    var c := r.collectors[i];
    NotedIs(r, i, answer);
    match c.spec.kind
    case Manual => FirstStatus(r, i, ManualRequired); EndTidy(r, i, ManualRequired);
    case Observation => FirstStatus(r, i, Active); QuietStatus(r, i, Active);
    case Process =>
      QuietStatus(r, i, Starting);
      FirstStatus(r, i, c.spec.unavailable);
      if answer == Launched {
        LaunchTidy(r, i);
      }
      BrokenTidy(r, i);
      EndTidy(r, i, c.spec.unavailable);
    case Remote =>
      QuietStatus(r, i, Starting);
      if answer == Launched {
        LaunchTidy(r, i);
      }
      BrokenTidy(r, i);
  }

  lemma NotedIs(r: Runner, i: nat, answer: Answer)
    requires i < |r.collectors|
    ensures r.status == Running || r.late || !Runs(r.collectors[i].spec, answer) ==> Noted(r, i, answer) == r
  {
  }

  lemma FirstStatus(r: Runner, i: nat, status: CollectorStatus)
    requires i < |r.collectors| && Tidy(r) && r.current.Some?
    requires r.collectors[i] == Fresh(r.collectors[i].spec)
    requires (r.collectors[i].spec.kind == Observation && (r.status == Running || r.late))
             || (status != Starting && status != Active)
    ensures Tidy(WithStatus(r, i, status)) && Untouched(r, WithStatus(r, i, status), i)
  {
    var t := WithStatus(r, i, status);
    assert t.collectors[i] == r.collectors[i].(status := status);
    assert forall j :: 0 <= j < |r.collectors| && j != i ==> t.collectors[j] == r.collectors[j];
  }

  lemma LaunchTidy(r: Runner, i: nat)
    requires i < |r.collectors| && Tidy(r) && (r.status == Running || r.late) && r.current.Some?
    requires r.collectors[i] == Fresh(r.collectors[i].spec)
    requires r.collectors[i].spec.kind == Remote || r.collectors[i].spec.kind == Process
    ensures var s := WithAlive(WithStatus(r, i, Starting), i, true); Tidy(s) && Untouched(r, s, i)
  {
    var t := WithAlive(WithStatus(r, i, Starting), i, true);
    assert t.collectors[i] == r.collectors[i].(status := Starting, alive := true);
    assert forall j :: 0 <= j < |r.collectors| && j != i ==> t.collectors[j] == r.collectors[j];
  }

  lemma BrokenTidy(r: Runner, i: nat)
    requires i < |r.collectors| && Tidy(r) && r.current.Some?
    requires r.collectors[i] == Fresh(r.collectors[i].spec)
    ensures var s := End(WithStatus(r, i, Starting), i, Error); Tidy(s) && Untouched(r, s, i)
  {
    hide End;
    var t := WithStatus(r, i, Starting);
    FirstStatus(r, i, Error);
    assert WithStatus(t, i, Error) == WithStatus(r, i, Error);
    EndTidy(t, i, Error);
  }

  /** start_all, with the collectors of order still to be started. */
  predicate Amid(r: Runner, order: seq<nat>, answers: seq<Answer>) {
    && Tidy(r) && r.current.Some? && Pended(r) && r.status != Prepared && |answers| == |r.collectors|
    && (forall k :: 0 <= k < |order| ==>
          order[k] < |r.collectors| && r.collectors[order[k]] == Fresh(r.collectors[order[k]].spec))
    && (forall j, k :: 0 <= j < k < |order| ==> order[j] != order[k])
  }

  lemma AmidNext(r: Runner, order: seq<nat>, answers: seq<Answer>)
    requires Amid(r, order, answers) && order != []
    ensures var s := StartOne(r, order[0], answers[order[0]]);
            Amid(s, order[1..], answers) && Flows(r, s) && Untouched(r, s, order[0])
  {
    hide StartOne, Tidy, Flows;
    var t := Noted(r, order[0], answers[order[0]]);
    LateTidy(r);
    var s := StartOne(r, order[0], answers[order[0]]);
    SameStart(r, order[0], answers[order[0]]);
    StartOneTidy(t, order[0], answers[order[0]]);
    StartOneFlows(r, order[0], answers[order[0]]);
    FlowsStarted(r, s);
    forall k | 0 <= k < |order[1..]| ensures s.collectors[order[1..][k]] == r.collectors[order[1..][k]] {
      assert order[1..][k] == order[k + 1] != order[0];
      assert !Fresh(r.collectors[order[k + 1]].spec).Running();
    }
  }

  lemma {:induction false} StartFromTidy(r: Runner, order: seq<nat>, answers: seq<Answer>)
    requires Amid(r, order, answers)
    ensures Tidy(StartFrom(r, order, answers))
    decreases |order|
  {
    if order != [] {
      hide StartOne, Tidy, Flows;
      AmidNext(r, order, answers);
      StartFromTidy(StartOne(r, order[0], answers[order[0]]), order[1..], answers);
    }
  }

  lemma LateTidy(r: Runner)
    requires Tidy(r)
    ensures Tidy(r.(late := true))
  {
  }

  lemma SameStart(r: Runner, i: nat, answer: Answer)
    requires i < |r.collectors|
    ensures StartOne(r, i, answer) == StartOne(Noted(r, i, answer), i, answer)
  {
  }

  lemma FlowsStarted(r: Runner, s: Runner)
    requires Flows(r, s) && r.current.Some? && r.status != Prepared
    ensures s.current == r.current && s.status != Prepared && |s.collectors| == |r.collectors|
  {
  }

  lemma HappensTidy(r: Runner, i: nat, h: Happening)
    requires Tidy(r)
    ensures Tidy(Happens(r, i, h)) && Happens(r, i, h).late == r.late
  {
    if i < |r.collectors| {
      hide End;
      var c := r.collectors[i];
      var dead := WithAlive(r, i, false);
      assert dead.collectors[i] == c.(alive := false);
      if h.Started? && c.alive && c.status == Starting {
        SetStatusTidy(r, i, Active);
      } else if h.TimerFired? && c.spec.kind == Observation && c.status == Active {
        EndedTidy(r, i, Completed);
        EndTidy(r, i, Completed);
      } else if h.Exited? && c.alive {
        EndedTidy(r, i, EndStatus(c, h.ok));
        EndTidy(dead, i, EndStatus(c, h.ok));
      } else if h.Failed? && c.alive && (c.spec.kind == Remote || (c.status == Starting && !c.stopRequested)) {
        EndedTidy(r, i, Error);
        EndTidy(dead, i, Error);
      } else if h.Crashed? && c.alive && c.spec.kind == Process {
        CrashTidy(r, i);
      } else if h.Failed? && c.alive && c.status == Starting {
        assert Tidy(dead);
      }
    }
  }

  /** Marking a running collector as ended keeps everything tidy. */
  lemma EndedTidy(r: Runner, i: nat, status: CollectorStatus)
    requires i < |r.collectors| && Tidy(r) && r.collectors[i].spec.kind != Manual
    requires status != Starting && status != Active
    ensures Tidy(WithStatus(WithAlive(r, i, false), i, status))
    ensures r.collectors[i].spec.kind == Observation ==> Tidy(WithStatus(r, i, status))
  {
    var t := WithStatus(WithAlive(r, i, false), i, status);
    assert t.collectors[i] == r.collectors[i].(alive := false, status := status);
    assert forall j :: 0 <= j < |r.collectors| && j != i ==> t.collectors[j] == r.collectors[j];
    if r.collectors[i].spec.kind == Observation {
      assert t == WithStatus(r, i, status);
    }
  }

  lemma CrashTidy(r: Runner, i: nat)
    requires i < |r.collectors| && Tidy(r) && r.collectors[i].alive && r.collectors[i].spec.kind == Process
    ensures Tidy(Happens(r, i, Crashed)) && Happens(r, i, Crashed).late == r.late
  {
    hide End, Tidy;
    var c := r.collectors[i];
    var dead := WithAlive(r, i, false);
    var status := EndStatus(c, false);
    if c.stopRequested {
      EndedTidy(r, i, status);
      EndTidy(dead, i, status);
    } else {
      EndedTidy(r, i, Error);
      EndTidy(dead, i, Error);
      var said := End(dead, i, Error);
      EndedTidy(said, i, status);
      assert WithAlive(said, i, false) == said;
      EndTidy(said, i, status);
    }
  }

  predicate Rising(places: seq<nat>) {
    forall j, k :: 0 <= j < k < |places| ==> places[j] < places[k]
  }

  lemma PlacesRise(collectors: seq<Collector>, workload: bool, n: nat)
    requires n <= |collectors|
    ensures Rising(Places(collectors, workload, n))
  {
  }

  lemma StartOrderDistinct(collectors: seq<Collector>)
    ensures var order := StartOrder(collectors);
            && (forall k :: 0 <= k < |order| ==> order[k] < |collectors|)
            && forall j, k :: 0 <= j < k < |order| ==> order[j] != order[k]
  {
    PlacesRise(collectors, false, |collectors|);
    PlacesRise(collectors, true, |collectors|);
    var others, loads := Places(collectors, false, |collectors|), Places(collectors, true, |collectors|);
    var order := others + loads;
    forall j, k | 0 <= j < k < |order| ensures order[j] != order[k] {
      if j < |others| <= k {
        assert order[j] == others[j] && order[k] == loads[k - |others|];
        assert !collectors[others[j]].spec.workload && collectors[loads[k - |others|]].spec.workload;
      } else if j < |others| {
        assert order[j] == others[j] < others[k] == order[k];
      } else {
        assert order[j] == loads[j - |others|] < loads[k - |others|] == order[k];
      }
    }
  }

  lemma PlacesAll(collectors: seq<Collector>, workload: bool, n: nat)
    requires n <= |collectors|
    ensures forall i :: 0 <= i < n && collectors[i].spec.workload == workload ==> i in Places(collectors, workload, n)
  {
  }

  lemma {:induction false} OnePlace(collectors: seq<Collector>, w: nat, n: nat)
    requires n <= |collectors| && forall i :: 0 <= i < |collectors| ==> (collectors[i].spec.workload <==> i == w)
    ensures Places(collectors, true, n) == if w < n then [w] else []
  {
    if n > 0 {
      OnePlace(collectors, w, n - 1);
      assert collectors[n - 1].spec.workload <==> n - 1 == w;
    }
  }

  /** Before the first collector is started everything is in order. */
  lemma LaunchTidyFirst(r: Runner)
    requires MayStart(r)
    ensures var t := Launchpad(r); Tidy(t) && Pended(t)
    ensures var t := Launchpad(r);
            forall i :: 0 <= i < |t.collectors| ==> t.collectors[i] == Fresh(t.collectors[i].spec)
  {
  }

  lemma AmidFirst(r: Runner, answers: seq<Answer>)
    requires MayStart(r) && |answers| == |r.current.value.plan|
    ensures var t := Launchpad(r);
            && Amid(t, StartOrder(t.collectors), answers)
            && StartCurrent(r, true, answers) == StartFrom(t, StartOrder(t.collectors), answers)
  {
    hide StartFrom, StartOrder, StartCurrent, Tidy, Built;
    LaunchTidyFirst(r);
    StartOrderDistinct(Launchpad(r).collectors);
    StartsAll(r, answers);
  }

  lemma StartTidy(r: Runner, created: bool, answers: seq<Answer>)
    requires Kept(r) && Tidy(r)
    ensures Tidy(StartCurrent(r, created, answers))
  {
    if MayStart(r) && created && |answers| == |r.current.value.plan| {
      hide StartFrom, StartOrder, StartCurrent, Kept, Built, Amid;
      AmidFirst(r, answers);
      StartFromTidy(Launchpad(r), StartOrder(Launchpad(r).collectors), answers);
    }
  }

  lemma StepTidy(r: Runner, e: Event)
    requires Kept(r) && Tidy(r)
    ensures Tidy(Step(r, e))
  {
    hide Leave, StartCurrent, Happens;
    match e
    case EStart(created, answers) => StartTidy(r, created, answers);
    case EStop => if r.current.Some? { LeaveSettles(r, WasStopped); }
    case EReview => if r.current.Some? { LeaveSettles(r, NeedsReview); }
    case EHappens(i, h) => HappensTidy(r, i, h);
    case _ =>
  }

  lemma {:induction false} RunTidy(r: Runner, events: seq<Event>)
    requires Kept(r) && Tidy(r)
    ensures Tidy(Run(r, events))
    decreases |events|
  {
    if events != [] {
      StepKept(r, events[0]);
      StepTidy(r, events[0]);
      RunTidy(Step(r, events[0]), events[1..]);
    }
  }

  /** In every run: unless a collector of the attempt was started after the attempt had left Running, nothing
      runs once its result is written, and while it is stopping everything that runs has been asked to stop. */
  lemma NothingRunsAtResult(events: seq<Event>)
    ensures var r := Run(IDLE, events);
            r.current.Some? && !r.late ==>
              && (r.status.Finished? ==> NoneRunning(r.collectors))
              && (r.status == Stopping ==> Told(r, |r.collectors|))
  {
    assert IDLE.results[0..] == [];
    RunTidy(IDLE, events);
    EveryRunKept(events);
  }

  // ----- Exactly when an attempt can never end ------------------------------------------------------

  /** Stopping, although nothing is left that could report its end. */
  predicate Stuck(r: Runner) {
    r.current.Some? && r.status == Stopping && NoneRunning(r.collectors)
  }

  /** Such an attempt is never left again: no event of any kind changes the runner. */
  lemma StuckForever(r: Runner, e: Event)
    requires Kept(r) && AllSound(r) && Stuck(r)
    ensures Step(r, e) == r
  {
  }

  /** The i-th is the last running collector, a process that was asked to stop before it had begun. */
  predicate LastUnbegun(r: Runner, i: nat) {
    && r.current.Some? && r.status == Stopping && i < |r.collectors|
    && r.collectors[i].spec.kind == Process && r.collectors[i].alive && r.collectors[i].status == Starting
    && r.collectors[i].stopRequested
    && forall j :: 0 <= j < |r.collectors| && j != i ==> !r.collectors[j].Running()
  }

  lemma LeaveUnstuck(r: Runner, final: Final)
    ensures !Stuck(Leave(r, final))
  {
  }

  lemma SetStatusUnstuck(r: Runner, i: nat, status: CollectorStatus)
    requires i < |r.collectors| && r.status == Running
    ensures !Stuck(SetStatus(r, i, status))
  {
    hide Leave;
    LeaveUnstuck(WithStatus(r, i, status), NeedsReview);
    LeaveUnstuck(WithStatus(r, i, status), WasError);
  }

  lemma EndUnstuck(r: Runner, i: nat, status: CollectorStatus)
    requires i < |r.collectors|
    requires r.status == Running || (r.collectors[i].spec.kind == Process ==> !r.collectors[i].terminal)
    ensures !Stuck(End(r, i, status))
  {
    if r.status == Running {
      hide SetStatus;
      SetStatusUnstuck(r, i, status);
    }
  }

  lemma StartOneUnstuck(r: Runner, i: nat, answer: Answer)
    requires i < |r.collectors| && r.collectors[i] == Fresh(r.collectors[i].spec)
    ensures !Stuck(StartOne(r, i, answer))
  {
    hide End, SetStatus;
    var t := Noted(r, i, answer);
    var spec := r.collectors[i].spec;
    QuietStatus(t, i, Starting);
    QuietStatus(t, i, Active);
    EndUnstuck(t, i, ManualRequired);
    EndUnstuck(t, i, spec.unavailable);
    EndUnstuck(WithStatus(t, i, Starting), i, Error);
    var s := StartOne(r, i, answer);
    match spec.kind
    case Manual =>
    case Observation => assert s.collectors[i].Running();
    case Process => if answer == Launched { assert s.collectors[i].Running(); }
    case Remote => if answer == Launched { assert s.collectors[i].Running(); }
  }

  lemma {:induction false} StartFromUnstuck(r: Runner, order: seq<nat>, answers: seq<Answer>)
    requires Amid(r, order, answers) && !Stuck(r)
    ensures !Stuck(StartFrom(r, order, answers))
    decreases |order|
  {
    if order != [] {
      hide StartOne, Tidy, Flows, Stuck;
      StartOneUnstuck(r, order[0], answers[order[0]]);
      AmidNext(r, order, answers);
      StartFromUnstuck(StartOne(r, order[0], answers[order[0]]), order[1..], answers);
    }
  }

  lemma HappensStuckIff(r: Runner, i: nat, h: Happening)
    requires Tidy(r) && !Stuck(r)
    ensures Stuck(Happens(r, i, h)) <==> h.Failed? && LastUnbegun(r, i)
  {
    if i < |r.collectors| {
      hide End, Tidy;
      var c := r.collectors[i];
      var dead := WithAlive(r, i, false);
      assert dead.collectors[i] == c.(alive := false);
      assert Sound(c) by { SoundAt(r, i); }
      if h.Started? && c.alive && c.status == Starting {
        QuietStatus(r, i, Active);
        assert Happens(r, i, h).collectors[i].Running();
      } else if h.TimerFired? && c.spec.kind == Observation && c.status == Active {
        EndUnstuck(r, i, Completed);
      } else if h.Exited? && c.alive {
        EndUnstuck(dead, i, EndStatus(c, h.ok));
      } else if h.Failed? && c.alive && (c.spec.kind == Remote || (c.status == Starting && !c.stopRequested)) {
        EndUnstuck(dead, i, Error);
      } else if h.Crashed? && c.alive && c.spec.kind == Process {
        CrashUnstuck(r, i);
      } else if h.Failed? && c.alive && c.status == Starting {
        assert forall j :: 0 <= j < |r.collectors| && j != i ==> dead.collectors[j] == r.collectors[j];
      }
    }
  }

  lemma SoundAt(r: Runner, i: nat)
    requires Tidy(r) && i < |r.collectors|
    ensures Sound(r.collectors[i])
  {
  }

  lemma CrashUnstuck(r: Runner, i: nat)
    requires i < |r.collectors| && Tidy(r) && r.collectors[i].alive && r.collectors[i].spec.kind == Process
    ensures !Stuck(Happens(r, i, Crashed))
  {
    hide End, Tidy, Stuck, SetStatus;
    var c := r.collectors[i];
    var dead := WithAlive(r, i, false);
    SoundAt(r, i);
    EndedTidy(r, i, Error);
    EndTidy(dead, i, Error);
    var said := End(dead, i, Error);
    EndUnstuck(dead, i, Error);
    if c.stopRequested {
      EndUnstuck(dead, i, EndStatus(c, false));
    } else if said.status == Running {
      EndUnstuck(said, i, EndStatus(c, false));
    } else {
      SecondReport(said, i, EndStatus(c, false));
    }
  }

  /** A second report of an end changes no more than the displayed status. */
  lemma SecondReport(r: Runner, i: nat, status: CollectorStatus)
    requires i < |r.collectors| && r.collectors[i].spec.kind == Process && r.collectors[i].terminal
    requires r.status != Running && !Stuck(r)
    ensures !Stuck(End(r, i, status))
  {
    assert End(r, i, status) == WithStatus(r, i, status);
    assert forall j :: 0 <= j < |r.collectors| ==>
      WithStatus(r, i, status).collectors[j].Running() == r.collectors[j].Running();
  }

  /** An attempt gets stuck exactly when the last collector running is a process that was told to stop while it
      was still starting, and that then fails to start. */
  lemma StuckIff(r: Runner, e: Event)
    requires Kept(r) && Tidy(r) && !Stuck(r)
    ensures Stuck(Step(r, e)) <==> e.EHappens? && e.h.Failed? && LastUnbegun(r, e.i)
  {
    hide StartCurrent, Leave, Happens, Tidy;
    match e
    case EStart(created, answers) => StartUnstuck(r, created, answers);
    case EStop => LeaveUnstuck(r, WasStopped);
    case EReview => LeaveUnstuck(r, NeedsReview);
    case EHappens(i, h) => HappensStuckIff(r, i, h);
    case _ =>
  }

  lemma StartUnstuck(r: Runner, created: bool, answers: seq<Answer>)
    requires Kept(r) && Tidy(r) && !Stuck(r)
    ensures !Stuck(StartCurrent(r, created, answers))
  {
    if MayStart(r) && created && |answers| == |r.current.value.plan| {
      hide StartFrom, StartOrder, StartCurrent, Kept, Built, Amid, Tidy;
      AmidFirst(r, answers);
      assert !Stuck(Launchpad(r));
      hide Stuck;
      StartFromUnstuck(Launchpad(r), StartOrder(Launchpad(r).collectors), answers);
    }
  }
}
