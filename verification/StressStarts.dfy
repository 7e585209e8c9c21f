/** What becomes of an attempt while its collectors start, and exactly when it is left in disorder. */
module StressStarts {
  import opened Options
  import LoadStrategy
  import opened StressProtocol
  import opened StressTheorems
  import opened StressSettled

  /** Nothing runs once the result is written, and all that runs while stopping has been told to stop. */
  predicate InOrder(r: Runner) {
    r.current.Some? ==>
      && (r.status.Finished? ==> NoneRunning(r.collectors))
      && (r.status == Stopping ==> Told(r, |r.collectors|))
  }

  /** Some started process has not ended. */
  predicate Alive(r: Runner) {
    exists i :: 0 <= i < |r.collectors| && r.collectors[i].alive
  }

  // ----- A test's collectors and the answers their starts meet --------------------------------------

  /** Starting this collector sets something running. */
  predicate Launches(test: Test, answers: seq<Answer>, i: nat) {
    i < |test.plan| && i < |answers| && Runs(test.plan[i], answers[i])
  }

  /** ... something that does not end by being told to stop. */
  predicate Lasts(test: Test, answers: seq<Answer>, i: nat) {
    Launches(test, answers, i) && test.plan[i].kind != Observation
  }

  /** An error of this collector ends a running attempt: the workload of an automatic test, or, while load is being
      added, any other collector. */
  predicate Decides(test: Test, spec: Spec) {
    if spec.workload then test.auto else test.decision.strategy == LoadStrategy.LoadAssist
  }

  /** Starting it fails before start returns, in a way that ends a running attempt. */
  predicate Fails(test: Test, answers: seq<Answer>, i: nat) {
    && i < |test.plan| && i < |answers|
    && Decides(test, test.plan[i])
    && match test.plan[i].kind
       case Manual => false
       case Observation => false
       case Process => answers[i] == Broken || (answers[i] == Refused && test.plan[i].unavailable == Error)
       case Remote => answers[i] != Launched
  }

  predicate AnyLaunches(test: Test, answers: seq<Answer>, places: seq<nat>) {
    exists i :: i in places && Launches(test, answers, i)
  }

  predicate AnyLasts(test: Test, answers: seq<Answer>, places: seq<nat>) {
    exists i :: i in places && Lasts(test, answers, i)
  }

  /** The runner's collectors are those of this test. */
  predicate Staffed(r: Runner, test: Test) {
    && r.current == Some(test) && |r.collectors| == |test.plan|
    && forall i :: 0 <= i < |test.plan| ==> r.collectors[i].spec == test.plan[i]
  }

  lemma FlowsStaffed(r: Runner, s: Runner, test: Test)
    requires Staffed(r, test) && Flows(r, s)
    ensures Staffed(s, test)
  {
  }

  // ----- One start ------------------------------------------------------------------------------------

  lemma SetStatusLeaves(r: Runner, i: nat, status: CollectorStatus)
    requires i < |r.collectors| && r.current.Some? && r.status == Running && status != Completed
    ensures SetStatus(r, i, status).status != Running
            <==> status == Error && (if r.collectors[i].spec.workload then r.current.value.auto else Assisted(r))
  {
    hide Leave;
    LeaveFlows(WithStatus(r, i, status), WasError);
  }

  lemma EndLeaves(r: Runner, i: nat, status: CollectorStatus)
    requires i < |r.collectors| && r.current.Some? && r.status == Running && status != Completed
    ensures End(r, i, status).status != Running
            <==> status == Error && (if r.collectors[i].spec.workload then r.current.value.auto else Assisted(r))
  {
    SetStatusLeaves(r, i, status);
  }

  /** A start takes the attempt out of Running exactly if it fails as described. */
  lemma StartOneLeaves(r: Runner, test: Test, i: nat, answers: seq<Answer>)
    requires Staffed(r, test) && i < |r.collectors| && |answers| == |r.collectors| && r.status == Running
    ensures StartOne(r, i, answers[i]).status != Running <==> Fails(test, answers, i)
  {
    hide End, SetStatus;
    var spec := r.collectors[i].spec;
    QuietStatus(r, i, Starting);
    QuietStatus(r, i, Active);
    EndLeaves(r, i, ManualRequired);
    EndLeaves(r, i, spec.unavailable);
    EndLeaves(WithStatus(r, i, Starting), i, Error);
    match spec.kind
    case Manual =>
    case Observation =>
    case Process =>
    case Remote =>
  }

  /** A status change that does not take the attempt out of Running touches one collector. */
  lemma SetStatusAlone(r: Runner, i: nat, status: CollectorStatus)
    requires i < |r.collectors| && (r.status == Running ==> SetStatus(r, i, status).status == Running)
    ensures SetStatus(r, i, status) == WithStatus(r, i, status)
  {
    hide Leave;
    if r.current.Some? && r.status == Running {
      LeaveFlows(WithStatus(r, i, status), WasError);
      LeaveFlows(WithStatus(r, i, status), NeedsReview);
    }
  }

  lemma EndAlone(r: Runner, i: nat, status: CollectorStatus)
    requires i < |r.collectors| && !r.collectors[i].terminal
    requires r.status == Running ==> End(r, i, status).status == Running
    ensures End(r, i, status).collectors
            == r.collectors[i := r.collectors[i].(status := status, terminal := true)]
  {
    hide SetStatus;
    if r.status == Running {
      EndRuns(r, i, status);
    }
    SetStatusAlone(r, i, status);
  }

  lemma EndRuns(r: Runner, i: nat, status: CollectorStatus)
    requires i < |r.collectors| && r.status == Running && End(r, i, status).status == Running
    ensures SetStatus(r, i, status).status == Running
  {
    hide SetStatus;
  }

  /** What a start makes of its collector. */
  predicate Begun(c: Collector, spec: Spec, answer: Answer) {
    && c.spec == spec && !c.stopRequested && c.Running() == Runs(spec, answer)
    && c.alive == (Runs(spec, answer) && spec.kind != Observation)
  }

  /** Unless it takes the attempt out of Running, a start touches its own collector only. */
  lemma StartOneAlone(r: Runner, i: nat, answer: Answer)
    requires i < |r.collectors| && r.collectors[i] == Fresh(r.collectors[i].spec)
    requires r.status == Running ==> StartOne(r, i, answer).status == Running
    ensures var s := StartOne(r, i, answer);
            && Begun(s.collectors[i], r.collectors[i].spec, answer)
            && forall j :: 0 <= j < |r.collectors| && j != i ==> s.collectors[j] == r.collectors[j]
  {
    hide End, SetStatus;
    var t := Noted(r, i, answer);
    var spec := r.collectors[i].spec;
    QuietStatus(t, i, Starting);
    QuietStatus(t, i, Active);
    match spec.kind
    case Manual => EndAlone(t, i, ManualRequired);
    case Observation =>
    case Process =>
      if answer == Refused {
        EndAlone(t, i, spec.unavailable);
      } else if answer == Broken {
        EndAlone(WithStatus(t, i, Starting), i, Error);
      }
    case Remote =>
      if answer != Launched {
        EndAlone(WithStatus(t, i, Starting), i, Error);
      }
  }

  // ----- Starts after the attempt has left Running --------------------------------------------------

  /** The result is written, or a process the attempt waits for is alive. */
  predicate Over(r: Runner) {
    r.current.Some? && (r.status.Finished? || (r.status == Stopping && Alive(r)))
  }

  /** Something alive that runs keeps a stopping attempt from ending. */
  lemma EndOver(r: Runner, i: nat, status: CollectorStatus, j: nat)
    requires r.status.Finished? || (r.status == Stopping && j < |r.collectors| && j != i && r.collectors[j].Running())
    requires i < |r.collectors|
    ensures End(r, i, status).status == r.status && End(r, i, status).current == r.current
  {
    var t := WithStatus(r, i, status);
    var marked := t.(collectors := t.collectors[i := t.collectors[i].(terminal := true)]);
    if r.status == Stopping {
      assert marked.collectors[j] == t.collectors[j] == r.collectors[j];
    }
  }

  lemma StartOneStays(r: Runner, i: nat, answer: Answer, j: nat)
    requires r.status.Finished? || (r.status == Stopping && j < |r.collectors| && j != i && r.collectors[j].Running())
    requires i < |r.collectors|
    ensures StartOne(r, i, answer).status == r.status && StartOne(r, i, answer).current == r.current
  {
    hide End;
    var t := Noted(r, i, answer);
    EndOver(t, i, ManualRequired, j);
    EndOver(t, i, t.collectors[i].spec.unavailable, j);
    EndOver(WithStatus(t, i, Starting), i, Error, j);
  }

  lemma StartOneOver(r: Runner, i: nat, answer: Answer)
    requires Over(r) && AllSound(r) && i < |r.collectors| && r.collectors[i] == Fresh(r.collectors[i].spec)
    ensures var s := StartOne(r, i, answer);
            && Over(s) && s.status == r.status
            && (InOrder(s) <==> InOrder(r) && !Runs(r.collectors[i].spec, answer))
  {
    hide StartOne, Sound;
    StartOneAlone(r, i, answer);
    var s := StartOne(r, i, answer);
    if r.status == Stopping {
      var j :| 0 <= j < |r.collectors| && r.collectors[j].alive;
      AliveRuns(r, j);
      StartOneStays(r, i, answer, j);
      assert s.collectors[j].alive;
    } else {
      StartOneStays(r, i, answer, 0);
    }
    Restored(r, s, i);
  }

  lemma AliveRuns(r: Runner, j: nat)
    requires AllSound(r) && j < |r.collectors| && r.collectors[j].alive
    ensures r.collectors[j].Running() && r.collectors[j].spec.kind != Observation
  {
    assert Sound(r.collectors[j]);
  }

  lemma Restored(r: Runner, s: Runner, i: nat)
    requires |s.collectors| == |r.collectors| && i < |r.collectors| && r.current.Some? && s.current.Some?
    requires s.status == r.status && Over(r)
    requires !s.collectors[i].stopRequested && !r.collectors[i].Running()
    requires forall j :: 0 <= j < |r.collectors| && j != i ==> s.collectors[j] == r.collectors[j]
    ensures InOrder(s) <==> InOrder(r) && !s.collectors[i].Running()
  {
    if InOrder(s) {
      assert !s.collectors[i].Running();
    }
  }

  /** From then on the attempt stays where it is, and it stays in order exactly if nothing more is launched. */
  lemma {:induction false} StartFromOver(r: Runner, test: Test, order: seq<nat>, answers: seq<Answer>)
    requires Amid(r, order, answers) && Staffed(r, test) && Over(r)
    ensures var s := StartFrom(r, order, answers);
            && s.status == r.status
            && (InOrder(s) <==> InOrder(r) && !AnyLaunches(test, answers, order))
            && (s.late <==> r.late || AnyLaunches(test, answers, order))
            && (forall i :: 0 <= i < |r.collectors| ==>
                  if i in order then Begun(s.collectors[i], test.plan[i], answers[i])
                  else s.collectors[i] == r.collectors[i])
    decreases |order|
  {
    if order != [] {
      hide StartOne, Tidy, Flows, InOrder, Over, Alive, Launches, Begun;
      AmidOver(r, test, order, answers);
      var s := StartOne(r, order[0], answers[order[0]]);
      FlowsStaffed(r, s, test);
      StartFromOver(s, test, order[1..], answers);
      FirstOrRest(order);
    }
  }

  lemma AmidOver(r: Runner, test: Test, order: seq<nat>, answers: seq<Answer>)
    requires Amid(r, order, answers) && Staffed(r, test) && Over(r) && order != []
    ensures var s := StartOne(r, order[0], answers[order[0]]);
            && Amid(s, order[1..], answers) && Over(s) && Flows(r, s) && s.status == r.status
            && (InOrder(s) <==> InOrder(r) && !Launches(test, answers, order[0]))
            && (s.late <==> r.late || Launches(test, answers, order[0]))
            && Begun(s.collectors[order[0]], test.plan[order[0]], answers[order[0]])
            && forall j :: 0 <= j < |r.collectors| && j != order[0] ==> s.collectors[j] == r.collectors[j]
  {
    hide StartOne, Flows, InOrder, Over, Begun, Tidy;
    AmidNext(r, order, answers);
    StartOneAlone(r, order[0], answers[order[0]]) by { OverNotRunning(r); }
    AmidSound(r, order, answers);
    StartOneOver(r, order[0], answers[order[0]]);
    StartOneFlows(r, order[0], answers[order[0]]);
    assert r.status != Running by { OverNotRunning(r); }
  }

  lemma AmidSound(r: Runner, order: seq<nat>, answers: seq<Answer>)
    requires Amid(r, order, answers)
    ensures AllSound(r)
  {
  }

  lemma OverNotRunning(r: Runner)
    requires Over(r)
    ensures r.status != Running
  {
  }

  lemma FirstOrRest(order: seq<nat>)
    requires order != []
    ensures forall i :: i in order <==> i == order[0] || i in order[1..]
  {
    assert order == [order[0]] + order[1..];
  }

  // ----- The start that takes the attempt out of Running ----------------------------------------------

  lemma FailAlive(r: Runner, test: Test, i: nat, answers: seq<Answer>)
    requires Tidy(r) && Staffed(r, test) && r.status == Running && !r.late && Fails(test, answers, i)
    requires |answers| == |r.collectors| && i < |r.collectors| && r.collectors[i] == Fresh(r.collectors[i].spec)
    ensures var s := StartOne(r, i, answers[i]);
            && s.late == r.late
            && forall j :: 0 <= j < |r.collectors| ==> s.collectors[j].alive == r.collectors[j].alive
  {
    hide End, SetStatus, Tidy;
    var begun := WithStatus(r, i, Starting);
    var spec := r.collectors[i].spec;
    QuietStatus(r, i, Starting);
    FirstStatus(r, i, Error);
    assert WithStatus(begun, i, Error) == WithStatus(r, i, Error);
    EndTidy(begun, i, Error);
    if spec.kind == Process && answers[i] == Refused {
      EndTidy(r, i, Error);
    }
  }

  /** The result is written at once unless a process started before is alive; either way all is in order. */
  lemma FailingStart(r: Runner, test: Test, order: seq<nat>, answers: seq<Answer>)
    requires Amid(r, order, answers) && Staffed(r, test) && r.status == Running && !r.late
    requires order != [] && Fails(test, answers, order[0])
    ensures var s := StartOne(r, order[0], answers[order[0]]);
            && Amid(s, order[1..], answers) && Flows(r, s) && Over(s) && InOrder(s) && !s.late
            && s.status == if Alive(r) then Stopping else Finished(WasError)
  {
    hide StartOne, Tidy, Flows, Fails, Stuck, Staffed;
    var i := order[0];
    var s := StartOne(r, i, answers[i]);
    AmidNext(r, order, answers);
    FailAlive(r, test, i, answers);
    StaffedCurrent(r, test);
    StartOneLeaves(r, test, i, answers);
    StartOneExit(r, i, answers[i]);
    StartOneUnstuck(r, i, answers[i]);
    LeftInOrder(r, s);
  }

  lemma StaffedCurrent(r: Runner, test: Test)
    requires Staffed(r, test)
    ensures r.current == Some(test)
  {
  }

  lemma LeftInOrder(r: Runner, s: Runner)
    requires Tidy(s) && !s.late && r.current.Some? && Flows(r, s) && |r.collectors| > 0 && r.status == Running
    requires Leaves(r, s, WasError) && !Stuck(s)
    requires forall j :: 0 <= j < |r.collectors| ==> s.collectors[j].alive == r.collectors[j].alive
    ensures InOrder(s) && Over(s) && s.status == if Alive(r) then Stopping else Finished(WasError)
  {
    assert s.current == r.current && |s.collectors| == |r.collectors|;
    if s.status == Stopping {
      var j :| 0 <= j < |s.collectors| && s.collectors[j].Running();
      assert Sound(s.collectors[j]);
      assert s.collectors[j].alive && r.collectors[j].alive;
    } else if Alive(r) {
      var j :| 0 <= j < |r.collectors| && r.collectors[j].alive;
      AliveRuns(s, j);
    }
  }

  // ----- All starts -------------------------------------------------------------------------------------

  /** A start that does not fail leaves the attempt running, with what it launched alive. */
  lemma WellStart(r: Runner, test: Test, order: seq<nat>, answers: seq<Answer>)
    requires Amid(r, order, answers) && Staffed(r, test) && r.status == Running && !r.late
    requires order != [] && !Fails(test, answers, order[0])
    ensures var s := StartOne(r, order[0], answers[order[0]]);
            && Amid(s, order[1..], answers) && Flows(r, s) && s.status == Running && !s.late
            && (Alive(s) <==> Alive(r) || Lasts(test, answers, order[0]))
  {
    hide StartOne, Tidy, Flows, Fails;
    var i := order[0];
    var s := StartOne(r, i, answers[i]);
    AmidNext(r, order, answers);
    StartOneFlows(r, i, answers[i]);
    StartOneLeaves(r, test, i, answers);
    StartOneAlone(r, i, answers[i]);
    if Alive(s) {
      var j :| 0 <= j < |s.collectors| && s.collectors[j].alive;
      assert j != i ==> r.collectors[j].alive;
    }
    if Alive(r) {
      var j :| 0 <= j < |r.collectors| && r.collectors[j].alive;
      assert s.collectors[j].alive;
    }
    assert Lasts(test, answers, i) ==> s.collectors[i].alive;
  }

  /** If none fails, the attempt runs and nothing was late. */
  lemma {:induction false} StartsWell(r: Runner, test: Test, order: seq<nat>, answers: seq<Answer>)
    requires Amid(r, order, answers) && Staffed(r, test) && r.status == Running && !r.late
    requires forall k :: 0 <= k < |order| ==> !Fails(test, answers, order[k])
    ensures StartFrom(r, order, answers).status == Running && !StartFrom(r, order, answers).late
    decreases |order|
  {
    if order != [] {
      hide StartOne, Tidy, Flows, Fails, Staffed, Alive;
      WellStart(r, test, order, answers);
      var s := StartOne(r, order[0], answers[order[0]]);
      FlowsStaffed(r, s, test);
      StartsWell(s, test, order[1..], answers);
    }
  }

  lemma FirstFails(r: Runner, test: Test, order: seq<nat>, answers: seq<Answer>)
    requires Amid(r, order, answers) && Staffed(r, test) && r.status == Running && !r.late
    requires order != [] && Fails(test, answers, order[0])
    ensures var s := StartFrom(r, order, answers);
            && s.status == (if Alive(r) then Stopping else Finished(WasError))
            && (s.late <==> AnyLaunches(test, answers, order[1..]))
            && (InOrder(s) <==> !s.late)
            && (forall i :: i in order[1..] ==> Begun(s.collectors[i], test.plan[i], answers[i]))
  {
    hide StartOne, Tidy, Flows, Fails, Alive, InOrder, Over, Begun, AnyLaunches;
    var s := StartOne(r, order[0], answers[order[0]]);
    FailingStart(r, test, order, answers);
    FlowsStaffed(r, s, test);
    StartFromOver(s, test, order[1..], answers);
  }

  /** If the k-th is the first that fails, its failure decides the status and what starts after it the rest. */
  lemma {:induction false} StartsFail(r: Runner, test: Test, order: seq<nat>, answers: seq<Answer>, k: nat)
    requires Amid(r, order, answers) && Staffed(r, test) && r.status == Running && !r.late
    requires k < |order| && Fails(test, answers, order[k])
    requires forall i :: 0 <= i < k ==> !Fails(test, answers, order[i])
    ensures var s := StartFrom(r, order, answers);
            && s.status == (if Alive(r) || AnyLasts(test, answers, order[..k]) then Stopping else Finished(WasError))
            && (s.late <==> AnyLaunches(test, answers, order[k + 1..]))
            && (InOrder(s) <==> !s.late)
            && (forall i :: i in order[k + 1..] ==> Begun(s.collectors[i], test.plan[i], answers[i]))
    decreases |order|
  {
    hide StartOne, Tidy, Flows, Fails, Alive, InOrder, Over, Begun;
    var s := StartOne(r, order[0], answers[order[0]]);
    if k == 0 {
      FirstFails(r, test, order, answers);
    } else {
      hide AnyLasts, AnyLaunches, Lasts, Launches;
      WellStart(r, test, order, answers);
      FlowsStaffed(r, s, test);
      StartsFail(s, test, order[1..], answers, k - 1);
      assert order[1..][k..] == order[k + 1..];
      LastsFirst(test, answers, order, k);
    }
  }

  lemma LastsFirst(test: Test, answers: seq<Answer>, order: seq<nat>, k: nat)
    requires 0 < k <= |order|
    ensures AnyLasts(test, answers, order[..k])
            <==> Lasts(test, answers, order[0]) || AnyLasts(test, answers, order[1..][..k - 1])
  {
    hide Lasts;
    assert order[..k] == [order[0]] + order[1..][..k - 1];
    FirstOrRest(order[..k]);
  }

  // ----- The conditions, on the plan and the answers ----------------------------------------------------

  /** Collector i is started before collector j: workloads last, otherwise as in the plan. */
  predicate Before(test: Test, i: nat, j: nat) {
    i < |test.plan| && j < |test.plan| &&
    if test.plan[i].workload == test.plan[j].workload then i < j else test.plan[j].workload
  }

  ghost predicate LastsBefore(test: Test, answers: seq<Answer>, k: nat) {
    exists i :: Before(test, i, k) && Lasts(test, answers, i)
  }

  ghost predicate LaunchesAfter(test: Test, answers: seq<Answer>, k: nat) {
    exists j :: Before(test, k, j) && Launches(test, answers, j)
  }

  ghost predicate FailsFirst(test: Test, answers: seq<Answer>, k: nat) {
    Fails(test, answers, k) && forall i :: Before(test, i, k) ==> !Fails(test, answers, i)
  }

  /** The order in which start_all takes the collectors lists each once, each after those before it. */
  lemma OrderIsBefore(collectors: seq<Collector>, test: Test)
    requires |collectors| == |test.plan| && forall i :: 0 <= i < |test.plan| ==> collectors[i].spec == test.plan[i]
    ensures var order := StartOrder(collectors);
            && (forall i :: 0 <= i < |test.plan| ==> i in order)
            && (forall k :: 0 <= k < |order| ==> order[k] < |test.plan|)
            && forall j, k :: 0 <= j < k < |order| ==> Before(test, order[j], order[k])
  {
    var n := |collectors|;
    PlacesRise(collectors, false, n);
    PlacesRise(collectors, true, n);
    PlacesAll(collectors, false, n);
    PlacesAll(collectors, true, n);
    var others, loads := Places(collectors, false, n), Places(collectors, true, n);
    var order := others + loads;
    forall j, k | 0 <= j < k < |order| ensures Before(test, order[j], order[k]) {
      if j < |others| {
        assert order[j] == others[j];
      } else {
        assert order[j] == loads[j - |others|] < loads[k - |others|] == order[k];
      }
      if k < |others| {
        assert order[k] == others[k];
      } else {
        assert order[k] == loads[k - |others|];
      }
    }
  }

  /** What stands before and after a place in the order. */
  lemma AroundPlace(test: Test, order: seq<nat>, k: nat, i: nat)
    requires k < |order| && i < |test.plan| && i in order
    requires forall k :: 0 <= k < |order| ==> order[k] < |test.plan|
    requires forall j, k :: 0 <= j < k < |order| ==> Before(test, order[j], order[k])
    ensures i in order[..k] <==> Before(test, i, order[k])
    ensures i in order[k + 1..] <==> Before(test, order[k], i)
  {
    var at :| 0 <= at < |order| && order[at] == i;
    if at < k {
      assert order[..k][at] == i;
    } else if at > k {
      assert order[k + 1..][at - k - 1] == i;
    }
    if i in order[k + 1..] {
      var later :| 0 <= later < |order| - k - 1 && order[k + 1..][later] == i;
      assert order[k + 1 + later] == i;
    }
  }

  /** A start that happens. */
  predicate Starts(r: Runner, answers: seq<Answer>) {
    MayStart(r) && |answers| == |r.current.value.plan|
  }

  lemma Ready(r: Runner, answers: seq<Answer>)
    requires Starts(r, answers)
    ensures var t := Launchpad(r);
            && Amid(t, StartOrder(t.collectors), answers) && Staffed(t, r.current.value) && t.status == Running
            && !t.late && !Alive(t) && StartCurrent(r, true, answers) == StartFrom(t, StartOrder(t.collectors), answers)
  {
    hide StartFrom, StartOrder, StartCurrent, Tidy;
    AmidFirst(r, answers);
  }

  /** The first failure writes the result at once unless a process launched before it is alive. All collectors after
      it are started nevertheless, untold, and the attempt stays in order exactly if none of them is launched. */
  lemma StartFails(r: Runner, answers: seq<Answer>, k: nat)
    requires Starts(r, answers) && FailsFirst(r.current.value, answers, k)
    ensures var test, s := r.current.value, StartCurrent(r, true, answers);
            && s.status == (if LastsBefore(test, answers, k) then Stopping else Finished(WasError))
            && (s.late <==> LaunchesAfter(test, answers, k))
            && (InOrder(s) <==> !s.late)
            && |s.collectors| == |test.plan|
            && (forall j: nat :: Before(test, k, j) ==> Begun(s.collectors[j], test.plan[j], answers[j]))
  {
    hide StartCurrent, StartFrom, StartOrder, Amid, Lasts, InOrder, Alive, Begun;
    var test, t := r.current.value, Launchpad(r);
    var order := StartOrder(t.collectors);
    Ready(r, answers);
    OrderIsBefore(t.collectors, test);
    assert k in order;
    var at :| 0 <= at < |order| && order[at] == k;
    forall i | 0 <= i < |test.plan|
      ensures i in order[..at] <==> Before(test, i, k)
      ensures i in order[at + 1..] <==> Before(test, k, i)
    {
      AroundPlace(test, order, at, i);
    }
    StartsFail(t, test, order, answers, at);
  }

  /** Some collector is the first to fail, if any fails; without one the attempt runs. */
  lemma StartRuns(r: Runner, answers: seq<Answer>)
    requires Starts(r, answers)
    ensures (exists k :: FailsFirst(r.current.value, answers, k))
            || (StartCurrent(r, true, answers).status == Running && !StartCurrent(r, true, answers).late
                && forall i :: !Fails(r.current.value, answers, i))
  {
    hide StartCurrent, StartFrom, StartOrder, Amid, Alive;
    var test, t := r.current.value, Launchpad(r);
    var order := StartOrder(t.collectors);
    Ready(r, answers);
    OrderIsBefore(t.collectors, test);
    var n := 0;
    while n < |order| && !Fails(test, answers, order[n])
      invariant 0 <= n <= |order| && forall m :: 0 <= m < n ==> !Fails(test, answers, order[m])
    {
      n := n + 1;
    }
    if n == |order| {
      StartsWell(t, test, order, answers);
      forall i: nat ensures !Fails(test, answers, i) {
        if i < |test.plan| {
          assert i in order;
        }
      }
    } else {
      forall i | Before(test, i, order[n]) ensures !Fails(test, answers, i) {
        AroundPlace(test, order, n, i);
      }
      assert FailsFirst(test, answers, order[n]);
    }
  }

  lemma FirstDecides(r: Runner, answers: seq<Answer>)
    requires Starts(r, answers)
    ensures var test, s := r.current.value, StartCurrent(r, true, answers);
            && s.current == r.current
            && (s.status == Running || exists k :: FailsFirst(test, answers, k))
            && (forall k :: FailsFirst(test, answers, k) ==>
                  && s.status == (if LastsBefore(test, answers, k) then Stopping else Finished(WasError))
                  && (s.late <==> LaunchesAfter(test, answers, k))
                  && (InOrder(s) <==> !s.late))
  {
    hide StartCurrent, LaunchesAfter, LastsBefore, FailsFirst, InOrder;
    StartRuns(r, answers);
    StartSame(r, answers);
    forall k | FailsFirst(r.current.value, answers, k)
      ensures var test, s := r.current.value, StartCurrent(r, true, answers);
              && s.status == (if LastsBefore(test, answers, k) then Stopping else Finished(WasError))
              && (s.late <==> LaunchesAfter(test, answers, k))
              && (InOrder(s) <==> !s.late)
    {
      StartFails(r, answers, k);
    }
  }

  lemma StartSame(r: Runner, answers: seq<Answer>)
    requires Starts(r, answers)
    ensures StartCurrent(r, true, answers).current == r.current
  {
    hide StartFrom, StartOrder;
    Ready(r, answers);
    StartFromFlows(Launchpad(r), StartOrder(Launchpad(r).collectors), answers);
  }

  /** start_all takes the attempt out of Running exactly if some collector fails. */
  lemma StartEndsIff(r: Runner, answers: seq<Answer>)
    requires Starts(r, answers)
    ensures StartCurrent(r, true, answers).status != Running <==> exists k :: Fails(r.current.value, answers, k)
  {
    hide StartCurrent, LaunchesAfter, LastsBefore;
    FirstDecides(r, answers);
    StartRuns(r, answers);
  }

  /** A collector runs after the result was written exactly if it is launched after the first failure, before
      which no process was launched. */
  lemma RunsAfterResultIff(r: Runner, answers: seq<Answer>)
    requires Starts(r, answers)
    ensures var test, s := r.current.value, StartCurrent(r, true, answers);
            s.status.Finished? && !NoneRunning(s.collectors)
            <==> exists k :: FailsFirst(test, answers, k) && LaunchesAfter(test, answers, k)
                             && !LastsBefore(test, answers, k)
  {
    hide StartCurrent, LaunchesAfter, LastsBefore;
    FirstDecides(r, answers);
  }

  /** A collector runs untold in an attempt that is stopping exactly if it is launched after the first failure,
      before which a process was launched. */
  lemma RunsUntoldIff(r: Runner, answers: seq<Answer>)
    requires Starts(r, answers)
    ensures var test, s := r.current.value, StartCurrent(r, true, answers);
            s.status == Stopping && !Told(s, |s.collectors|)
            <==> exists k :: FailsFirst(test, answers, k) && LaunchesAfter(test, answers, k)
                             && LastsBefore(test, answers, k)
  {
    hide StartCurrent, LaunchesAfter, LastsBefore;
    FirstDecides(r, answers);
  }

  /** A collector is set running after the attempt has left Running exactly if it is launched after one that
      fails. That is also exactly when the attempt is left in disorder. */
  lemma StartsLateIff(r: Runner, answers: seq<Answer>)
    requires Starts(r, answers)
    ensures var test, s := r.current.value, StartCurrent(r, true, answers);
            && (s.late <==> exists k :: Fails(test, answers, k) && LaunchesAfter(test, answers, k))
            && (InOrder(s) <==> !s.late)
  {
    hide StartCurrent, Launches;
    FirstDecides(r, answers);
    StartRuns(r, answers);
    var test, s := r.current.value, StartCurrent(r, true, answers);
    if k :| Fails(test, answers, k) && LaunchesAfter(test, answers, k) {
      var first :| FailsFirst(test, answers, first);
      var j :| Before(test, k, j) && Launches(test, answers, j);
      assert Before(test, first, j);
    }
  }

  /** The workload w, or another collector further down the plan than i, is launched. */
  predicate FollowedBy(test: Test, answers: seq<Answer>, w: nat, i: nat) {
    Launches(test, answers, w) || exists j :: i < j < |answers| && j != w && Launches(test, answers, j)
  }

  /** Where the plan has its one workload: exactly a load-assisted attempt one of whose other collectors fails,
      and then the workload, or another collector further down the plan, is launched. */
  lemma LateIffAnotherFails(r: Runner, answers: seq<Answer>, w: nat)
    requires Starts(r, answers) && w < |answers|
    requires forall i :: 0 <= i < |answers| ==> (r.current.value.plan[i].workload <==> i == w)
    ensures var test := r.current.value;
            StartCurrent(r, true, answers).late
            <==> Assisted(r)
                 && (exists i :: i != w && Fails(test, answers, i) && FollowedBy(test, answers, w, i))
  {
    hide StartCurrent, Launches;
    StartsLateIff(r, answers);
    var test := r.current.value;
    assert forall i, j :: 0 <= i < |answers| && 0 <= j < |answers| ==>
      (Before(test, i, j) <==> i != w && (j == w || i < j));
    forall i | 0 <= i < |answers| && i != w
      ensures LaunchesAfter(test, answers, i) <==> FollowedBy(test, answers, w, i)
    {
    }
    assert !LaunchesAfter(test, answers, w);
  }

  // ----- Whole runs ---------------------------------------------------------------------------------------

  /** No start of this kind: a collector launched after one that fails. */
  ghost predicate Careful(r: Runner, e: Event) {
    e.EStart? && e.created && Starts(r, e.answers) ==>
      !exists k :: Fails(r.current.value, e.answers, k) && LaunchesAfter(r.current.value, e.answers, k)
  }

  ghost predicate CarefulRun(r: Runner, events: seq<Event>)
    decreases |events|
  {
    events == [] || (Careful(r, events[0]) && CarefulRun(Step(r, events[0]), events[1..]))
  }

  predicate AlwaysInOrder(r: Runner, events: seq<Event>)
    decreases |events|
  {
    InOrder(r) && (events == [] || AlwaysInOrder(Step(r, events[0]), events[1..]))
  }

  lemma OtherStepsOnTime(r: Runner, e: Event)
    requires Kept(r) && !r.late && (e.EStart? ==> !(e.created && Starts(r, e.answers)))
    ensures !Step(r, e).late
  {
    hide Leave, Happens;
    match e
    case EStop => if r.current.Some? && r.status == Running { LeaveFlows(r, WasStopped); }
    case EReview => if r.current.Some? && r.status == Running { LeaveFlows(r, NeedsReview); }
    case EHappens(i, h) => HappensFlows(r, i, h);
    case _ =>
  }

  lemma TidyInOrder(r: Runner)
    requires Tidy(r) && !r.late
    ensures InOrder(r)
  {
  }

  /** A step into disorder is a start that is not careful, and each such start is one. */
  lemma CarefulStepIff(r: Runner, e: Event)
    requires Kept(r) && Tidy(r) && !r.late
    ensures Careful(r, e) <==> InOrder(Step(r, e))
    ensures Careful(r, e) ==> !Step(r, e).late
  {
    hide StartCurrent, Tidy, InOrder, Starts, Fails, LaunchesAfter, Kept;
    StepTidy(r, e);
    if e.EStart? && e.created && Starts(r, e.answers) {
      StartsLateIff(r, e.answers);
    } else {
      OtherStepsOnTime(r, e);
      TidyInOrder(Step(r, e));
    }
  }

  lemma {:induction false} CarefulRunIff(r: Runner, events: seq<Event>)
    requires Kept(r) && Tidy(r) && !r.late
    ensures CarefulRun(r, events) <==> AlwaysInOrder(r, events)
    decreases |events|
  {
    hide Step, Kept, Tidy, Careful, InOrder;
    TidyInOrder(r);
    if events != [] {
      var s := Step(r, events[0]);
      StepKept(r, events[0]);
      StepTidy(r, events[0]);
      CarefulStepIff(r, events[0]);
      if Careful(r, events[0]) {
        CarefulRunIff(s, events[1..]);
      } else {
        DisorderShows(s, events[1..]);
      }
    }
  }

  lemma DisorderShows(r: Runner, events: seq<Event>)
    requires !InOrder(r)
    ensures !AlwaysInOrder(r, events)
  {
  }

  /** A run is in order all the time, nothing running once a result is written and everything told while stopping,
      exactly if no start in it launches a collector after one that fails. */
  lemma EveryRunInOrderIff(events: seq<Event>)
    ensures AlwaysInOrder(IDLE, events) <==> CarefulRun(IDLE, events)
  {
    assert IDLE.results[0..] == [];
    CarefulRunIff(IDLE, events);
  }

  // ----- What an untold collector does to a stopping attempt ------------------------------------------------

  /** The j-th collector runs although it was not told to stop. */
  predicate Untold(r: Runner, j: nat) {
    r.current.Some? && r.status == Stopping && j < |r.collectors| && r.collectors[j].Running()
    && !r.collectors[j].stopRequested
  }

  /** Only its own end moves such an attempt on: no event of another collector, no stop, no review. */
  lemma UntoldHolds(r: Runner, e: Event, j: nat)
    requires Kept(r) && Untold(r, j) && !(e.EHappens? && e.i == j)
    ensures var s := Step(r, e);
            Untold(s, j) && s.collectors[j] == r.collectors[j] && s.results == r.results && s.current == r.current
    ensures !e.EHappens? ==> Step(r, e) == r
  {
    if e.EHappens? {
      hide Kept;
      UntoldKept(r, e.i, e.h, j);
    }
  }

  lemma UntoldEnd(r: Runner, i: nat, status: CollectorStatus, j: nat)
    requires Untold(r, j) && i < |r.collectors| && i != j
    ensures var s := End(r, i, status);
            Untold(s, j) && s.collectors[j] == r.collectors[j] && s.results == r.results && s.current == r.current
            && |s.collectors| == |r.collectors|
  {
    var t := WithStatus(r, i, status);
    var marked := t.(collectors := t.collectors[i := t.collectors[i].(terminal := true)]);
    assert marked.collectors[j] == t.collectors[j] == r.collectors[j];
  }

  lemma UntoldKept(r: Runner, i: nat, h: Happening, j: nat)
    requires Untold(r, j) && i != j
    ensures var s := Happens(r, i, h);
            Untold(s, j) && s.collectors[j] == r.collectors[j] && s.results == r.results && s.current == r.current
  {
    if i < |r.collectors| {
      hide End;
      var c, dead := r.collectors[i], WithAlive(r, i, false);
      assert dead.collectors[j] == r.collectors[j];
      UntoldEnd(r, i, Completed, j);
      UntoldEnd(dead, i, Error, j);
      UntoldEnd(End(dead, i, Error), i, EndStatus(c, false), j);
      UntoldEnd(dead, i, EndStatus(c, false), j);
      UntoldEnd(dead, i, EndStatus(c, true), j);
    }
  }

  /** In every continuation without an event of that collector the attempt has no result. */
  lemma {:induction false} UntoldForever(r: Runner, events: seq<Event>, j: nat)
    requires Kept(r) && Untold(r, j)
    requires forall k :: 0 <= k < |events| ==> !(events[k].EHappens? && events[k].i == j)
    ensures Untold(Run(r, events), j) && Run(r, events).results == r.results && Run(r, events).current == r.current
    decreases |events|
  {
    if events != [] {
      hide Step, Kept, Untold;
      StepKept(r, events[0]);
      UntoldHolds(r, events[0], j);
      UntoldForever(Step(r, events[0]), events[1..], j);
    }
  }
}
