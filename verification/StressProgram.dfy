/** The stress-test runner and the evidence manager of its present attempt, as a program. */
module StressProgram {
  import opened Options
  import LoadStrategy
  import opened StressProtocol
  import opened StressTheorems
  import opened StressSettled

  class StressTestRunner {
    var queue: seq<Test>
    var current: Option<Test>
    var status: Status
    var pendingFinal: Option<Final>
    var collectors: seq<Collector>
    var prepareDue: bool
    var results: seq<Result>
    ghost var base: nat
    ghost var selected: seq<Test>
    ghost var discarded: seq<Test>
    ghost var started: nat
    ghost var late: bool

    ghost function View(): Runner
      reads this
    {
      Runner(queue, current, status, pendingFinal, collectors, prepareDue, results, base, selected, discarded, started,
             late)
    }

    /** The state every run keeps. */
    ghost predicate Valid()
      reads this
    {
      Kept(View()) && Tidy(View())
    }

    constructor ()
      ensures View() == IDLE && Valid()
    {
      queue, current, status, pendingFinal, collectors := [], None, Prepared, None, [];
      prepareDue, results := false, [];
      base, selected, discarded, started, late := 0, [], [], 0, false;
      new;
      assert IDLE.results[0..] == [];
    }

    // ----- Evidence manager ---------------------------------------------------------------------

    method EmitIfStopped()
      modifies this
      ensures View() == StressProtocol.EmitIfStopped(old(View()))
    {
      var i := 0;
      while i < |collectors|
        invariant 0 <= i <= |collectors|
        invariant forall j :: 0 <= j < i ==> !collectors[j].Running()
      {
        if collectors[i].Running() {
          return;
        }
        i := i + 1;
      }
      OnAllStopped();
    }

    method StopOne(i: nat)
      requires i < |collectors|
      modifies this
      ensures View() == StressProtocol.StopOne(old(View()), i)
    {
      var c := collectors[i];
      match c.spec.kind
      case Manual =>
      case Observation =>
        if c.Running() {
          collectors := collectors[i := c.(status := Stopped)];
          EmitIfStopped();
        }
      case Process =>
        if c.Running() {
          collectors := collectors[i := c.(stopRequested := true)];
        }
      case Remote =>
        if c.Running() {
          collectors := collectors[i := c.(stopRequested := true)];
        }
    }

    method StopAll()
      modifies this
      ensures View() == StressProtocol.StopAll(old(View()))
    {
      var i := 0;
      while i < |collectors|
        invariant 0 <= i <= |collectors|
        invariant StopFrom(View(), i) == StopFrom(old(View()), 0)
        decreases |collectors| - i
      {
        StopOne(i);
        i := i + 1;
      }
      EmitIfStopped();
    }

    method SetStatus(i: nat, s: CollectorStatus)
      requires i < |collectors|
      modifies this
      ensures View() == StressProtocol.SetStatus(old(View()), i, s)
    {
      collectors := collectors[i := collectors[i].(status := s)];
      OnEvidenceChanged(i);
    }

    method End(i: nat, s: CollectorStatus)
      requires i < |collectors|
      modifies this
      ensures View() == StressProtocol.End(old(View()), i, s)
    {
      SetStatus(i, s);
      var c := collectors[i];
      if c.spec.kind == Process && c.terminal {
        return;
      }
      collectors := collectors[i := c.(terminal := true)];
      EmitIfStopped();
    }

    method SetAlive(i: nat, alive: bool)
      requires i < |collectors|
      modifies this
      ensures View() == WithAlive(old(View()), i, alive)
    {
      collectors := collectors[i := collectors[i].(alive := alive)];
    }

    method StartOne(i: nat, answer: Answer)
      requires i < |collectors|
      modifies this
      ensures View() == StressProtocol.StartOne(old(View()), i, answer)
    {
      hide StressProtocol.End, StressProtocol.SetStatus;
      var spec := collectors[i].spec;
      late := late || (status != Running && Runs(spec, answer));
      match spec.kind
      case Manual => End(i, ManualRequired);
      case Observation => SetStatus(i, Active);
      case Process =>
        if answer == Refused {
          End(i, spec.unavailable);
        } else {
          SetStatus(i, Starting);
          if answer == Broken {
            End(i, Error);
          } else {
            SetAlive(i, true);
          }
        }
      case Remote =>
        SetStatus(i, Starting);
        if answer != Launched {
          End(i, Error);
        } else {
          SetAlive(i, true);
        }
    }

    /** The collectors in plan order, with the workload moved behind the others. */
    method Ordered() returns (order: seq<nat>)
      ensures order == StartOrder(collectors)
    {
      var others, workloads := [], [];
      for i := 0 to |collectors|
        invariant others == Places(collectors, false, i) && workloads == Places(collectors, true, i)
      {
        if collectors[i].spec.workload {
          workloads := workloads + [i];
        } else {
          others := others + [i];
        }
      }
      order := others + workloads;
    }

    method StartAll(answers: seq<Answer>)
      requires |answers| == |collectors|
      modifies this
      ensures View() == StartFrom(old(View()), StartOrder(old(collectors)), answers)
    {
      var order := Ordered();
      StartOrderDistinct(collectors);
      var k := 0;
      hide StressProtocol.StartOne, Places;
      while k < |order|
        invariant 0 <= k <= |order| && |collectors| == |answers|
        invariant StartFrom(View(), order[k..], answers) == StartFrom(old(View()), order, answers)
      {
        assert order[k..][1..] == order[k + 1..];
        StartOne(order[k], answers[order[k]]);
        k := k + 1;
      }
    }

    // ----- Runner ---------------------------------------------------------------------------------

    method FinalizeCurrent(final: Final)
      modifies this
      ensures View() == Finalize(old(View()), final)
    {
      if current.None? {
        return;
      }
      status := Finished(final);
      results := results + [Result(current.value, final)];
      prepareDue := true;
    }

    method OnAllStopped()
      modifies this
      ensures View() == StressProtocol.OnAllStopped(old(View()))
    {
      if current.Some? && status == Stopping {
        FinalizeCurrent(if pendingFinal.Some? then pendingFinal.value else NeedsReview);
      }
    }

    method Leave(final: Final)
      modifies this
      ensures View() == StressProtocol.Leave(old(View()), final)
    {
      pendingFinal, status := Some(final), Stopping;
      StopAll();
    }

    method OnEvidenceChanged(i: nat)
      requires i < |collectors|
      modifies this
      ensures View() == StressProtocol.OnEvidenceChanged(old(View()), i)
    {
      if current.None? || status != Running {
        return;
      }
      var c, test := collectors[i], current.value;
      if test.decision.strategy == LoadStrategy.LoadAssist && !c.spec.workload && c.status == Error {
        Leave(WasError);
      } else if test.auto && c.spec.workload && (c.status == Completed || c.status == Error) {
        Leave(if c.status == Completed then NeedsReview else WasError);
      }
    }

    method PrepareNext()
      modifies this
      ensures View() == StressProtocol.PrepareNext(old(View()))
    {
      prepareDue, collectors := false, [];
      if queue == [] {
        current := None;
      } else {
        current, queue, status := Some(queue[0]), queue[1..], Prepared;
      }
    }

    method DiscardPrepared() returns (ok: bool)
      requires Valid()
      modifies this
      ensures View() == Discard(old(View())) && Valid()
      ensures ok == (old(current).Some? && old(status) == Prepared)
    {
      StepKept(View(), EDiscard);
      StepTidy(View(), EDiscard);
      if current.None? || status != Prepared {
        return false;
      }
      discarded := discarded + [current.value] + queue;
      current, queue, pendingFinal, collectors := None, [], None, [];
      return true;
    }

    method Enqueue(tests: seq<Test>, allowed: bool) returns (ok: bool)
      requires Valid()
      modifies this
      ensures View() == StressProtocol.Enqueue(old(View()), tests, allowed) && Valid()
      ensures ok == (tests != [] && allowed && (old(current).None? || old(status) == Prepared))
      ensures ok ==> current == Some(tests[0]) && status == Prepared && queue == tests[1..]
    {
      StepKept(View(), EEnqueue(tests, allowed));
      StepTidy(View(), EEnqueue(tests, allowed));
      hide Kept, Tidy;
      if current.Some? && (status == Running || status == Stopping) {
        return false;
      }
      if tests == [] || !allowed {
        return false;
      }
      if current.Some? {
        if status != Prepared {
          return false;
        }
        var _ := DiscardPrepared();
      }
      queue := tests;
      base, selected, discarded := |results|, tests, [];
      PrepareNext();
      return true;
    }

    method StartCurrent(created: bool, answers: seq<Answer>) returns (ok: bool)
      requires Valid() && (current.Some? ==> |answers| == |current.value.plan|)
      modifies this
      ensures View() == StressProtocol.StartCurrent(old(View()), created, answers) && Valid()
      ensures ok == (MayStart(old(View())) && created)
    {
      StepKept(View(), EStart(created, answers));
      StepTidy(View(), EStart(created, answers));
      hide StartFrom, StartOrder, Kept, Tidy, Built;
      if current.None? || status != Prepared {
        return false;
      }
      if current.value.adaptive && !current.value.decision.CanStart() {
        return false;
      }
      if !created {
        return false;
      }
      Launch(answers);
      return true;
    }

    method Launch(answers: seq<Answer>)
      requires current.Some? && |answers| == |current.value.plan|
      modifies this
      ensures View() == StartFrom(Launchpad(old(View())), StartOrder(Launchpad(old(View())).collectors), answers)
    {
      hide StartFrom, StartOrder;
      status, pendingFinal, collectors, started, late := Running, None, Built(current.value.plan), started + 1, false;
      assert View() == Launchpad(old(View()));
      StartAll(answers);
    }

    method FinishForReview()
      requires Valid()
      modifies this
      ensures View() == StressProtocol.FinishForReview(old(View())) && Valid()
    {
      StepKept(View(), EReview);
      StepTidy(View(), EReview);
      if current.Some? && status == Running {
        Leave(NeedsReview);
      }
    }

    method Stop()
      requires Valid()
      modifies this
      ensures View() == StressProtocol.Stop(old(View())) && Valid()
    {
      StepKept(View(), EStop);
      StepTidy(View(), EStop);
      if current.Some? && status == Running {
        Leave(WasStopped);
      }
    }

    /** The zero timer that a written result starts. */
    method OnPrepareTimer()
      requires Valid()
      modifies this
      ensures View() == Step(old(View()), EPrepareNext) && Valid()
    {
      StepKept(View(), EPrepareNext);
      StepTidy(View(), EPrepareNext);
      if prepareDue {
        PrepareNext();
      }
    }

    method EndProcess(i: nat, s: CollectorStatus)
      requires i < |collectors|
      modifies this
      ensures View() == StressProtocol.End(WithAlive(old(View()), i, false), i, s)
    {
      hide StressProtocol.End;
      SetAlive(i, false);
      End(i, s);
    }

    /** A process that crashes reports an error first and then its exit. */
    method Crash(i: nat)
      requires i < |collectors| && collectors[i].spec.kind == Process && collectors[i].alive
      modifies this
      ensures View() == Happens(old(View()), i, Crashed)
    {
      hide StressProtocol.End;
      var c := collectors[i];
      if c.stopRequested {
        EndProcess(i, Stopped);
      } else {
        EndProcess(i, Error);
        End(i, c.spec.failure);
      }
    }

    method OnCollector(i: nat, h: Happening)
      requires Valid()
      modifies this
      ensures View() == Happens(old(View()), i, h) && Valid()
    {
      hide StressProtocol.End, StressProtocol.SetStatus, Kept, Tidy;
      StepKept(View(), EHappens(i, h));
      StepTidy(View(), EHappens(i, h));
      if i >= |collectors| {
        return;
      }
      var c := collectors[i];
      match h
      case Started =>
        if c.alive && c.status == Starting {
          SetStatus(i, Active);
        }
      case Exited(ok) =>
        if c.alive {
          EndProcess(i, if c.stopRequested then Stopped else if ok then Completed else c.spec.failure);
        }
      case Crashed =>
        if c.spec.kind == Process && c.alive {
          Crash(i);
        }
      case TimerFired =>
        if c.spec.kind == Observation && c.status == Active {
          End(i, Completed);
        }
      case Failed =>
        if c.alive && (c.spec.kind == Remote || c.status == Starting) {
          if c.spec.kind == Remote || !c.stopRequested {
            EndProcess(i, Error);
          } else {
            SetAlive(i, false);
          }
        }
    }
  }
}
