/** Which events end an attempt, and with which result. */
module StressVerdicts {
  import opened Options
  import LoadStrategy
  import opened StressProtocol
  import opened StressTheorems
  import opened StressSettled
  import opened StressStarts

  // ----- What an event makes of its collector -----------------------------------------------------

  /** This event of the process is an error of its collector. */
  predicate Errs(c: Collector, h: Happening) {
    c.alive
    && match h
       case Exited(ok) => !ok && !c.stopRequested && c.spec.failure == Error
       case Crashed => c.spec.kind == Process && !c.stopRequested
       case Failed => c.spec.kind == Remote || (c.status == Starting && !c.stopRequested)
       case _ => false
  }

  /** This event completes the collector: its process exits well without having been told to stop, or its time is
      over. */
  predicate Completes(c: Collector, h: Happening) {
    if h.Exited? then c.alive && h.ok && !c.stopRequested
    else h.TimerFired? && c.spec.kind == Observation && c.status == Active
  }

  /** The final status that this event fixes for a running attempt. */
  function HappeningVerdict(test: Test, c: Collector, h: Happening): Option<Final> {
    if Errs(c, h) && Decides(test, c.spec) then Some(WasError)
    else if Completes(c, h) && c.spec.workload && test.auto then Some(NeedsReview)
    else None
  }

  /** The final status that a step fixes: by the user's stop or review, by a collector's event while the attempt runs,
      or by a collector that fails while it starts. */
  ghost function Verdict(r: Runner, e: Event): Option<Final> {
    if r.current.None? then None
    else if e.EStart? then
      if e.created && Starts(r, e.answers) && exists k :: Fails(r.current.value, e.answers, k) then Some(WasError)
      else None
    else if r.status != Running then None
    else
      match e
      case EStop => Some(WasStopped)
      case EReview => Some(NeedsReview)
      case EHappens(i, h) =>
        if i < |r.collectors| then HappeningVerdict(r.current.value, r.collectors[i], h) else None
      case _ => None
  }

  /** The attempt leaves Running with this final status, or stays as it is. */
  predicate Gives(r: Runner, s: Runner, verdict: Option<Final>) {
    r.current.Some? && if verdict.Some? then Leaves(r, s, verdict.value) else Stays(r, s)
  }

  function StatusVerdict(test: Test, spec: Spec, status: CollectorStatus): Option<Final> {
    if status == Error && Decides(test, spec) then Some(WasError)
    else if status == Completed && spec.workload && test.auto then Some(NeedsReview)
    else None
  }

  lemma SetStatusGives(r: Runner, i: nat, status: CollectorStatus)
    requires i < |r.collectors| && r.current.Some? && r.status == Running
    ensures Gives(r, SetStatus(r, i, status), StatusVerdict(r.current.value, r.collectors[i].spec, status))
  {
    hide Leave;
    LeaveFlows(WithStatus(r, i, status), WasError);
    LeaveFlows(WithStatus(r, i, status), NeedsReview);
  }

  lemma EndGives(r: Runner, i: nat, status: CollectorStatus)
    requires i < |r.collectors| && r.current.Some? && r.status == Running
    ensures Gives(r, End(r, i, status), StatusVerdict(r.current.value, r.collectors[i].spec, status))
  {
    hide SetStatus;
    SetStatusGives(r, i, status);
    SetStatusFlows(r, i, status);
    var t := SetStatus(r, i, status);
    EmitFlows(t.(collectors := t.collectors[i := t.collectors[i].(terminal := true)]));
  }

  lemma CrashGives(r: Runner, i: nat)
    requires i < |r.collectors| && r.current.Some? && r.status == Running
    ensures Gives(r, Happens(r, i, Crashed), HappeningVerdict(r.current.value, r.collectors[i], Crashed))
  {
    hide End, SetStatus;
    var c := r.collectors[i];
    var dead := WithAlive(r, i, false);
    EndGives(dead, i, Error);
    EndGives(dead, i, EndStatus(c, false));
    EndFlows(dead, i, Error);
    var said := End(dead, i, Error);
    if said.status == Running {
      EndGives(said, i, EndStatus(c, false));
    } else {
      EndFlows(said, i, EndStatus(c, false));
    }
  }

  /** While the attempt runs: the workload of an automatic test that completes ends it for review; an error of the
      workload, or of any other collector while load is added, ends it as an error; no other event ends it. */
  lemma HappensGives(r: Runner, i: nat, h: Happening)
    requires i < |r.collectors| && r.current.Some? && r.status == Running && AllSound(r)
    ensures Gives(r, Happens(r, i, h), HappeningVerdict(r.current.value, r.collectors[i], h))
  {
    hide End, SetStatus, Leaves;
    assert Sound(r.collectors[i]);
    var c := r.collectors[i];
    var dead := WithAlive(r, i, false);
    match h
    case Started => SetStatusGives(r, i, Active);
    case TimerFired => EndGives(r, i, Completed);
    case Exited(ok) => EndGives(dead, i, EndStatus(c, ok)); SameBase(r, dead, Happens(r, i, h));
    case Crashed => CrashGives(r, i);
    case Failed => EndGives(dead, i, Error); SameBase(r, dead, Happens(r, i, h));
  }

  /** The status in which an event leaves its collector. */
  function StatusAfter(c: Collector, h: Happening): CollectorStatus {
    match h
    case Started => if c.alive && c.status == Starting then Active else c.status
    case TimerFired => if c.spec.kind == Observation && c.status == Active then Completed else c.status
    case Exited(ok) =>
      if !c.alive then c.status else if c.stopRequested then Stopped else if ok then Completed else c.spec.failure
    case Crashed =>
      if !c.alive || c.spec.kind != Process then c.status else if c.stopRequested then Stopped else c.spec.failure
    case Failed => if Errs(c, h) then Error else c.status
  }

  /** Events that end the process of their collector. */
  predicate Dies(c: Collector, h: Happening) {
    c.alive
    && match h
       case Exited(_) => true
       case Crashed => c.spec.kind == Process
       case Failed => c.spec.kind == Remote || c.status == Starting
       case _ => false
  }

  /** Whatever becomes of the attempt, the collector is left as its process's end says: stopped if it was told to stop,
      completed if it ended well, and otherwise with the ending its evidence is planned with. */
  lemma CollectorAfter(r: Runner, i: nat, h: Happening)
    requires Tidy(r) && i < |r.collectors|
    ensures var c, after := r.collectors[i], Happens(r, i, h).collectors[i];
            && after.status == StatusAfter(c, h) && after.spec == c.spec
            && after.alive == (c.alive && !Dies(c, h))
  {
    hide End, Tidy;
    var c := r.collectors[i];
    var dead := WithAlive(r, i, false);
    SoundAt(r, i);
    if h.Started? {
      QuietStatus(r, i, Active);
    } else if h.TimerFired? && c.spec.kind == Observation && c.status == Active {
      EndedTidy(r, i, Completed);
      EndTidy(r, i, Completed);
    } else if h.Crashed? && c.alive && c.spec.kind == Process {
      CrashedAfter(r, i);
    } else if h.Exited? && c.alive {
      EndedTidy(r, i, EndStatus(c, h.ok));
      EndTidy(dead, i, EndStatus(c, h.ok));
    } else if Errs(c, h) {
      EndedTidy(r, i, Error);
      EndTidy(dead, i, Error);
    }
  }

  lemma CrashedAfter(r: Runner, i: nat)
    requires Tidy(r) && i < |r.collectors| && r.collectors[i].alive && r.collectors[i].spec.kind == Process
    ensures var c, after := r.collectors[i], Happens(r, i, Crashed).collectors[i];
            && after.status == (if c.stopRequested then Stopped else c.spec.failure)
            && after.spec == c.spec && !after.alive
  {
    hide End, Tidy;
    var c := r.collectors[i];
    var dead := WithAlive(r, i, false);
    var status := EndStatus(c, false);
    if c.stopRequested {
      EndedTidy(r, i, status);
      EndTidy(dead, i, status);
    } else {
      EndedTidy(r, i, Error);
      EndTidy(dead, i, Error);
      var said := End(dead, i, Error);
      EndedTidy(said, i, status);
      assert WithAlive(said, i, false) == said;
      EndTidy(said, i, status);
    }
  }

  /** The status in which a start leaves its collector. */
  function StatusAtStart(spec: Spec, answer: Answer): CollectorStatus {
    match spec.kind
    case Manual => ManualRequired
    case Observation => Active
    case Process => if answer == Launched then Starting else if answer == Broken then Error else spec.unavailable
    case Remote => if answer == Launched then Starting else Error
  }

  /** Whatever becomes of the attempt, a start leaves its collector so. */
  lemma StartStatus(r: Runner, order: seq<nat>, answers: seq<Answer>)
    requires Amid(r, order, answers) && order != []
    ensures var i := order[0];
            var after := StartOne(r, i, answers[i]).collectors[i];
            after.status == StatusAtStart(r.collectors[i].spec, answers[i]) && after.spec == r.collectors[i].spec
  {
    hide End, SetStatus, Tidy;
    var i := order[0];
    var t := Noted(r, i, answers[i]);
    var spec := r.collectors[i].spec;
    LateTidy(r);
    QuietStatus(t, i, Starting);
    QuietStatus(t, i, Active);
    if spec.kind == Manual {
      FirstStatus(t, i, ManualRequired);
      EndTidy(t, i, ManualRequired);
    } else if spec.kind == Process && answers[i] == Refused {
      FirstStatus(t, i, spec.unavailable);
      EndTidy(t, i, spec.unavailable);
    } else if spec.kind != Observation && answers[i] != Launched {
      FirstStatus(t, i, Error);
      assert WithStatus(WithStatus(t, i, Starting), i, Error) == WithStatus(t, i, Error);
      EndTidy(WithStatus(t, i, Starting), i, Error);
    }
  }

  // ----- Who may begin ------------------------------------------------------------------------------

  /** An attempt starts exactly if a test is prepared, its evidence can be collected and, where the load is adaptive,
      the decision is known and the stress tool is there if it is needed; otherwise nothing changes. */
  lemma StartIff(r: Runner, created: bool, answers: seq<Answer>)
    requires Kept(r) && r.current.Some? && |answers| == |r.current.value.plan|
    ensures var test, s := r.current.value, StartCurrent(r, created, answers);
            var permitted := test.adaptive ==>
                  && test.decision.strategy != LoadStrategy.NeedsReview
                  && (test.decision.strategy == LoadStrategy.LoadAssist ==> test.decision.stressNg == Some(true));
            if r.status == Prepared && created && permitted then s.started == r.started + 1 && s.status != Prepared
            else s == r
  {
    if created && Starts(r, answers) {
      hide StartCurrent, Starts, Kept;
      StartMoves(r, answers);
      StartsOne(r, answers);
    } else {
      StartNothing(r, created, answers);
    }
  }

  lemma StartsOne(r: Runner, answers: seq<Answer>)
    requires Starts(r, answers)
    ensures StartCurrent(r, true, answers).started == r.started + 1
  {
    hide StartFrom, StartOrder, StartCurrent, Amid;
    Ready(r, answers);
    AmidPends(Launchpad(r), StartOrder(Launchpad(r).collectors), answers);
    StartFromFlows(Launchpad(r), StartOrder(Launchpad(r).collectors), answers);
  }

  /** A selection is taken exactly if it is allowed, not empty, and no test is under way or waiting for its
      successor. */
  lemma EnqueueIff(r: Runner, tests: seq<Test>, allowed: bool)
    ensures var s := Enqueue(r, tests, allowed);
            if allowed && tests != [] && (r.current.None? || r.status == Prepared) then
              && s.selected == tests && s.current == Some(tests[0]) && s.queue == tests[1..] && s.status == Prepared
              && s.results == r.results && s.started == r.started
            else s == r
  {
  }

  // ----- Every step -------------------------------------------------------------------------------

  /** What a step that fixes no final status does: nothing to the results, and it leaves no attempt. */
  predicate Undecided(r: Runner, s: Runner) {
    && (r.current.Some? && r.status == Running ==> s.status == Running && s.current == r.current)
    && (r.current.Some? && r.status == Stopping ==>
          s.current == r.current && (s.status == Stopping ==> s.pending == r.pending))
    && (!(r.current.Some? && r.status == Stopping) ==>
          s.results == r.results && !(s.current.Some? && s.status == Stopping))
  }

  /** Every step does to the attempt what its verdict says: one that fixes a final status takes the attempt out of
      Running with it, and no other step ends an attempt that is running. */
  lemma StepVerdict(r: Runner, e: Event)
    requires Kept(r) && Tidy(r)
    ensures Verdict(r, e).Some? ==> Leaves(r, Step(r, e), Verdict(r, e).value) && Step(r, e).current == r.current
    ensures Verdict(r, e).None? ==> Undecided(r, Step(r, e))
  {
    hide Conserved, StartCurrent, Happens, Leave, Leaves, Starts, Fails;
    match e
    case EStart(created, answers) => StartVerdict(r, created, answers);
    case EStop => if r.current.Some? && r.status == Running { LeaveFlows(r, WasStopped); }
    case EReview => if r.current.Some? && r.status == Running { LeaveFlows(r, NeedsReview); }
    case EHappens(i, h) => HappensVerdict(r, i, h);
    case _ =>
  }

  lemma HappensVerdict(r: Runner, i: nat, h: Happening)
    requires Kept(r) && Tidy(r)
    ensures var verdict := Verdict(r, EHappens(i, h));
            if verdict.Some? then Leaves(r, Happens(r, i, h), verdict.value) && Happens(r, i, h).current == r.current
            else Undecided(r, Happens(r, i, h))
  {
    hide Conserved, Happens;
    KeptPends(r);
    HappensFlows(r, i, h);
    if i < |r.collectors| {
      if r.current.Some? && r.status == Running {
        HappensGives(r, i, h);
      }
    } else {
      BeyondAll(r, i, h);
    }
  }

  lemma BeyondAll(r: Runner, i: nat, h: Happening)
    requires i >= |r.collectors|
    ensures Happens(r, i, h) == r
  {
  }

  lemma StartVerdict(r: Runner, created: bool, answers: seq<Answer>)
    requires Kept(r)
    ensures var verdict := Verdict(r, EStart(created, answers));
            var s := StartCurrent(r, created, answers);
            if verdict.Some? then Leaves(r, s, verdict.value) && s.current == r.current else Undecided(r, s)
  {
    hide Conserved, StartCurrent, Fails;
    if created && Starts(r, answers) {
      StartEndsIff(r, answers);
      StartExit(r, created, answers);
      StartSame(r, answers);
      StartMoves(r, answers);
    } else {
      StartNothing(r, created, answers);
    }
  }

  lemma StartMoves(r: Runner, answers: seq<Answer>)
    requires Starts(r, answers)
    ensures StartCurrent(r, true, answers).status != Prepared
  {
    hide StartFrom, StartOrder, StartCurrent, Amid;
    Ready(r, answers);
    AmidPends(Launchpad(r), StartOrder(Launchpad(r).collectors), answers);
    StartFromFlows(Launchpad(r), StartOrder(Launchpad(r).collectors), answers);
  }

  lemma AmidPends(r: Runner, order: seq<nat>, answers: seq<Answer>)
    requires Amid(r, order, answers)
    ensures Pended(r) && |answers| == |r.collectors| && forall k :: 0 <= k < |order| ==> order[k] < |r.collectors|
  {
  }

  lemma StartNothing(r: Runner, created: bool, answers: seq<Answer>)
    requires !(created && Starts(r, answers))
    ensures StartCurrent(r, created, answers) == r
  {
  }

  // ----- Every run --------------------------------------------------------------------------------

  /** How many of these results have this final status. */
  function ResultsWith(results: seq<Result>, final: Final): nat {
    if results == [] then 0
    else ResultsWith(results[..|results| - 1], final) + (if results[|results| - 1].final == final then 1 else 0)
  }

  /** Those and the one still due, if the attempt that is stopping will end so. */
  function SoFar(r: Runner, final: Final): nat {
    ResultsWith(r.results, final)
    + (if r.current.Some? && r.status == Stopping && r.pending == Some(final) then 1 else 0)
  }

  /** How many events of a run fix this final status. */
  ghost function Verdicts(r: Runner, events: seq<Event>, final: Final): nat
    decreases |events|
  {
    if events == [] then 0
    else (if Verdict(r, events[0]) == Some(final) then 1 else 0) + Verdicts(Step(r, events[0]), events[1..], final)
  }

  lemma OneMoreResult(results: seq<Result>, result: Result, final: Final)
    ensures ResultsWith(results + [result], final)
            == ResultsWith(results, final) + (if result.final == final then 1 else 0)
  {
    assert (results + [result])[..|results|] == results;
  }

  lemma LeavesCounted(r: Runner, s: Runner, verdict: Final, final: Final)
    requires r.current.Some? && r.status != Stopping && s.current == r.current && Leaves(r, s, verdict)
    ensures SoFar(s, final) == SoFar(r, final) + (if verdict == final then 1 else 0)
  {
    OneMoreResult(r.results, Result(r.current.value, verdict), final);
  }

  lemma StepCounted(r: Runner, e: Event, final: Final)
    requires Kept(r) && Tidy(r)
    ensures SoFar(Step(r, e), final) == SoFar(r, final) + (if Verdict(r, e) == Some(final) then 1 else 0)
  {
    hide Step, Kept, Tidy, ResultsWith, Leaves, Starts, Fails;
    var s := Step(r, e);
    StepVerdict(r, e);
    if Verdict(r, e).Some? {
      VerdictWhen(r, e);
      LeavesCounted(r, s, Verdict(r, e).value, final);
    } else if r.current.Some? && r.status == Stopping {
      StoppingStep(r, e);
      OneMoreResult(r.results, Result(r.current.value, r.pending.value), final);
    }
  }

  lemma VerdictWhen(r: Runner, e: Event)
    requires Verdict(r, e).Some?
    ensures r.current.Some? && r.status != Stopping
  {
  }

  /** In every run there are, for each final status, exactly as many results with it, one still due included, as events
      that fix it. */
  lemma {:induction false} RunCounted(r: Runner, events: seq<Event>, final: Final)
    requires Kept(r) && Tidy(r)
    ensures SoFar(Run(r, events), final) == SoFar(r, final) + Verdicts(r, events, final)
    decreases |events|
  {
    if events != [] {
      hide Step, Kept, Tidy, Verdict, SoFar;
      StepKept(r, events[0]);
      StepTidy(r, events[0]);
      StepCounted(r, events[0], final);
      RunCounted(Step(r, events[0]), events[1..], final);
    }
  }

  lemma EveryRunCounted(events: seq<Event>, final: Final)
    ensures SoFar(Run(IDLE, events), final) == Verdicts(IDLE, events, final)
  {
    assert IDLE.results[0..] == [];
    RunCounted(IDLE, events, final);
  }

  lemma {:induction false} NoStopNoVerdict(r: Runner, events: seq<Event>)
    requires forall k :: 0 <= k < |events| ==> !events[k].EStop?
    ensures Verdicts(r, events, WasStopped) == 0
    decreases |events|
  {
    if events != [] {
      NoStopNoVerdict(Step(r, events[0]), events[1..]);
    }
  }

  lemma {:induction false} NoneWith(results: seq<Result>, final: Final)
    requires ResultsWith(results, final) == 0
    ensures forall k :: 0 <= k < |results| ==> results[k].final != final
  {
    if results != [] {
      NoneWith(results[..|results| - 1], final);
      assert results == results[..|results| - 1] + [results[|results| - 1]];
    }
  }

  /** So nothing is ever STOPPED without the user. */
  lemma NeverStoppedAlone(events: seq<Event>)
    requires forall k :: 0 <= k < |events| ==> !events[k].EStop?
    ensures var r := Run(IDLE, events); forall k :: 0 <= k < |r.results| ==> r.results[k].final != WasStopped
  {
    hide ResultsWith, Verdict;
    EveryRunCounted(events, WasStopped);
    NoStopNoVerdict(IDLE, events);
    NoneWith(Run(IDLE, events).results, WasStopped);
  }
}
