/** The stress-test run protocol: one queue, one attempt at a time, and the collectors of that attempt. */
module StressProtocol {
  import opened Options
  import LoadStrategy

  // ----- Collectors -----------------------------------------------------------------------------

  datatype Kind = Manual | Observation | Process | Remote

  datatype CollectorStatus =
    Waiting | Starting | Active | Completed | Warning | Error | Stopped | NotApplicable | ManualRequired

  /** How a collector may end without having been stopped or completed. */
  type Ending = s: CollectorStatus | s == Warning || s == Error || s == NotApplicable witness Error

  /** One entry of an evidence plan. */
  datatype Spec = Spec(workload: bool, kind: Kind, unavailable: Ending, failure: Ending)

  /** alive: the started process has not ended. terminal: a local process has reported its end. */
  datatype Collector = Collector(
    spec: Spec, status: CollectorStatus, alive: bool, stopRequested: bool, terminal: bool)
  {
    predicate Running() {
      if spec.kind == Process then alive else status == Starting || status == Active
    }
  }

  /** What starting a collector meets: nothing to run or no connection, an immediate failure, or a process. */
  datatype Answer = Refused | Broken | Launched

  /** Starting this collector sets something running. */
  predicate Runs(spec: Spec, answer: Answer) {
    match spec.kind
    case Manual => false
    case Observation => true
    case Process => answer == Launched
    case Remote => answer == Launched
  }

  datatype Happening = Started | Exited(ok: bool) | Crashed | Failed | TimerFired

  function Built(plan: seq<Spec>): (collectors: seq<Collector>)
    ensures |collectors| == |plan|
    ensures forall i :: 0 <= i < |plan| ==> collectors[i] == Fresh(plan[i])
  {
    if plan == [] then [] else Built(plan[..|plan| - 1]) + [Fresh(plan[|plan| - 1])]
  }

  function Fresh(spec: Spec): Collector {
    Collector(spec, if spec.kind == Manual then ManualRequired else Waiting, false, false, false)
  }

  // ----- The runner -----------------------------------------------------------------------------

  datatype Test = Test(
    id: nat, auto: bool, adaptive: bool, decision: LoadStrategy.Decision, plan: seq<Spec>)

  datatype Final = NeedsReview | WasStopped | WasError

  /** Runtime status of the current test. */
  datatype Status = Prepared | Running | Stopping | Finished(final: Final)

  datatype Result = Result(test: Test, final: Final)

  datatype Runner = Runner(
    queue: seq<Test>, current: Option<Test>, status: Status, pending: Option<Final>, collectors: seq<Collector>,
    prepareDue: bool,
    // History: all results so far, how many of them are older than the present selection, what was selected
    // and discarded, how many attempts were started, and whether a collector of the present attempt was set
    // running after the attempt had left Running.
    results: seq<Result>, base: nat, selected: seq<Test>, discarded: seq<Test>, started: nat, late: bool)

  const IDLE: Runner := Runner([], None, Prepared, None, [], false, [], 0, [], [], 0, false)

  function WithStatus(r: Runner, i: nat, status: CollectorStatus): Runner
    requires i < |r.collectors|
  {
    r.(collectors := r.collectors[i := r.collectors[i].(status := status)])
  }

  function WithAlive(r: Runner, i: nat, alive: bool): Runner
    requires i < |r.collectors|
  {
    r.(collectors := r.collectors[i := r.collectors[i].(alive := alive)])
  }

  predicate NoneRunning(collectors: seq<Collector>) {
    forall i :: 0 <= i < |collectors| ==> !collectors[i].Running()
  }

  function Finalize(r: Runner, final: Final): Runner {
    if r.current.None? then r
    else r.(status := Finished(final), results := r.results + [Result(r.current.value, final)], prepareDue := true)
  }

  function OnAllStopped(r: Runner): Runner {
    if r.current.Some? && r.status == Stopping then
      Finalize(r, if r.pending.Some? then r.pending.value else NeedsReview)
    else r
  }

  function EmitIfStopped(r: Runner): Runner {
    if NoneRunning(r.collectors) then OnAllStopped(r) else r
  }

  /** Asking one collector to stop. An observation stops at once; a process is only asked. The status change
      itself has no effect on a runner that is no longer Running. */
  function StopOne(r: Runner, i: nat): (s: Runner)
    requires i < |r.collectors|
    ensures |s.collectors| == |r.collectors|
  {
    var c := r.collectors[i];
    if c.spec.kind == Manual || !c.Running() then r
    else if c.spec.kind == Observation then EmitIfStopped(WithStatus(r, i, Stopped))
    else r.(collectors := r.collectors[i := c.(stopRequested := true)])
  }

  function StopFrom(r: Runner, i: nat): (s: Runner)
    requires i <= |r.collectors|
    ensures |s.collectors| == |r.collectors|
    decreases |r.collectors| - i
  {
    if i == |r.collectors| then r else StopFrom(StopOne(r, i), i + 1)
  }

  function StopAll(r: Runner): (s: Runner)
    ensures |s.collectors| == |r.collectors|
  {
    EmitIfStopped(StopFrom(r, 0))
  }

  function Leave(r: Runner, final: Final): (s: Runner)
    ensures |s.collectors| == |r.collectors|
  {
    StopAll(r.(pending := Some(final), status := Stopping))
  }

  predicate Assisted(r: Runner) {
    r.current.Some? && r.current.value.decision.strategy == LoadStrategy.LoadAssist
  }

  /** How the runner reacts to a changed collector record. */
  function OnEvidenceChanged(r: Runner, i: nat): (s: Runner)
    requires i < |r.collectors|
    ensures |s.collectors| == |r.collectors|
  {
    var c := r.collectors[i];
    if r.current.None? || r.status != Running then r
    else if Assisted(r) && !c.spec.workload && c.status == Error then Leave(r, WasError)
    else if r.current.value.auto && c.spec.workload && c.status == Completed then Leave(r, NeedsReview)
    else if r.current.value.auto && c.spec.workload && c.status == Error then Leave(r, WasError)
    else r
  }

  function SetStatus(r: Runner, i: nat, status: CollectorStatus): (s: Runner)
    requires i < |r.collectors|
    ensures |s.collectors| == |r.collectors|
  {
    OnEvidenceChanged(WithStatus(r, i, status), i)
  }

  /** A local process reports its end once; the others report every end. */
  function ReportEnd(r: Runner, i: nat): (s: Runner)
    requires i < |r.collectors|
    ensures |s.collectors| == |r.collectors|
  {
    var c := r.collectors[i];
    if c.spec.kind == Process && c.terminal then r
    else EmitIfStopped(r.(collectors := r.collectors[i := c.(terminal := true)]))
  }

  function End(r: Runner, i: nat, status: CollectorStatus): (s: Runner)
    requires i < |r.collectors|
    ensures |s.collectors| == |r.collectors|
  {
    ReportEnd(SetStatus(r, i, status), i)
  }

  /** The history notes a collector that is set running late. */
  function Noted(r: Runner, i: nat, answer: Answer): Runner
    requires i < |r.collectors|
  {
    if r.status == Running || !Runs(r.collectors[i].spec, answer) then r else r.(late := true)
  }

  function StartOne(r: Runner, i: nat, answer: Answer): (s: Runner)
    requires i < |r.collectors|
    ensures |s.collectors| == |r.collectors|
  {
    var t := Noted(r, i, answer);
    match t.collectors[i].spec.kind
    case Manual => End(t, i, ManualRequired)
    case Observation => SetStatus(t, i, Active)
    case Process =>
      if answer == Refused then End(t, i, t.collectors[i].spec.unavailable)
      else if answer == Broken then End(SetStatus(t, i, Starting), i, Error)
      else WithAlive(SetStatus(t, i, Starting), i, true)
    case Remote =>
      if answer != Launched then End(SetStatus(t, i, Starting), i, Error)
      else WithAlive(SetStatus(t, i, Starting), i, true)
  }

  /** Collectors start in plan order, the workload after all others. */
  function StartOrder(collectors: seq<Collector>): (order: seq<nat>)
    ensures forall k :: 0 <= k < |order| ==> order[k] < |collectors|
  {
    Places(collectors, false, |collectors|) + Places(collectors, true, |collectors|)
  }

  function Places(collectors: seq<Collector>, workload: bool, n: nat): (places: seq<nat>)
    requires n <= |collectors|
    ensures forall k :: 0 <= k < |places| ==> places[k] < n && collectors[places[k]].spec.workload == workload
  {
    if n == 0 then []
    else Places(collectors, workload, n - 1) + (if collectors[n - 1].spec.workload == workload then [n - 1] else [])
  }

  function StartFrom(r: Runner, order: seq<nat>, answers: seq<Answer>): (s: Runner)
    requires (forall k :: 0 <= k < |order| ==> order[k] < |r.collectors|) && |answers| == |r.collectors|
    ensures |s.collectors| == |r.collectors|
    decreases |order|
  {
    if order == [] then r else StartFrom(StartOne(r, order[0], answers[order[0]]), order[1..], answers)
  }

  function PrepareNext(r: Runner): Runner {
    if r.queue == [] then r.(current := None, prepareDue := false, collectors := [])
    else r.(current := Some(r.queue[0]), queue := r.queue[1..], status := Prepared, prepareDue := false,
            collectors := [])
  }

  function Discard(r: Runner): Runner {
    if r.current.None? || r.status != Prepared then r
    else r.(discarded := r.discarded + [r.current.value] + r.queue, current := None, queue := [], pending := None,
            collectors := [])
  }

  predicate Busy(r: Runner) {
    r.current.Some? && (r.status == Running || r.status == Stopping)
  }

  function Enqueue(r: Runner, tests: seq<Test>, allowed: bool): Runner {
    if Busy(r) || tests == [] || !allowed then r
    else if r.current.Some? && r.status != Prepared then r
    else PrepareNext(r.(queue := tests, current := None, collectors := [],
                        pending := if r.current.Some? then None else r.pending,
                        base := |r.results|, selected := tests, discarded := []))
  }

  predicate MayStart(r: Runner) {
    && r.current.Some? && r.status == Prepared
    && (r.current.value.adaptive ==> r.current.value.decision.CanStart())
  }

  function StartCurrent(r: Runner, created: bool, answers: seq<Answer>): Runner {
    if !MayStart(r) || !created || |answers| != |r.current.value.plan| then r
    else
      var t := r.(status := Running, pending := None, collectors := Built(r.current.value.plan),
                  started := r.started + 1, late := false);
      StartFrom(t, StartOrder(t.collectors), answers)
  }

  function Stop(r: Runner): Runner {
    if r.current.None? || r.status != Running then r else Leave(r, WasStopped)
  }

  function FinishForReview(r: Runner): Runner {
    if r.current.None? || r.status != Running then r else Leave(r, NeedsReview)
  }

  function EndStatus(c: Collector, ok: bool): CollectorStatus {
    if c.stopRequested then Stopped else if ok then Completed else c.spec.failure
  }

  /** A process event; one that the process in question cannot produce changes nothing. */
  function Happens(r: Runner, i: nat, h: Happening): Runner {
    if i >= |r.collectors| then r
    else
      var c := r.collectors[i];
      match h
      case Started => if c.alive && c.status == Starting then SetStatus(r, i, Active) else r
      case Exited(ok) => if c.alive then End(WithAlive(r, i, false), i, EndStatus(c, ok)) else r
      case Crashed =>
        if c.spec.kind != Process || !c.alive then r
        else
          var dead := WithAlive(r, i, false);
          End(if c.stopRequested then dead else End(dead, i, Error), i, EndStatus(c, false))
      case TimerFired => if c.spec.kind == Observation && c.status == Active then End(r, i, Completed) else r
      case Failed =>
        if !c.alive then r
        else if c.spec.kind == Remote then End(WithAlive(r, i, false), i, Error)
        else if c.status != Starting then r
        else if c.stopRequested then WithAlive(r, i, false)
        else End(WithAlive(r, i, false), i, Error)
  }

  datatype Event =
    | EEnqueue(tests: seq<Test>, allowed: bool)
    | EDiscard
    | EStart(created: bool, answers: seq<Answer>)
    | EStop
    | EReview
    | EHappens(i: nat, h: Happening)
    | EPrepareNext

  function Step(r: Runner, e: Event): Runner {
    match e
    case EEnqueue(tests, allowed) => Enqueue(r, tests, allowed)
    case EDiscard => Discard(r)
    case EStart(created, answers) => StartCurrent(r, created, answers)
    case EStop => Stop(r)
    case EReview => FinishForReview(r)
    case EHappens(i, h) => Happens(r, i, h)
    case EPrepareNext => if r.prepareDue then PrepareNext(r) else r
  }

  function Run(r: Runner, events: seq<Event>): Runner
    decreases |events|
  {
    if events == [] then r else Run(Step(r, events[0]), events[1..])
  }

  // ----- How one step may move the runner -------------------------------------------------------

  /** The parts of the runner no collector activity touches. */
  predicate SameTask(r: Runner, s: Runner) {
    && s.queue == r.queue && s.current == r.current && s.selected == r.selected && s.discarded == r.discarded
    && s.started == r.started && s.base == r.base && |s.collectors| == |r.collectors|
    && forall i :: 0 <= i < |r.collectors| ==> s.collectors[i].spec == r.collectors[i].spec
  }

  /** The attempt is where it was. */
  predicate Stays(r: Runner, s: Runner) {
    s.status == r.status && s.pending == r.pending && s.results == r.results && s.prepareDue == r.prepareDue
  }

  /** The attempt has just got its one result. */
  predicate Ends(r: Runner, s: Runner, final: Final)
    requires r.current.Some?
  {
    && s.status == Finished(final) && s.pending == Some(final) && s.prepareDue
    && s.results == r.results + [Result(r.current.value, final)]
  }

  predicate Leaves(r: Runner, s: Runner, final: Final)
    requires r.current.Some?
  {
    (s.status == Stopping && s.pending == Some(final) && s.results == r.results && s.prepareDue == r.prepareDue)
    || Ends(r, s, final)
  }

  /** What collector activity may do to an attempt: nothing; leave Running with a final status; or, when
      already stopping, end with the final status fixed then. */
  predicate Flows(r: Runner, s: Runner) {
    && SameTask(r, s)
    && (Stays(r, s)
        || (r.current.Some? && r.status == Running
            && (Leaves(r, s, NeedsReview) || Leaves(r, s, WasStopped) || Leaves(r, s, WasError)))
        || (r.current.Some? && r.status == Stopping && r.pending.Some? && Ends(r, s, r.pending.value)))
  }

  predicate Pended(r: Runner) {
    r.current.Some? && r.status == Stopping ==> r.pending.Some?
  }

  lemma FlowsTwice(r: Runner, s: Runner, t: Runner)
    requires Flows(r, s) && Flows(s, t)
    ensures Flows(r, t)
  {
  }

  lemma FlowsStay(r: Runner)
    ensures Flows(r, r)
  {
  }

  lemma AliveFlows(r: Runner, i: nat, alive: bool)
    requires i < |r.collectors|
    ensures Flows(r, WithAlive(r, i, alive)) && (Pended(r) ==> Pended(WithAlive(r, i, alive)))
    ensures WithAlive(r, i, alive).late == r.late
  {
  }

  lemma LateFlows(r: Runner, t: Runner)
    requires t == r || t == r.(late := true)
    ensures Flows(r, t) && (Pended(r) ==> Pended(t))
  {
  }

  lemma EmitFlows(r: Runner)
    requires Pended(r)
    ensures Flows(r, EmitIfStopped(r)) && EmitIfStopped(r).collectors == r.collectors
    ensures EmitIfStopped(r).late == r.late && Pended(EmitIfStopped(r))
  {
  }

  lemma StopOneFlows(r: Runner, i: nat)
    requires i < |r.collectors| && Pended(r)
    ensures Flows(r, StopOne(r, i)) && StopOne(r, i).late == r.late && Pended(StopOne(r, i))
  {
    EmitFlows(WithStatus(r, i, Stopped));
  }

  lemma {:induction false} StopFromFlows(r: Runner, i: nat)
    requires i <= |r.collectors| && Pended(r)
    ensures Flows(r, StopFrom(r, i)) && StopFrom(r, i).late == r.late && Pended(StopFrom(r, i))
    decreases |r.collectors| - i
  {
    if i < |r.collectors| {
      StopOneFlows(r, i);
      StopFromFlows(StopOne(r, i), i + 1);
      FlowsTwice(r, StopOne(r, i), StopFrom(r, i));
    }
  }

  lemma LeaveFlows(r: Runner, final: Final)
    requires r.current.Some? && r.status == Running
    ensures SameTask(r, Leave(r, final)) && Leaves(r, Leave(r, final), final)
    ensures Leave(r, final).late == r.late && Pended(Leave(r, final))
  {
    var t := r.(pending := Some(final), status := Stopping);
    StopFromFlows(t, 0);
    EmitFlows(StopFrom(t, 0));
    FlowsTwice(t, StopFrom(t, 0), Leave(r, final));
  }

  lemma SetStatusFlows(r: Runner, i: nat, status: CollectorStatus)
    requires i < |r.collectors| && Pended(r)
    ensures Flows(r, SetStatus(r, i, status)) && SetStatus(r, i, status).late == r.late
    ensures Pended(SetStatus(r, i, status))
  {
    hide Leave;
    var t := WithStatus(r, i, status);
    if r.current.Some? && r.status == Running {
      LeaveFlows(t, WasError);
      LeaveFlows(t, NeedsReview);
    }
  }

  lemma EndFlows(r: Runner, i: nat, status: CollectorStatus)
    requires i < |r.collectors| && Pended(r)
    ensures Flows(r, End(r, i, status)) && End(r, i, status).late == r.late && Pended(End(r, i, status))
  {
    SetStatusFlows(r, i, status);
    var t := SetStatus(r, i, status);
    var marked := t.(collectors := t.collectors[i := t.collectors[i].(terminal := true)]);
    EmitFlows(marked);
    FlowsTwice(r, t, marked);
    FlowsTwice(r, marked, EmitIfStopped(marked));
  }

  lemma StartOneFlows(r: Runner, i: nat, answer: Answer)
    requires i < |r.collectors| && Pended(r)
    ensures Flows(r, StartOne(r, i, answer)) && Pended(StartOne(r, i, answer))
    ensures StartOne(r, i, answer).late == (r.late || (r.status != Running && Runs(r.collectors[i].spec, answer)))
  {
    hide Flows, End, SetStatus, WithAlive, Pended;
    var t := Noted(r, i, answer);
    LateFlows(r, t);
    var c := t.collectors[i].spec;
    SetStatusFlows(t, i, Starting);
    var begun := SetStatus(t, i, Starting);
    EndFlows(begun, i, Error);
    FlowsTwice(t, begun, End(begun, i, Error));
    AliveFlows(begun, i, true);
    FlowsTwice(t, begun, WithAlive(begun, i, true));
    SetStatusFlows(t, i, Active);
    EndFlows(t, i, ManualRequired);
    EndFlows(t, i, c.unavailable);
    FlowsTwice(r, t, StartOne(r, i, answer));
  }

  lemma {:induction false} StartFromFlows(r: Runner, order: seq<nat>, answers: seq<Answer>)
    requires (forall k :: 0 <= k < |order| ==> order[k] < |r.collectors|) && |answers| == |r.collectors| && Pended(r)
    ensures Flows(r, StartFrom(r, order, answers)) && Pended(StartFrom(r, order, answers))
    ensures r.late ==> StartFrom(r, order, answers).late
    decreases |order|
  {
    if order != [] {
      var s := StartOne(r, order[0], answers[order[0]]);
      StartOneFlows(r, order[0], answers[order[0]]);
      StartFromFlows(s, order[1..], answers);
      FlowsTwice(r, s, StartFrom(r, order, answers));
    }
  }

  lemma CrashFlows(r: Runner, i: nat)
    requires Pended(r) && i < |r.collectors|
    ensures Flows(r, Happens(r, i, Crashed)) && Happens(r, i, Crashed).late == r.late && Pended(Happens(r, i, Crashed))
  {
    hide Flows, End, SetStatus, Pended, EndStatus;
    var c := r.collectors[i];
    var dead := WithAlive(r, i, false);
    AliveFlows(r, i, false);
    EndFlows(dead, i, Error);
    FlowsTwice(r, dead, End(dead, i, Error));
    var said := if c.stopRequested then dead else End(dead, i, Error);
    EndFlows(said, i, EndStatus(c, false));
    FlowsTwice(r, said, End(said, i, EndStatus(c, false)));
    FlowsStay(r);
  }

  lemma HappensFlows(r: Runner, i: nat, h: Happening)
    requires Pended(r)
    ensures Flows(r, Happens(r, i, h)) && Happens(r, i, h).late == r.late && Pended(Happens(r, i, h))
  {
    if i < |r.collectors| {
      hide Flows, End, SetStatus, Pended, EndStatus, SameTask, Stays;
      var c := r.collectors[i];
      match h
      case Started => SetStatusFlows(r, i, Active); FlowsStay(r);
      case TimerFired => EndFlows(r, i, Completed); FlowsStay(r);
      case Crashed => CrashFlows(r, i);
      case Exited(ok) => EndedFlows(r, i, EndStatus(c, ok)); FlowsStay(r);
      case Failed => EndedFlows(r, i, Error); AliveFlows(r, i, false); FlowsStay(r);
    } else {
      FlowsStay(r);
    }
  }

  lemma EndedFlows(r: Runner, i: nat, status: CollectorStatus)
    requires Pended(r) && i < |r.collectors|
    ensures var s := End(WithAlive(r, i, false), i, status); Flows(r, s) && s.late == r.late && Pended(s)
  {
    hide Flows, End, Pended;
    var dead := WithAlive(r, i, false);
    AliveFlows(r, i, false);
    EndFlows(dead, i, status);
    FlowsTwice(r, dead, End(dead, i, status));
  }
}
