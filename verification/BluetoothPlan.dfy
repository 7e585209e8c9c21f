/** The Bluetooth test plan: one test at a time, answered at once or later, stopped at any moment. */
module BluetoothPlan {
  import opened Options

  type Id = string

  datatype Status = Ready | Running | Pass | Fail | Skipped | Error | NotImplemented

  /** The status of a completed test. */
  type Outcome = s: Status | s != Ready && s != Running witness Pass

  /** A completion, and whether its evidence can be written. */
  datatype Completion = Completion(outcome: Outcome, written: bool)

  /** A published result. genuine: it answers the probe that was started for this very test. */
  datatype Published = Published(id: Id, status: Outcome, genuine: bool)

  datatype State = State(
    managed: bool, statuses: map<Id, Status>, results: map<Id, Outcome>, running: bool, queue: seq<Id>,
    current: Option<Id>, stop: bool, session: bool,
    // History: probes started, the latest of them, and those not yet answered; results published, and how many
    // before the present plan; the plan, and what a stop skipped and dropped; plans begun and finished.
    probes: nat, probe: nat, inFlight: map<nat, Id>, published: seq<Published>, base: nat, plan: seq<Id>,
    skipped: Option<Id>, dropped: seq<Id>, begun: nat, finished: nat)

  function Fresh(managed: bool, known: set<Id>): State {
    State(managed, map id | id in known :: Ready, map[], false, [], None, false, false,
          0, 0, map[], [], 0, [], None, [], 0, 0)
  }

  function SetStatus(s: State, id: Id, status: Status): State {
    s.(statuses := s.statuses[id := status])
  }

  function FinishPlan(s: State): State {
    if !s.running then s else s.(running := false, finished := s.finished + 1)
  }

  /** A result whose evidence cannot be written is published as an error. */
  function Publish(s: State, id: Id, c: Completion, genuine: bool): State {
    var stored: Outcome := if s.session && c.written then c.outcome else Error;
    SetStatus(s, id, stored)
      .(results := s.results[id := stored], published := s.published + [Published(id, stored, genuine)])
  }

  /** The next test becomes current and its probe is sent. */
  function Probe(s: State): State
    requires s.queue != []
  {
    SetStatus(s, s.queue[0], Running)
      .(current := Some(s.queue[0]), queue := s.queue[1..], probe := s.probes, probes := s.probes + 1,
        inFlight := s.inFlight[s.probes := s.queue[0]])
  }

  /** The probe p was sent for this test and has not been answered. */
  predicate Sent(s: State, id: Id, p: nat) {
    p in s.inFlight && s.inFlight[p] == id
  }

  /** The completion of the current test. */
  function Receive(s: State, id: Id, p: nat, c: Completion): State {
    Publish(s.(inFlight := s.inFlight - {p}, current := None), id, c, Sent(s, id, p) && p == s.probe)
  }

  /** answers: for each probe sent during this step, its completion, if it comes before the call returns. */
  function StartNext(s: State, answers: seq<Option<Completion>>): State
    decreases |s.queue|
  {
    if s.stop || s.queue == [] then FinishPlan(s)
    else if !s.managed then
      StartNext(Publish(s.(queue := s.queue[1..], current := None), s.queue[0], Completion(Error, true), true), answers)
    else if answers == [] || answers[0].None? then Probe(s)
    else StartNext(Receive(Probe(s), s.queue[0], s.probes, answers[0].value), answers[1..])
  }

  function Known(s: State, ids: seq<Id>): seq<Id> {
    if ids == [] then []
    else Known(s, ids[..|ids| - 1]) + (if ids[|ids| - 1] in s.statuses then [ids[|ids| - 1]] else [])
  }

  function Select(s: State, ids: seq<Id>, session: bool, answers: seq<Option<Completion>>): State {
    var selected := Known(s, ids);
    if s.running || selected == [] then s
    else StartNext(Selected(s, selected, session), answers)
  }

  function Selected(s: State, plan: seq<Id>, session: bool): State {
    s.(queue := plan, stop := false, running := true, session := session, base := |s.published|, plan := plan,
       skipped := None, dropped := [], begun := s.begun + 1)
  }

  function Stop(s: State): State {
    if !s.running then s
    else
      var t := s.(stop := true, queue := [], dropped := s.queue);
      FinishPlan(if t.current.None? then t
                 else SetStatus(t, t.current.value, Skipped).(current := None, skipped := t.current))
  }

  /** A completion is matched by the test's identifier alone; p is the probe it answers, if any. */
  function Complete(s: State, id: Id, p: nat, c: Completion, answers: seq<Option<Completion>>): State {
    if s.current != Some(id) then s.(inFlight := s.inFlight - {p}) else StartNext(Receive(s, id, p, c), answers)
  }

  datatype Event =
    | ESelect(ids: seq<Id>, session: bool, answers: seq<Option<Completion>>)
    | EStop
    | EComplete(id: Id, p: nat, c: Completion, answers: seq<Option<Completion>>)

  function Step(s: State, e: Event): State {
    match e
    case ESelect(ids, session, answers) => Select(s, ids, session, answers)
    case EStop => Stop(s)
    case EComplete(id, p, c, answers) => Complete(s, id, p, c, answers)
  }

  function Run(s: State, events: seq<Event>): State
    decreases |events|
  {
    if events == [] then s else Run(Step(s, events[0]), events[1..])
  }

  // ----- What every step keeps --------------------------------------------------------------------------

  function Ids(published: seq<Published>): seq<Id> {
    if published == [] then [] else Ids(published[..|published| - 1]) + [published[|published| - 1].id]
  }

  function Opt(id: Option<Id>): seq<Id> {
    if id.None? then [] else [id.value]
  }

  /** The tests of the present plan that have a result. */
  function Done(s: State): seq<Id> {
    if s.base <= |s.published| then Ids(s.published[s.base..]) else []
  }

  /** The only test shown as running is the current one. */
  predicate OneRuns(s: State) {
    && (s.current.Some? ==> s.current.value in s.statuses)
    && forall id :: id in s.statuses ==> (s.statuses[id] == Running <==> s.current == Some(id))
  }

  /** Every selected test is published, current, waiting, skipped or dropped, in the order of selection. */
  predicate Conserved(s: State) {
    && s.base <= |s.published|
    && s.plan == Done(s) + Opt(s.current) + s.queue + Opt(s.skipped) + s.dropped
    && (s.skipped.Some? || s.dropped != [] ==> s.stop && !s.running)
  }

  predicate Accounted(s: State) {
    && s.begun == s.finished + (if s.running then 1 else 0)
    && (s.running ==> !s.stop)
    && (forall k :: 0 <= k < |s.queue| ==> s.queue[k] in s.statuses)
    && (forall p :: p in s.inFlight ==> s.inFlight[p] in s.statuses && p < s.probes)
  }

  predicate Underway(s: State) {
    OneRuns(s) && Conserved(s) && Accounted(s) && s.running
  }

  /** Between steps a plan is running exactly if it waits for the answer of its current test. */
  predicate Valid(s: State) {
    && OneRuns(s) && Conserved(s) && Accounted(s) && (s.running <==> s.current.Some?) && (!s.running ==> s.queue == [])
  }

  lemma DoneOneMore(s: State, id: Id, c: Completion, genuine: bool)
    requires s.base <= |s.published|
    ensures Done(Publish(s, id, c, genuine)) == Done(s) + [id]
  {
    var t := Publish(s, id, c, genuine);
    var before, after := s.published[s.base..], t.published[s.base..];
    assert after[..|after| - 1] == before;
  }

  lemma PublishKept(s: State, id: Id, rest: seq<Id>, c: Completion, genuine: bool)
    requires s.running && s.current.None? && id in s.statuses && Accounted(s.(queue := rest)) && s.queue == rest
    requires s.base <= |s.published| && s.skipped.None? && s.dropped == [] && s.plan == Done(s) + [id] + rest
    requires forall k :: k in s.statuses && k != id ==> s.statuses[k] != Running
    ensures Underway(Publish(s, id, c, genuine)) && Publish(s, id, c, genuine).current.None?
  {
    DoneOneMore(s, id, c, genuine);
    assert Done(s) + [id] + rest == Done(s) + [id] + [] + rest + [] + [];
  }

  lemma ProbeKept(s: State)
    requires Underway(s) && s.current.None? && s.queue != []
    ensures Underway(Probe(s)) && Probe(s).current == Some(s.queue[0])
  {
    hide Ids;
    var t := Probe(s);
    assert s.queue == [s.queue[0]] + s.queue[1..];
    assert Done(t) == Done(s);
    assert Done(s) + [] + s.queue + [] + [] == Done(s) + [s.queue[0]] + s.queue[1..] + [] + [];
  }

  lemma ReceiveKept(s: State, id: Id, p: nat, c: Completion)
    requires Underway(s) && s.current == Some(id)
    ensures var t := Receive(s, id, p, c); Underway(t) && t.current.None? && t.queue == s.queue
  {
    hide Ids;
    var t := s.(inFlight := s.inFlight - {p}, current := None);
    assert Done(t) == Done(s);
    assert Done(s) + Opt(s.current) + s.queue + [] + [] == Done(s) + [id] + s.queue;
    PublishKept(t, id, s.queue, c, Sent(s, id, p) && p == s.probe);
  }

  lemma FinishKept(s: State)
    requires Underway(s) && s.current.None? && s.queue == []
    ensures Valid(FinishPlan(s))
  {
    assert Done(FinishPlan(s)) == Done(s);
  }

  lemma LocalKept(s: State)
    requires Underway(s) && s.current.None? && s.queue != []
    ensures var t := Publish(s.(queue := s.queue[1..], current := None), s.queue[0], Completion(Error, true), true);
            Underway(t) && t.current.None?
  {
    hide Ids;
    var t := s.(queue := s.queue[1..], current := None);
    assert Done(t) == Done(s);
    assert s.queue == [s.queue[0]] + s.queue[1..];
    assert Done(s) + [] + s.queue + [] + [] == Done(s) + [s.queue[0]] + s.queue[1..];
    PublishKept(t, s.queue[0], s.queue[1..], Completion(Error, true), true);
  }

  lemma {:induction false} StartNextKept(s: State, answers: seq<Option<Completion>>)
    requires Underway(s) && s.current.None?
    ensures Valid(StartNext(s, answers))
    decreases |s.queue|
  {
    if s.queue == [] {
      FinishKept(s);
    } else if !s.managed {
      LocalKept(s);
      StartNextKept(
        Publish(s.(queue := s.queue[1..], current := None), s.queue[0], Completion(Error, true), true), answers);
    } else {
      ProbeKept(s);
      if answers != [] && answers[0].Some? {
        ReceiveKept(Probe(s), s.queue[0], s.probes, answers[0].value);
        StartNextKept(Receive(Probe(s), s.queue[0], s.probes, answers[0].value), answers[1..]);
      }
    }
  }

  lemma KnownIn(s: State, ids: seq<Id>)
    ensures forall k :: 0 <= k < |Known(s, ids)| ==> Known(s, ids)[k] in s.statuses
  {
  }

  lemma SelectedKept(s: State, plan: seq<Id>, session: bool)
    requires Valid(s) && !s.running && forall k :: 0 <= k < |plan| ==> plan[k] in s.statuses
    ensures Underway(Selected(s, plan, session)) && Selected(s, plan, session).current.None?
  {
    var t := Selected(s, plan, session);
    assert t.published[t.base..] == [];
    assert [] + [] + plan + [] + [] == plan;
  }

  lemma DoneSame(s: State, t: State)
    requires t.published == s.published && t.base == s.base
    ensures Done(t) == Done(s)
  {
  }

  lemma Dropped(done: seq<Id>, current: seq<Id>, queue: seq<Id>)
    ensures done + current + queue + [] + [] == done + [] + [] + current + queue
  {
  }

  lemma StopKept(s: State)
    requires Valid(s)
    ensures Valid(Stop(s))
  {
    if s.running {
      DoneSame(s, Stop(s));
      hide Done;
      Dropped(Done(s), Opt(s.current), s.queue);
    }
  }

  lemma StepKept(s: State, e: Event)
    requires Valid(s)
    ensures Valid(Step(s, e))
  {
    match e
    case ESelect(ids, session, answers) =>
      var plan := Known(s, ids);
      if !s.running && plan != [] {
        hide StartNext, Selected, OneRuns, Conserved, Accounted;
        KnownIn(s, ids);
        SelectedKept(s, plan, session);
        StartNextKept(Selected(s, plan, session), answers);
      }
    case EStop => StopKept(s);
    case EComplete(id, p, c, answers) =>
      if s.current == Some(id) {
        ReceiveKept(s, id, p, c);
        StartNextKept(Receive(s, id, p, c), answers);
      } else {
        assert Done(s.(inFlight := s.inFlight - {p})) == Done(s);
      }
  }

  lemma {:induction false} RunKept(s: State, events: seq<Event>)
    requires Valid(s)
    ensures Valid(Run(s, events))
    decreases |events|
  {
    if events != [] {
      StepKept(s, events[0]);
      RunKept(Step(s, events[0]), events[1..]);
    }
  }

  /** In every run, between steps: the only running test is the current one; no plan runs with nothing to wait
      for, and none is at rest with tests left; each plan finishes once; a plan that was not stopped has published
      one result for each selected test in order, and a stopped one those of a prefix, with at most one skipped. */
  lemma EveryRun(managed: bool, known: set<Id>, events: seq<Event>)
    ensures var s := Run(Fresh(managed, known), events);
            && OneRuns(s) && (s.running <==> s.current.Some?) && (!s.running ==> s.queue == [] && s.begun == s.finished)
            && s.base <= |s.published|
            && (!s.running && !s.stop ==> Ids(s.published[s.base..]) == s.plan)
            && (!s.running && s.stop ==> s.plan == Ids(s.published[s.base..]) + Opt(s.skipped) + s.dropped)
  {
    var s0 := Fresh(managed, known);
    assert s0.published[0..] == [];
    RunKept(s0, events);
    var s := Run(s0, events);
    if !s.running && !s.stop {
      assert Done(s) + [] + [] + [] + [] == Done(s);
    }
    if !s.running && s.stop {
      assert Done(s) + [] + [] + Opt(s.skipped) + s.dropped == Done(s) + Opt(s.skipped) + s.dropped;
    }
  }

  // ----- Whose answer is published ------------------------------------------------------------------------

  predicate AllGenuine(s: State) {
    forall k :: 0 <= k < |s.published| ==> s.published[k].genuine
  }

  /** While a plan runs, no probe but its current one is unanswered. */
  predicate OnlyCurrent(s: State) {
    s.running ==> forall p :: p in s.inFlight ==> s.current.Some? && p == s.probe
  }

  lemma {:induction false} StartNextGenuine(s: State, answers: seq<Option<Completion>>)
    requires AllGenuine(s) && s.inFlight == map[]
    ensures AllGenuine(StartNext(s, answers)) && OnlyCurrent(StartNext(s, answers))
    decreases |s.queue|
  {
    if !s.stop && s.queue != [] {
      if !s.managed {
        StartNextGenuine(
          Publish(s.(queue := s.queue[1..], current := None), s.queue[0], Completion(Error, true), true), answers);
      } else if answers != [] && answers[0].Some? {
        var t := Receive(Probe(s), s.queue[0], s.probes, answers[0].value);
        assert t.inFlight == map[];
        StartNextGenuine(t, answers[1..]);
      }
    }
  }

  /** No plan is begun while a probe of an earlier, stopped plan is still unanswered, and the manager completes
      only probes it was sent, each once. */
  predicate Patient(s: State, e: Event) {
    && (e.ESelect? && !s.running ==> s.inFlight == map[])
    && (e.EComplete? ==> Sent(s, e.id, e.p))
  }

  lemma StepGenuine(s: State, e: Event)
    requires Valid(s) && AllGenuine(s) && OnlyCurrent(s) && Patient(s, e)
    ensures AllGenuine(Step(s, e)) && OnlyCurrent(Step(s, e))
  {
    match e
    case ESelect(ids, session, answers) =>
      if !s.running && Known(s, ids) != [] {
        StartNextGenuine(Selected(s, Known(s, ids), session), answers);
      }
    case EStop =>
    case EComplete(id, p, c, answers) =>
      if s.current == Some(id) {
        var t := Receive(s, id, p, c);
        assert t.inFlight == map[];
        StartNextGenuine(t, answers);
      }
  }

  predicate PatientRun(s: State, events: seq<Event>)
    decreases |events|
  {
    events == [] || (Patient(s, events[0]) && PatientRun(Step(s, events[0]), events[1..]))
  }

  /** In a patient run every published result answers the probe that was sent for it. */
  lemma {:induction false} PatientIsGenuine(s: State, events: seq<Event>)
    requires Valid(s) && AllGenuine(s) && OnlyCurrent(s) && PatientRun(s, events)
    ensures AllGenuine(Run(s, events))
    decreases |events|
  {
    if events != [] {
      StepKept(s, events[0]);
      StepGenuine(s, events[0]);
      PatientIsGenuine(Step(s, events[0]), events[1..]);
    }
  }

  /** Patience is needed: whenever a plan could begin while an old probe is unanswered, selecting that probe's
      test lets the old answer be published as the result of the new test. */
  lemma ImpatientIsNot(s: State, p: nat, c: Completion)
    requires Valid(s) && s.managed && !s.running && p in s.inFlight
    ensures var t := Run(s, [ESelect([s.inFlight[p]], true, []), EComplete(s.inFlight[p], p, c, [])]);
            t.published != [] && !t.published[|t.published| - 1].genuine
  {
    var id := s.inFlight[p];
    var events := [ESelect([id], true, []), EComplete(id, p, c, [])];
    assert [id][..0] == [];
    assert Known(s, [id]) == [id];
    var t := Selected(s, [id], true);
    var u := Probe(t);
    assert Step(s, events[0]) == u;
    assert p != s.probes && u.inFlight[p] == id;
    assert Complete(u, id, p, c, []) == FinishPlan(Receive(u, id, p, c));
    assert events[1..] == [events[1]] && events[1..][1..] == [];
    assert Run(s, events) == Run(u, events[1..]) == Run(Step(u, events[1]), []);
  }

  /** A plan of one test, stopped while its probe is unanswered. */
  lemma ProbeLeft(id: Id)
    ensures var s := Run(Fresh(true, {id}), [ESelect([id], true, []), EStop]);
            Valid(s) && s.managed && !s.running && 0 in s.inFlight && s.inFlight[0] == id
  {
    var s0 := Fresh(true, {id});
    assert s0.published[0..] == [];
    FirstProbe(s0, id);
    var s1 := Probe(Selected(s0, [id], true));
    StepKept(s0, ESelect([id], true, []));
    StepKept(s1, EStop);
    hide Select, Selected, Probe, Valid;
    var events := [ESelect([id], true, []), EStop];
    assert events[1..] == [EStop] && [EStop][1..] == [];
    assert Run(s0, events) == Run(s1, [EStop]) == Run(Stop(s1), []);
  }

  lemma FirstProbe(s: State, id: Id)
    requires s == Fresh(true, {id})
    ensures var t := Probe(Selected(s, [id], true));
            Select(s, [id], true, []) == t && t.inFlight == map[0 := id] && t.managed
  {
    assert [id][..0] == [];
    assert Known(s, [id]) == [id];
  }

  /** Selected again, the plan publishes the answer to the old probe as its result. */
  lemma OldAnswerPublished(id: Id, c: Completion)
    ensures var again := [ESelect([id], true, []), EComplete(id, 0, c, [])];
            var s := Run(Fresh(true, {id}), [ESelect([id], true, []), EStop] + again);
            s.published != [] && !s.published[|s.published| - 1].genuine
  {
    var again := [ESelect([id], true, []), EComplete(id, 0, c, [])];
    hide Run, Valid;
    ProbeLeft(id);
    RunAppend(Fresh(true, {id}), [ESelect([id], true, []), EStop], again);
    ImpatientIsNot(Run(Fresh(true, {id}), [ESelect([id], true, []), EStop]), 0, c);
  }

  lemma {:induction false} RunAppend(s: State, a: seq<Event>, b: seq<Event>)
    ensures Run(s, a + b) == Run(Run(s, a), b)
    decreases |a|
  {
    if a == [] {
      assert a + b == b;
    } else {
      assert (a + b)[1..] == a[1..] + b;
      RunAppend(Step(s, a[0]), a[1..], b);
    }
  }

  // ----- What is published ----------------------------------------------------------------------------------

  /** What is stored for a completion: an error when there is no session or the evidence cannot be written. */
  function Stored(session: bool, c: Completion): Outcome {
    if !session || !c.written then Error else c.outcome
  }

  /** How many of the next tests are answered before their probes return. */
  function Prompt(queue: seq<Id>, answers: seq<Option<Completion>>): (k: nat)
    ensures k <= |queue| && k <= |answers| && forall i :: 0 <= i < k ==> answers[i].Some?
  {
    if queue == [] || answers == [] || answers[0].None? then 0 else 1 + Prompt(queue[1..], answers[1..])
  }

  /** The results that starting the next tests publishes. Without a manager all of them are errors. */
  function Results(s: State, answers: seq<Option<Completion>>): seq<Published> {
    if !s.managed then seq(|s.queue|, i requires 0 <= i < |s.queue| => Published(s.queue[i], Error, true))
    else
      var k := Prompt(s.queue, answers);
      seq(k, i requires 0 <= i < k => Published(s.queue[i], Stored(s.session, answers[i].value), true))
  }

  /** The parts of the state that say what is tested next and what has been published. */
  predicate Goes(s: State, t: State, published: seq<Published>, current: Option<Id>, queue: seq<Id>) {
    && t.published == published && t.current == current && t.queue == queue && t.session == s.session
    && t.managed == s.managed && t.stop == s.stop
  }

  lemma ReceiveGoes(s: State, id: Id, p: nat, c: Completion)
    ensures Goes(s, Receive(s, id, p, c),
                 s.published + [Published(id, Stored(s.session, c), Sent(s, id, p) && p == s.probe)], None, s.queue)
  {
  }

  lemma NextGoes(s: State, c: Completion)
    requires s.queue != []
    ensures Goes(s, Probe(s), s.published, Some(s.queue[0]), s.queue[1..])
    ensures Goes(s, Receive(Probe(s), s.queue[0], s.probes, c),
                 s.published + [Published(s.queue[0], Stored(s.session, c), true)], None, s.queue[1..])
    ensures Goes(s, Publish(s.(queue := s.queue[1..], current := None), s.queue[0], Completion(Error, true), true),
                 s.published + [Published(s.queue[0], Error, true)], None, s.queue[1..])
  {
    hide Publish, Receive;
    ReceiveGoes(Probe(s), s.queue[0], s.probes, c);
    LocalGoes(s);
  }

  lemma LocalGoes(s: State)
    requires s.queue != []
    ensures Goes(s, Publish(s.(queue := s.queue[1..], current := None), s.queue[0], Completion(Error, true), true),
                 s.published + [Published(s.queue[0], Error, true)], None, s.queue[1..])
  {
  }

  /** The plan ends, or its next test is waited for. */
  lemma NothingPrompt(s: State, answers: seq<Option<Completion>>)
    requires !s.stop && s.current.None? && (s.queue == [] || (s.managed && (answers == [] || answers[0].None?)))
    ensures Ran(s, StartNext(s, answers), answers)
  {
    assert Results(s, answers) == [];
    assert s.published + [] == s.published;
  }

  lemma ResultsMore(s: State, t: State, answers: seq<Option<Completion>>)
    requires s.queue != [] && t.queue == s.queue[1..] && t.session == s.session && t.managed == s.managed
    ensures !s.managed ==> Results(s, answers) == [Published(s.queue[0], Error, true)] + Results(t, answers)
    ensures s.managed && answers != [] && answers[0].Some? ==>
              && Prompt(s.queue, answers) == 1 + Prompt(t.queue, answers[1..])
              && Results(s, answers)
                 == [Published(s.queue[0], Stored(s.session, answers[0].value), true)] + Results(t, answers[1..])
  {
  }

  /** From s to t, test after test was published as it was answered, and the first that was not answered at once is
      waited for. */
  predicate Ran(s: State, t: State, answers: seq<Option<Completion>>) {
    var k := if s.managed then Prompt(s.queue, answers) else |s.queue|;
    Goes(s, t, s.published + Results(s, answers), if k < |s.queue| then Some(s.queue[k]) else None,
         if k < |s.queue| then s.queue[k + 1..] else [])
  }

  lemma RanLocal(s: State, t: State, u: State, answers: seq<Option<Completion>>)
    requires !s.managed && s.queue != [] && Ran(t, u, answers)
    requires Goes(s, t, s.published + [Published(s.queue[0], Error, true)], None, s.queue[1..])
    ensures Ran(s, u, answers)
  {
    hide Results, Prompt;
    ResultsMore(s, t, answers);
  }

  lemma RanPrompt(s: State, t: State, u: State, answers: seq<Option<Completion>>)
    requires s.managed && s.queue != [] && answers != [] && answers[0].Some? && Ran(t, u, answers[1..])
    requires Goes(s, t, s.published + [Published(s.queue[0], Stored(s.session, answers[0].value), true)], None,
                  s.queue[1..])
    ensures Ran(s, u, answers)
  {
    hide Results, Prompt;
    ResultsMore(s, t, answers);
  }

  lemma {:induction false} StartNextPublishes(s: State, answers: seq<Option<Completion>>)
    requires !s.stop && s.current.None?
    ensures Ran(s, StartNext(s, answers), answers)
    decreases |s.queue|
  {
    hide Publish, Receive, Probe, Ran;
    if s.queue == [] || (s.managed && (answers == [] || answers[0].None?)) {
      NothingPrompt(s, answers);
    } else if !s.managed {
      NextGoes(s, Completion(Error, true));
      var t := Publish(s.(queue := s.queue[1..], current := None), s.queue[0], Completion(Error, true), true);
      StartNextPublishes(t, answers);
      RanLocal(s, t, StartNext(t, answers), answers);
    } else {
      NextGoes(s, answers[0].value);
      var t := Receive(Probe(s), s.queue[0], s.probes, answers[0].value);
      StartNextPublishes(t, answers[1..]);
      RanPrompt(s, t, StartNext(t, answers[1..]), answers);
    }
  }

  /** The completion of the current test is published as its result, and then those of the tests after it that are
      answered at once; any other completion publishes nothing. */
  lemma CompletePublishes(s: State, id: Id, p: nat, c: Completion, answers: seq<Option<Completion>>)
    requires Valid(s)
    ensures var t := Complete(s, id, p, c, answers);
            t.published == s.published
              + (if s.current != Some(id) then []
                 else [Published(id, Stored(s.session, c), Sent(s, id, p) && p == s.probe)]
                      + Results(s, answers))
  {
    if s.current == Some(id) {
      hide Receive, StartNext, Valid;
      var t := Receive(s, id, p, c);
      ReceiveGoes(s, id, p, c);
      RunningUnstopped(s);
      StartNextPublishes(t, answers);
      assert Results(t, answers) == Results(s, answers);
    } else {
      assert s.published + [] == s.published;
    }
  }

  lemma RunningUnstopped(s: State)
    requires Valid(s) && s.current.Some?
    ensures !s.stop
  {
  }

  /** Of the tests asked for, the plan is made of those the catalogue knows. */
  lemma {:induction false} KnownCounts(s: State, ids: seq<Id>, id: Id)
    ensures multiset(Known(s, ids))[id] == if id in s.statuses then multiset(ids)[id] else 0
    ensures (forall x :: x in ids ==> x in s.statuses) ==> Known(s, ids) == ids
  {
    if ids != [] {
      var front, last := ids[..|ids| - 1], ids[|ids| - 1];
      KnownCounts(s, front, id);
      assert ids == front + [last];
    }
  }

  /** Beginning a plan publishes the results of the tests that are answered at once. */
  lemma SelectPublishes(s: State, ids: seq<Id>, session: bool, answers: seq<Option<Completion>>)
    requires Valid(s)
    ensures var t, plan := Select(s, ids, session, answers), Known(s, ids);
            if s.running || plan == [] then t == s
            else && t.plan == plan && t.session == session
                 && t.published == s.published + Results(s.(queue := plan, session := session), answers)
  {
    if !s.running && Known(s, ids) != [] {
      hide StartNext;
      var b := Selected(s, Known(s, ids), session);
      StartNextPublishes(b, answers);
      SamePlan(b, answers);
      assert Results(b, answers) == Results(s.(queue := b.queue, session := session), answers);
    }
  }

  lemma {:induction false} SamePlan(s: State, answers: seq<Option<Completion>>)
    ensures StartNext(s, answers).plan == s.plan
    decreases |s.queue|
  {
    if !s.stop && s.queue != [] {
      if !s.managed {
        SamePlan(
          Publish(s.(queue := s.queue[1..], current := None), s.queue[0], Completion(Error, true), true), answers);
      } else if answers != [] && answers[0].Some? {
        SamePlan(Receive(Probe(s), s.queue[0], s.probes, answers[0].value), answers[1..]);
      }
    }
  }

  /** The last published result of a test. */
  function LastShown(published: seq<Published>, id: Id): Option<Status> {
    if published == [] then None
    else if published[|published| - 1].id == id then Some(published[|published| - 1].status)
    else LastShown(published[..|published| - 1], id)
  }

  /** Every test but x has its last published result on display, was skipped by a stop, or was never run. */
  ghost predicate ShownBut(s: State, x: Option<Id>) {
    && (forall id :: id in s.results <==> LastShown(s.published, id).Some?)
    && (forall id :: id in s.results ==> LastShown(s.published, id) == Some(s.results[id]))
    && (forall id :: id in s.statuses && Some(id) != x ==>
          || s.statuses[id] == Skipped
          || LastShown(s.published, id) == Some(s.statuses[id])
          || (s.statuses[id] == Ready && id !in s.results))
  }

  lemma PublishShows(s: State, x: Id, c: Completion, genuine: bool)
    requires ShownBut(s, None) || ShownBut(s, Some(x))
    ensures ShownBut(Publish(s, x, c, genuine), None)
  {
    var t := Publish(s, x, c, genuine);
    assert t.published[..|t.published| - 1] == s.published;
  }

  lemma SameShown(s: State, t: State, x: Option<Id>)
    requires ShownBut(s, x) && t.results == s.results && t.statuses == s.statuses && t.published == s.published
    ensures ShownBut(t, x)
  {
  }

  lemma ProbeShows(s: State)
    requires ShownBut(s, None) && s.queue != []
    ensures ShownBut(Probe(s), Some(s.queue[0]))
  {
  }

  lemma {:induction false} StartNextShows(s: State, answers: seq<Option<Completion>>)
    requires ShownBut(s, None) && s.current.None?
    ensures ShownBut(StartNext(s, answers), StartNext(s, answers).current)
    decreases |s.queue|
  {
    hide ShownBut, Publish;
    if s.stop || s.queue == [] {
      SameShown(s, FinishPlan(s), None);
    } else if !s.managed {
      var front := s.(queue := s.queue[1..], current := None);
      SameShown(s, front, None);
      PublishShows(front, s.queue[0], Completion(Error, true), true);
      NextGoes(s, Completion(Error, true));
      StartNextShows(Publish(front, s.queue[0], Completion(Error, true), true), answers);
    } else {
      ProbeShows(s);
      if answers != [] && answers[0].Some? {
        NextGoes(s, answers[0].value);
        ReceiveShows(Probe(s), s.queue[0], s.probes, answers[0].value);
        StartNextShows(Receive(Probe(s), s.queue[0], s.probes, answers[0].value), answers[1..]);
      }
    }
  }

  lemma ReceiveShows(s: State, id: Id, p: nat, c: Completion)
    requires ShownBut(s, Some(id))
    ensures ShownBut(Receive(s, id, p, c), None)
  {
    hide ShownBut, Publish;
    var t := s.(inFlight := s.inFlight - {p}, current := None);
    SameShown(s, t, Some(id));
    PublishShows(t, id, c, Sent(s, id, p) && p == s.probe);
  }

  lemma StepShows(s: State, e: Event)
    requires Valid(s) && ShownBut(s, s.current)
    ensures ShownBut(Step(s, e), Step(s, e).current)
  {
    match e
    case ESelect(ids, session, answers) =>
      hide ShownBut, StartNext;
      if !s.running && Known(s, ids) != [] {
        SameShown(s, Selected(s, Known(s, ids), session), None);
        StartNextShows(Selected(s, Known(s, ids), session), answers);
      }
    case EStop => StopShows(s);
    case EComplete(id, p, c, answers) =>
      hide ShownBut, StartNext, Receive;
      if s.current == Some(id) {
        ReceiveShows(s, id, p, c);
        ReceiveGoes(s, id, p, c);
        StartNextShows(Receive(s, id, p, c), answers);
      } else {
        SameShown(s, s.(inFlight := s.inFlight - {p}), s.current);
      }
  }

  lemma StopShows(s: State)
    requires Valid(s) && ShownBut(s, s.current)
    ensures ShownBut(Stop(s), Stop(s).current)
    ensures s.running ==> s.current.Some? && s.current.value in s.statuses && Stop(s).statuses
                                          == s.statuses[s.current.value := Skipped]
    ensures Stop(s).published == s.published
  {
  }

  lemma {:induction false} RunShows(s: State, events: seq<Event>)
    requires Valid(s) && ShownBut(s, s.current)
    ensures ShownBut(Run(s, events), Run(s, events).current)
    decreases |events|
  {
    if events != [] {
      hide Step, Valid, ShownBut;
      StepKept(s, events[0]);
      StepShows(s, events[0]);
      RunShows(Step(s, events[0]), events[1..]);
    }
  }

  /** In every run: a test that is not running shows the last result published for it, unless a stop has skipped it or
      it has never run, and the collected results are the last published ones. */
  lemma EveryRunShows(managed: bool, known: set<Id>, events: seq<Event>)
    ensures var s := Run(Fresh(managed, known), events); ShownBut(s, s.current)
  {
    var s0 := Fresh(managed, known);
    assert s0.published[0..] == [];
    RunShows(s0, events);
  }

  // ----- The program ------------------------------------------------------------------------------------------

  class BluetoothTestRunner {
    const managed: bool
    var statuses: map<Id, Status>
    var results: map<Id, Outcome>
    var running: bool
    var queue: seq<Id>
    var currentId: Option<Id>
    var stopRequested: bool
    var session: bool
    ghost var published: seq<Published>
    ghost var probes: nat
    ghost var probe: nat
    ghost var inFlight: map<nat, Id>
    ghost var base: nat
    ghost var plan: seq<Id>
    ghost var skipped: Option<Id>
    ghost var dropped: seq<Id>
    ghost var begun: nat
    ghost var finished: nat

    ghost function View(): State
      reads this
    {
      State(managed, statuses, results, running, queue, currentId, stopRequested, session, probes, probe, inFlight,
            published, base, plan, skipped, dropped, begun, finished)
    }

    constructor (managed: bool, known: set<Id>)
      ensures View() == Fresh(managed, known) && Valid(View())
    {
      this.managed := managed;
      statuses, results := map id | id in known :: Ready, map[];
      running, queue, currentId, stopRequested, session := false, [], None, false, false;
      published, probes, probe, inFlight, base := [], 0, 0, map[], 0;
      plan, skipped, dropped, begun, finished := [], None, [], 0, 0;
      new;
      assert published[0..] == [];
    }

    method FinishRun()
      modifies this
      ensures View() == FinishPlan(old(View()))
    {
      if !running {
        return;
      }
      running := false;
      finished := finished + 1;
    }

    method PersistAndPublish(id: Id, c: Completion, ghost genuine: bool)
      modifies this
      ensures View() == Publish(old(View()), id, c, genuine) && queue == old(queue)
    {
      var stored: Outcome := if session && c.written then c.outcome else Error;
      results := results[id := stored];
      statuses := statuses[id := stored];
      published := published + [Published(id, stored, genuine)];
    }

    method RunNext(answers: seq<Option<Completion>>)
      modifies this
      ensures View() == StartNext(old(View()), answers)
      decreases |queue|, 1
    {
      hide FinishPlan, Publish;
      if stopRequested || queue == [] {
        FinishRun();
        return;
      }
      var id := queue[0];
      queue := queue[1..];
      if !managed {
        CompleteLocalError(id, answers);
        return;
      }
      currentId := Some(id);
      statuses := statuses[id := Running];
      ghost var p := probes;
      probe, probes, inFlight := p, p + 1, inFlight[p := id];
      assert View() == Probe(old(View()));
      if answers != [] && answers[0].Some? {
        OnTestCompleted(id, p, answers[0].value, answers[1..]);
      }
    }

    method CompleteLocalError(id: Id, answers: seq<Option<Completion>>)
      modifies this
      ensures View() == StartNext(
                Publish(old(View()).(current := None), id, Completion(Error, true), true), answers)
      decreases |queue|, 3
    {
      currentId := None;
      PersistAndPublish(id, Completion(Error, true), true);
      RunNext(answers);
    }

    /** A completion carries the test's identifier; that it answers the probe p is not visible to the runner. */
    method OnTestCompleted(id: Id, ghost p: nat, c: Completion, answers: seq<Option<Completion>>)
      modifies this
      ensures View() == Complete(old(View()), id, p, c, answers)
      decreases |queue|, 2
    {
      hide Publish, StartNext;
      ghost var genuine := Sent(View(), id, p) && p == probe;
      NoteAnswer(p);
      if currentId != Some(id) {
        return;
      }
      currentId := None;
      PersistAndPublish(id, c, genuine);
      RunNext(answers);
    }

    ghost method NoteAnswer(p: nat)
      modifies this
      ensures View() == old(View()).(inFlight := old(inFlight) - {p})
    {
      inFlight := inFlight - {p};
    }

    /** The selected tests the catalogue knows. */
    method OnlyKnown(ids: seq<Id>) returns (selected: seq<Id>)
      ensures selected == Known(View(), ids)
    {
      selected := [];
      for i := 0 to |ids|
        invariant selected == Known(View(), ids[..i])
      {
        assert ids[..i + 1][..i] == ids[..i];
        if ids[i] in statuses {
          selected := selected + [ids[i]];
        }
      }
      assert ids[..|ids|] == ids;
    }

    method BeginPlan(selected: seq<Id>, sessionCreated: bool)
      modifies this
      ensures View() == Selected(old(View()), selected, sessionCreated)
    {
      NotePlan(selected);
      queue, stopRequested, running, session := selected, false, true, sessionCreated;
    }

    ghost method NotePlan(selected: seq<Id>)
      modifies this
      ensures View() == old(View()).(base := |published|, plan := selected, skipped := None, dropped := [],
                                     begun := old(begun) + 1)
    {
      base, plan, skipped, dropped, begun := |published|, selected, None, [], begun + 1;
    }

    method RunSelected(ids: seq<Id>, sessionCreated: bool, answers: seq<Option<Completion>>)
      requires Valid(View())
      modifies this
      ensures View() == Select(old(View()), ids, sessionCreated, answers) && Valid(View())
    {
      StepKept(View(), ESelect(ids, sessionCreated, answers));
      hide StartNext, Valid, Selected;
      if running {
        return;
      }
      var selected := OnlyKnown(ids);
      if selected == [] {
        return;
      }
      BeginPlan(selected, sessionCreated);
      RunNext(answers);
    }

    method RequestStop()
      requires Valid(View())
      modifies this
      ensures View() == Stop(old(View())) && Valid(View())
    {
      StepKept(View(), EStop);
      hide Valid, FinishPlan;
      if !running {
        return;
      }
      DropQueue();
      if currentId.Some? {
        SkipCurrent();
      }
      FinishRun();
    }

    method DropQueue()
      modifies this
      ensures View() == old(View()).(stop := true, queue := [], dropped := old(queue))
    {
      stopRequested, queue, dropped := true, [], queue;
    }

    method SkipCurrent()
      requires currentId.Some?
      modifies this
      ensures View() == SetStatus(old(View()), old(currentId).value, Skipped)
                          .(current := None, skipped := old(currentId))
    {
      statuses := statuses[currentId.value := Skipped];
      currentId, skipped := None, currentId;
    }

    /** The manager reports a test as completed. */
    method Deliver(id: Id, ghost p: nat, c: Completion, answers: seq<Option<Completion>>)
      requires Valid(View())
      modifies this
      ensures View() == Complete(old(View()), id, p, c, answers) && Valid(View())
    {
      StepKept(View(), EComplete(id, p, c, answers));
      OnTestCompleted(id, p, c, answers);
    }
  }
}
