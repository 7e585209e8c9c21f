/** What a whole reliability campaign reports, from what its iterations did. */
module CampaignOutcomes {
  import opened Options
  import opened Campaigns

  /** One iteration: what starting its action does, and the result reported later if none came at once. */
  datatype Take = Take(start: Answer, later: Outcome) {
    predicate Refused() {
      start.sync.None? && !start.started
    }

    function Status(): Campaigns.Status {
      if start.sync.Some? then start.sync.value.status else if !start.started then Blocked else later.status
    }

    predicate Succeeds() {
      if start.sync.Some? then start.sync.value.success else start.started && later.success
    }
  }

  /** The timer fires, and then the result comes; it is ignored when the iteration already has one. */
  function Play(s: State, t: Take): State {
    Step(Step(s, ETimer([t.start])), EResult(t.later, []))
  }

  function PlayAll(s: State, takes: seq<Take>): State
    decreases |takes|
  {
    if takes == [] then s else PlayAll(Play(s, takes[0]), takes[1..])
  }

  /** A campaign with an interval: the first iteration starts at once, every other one by the timer. */
  function Campaign(s: State, n: int, stopOnFailure: bool, takes: seq<Take>): State
    requires takes != []
  {
    var first := takes[0];
    PlayAll(Step(Step(s, EStart(n, true, stopOnFailure, [first.start])), EResult(first.later, [])), takes[1..])
  }

  function Iterations(takes: seq<Take>): seq<Iteration> {
    seq(|takes|, i requires 0 <= i < |takes| => Iteration(i + 1, takes[i].Status()))
  }

  /** The state of the report of a campaign of n iterations that ends with these. */
  function Verdict(takes: seq<Take>, n: nat, stopOnFailure: bool): Campaigns.Status
    requires takes != []
  {
    var last := takes[|takes| - 1];
    if last.Refused() then if |takes| == n then Blocked else Fail
    else if stopOnFailure && !last.Succeeds() then Fail
    else if forall i :: 0 <= i < |takes| ==> takes[i].Status() == Pass then Pass
    else Fail
  }

  predicate Stops(t: Take, stopOnFailure: bool) {
    stopOnFailure && !t.Succeeds()
  }

  /** The pause after these iterations. */
  predicate Paused(s: State, done: seq<Take>, n: nat, stopOnFailure: bool) {
    && s.active && !s.awaiting && s.paced && s.total == n && s.stopOnFailure == stopOnFailure && s.timers == 1
    && s.current == |done| < n && s.results == Iterations(done)
  }

  /** The campaign is over and has reported exactly these. */
  predicate Reported(s: State, t: State, takes: seq<Take>, n: nat, stopOnFailure: bool)
    requires takes != []
  {
    && !t.active && t.timers == 0
    && t.finals == s.finals + [Final(Verdict(takes, n, stopOnFailure), n, Iterations(takes))]
  }

  /** What a campaign with an interval does with the result of its present iteration. */
  lemma HandlePaced(s: State, o: Outcome)
    requires s.active && s.awaiting && s.paced && s.timers == 0
    ensures var t := s.(awaiting := false, results := s.results + [Iteration(s.current, o.status)]);
            Handle(s, o, []).0
            == if !o.success && s.stopOnFailure then Finish(t, Status.Fail)
               else if s.current >= s.total then Finish(t, if AllPass(t.results) then Status.Pass else Status.Fail)
               else t.(timers := 1)
  {
  }

  lemma StartsAwaiting(s: State, a: Answer)
    requires s.active && s.current < s.total
    ensures var t := s.(current := s.current + 1, awaiting := true);
            && (a.sync.None? && a.started ==> StartNext(s, [a]).0 == t)
            && (a.sync.None? && !a.started ==> StartNext(s, [a]).0 == Refusal(t))
            && (a.sync.Some? && !Handle(t, a.sync.value, []).0.awaiting ==>
                  StartNext(s, [a]).0 == Handle(t, a.sync.value, []).0)
  {
    hide Handle, Refusal;
    assert First([a]) == a && Rest([a]) == [];
    var t := s.(current := s.current + 1, awaiting := true);
    assert Attempt(s, [a]) == if a.sync.Some? then Handle(t, a.sync.value, []) else (t, []);
  }

  lemma PlayIs(s: State, t: Take)
    requires s.active && !s.awaiting && s.paced && s.timers == 1 && s.current < s.total
    ensures var k := s.current + 1;
            var u := s.(current := k, timers := 0, results := s.results + [Iteration(k, t.Status())]);
            Play(s, t) ==
            if t.Refused() then
              if k == s.total then Finish(u, Status.Blocked)
              else if s.stopOnFailure then Finish(u, Status.Fail)
              else u.(timers := 1)
            else if Stops(t, s.stopOnFailure) then Finish(u, Status.Fail)
            else if k == s.total then Finish(u, if AllPass(u.results) then Status.Pass else Status.Fail)
            else u.(timers := 1)
  {
    hide Handle, StartNext, AllPass;
    var b := s.(timers := 0);
    var w := b.(current := b.current + 1, awaiting := true);
    StartsAwaiting(b, t.start);
    assert Step(s, ETimer([t.start])) == StartNext(b, [t.start]).0;
    if t.start.sync.Some? {
      HandlePaced(w, t.start.sync.value);
      NotAwaited(StartNext(b, [t.start]).0, t.later);
    } else if t.start.started {
      HandlePaced(w, t.later);
    } else {
      NotAwaited(Refusal(w), t.later);
    }
  }

  lemma PlayOne(s: State, done: seq<Take>, t: Take, n: nat, stopOnFailure: bool)
    requires Paused(s, done, n, stopOnFailure)
    ensures var takes, u := done + [t], Play(s, t);
            && u.finals == s.finals + (if |takes| == n || Stops(t, stopOnFailure) then
                                         [Final(Verdict(takes, n, stopOnFailure), n, Iterations(takes))]
                                       else [])
            && (if |takes| == n || Stops(t, stopOnFailure) then !u.active && u.timers == 0
                else Paused(u, takes, n, stopOnFailure))
  {
    hide Play;
    var takes := done + [t];
    PlayIs(s, t);
    assert Iterations(takes) == Iterations(done) + [Iteration(|takes|, t.Status())];
    assert (forall i :: 0 <= i < |takes| ==> takes[i].Status() == Status.Pass) <==> AllPass(Iterations(takes)) by {
      assert forall i :: 0 <= i < |takes| ==> Iterations(takes)[i].status == takes[i].Status();
    }
    assert s.finals + [] == s.finals;
  }

  lemma NotAwaited(s: State, o: Outcome)
    requires !s.active || !s.awaiting
    ensures Handle(s, o, []).0 == s
  {
  }

  lemma {:induction false} NothingMore(s: State, takes: seq<Take>)
    requires !s.active && s.timers == 0
    ensures PlayAll(s, takes) == s
    decreases |takes|
  {
    if takes != [] {
      NothingMore(s, takes[1..]);
    }
  }

  /** From a pause, the rest of a campaign that ends with its iteration number k. */
  lemma {:induction false} RestReports(s: State, takes: seq<Take>, d: nat, n: nat, stopOnFailure: bool, k: nat)
    requires d < k <= |takes| && k <= n && Paused(s, takes[..d], n, stopOnFailure)
    requires forall i :: d <= i < k - 1 ==> !Stops(takes[i], stopOnFailure)
    requires k == n || Stops(takes[k - 1], stopOnFailure)
    ensures Reported(s, PlayAll(s, takes[d..]), takes[..k], n, stopOnFailure)
    decreases k - d
  {
    hide Paused, Verdict, Iterations, Play, Stops;
    var t := takes[d];
    PlayOne(s, takes[..d], t, n, stopOnFailure);
    assert takes[..d] + [t] == takes[..d + 1];
    assert takes[d..][0] == t && takes[d..][1..] == takes[d + 1..];
    if d + 1 == k {
      NothingMore(Play(s, t), takes[k..]);
    } else {
      RestReports(Play(s, t), takes, d + 1, n, stopOnFailure, k);
    }
  }

  lemma {:induction false} RestPauses(s: State, takes: seq<Take>, d: nat, n: nat, stopOnFailure: bool)
    requires d <= |takes| < n && Paused(s, takes[..d], n, stopOnFailure)
    requires forall i :: d <= i < |takes| ==> !Stops(takes[i], stopOnFailure)
    ensures PlayAll(s, takes[d..]).finals == s.finals
    ensures Paused(PlayAll(s, takes[d..]), takes, n, stopOnFailure)
    decreases |takes| - d
  {
    hide Paused, Verdict, Iterations, Play, Stops;
    if d == |takes| {
      assert takes[d..] == [] && takes[..d] == takes;
    } else {
      var t := takes[d];
      PlayOne(s, takes[..d], t, n, stopOnFailure);
      assert takes[..d] + [t] == takes[..d + 1];
      assert takes[d..][0] == t && takes[d..][1..] == takes[d + 1..];
      assert s.finals + [] == s.finals;
      RestPauses(Play(s, t), takes, d + 1, n, stopOnFailure);
    }
  }

  /** Beginning a campaign is waiting for a timer that fires at once. */
  lemma BeginsPaused(s: State, n: nat, stopOnFailure: bool, takes: seq<Take>)
    requires !s.active && s.timers == 0 && n >= 1 && takes != []
    ensures var b := Begun(s, n, true, stopOnFailure).(timers := 1);
            && Paused(b, takes[..0], n, stopOnFailure) && b.finals == s.finals
            && Campaign(s, n, stopOnFailure, takes) == PlayAll(b, takes[0..])
  {
    assert takes[0..] == takes && takes[..0] == [] && Iterations([]) == [];
    var b := Begun(s, n, true, stopOnFailure).(timers := 1);
    assert b.(timers := 0) == Begun(s, n, true, stopOnFailure);
    hide StartNext;
    assert Step(s, EStart(n, true, stopOnFailure, [takes[0].start])) == Step(b, ETimer([takes[0].start]));
  }

  /** A campaign with an interval that meets its end, by its last iteration or by a failure it is to stop at, reports
      once: the results of the iterations up to there in order, a refused one as blocked, and PASS exactly if all
      passed. */
  lemma CampaignReports(s: State, n: nat, stopOnFailure: bool, takes: seq<Take>, k: nat)
    requires !s.active && s.timers == 0 && 1 <= k <= |takes| && k <= n
    requires forall i :: 0 <= i < k - 1 ==> !Stops(takes[i], stopOnFailure)
    requires k == n || Stops(takes[k - 1], stopOnFailure)
    ensures Reported(s, Campaign(s, n, stopOnFailure, takes), takes[..k], n, stopOnFailure)
  {
    hide Paused, Stops, Verdict, Iterations, Campaign, PlayAll;
    BeginsPaused(s, n, stopOnFailure, takes);
    RestReports(Begun(s, n, true, stopOnFailure).(timers := 1), takes, 0, n, stopOnFailure, k);
  }

  /** Before that it has reported nothing and waits for its timer. */
  lemma CampaignPauses(s: State, n: nat, stopOnFailure: bool, takes: seq<Take>)
    requires !s.active && s.timers == 0 && 1 <= |takes| < n
    requires forall i :: 0 <= i < |takes| ==> !Stops(takes[i], stopOnFailure)
    ensures var t := Campaign(s, n, stopOnFailure, takes);
            t.finals == s.finals && Paused(t, takes, n, stopOnFailure)
  {
    hide Paused, Stops, Verdict, Iterations, Campaign, PlayAll;
    BeginsPaused(s, n, stopOnFailure, takes);
    RestPauses(Begun(s, n, true, stopOnFailure).(timers := 1), takes, 0, n, stopOnFailure);
  }

  /** A stop during an iteration, or between two, reports STOPPED with what there is. */
  lemma StopReports(s: State, answers: seq<Answer>)
    requires s.active
    ensures var t := Stop(s, None, answers);
            && !t.active
            && t.finals == s.finals + [Final(Stopped, s.total,
                                             s.results + (if s.awaiting then [Iteration(s.current, Stopped)] else []))]
  {
    assert s.results + [] == s.results;
  }

  /** A campaign is begun exactly if none is active and at least one iteration is asked for; else nothing changes. */
  lemma BeginsIff(s: State, iterations: int, paced: bool, stopOnFailure: bool, answers: seq<Answer>)
    ensures var t := Start(s, iterations, paced, stopOnFailure, answers);
            if !s.active && iterations >= 1 then t.begun == s.begun + 1 && t.total == iterations
            else t == s
  {
    if !s.active && iterations >= 1 {
      StartKeeps(Begun(s, iterations, paced, stopOnFailure), answers);
    }
  }

  lemma {:induction false} StartKeeps(s: State, answers: seq<Answer>)
    ensures StartNext(s, answers).0.begun == s.begun && StartNext(s, answers).0.total == s.total
    decreases Left(s), 1
  {
    if s.active && s.current < s.total {
      var t := s.(current := s.current + 1, awaiting := true);
      if First(answers).sync.Some? {
        HandleKeeps(t, First(answers).sync.value, Rest(answers));
      }
    }
  }

  lemma {:induction false} HandleKeeps(s: State, o: Outcome, answers: seq<Answer>)
    ensures Handle(s, o, answers).0.begun == s.begun && Handle(s, o, answers).0.total == s.total
    decreases Left(s), 2
  {
    if s.active && s.awaiting && s.current < s.total {
      StartKeeps(Recorded(s, o.status), answers);
    }
  }
}
