/** The feedback loop that adds CPU load in small steps until a measured target is reached. */
module CpuController {
  import opened Options
  import opened LoadStrategy

  const STEP: real := 5.0
  const SETTLING: int := 20

  function Min(a: real, b: real): real {
    if a < b then a else b
  }

  function Max(a: real, b: real): real {
    if a > b then a else b
  }

  /** The two percentages the loop is started with. */
  datatype Setting = Setting(target: real, baseline: real) {
    /** What a decision to assist guarantees, for a measured baseline. */
    predicate Valid() {
      0.0 <= baseline < target
    }

    function Ceiling(): real {
      Min(target, 100.0)
    }

    function Gap(): real {
      target - baseline
    }

    function Clamped(value: real): real {
      Max(0.0, Min(Min(target, 100.0), value))
    }

    function Initial(): real {
      Clamped(Min(STEP, Max(0.0, Gap())))
    }

    /** Whether a measurement asks for more, for less, or for no change. */
    predicate Raises(contribution: real, actual: real) {
      actual < target && contribution < target
    }

    predicate Lowers(contribution: real, actual: real) {
      actual > target && contribution > 0.0
    }

    function Adjusted(contribution: real, actual: real): real {
      if Raises(contribution, actual) then Clamped(Min(target, contribution + STEP))
      else if Lowers(contribution, actual) then Clamped(Max(0.0, contribution - STEP))
      else contribution
    }
  }

  /** A decision to assist yields a valid setting and a positive first load: the whole gap, but at most one step. */
  lemma AssistStartsPositive(
    target: Option<real>, baseline: Option<real>, semantics: Option<Semantics>, stressNg: Option<bool>)
    requires DecideCpuStrategy(target, baseline, semantics, stressNg).strategy == LoadAssist
    requires baseline.value >= 0.0
    ensures Setting(target.value, baseline.value).Valid()
    ensures 0.0 < Setting(target.value, baseline.value).Initial() <= STEP
    ensures Setting(target.value, baseline.value).Initial() == Min(STEP, target.value - baseline.value)
  {
    StrategyIff(target, baseline, semantics, stressNg);
  }

  // ----- One run as a function of its measurements ----------------------------------------------

  /** One turn of the loop: when it begins, what it measures, when that is known, and what happens meanwhile. */
  datatype Sample = Sample(begins: int, actual: real, elapsed: int, signalled: bool, childExited: bool)

  datatype Adjustment = Adjustment(elapsed: int, actual: Option<real>, contribution: real)

  datatype Control = Control(
    contribution: real, lastAdjust: int, log: seq<Adjustment>, stopping: bool, opportunities: nat)

  function Start(s: Setting, elapsed: int): Control {
    Control(s.Initial(), 0, [Adjustment(elapsed, None, s.Initial())], false, 0)
  }

  predicate Due(c: Control, x: Sample) {
    x.elapsed - c.lastAdjust >= SETTLING
  }

  predicate Configures(s: Setting, c: Control, x: Sample) {
    Due(c, x) && (s.Raises(c.contribution, x.actual) || s.Lowers(c.contribution, x.actual))
  }

  function Turn(s: Setting, c: Control, x: Sample): Control {
    var next := if Due(c, x) then s.Adjusted(c.contribution, x.actual) else c.contribution;
    Control(next, if Due(c, x) then x.elapsed else c.lastAdjust,
            if Configures(s, c, x) then c.log + [Adjustment(x.elapsed, Some(x.actual), next)] else c.log,
            c.stopping || x.signalled, if Due(c, x) then c.opportunities + 1 else c.opportunities)
  }

  predicate Continues(c: Control, x: Sample, duration: int) {
    !c.stopping && x.begins < duration
  }

  function Loop(s: Setting, c: Control, samples: seq<Sample>, duration: int): Control
    decreases |samples|
  {
    if samples == [] || !Continues(c, samples[0], duration) then c
    else Loop(s, Turn(s, c, samples[0]), samples[1..], duration)
  }

  lemma AtMostOne(s: set<nat>, x: nat)
    requires s <= {x}
    ensures |s| <= 1
  {
    if s != {} {
      assert s == {x};
    }
  }

  // ----- The program ----------------------------------------------------------------------------

  class AdaptiveCpu {
    const setting: Setting
    const duration: int
    var contribution: real
    var lastAdjust: int
    var stopping: bool
    var child: Option<nat>
    var log: seq<Adjustment>
    ghost var opportunities: nat
    var spawned: nat  // children started so far; the next one gets this number
    ghost var alive: set<nat>

    ghost function View(): Control
      reads this
    {
      Control(contribution, lastAdjust, log, stopping, opportunities)
    }

    /** Only the child the program holds can be alive, so there is never a second one. */
    ghost predicate OneChild()
      reads this
    {
      && (child.Some? ==> child.value < spawned && contribution > 0.0)
      && alive <= (if child.Some? then {child.value} else {})
    }

    constructor (setting: Setting, duration: int)
      ensures this.setting == setting && this.duration == (if duration < 1 then 1 else duration)
      ensures View() == Control(0.0, 0, [], false, 0) && OneChild() && alive == {}
    {
      this.setting := setting;
      this.duration := if duration < 1 then 1 else duration;
      contribution, lastAdjust, stopping, child, log := 0.0, 0, false, None, [];
      opportunities, alive, spawned := 0, {}, 0;
    }

    method StopChild()
      requires OneChild()
      modifies `child, `alive
      ensures child == None && alive == {} && OneChild()
    {
      if child.Some? {
        alive := alive - {child.value};
      }
      child := None;
    }

    method Configure(value: real, elapsed: int, actual: Option<real>)
      requires OneChild()
      modifies `child, `alive, `contribution, `log, `spawned
      ensures OneChild() && contribution == setting.Clamped(value)
      ensures log == old(log) + [Adjustment(elapsed, actual, contribution)]
      ensures alive == if contribution > 0.0 then {old(spawned)} else {}
    {
      StopChild();
      contribution := setting.Clamped(value);
      log := log + [Adjustment(elapsed, actual, contribution)];
      if contribution > 0.0 {
        child := Some(spawned);
        alive := alive + {spawned};
        spawned := spawned + 1;
      }
    }

    /** The handler of SIGTERM and SIGINT. */
    method Shutdown()
      requires OneChild()
      modifies `stopping, `child, `alive
      ensures stopping && OneChild() && alive == {}
    {
      stopping := true;
      StopChild();
    }

    method TakeTurn(x: Sample)
      requires OneChild()
      modifies this
      ensures OneChild() && View() == Turn(setting, old(View()), x)
      ensures |alive| <= 1
    {
      hide Setting.Clamped, Min, Max;
      if x.childExited {
        alive := {};
      }
      if x.signalled {
        Shutdown();
      }
      if x.elapsed - lastAdjust >= SETTLING {
        if x.actual < setting.target && contribution < setting.target {
          Configure(Min(setting.target, contribution + STEP), x.elapsed, Some(x.actual));
        } else if x.actual > setting.target && contribution > 0.0 {
          Configure(Max(0.0, contribution - STEP), x.elapsed, Some(x.actual));
        }
        lastAdjust := x.elapsed;
        opportunities := opportunities + 1;
      }
      assert alive <= {if child.Some? then child.value else 0};
      AtMostOne(alive, if child.Some? then child.value else 0);
    }

    /** From the first conservative step to the last stop; every run ends with no stress child alive. */
    method Run(startup: int, samples: seq<Sample>)
      requires OneChild() && View() == Control(0.0, 0, [], false, 0)
      modifies this
      ensures View() == Loop(setting, Start(setting, startup), samples, duration)
      ensures child == None && alive == {}
    {
      Configure(Min(STEP, Max(0.0, setting.target - setting.baseline)), startup, None);
      assert log == [] + [Adjustment(startup, None, setting.Initial())];
      assert View() == Start(setting, startup);
      Monitor(samples);
      StopChild();
    }

    method Monitor(samples: seq<Sample>)
      requires OneChild()
      modifies this
      ensures View() == Loop(setting, old(View()), samples, duration) && OneChild()
    {
      hide Turn;
      var i := 0;
      assert samples[0..] == samples;
      while i < |samples| && !stopping && samples[i].begins < duration
        invariant i <= |samples| && OneChild()
        invariant Loop(setting, View(), samples[i..], duration) == Loop(setting, old(View()), samples, duration)
      {
        assert samples[i..][0] == samples[i] && samples[i..][1..] == samples[i + 1..];
        TakeTurn(samples[i]);
        i := i + 1;
      }
    }
  }

  // ----- Every run ------------------------------------------------------------------------------

  predicate Bounded(s: Setting, contribution: real) {
    0.0 <= contribution <= s.Ceiling()
  }

  /** One adjustment: bounded, at most a step, and only in the direction the measurement asks for. */
  predicate SoundStep(s: Setting, from: Adjustment, to: Adjustment) {
    && Bounded(s, to.contribution) && to.actual.Some?
    && -STEP <= to.contribution - from.contribution <= STEP
    && (to.contribution > from.contribution ==> to.actual.value < s.target)
    && (to.contribution < from.contribution ==> to.actual.value > s.target)
  }

  ghost predicate SoundLog(s: Setting, log: seq<Adjustment>) {
    && log != [] && log[0].contribution == s.Initial() && Bounded(s, log[0].contribution)
    && (forall i :: 0 < i < |log| ==> SoundStep(s, log[i - 1], log[i]))
    && (forall i :: 0 < i < |log| ==> log[i].elapsed >= SETTLING)
    && (forall i :: 1 < i < |log| ==> log[i].elapsed - log[i - 1].elapsed >= SETTLING)
  }

  ghost predicate Sound(s: Setting, c: Control) {
    && SoundLog(s, c.log) && c.log[|c.log| - 1].contribution == c.contribution
    && c.lastAdjust >= 0 && (|c.log| > 1 ==> c.log[|c.log| - 1].elapsed <= c.lastAdjust)
  }

  lemma LastBounded(s: Setting, log: seq<Adjustment>)
    requires SoundLog(s, log)
    ensures Bounded(s, log[|log| - 1].contribution)
  {
    if |log| > 1 {
      assert SoundStep(s, log[|log| - 2], log[|log| - 1]);
    }
  }

  lemma TurnSound(s: Setting, c: Control, x: Sample)
    requires s.Valid() && Sound(s, c)
    ensures Sound(s, Turn(s, c, x))
  {
    var next := Turn(s, c, x);
    if Configures(s, c, x) {
      LastBounded(s, c.log);
      assert SoundStep(s, c.log[|c.log| - 1], next.log[|next.log| - 1]);
    }
  }

  lemma {:induction false} LoopSound(s: Setting, c: Control, samples: seq<Sample>, duration: int)
    requires s.Valid() && Sound(s, c)
    ensures Sound(s, Loop(s, c, samples, duration))
    decreases |samples|
  {
    if samples != [] && Continues(c, samples[0], duration) {
      TurnSound(s, c, samples[0]);
      LoopSound(s, Turn(s, c, samples[0]), samples[1..], duration);
    }
  }

  /** For every sequence of measurements: the whole log of adjustments is sound. */
  lemma EveryRunSound(s: Setting, startup: int, samples: seq<Sample>, duration: int)
    requires s.Valid()
    ensures var end := Loop(s, Start(s, startup), samples, duration);
            SoundLog(s, end.log) && Bounded(s, end.contribution)
  {
    LoopSound(s, Start(s, startup), samples, duration);
    LastBounded(s, Loop(s, Start(s, startup), samples, duration).log);
  }

  // ----- What one turn and many turns do to the load ----------------------------------------------

  /** The exact move of one turn. Nothing moves before twenty seconds have passed; then a measurement above the target
      takes a step off the load, one below adds a step, and every such turn starts the next twenty seconds. */
  lemma ExactMove(s: Setting, c: Control, x: Sample)
    requires s.Valid() && Bounded(s, c.contribution)
    ensures var next, due := Turn(s, c, x), x.elapsed - c.lastAdjust >= 20;
            && (!due || x.actual == s.target ==> next.contribution == c.contribution)
            && (due && x.actual > s.target ==>
                  next.contribution == if c.contribution > 5.0 then c.contribution - 5.0 else 0.0)
            && (due && x.actual < s.target ==>
                  next.contribution
                  == if c.contribution + 5.0 < s.Ceiling() then c.contribution + 5.0 else s.Ceiling())
            && next.lastAdjust == (if due then x.elapsed else c.lastAdjust)
            && next.opportunities == c.opportunities + (if due then 1 else 0)
            && next.stopping == (c.stopping || x.signalled)
    ensures Bounded(s, Turn(s, c, x).contribution)
    ensures var due := x.elapsed - c.lastAdjust >= 20;
            var moves := due && ((x.actual > s.target && c.contribution > 0.0)
                                 || (x.actual < s.target && c.contribution < s.target));
            Turn(s, c, x).log
            == c.log + (if moves then [Adjustment(x.elapsed, Some(x.actual), Turn(s, c, x).contribution)] else [])
  {
    assert c.log + [] == c.log;
  }

  /** Every turn that is due measures more than the target, or every one less. */
  predicate OneSided(s: Setting, c: Control, samples: seq<Sample>, duration: int, above: bool)
    decreases |samples|
  {
    samples == [] || !Continues(c, samples[0], duration)
    || (Misses(s, c, samples[0], above) && OneSided(s, Turn(s, c, samples[0]), samples[1..], duration, above))
  }

  predicate Misses(s: Setting, c: Control, x: Sample, above: bool) {
    x.elapsed - c.lastAdjust >= 20 ==> if above then x.actual > s.target else x.actual < s.target
  }

  /** As long as everything measured is above the target the load falls by a step at every chance, down to nothing;
      as long as it is below, it rises by a step, up to the ceiling. */
  lemma {:induction false} OneSidedRun(s: Setting, c: Control, samples: seq<Sample>, duration: int, above: bool)
    requires s.Valid() && Bounded(s, c.contribution) && OneSided(s, c, samples, duration, above)
    ensures var end := Loop(s, c, samples, duration);
            var moved := 5.0 * (end.opportunities - c.opportunities) as real;
            && end.opportunities >= c.opportunities
            && end.contribution == if above then Max(0.0, c.contribution - moved)
                                   else Min(s.Ceiling(), c.contribution + moved)
    decreases |samples|
  {
    if samples != [] && Continues(c, samples[0], duration) {
      hide Turn;
      ExactMove(s, c, samples[0]);
      OneSidedRun(s, Turn(s, c, samples[0]), samples[1..], duration, above);
    }
  }

  /** So a load that is always too much is gone after ceil(contribution / 5) chances, and too little a one is at its
      ceiling after ceil((ceiling - contribution) / 5). */
  lemma LoadGone(s: Setting, c: Control, samples: seq<Sample>, duration: int, above: bool)
    requires s.Valid() && Bounded(s, c.contribution) && OneSided(s, c, samples, duration, above)
    ensures var end := Loop(s, c, samples, duration);
            var moved := 5.0 * (end.opportunities - c.opportunities) as real;
            && (above && moved >= c.contribution ==> end.contribution == 0.0)
            && (!above && moved >= s.Ceiling() - c.contribution ==> end.contribution == s.Ceiling())
  {
    OneSidedRun(s, c, samples, duration, above);
  }

  function Turns(s: Setting, c: Control, samples: seq<Sample>): Control
    decreases |samples|
  {
    if samples == [] then c else Turns(s, Turn(s, c, samples[0]), samples[1..])
  }

  /** The loop takes exactly the turns that begin before its time is over and before a signal has come. */
  lemma {:induction false} LoopEnds(s: Setting, c: Control, samples: seq<Sample>, duration: int, n: nat)
    requires n <= |samples| && !c.stopping
    requires forall k :: 0 <= k < n ==> samples[k].begins < duration
    requires forall k :: 0 <= k < n - 1 ==> !samples[k].signalled
    requires n == |samples| || samples[n].begins >= duration || (n > 0 && samples[n - 1].signalled)
    ensures Loop(s, c, samples, duration) == Turns(s, c, samples[..n])
    decreases |samples|
  {
    if n > 0 {
      var next := Turn(s, c, samples[0]);
      assert samples[..n][1..] == samples[1..][..n - 1];
      if next.stopping {
        assert samples[1..][..n - 1] == [];
        assert Loop(s, next, samples[1..], duration) == next;
      } else {
        LoopEnds(s, next, samples[1..], duration, n - 1);
      }
    }
  }

  // ----- Convergence ----------------------------------------------------------------------------

  /** Measured CPU is the baseline plus what is injected. */
  predicate Exact(s: Setting, c: Control, samples: seq<Sample>, duration: int)
    decreases |samples|
  {
    samples == [] || !Continues(c, samples[0], duration)
    || (samples[0].actual == s.baseline + c.contribution
        && Exact(s, Turn(s, c, samples[0]), samples[1..], duration))
  }

  /** The contribution after n chances to adjust. */
  function Contribution(s: Setting, n: nat): real {
    if n == 0 then s.Initial()
    else s.Adjusted(Contribution(s, n - 1), s.baseline + Contribution(s, n - 1))
  }

  /** Strictly within one step of the target. */
  predicate Near(s: Setting, contribution: real) {
    -STEP < s.baseline + contribution - s.target < STEP
  }

  /** After n chances to adjust the measured load is near the target. */
  predicate NearAfter(s: Setting, n: nat) {
    Near(s, Contribution(s, n))
  }

  lemma {:induction false} ContributionBounded(s: Setting, n: nat)
    requires s.Valid()
    ensures Bounded(s, Contribution(s, n))
  {
    if n > 0 {
      ContributionBounded(s, n - 1);
    }
  }

  /** Once near, near for ever: the loop may swing around the target but never a full step away from it. */
  lemma NearStays(s: Setting, contribution: real)
    requires s.Valid() && Bounded(s, contribution) && Near(s, contribution)
    ensures Near(s, s.Adjusted(contribution, s.baseline + contribution))
  {
  }

  /** Until near, every chance adds a full step, as far as 100 percent allow. */
  lemma {:induction false} NearOrClimbing(s: Setting, n: nat)
    requires s.Valid()
    ensures Near(s, Contribution(s, n))
         || (s.baseline + Contribution(s, n) <= s.target - STEP
             && Contribution(s, n) == Min(STEP * (n + 1) as real, 100.0))
  {
    if n > 0 {
      ContributionBounded(s, n - 1);
      NearOrClimbing(s, n - 1);
      if Near(s, Contribution(s, n - 1)) {
        NearStays(s, Contribution(s, n - 1));
      } else {
        assert STEP * (n + 1) as real == STEP * n as real + STEP;
        hide Contribution;
        FullStep(s, Contribution(s, n - 1), STEP * n as real);
        NextContribution(s, n);
      }
    }
  }

  lemma NextContribution(s: Setting, n: nat)
    requires n > 0
    ensures Contribution(s, n) == s.Adjusted(Contribution(s, n - 1), s.baseline + Contribution(s, n - 1))
  {
  }

  /** One full step up, from a contribution that is still too small. */
  lemma FullStep(s: Setting, contribution: real, steps: real)
    requires s.Valid() && contribution == Min(steps, 100.0) && steps >= STEP
    requires s.baseline + contribution <= s.target - STEP && Bounded(s, contribution)
    ensures var next := s.Adjusted(contribution, s.baseline + contribution);
            Near(s, next) || (s.baseline + next <= s.target - STEP && next == Min(steps + STEP, 100.0))
  {
  }

  /** The target is approached if and only if 100 percent of load can reach it; then ceil(gap / 5) adjustments,
      the initial one included, are enough. */
  lemma ConvergesIff(s: Setting)
    requires s.Valid()
    ensures (exists n: nat :: NearAfter(s, n)) <==> s.Gap() < 100.0 + STEP
    ensures s.Gap() < 100.0 + STEP ==>
      forall n: nat :: STEP * (n + 1) as real >= s.Gap() ==> NearAfter(s, n)
  {
    if s.Gap() < 100.0 + STEP {
      forall n: nat | STEP * (n + 1) as real >= s.Gap()
        ensures NearAfter(s, n)
      {
        NearOrClimbing(s, n);
      }
      assert NearAfter(s, EnoughSteps(s.Gap()));
    } else {
      forall n: nat
        ensures !NearAfter(s, n)
      {
        ContributionBounded(s, n);
      }
    }
  }

  function EnoughSteps(gap: real): (n: nat)
    ensures STEP * (n + 1) as real >= gap
  {
    if gap <= 0.0 then 0 else (gap / STEP).Floor
  }

  /** A run whose measurements are exact follows that sequence, chance after chance. */
  lemma {:induction false} ExactRunFollows(s: Setting, c: Control, samples: seq<Sample>, duration: int)
    requires c.contribution == Contribution(s, c.opportunities) && Exact(s, c, samples, duration)
    ensures var end := Loop(s, c, samples, duration);
            end.contribution == Contribution(s, end.opportunities) && end.opportunities >= c.opportunities
    decreases |samples|
  {
    if samples != [] && Continues(c, samples[0], duration) {
      ExactRunFollows(s, Turn(s, c, samples[0]), samples[1..], duration);
    }
  }

  /** In every exact run with ceil(gap / 5) adjustments behind it the measured load is strictly within one step. */
  lemma ExactRunConverges(s: Setting, startup: int, samples: seq<Sample>, duration: int)
    requires s.Valid() && s.Gap() < 100.0 + STEP && Exact(s, Start(s, startup), samples, duration)
    ensures var end := Loop(s, Start(s, startup), samples, duration);
            STEP * (end.opportunities + 1) as real >= s.Gap() ==> Near(s, end.contribution)
  {
    ExactRunFollows(s, Start(s, startup), samples, duration);
    ConvergesIff(s);
    assert NearAfter(s, Loop(s, Start(s, startup), samples, duration).opportunities)
      <==> Near(s, Loop(s, Start(s, startup), samples, duration).contribution);
  }
}
