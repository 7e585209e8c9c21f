/** The choice between observing, assisting and refusing an adaptive CPU test. */
module LoadStrategy {
  import opened Options

  datatype Strategy = ObserveOnly | LoadAssist | NeedsReview

  datatype Semantics = Minimum | Approximate

  datatype Decision = Decision(
    strategy: Strategy, target: Option<real>, baseline: Option<real>, gap: Option<real>,
    semantics: Option<Semantics>, stressNg: Option<bool>)
  {
    predicate CanStart() {
      if strategy == NeedsReview then false else strategy != LoadAssist || stressNg == Some(true)
    }
  }

  function DecideCpuStrategy(
    target: Option<real>, baseline: Option<real>, semantics: Option<Semantics>, stressNg: Option<bool>): Decision
  {
    if target.None? then Decision(NeedsReview, None, baseline, None, semantics, stressNg)
    else if baseline.None? then Decision(NeedsReview, target, None, None, semantics, stressNg)
    else if semantics.None? then Decision(NeedsReview, target, baseline, None, semantics, stressNg)
    else
      var t, b := target.value, baseline.value;
      if semantics == Some(Minimum) && b >= t then
        Decision(ObserveOnly, target, baseline, Some(0.0), semantics, stressNg)
      else if semantics == Some(Approximate) && b > t then
        Decision(NeedsReview, target, baseline, Some(0.0), semantics, stressNg)
      else if b == t then Decision(ObserveOnly, target, baseline, Some(0.0), semantics, stressNg)
      else Decision(LoadAssist, target, baseline, Some(if t - b > 0.0 then t - b else 0.0), semantics, stressNg)
  }

  predicate Known(target: Option<real>, baseline: Option<real>, semantics: Option<Semantics>) {
    target.Some? && baseline.Some? && semantics.Some?
  }

  /** Load is injected exactly for a known gap upwards; observation alone exactly when the target is met
      exactly, or exceeded where exceeding it is allowed. A start also needs the stress tool when it injects. */
  lemma StrategyIff(
    target: Option<real>, baseline: Option<real>, semantics: Option<Semantics>, stressNg: Option<bool>)
    ensures var d := DecideCpuStrategy(target, baseline, semantics, stressNg);
            var known := Known(target, baseline, semantics);
            && (d.strategy == LoadAssist <==> known && baseline.value < target.value)
            && (d.strategy == LoadAssist ==> d.gap == Some(target.value - baseline.value) && d.gap.value > 0.0)
            && (d.strategy == ObserveOnly <==>
                  known && (baseline == target || (semantics == Some(Minimum) && baseline.value > target.value)))
            && (d.CanStart() <==>
                  known && ((baseline.value < target.value && stressNg == Some(true))
                            || baseline == target || (semantics == Some(Minimum) && baseline.value > target.value)))
  {
    if semantics.Some? {
      match semantics.value
      case Minimum =>
      case Approximate =>
    }
  }
}
