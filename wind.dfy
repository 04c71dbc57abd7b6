/** The shared wind: a scalar that drifts toward an occasionally re-drawn target. */
module Wind {
  import opened MathRandom

  /** Chance per frame that a new target is drawn. */
  const ChangeChance: real := 0.004
  /** Fraction of the remaining distance covered per frame. */
  const Smoothing: real := 0.006
  /** Width of the symmetric target range [-0.4, 0.4). */
  const Span: real := 0.8
  const Limit: real := 0.4

  datatype WindState = WindState(wind: real, target: real)

  /** The two `Math.random()` draws of one update; `pick` is only used when `change` falls under the chance. */
  datatype WindDraw = WindDraw(change: real, pick: real)
  {
    predicate Valid() { Unit(change) && Unit(pick) }
  }

  /** Both the value and its target lie in [-0.4, 0.4]. */
  predicate Bounded(s: WindState)
  {
    -Limit <= s.wind <= Limit && -Limit <= s.target <= Limit
  }

  /** The wind at page load. */
  const Calm: WindState := WindState(0.0, 0.0)

  /** A freshly drawn target. */
  function NewTarget(u: real): (t: real)
    requires Unit(u)
    ensures -Limit <= t < Limit
  {
    (u - 0.5) * Span
  }

  /** One smoothing step: the value moves 0.6% of the way to the target. */
  function Smooth(wind: real, target: real): (r: real)
    ensures wind <= target ==> wind <= r <= target
    ensures target <= wind ==> target <= r <= wind
    ensures wind != target ==> (if r < target then target - r else r - target) < (if wind < target then target - wind else wind - target)
  {
    wind + (target - wind) * Smoothing
  }

  /** One `updateWind` call. */
  function Step(s: WindState, d: WindDraw): (r: WindState)
    requires d.Valid()
    ensures d.change < ChangeChance ==> -Limit <= r.target < Limit
    ensures ChangeChance <= d.change ==> r.target == s.target
    ensures s.wind <= r.target ==> s.wind <= r.wind <= r.target
    ensures r.target <= s.wind ==> r.target <= r.wind <= s.wind
  {
    var target := if d.change < ChangeChance then NewTarget(d.pick) else s.target;
    WindState(Smooth(s.wind, target), target)
  }

  /** An update keeps the wind bounded. */
  lemma StepBounded(s: WindState, d: WindDraw)
    requires d.Valid() && Bounded(s)
    ensures Bounded(Step(s, d))
  {
  }

  /** A single update never moves the wind by more than 0.6% of the widest possible gap, 0.8. */
  lemma StepJumpBound(s: WindState, d: WindDraw)
    requires d.Valid() && Bounded(s)
    ensures -Smoothing * Span <= Step(s, d).wind - s.wind <= Smoothing * Span
  {
    var t := Step(s, d).target;
    assert -Span <= t - s.wind <= Span;
    assert Step(s, d).wind - s.wind == (t - s.wind) * Smoothing;
  }

  /** The wind after a run of updates. */
  function Run(s: WindState, ds: seq<WindDraw>): WindState
    requires forall i :: 0 <= i < |ds| ==> ds[i].Valid()
    decreases |ds|
  {
    if ds == [] then s else Run(Step(s, ds[0]), ds[1..])
  }

  /** Starting calm, |wind| <= 0.4 holds after any number of updates. */
  lemma {:induction false} RunBounded(s: WindState, ds: seq<WindDraw>)
    requires forall i :: 0 <= i < |ds| ==> ds[i].Valid()
    requires Bounded(s)
    ensures Bounded(Run(s, ds))
    decreases |ds|
  {
    if ds != [] {
      StepBounded(s, ds[0]);
      RunBounded(Step(s, ds[0]), ds[1..]);
    }
  }

  lemma CalmStaysBounded(ds: seq<WindDraw>)
    requires forall i :: 0 <= i < |ds| ==> ds[i].Valid()
    ensures -Limit <= Run(Calm, ds).wind <= Limit
  {
    RunBounded(Calm, ds);
  }
}
