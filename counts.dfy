/** How many particles a viewport gets: base counts scaled by the viewport area. */
module Counts {

  /** The reference resolution, 1280 by 720 CSS pixels. */
  const BaseArea: nat := 1280 * 720
  const RainBase: nat := 110
  const SnowBase: nat := 90
  const MinFactor: real := 0.5
  const MaxFactor: real := 1.75

  /** `Math.round` over the reals: the nearest integer, halves rounded up. */
  function Round(x: real): (r: int)
    ensures r as real - 0.5 <= x < r as real + 0.5
  {
    (x + 0.5).Floor
  }

  lemma RoundMonotone(x: real, y: real)
    requires x <= y
    ensures Round(x) <= Round(y)
  {
  }

  /** The viewport area relative to the reference area, clamped to [0.5, 1.75]. */
  function AreaFactor(w: nat, h: nat): (f: real)
    ensures MinFactor <= f <= MaxFactor
    ensures var ratio := (w * h) as real / BaseArea as real;
      (ratio <= MinFactor ==> f == MinFactor) &&
      (MaxFactor <= ratio ==> f == MaxFactor) &&
      (MinFactor <= ratio <= MaxFactor ==> f == ratio)
  {
    var ratio := (w * h) as real / BaseArea as real;
    if MaxFactor < ratio then MaxFactor
    else if ratio < MinFactor then MinFactor
    else ratio
  }

  lemma NonNegativeProduct(a: real, b: real)
    requires 0.0 <= a && 0.0 <= b
    ensures 0.0 <= a * b
  {
  }

  /** A larger viewport never gets a smaller factor. */
  lemma AreaFactorMonotone(w1: nat, h1: nat, w2: nat, h2: nat)
    requires w1 * h1 <= w2 * h2
    ensures AreaFactor(w1, h1) <= AreaFactor(w2, h2)
  {
    var r1 := (w1 * h1) as real / BaseArea as real;
    var r2 := (w2 * h2) as real / BaseArea as real;
    assert r1 <= r2;
  }

  /** The particle count for a base count at a viewport: the scaled count, rounded. */
  function ScaleCount(base: nat, w: nat, h: nat): (n: nat)
    ensures n as real - 0.5 <= base as real * AreaFactor(w, h) < n as real + 0.5
  {
    var f := AreaFactor(w, h);
    assert 0.0 <= base as real * f;
    Round(base as real * f)
  }

  /** `scaleCount(110)`: whatever the viewport, 55 to 193 drops. */
  function RainCount(w: nat, h: nat): (n: nat)
    ensures 55 <= n <= 193
  {
    ScaleCountBounds(RainBase, w, h);
    assert Round(110.0 * 0.5) == 55 && Round(110.0 * 1.75) == 193;
    ScaleCount(RainBase, w, h)
  }

  /** `scaleCount(90)`: whatever the viewport, 45 to 158 flakes. */
  function SnowCount(w: nat, h: nat): (n: nat)
    ensures 45 <= n <= 158
  {
    ScaleCountBounds(SnowBase, w, h);
    assert Round(90.0 * 0.5) == 45 && Round(90.0 * 1.75) == 158;
    ScaleCount(SnowBase, w, h)
  }

  /** Counts grow with the viewport area. */
  lemma ScaleCountMonotone(base: nat, w1: nat, h1: nat, w2: nat, h2: nat)
    requires w1 * h1 <= w2 * h2
    ensures ScaleCount(base, w1, h1) <= ScaleCount(base, w2, h2)
  {
    AreaFactorMonotone(w1, h1, w2, h2);
    var b, f1, f2 := base as real, AreaFactor(w1, h1), AreaFactor(w2, h2);
    NonNegativeProduct(b, f2 - f1);
    var x1, x2 := b * f1, b * f2;
    RoundMonotone(x1, x2);
  }

  /** A count lies between the rounded half and the rounded 1.75-fold base count. */
  lemma ScaleCountBounds(base: nat, w: nat, h: nat)
    ensures Round(base as real * MinFactor) <= ScaleCount(base, w, h) <= Round(base as real * MaxFactor)
  {
    var b, f := base as real, AreaFactor(w, h);
    NonNegativeProduct(b, f - MinFactor);
    NonNegativeProduct(b, MaxFactor - f);
    RoundMonotone(b * MinFactor, b * f);
    RoundMonotone(b * f, b * MaxFactor);
  }

  /** At the reference resolution the base counts come out unchanged. */
  lemma ReferenceCounts()
    ensures RainCount(1280, 720) == 110 && SnowCount(1280, 720) == 90
  {
    assert AreaFactor(1280, 720) == 1.0;
  }

  /** Both ends of the ranges are reached; 192.5 and 157.5 round up to 193 and 158. */
  lemma ExtremeCounts()
    ensures RainCount(320, 240) == 55 && SnowCount(320, 240) == 45
    ensures RainCount(3840, 2160) == 193 && SnowCount(3840, 2160) == 158
  {
    assert AreaFactor(320, 240) == MinFactor;
    assert AreaFactor(3840, 2160) == MaxFactor;
    assert Round(192.5) == 193 && Round(157.5) == 158;
  }
}
