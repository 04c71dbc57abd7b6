/** Rain drops and snow flakes: spawning, per-frame stepping and recycling. */
module Particles {
  import opened MathRandom

  /** `Math.PI` as a double, written as a decimal. */
  const Pi: real := 3.141592653589793
  /** Fixed horizontal margins beyond the viewport edges before a particle is recycled. */
  const RainMargin: real := 50.0
  const SnowMargin: real := 60.0

  /** A drop: position, streak length, vertical and horizontal speed. */
  datatype Drop = Drop(x: real, y: real, len: real, vy: real, vx: real)

  /** A flake: position, radius, vertical speed and sway phase. */
  datatype Flake = Flake(x: real, y: real, r: real, vy: real, phase: real)

  /** The four `Math.random()` draws of `resetRain`, in call order. */
  datatype RainDraw = RainDraw(x: real, y: real, len: real, vy: real)
  {
    predicate Valid() { Unit(x) && Unit(y) && Unit(len) && Unit(vy) }
  }

  /** The five `Math.random()` draws of `resetSnow`, in call order. */
  datatype SnowDraw = SnowDraw(x: real, y: real, r: real, vy: real, phase: real)
  {
    predicate Valid() { Unit(x) && Unit(y) && Unit(r) && Unit(vy) && Unit(phase) }
  }

  /** A horizontal position across a viewport of width `w`: [0, w), or 0 for an empty viewport. */
  predicate Across(x: real, w: real)
  {
    0.0 <= x <= w && (0.0 < w ==> x < w)
  }

  /** The fixed ranges of a drop's streak length and speed. */
  predicate DropShape(d: Drop)
  {
    12.0 <= d.len < 34.0 && 3.5 <= d.vy < 9.0
  }

  /** The fixed ranges of a flake's radius and speed. */
  predicate FlakeShape(f: Flake)
  {
    1.5 <= f.r < 4.0 && 0.4 <= f.vy < 1.5
  }

  /** A drop just reset: across the width, 20 to 140 above the top edge, drifting with the wind. */
  predicate RainSpawned(d: Drop, w: real, wind: real)
  {
    Across(d.x, w) && -140.0 < d.y <= -20.0 && DropShape(d) && d.vx == wind * 0.6
  }

  /** A flake just reset, given the radius it had before: it starts at least that radius above the top edge. */
  predicate SnowSpawned(f: Flake, oldR: real, w: real)
  {
    Across(f.x, w) && -oldR - 100.0 < f.y <= -oldR && FlakeShape(f) && 0.0 <= f.phase < 2.0 * Pi
  }

  /** `resetRain`: every field is drawn afresh, so the old drop does not matter. */
  function ResetRain(u: RainDraw, w: real, wind: real): (d: Drop)
    requires u.Valid() && 0.0 <= w
    ensures RainSpawned(d, w, wind)
  {
    ScaledDraw(u.x, w);
    Drop(u.x * w, -20.0 - u.y * 120.0, 12.0 + u.len * 22.0, 3.5 + u.vy * 5.5, wind * 0.6)
  }

  /** `resetSnow`: the new height is taken from the radius before the radius is re-drawn. */
  function ResetSnow(f: Flake, u: SnowDraw, w: real): (g: Flake)
    requires u.Valid() && 0.0 <= w
    ensures SnowSpawned(g, f.r, w)
  {
    ScaledDraw(u.x, w);
    Flake(u.x * w, -f.r - u.y * 100.0, 1.5 + u.r * 2.5, 0.4 + u.vy * 1.1, u.phase * Pi * 2.0)
  }

  /** The old radius shows through: a small flake re-drawn large pokes below the top edge. */
  lemma RespawnCanOverlapTopEdge()
    ensures var g := ResetSnow(Flake(0.0, 500.0, 1.5, 1.0, 0.0), SnowDraw(0.0, 0.0, 0.9, 0.0, 0.0), 800.0);
      g.y + g.r > 0.0
  {
  }

  /** A spawned drop or flake starts at or above the top edge. */
  lemma SpawnedAboveTop(d: Drop, f: Flake, oldR: real, w: real, wind: real)
    requires RainSpawned(d, w, wind) && SnowSpawned(f, oldR, w) && 0.0 <= oldR
    ensures d.y <= 0.0 && f.y <= 0.0
  {
  }

  /** Within the viewport height `h`: [0, h), or 0 for an empty viewport. */
  predicate Down(y: real, h: real)
  {
    0.0 <= y <= h && (0.0 < h ==> y < h)
  }

  /** A drop as `initParticles` creates it: reset, then placed anywhere down the viewport. */
  function InitDrop(u: RainDraw, uy: real, w: real, h: real, wind: real): (d: Drop)
    requires u.Valid() && Unit(uy) && 0.0 <= w && 0.0 <= h
    ensures Across(d.x, w) && Down(d.y, h) && DropShape(d) && d.vx == wind * 0.6
  {
    ScaledDraw(uy, h);
    ResetRain(u, w, wind).(y := uy * h)
  }

  /** A flake as `initParticles` creates it: a radius-2 flake reset, then placed anywhere down the viewport. */
  function InitFlake(u: SnowDraw, uy: real, w: real, h: real): (f: Flake)
    requires u.Valid() && Unit(uy) && 0.0 <= w && 0.0 <= h
    ensures Across(f.x, w) && Down(f.y, h) && FlakeShape(f) && 0.0 <= f.phase < 2.0 * Pi
  {
    ScaledDraw(uy, h);
    ResetSnow(Flake(0.0, 0.0, 2.0, 0.0, 0.0), u, w).(y := uy * h)
  }

  /** A drop moved one frame: its horizontal speed follows the wind, then it advances by its velocity. */
  function Fall(d: Drop, wind: real): (r: Drop)
    ensures r.y - d.y == d.vy && r.x - d.x == r.vx == wind * 0.6
    ensures r.len == d.len && r.vy == d.vy
  {
    var vx := wind * 0.6;
    d.(vx := vx, x := d.x + vx, y := d.y + d.vy)
  }

  /**
   * The recycle test for drops: `y - len` is below the bottom edge (the streak, drawn
   * from `y` down to `y + len`, is more than a streak length past it), or the drop is
   * beyond a side margin.
   */
  predicate RainGone(d: Drop, w: real, h: real)
  {
    d.y - d.len > h || d.x < -RainMargin || d.x > w + RainMargin
  }

  /** `updateRain` for one drop. */
  function StepDrop(d: Drop, u: RainDraw, w: real, h: real, wind: real): (r: Drop)
    requires u.Valid() && 0.0 <= w && 0.0 <= h
    ensures !RainGone(r, w, h)
    ensures RainGone(Fall(d, wind), w, h) ==> RainSpawned(r, w, wind)
    ensures !RainGone(Fall(d, wind), w, h) ==> r == Fall(d, wind)
    ensures r.vx == wind * 0.6
    ensures DropShape(d) ==> DropShape(r)
  {
    var moved := Fall(d, wind);
    if RainGone(moved, w, h) then ResetRain(u, w, wind) else moved
  }

  /** A flake moved one frame; `sin` stands for `Math.sin`. */
  function Drift(f: Flake, sin: real -> real, wind: real): (r: Flake)
    ensures r.y - f.y == f.vy && r.r == f.r && r.vy == f.vy
    ensures 0.0 <= f.r ==> f.phase + 0.015 <= r.phase
    ensures r.x - f.x == sin(r.phase) * (0.4 + f.r * 0.2) + wind * 0.5
  {
    var phase := f.phase + 0.015 + f.r * 0.003;
    var sway := sin(phase) * (0.4 + f.r * 0.2) + wind * 0.5;
    f.(phase := phase, x := f.x + sway, y := f.y + f.vy)
  }

  /** The recycle test for flakes: `y - r` is below the bottom edge, or the flake is beyond a side margin. */
  predicate SnowGone(f: Flake, w: real, h: real)
  {
    f.y - f.r > h || f.x < -SnowMargin || f.x > w + SnowMargin
  }

  /** `updateSnow` for one flake. */
  function StepFlake(f: Flake, sin: real -> real, u: SnowDraw, w: real, h: real, wind: real): (r: Flake)
    requires u.Valid() && 0.0 <= w && 0.0 <= h
    ensures 0.0 <= f.r ==> !SnowGone(r, w, h)
    ensures SnowGone(Drift(f, sin, wind), w, h) ==> SnowSpawned(r, f.r, w)
    ensures !SnowGone(Drift(f, sin, wind), w, h) ==> r == Drift(f, sin, wind)
    ensures FlakeShape(f) ==> FlakeShape(r)
  {
    var moved := Drift(f, sin, wind);
    if SnowGone(moved, w, h) then ResetSnow(moved, u, w) else moved
  }

  /** A drop that stays moves by exactly its speed downward and the wind's share sideways. */
  lemma StayingDropAdvances(d: Drop, u: RainDraw, w: real, h: real, wind: real)
    requires u.Valid() && 0.0 <= w && 0.0 <= h
    requires !RainGone(Fall(d, wind), w, h)
    ensures StepDrop(d, u, w, h, wind).y == d.y + d.vy
    ensures StepDrop(d, u, w, h, wind).x == d.x + wind * 0.6
  {
  }

  /** A drop that leaves lands back above the top edge, across the viewport. */
  lemma LeavingDropRespawns(d: Drop, u: RainDraw, w: real, h: real, wind: real)
    requires u.Valid() && 0.0 <= w && 0.0 <= h
    requires RainGone(Fall(d, wind), w, h)
    ensures StepDrop(d, u, w, h, wind).y <= -20.0
    ensures Across(StepDrop(d, u, w, h, wind).x, w)
  {
  }

  /** A flake that stays moves down by its speed and sideways by its sway. */
  lemma StayingFlakeAdvances(f: Flake, sin: real -> real, u: SnowDraw, w: real, h: real, wind: real)
    requires u.Valid() && 0.0 <= w && 0.0 <= h
    requires !SnowGone(Drift(f, sin, wind), w, h)
    ensures var g := StepFlake(f, sin, u, w, h, wind);
      g.y == f.y + f.vy && g.r == f.r && g.vy == f.vy &&
      g.x == f.x + sin(g.phase) * (0.4 + f.r * 0.2) + wind * 0.5
  {
  }
}
