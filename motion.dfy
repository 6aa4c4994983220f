/**
 The per-instrument position step of `animate` (script.js, lines 254-260 and
 279-301), without the trigonometry: the sinusoidal candidate position and the
 displacement of the collision push-apart are inputs. The step clamps the
 candidate to the window margins, adds the collision displacement, pushes the
 result away from the pointer, and moves the instrument's current position a
 fraction of the way towards it.
 */
module Motion {
  import opened Options
  import opened Rate

  datatype Vec = Vec(x: real, y: real)

  function Add(a: Vec, b: Vec): Vec
  {
    Vec(a.x + b.x, a.y + b.y)
  }

  function Abs(v: real): real
  {
    if v < 0.0 then -v else v
  }

  predicate Between(a: real, v: real, b: real)
  {
    (a <= v <= b) || (b <= v <= a)
  }

  /** `d` is the Euclidean distance between `p` and `q`. */
  predicate IsDistance(d: real, p: Vec, q: Vec)
  {
    d >= 0.0 && d * d == (q.x - p.x) * (q.x - p.x) + (q.y - p.y) * (q.y - p.y)
  }

  /** Gap kept to the window edges by the clamp, in pixels. */
  const Margin: real := 5.0
  /** Pointer influence radius, in pixels. */
  const MouseRange: real := 500.0
  /** Repulsion strength at zero distance, before scaling by the speed factor. */
  const AvoidBase: real := 0.15
  /** Smoothing factor before scaling by the speed factor. */
  const SmoothingBase: real := 0.04

  // ---------------------------------------------------------------- clamp

  /** `Math.max(margin, Math.min(dim - margin, v))`. */
  function Clamp(v: real, dim: real): (r: real)
    ensures Margin <= r
    ensures 2.0 * Margin <= dim ==> r <= dim - Margin
    ensures Margin <= v <= dim - Margin ==> r == v
    ensures dim < 2.0 * Margin ==> r == Margin
  {
    if dim - Margin < v then (if dim - Margin < Margin then Margin else dim - Margin)
    else if v < Margin then Margin
    else v
  }

  /** Within a window wide enough for both margins, the clamp picks the point of the
      allowed range nearest to `v`. */
  lemma ClampNearest(v: real, dim: real, u: real)
    requires Margin <= u <= dim - Margin
    ensures Abs(Clamp(v, dim) - v) <= Abs(u - v)
  {
  }

  function Clamped(p: Vec, width: real, height: real): (r: Vec)
    ensures 2.0 * Margin <= width ==> Margin <= r.x <= width - Margin
    ensures 2.0 * Margin <= height ==> Margin <= r.y <= height - Margin
  {
    Vec(Clamp(p.x, width), Clamp(p.y, height))
  }

  // ---------------------------------------------------------------- pointer repulsion

  /** `window.mouseX && window.mouseY`: the pointer position is set and neither coordinate is 0. */
  predicate MouseActive(mouse: Option<Vec>)
  {
    mouse.Some? && mouse.value.x != 0.0 && mouse.value.y != 0.0
  }

  /** The repulsion factor at distance `d`: linear falloff from AvoidBase * speedFactor at the
      pointer to 0 at the edge of the influence radius. */
  function RepelFactor(d: real, speedFactor: real): (f: real)
    ensures 0.0 <= d < MouseRange && 0.0 < speedFactor ==> 0.0 < f <= AvoidBase * speedFactor
  {
    (1.0 - d / MouseRange) * (AvoidBase * speedFactor)
  }

  lemma RepelFactorFalloff(d1: real, d2: real, speedFactor: real)
    requires d1 <= d2 && 0.0 <= speedFactor
    ensures RepelFactor(d2, speedFactor) <= RepelFactor(d1, speedFactor)
  {
  }

  /** Pushes `p` away from the pointer when the pointer is active and within range;
      `d` is the pointer's distance to `p`. */
  function Repel(p: Vec, mouse: Option<Vec>, d: real, speedFactor: real): (r: Vec)
    ensures !MouseActive(mouse) || MouseRange <= d ==> r == p
    ensures MouseActive(mouse) && d < MouseRange ==>
      var m, f := mouse.value, RepelFactor(d, speedFactor);
      m.x - r.x == (1.0 + f) * (m.x - p.x) && m.y - r.y == (1.0 + f) * (m.y - p.y)
  {
    if MouseActive(mouse) && d < MouseRange then
      var dx, dy := mouse.value.x - p.x, mouse.value.y - p.y;
      var f := RepelFactor(d, speedFactor);
      Vec(p.x - dx * f, p.y - dy * f)
    else
      p
  }

  /** Inside the influence radius the point retreats straight away from the pointer: its
      distance to the pointer grows from `d` to `(1 + f) * d`, with `f` at most AvoidBase * speedFactor. */
  lemma RepelMovesAway(p: Vec, m: Vec, d: real, speedFactor: real)
    requires MouseActive(Some(m)) && IsDistance(d, p, m) && d < MouseRange
    requires 0.0 < speedFactor
    ensures var f := RepelFactor(d, speedFactor);
      0.0 < f <= AvoidBase * speedFactor &&
      IsDistance((1.0 + f) * d, Repel(p, Some(m), d, speedFactor), m) &&
      d <= (1.0 + f) * d
  {
  }

  // ---------------------------------------------------------------- smoothing

  function SmoothingFactor(speedFactor: real): (s: real)
    ensures MinRate <= speedFactor <= MaxRate ==> 0.0 < s < 1.0
  {
    SmoothingBase * speedFactor
  }

  /** `current += (target - current) * smoothing`. */
  function Smooth(current: real, target: real, speedFactor: real): (r: real)
    ensures 0.0 <= SmoothingFactor(speedFactor) <= 1.0 ==> Between(current, r, target)
    ensures target - r == (1.0 - SmoothingFactor(speedFactor)) * (target - current)
  {
    var s := SmoothingFactor(speedFactor);
    ScaledGap(current, target, s);
    current + (target - current) * s
  }

  /** Moving from `a` a fraction `s` of the way to `b` leaves `(1 - s)` of the gap, and for
      `s` in [0, 1] ends between `a` and `b`. Smooth calls it: without it the nonlinear
      postconditions of Smooth fail on some solver seeds. */
  lemma ScaledGap(a: real, b: real, s: real)
    ensures b - (a + (b - a) * s) == (1.0 - s) * (b - a)
    ensures 0.0 <= s <= 1.0 ==> Between(a, a + (b - a) * s, b)
  {
  }

  /** With a speed factor in the playback-rate range, one smoothing step ends between the old
      position and the target, and shrinks the remaining distance by the factor (1 - smoothing). */
  lemma SmoothStep(current: real, target: real, speedFactor: real)
    requires MinRate <= speedFactor <= MaxRate
    ensures var s := SmoothingFactor(speedFactor);
      0.0 < s < 1.0 &&
      Between(current, Smooth(current, target, speedFactor), target) &&
      Abs(target - Smooth(current, target, speedFactor)) == (1.0 - s) * Abs(target - current)
  {
  }

  /** JavaScript truthiness of `instrument.currentX`: unset or 0 count as absent. */
  predicate Falsy(v: Option<real>)
  {
    v.None? || v.value == 0.0
  }

  /** One axis of the smoothing step, with the first-frame initialisation
      `if (!instrument.currentX) instrument.currentX = newX`. */
  function Settle(current: Option<real>, target: real, speedFactor: real): (r: real)
    ensures Falsy(current) ==> r == target
    ensures !Falsy(current) && MinRate <= speedFactor <= MaxRate ==>
      Between(current.value, r, target) &&
      Abs(target - r) <= Abs(target - current.value)
  {
    var start := if Falsy(current) then target else current.value;
    if MinRate <= speedFactor <= MaxRate then
      SmoothStep(start, target, speedFactor);
      Smooth(start, target, speedFactor)
    else
      Smooth(start, target, speedFactor)
  }

  // ---------------------------------------------------------------- one instrument

  /** The smoothed position `animate` keeps on each instrument element. */
  datatype Instrument = Instrument(currentX: Option<real>, currentY: Option<real>)

  /** The per-frame inputs the model takes instead of computing them:
      `candidate` is the sinusoidal position (newX, newY) before the clamp,
      `push` is the total displacement the collision push-apart adds after the clamp, and
      `distance` is the pointer's Euclidean distance to the position after that push. */
  datatype FrameInput = FrameInput(candidate: Vec, push: Vec, distance: real)

  /** The position after clamp and collision push, before the pointer repulsion. */
  function Pushed(input: FrameInput, width: real, height: real): Vec
  {
    Add(Clamped(input.candidate, width, height), input.push)
  }

  /** The target position `animate` smooths towards. */
  function Target(input: FrameInput, mouse: Option<Vec>, width: real, height: real, speedFactor: real): (r: Vec)
    ensures !MouseActive(mouse) || MouseRange <= input.distance ==> r == Pushed(input, width, height)
  {
    Repel(Pushed(input, width, height), mouse, input.distance, speedFactor)
  }

  /** Without collision push and without pointer influence the target respects the margins. */
  lemma TargetWithinMarginsUndisturbed(input: FrameInput, mouse: Option<Vec>, width: real, height: real, speedFactor: real)
    requires 2.0 * Margin <= width && 2.0 * Margin <= height
    requires input.push == Vec(0.0, 0.0)
    requires !MouseActive(mouse) || MouseRange <= input.distance
    ensures var t := Target(input, mouse, width, height, speedFactor);
      Margin <= t.x <= width - Margin && Margin <= t.y <= height - Margin
  {
  }

  /** The repulsion acts after the clamp, so it can carry the target past the margin: a candidate
      at x = 0 is clamped to the left margin, and with no collision push and the pointer 95 px to
      its right it is pushed to x = -6.5425. */
  lemma RepulsionCanLeaveMargins()
    ensures Clamped(Vec(0.0, 5.0), 1000.0, 800.0) == Vec(5.0, 5.0)
    ensures IsDistance(95.0, Vec(5.0, 5.0), Vec(100.0, 5.0))
    ensures Repel(Vec(5.0, 5.0), Some(Vec(100.0, 5.0)), 95.0, 1.0).x < Margin
  {
    assert RepelFactor(95.0, 1.0) == 0.1215;
  }

  /** One instrument's smoothing step towards `target`; afterwards both coordinates are set. */
  function Step(e: Instrument, target: Vec, speedFactor: real): (r: Instrument)
    ensures r.currentX.Some? && r.currentY.Some?
    ensures Falsy(e.currentX) ==> r.currentX.value == target.x
    ensures Falsy(e.currentY) ==> r.currentY.value == target.y
    ensures MinRate <= speedFactor <= MaxRate && !Falsy(e.currentX) ==>
      Between(e.currentX.value, r.currentX.value, target.x)
    ensures MinRate <= speedFactor <= MaxRate && !Falsy(e.currentY) ==>
      Between(e.currentY.value, r.currentY.value, target.y)
  {
    Instrument(Some(Settle(e.currentX, target.x, speedFactor)), Some(Settle(e.currentY, target.y, speedFactor)))
  }
}
