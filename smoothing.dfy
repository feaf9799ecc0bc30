/** The two scalar helpers of the smoothing utilities. */
module Smoothing {

  function Abs(v: real): real {
    if v < 0.0 then -v else v
  }

  /** `Math.sign`. */
  function Sign(v: real): real {
    if v > 0.0 then 1.0 else if v < 0.0 then -1.0 else 0.0
  }

  function Min(a: real, b: real): real {
    if a <= b then a else b
  }

  function Max(a: real, b: real): real {
    if a >= b then a else b
  }

  /** Steps `current` towards `target` by at most `maxDelta`, landing on
      `target` when it is within reach. */
  function MoveTowards(current: real, target: real, maxDelta: real): (r: real)
    ensures Abs(target - current) <= maxDelta ==> r == target
    ensures maxDelta >= 0.0 ==> Abs(r - current) <= maxDelta
  {
    if Abs(target - current) <= maxDelta then target
    else current + Sign(target - current) * maxDelta
  }

  /** With a non-negative step the target is reached exactly when it is in reach. */
  lemma MoveTowardsReachesTarget(current: real, target: real, maxDelta: real)
    requires maxDelta >= 0.0
    ensures MoveTowards(current, target, maxDelta) == target <==> Abs(target - current) <= maxDelta
  {
  }

  /** No overshoot: the result lies between `current` and `target`, has moved
      by at most `maxDelta` (exactly `maxDelta` when the target is out of
      reach), and the remaining gap shrank by exactly the step. */
  lemma MoveTowardsNoOvershoot(current: real, target: real, maxDelta: real)
    requires maxDelta >= 0.0
    ensures var r := MoveTowards(current, target, maxDelta);
      && Min(current, target) <= r <= Max(current, target)
      && Abs(r - current) <= maxDelta
      && (Abs(target - current) > maxDelta ==> Abs(r - current) == maxDelta)
      && Abs(target - r) == Max(0.0, Abs(target - current) - maxDelta)
  {
  }

  /** `Math.max(min, Math.min(max, v))`. */
  function Clamp(v: real, min: real, max: real): (r: real)
    ensures min <= max ==> min <= r <= max
    ensures min <= v <= max ==> r == v
    ensures min > max ==> r == min
  {
    Max(min, Min(max, v))
  }

  lemma ClampIdempotent(v: real, min: real, max: real)
    ensures Clamp(Clamp(v, min, max), min, max) == Clamp(v, min, max)
  {
  }

  /** Clamping is monotone in the clamped value. */
  lemma ClampMonotone(u: real, v: real, min: real, max: real)
    requires u <= v
    ensures Clamp(u, min, max) <= Clamp(v, min, max)
  {
  }
}
