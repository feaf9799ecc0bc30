/** `BossDrone`: a kinematic pursuer that each frame moves toward a point
    behind and above the player at a distance-dependent speed, without ever
    passing that point, and hurts the drone on contact at most once per
    0.8 s. */
module BossDrone {
  import opened Vectors
  import Smoothing
  import Contact

  const Spawn: Vec3 := Vec3(0.0, 6.0, -45.0)
  const ContactCooldown: real := 0.8
  const BaseSpeed: real := 3.0

  /** The chase point: the target's x, 0.6 above it but never below 1.8, and
      4.5 behind it. */
  function Desired(t: Vec3): (d: Vec3)
    ensures d.x == t.x && d.z == t.z - 4.5
    ensures d.y >= 1.8 && d.y >= t.y + 0.6
    ensures d.y == 1.8 || d.y == t.y + 0.6
  {
    Vec3(t.x, Smoothing.Max(1.8, t.y + 0.6), t.z - 4.5)
  }

  /** The speed: 3 up to a distance of 6, then rising by 0.2 per unit up to
      5.6 from a distance of 19 on. */
  function Speed(dist: real): (s: real)
    ensures BaseSpeed <= s <= 5.6
    ensures dist <= 6.0 ==> s == BaseSpeed
    ensures dist >= 19.0 ==> s == 5.6
  {
    BaseSpeed + Smoothing.Clamp((dist - 6.0) * 0.2, 0.0, 2.6)
  }

  /** A farther boss never chases slower. */
  lemma SpeedMonotone(d1: real, d2: real)
    requires d1 <= d2
    ensures Speed(d1) <= Speed(d2)
  {
    Smoothing.ClampMonotone((d1 - 6.0) * 0.2, (d2 - 6.0) * 0.2, 0.0, 2.6);
  }

  /** The length of this frame's move: the whole distance when it is
      within reach, else one frame's worth of speed. */
  function StepLength(dist: real, dt: real): (step: real)
    ensures step <= dist && step <= Speed(dist) * dt
    ensures step == dist || step == Speed(dist) * dt
  {
    Smoothing.Min(dist, Speed(dist) * dt)
  }

  lemma StepLengthNonNegative(dist: real, dt: real)
    requires dist >= 0.0 && dt >= 0.0
    ensures StepLength(dist, dt) >= 0.0
  {
    var s := Speed(dist);
    assert s * dt >= 0.0;
  }

  /** The next position: `p` moved by `StepLength` along the unit vector to
      `d`. `dist` is the length `dir.length()` computes; a zero-length
      direction normalises to zero, so the boss stays put. */
  function Next(p: Vec3, d: Vec3, dist: real, dt: real): Vec3 {
    if dist == 0.0 then p
    else Add(p, Scale(Scale(Sub(d, p), 1.0 / dist), StepLength(dist, dt)))
  }

  function NormSq(u: Vec3): real {
    u.x * u.x + u.y * u.y + u.z * u.z
  }

  lemma NormSqScale(u: Vec3, k: real)
    ensures NormSq(Scale(u, k)) == k * k * NormSq(u)
  {
    assert (u.x * k) * (u.x * k) == k * k * (u.x * u.x);
    assert (u.y * k) * (u.y * k) == k * k * (u.y * u.y);
    assert (u.z * k) * (u.z * k) == k * k * (u.z * u.z);
  }

  lemma ScaleScale(u: Vec3, a: real, b: real)
    ensures Scale(Scale(u, a), b) == Scale(u, a * b)
  {
    assert u.x * a * b == u.x * (a * b);
    assert u.y * a * b == u.y * (a * b);
    assert u.z * a * b == u.z * (a * b);
  }

  /** Moving `p` by `k` times `u` covers `k²|u|²` and leaves `(1-k)²|u|²` to
      `p + u`. */
  lemma AlongSegment(p: Vec3, u: Vec3, k: real)
    ensures DistSq(p, Add(p, Scale(u, k))) == k * k * NormSq(u)
    ensures DistSq(Add(p, Scale(u, k)), Add(p, u)) == (1.0 - k) * (1.0 - k) * NormSq(u)
  {
    assert DistSq(p, Add(p, Scale(u, k))) == NormSq(Scale(u, k));
    NormSqScale(u, k);
    assert Sub(Add(p, u), Add(p, Scale(u, k))) == Scale(u, 1.0 - k);
    assert DistSq(Add(p, Scale(u, k)), Add(p, u)) == NormSq(Scale(u, 1.0 - k));
    NormSqScale(u, 1.0 - k);
  }

  lemma SquareOfRatio(k: real, dist: real, step: real)
    requires dist > 0.0 && k == (1.0 / dist) * step
    ensures k * k * (dist * dist) == step * step
    ensures (1.0 - k) * (1.0 - k) * (dist * dist) == (dist - step) * (dist - step)
  {
    assert k * dist == step;
    assert k * k * (dist * dist) == (k * dist) * (k * dist);
    assert (1.0 - k) * dist == dist - step;
    assert (1.0 - k) * (1.0 - k) * (dist * dist) == ((1.0 - k) * dist) * ((1.0 - k) * dist);
  }

  /** The move lies on the segment from `p` to `d`: the boss covers exactly
      `StepLength` and has `dist - StepLength` left, so it never passes the
      chase point and moves at most `Speed(dist) * dt`. */
  lemma NextOnSegment(p: Vec3, d: Vec3, dist: real, dt: real)
    requires dist > 0.0 && dist * dist == DistSq(p, d) && dt >= 0.0
    ensures var n := Next(p, d, dist, dt); var step := StepLength(dist, dt);
            DistSq(p, n) == step * step
            && DistSq(n, d) == (dist - step) * (dist - step)
            && 0.0 <= step <= dist && step <= Speed(dist) * dt
  {
    StepLengthNonNegative(dist, dt);
    NextDistances(p, d, dist, dt);
  }

  lemma NextDistances(p: Vec3, d: Vec3, dist: real, dt: real)
    requires dist > 0.0 && dist * dist == DistSq(p, d)
    ensures DistSq(p, Next(p, d, dist, dt)) == StepLength(dist, dt) * StepLength(dist, dt)
    ensures DistSq(Next(p, d, dist, dt), d) == (dist - StepLength(dist, dt)) * (dist - StepLength(dist, dt))
  {
    NextUnfold(p, d, dist, dt);
    assert Add(p, Sub(d, p)) == d;
    MoveBy(p, Sub(d, p), (1.0 / dist) * StepLength(dist, dt), dist, StepLength(dist, dt));
  }


  lemma NextUnfold(p: Vec3, d: Vec3, dist: real, dt: real)
    requires dist > 0.0
    ensures Next(p, d, dist, dt) == Add(p, Scale(Sub(d, p), (1.0 / dist) * StepLength(dist, dt)))
  {
    ScaleScale(Sub(d, p), 1.0 / dist, StepLength(dist, dt));
  }

  lemma MoveBy(p: Vec3, u: Vec3, k: real, dist: real, step: real)
    requires dist > 0.0 && k == (1.0 / dist) * step && NormSq(u) == dist * dist
    ensures DistSq(p, Add(p, Scale(u, k))) == step * step
    ensures DistSq(Add(p, Scale(u, k)), Add(p, u)) == (dist - step) * (dist - step)
  {
    AlongSegment(p, u, k);
    SquareOfRatio(k, dist, step);
  }

  /** Within one frame's reach the boss lands exactly on the chase point. */
  lemma NextArrives(p: Vec3, d: Vec3, dist: real, dt: real)
    requires dist > 0.0 && dist <= Speed(dist) * dt
    ensures Next(p, d, dist, dt) == d
  {
    assert StepLength(dist, dt) == dist;
    var u := Sub(d, p);
    ScaleScale(u, 1.0 / dist, dist);
    assert (1.0 / dist) * dist == 1.0;
  }

  class Boss {
    var pos: Vec3
    const hits: Contact.Cooldown

    ghost predicate Valid()
    {
      hits.period == ContactCooldown
    }

    /** `runId` is accepted but never used: the frame hook meant to respawn
        the boss on a new run has an empty body. */
    constructor (runId: int)
      ensures pos == Spawn && fresh(hits) && Valid() && hits.last == 0.0
    {
      pos := Spawn;
      hits := new Contact.Cooldown(ContactCooldown);
    }

    /** The pursuit hook: `dist` is the length of `desired - pos`. */
    method Frame(target: Vec3, dist: real, dt: real)
      requires dist >= 0.0 && dist * dist == DistSq(pos, Desired(target))
      modifies this
      ensures pos == Next(old(pos), Desired(target), dist, dt)
    {
      var desired := Desired(target);
      if dist == 0.0 {
        return;
      }
      var dir := Scale(Sub(desired, pos), 1.0 / dist);
      var step := StepLength(dist, dt);
      pos := Add(pos, Scale(dir, step));
    }

    /** Contact damage: only the drone counts, at most once per 0.8 s. */
    method OnCollisionEnter(otherType: string, now: real) returns (hit: bool)
      requires Valid()
      modifies hits
      ensures hit <==> otherType == "drone" && Contact.Accepted(now, old(hits.last), ContactCooldown)
      ensures hits.last == if hit then now else old(hits.last)
    {
      hit := false;
      if otherType == "drone" {
        hit := hits.Try(now);
      }
    }
  }
}
