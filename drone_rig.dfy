/** `DroneRig`: the free-flight drone driven by the held keys of
    `useKeyboardInput` (R/F throttle, W/S/A/D movement). Each frame applies
    a pending reset, stops if disabled, clamps to the ground, pushes toward
    the key target velocity and caps the velocity. */
module DroneRig {
  import opened Vectors
  import opened Flight
  import Smoothing
  import KeyboardInput
  import PlayerInput
  import Contact

  const HitCooldown: real := 0.6
  const MaxUp: real := 3.2
  const MaxDown: real := -2.6
  const Accel: real := 3.5
  const MaxHSpeed: real := 3.0
  const HAccel: real := 2.2

  /** The throttle keys' vertical target: down overrides up, and a drone at
      the ground is not asked to descend. */
  function VyTarget(up: bool, down: bool, y: real): (t: real)
    ensures t == MaxUp <==> up && !down
    ensures t == MaxDown <==> down && y > MinY + 0.001
    ensures t == 0.0 <==> (!up && !down) || (down && y <= MinY + 0.001)
  {
    var t0 := if up then MaxUp else 0.0;
    var t1 := if down then MaxDown else t0;
    if down && y <= MinY + 0.001 then 0.0 else t1
  }

  /** The force of one frame: the WASD axes times 3.0 horizontally. */
  function Thrust(m: real, keys: KeyboardInput.KeyboardState, y: real, v: Vec3): Vec3 {
    var ix := PlayerInput.KeyAxis(keys.right, keys.left);
    var iz := PlayerInput.KeyAxis(keys.back, keys.forward);
    Vec3(ControlForce(m, ix as real * MaxHSpeed, v.x, HAccel),
         ControlForce(m, VyTarget(keys.throttleUp, keys.throttleDown, y), v.y, Accel),
         ControlForce(m, iz as real * MaxHSpeed, v.z, HAccel))
  }

  /** The horizontal targets are -3, 0 or 3 on each axis. */
  lemma HorizontalTargets(keys: KeyboardInput.KeyboardState)
    ensures var ix := PlayerInput.KeyAxis(keys.right, keys.left) as real * MaxHSpeed;
            ix == -3.0 || ix == 0.0 || ix == 3.0
    ensures var iz := PlayerInput.KeyAxis(keys.back, keys.forward) as real * MaxHSpeed;
            iz == -3.0 || iz == 0.0 || iz == 3.0
  {
  }

  /** The final velocity cap: 5 horizontally and 4 vertically; a velocity
      within the caps is left alone. */
  function VelocityCap(v: Vec3): (r: Vec3)
    ensures -5.0 <= r.x <= 5.0 && -4.0 <= r.y <= 4.0 && -5.0 <= r.z <= 5.0
    ensures -5.0 <= v.x <= 5.0 && -4.0 <= v.y <= 4.0 && -5.0 <= v.z <= 5.0 ==> r == v
  {
    Vec3(Smoothing.Max(-5.0, Smoothing.Min(5.0, v.x)),
         Smoothing.Max(-4.0, Smoothing.Min(4.0, v.y)),
         Smoothing.Max(-5.0, Smoothing.Min(5.0, v.z)))
  }

  class Rig {
    const body: Body
    const hits: Contact.Cooldown
    var lastResetSeen: int

    ghost predicate Valid()
    {
      hits.period == HitCooldown
    }

    constructor (resetSignal: int)
      ensures fresh(body) && fresh(hits) && Valid() && hits.last == 0.0
      ensures body.pos == Vec3(0.0, 1.0, 0.0) && body.mass == 1.0 && body.linvel == Zero
      ensures lastResetSeen == resetSignal
    {
      body := new Body(Vec3(0.0, 1.0, 0.0), 1.0);
      hits := new Contact.Cooldown(HitCooldown);
      lastResetSeen := resetSignal;
    }

    /** One `useFrame` step; the camera follow is not modelled. */
    method Frame(keys: KeyboardInput.KeyboardState, resetSignal: int, disabled: bool)
      modifies this, body
      ensures lastResetSeen == resetSignal
      ensures var reset := old(lastResetSeen) != resetSignal;
        var p0 := if reset then Spawn else old(body.pos);
        var v0 := if reset then Zero else old(body.linvel);
        body.angvel == (if reset then Zero else old(body.angvel))
        && body.rot == (if reset then Identity else old(body.rot))
        && (disabled ==> body.pos == p0 && body.linvel == v0 && body.force == old(body.force))
        && (!disabled ==>
              body.pos == ClampPos(p0)
              && body.force == Add(old(body.force), Thrust(body.mass, keys, p0.y, ClampVel(p0, v0)))
              && body.linvel == VelocityCap(ClampVel(p0, v0)))
    {
      if lastResetSeen != resetSignal {
        lastResetSeen := resetSignal;
        body.ToSpawn();
      }
      if disabled {
        return;
      }
      var pos := body.pos;
      body.GroundClamp();
      var v := body.linvel;
      body.AddForce(Thrust(body.mass, keys, pos.y, v));
      var v2 := body.linvel;
      body.linvel := Vec3(Smoothing.Max(-5.0, Smoothing.Min(5.0, v2.x)),
                          Smoothing.Max(-4.0, Smoothing.Min(4.0, v2.y)),
                          Smoothing.Max(-5.0, Smoothing.Min(5.0, v2.z)));
    }

    /** A ground hazard or an obstacle costs a hit at most once per 0.6 s. */
    method OnCollisionEnter(otherType: string, now: real) returns (hit: bool)
      requires Valid()
      modifies hits
      ensures hit <==> (otherType == "danger-ground" || otherType == "obstacle")
                       && Contact.Accepted(now, old(hits.last), HitCooldown)
      ensures hits.last == if hit then now else old(hits.last)
    {
      hit := false;
      if otherType == "danger-ground" || otherType == "obstacle" {
        hit := hits.Try(now);
      }
    }
  }
}
