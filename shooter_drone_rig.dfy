/** `ShooterDroneRig`: the player's drone in shooter mode. Each frame applies
    a pending reset, then a freeze or the disabled gate, reports the pose,
    clamps to the ground, auto-levels, and pushes the body toward the
    velocity the stick asks for, with a wind gust and a wind speed cap from
    level 2 on. */
module ShooterDroneRig {
  import opened Vectors
  import opened Flight
  import opened Wrappers
  import Smoothing
  import PlayerInput
  import Contact

  const HitCooldown: real := 0.6
  const MaxUp: real := 3.2
  const MaxDown: real := -2.6
  const AccelY: real := 3.5
  const AccelH: real := 2.2
  /** The factor auto-levelling applies to the x and z spin. */
  const Damp: real := 0.92

  /** The vertical speed the lift stick asks for: proportional beyond a
      0.05 dead band, and no descent once the frame started at the ground. */
  function VyTarget(lift: real, y: real): (t: real)
    ensures -1.0 <= lift <= 1.0 ==> MaxDown <= t <= MaxUp
    ensures t > 0.0 <==> lift > 0.05
    ensures t < 0.0 <==> lift < -0.05 && y > MinY + 0.001
  {
    var t0 := if lift > 0.05 then MaxUp * lift else 0.0;
    var t1 := if lift < -0.05 then MaxDown * (-lift) else t0;
    if lift < -0.05 && y <= MinY + 0.001 then 0.0 else t1
  }

  function MaxHSpeed(boost: bool): real {
    if boost then 4.2 else 3.0
  }

  /** The horizontal target velocity. `dir` stands for the normalised move
      vector the camera or body axes give; sticks at rest ask for zero. */
  function HorizontalTarget(mx: real, mz: real, dir: Vec3, boost: bool): (t: Vec3)
    ensures Smoothing.Abs(mx) + Smoothing.Abs(mz) < 0.001 ==> t == Zero
    ensures Smoothing.Abs(dir.x) <= 1.0 && Smoothing.Abs(dir.z) <= 1.0 ==>
              Smoothing.Abs(t.x) <= MaxHSpeed(boost) && Smoothing.Abs(t.z) <= MaxHSpeed(boost)
    ensures t.y == 0.0
  {
    var move := if Smoothing.Abs(mx) + Smoothing.Abs(mz) < 0.001 then Zero else dir;
    Vec3(move.x * MaxHSpeed(boost), 0.0, move.z * MaxHSpeed(boost))
  }

  /** The force added in the movement section: mass times the gained
      velocity error on each axis. */
  function Thrust(m: real, input: PlayerInput.Input, y: real, v: Vec3, dir: Vec3): Vec3 {
    var h := HorizontalTarget(input.moveX, input.moveZ, dir, input.boost);
    Vec3(ControlForce(m, h.x, v.x, AccelH),
         ControlForce(m, VyTarget(input.lift, y), v.y, AccelY),
         ControlForce(m, h.z, v.z, AccelH))
  }

  /** A drone flying at its target velocity gets no force. */
  lemma ThrustVanishesAtTarget(m: real, input: PlayerInput.Input, y: real, dir: Vec3)
    ensures var h := HorizontalTarget(input.moveX, input.moveZ, dir, input.boost);
            Thrust(m, input, y, Vec3(h.x, VyTarget(input.lift, y), h.z), dir) == Zero
  {
  }

  /** Wind strength by level: none on level 1. */
  function WindStrength(windLevel: int): (s: real)
    ensures s == 0.0 <==> windLevel < 2
    ensures 0.0 <= s <= 0.28
  {
    var s0 := if windLevel == 2 then 0.18 else 0.0;
    if windLevel >= 3 then 0.28 else s0
  }

  function MaxWindSpeed(windLevel: int): real {
    if windLevel <= 2 then 3.0 else 3.4
  }

  /** Under wind the horizontal speed is capped and the vertical speed left
      alone; without wind nothing changes. */
  function WindClamp(v: Vec3, windLevel: int): (r: Vec3)
    ensures r.y == v.y
    ensures WindStrength(windLevel) == 0.0 ==> r == v
    ensures WindStrength(windLevel) > 0.0 ==>
              Smoothing.Abs(r.x) <= MaxWindSpeed(windLevel) && Smoothing.Abs(r.z) <= MaxWindSpeed(windLevel)
    ensures Smoothing.Abs(v.x) <= MaxWindSpeed(windLevel) && Smoothing.Abs(v.z) <= MaxWindSpeed(windLevel) ==> r == v
  {
    if WindStrength(windLevel) > 0.0 then
      var cap := MaxWindSpeed(windLevel);
      Vec3(Smoothing.Clamp(v.x, -cap, cap), v.y, Smoothing.Clamp(v.z, -cap, cap))
    else v
  }

  /** Auto-levelling damps the x and z spin and keeps the yaw spin. */
  function Damped(w: Vec3): (r: Vec3)
    ensures r.y == w.y
    ensures Smoothing.Abs(r.x) <= Smoothing.Abs(w.x) && Smoothing.Abs(r.z) <= Smoothing.Abs(w.z)
    ensures r.x == 0.0 <==> w.x == 0.0
  {
    Vec3(w.x * Damp, w.y, w.z * Damp)
  }

  /** What `onPose` receives: the position and rotation read at the start
      of the control step. */
  datatype Pose = Pose(pos: Vec3, rot: Quat)

  predicate IsHazard(tag: string) {
    tag == "danger-ground" || tag == "obstacle"
  }

  class Rig {
    const body: Body
    const hits: Contact.Cooldown
    var lastResetSeen: int

    /** The hit debounce runs on the 0.6 s cooldown. */
    ghost predicate Valid()
    {
      hits.period == HitCooldown
    }

    /** The body starts at (0, 1, 0) with mass 1. */
    constructor (resetSignal: int)
      ensures fresh(body) && fresh(hits)
      ensures body.pos == Vec3(0.0, 1.0, 0.0) && body.mass == 1.0 && body.linvel == Zero
      ensures Valid() && hits.last == 0.0
      ensures lastResetSeen == resetSignal
    {
      body := new Body(Vec3(0.0, 1.0, 0.0), 1.0);
      hits := new Contact.Cooldown(HitCooldown);
      lastResetSeen := resetSignal;
    }

    /** One `useFrame` step. `input` is this frame's `read()` output, which
        carries no yaw, so the yaw branch never runs. `levelled` is the
        auto-level correction (None when the drone is already level); `dir`
        the normalised move vector; `wind` the gust force. */
    method Frame(input: PlayerInput.Input, resetSignal: int, freeze: bool, disabled: bool, freeLook: bool,
                 windLevel: int, levelled: Option<Quat>, dir: Vec3, wind: Vec3)
      returns (pose: Option<Pose>)
      modifies this, body
      ensures lastResetSeen == resetSignal
      ensures freeze ==>
        pose == None && body.pos == Spawn && body.linvel == Zero && body.angvel == Zero
        && body.rot == Identity && body.force == old(body.force)
      ensures var reset := old(lastResetSeen) != resetSignal;
        !freeze && disabled ==>
        pose == None && body.force == old(body.force)
        && body.pos == (if reset then Spawn else old(body.pos))
        && body.linvel == (if reset then Zero else old(body.linvel))
        && body.angvel == (if reset then Zero else old(body.angvel))
        && body.rot == (if reset then Identity else old(body.rot))
      ensures var reset := old(lastResetSeen) != resetSignal;
        var p0 := if reset then Spawn else old(body.pos);
        var v0 := ClampVel(p0, if reset then Zero else old(body.linvel));
        var w0 := if reset then Zero else old(body.angvel);
        var r0 := if reset then Identity else old(body.rot);
        var thrust := Thrust(body.mass, input, p0.y, v0, dir);
        var level := !freeLook && levelled.Some?;
        !freeze && !disabled ==>
        pose == Some(Pose(p0, r0))
        && body.pos == ClampPos(p0)
        && body.rot == (if level then levelled.value else r0)
        && body.angvel == (if level then Damped(w0) else w0)
        && body.force == (if WindStrength(windLevel) > 0.0 then Add(Add(old(body.force), thrust), wind)
                          else Add(old(body.force), thrust))
        && body.linvel == WindClamp(v0, windLevel)
    {
      if lastResetSeen != resetSignal {
        lastResetSeen := resetSignal;
        body.ToSpawn();
      }
      if freeze {
        body.ToSpawn();
        return None;
      }
      if disabled {
        return None;
      }
      var pos := body.pos;
      pose := Some(Pose(pos, body.rot));
      body.GroundClamp();
      if !freeLook && levelled.Some? {
        body.rot := levelled.value;
        body.angvel := Damped(body.angvel);
      }
      var v := body.linvel;
      body.AddForce(Thrust(body.mass, input, pos.y, v, dir));
      if WindStrength(windLevel) > 0.0 {
        body.AddForce(wind);
        var vNow := body.linvel;
        var cap := MaxWindSpeed(windLevel);
        body.linvel := Vec3(Smoothing.Clamp(vNow.x, -cap, cap), vNow.y, Smoothing.Clamp(vNow.z, -cap, cap));
      }
    }

    /** `onCollisionEnter`: a ground hazard or an obstacle costs a hit (and
        a flash) at most once per 0.6 s. */
    method OnCollisionEnter(otherType: string, now: real) returns (hit: bool)
      requires Valid()
      modifies hits
      ensures hit <==> IsHazard(otherType) && Contact.Accepted(now, old(hits.last), HitCooldown)
      ensures hits.last == if hit then now else old(hits.last)
    {
      hit := false;
      if IsHazard(otherType) {
        hit := hits.Try(now);
      }
    }
  }

  /** A drone that starts a frame sunk below the ground reports the sunk
      position to `onPose` and only then is lifted to `MinY`; a falling
      velocity is zeroed. */
  method PoseIsReadBeforeClamp() returns (reported: real, after: real, vy: real)
    ensures reported == 0.1 && after == MinY && vy == 0.0
  {
    var rig := new Rig(0);
    rig.body.pos := Vec3(0.0, 0.1, 0.0);
    rig.body.linvel := Vec3(0.0, -1.0, 0.0);
    var pose := rig.Frame(PlayerInput.Input(0.0, 0.0, 0.0, false), 0, false, false, false, 1, None, Zero, Zero);
    reported := pose.value.pos.y;
    after := rig.body.pos.y;
    vy := rig.body.linvel.y;
  }
}
