/** What the two drone rigs share: the physics body they drive through
    setters and `addForce`, the spawn pose, the ground clamp and the
    proportional velocity controller. */
module Flight {
  import opened Vectors
  import Smoothing

  datatype Quat = Quat(x: real, y: real, z: real, w: real)

  const Identity: Quat := Quat(0.0, 0.0, 0.0, 1.0)

  /** Where a reset or a freeze puts the drone. */
  const Spawn: Vec3 := Vec3(0.0, 2.0, 0.0)

  /** `GROUND_Y + DRONE_HALF_HEIGHT + GROUND_EPS`. */
  const MinY: real := 0.0 + 0.2 + 0.01

  /** A dynamic body as the rigs see it. `force` accumulates what `addForce`
      adds; the physics step that integrates it is not part of the model, so
      within one frame a velocity read after `addForce` sees the velocity
      from before. */
  class Body {
    var pos: Vec3
    var linvel: Vec3
    var angvel: Vec3
    var rot: Quat
    var force: Vec3
    const mass: real

    constructor (pos: Vec3, mass: real)
      ensures this.pos == pos && this.mass == mass
      ensures linvel == Zero && angvel == Zero && rot == Identity && force == Zero
    {
      this.pos := pos;
      this.mass := mass;
      linvel, angvel, rot, force := Zero, Zero, Identity, Zero;
    }

    /** The four setters a reset or a freeze calls. */
    method ToSpawn()
      modifies this
      ensures pos == Spawn && linvel == Zero && angvel == Zero && rot == Identity
      ensures force == old(force)
    {
      pos, linvel, angvel, rot := Spawn, Zero, Zero, Identity;
    }

    /** The ground clamp at the top of the control step. */
    method GroundClamp()
      modifies this
      ensures pos == ClampPos(old(pos)) && linvel == ClampVel(old(pos), old(linvel))
      ensures angvel == old(angvel) && rot == old(rot) && force == old(force)
    {
      if pos.y <= MinY {
        pos := Vec3(pos.x, MinY, pos.z);
        if linvel.y < 0.0 {
          linvel := Vec3(linvel.x, 0.0, linvel.z);
        }
      }
    }

    method AddForce(f: Vec3)
      modifies this
      ensures force == Add(old(force), f)
      ensures pos == old(pos) && linvel == old(linvel) && angvel == old(angvel) && rot == old(rot)
    {
      force := Add(force, f);
    }
  }

  /** The body's position after the ground clamp: never below `MinY`, x and
      z kept, and untouched when above the ground. */
  function ClampPos(p: Vec3): (r: Vec3)
    ensures r.y >= MinY && r.x == p.x && r.z == p.z
    ensures p.y >= MinY ==> r == p
    ensures p.y < MinY ==> r.y == MinY
  {
    if p.y <= MinY then Vec3(p.x, MinY, p.z) else p
  }

  /** The velocity after the ground clamp: at the ground it no longer points
      down; x and z are kept. */
  function ClampVel(p: Vec3, v: Vec3): (r: Vec3)
    ensures r.x == v.x && r.z == v.z
    ensures p.y <= MinY ==> r.y >= 0.0 && (v.y >= 0.0 ==> r == v)
    ensures p.y <= MinY && v.y < 0.0 ==> r.y == 0.0
    ensures p.y > MinY ==> r == v
  {
    if p.y <= MinY && v.y < 0.0 then Vec3(v.x, 0.0, v.z) else v
  }

  /** One axis of the controller: `m * (target - v) * gain`. */
  function ControlForce(m: real, target: real, v: real, gain: real): real {
    m * ((target - v) * gain)
  }

  /** With a positive mass and gain the force pushes the velocity toward
      its target, and vanishes exactly when the target is reached. */
  lemma ControlForceSign(m: real, target: real, v: real, gain: real)
    requires m > 0.0 && gain > 0.0
    ensures ControlForce(m, target, v, gain) > 0.0 <==> target > v
    ensures ControlForce(m, target, v, gain) < 0.0 <==> target < v
    ensures ControlForce(m, target, v, gain) == 0.0 <==> target == v
  {
    var e := target - v;
    if e > 0.0 {
      assert e * gain > 0.0;
      assert m * (e * gain) > 0.0;
    } else if e < 0.0 {
      assert e * gain < 0.0;
      assert m * (e * gain) < 0.0;
    }
  }
}
