/** The collect lifecycle shared by an ammo crate (`AmmoBox`) and a coin
    (`Coin`): a kinematic body that bobs in place until the drone touches
    it, then hands its payload over exactly once and unmounts. */
module Collectible {
  import opened Vectors
  import opened Contact
  import opened Wrappers

  /** The minimum time between two accepted contacts, in seconds. */
  const CollectCooldown: real := 0.25
  /** The bobbing amplitude. */
  const Bob: real := 0.15

  /** One pickup: its body (position and velocities), the refs
      `collectQueuedRef`, `lastCollectRef` and `aliveRef`, and the payload
      handed to `onCollect` (the crate's amount; nothing for a coin). */
  class Pickup<T> {
    const base: Vec3
    const payload: T
    var pos: Vec3
    var linvel: Vec3
    var angvel: Vec3
    var collectQueued: bool
    var lastCollect: real
    var alive: bool

    /** A collection is only ever queued while the pickup is alive. */
    ghost predicate Valid()
      reads this
    {
      collectQueued ==> alive
    }

    constructor (base: Vec3, payload: T)
      ensures Valid() && this.base == base && this.payload == payload && pos == base
      ensures alive && !collectQueued && lastCollect == 0.0
    {
      this.base := base;
      this.payload := payload;
      pos := base;
      linvel, angvel := Zero, Zero;
      collectQueued := false;
      lastCollect := 0.0;
      alive := true;
    }

    /** `onCollisionEnter`: only the drone counts, and only 0.25 s after the
        last accepted contact. A dead pickup has no body, so no contact. */
    method OnCollisionEnter(otherType: string, now: real)
      requires Valid()
      modifies this
      ensures Valid() && pos == old(pos) && alive == old(alive)
      ensures linvel == old(linvel) && angvel == old(angvel)
      ensures if old(alive) && otherType == "drone" && Accepted(now, old(lastCollect), CollectCooldown)
              then collectQueued && lastCollect == now
              else collectQueued == old(collectQueued) && lastCollect == old(lastCollect)
    {
      if !alive { return; }
      if otherType != "drone" { return; }
      if now - lastCollect < CollectCooldown { return; }
      lastCollect := now;
      collectQueued := true;
    }

    /** One frame: a queued collection hands over the payload once and kills
        the pickup; a live pickup keeps its x and z, stops, and bobs within
        0.15 of its base height. `s` is `Math.sin(t * 1.6 + phase)`. */
    method Frame(s: real) returns (collected: Option<T>)
      requires Valid() && -1.0 <= s <= 1.0
      modifies this
      ensures Valid() && !collectQueued && lastCollect == old(lastCollect)
      ensures collected == (if old(collectQueued) then Some(payload) else None)
      ensures alive == (old(alive) && !old(collectQueued))
      ensures alive ==> pos == Vec3(old(pos).x, base.y + s * Bob, old(pos).z)
                        && linvel == Zero && angvel == Zero
      ensures alive ==> base.y - Bob <= pos.y <= base.y + Bob
      ensures !alive ==> pos == old(pos) && linvel == old(linvel) && angvel == old(angvel)
    {
      collected := None;
      if collectQueued {
        collectQueued := false;
        collected := Some(payload);
        alive := false;
      }
      if !alive { return; }
      pos := Vec3(pos.x, base.y + s * Bob, pos.z);
      linvel, angvel := Zero, Zero;
    }
  }

  /** A pickup touched twice by the drone within the cooldown, then left for
      three frames, hands its payload over exactly once. */
  method CollectOnce<T>(base: Vec3, payload: T) returns (first: Option<T>, second: Option<T>, third: Option<T>, aliveAfter: bool)
    ensures first == Some(payload) && second == None && third == None && !aliveAfter
  {
    var p := new Pickup(base, payload);
    p.OnCollisionEnter("drone", 1.0);
    p.OnCollisionEnter("drone", 1.1);
    first := p.Frame(0.0);
    p.OnCollisionEnter("drone", 2.0);
    second := p.Frame(0.5);
    third := p.Frame(-0.5);
    aliveAfter := p.alive;
  }
}
