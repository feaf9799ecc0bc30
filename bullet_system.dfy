/** `BulletSystem`: the 260-slot bullet pool with its rotating cursor, the
    per-enemy fire timers, and the frame that fires, moves, retires and
    resolves hits. Each method is proved against the rules in
    `BulletRules`. The enemy registry is passed in as an array the frame
    updates in place; the callbacks become returned counts. */
module BulletSystem {
  import opened Vectors
  import opened BulletRules
  import opened Wrappers
  import ShooterInput

  /** Where a player bullet starts: 0.9 along the drone's forward vector
      and 0.15 up. */
  function PlayerMuzzle(player: Vec3, forward: Vec3): (m: Vec3)
    ensures m.y == player.y + forward.y * 0.9 + 0.15
  {
    var p := Add(player, Scale(forward, 0.9));
    Vec3(p.x, p.y + 0.15, p.z)
  }

  /** The enemy-fire phase: no registry, no change; a timer list whose
      length does not match the registry is re-seeded from the enemies'
      cooldowns first. */
  function EnemyFirePhase(a: Armory, es: seq<Enemy>, dt: real, level: Level, jitter: seq<real>, aims: seq<Vec3>): (r: Armory)
    requires ValidArmory(a) && |es| == |jitter| == |aims|
    ensures ValidArmory(r)
    ensures |es| > 0 ==> |r.timers| == |es|
  {
    if |es| == 0 then a
    else
      var seeded := if |a.timers| != |es| then a.(timers := Cooldowns(es)) else a;
      FireUpTo(seeded, es, |es|, dt, FireRate(level), EnemyBulletSpeed(level), jitter, aims)
  }

  class Pool {
    var bullets: array<Bullet>
    var cursor: nat
    var timers: seq<real>
    var runId: int
    var level: Level

    ghost predicate Valid()
      reads this
    {
      bullets.Length == MaxBullets && cursor < MaxBullets
    }

    /** The pool, the cursor and the timers as one value. */
    ghost function State(): Armory
      reads this, bullets
    {
      Armory(bullets[..], cursor, timers)
    }

    /** Mount: the pool effect fills 260 idle slots and the timer effect
        empties the timers. */
    constructor (runId: int, level: Level)
      ensures Valid() && fresh(bullets) && cursor == 0 && timers == []
      ensures forall k :: 0 <= k < bullets.Length ==> bullets[k] == Idle
      ensures this.runId == runId && this.level == level
    {
      bullets := new Bullet[MaxBullets](_ => Idle);
      cursor := 0;
      timers := [];
      this.runId := runId;
      this.level := level;
    }

    /** New props: a new run rebuilds the pool and rewinds the cursor; a new
        run or level clears the fire timers. */
    method SetProps(newRunId: int, newLevel: Level)
      requires Valid()
      modifies this
      ensures Valid() && runId == newRunId && level == newLevel
      ensures newRunId != old(runId) ==>
                fresh(bullets) && cursor == 0 && forall k :: 0 <= k < bullets.Length ==> bullets[k] == Idle
      ensures newRunId == old(runId) ==> bullets == old(bullets) && cursor == old(cursor)
      ensures timers == if newRunId != old(runId) || newLevel != old(level) then [] else old(timers)
    {
      if newRunId != runId {
        bullets := new Bullet[MaxBullets](_ => Idle);
        cursor := 0;
      }
      if newRunId != runId || newLevel != level {
        timers := [];
      }
      runId, level := newRunId, newLevel;
    }

    /** `spawnBullet`: scan for a free slot from the cursor, fill it, and
        move the cursor past it. */
    method SpawnBullet(kind: Kind, origin: Vec3, dir: Vec3, speed: real)
      requires Valid()
      modifies this, bullets
      ensures Valid() && bullets == old(bullets) && runId == old(runId) && level == old(level)
      ensures State() == Spawn(old(State()), kind, origin, dir, speed)
    {
      var n := bullets.Length;
      var idx := cursor;
      var tries := 0;
      while tries < n
        invariant 0 <= tries <= n && Valid() && n == bullets.Length
        invariant unchanged(this) && unchanged(bullets)
        invariant idx == Ring(cursor, tries, n)
        invariant FreeOffset(bullets[..], cursor, tries) == FreeOffset(bullets[..], cursor, 0)
      {
        if !bullets[idx].active {
          break;
        }
        RingStep(cursor, tries, n);
        idx := (idx + 1) % n;
        tries := tries + 1;
      }
      bullets[idx] := Fired(kind, origin, dir, speed);
      cursor := (idx + 1) % n;
    }

    /** The player-fire section: one bullet, and one ammo consumed, exactly
        when fire was pressed this frame and there is ammo. */
    method PlayerFire(firePressed: bool, ammo: int, player: Vec3, forward: Vec3, aim: Vec3) returns (consumed: bool)
      requires Valid()
      modifies this, bullets
      ensures Valid() && bullets == old(bullets) && runId == old(runId) && level == old(level)
      ensures consumed == (firePressed && ammo > 0)
      ensures State() == if consumed then Spawn(old(State()), PlayerShot, PlayerMuzzle(player, forward), aim, PlayerBulletSpeed)
                         else old(State())
    {
      consumed := false;
      if firePressed && ammo > 0 {
        consumed := true;
        SpawnBullet(PlayerShot, PlayerMuzzle(player, forward), aim, PlayerBulletSpeed);
      }
    }

    /** The enemy-fire section. `aims[i]` is the unit vector from enemy `i`
        to the player; `jitter[i]` the `Math.random() * 0.15` drawn if it
        fires. */
    method EnemyFire(enemies: array<Enemy>, dt: real, jitter: seq<real>, aims: seq<Vec3>)
      requires Valid() && |jitter| == |aims| == enemies.Length
      modifies this, bullets
      ensures Valid() && bullets == old(bullets) && runId == old(runId) && level == old(level)
      ensures State() == EnemyFirePhase(old(State()), enemies[..], dt, level, jitter, aims)
    {
      var n := enemies.Length;
      if n == 0 {
        return;
      }
      if |timers| != n {
        timers := Cooldowns(enemies[..]);
      }
      ghost var seeded := State();
      var rate := FireRate(level);
      var speed := EnemyBulletSpeed(level);
      var i := 0;
      while i < n
        invariant 0 <= i <= n && Valid() && bullets == old(bullets)
        invariant runId == old(runId) && level == old(level)
        invariant ValidArmory(seeded) && |seeded.timers| == n
        invariant State() == FireUpTo(seeded, enemies[..], i, dt, rate, speed, jitter, aims)
      {
        FireStep(enemies[i], i, dt, rate, speed, jitter[i], aims[i]);
        i := i + 1;
      }
    }

    /** Enemy `i`'s turn in the fire loop. */
    method FireStep(e: Enemy, i: nat, dt: real, rate: real, speed: real, jitter: real, aim: Vec3)
      requires Valid() && i < |timers|
      modifies this, bullets
      ensures Valid() && bullets == old(bullets) && runId == old(runId) && level == old(level)
      ensures State() == FireOne(old(State()), e, i, dt, rate, speed, jitter, aim)
    {
      if e.alive {
        timers := timers[i := timers[i] - dt];
        if timers[i] <= 0.0 {
          timers := timers[i := rate + jitter];
          SpawnBullet(EnemyShot, Muzzle(e, aim), aim, speed);
        }
      }
    }

    /** The first alive enemy within reach of `p`, scanning by index. */
    static method FindTarget(enemies: array<Enemy>, p: Vec3) returns (j: nat)
      ensures j == FirstHit(enemies[..], p, 0)
    {
      j := 0;
      while j < enemies.Length
        invariant j <= enemies.Length
        invariant FirstHit(enemies[..], p, j) == FirstHit(enemies[..], p, 0)
      {
        var e := enemies[j];
        if e.alive && DistSq(p, e.pos) < EnemyR * EnemyR {
          return;
        }
        j := j + 1;
      }
    }

    /** The update-and-collide section over every slot. */
    method UpdateBullets(enemies: array<Enemy>, dt: real, player: Vec3) returns (playerHits: nat, kills: nat, enemyHits: nat)
      requires Valid()
      modifies bullets, enemies
      ensures World(bullets[..], enemies[..], playerHits, kills, enemyHits)
              == UpdateUpTo(World(old(bullets[..]), old(enemies[..]), 0, 0, 0), bullets.Length, dt, player)
    {
      ghost var w0 := World(bullets[..], enemies[..], 0, 0, 0);
      playerHits, kills, enemyHits := 0, 0, 0;
      var i := 0;
      while i < bullets.Length
        invariant 0 <= i <= bullets.Length
        invariant World(bullets[..], enemies[..], playerHits, kills, enemyHits) == UpdateUpTo(w0, i, dt, player)
      {
        var b := bullets[i];
        if b.active {
          var ttl := b.ttl - dt;
          if ttl <= 0.0 {
            bullets[i] := Retired(b, ttl);
          } else {
            var pos := Add(b.pos, Scale(b.vel, dt));
            if OutOfBounds(pos) {
              bullets[i] := Retired(b, ttl);
            } else if b.kind == EnemyShot {
              if DistSq(pos, player) < PlayerR * PlayerR {
                bullets[i] := Retired(b, ttl);
                playerHits := playerHits + 1;
              } else {
                bullets[i] := b.(ttl := ttl, pos := pos);
              }
            } else {
              var j := FindTarget(enemies, pos);
              if j == enemies.Length {
                bullets[i] := b.(ttl := ttl, pos := pos);
              } else {
                bullets[i] := Retired(b, ttl);
                enemyHits := enemyHits + 1;
                var e := enemies[j];
                var hp := e.hp - 1;
                e := e.(hp := hp);
                if hp <= 0 {
                  e := e.(alive := false);
                  kills := kills + 1;
                }
                enemies[j] := e;
              }
            }
          }
        }
        i := i + 1;
      }
    }

    /** One `useFrame` step: read the input edges, then, unless disabled,
        player fire, enemy fire, and the bullet update. The returned counts
        are the calls to `onHitPlayer`, `onEnemyKilled` and `onEnemyHit`;
        `consumed` is the call to `onConsumeAmmo`. */
    method Frame(input: ShooterInput.ShooterInputHook, r1: Option<bool>, enemies: array<Enemy>,
                 player: Vec3, forward: Vec3, aim: Vec3, aims: seq<Vec3>, jitter: seq<real>,
                 ammo: int, disabled: bool, dt: real)
      returns (consumed: bool, playerHits: nat, kills: nat, enemyHits: nat)
      requires Valid() && |jitter| == |aims| == enemies.Length
      modifies this, bullets, enemies, input
      ensures Valid() && bullets == old(bullets) && runId == old(runId) && level == old(level)
      ensures input.edges == ShooterInput.Read(old(input.edges), r1).next
      ensures input.out == ShooterInput.Read(old(input.edges), r1).out
      ensures disabled ==>
                State() == old(State()) && enemies[..] == old(enemies[..])
                && !consumed && playerHits == 0 && kills == 0 && enemyHits == 0
      ensures !disabled ==>
                consumed == (input.out.firePressed && ammo > 0)
                && var fired := if consumed
                                then Spawn(old(State()), PlayerShot, PlayerMuzzle(player, forward), aim, PlayerBulletSpeed)
                                else old(State());
                   var armed := EnemyFirePhase(fired, old(enemies[..]), dt, level, jitter, aims);
                   cursor == armed.cursor && timers == armed.timers
                   && World(bullets[..], enemies[..], playerHits, kills, enemyHits)
                      == UpdateUpTo(World(armed.pool, old(enemies[..]), 0, 0, 0), MaxBullets, dt, player)
    {
      input.ReadFrame(r1);
      consumed, playerHits, kills, enemyHits := false, 0, 0, 0;
      if disabled {
        return;
      }
      consumed := PlayerFire(input.out.firePressed, ammo, player, forward, aim);
      EnemyFire(enemies, dt, jitter, aims);
      playerHits, kills, enemyHits := UpdateBullets(enemies, dt, player);
    }
  }

  /** A fresh pool, one player shot: it lands in slot 0 with the player
      kind and a 1.4 s life, and the cursor moves to 1. */
  method FirstShot() returns (slot0: Bullet, cursor: nat)
    ensures slot0.active && slot0.kind == PlayerShot && slot0.ttl == 1.4 && cursor == 1
  {
    var pool := new Pool(0, 1);
    ghost var before := pool.bullets[..];
    assert !before[0].active;
    assert FreeOffset(before, 0, 0) == 0;
    var consumed := pool.PlayerFire(true, 30, Vec3(0.0, 2.0, 0.0), Vec3(0.0, 0.0, -1.0), Vec3(0.0, 0.0, -1.0));
    slot0 := pool.bullets[0];
    cursor := pool.cursor;
  }
}
