/** The rules `BulletSystem` applies each frame, as functions over values:
    slot acquisition in the 260-slot pool, the per-bullet update with its
    collisions, and the enemies' fire timers. The class in `BulletSystem`
    runs them in place and is proved against them. */
module BulletRules {
  import opened Vectors
  import Enemies

  type Enemy = Enemies.Enemy

  datatype Kind = PlayerShot | EnemyShot

  datatype Bullet = Bullet(active: bool, pos: Vec3, vel: Vec3, ttl: real, kind: Kind)

  const MaxBullets: nat := 260
  /** Where a retired bullet is parked. */
  const Parked: Vec3 := Vec3(0.0, -9999.0, 0.0)
  /** A slot as the pool effect creates it. */
  const Idle: Bullet := Bullet(false, Parked, Zero, 0.0, PlayerShot)

  const PlayerBulletSpeed: real := 18.0
  const PlayerR: real := 0.55
  const EnemyR: real := 0.70
  /** The upper bound (exclusive) of the `Math.random() * 0.15` jitter. */
  const MaxJitter: real := 0.15

  type Level = l: int | 1 <= l <= 8 witness 1

  /** Seconds between an enemy's shots, by level. */
  function FireRate(level: Level): (r: real)
    ensures 0.55 <= r <= 1.1
  {
    if level <= 2 then 1.1 else if level <= 4 then 0.85 else if level <= 6 then 0.70 else 0.55
  }

  /** Enemy bullet speed, by level. */
  function EnemyBulletSpeed(level: Level): (s: real)
    ensures 10.0 <= s <= 14.0
  {
    if level <= 3 then 10.0 else if level <= 6 then 12.0 else 14.0
  }

  /** Harder levels fire at least as often, with bullets at least as fast. */
  lemma DifficultyMonotone(l1: Level, l2: Level)
    requires l1 <= l2
    ensures FireRate(l2) <= FireRate(l1) && EnemyBulletSpeed(l1) <= EnemyBulletSpeed(l2)
  {
  }

  function TtlOf(kind: Kind): real {
    if kind == PlayerShot then 1.4 else 2.0
  }

  /** How many elements of `s` satisfy `f`. */
  function CountIf<T>(s: seq<T>, f: T -> bool): (n: nat)
    ensures n <= |s|
  {
    if |s| == 0 then 0 else CountIf(s[..|s| - 1], f) + (if f(s[|s| - 1]) then 1 else 0)
  }

  /** Replacing one element changes the count by that element alone. */
  lemma {:induction false} CountIfUpdate<T>(s: seq<T>, f: T -> bool, j: nat, x: T)
    requires j < |s|
    ensures CountIf(s[j := x], f) + (if f(s[j]) then 1 else 0) == CountIf(s, f) + (if f(x) then 1 else 0)
  {
    var t := s[j := x];
    assert t[..|t| - 1] == if j == |s| - 1 then s[..|s| - 1] else s[..|s| - 1][j := x];
    if j < |s| - 1 {
      CountIfUpdate(s[..|s| - 1], f, j, x);
    }
  }

  // ---------------------------------------------------------------
  // Slot acquisition
  // ---------------------------------------------------------------

  /** The slot `k` steps after `c` in a ring of `n`: `(c + k) % n`
      written without the modulus. */
  function Ring(c: nat, k: nat, n: nat): (r: nat)
    requires c < n && k <= n
    ensures r < n
  {
    if c + k < n then c + k else c + k - n
  }

  /** One more step is one more `(idx + 1) % n`, as the scan loop computes. */
  lemma RingStep(c: nat, k: nat, n: nat)
    requires c < n && k < n
    ensures Ring(c, k + 1, n) == (Ring(c, k, n) + 1) % n
  {
  }

  /** How many slots, counting from `cursor + t` onward and wrapping, are
      active before the first free one; `|pool|` when every one from there
      is active. */
  function FreeOffset(pool: seq<Bullet>, cursor: nat, t: nat): (m: nat)
    requires cursor < |pool| && t <= |pool|
    ensures t <= m <= |pool|
    ensures m < |pool| ==> !pool[Ring(cursor, m, |pool|)].active
    ensures forall k :: t <= k < m ==> pool[Ring(cursor, k, |pool|)].active
    decreases |pool| - t
  {
    if t == |pool| || !pool[Ring(cursor, t, |pool|)].active then t
    else FreeOffset(pool, cursor, t + 1)
  }

  /** The slot `spawnBullet` takes: the first inactive one scanning forward
      from the cursor with wrap-around, or the cursor slot itself when every
      slot is active. */
  function Slot(pool: seq<Bullet>, cursor: nat): (r: nat)
    requires cursor < |pool|
    ensures r < |pool|
  {
    Ring(cursor, FreeOffset(pool, cursor, 0), |pool|)
  }

  predicate IsActive(b: Bullet) {
    b.active
  }

  /** A free slot is always found when there is one; with none, the oldest
      slot (the cursor's) is overwritten. */
  lemma SlotChoice(pool: seq<Bullet>, cursor: nat)
    requires cursor < |pool|
    ensures (exists k :: 0 <= k < |pool| && !pool[k].active) ==> !pool[Slot(pool, cursor)].active
    ensures (forall k :: 0 <= k < |pool| ==> pool[k].active) ==> Slot(pool, cursor) == cursor
  {
    var m := FreeOffset(pool, cursor, 0);
    if m == |pool| {
      forall k | 0 <= k < |pool|
        ensures pool[k].active
      {
        var o := if k >= cursor then k - cursor else k + |pool| - cursor;
        assert Ring(cursor, o, |pool|) == k;
      }
    }
  }

  /** The new bullet: active, aimed along `dir` at `speed`, with its kind's
      time to live. */
  function Fired(kind: Kind, origin: Vec3, dir: Vec3, speed: real): (b: Bullet)
    ensures b.active && b.kind == kind && b.pos == origin
    ensures b.ttl == (if kind == PlayerShot then 1.4 else 2.0)
    ensures b.vel == Scale(dir, speed)
  {
    Bullet(true, origin, Scale(dir, speed), TtlOf(kind), kind)
  }

  /** The pool and cursor after a spawn. */
  datatype Armory = Armory(pool: seq<Bullet>, cursor: nat, timers: seq<real>)

  predicate ValidArmory(a: Armory) {
    |a.pool| == MaxBullets && a.cursor < |a.pool|
  }

  function Spawn(a: Armory, kind: Kind, origin: Vec3, dir: Vec3, speed: real): (r: Armory)
    requires ValidArmory(a)
    ensures ValidArmory(r) && r.timers == a.timers
    ensures var s := Slot(a.pool, a.cursor);
            r.pool == a.pool[s := Fired(kind, origin, dir, speed)] && r.cursor == (s + 1) % |a.pool|
  {
    var s := Slot(a.pool, a.cursor);
    Armory(a.pool[s := Fired(kind, origin, dir, speed)], (s + 1) % |a.pool|, a.timers)
  }

  /** A spawn into a pool with a free slot adds exactly one active bullet. */
  lemma SpawnAddsOne(a: Armory, kind: Kind, origin: Vec3, dir: Vec3, speed: real)
    requires ValidArmory(a) && exists k :: 0 <= k < |a.pool| && !a.pool[k].active
    ensures CountIf(Spawn(a, kind, origin, dir, speed).pool, IsActive) == CountIf(a.pool, IsActive) + 1
  {
    var s := Slot(a.pool, a.cursor);
    SlotChoice(a.pool, a.cursor);
    CountIfUpdate(a.pool, IsActive, s, Fired(kind, origin, dir, speed));
  }

  // ---------------------------------------------------------------
  // Enemy fire
  // ---------------------------------------------------------------

  /** The timers a mismatched timer list is re-seeded with. */
  function Cooldowns(es: seq<Enemy>): (ts: seq<real>)
    ensures |ts| == |es| && forall i :: 0 <= i < |es| ==> ts[i] == es[i].fireCooldown
  {
    seq(|es|, i requires 0 <= i < |es| => es[i].fireCooldown)
  }

  /** Where an enemy's bullet starts: 0.8 along its aim. */
  function Muzzle(e: Enemy, aim: Vec3): Vec3 {
    Add(e.pos, Scale(aim, 0.8))
  }

  /** Enemy `i`'s turn in the fire loop: a dead enemy is skipped; an alive
      one counts its timer down and, on expiry, re-arms it with the level's
      rate plus jitter and fires once along `aim`. */
  function FireOne(a: Armory, e: Enemy, i: nat, dt: real, rate: real, speed: real, jitter: real, aim: Vec3): (r: Armory)
    requires ValidArmory(a) && i < |a.timers|
    ensures ValidArmory(r) && |r.timers| == |a.timers|
    ensures forall k :: 0 <= k < |a.timers| && k != i ==> r.timers[k] == a.timers[k]
  {
    if !e.alive then a
    else
      var t := a.timers[i] - dt;
      if t <= 0.0 then Spawn(a.(timers := a.timers[i := rate + jitter]), EnemyShot, Muzzle(e, aim), aim, speed)
      else a.(timers := a.timers[i := t])
  }

  /** The fire loop over the first `n` enemies. */
  function FireUpTo(a: Armory, es: seq<Enemy>, n: nat, dt: real, rate: real, speed: real,
                    jitter: seq<real>, aims: seq<Vec3>): (r: Armory)
    requires ValidArmory(a) && n <= |es| == |a.timers| == |jitter| == |aims|
    ensures ValidArmory(r) && |r.timers| == |a.timers|
    ensures forall k :: n <= k < |a.timers| ==> r.timers[k] == a.timers[k]
  {
    if n == 0 then a
    else FireOne(FireUpTo(a, es, n - 1, dt, rate, speed, jitter, aims), es[n - 1], n - 1, dt, rate, speed, jitter[n - 1], aims[n - 1])
  }

  /** After the fire loop, a dead enemy's timer is untouched; an alive
      enemy's timer is its old value minus `dt` while that stays positive,
      and otherwise a fresh `rate + jitter`. Either way it is positive. */
  lemma {:induction false} FireTimers(a: Armory, es: seq<Enemy>, n: nat, dt: real, rate: real, speed: real,
                                      jitter: seq<real>, aims: seq<Vec3>)
    requires ValidArmory(a) && n <= |es| == |a.timers| == |jitter| == |aims|
    requires rate > 0.0 && forall k :: 0 <= k < |jitter| ==> 0.0 <= jitter[k] < MaxJitter
    ensures var r := FireUpTo(a, es, n, dt, rate, speed, jitter, aims);
            forall k :: 0 <= k < n ==>
              (!es[k].alive ==> r.timers[k] == a.timers[k])
              && (es[k].alive ==>
                    0.0 < r.timers[k]
                    && (a.timers[k] - dt > 0.0 ==> r.timers[k] == a.timers[k] - dt)
                    && (a.timers[k] - dt <= 0.0 ==> r.timers[k] == rate + jitter[k])
                    && rate <= rate + jitter[k] < rate + MaxJitter)
  {
    if n > 0 {
      FireTimers(a, es, n - 1, dt, rate, speed, jitter, aims);
    }
  }

  /** One enemy's turn spawns a bullet exactly when the enemy is alive and
      its timer expires: with a free slot the pool gains exactly one active
      bullet, and otherwise the pool and cursor are untouched. */
  lemma FireOneSpawns(a: Armory, e: Enemy, i: nat, dt: real, rate: real, speed: real, jitter: real, aim: Vec3)
    requires ValidArmory(a) && i < |a.timers|
    ensures var r := FireOne(a, e, i, dt, rate, speed, jitter, aim);
            e.alive && a.timers[i] - dt <= 0.0 && (exists k :: 0 <= k < |a.pool| && !a.pool[k].active) ==>
              CountIf(r.pool, IsActive) == CountIf(a.pool, IsActive) + 1
    ensures var r := FireOne(a, e, i, dt, rate, speed, jitter, aim);
            !(e.alive && a.timers[i] - dt <= 0.0) ==> r.pool == a.pool && r.cursor == a.cursor
  {
    if e.alive && a.timers[i] - dt <= 0.0 && (exists k :: 0 <= k < |a.pool| && !a.pool[k].active) {
      SpawnAddsOne(a.(timers := a.timers[i := rate + jitter]), EnemyShot, Muzzle(e, aim), aim, speed);
    }
  }

  // ---------------------------------------------------------------
  // Bullet update and collisions
  // ---------------------------------------------------------------

  /** Everything the update loop changes: the pool, the enemy registry, and
      how often each callback fired. */
  datatype World = World(pool: seq<Bullet>, enemies: seq<Enemy>, playerHits: nat, kills: nat, enemyHits: nat)

  predicate OutOfBounds(p: Vec3) {
    p.y < -2.0 || p.y > 60.0 || p.z < -240.0 || p.z > 40.0
  }

  /** The index of the first alive enemy from `j` on whose centre is within
      0.70 of `p`, or `|es|` when there is none. */
  function FirstHit(es: seq<Enemy>, p: Vec3, j: nat): (r: nat)
    requires j <= |es|
    ensures j <= r <= |es|
    ensures r < |es| ==> es[r].alive && DistSq(p, es[r].pos) < EnemyR * EnemyR
    ensures forall k :: j <= k < r ==> !(es[k].alive && DistSq(p, es[k].pos) < EnemyR * EnemyR)
    decreases |es| - j
  {
    if j == |es| then j
    else if es[j].alive && DistSq(p, es[j].pos) < EnemyR * EnemyR then j
    else FirstHit(es, p, j + 1)
  }

  /** A bullet that hits takes one hit point; at zero or below the enemy
      dies. */
  function Damaged(e: Enemy): (r: Enemy)
    ensures r.hp == e.hp - 1 && r.pos == e.pos && r.id == e.id && r.fireCooldown == e.fireCooldown
    ensures e.alive ==> (r.alive <==> e.hp > 1)
  {
    var hp := e.hp - 1;
    e.(hp := hp, alive := if hp <= 0 then false else e.alive)
  }

  function Retired(b: Bullet, ttl: real): (r: Bullet)
    ensures !r.active && r.pos == Parked && r.vel == b.vel && r.kind == b.kind
  {
    b.(active := false, pos := Parked, ttl := ttl)
  }

  /** Bullet `i`'s turn in the update loop. */
  function UpdateOne(w: World, i: nat, dt: real, player: Vec3): (r: World)
    requires i < |w.pool|
    ensures |r.pool| == |w.pool| && |r.enemies| == |w.enemies|
  {
    var b := w.pool[i];
    if !b.active then w
    else
      var ttl := b.ttl - dt;
      if ttl <= 0.0 then w.(pool := w.pool[i := Retired(b, ttl)])
      else
        var pos := Add(b.pos, Scale(b.vel, dt));
        if OutOfBounds(pos) then w.(pool := w.pool[i := Retired(b, ttl)])
        else if b.kind == EnemyShot then
          if DistSq(pos, player) < PlayerR * PlayerR then
            w.(pool := w.pool[i := Retired(b, ttl)], playerHits := w.playerHits + 1)
          else w.(pool := w.pool[i := b.(ttl := ttl, pos := pos)])
        else
          var j := FirstHit(w.enemies, pos, 0);
          if j == |w.enemies| then w.(pool := w.pool[i := b.(ttl := ttl, pos := pos)])
          else
            var e := Damaged(w.enemies[j]);
            w.(pool := w.pool[i := Retired(b, ttl)], enemies := w.enemies[j := e],
               enemyHits := w.enemyHits + 1, kills := w.kills + (if e.alive then 0 else 1))
  }

  /** The update loop over the first `n` slots. */
  function UpdateUpTo(w: World, n: nat, dt: real, player: Vec3): (r: World)
    requires n <= |w.pool|
    ensures |r.pool| == |w.pool| && |r.enemies| == |w.enemies|
  {
    if n == 0 then w else UpdateOne(UpdateUpTo(w, n - 1, dt, player), n - 1, dt, player)
  }

  predicate IsAlive(e: Enemy) {
    e.alive
  }

  /** What one update step guarantees. */
  ghost predicate StepSound(w: World, r: World) {
    && |r.pool| == |w.pool| && |r.enemies| == |w.enemies|
    // every kill is an alive enemy that died
    && CountIf(r.enemies, IsAlive) + r.kills == CountIf(w.enemies, IsAlive) + w.kills
    // dead enemies are never touched again
    && (forall j :: 0 <= j < |w.enemies| && !w.enemies[j].alive ==> r.enemies[j] == w.enemies[j])
    // every kill comes with a hit
    && r.kills - w.kills <= r.enemyHits - w.enemyHits
    && w.kills <= r.kills && w.enemyHits <= r.enemyHits && w.playerHits <= r.playerHits
    // every hit spends an active bullet, and no bullet is activated
    && CountIf(r.pool, IsActive) + (r.playerHits - w.playerHits) + (r.enemyHits - w.enemyHits)
         <= CountIf(w.pool, IsActive)
    // an inactive slot stays exactly as it was
    && (forall k :: 0 <= k < |w.pool| && !w.pool[k].active ==> r.pool[k] == w.pool[k])
  }

  lemma UpdateOneSound(w: World, i: nat, dt: real, player: Vec3)
    requires i < |w.pool|
    ensures StepSound(w, UpdateOne(w, i, dt, player))
  {
    var r := UpdateOne(w, i, dt, player);
    var b := w.pool[i];
    if b.active {
      CountIfUpdate(w.pool, IsActive, i, r.pool[i]);
      if r.enemies != w.enemies {
        var j :| 0 <= j < |w.enemies| && r.enemies == w.enemies[j := r.enemies[j]] && w.enemies[j].alive;
        CountIfUpdate(w.enemies, IsAlive, j, r.enemies[j]);
      }
    }
  }

  /** The update loop keeps every guarantee of a single step: kills equal
      the drop in living enemies, dead enemies stay dead and untouched, and
      each hit spends one bullet. */
  lemma {:induction false} UpdateUpToSound(w: World, n: nat, dt: real, player: Vec3)
    requires n <= |w.pool|
    ensures StepSound(w, UpdateUpTo(w, n, dt, player))
  {
    if n > 0 {
      var m := UpdateUpTo(w, n - 1, dt, player);
      UpdateUpToSound(w, n - 1, dt, player);
      UpdateOneSound(m, n - 1, dt, player);
    }
  }

  /** A bullet that survives a frame: `dt` less to live, moved by its
      velocity times `dt`. */
  function Advanced(b: Bullet, dt: real): (r: Bullet)
    ensures r.active == b.active && r.kind == b.kind && r.vel == b.vel
    ensures r.ttl == b.ttl - dt && r.pos == Add(b.pos, Scale(b.vel, dt))
  {
    b.(ttl := b.ttl - dt, pos := Add(b.pos, Scale(b.vel, dt)))
  }

  /** Bullet `i`'s turn touches slot `i` and at most one enemy. An active
      bullet whose time runs out or that leaves the arena is retired and
      parked without touching any enemy; a bullet still active afterwards
      is the advanced one, with time left and inside the arena. */
  lemma UpdateOneSlot(w: World, i: nat, dt: real, player: Vec3)
    requires i < |w.pool|
    ensures var r := UpdateOne(w, i, dt, player);
            forall k :: 0 <= k < |w.pool| && k != i ==> r.pool[k] == w.pool[k]
    ensures var r := UpdateOne(w, i, dt, player);
            !w.pool[i].active ==> r == w
    ensures var r := UpdateOne(w, i, dt, player); var b := w.pool[i];
            b.active && (b.ttl - dt <= 0.0 || OutOfBounds(Advanced(b, dt).pos)) ==>
              !r.pool[i].active && r.pool[i].pos == Parked && r.enemies == w.enemies
    ensures var r := UpdateOne(w, i, dt, player);
            w.pool[i].active && !r.pool[i].active ==> r.pool[i].pos == Parked
    ensures var r := UpdateOne(w, i, dt, player);
            r.pool[i].active ==>
              r.pool[i] == Advanced(w.pool[i], dt) && r.pool[i].ttl > 0.0 && !OutOfBounds(r.pool[i].pos)
    ensures var r := UpdateOne(w, i, dt, player);
            r.enemies == w.enemies
            || exists j :: 0 <= j < |w.enemies| && r.enemies == w.enemies[j := r.enemies[j]]
    ensures var r := UpdateOne(w, i, dt, player); var b := w.pool[i]; var a := Advanced(b, dt);
            b.active && a.ttl > 0.0 && !OutOfBounds(a.pos) && b.kind == EnemyShot ==>
              r.enemies == w.enemies && r.enemyHits == w.enemyHits
              && (r.playerHits == w.playerHits + 1 <==> DistSq(a.pos, player) < PlayerR * PlayerR)
              && (r.playerHits == w.playerHits <==> DistSq(a.pos, player) >= PlayerR * PlayerR)
    ensures var r := UpdateOne(w, i, dt, player); var b := w.pool[i]; var a := Advanced(b, dt);
            var j := FirstHit(w.enemies, a.pos, 0);
            b.active && a.ttl > 0.0 && !OutOfBounds(a.pos) && b.kind == PlayerShot && j < |w.enemies| ==>
              !r.pool[i].active && r.enemies == w.enemies[j := Damaged(w.enemies[j])]
              && r.enemyHits == w.enemyHits + 1 && r.playerHits == w.playerHits
    ensures var r := UpdateOne(w, i, dt, player); var b := w.pool[i]; var a := Advanced(b, dt);
            b.active && a.ttl > 0.0 && !OutOfBounds(a.pos) && b.kind == PlayerShot
            && FirstHit(w.enemies, a.pos, 0) == |w.enemies| ==>
              r.pool[i] == a && r.enemies == w.enemies && r.enemyHits == w.enemyHits
              && r.playerHits == w.playerHits
  {
    var r := UpdateOne(w, i, dt, player);
    if r.enemies != w.enemies {
      var j := FirstHit(w.enemies, Advanced(w.pool[i], dt).pos, 0);
      assert r.enemies == w.enemies[j := r.enemies[j]];
    }
  }

  /** After the whole update loop every bullet still flying has time left
      and is inside the arena, and is its old self advanced by one frame; a
      bullet that stopped flying is parked. */
  lemma {:induction false} UpdateUpToSlots(w: World, n: nat, dt: real, player: Vec3)
    requires n <= |w.pool|
    ensures var r := UpdateUpTo(w, n, dt, player);
            forall k :: n <= k < |w.pool| ==> r.pool[k] == w.pool[k]
    ensures var r := UpdateUpTo(w, n, dt, player);
            forall k :: 0 <= k < n && r.pool[k].active ==>
              r.pool[k] == Advanced(w.pool[k], dt) && r.pool[k].ttl > 0.0 && !OutOfBounds(r.pool[k].pos)
    ensures var r := UpdateUpTo(w, n, dt, player);
            forall k :: 0 <= k < n && w.pool[k].active && !r.pool[k].active ==> r.pool[k].pos == Parked
  {
    if n > 0 {
      var m := UpdateUpTo(w, n - 1, dt, player);
      UpdateUpToSlots(w, n - 1, dt, player);
      UpdateOneSlot(m, n - 1, dt, player);
      var r := UpdateOne(m, n - 1, dt, player);
      assert m.pool[n - 1] == w.pool[n - 1];
      if m.pool[n - 1].active && !r.pool[n - 1].active {
        assert r.pool[n - 1].pos == Parked;
      }
    }
  }
}
