/** The enemy registry and its seeded generation (`Enemies` component). */
module Enemies {
  import opened Vectors
  import opened Prng

  type Level = l: int | 1 <= l <= 8 witness 1

  /** One stationary hostile. `hp` and `alive` are mutated by the bullet system. */
  datatype Enemy = Enemy(id: int, pos: Vec3, alive: bool, hp: int, fireCooldown: real)

  /** The seed formula `2000 + runId * 333 + level * 17`. */
  function EnemySeed(runId: int, level: Level): int {
    2000 + runId * 333 + level * 17
  }

  /** Enemies spawned per level. */
  function EnemyCount(level: Level): (n: nat)
    ensures n == level + 2 || (level == 8 && n == 10)
  {
    if level == 1 then 3 else if level == 2 then 4 else if level == 3 then 5
    else if level == 4 then 6 else if level == 5 then 7 else if level == 6 then 8
    else if level == 7 then 9 else 10
  }

  /** The `i`-th enemy of the batch: it consumes draws 4i .. 4i+3, in the order
      x, y, z, fire cooldown. */
  function EnemyAt(seed: bv32, i: nat): Enemy {
    FromDraws(i, MulberryDraw(seed, 4 * i), MulberryDraw(seed, 4 * i + 1),
              MulberryDraw(seed, 4 * i + 2), MulberryDraw(seed, 4 * i + 3))
  }

  /** The enemy built from its four draws, as the spawn loop builds it. */
  function FromDraws(i: int, rx: real, ry: real, rz: real, rc: real): Enemy {
    Enemy(i, Vec3((rx - 0.5) * 26.0, 2.2 + ry * 4.5, -18.0 - rz * 80.0), true, 1, 0.7 + rc * 0.6)
  }

  /** The first `n` enemies drawn from `seed`, in spawn order. */
  function EnemyPrefix(seed: bv32, n: nat): seq<Enemy> {
    if n == 0 then [] else EnemyPrefix(seed, n - 1) + [EnemyAt(seed, n - 1)]
  }

  lemma {:induction false} EnemyPrefixAt(seed: bv32, n: nat, i: nat)
    requires i < n
    ensures |EnemyPrefix(seed, n)| == n && EnemyPrefix(seed, n)[i] == EnemyAt(seed, i)
  {
    if i < n - 1 {
      EnemyPrefixAt(seed, n - 1, i);
    } else {
      EnemyPrefixLength(seed, n - 1);
    }
  }

  lemma {:induction false} EnemyPrefixLength(seed: bv32, n: nat)
    ensures |EnemyPrefix(seed, n)| == n
  {
    if n > 0 {
      EnemyPrefixLength(seed, n - 1);
    }
  }

  /** The whole batch for `(runId, level)`. */
  function EnemyList(runId: int, level: Level): seq<Enemy> {
    EnemyPrefix(ToBv32(EnemySeed(runId, level)), EnemyCount(level))
  }

  /** What every generated enemy looks like. */
  ghost predicate WellSpawned(e: Enemy, i: int) {
    && e.id == i && e.alive && e.hp == 1
    && -13.0 <= e.pos.x < 13.0
    && 2.2 <= e.pos.y < 6.7
    && -98.0 < e.pos.z <= -18.0
    && 0.7 <= e.fireCooldown < 1.3
  }

  /** Every batch has the level's count, ids equal to indices, every enemy
      alive with one hit point, and positions and cooldowns in their ranges. */
  lemma EnemyListShape(runId: int, level: Level)
    ensures |EnemyList(runId, level)| == EnemyCount(level)
    ensures forall i :: 0 <= i < EnemyCount(level) ==> WellSpawned(EnemyList(runId, level)[i], i)
  {
    var seed := ToBv32(EnemySeed(runId, level));
    EnemyPrefixLength(seed, EnemyCount(level));
    forall i | 0 <= i < EnemyCount(level)
      ensures WellSpawned(EnemyList(runId, level)[i], i)
    {
      EnemyPrefixAt(seed, EnemyCount(level), i);
      var r0, r1 := MulberryDraw(seed, 4 * i), MulberryDraw(seed, 4 * i + 1);
      var r2, r3 := MulberryDraw(seed, 4 * i + 2), MulberryDraw(seed, 4 * i + 3);
    }
  }

  /** A golden value: run 0 at level 1 has seed 2017 (0x7e1), whose first
      32-bit output is 0xc5b69175, which fixes the first enemy's x. */
  lemma FirstEnemyOfFirstRun()
    ensures EnemySeed(0, 1) == 0x7e1
    ensures MulberryDraw(0x7e1, 0) == Unit(0xc5b69175)
    ensures EnemyAt(0x7e1, 0).pos.x == (Unit(0xc5b69175) - 0.5) * 26.0
  {
  }

  /** The spawn effect: a fresh `mulberry32(seed)` and a loop that draws four
      numbers per enemy and appends it to the list. The generator's counter
      ends exactly `4 * count` increments past the seed. */
  method SpawnEnemies(runId: int, level: Level) returns (list: seq<Enemy>)
    ensures list == EnemyList(runId, level)
  {
    var seed := ToBv32(EnemySeed(runId, level));
    var rand := new Mulberry32(seed);
    var baseCount := EnemyCount(level);
    list := [];
    var i := 0;
    while i < baseCount
      invariant 0 <= i <= baseCount
      invariant rand.Valid() && rand.seed == seed && rand.calls == 4 * i
      invariant list == EnemyPrefix(seed, i)
    {
      var rx := rand.Next();
      var ry := rand.Next();
      var rz := rand.Next();
      var rc := rand.Next();
      list := list + [FromDraws(i, rx, ry, rz, rc)];
      i := i + 1;
    }
  }
}
