/** Seeded ammo crates and their collect lifecycle (`AmmoPickups`, `AmmoBox`). */
module AmmoPickups {
  import opened Vectors
  import opened Prng

  type Level = l: int | 1 <= l <= 8 witness 1

  datatype AmmoSpec = AmmoSpec(id: int, base: Vec3, phase: real, amount: int)

  /** `countByLevel`. */
  function AmmoCount(level: Level): (n: nat)
    ensures 3 <= n <= 6
  {
    if level <= 3 then 3 else if level <= 6 then 4 else if level == 7 then 5 else 6
  }

  /** A later level never has fewer crates. */
  lemma AmmoCountMonotone(l1: Level, l2: Level)
    requires l1 <= l2
    ensures AmmoCount(l1) <= AmmoCount(l2)
  {
  }

  /** The seed formula `5000 + runId * 777 + level * 91`. */
  function AmmoSeed(runId: int, level: Level): int {
    5000 + runId * 777 + level * 91
  }

  /** `12 + Math.floor(r * 10)`. */
  function Amount(r: real): int {
    12 + (r * 10.0).Floor
  }

  /** The crate built from its five draws, in the order x, z, y, amount,
      phase. */
  function FromDraws(i: nat, rx: real, rz: real, ry: real, ra: real, rp: real): AmmoSpec {
    AmmoSpec(i, Vec3((rx - 0.5) * 24.0, 1.2 + ry * 3.2, -8.0 - rz * 78.0), rp * 10.0, Amount(ra))
  }

  /** The `i`-th crate consumes draws 5i .. 5i+4. */
  function AmmoAt(seed: bv32, i: nat): AmmoSpec {
    FromDraws(i, SeededDraw(seed, 5 * i), SeededDraw(seed, 5 * i + 1), SeededDraw(seed, 5 * i + 2),
              SeededDraw(seed, 5 * i + 3), SeededDraw(seed, 5 * i + 4))
  }

  function AmmoPrefix(seed: bv32, n: nat): seq<AmmoSpec> {
    if n == 0 then [] else AmmoPrefix(seed, n - 1) + [AmmoAt(seed, n - 1)]
  }

  lemma {:induction false} AmmoPrefixAt(seed: bv32, n: nat, i: nat)
    requires i < n
    ensures |AmmoPrefix(seed, n)| == n && AmmoPrefix(seed, n)[i] == AmmoAt(seed, i)
  {
    AmmoPrefixLength(seed, n - 1);
    if i < n - 1 {
      AmmoPrefixAt(seed, n - 1, i);
    }
  }

  lemma {:induction false} AmmoPrefixLength(seed: bv32, n: nat)
    ensures |AmmoPrefix(seed, n)| == n
  {
    if n > 0 {
      AmmoPrefixLength(seed, n - 1);
    }
  }

  /** The crates for `(runId, level)`. */
  function AmmoList(runId: int, level: Level): seq<AmmoSpec> {
    AmmoPrefix(ToBv32(AmmoSeed(runId, level)), AmmoCount(level))
  }

  /** A draw in [0, 1) gives an integer amount from 12 to 21. */
  lemma AmountRange(r: real)
    requires 0.0 <= r < 1.0
    ensures 12 <= Amount(r) <= 21
  {
    var f := (r * 10.0).Floor;
    assert f as real <= r * 10.0 < f as real + 1.0;
  }

  ghost predicate WellSpawned(a: AmmoSpec, i: int) {
    && a.id == i
    && -12.0 <= a.base.x < 12.0
    && -86.0 < a.base.z <= -8.0
    && 1.2 <= a.base.y < 4.4
    && 0.0 <= a.phase < 10.0
    && 12 <= a.amount <= 21
  }

  /** Every batch has the level's count, ids 0 .. count-1, and positions,
      phases and amounts in their ranges. */
  lemma AmmoListShape(runId: int, level: Level)
    ensures |AmmoList(runId, level)| == AmmoCount(level)
    ensures forall i :: 0 <= i < AmmoCount(level) ==> WellSpawned(AmmoList(runId, level)[i], i)
  {
    var seed := ToBv32(AmmoSeed(runId, level));
    AmmoPrefixLength(seed, AmmoCount(level));
    forall i | 0 <= i < AmmoCount(level)
      ensures WellSpawned(AmmoList(runId, level)[i], i)
    {
      AmmoPrefixAt(seed, AmmoCount(level), i);
      AmountRange(SeededDraw(seed, 5 * i + 3));
    }
  }

  /** The memoised generation: a fresh `seededRandom(seed)` and a loop that
      draws five numbers per crate. */
  method SpawnAmmo(runId: int, level: Level) returns (list: seq<AmmoSpec>)
    ensures list == AmmoList(runId, level)
  {
    var seed := ToBv32(AmmoSeed(runId, level));
    var rand := new SeededRandom(seed);
    var count := AmmoCount(level);
    list := [];
    var i := 0;
    while i < count
      invariant 0 <= i <= count
      invariant rand.Valid() && rand.seed == seed && rand.calls == 5 * i
      invariant list == AmmoPrefix(seed, i)
    {
      var crate := NextCrate(rand, i);
      list := list + [crate];
      i := i + 1;
    }
  }

  /** One pass of the generation loop: five draws, one crate. */
  method NextCrate(rand: SeededRandom, i: nat) returns (crate: AmmoSpec)
    requires rand.Valid() && rand.calls == 5 * i
    modifies rand
    ensures rand.Valid() && rand.calls == 5 * (i + 1)
    ensures crate == AmmoAt(rand.seed, i)
  {
    var rx := rand.Next();
    var rz := rand.Next();
    var ry := rand.Next();
    var ra := rand.Next();
    var rp := rand.Next();
    crate := FromDraws(i, rx, rz, ry, ra, rp);
  }
}
