/** Seeded coins (`Pickups`). Each coin is a `Collectible.Pickup` with an
    empty payload. */
module Pickups {
  import opened Vectors
  import opened Prng

  datatype CoinSpec = CoinSpec(id: int, base: Vec3, phase: real)

  /** The seed formula `9001 + runId * 999 + level * 77`. */
  function CoinSeed(runId: int, level: int): int {
    9001 + runId * 999 + level * 77
  }

  /** The three height bands picked by the draw `r`: low (35%), middle
      (40%) and high (25%); `ry` is the next draw. */
  function Height(r: real, ry: real): real {
    if r < 0.35 then 1.1 + ry * 0.8
    else if r < 0.75 then 2.4 + ry * 2.0
    else 5.0 + ry * 4.0
  }

  /** Each band's range, and the band chosen by `r`. */
  lemma HeightBands(r: real, ry: real)
    requires 0.0 <= ry < 1.0
    ensures r < 0.35 ==> 1.1 <= Height(r, ry) < 1.9
    ensures 0.35 <= r < 0.75 ==> 2.4 <= Height(r, ry) < 4.4
    ensures 0.75 <= r ==> 5.0 <= Height(r, ry) < 9.0
  {
  }

  /** The coin built from its five draws, in the order x, z, band, height,
      phase; every branch of the band choice draws exactly once. */
  function FromDraws(i: nat, rx: real, rz: real, r: real, ry: real, rp: real): CoinSpec {
    CoinSpec(i, Vec3((rx - 0.5) * 26.0, Height(r, ry), -6.0 - rz * 80.0), rp * 10.0)
  }

  /** The `i`-th coin consumes draws 5i .. 5i+4. */
  function CoinAt(seed: bv32, i: nat): CoinSpec {
    FromDraws(i, SeededDraw(seed, 5 * i), SeededDraw(seed, 5 * i + 1), SeededDraw(seed, 5 * i + 2),
              SeededDraw(seed, 5 * i + 3), SeededDraw(seed, 5 * i + 4))
  }

  function CoinPrefix(seed: bv32, n: nat): seq<CoinSpec> {
    if n == 0 then [] else CoinPrefix(seed, n - 1) + [CoinAt(seed, n - 1)]
  }

  lemma {:induction false} CoinPrefixLength(seed: bv32, n: nat)
    ensures |CoinPrefix(seed, n)| == n
  {
    if n > 0 {
      CoinPrefixLength(seed, n - 1);
    }
  }

  lemma {:induction false} CoinPrefixAt(seed: bv32, n: nat, i: nat)
    requires i < n
    ensures |CoinPrefix(seed, n)| == n && CoinPrefix(seed, n)[i] == CoinAt(seed, i)
  {
    CoinPrefixLength(seed, n - 1);
    if i < n - 1 {
      CoinPrefixAt(seed, n - 1, i);
    }
  }

  /** The coins for `(runId, level, count)`; a count of zero or less gives
      none (the loop body never runs). */
  function CoinList(runId: int, level: int, count: int): seq<CoinSpec> {
    CoinPrefix(ToBv32(CoinSeed(runId, level)), if count < 0 then 0 else count)
  }

  ghost predicate WellSpawned(c: CoinSpec, i: int) {
    && c.id == i
    && -13.0 <= c.base.x < 13.0
    && -86.0 < c.base.z <= -6.0
    && 1.1 <= c.base.y < 9.0
    && 0.0 <= c.phase < 10.0
  }

  /** A batch has `max(0, count)` coins with ids 0 .. n-1 and positions and
      phases in their ranges. */
  lemma CoinListShape(runId: int, level: int, count: int)
    ensures |CoinList(runId, level, count)| == (if count < 0 then 0 else count)
    ensures forall i :: 0 <= i < |CoinList(runId, level, count)| ==> WellSpawned(CoinList(runId, level, count)[i], i)
  {
    var seed := ToBv32(CoinSeed(runId, level));
    var n := if count < 0 then 0 else count;
    CoinPrefixLength(seed, n);
    forall i | 0 <= i < n
      ensures WellSpawned(CoinList(runId, level, count)[i], i)
    {
      CoinPrefixAt(seed, n, i);
      HeightBands(SeededDraw(seed, 5 * i + 2), SeededDraw(seed, 5 * i + 3));
    }
  }

  /** The memoised generation; the height draw is taken inside the band's
      branch, as the source does. */
  method SpawnCoins(runId: int, level: int, count: int) returns (list: seq<CoinSpec>)
    ensures list == CoinList(runId, level, count)
  {
    var seed := ToBv32(CoinSeed(runId, level));
    var rand := new SeededRandom(seed);
    var n := if count < 0 then 0 else count;
    list := [];
    var i := 0;
    while i < count
      invariant 0 <= i <= n
      invariant rand.Valid() && rand.seed == seed && rand.calls == 5 * i
      invariant list == CoinPrefix(seed, i)
    {
      var rx := rand.Next();
      var x := (rx - 0.5) * 26.0;
      var rz := rand.Next();
      var z := -6.0 - rz * 80.0;
      var r := rand.Next();
      var y: real;
      var ry: real;
      if r < 0.35 {
        ry := rand.Next();
        y := 1.1 + ry * 0.8;
      } else if r < 0.75 {
        ry := rand.Next();
        y := 2.4 + ry * 2.0;
      } else {
        ry := rand.Next();
        y := 5.0 + ry * 4.0;
      }
      var rp := rand.Next();
      assert CoinSpec(i, Vec3(x, y, z), rp * 10.0) == FromDraws(i, rx, rz, r, ry, rp);
      list := list + [CoinSpec(i, Vec3(x, y, z), rp * 10.0)];
      i := i + 1;
    }
  }

  /** The default props: level 1, ten coins, run 0. */
  method SpawnDefaultCoins() returns (list: seq<CoinSpec>)
    ensures list == CoinList(0, 1, 10) && |list| == 10
  {
    list := SpawnCoins(0, 1, 10);
    CoinListShape(0, 1, 10);
  }
}
