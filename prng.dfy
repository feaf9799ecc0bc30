/** The 32-bit mulberry-style generators that seed every procedural spawner.
    JavaScript keeps the counter in a double whose 32-bit view is the counter
    modulo 2^32, so the counter is a `bv32` here; `Math.imul` is the low 32
    bits of a product (`bv32` multiplication) and `>>>` is the logical shift
    `>>` on `bv32`. */
module Prng {

  /** The increment `0x6d2b79f5` added to the counter before each output. */
  const Inc: bv32 := 0x6d2b79f5

  /** 2^32, the divisor that maps a 32-bit output into [0, 1). */
  const TwoTo32: int := 0x1_0000_0000

  /** The low 32 bits of an integer seed (ToInt32 of an integral double). */
  function ToBv32(n: int): bv32 {
    (n % TwoTo32) as bv32
  }

  /** The mixing rounds shared by `mulberry32` and `seededRandom`. */
  function Mix(t: bv32): bv32 {
    var x := (t ^ (t >> 15)) * (t | 1);
    var x' := x ^ (x + (x ^ (x >> 7)) * (x | 61));
    x' ^ (x' >> 14)
  }

  /** `u / 4294967296` for the unsigned 32-bit value `u`. */
  function Unit(u: bv32): (r: real)
    ensures 0.0 <= r < 1.0
  {
    (u as int) as real / (TwoTo32 as real)
  }

  /** The counter after `n` increments, written with additions only. */
  function Advance(s: bv32, n: nat): bv32 {
    if n == 0 then s else Advance(s, n - 1) + Inc
  }

  /** The `k`-th output (from 0) of `mulberry32(seed)`: the counter is bumped,
      then mixed; later outputs continue from the bumped counter. */
  function MulberryDraw(seed: bv32, k: nat): (r: real)
    ensures 0.0 <= r < 1.0
    decreases k
  {
    if k == 0 then Unit(Mix(seed + Inc)) else MulberryDraw(seed + Inc, k - 1)
  }

  /** The `k`-th output (from 0) of `seededRandom(seed)`: its counter starts at
      `seed + Inc` and is bumped again before each output, so it runs one
      increment ahead of `mulberry32(seed)`. */
  function SeededDraw(seed: bv32, k: nat): (r: real)
    ensures 0.0 <= r < 1.0
  {
    MulberryDraw(seed + Inc, k)
  }

  /** The closed form of the stream: the `k`-th draw mixes the counter after
      `k + 1` increments. */
  lemma {:induction false} MulberryDrawIsAdvance(seed: bv32, k: nat)
    ensures MulberryDraw(seed, k) == Unit(Mix(Advance(seed, k + 1)))
    decreases k
  {
    if k > 0 {
      MulberryDrawIsAdvance(seed + Inc, k - 1);
      AdvanceShift(seed, k);
    }
  }

  /** The closed form of `seededRandom`: the `k`-th output mixes the seed
      after `k + 2` increments. */
  lemma SeededDrawIsAdvance(seed: bv32, k: nat)
    ensures SeededDraw(seed, k) == Unit(Mix(Advance(seed, k + 2)))
  {
    MulberryDrawIsAdvance(seed + Inc, k);
    AdvanceShift(seed, k + 1);
  }

  lemma {:induction false} AdvanceShift(s: bv32, n: nat)
    ensures Advance(s, n + 1) == Advance(s + Inc, n)
  {
    if n > 0 {
      AdvanceShift(s, n - 1);
    }
  }

  /** `mulberry32`: the closure's captured `seed` is the field `state`. The
      ghost fields remember the seed and how many numbers were drawn. */
  class Mulberry32 {
    var state: bv32
    ghost const seed: bv32
    ghost var calls: nat

    ghost predicate Valid()
      reads this
    {
      state == Advance(seed, calls)
    }

    constructor (seed: bv32)
      ensures Valid() && this.seed == seed && calls == 0
    {
      state := seed;
      this.seed := seed;
      calls := 0;
    }

    /** Bumps the counter, then mixes it: the result is the next draw of the
        stream `MulberryDraw(seed, _)`. */
    method Next() returns (r: real)
      requires Valid()
      modifies this
      ensures Valid() && calls == old(calls) + 1
      ensures r == MulberryDraw(seed, old(calls))
    {
      state := state + Inc;
      calls := calls + 1;
      r := Unit(Mix(state));
      MulberryDrawIsAdvance(seed, old(calls));
    }
  }

  /** `seededRandom`: the closure's captured `t` is the field `t`. */
  class SeededRandom {
    var t: bv32
    ghost const seed: bv32
    ghost var calls: nat

    ghost predicate Valid()
      reads this
    {
      t == Advance(seed + Inc, calls)
    }

    constructor (seed: bv32)
      ensures Valid() && this.seed == seed && calls == 0
    {
      t := seed + Inc;
      this.seed := seed;
      calls := 0;
    }

    method Next() returns (r: real)
      requires Valid()
      modifies this
      ensures Valid() && calls == old(calls) + 1
      ensures r == SeededDraw(seed, old(calls))
    {
      t := t + Inc;
      calls := calls + 1;
      r := Unit(Mix(t));
      MulberryDrawIsAdvance(seed + Inc, old(calls));
    }
  }
}
