/** Numeric helpers of the game: clamping, JavaScript's rounding operations,
    the 0-100 score normalisation and the seeded mulberry32 generator. */
module Utils {

  function Min(a: real, b: real): real { if a <= b then a else b }
  function Max(a: real, b: real): real { if a >= b then a else b }

  /** clamp(v, a, b) = max(a, min(b, v)). */
  function Clamp(v: real, a: real, b: real): (r: real)
    ensures a <= b ==> a <= r <= b
    ensures a <= v <= b ==> r == v
    ensures v < a ==> r == a
    ensures a <= b < v ==> r == b
  {
    Max(a, Min(b, v))
  }

  /** Math.round: the nearest integer, halves rounded up. */
  function Round(x: real): (r: int)
    ensures x - 0.5 < r as real <= x + 0.5
  {
    (x + 0.5).Floor
  }

  /** The rounding of `toFixed`: the magnitude is rounded to the nearest integer, halves
      away from zero, and the sign is kept. `x.toFixed(0)` reads back as RoundHalfAway(x). */
  function RoundHalfAway(x: real): (n: int)
    ensures -0.5 <= n as real - x <= 0.5
    ensures 0.0 <= x ==> 0 <= n
  {
    if x >= 0.0 then (x + 0.5).Floor else -((-x + 0.5).Floor)
  }

  /** `+x.toFixed(2)`: the number the two-decimal text reads back as. */
  function ToFixed2(x: real): (r: real)
    ensures -0.005 <= r - x <= 0.005
    ensures 0.0 <= x ==> 0.0 <= r
  {
    RoundHalfAway(x * 100.0) as real / 100.0
  }

  /** Rounding to a whole number keeps a value inside any range with whole ends. */
  lemma RoundHalfAwayBounded(x: real, lo: int, hi: int)
    requires lo as real <= x <= hi as real
    ensures lo <= RoundHalfAway(x) <= hi
  {
  }

  /** Rounding to hundredths keeps a value inside any range whose ends are hundredths. */
  lemma ToFixed2Bounded(x: real, lo: int, hi: int)
    requires lo as real / 100.0 <= x <= hi as real / 100.0
    ensures lo as real / 100.0 <= ToFixed2(x) <= hi as real / 100.0
  {
    var n := RoundHalfAway(x * 100.0);
    assert lo as real <= x * 100.0 <= hi as real;
    RoundHalfAwayBounded(x * 100.0, lo, hi);
    assert ToFixed2(x) == n as real / 100.0;
  }

  /** The largest raw score a verdict can earn: 5 correct flags and the perfect bonus. */
  const MaxRaw: real := 70.0

  /** normalizeTo100: raw / 70 as a percentage, clamped to [0, 100] and rounded. */
  function NormalizeTo100(raw: real): (r: int)
    ensures 0 <= r <= 100
    ensures raw <= 0.0 ==> r == 0
    ensures raw >= MaxRaw ==> r == 100
  {
    Round(Max(0.0, Min(100.0, raw / MaxRaw * 100.0)))
  }

  lemma {:induction false} RoundMonotone(x: real, y: real)
    requires x <= y
    ensures Round(x) <= Round(y)
  {
    var a, b := (x + 0.5).Floor, (y + 0.5).Floor;
    assert a as real <= x + 0.5 <= y + 0.5 < b as real + 1.0;
  }

  /** A larger raw score never normalises to a smaller one. */
  lemma NormalizeMonotone(a: real, b: real)
    requires a <= b
    ensures NormalizeTo100(a) <= NormalizeTo100(b)
  {
    RoundMonotone(Max(0.0, Min(100.0, a / MaxRaw * 100.0)), Max(0.0, Min(100.0, b / MaxRaw * 100.0)));
  }

  /** The normalisation values the game checks on itself at start-up. */
  lemma NormalizeSelfTests()
    ensures NormalizeTo100(70.0) == 100
    ensures NormalizeTo100(0.0) == 0
    ensures NormalizeTo100(-10.0) == 0
    ensures NormalizeTo100(35.0) == 50
  {
    assert 35.0 / MaxRaw * 100.0 == 50.0;
  }

  /** `seed >>> 0`: the seed as an unsigned 32-bit integer. */
  function ToUint32(seed: int): bv32 {
    (seed % 0x1_0000_0000) as bv32
  }

  /** The increment mulberry32 adds to its state on every draw. */
  const Increment: bv32 := 0x6D2B79F5

  /** The 32-bit scramble mulberry32 applies to its (already stepped) state: Math.imul
      is the 32-bit wrapping product, `^`/`|` act on the same 32 bits and `>>>` is the
      logical shift. */
  function Scramble(t: bv32): bv32 {
    var r0 := (t ^ (t >> 15)) * (1 | t);
    var r1 := r0 ^ (r0 + (r0 ^ (r0 >> 7)) * (61 | r0));
    r1 ^ (r1 >> 14)
  }

  /** An unsigned 32-bit integer divided by 2^32. */
  function UnitInterval(u: bv32): (x: real)
    ensures 0.0 <= x < 1.0
  {
    (u as int) as real / 4294967296.0
  }

  /** The value mulberry32 returns for a stepped state. */
  function Mix(t: bv32): (x: real)
    ensures 0.0 <= x < 1.0
  {
    UnitInterval(Scramble(t))
  }

  /** The first value a generator seeded with `seed` returns. */
  function FirstDraw(seed: int): real {
    Mix(ToUint32(seed) + Increment)
  }

  /** mulberry32(seed): a closure over a 32-bit state `t`; each call steps the state
      and mixes it into a value in [0, 1). */
  class Mulberry32 {
    var t: bv32

    constructor (seed: int)
      ensures t == ToUint32(seed)
    {
      t := ToUint32(seed);
    }

    method Next() returns (x: real)
      modifies this
      ensures t == old(t) + Increment
      ensures x == Mix(t)
      ensures 0.0 <= x < 1.0
    {
      t := t + Increment;
      x := Mix(t);
    }
  }
}
