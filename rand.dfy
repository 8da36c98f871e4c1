/**
 * The counter-based generator behind every procedural body: a Weyl counter
 * (add a fixed odd constant to a 32-bit state) followed by two rounds of
 * "multiply into 64 bits, fold the high half onto the low half by XOR".
 *
 * The stream of a generator seeded with `seed` is described by position:
 * `StateAfter(seed, n)` is the state after n calls of `Next()` and
 * `Output(seed, n)` is the value the (n+1)-th call returns.  The class
 * `LehmerRand` is the mutable object itself.
 */
module Rand {

  const TwoTo32: int := 0x1_0000_0000

  /** A C# `uint`. */
  type Word = x: int | 0 <= x < 0x1_0000_0000

  /** A C# `int`. */
  type Int32 = x: int | -0x8000_0000 <= x < 0x8000_0000

  /** The Weyl increment added to the state by every call of `Next()`. */
  const Weyl: Word := 0xE120FC15
  /** Multiplier of the first avalanche round. */
  const Mul1: Word := 0x4A39B70D
  /** Multiplier of the second avalanche round. */
  const Mul2: Word := 0x12FAD5C9
  /** The divisor `Next(double, double)` scales by (the signed 32-bit maximum). */
  const DoubleScale: real := 2147483647.0

  /** 32-bit two's-complement wrap-around of unchecked C# `int` arithmetic. */
  function Wrap32(x: int): (r: Int32)
    ensures (x - r) % TwoTo32 == 0
    ensures -0x8000_0000 <= x < 0x8000_0000 ==> r == x
  {
    (x + 0x8000_0000) % TwoTo32 - 0x8000_0000
  }

  /** The `uint` the state becomes in `State += 0xE120FC15`. */
  function Advance(s: Word): Word {
    (s + Weyl) % TwoTo32
  }

  /** Bitwise exclusive or of the low `bits` bits of a and b. */
  function Xor(a: nat, b: nat, bits: nat): nat {
    if bits == 0 then 0
    else (if a % 2 == b % 2 then 0 else 1) + 2 * Xor(a / 2, b / 2, bits - 1)
  }

  /**
   * `(uint)((t >> 32) ^ t)` for a 64-bit `t`: the high half XOR-folded onto
   * the low half, truncated to 32 bits.
   */
  function Fold(t: nat): Word {
    Xor(t / TwoTo32, t, 64) % TwoTo32
  }

  /**
   * The two avalanche rounds `Next()` applies to the advanced state.  Both
   * products are of two 32-bit values, so the `ulong` multiplications of
   * the source never wrap.
   */
  function Mix(s: Word): Word {
    var m1 := Fold(s * Mul1);
    Fold(m1 * Mul2)
  }

  /** The state of a generator seeded with `seed` after `n` calls of `Next()`. */
  function StateAfter(seed: Word, n: nat): Word {
    if n == 0 then seed else Advance(StateAfter(seed, n - 1))
  }

  /**
   * The value returned by call number `n` (counting from 0) of a generator
   * seeded with `seed`: the first call returns the mix of the advanced
   * seed, and every later call is a call of a generator seeded one step on.
   */
  function Output(seed: Word, n: nat): Word
    decreases n
  {
    if n == 0 then Mix(Advance(seed)) else Output(Advance(seed), n - 1)
  }

  /** Starting one step on is the same as taking one more step. */
  lemma {:induction false} StateAfterShift(seed: Word, n: nat)
    ensures StateAfter(Advance(seed), n) == StateAfter(seed, n + 1)
  {
    if n > 0 {
      StateAfterShift(seed, n - 1);
    }
  }

  /** Call number n returns the mix of the state after n + 1 advances. */
  lemma {:induction false} OutputIsMixOfState(seed: Word, n: nat)
    ensures Output(seed, n) == Mix(StateAfter(seed, n + 1))
    decreases n
  {
    if n > 0 {
      OutputIsMixOfState(Advance(seed), n - 1);
      StateAfterShift(seed, n);
    }
  }

  lemma ModAdd(a: int, b: int)
    ensures (a % TwoTo32 + b) % TwoTo32 == (a + b) % TwoTo32
  {
    var q := a / TwoTo32;
    assert a == q * TwoTo32 + a % TwoTo32;
    assert a + b == (a % TwoTo32 + b) + q * TwoTo32;
  }

  /** After n calls the state is the seed plus n Weyl increments, modulo 2^32. */
  lemma {:induction false} StateAfterClosedForm(seed: Word, n: nat)
    ensures StateAfter(seed, n) == (seed + n * Weyl) % TwoTo32
  {
    if n == 0 {
    } else {
      StateAfterClosedForm(seed, n - 1);
      ModAdd(seed + (n - 1) * Weyl, Weyl);
    }
  }

  /** The stream is a function of the seed and the call count alone. */
  lemma OutputClosedForm(seed: Word, n: nat)
    ensures Output(seed, n) == Mix((seed + (n + 1) * Weyl) % TwoTo32)
  {
    StateAfterClosedForm(seed, n + 1);
    OutputIsMixOfState(seed, n);
    var a := StateAfter(seed, n + 1);
    assert a == (seed + (n + 1) * Weyl) % TwoTo32;
  }

  /** Running a stream for a calls and then b more calls is running it for a + b calls. */
  lemma {:induction false} StateAfterAdd(seed: Word, a: nat, b: nat)
    ensures StateAfter(StateAfter(seed, a), b) == StateAfter(seed, a + b)
  {
    if b > 0 {
      StateAfterAdd(seed, a, b - 1);
    }
  }

  /**
   * `(int)(Next() % (max - min)) + min` with C# semantics: `max - min` is
   * unchecked `int` arithmetic, the `uint % int` remainder is computed in
   * `long` (its sign is that of the non-negative dividend), and the final
   * addition wraps.
   */
  function RangeOf(w: Word, min: Int32, max: Int32): (r: Int32)
    requires min != max
    ensures min < max ==> min <= r < max
    ensures min < max && max - min < 0x8000_0000 ==> r == w % (max - min) + min
  {
    var d := Wrap32(max - min);
    assert (max - min) % TwoTo32 != 0;
    var dd: int := d;
    var m := if dd < 0 then -dd else dd;
    Wrap32(w % m + min)
  }

  /** `((double)Next() / 0x7FFFFFFF) * (max - min) + min`, in exact real arithmetic. */
  function Scale(w: Word, min: real, max: real): real {
    (w as real / DoubleScale) * (max - min) + min
  }

  /** A double drawn with min <= max is never below min. */
  lemma ScaleAtLeastMin(w: Word, min: real, max: real)
    requires min <= max
    ensures Scale(w, min, max) >= min
  {
    assert w as real / DoubleScale >= 0.0;
  }

  /** The ranged integer produced by call number `n` of a generator seeded with `seed`. */
  function IntDraw(seed: Word, n: nat, min: Int32, max: Int32): (r: Int32)
    requires min != max
    ensures min < max ==> min <= r < max
  {
    RangeOf(Output(seed, n), min, max)
  }

  /** The ranged double produced by call number `n` of a generator seeded with `seed`. */
  function DoubleDraw(seed: Word, n: nat, min: real, max: real): real {
    Scale(Output(seed, n), min, max)
  }

  /**
   * The generator object.  `seed0` and `calls` are the ghost view: the
   * state is always the seed advanced by `calls` Weyl steps.
   */
  class LehmerRand {
    var state: Word
    ghost var seed0: Word
    ghost var calls: nat

    ghost predicate Valid()
      reads this
    {
      state == StateAfter(seed0, calls)
    }

    constructor (seed: Word)
      ensures Valid() && state == seed && seed0 == seed && calls == 0
    {
      state := seed;
      seed0, calls := seed, 0;
    }

    /** Restarts the stream: afterwards the object is indistinguishable from `new LehmerRand(seed)`. */
    method Seed(seed: Word)
      modifies this
      ensures Valid() && state == seed && seed0 == seed && calls == 0
    {
      state := seed;
      seed0, calls := seed, 0;
    }

    method Next() returns (r: Word)
      requires Valid()
      modifies this
      ensures Valid() && seed0 == old(seed0) && calls == old(calls) + 1
      ensures state == Advance(old(state)) && r == Mix(state)
      ensures r == Output(seed0, old(calls))
    {
      state := Advance(state);
      calls := calls + 1;
      var temp: nat := state * Mul1;
      var m1: Word := Xor(temp / TwoTo32, temp, 64) % TwoTo32;
      temp := m1 * Mul2;
      var m2: Word := Xor(temp / TwoTo32, temp, 64) % TwoTo32;
      r := m2;
      OutputIsMixOfState(seed0, calls - 1);
    }

    /** `Next(int min, int max)`: exactly one call of `Next()`, reduced into the range. */
    method NextInt(min: Int32, max: Int32) returns (r: Int32)
      requires Valid() && min != max
      modifies this
      ensures Valid() && seed0 == old(seed0) && calls == old(calls) + 1
      ensures state == Advance(old(state))
      ensures r == IntDraw(seed0, old(calls), min, max)
    {
      var w := Next();
      r := RangeOf(w, min, max);
    }

    /** `Next(double min, double max)`: exactly one call of `Next()`, scaled. */
    method NextDouble(min: real, max: real) returns (r: real)
      requires Valid()
      modifies this
      ensures Valid() && seed0 == old(seed0) && calls == old(calls) + 1
      ensures state == Advance(old(state))
      ensures r == DoubleDraw(seed0, old(calls), min, max)
    {
      var w := Next();
      r := Scale(w, min, max);
    }
  }
}
