/**
 * The planet record both star-system generators fill in.  Double-valued
 * attributes are exact reals; the display colour is not part of this model.
 */
module Planets {
  import opened Rand

  datatype Planet = Planet(
    dist: real,          // distance from the star
    diameter: real,
    foliage: real,
    minerals: real,
    water: real,
    gases: real,
    temp: real,
    population: real,
    hasRing: bool,
    moons: seq<real>     // moon diameters, in the order they were generated
  )

  /** Math.Max on doubles. */
  function RealMax(a: real, b: real): real {
    if a >= b then a else b
  }

  /** Math.Min on doubles. */
  function RealMin(a: real, b: real): real {
    if a <= b then a else b
  }

  /** Math.Clamp on doubles (lo <= hi at every use). */
  function RealClamp(v: real, lo: real, hi: real): real {
    if v < lo then lo else if v > hi then hi else v
  }

  /** Math.Max on ints. */
  function IntMax(a: int, b: int): int {
    if a >= b then a else b
  }

  /** The size of a moon: `Math.Max(1d, diam - draw)`. */
  function MoonSize(diam: real, draw: real): (m: real)
    ensures m >= 1.0
  {
    RealMax(1.0, diam - draw)
  }

  /**
   * The moons generated from `count` draws starting at position `pos`, for a
   * planet of diameter `diam`: one `Next(1d, 15d)` per moon, in order.
   */
  function Moons(seed: Word, pos: nat, diam: real, count: nat): (m: seq<real>)
    ensures |m| == count
    ensures forall i :: 0 <= i < count ==> m[i] >= 1.0
  {
    if count == 0 then []
    else Moons(seed, pos, diam, count - 1) + [MoonSize(diam, DoubleDraw(seed, pos + count - 1, 1.0, 15.0))]
  }

  /**
   * The moon loop `while (moonCount-- > 0) p.Moons.Add(...)`: one draw per
   * moon.  Both star-system revisions run it with a count that is never
   * negative.
   */
  method DrawMoons(rand: LehmerRand, diam: real, moonCount: nat) returns (moons: seq<real>)
    requires rand.Valid()
    modifies rand
    ensures rand.Valid() && rand.seed0 == old(rand.seed0)
    ensures rand.calls == old(rand.calls) + moonCount
    ensures moons == Moons(rand.seed0, old(rand.calls), diam, moonCount)
  {
    ghost var pos := rand.calls;
    var left := moonCount;
    moons := [];
    while left > 0
      invariant 0 <= left <= moonCount
      invariant rand.Valid() && rand.seed0 == old(rand.seed0)
      invariant rand.calls == pos + (moonCount - left)
      invariant moons == Moons(rand.seed0, pos, diam, moonCount - left)
    {
      left := left - 1;
      var d := rand.NextDouble(1.0, 15.0);
      moons := moons + [MoonSize(diam, d)];
    }
  }
}
