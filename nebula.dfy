/**
 * The nebula generator: existence, size, type and overall colour, and on
 * request a list of translucent clouds.  Every cloud takes exactly five
 * integer draws, so cloud i of a full nebula is drawn from a fixed window
 * of the sector's stream.
 */
module Nebulae {
  import opened Rand
  import opened Sectors
  import opened Colors

  /**
   * The five named nebula types, and the value a cast of any other integer
   * to the enum would give (it has no name and maps to the fallback colours).
   */
  datatype NebulaType = Reflection | Dark | Supernova | Emission | Planetary | Unnamed(value: int)

  /** A cloud: its colour, its offset inside the nebula and its extent. */
  datatype Cloud = Cloud(col: Color, pos: (int, int), size: (int, int))

  datatype Nebula = Nebula(
    nebulaExists: bool,
    size: real,
    nebulaType: NebulaType,
    overallCol: Color,
    clouds: seq<Cloud>,
    coords: (Word, Word)
  )

  /** The cast `(NebulaType)k`. */
  function TypeOf(k: int): NebulaType {
    if k == 0 then Reflection
    else if k == 1 then Dark
    else if k == 2 then Supernova
    else if k == 3 then Emission
    else if k == 4 then Planetary
    else Unnamed(k)
  }

  /** The start and end colours of each type; HotPink for an unnamed value. */
  function ColorPair(t: NebulaType): (Color, Color) {
    match t
    case Reflection => (Blue, Cyan)
    case Dark => (DarkViolet, Red)
    case Supernova => (Cyan, Yellow)
    case Emission => (Red, Orange)
    case Planetary => (LightCoral, DarkBlue)
    case Unnamed(_) => (HotPink, HotPink)
  }

  /** A `Next(0, 2) == 1` coin: the start colour on 1, the end colour on 0. */
  function Pick(coin: int, cols: (Color, Color)): Color {
    if coin == 1 then cols.0 else cols.1
  }

  /** The cloud drawn from the five positions starting at `pos`. */
  function CloudAt(seed: Word, pos: nat, cols: (Color, Color)): Cloud {
    Cloud(WithAlpha(180, Pick(IntDraw(seed, pos, 0, 2), cols)),
          (IntDraw(seed, pos + 1, 0, 180), IntDraw(seed, pos + 2, 0, 180)),
          (IntDraw(seed, pos + 3, 20, 40), IntDraw(seed, pos + 4, 20, 40)))
  }

  /** The first n clouds of the loop, the first one drawn from position `start`. */
  function CloudsUpTo(seed: Word, start: nat, cols: (Color, Color), n: nat): (r: seq<Cloud>)
    ensures |r| == n
  {
    if n == 0 then [] else CloudsUpTo(seed, start, cols, n - 1) + [CloudAt(seed, start + 5 * (n - 1), cols)]
  }

  /**
   * The nebula the constructor `Nebula(x, y, full)` builds.  Draw 0
   * decides existence, 1 the size, 2 the type, 3 the overall colour; a full
   * nebula continues with the cloud count (4) and the clouds from draw 5 on.
   * A nebula that does not exist keeps every default: size 0, the first
   * type, no colour and no clouds.
   */
  function NebulaAt(x: Word, y: Word, full: bool): Nebula {
    var seed := CoordSeed(x, y);
    if IntDraw(seed, 0, 0, 20) != 1 then
      Nebula(false, 0.0, Reflection, Empty, [], (x, y))
    else
      var size := DoubleDraw(seed, 1, 100.0, 400.0);
      var t := TypeOf(IntDraw(seed, 2, 0, 5));
      var cols := ColorPair(t);
      var overall := Pick(IntDraw(seed, 3, 0, 2), cols);
      if !full then
        Nebula(true, size, t, overall, [], (x, y))
      else
        var count := IntDraw(seed, 4, 75, 150);
        Nebula(true, size, t, overall, CloudsUpTo(seed, 5, cols, count), (x, y))
  }

  /** A nebula exists exactly when the first draw in [0, 20) is 1; otherwise nothing else is set. */
  lemma NebulaExistence(x: Word, y: Word, full: bool)
    ensures NebulaAt(x, y, full).nebulaExists <==> IntDraw(CoordSeed(x, y), 0, 0, 20) == 1
    ensures !NebulaAt(x, y, full).nebulaExists ==>
      NebulaAt(x, y, full) == Nebula(false, 0.0, Reflection, Empty, [], (x, y))
  {
  }

  /**
   * The type is drawn in [0, 5), so it is always one of the five named
   * types and the HotPink fallback is never chosen.
   */
  lemma TypeAlwaysNamed(x: Word, y: Word, full: bool)
    ensures !NebulaAt(x, y, full).nebulaType.Unnamed?
    ensures ColorPair(NebulaAt(x, y, full).nebulaType) != (HotPink, HotPink)
  {
  }

  /** The overall colour of an existing nebula is one of its type's two colours. */
  lemma OverallColInPair(x: Word, y: Word, full: bool)
    requires NebulaAt(x, y, full).nebulaExists
    ensures var n := NebulaAt(x, y, full);
      n.overallCol == ColorPair(n.nebulaType).0 || n.overallCol == ColorPair(n.nebulaType).1
  {
  }

  /** Without full generation there are no clouds. */
  lemma NonFullHasNoClouds(x: Word, y: Word)
    ensures NebulaAt(x, y, false).clouds == []
  {
  }

  /** Full and non-full generation share their draw prefix, so they agree on everything but the clouds. */
  lemma FullAgreesWithNonFull(x: Word, y: Word)
    ensures NebulaAt(x, y, true).nebulaExists == NebulaAt(x, y, false).nebulaExists
    ensures NebulaAt(x, y, true).size == NebulaAt(x, y, false).size
    ensures NebulaAt(x, y, true).nebulaType == NebulaAt(x, y, false).nebulaType
    ensures NebulaAt(x, y, true).overallCol == NebulaAt(x, y, false).overallCol
    ensures NebulaAt(x, y, true).coords == NebulaAt(x, y, false).coords == (x, y)
  {
  }

  /** A full nebula has between 75 and 149 clouds, exactly the drawn count. */
  lemma FullCloudCount(x: Word, y: Word)
    requires NebulaAt(x, y, true).nebulaExists
    ensures |NebulaAt(x, y, true).clouds| == IntDraw(CoordSeed(x, y), 4, 75, 150)
    ensures 75 <= |NebulaAt(x, y, true).clouds| < 150
  {
  }

  /** Cloud i is the cloud of the five draws from position start + 5 i. */
  lemma {:induction false} CloudWindow(seed: Word, start: nat, cols: (Color, Color), n: nat, i: nat)
    requires i < n
    ensures CloudsUpTo(seed, start, cols, n)[i] == CloudAt(seed, start + 5 * i, cols)
  {
    if i < n - 1 {
      CloudWindow(seed, start, cols, n - 1, i);
    }
  }

  /** Every cloud has a translucent colour from the pair, an offset in [0, 180) and an extent in [20, 40). */
  lemma {:induction false} CloudsBounded(seed: Word, start: nat, cols: (Color, Color), n: nat)
    ensures forall c :: c in CloudsUpTo(seed, start, cols, n) ==>
      && (c.col == WithAlpha(180, cols.0) || c.col == WithAlpha(180, cols.1))
      && 0 <= c.pos.0 < 180 && 0 <= c.pos.1 < 180
      && 20 <= c.size.0 < 40 && 20 <= c.size.1 < 40
  {
    if n > 0 {
      CloudsBounded(seed, start, cols, n - 1);
    }
  }

  /** One pass of the cloud loop: five draws. */
  method DrawCloud(rand: LehmerRand, cols: (Color, Color)) returns (c: Cloud)
    requires rand.Valid()
    modifies rand
    ensures rand.Valid() && rand.seed0 == old(rand.seed0) && rand.calls == old(rand.calls) + 5
    ensures c == CloudAt(rand.seed0, old(rand.calls), cols)
  {
    var coin := rand.NextInt(0, 2);
    var col := WithAlpha(180, if coin == 1 then cols.0 else cols.1);
    var px := rand.NextInt(0, 180);
    var py := rand.NextInt(0, 180);
    var w := rand.NextInt(20, 40);
    var h := rand.NextInt(20, 40);
    c := Cloud(col, (px, py), (w, h));
  }

  /** The constructor's cloud loop: `count` clouds. */
  method DrawClouds(rand: LehmerRand, cols: (Color, Color), count: nat) returns (clouds: seq<Cloud>)
    requires rand.Valid()
    modifies rand
    ensures rand.Valid() && rand.seed0 == old(rand.seed0) && rand.calls == old(rand.calls) + 5 * count
    ensures clouds == CloudsUpTo(rand.seed0, old(rand.calls), cols, count)
  {
    ghost var start := rand.calls;
    clouds := [];
    var i := 0;
    while i < count
      invariant 0 <= i <= count
      invariant rand.Valid() && rand.seed0 == old(rand.seed0) && rand.calls == start + 5 * i
      invariant clouds == CloudsUpTo(rand.seed0, start, cols, i)
    {
      var c := DrawCloud(rand, cols);
      assert c == CloudAt(rand.seed0, start + 5 * i, cols);
      clouds := clouds + [c];
      i := i + 1;
    }
  }

  /** The constructor `Nebula(x, y, generateFullNebula)`. */
  method Generate(x: Word, y: Word, full: bool) returns (n: Nebula)
    ensures n == NebulaAt(x, y, full)
  {
    ghost var seed := CoordSeed(x, y);
    var rand := new LehmerRand(CoordSeed(x, y));
    var coords := (x, y);
    var clouds: seq<Cloud> := [];

    var e := rand.NextInt(0, 20);
    var nebulaExists := e == 1;
    if !nebulaExists {
      return Nebula(false, 0.0, Reflection, Empty, clouds, coords);
    }

    var size := rand.NextDouble(100.0, 400.0);
    var k := rand.NextInt(0, 5);
    var t := TypeOf(k);
    var cols := ColorPair(t);
    var coin := rand.NextInt(0, 2);
    var overall := if coin == 1 then cols.0 else cols.1;
    assert size == DoubleDraw(seed, 1, 100.0, 400.0) && k == IntDraw(seed, 2, 0, 5) && coin == IntDraw(seed, 3, 0, 2);

    if !full {
      return Nebula(true, size, t, overall, clouds, coords);
    }

    var cloudCount := rand.NextInt(75, 150);
    assert cloudCount == IntDraw(seed, 4, 75, 150);
    assert rand.seed0 == seed && rand.calls == 5;
    clouds := DrawClouds(rand, cols, cloudCount);
    n := Nebula(true, size, t, overall, clouds, coords);
  }
}
