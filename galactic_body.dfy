/**
 * The coordinate resolver: what, if anything, occupies a sector.  Two
 * draws from the sector's own stream decide it; the body found there is
 * then built in non-full mode by its own constructor, which re-seeds from
 * the same coordinates.
 */
module GalacticBodies {
  import opened Rand
  import opened Sectors
  import StarSystems
  import Nebulae
  import opened Options

  /** A black hole stores only its coordinates. */
  datatype BlackHole = BlackHole(coords: (Word, Word))

  /** The three kinds of galactic body. */
  datatype Body =
    | HoleBody(hole: BlackHole)
    | NebulaBody(nebula: Nebulae.Nebula)
    | StarBody(system: StarSystems.StarSystem)

  /** Which kind of body, as a number: 0 black hole, 1 nebula, 2 star system; -1 for an empty sector. */
  function Kind(b: Option<Body>): int {
    match b
    case None => -1
    case Some(HoleBody(_)) => 0
    case Some(NebulaBody(_)) => 1
    case Some(StarBody(_)) => 2
  }

  /**
   * `GalacticBody.At(x, y)`: empty unless the first draw in [0, 20) is 1;
   * then a draw in [0, 500) of 0 is a black hole, 1 to 15 a nebula and
   * anything above a star system.
   */
  function BodyAt(x: Word, y: Word): Option<Body> {
    var seed := CoordSeed(x, y);
    if IntDraw(seed, 0, 0, 20) != 1 then None
    else
      var k := IntDraw(seed, 1, 0, 500);
      if k == 0 then Some(HoleBody(BlackHole((x, y))))
      else if 0 < k <= 15 then Some(NebulaBody(Nebulae.NebulaAt(x, y, false)))
      else Some(StarBody(StarSystems.StarSystemAt(x, y, false)))
  }

  /** A sector is occupied exactly when its first draw in [0, 20) is 1. */
  lemma Occupancy(x: Word, y: Word)
    ensures BodyAt(x, y).Some? <==> IntDraw(CoordSeed(x, y), 0, 0, 20) == 1
  {
  }

  /** The classification thresholds, each an if-and-only-if on the second draw. */
  lemma Classification(x: Word, y: Word)
    requires BodyAt(x, y).Some?
    ensures var k := IntDraw(CoordSeed(x, y), 1, 0, 500);
      && (BodyAt(x, y).value.HoleBody? <==> k == 0)
      && (BodyAt(x, y).value.NebulaBody? <==> 1 <= k <= 15)
      && (BodyAt(x, y).value.StarBody? <==> 16 <= k < 500)
  {
  }

  /** Only the low 16 bits of each coordinate decide what kind of body is there. */
  lemma KindLow16(x: Word, y: Word, x': Word, y': Word)
    requires x % 0x1_0000 == x' % 0x1_0000 && y % 0x1_0000 == y' % 0x1_0000
    ensures Kind(BodyAt(x, y)) == Kind(BodyAt(x', y'))
  {
    CoordSeedLow16(x, y, x', y');
  }

  /** A sector one 65536-wide tile to the east holds the same kind of body. */
  lemma KindRepeatsEast(x: Word, y: Word)
    ensures Kind(BodyAt(TileEast(x), y)) == Kind(BodyAt(x, y))
  {
    CoordSeedTileEast(x, y);
  }

  /**
   * The resolver and the constructors agree: a nebula or star system it
   * returns exists (its constructor repeats the same first draw), holds
   * nothing of a full generation, and every body keeps the coordinates.
   */
  lemma Agreement(x: Word, y: Word)
    ensures match BodyAt(x, y)
      case None => true
      case Some(HoleBody(h)) => h.coords == (x, y)
      case Some(NebulaBody(n)) => n.nebulaExists && n.clouds == [] && n.coords == (x, y)
      case Some(StarBody(s)) => s.starExists && s.planets == [] && s.coords == (x, y)
  {
  }

  /** The resolver: two draws from a fresh generator, then the chosen constructor. */
  method At(x: Word, y: Word) returns (b: Option<Body>)
    ensures b == BodyAt(x, y)
  {
    ghost var seed := CoordSeed(x, y);
    var rand := new LehmerRand(CoordSeed(x, y));
    var e := rand.NextInt(0, 20);
    if e != 1 {
      return None;
    }
    var k := rand.NextInt(0, 500);
    assert k == IntDraw(seed, 1, 0, 500);
    if k == 0 {
      b := Some(HoleBody(BlackHole((x, y))));
    } else if 0 < k <= 15 {
      var n := Nebulae.Generate(x, y, false);
      b := Some(NebulaBody(n));
    } else {
      var s := StarSystems.Generate(x, y, false);
      b := Some(StarBody(s));
    }
  }
}
