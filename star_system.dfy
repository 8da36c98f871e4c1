/**
 * The star-system generator of the current revision: a star (or its
 * absence) at a sector and, on request, its full list of planets.
 *
 * `StarSystemAt` is the system the constructor produces, written as a
 * function of the draw positions of the sector's stream; `Generate` is the
 * constructor itself, drawing from its own `LehmerRand`.
 */
module StarSystems {
  import opened Rand
  import opened Sectors
  import opened Colors
  import opened Planets

  datatype StarSystem = StarSystem(
    starExists: bool,
    starDiameter: real,
    starCol: Color,
    planets: seq<Planet>,
    coords: (Word, Word)
  )

  /** A planet together with the draw position and the distance after it. */
  datatype PlanetStep = PlanetStep(planet: Planet, next: nat, distFromStar: real)

  /** The planets generated so far, the next draw position and the running distance. */
  datatype PlanetRun = PlanetRun(planets: seq<Planet>, next: nat, distFromStar: real)

  /** Draws a planet of this revision takes: eleven fixed ones and one per moon. */
  function PlanetDraws(p: Planet): nat {
    11 + |p.moons|
  }

  /** Draws a sequence of planets takes, in generation order. */
  function TotalDraws(ps: seq<Planet>): nat {
    if ps == [] then 0 else TotalDraws(ps[..|ps| - 1]) + PlanetDraws(ps[|ps| - 1])
  }

  /** Water, foliage, minerals and gases of a planet of this revision. */
  datatype Surface = Surface(water: real, foliage: real, minerals: real, gases: real)

  /**
   * The surface made from its four draws: water is whatever of a [0, 5)
   * draw exceeds 4, foliage a fraction of the water, minerals the draw in
   * [0.2, 1) itself and gases a draw plus half the water, clamped to [0, 1].
   */
  function SurfaceOf(w: real, f: real, m: real, g: real): Surface {
    var water := RealMax(0.0, w - 4.0);
    Surface(water, f * water, m, RealClamp(g + water * 0.5, 0.0, 1.0))
  }

  /** The surface of the four draws starting at position `pos`. */
  function SurfaceAt(seed: Word, pos: nat): Surface {
    SurfaceOf(DoubleDraw(seed, pos, 0.0, 5.0), DoubleDraw(seed, pos + 1, 0.0, 1.0),
              DoubleDraw(seed, pos + 2, 0.2, 1.0), DoubleDraw(seed, pos + 3, 0.0, 1.0))
  }

  /** What the eleven fixed draws of one planet decide; the moons come after them. */
  datatype PlanetHead = PlanetHead(dist: real, diameter: real, surface: Surface, hasRing: bool, moonCount: nat)

  /**
   * The fixed draws of one iteration of the planet loop, starting at draw
   * position `pos` with the running distance `distFromStar`: distance step,
   * diameter, the four surface draws, ring, three colour tints (their
   * values only tint the display colour) and the moon count.
   */
  function HeadAt(seed: Word, pos: nat, distFromStar: real): PlanetHead {
    PlanetHead(
      distFromStar + DoubleDraw(seed, pos, 30.0, 200.0),
      DoubleDraw(seed, pos + 1, 4.0, 20.0),
      SurfaceAt(seed, pos + 2),
      IntDraw(seed, pos + 6, 0, 8) == 1,
      IntMax(IntDraw(seed, pos + 10, -5, 5), 0))
  }

  /** The planet with these fixed attributes and these moons; it has no inhabitants. */
  function WithMoons(h: PlanetHead, moons: seq<real>): Planet {
    Planet(h.dist, h.diameter, h.surface.foliage, h.surface.minerals, h.surface.water, h.surface.gases,
           0.0, 0.0, h.hasRing, moons)
  }

  /** One iteration of the planet loop: the fixed draws, then one draw per moon. */
  function PlanetAt(seed: Word, pos: nat, distFromStar: real): PlanetStep {
    var h := HeadAt(seed, pos, distFromStar);
    PlanetStep(WithMoons(h, Moons(seed, pos + 11, h.diameter, h.moonCount)), pos + 11 + h.moonCount, h.dist)
  }

  /** The first n planets of the loop, the first one starting at draw position `start`. */
  function PlanetsUpTo(seed: Word, start: nat, dist0: real, n: nat): (r: PlanetRun)
    ensures |r.planets| == n
    ensures r.next == start + TotalDraws(r.planets)
  {
    if n == 0 then PlanetRun([], start, dist0)
    else
      var prev := PlanetsUpTo(seed, start, dist0, n - 1);
      var step := PlanetAt(seed, prev.next, prev.distFromStar);
      assert (prev.planets + [step.planet])[..n - 1] == prev.planets;
      PlanetRun(prev.planets + [step.planet], step.next, step.distFromStar)
  }

  /**
   * The system the constructor `StarSystem(x, y, full)` builds.  Draw 0
   * decides existence, 1 the diameter, 2 the palette index; a full system
   * continues with the starting distance (3), the planet count (4) and the
   * planets from draw 5 on.
   */
  function StarSystemAt(x: Word, y: Word, full: bool): StarSystem {
    var seed := CoordSeed(x, y);
    if IntDraw(seed, 0, 0, 20) != 1 then
      StarSystem(false, 0.0, Empty, [], (x, y))
    else
      var diam := DoubleDraw(seed, 1, 20.0, 60.0);
      var col := StarColors[IntDraw(seed, 2, 0, 16)];
      if !full then
        StarSystem(true, diam, col, [], (x, y))
      else
        var dist0 := DoubleDraw(seed, 3, 40.0, 180.0);
        var count := IntDraw(seed, 4, 0, 12);
        StarSystem(true, diam, col, PlanetsUpTo(seed, 5, dist0, count).planets, (x, y))
  }

  /** A star exists exactly when the first draw in [0, 20) is 1; otherwise nothing else is set. */
  lemma StarExistence(x: Word, y: Word, full: bool)
    ensures StarSystemAt(x, y, full).starExists <==> IntDraw(CoordSeed(x, y), 0, 0, 20) == 1
    ensures !StarSystemAt(x, y, full).starExists ==>
      StarSystemAt(x, y, full) == StarSystem(false, 0.0, Empty, [], (x, y))
  {
  }

  /** The star colour is always one of the 16 palette entries. */
  lemma StarColInPalette(x: Word, y: Word, full: bool)
    requires StarSystemAt(x, y, full).starExists
    ensures StarSystemAt(x, y, full).starCol in StarColors
  {
  }

  /** Without full generation there are no planets. */
  lemma NonFullHasNoPlanets(x: Word, y: Word)
    ensures StarSystemAt(x, y, false).planets == []
  {
  }

  /** Full and non-full generation share their draw prefix, so they agree on the star. */
  lemma FullAgreesWithNonFull(x: Word, y: Word)
    ensures StarSystemAt(x, y, true).starExists == StarSystemAt(x, y, false).starExists
    ensures StarSystemAt(x, y, true).starDiameter == StarSystemAt(x, y, false).starDiameter
    ensures StarSystemAt(x, y, true).starCol == StarSystemAt(x, y, false).starCol
    ensures StarSystemAt(x, y, true).coords == StarSystemAt(x, y, false).coords == (x, y)
  {
  }

  /** A full system has exactly the drawn number of planets, fewer than 12. */
  lemma FullPlanetCount(x: Word, y: Word)
    requires StarSystemAt(x, y, true).starExists
    ensures |StarSystemAt(x, y, true).planets| == IntDraw(CoordSeed(x, y), 4, 0, 12) < 12
  {
  }

  /** Every planet has at most four moons, each of diameter at least 1. */
  lemma {:induction false} PlanetsMoonsBounded(seed: Word, start: nat, dist0: real, n: nat)
    ensures forall p :: p in PlanetsUpTo(seed, start, dist0, n).planets ==>
      |p.moons| <= 4 && forall m :: m in p.moons ==> m >= 1.0
  {
    if n > 0 {
      PlanetsMoonsBounded(seed, start, dist0, n - 1);
      var prev := PlanetsUpTo(seed, start, dist0, n - 1);
      var step := PlanetAt(seed, prev.next, prev.distFromStar);
      assert IntDraw(seed, prev.next + 10, -5, 5) < 5;
      assert |step.planet.moons| <= 4;
    }
  }

  /**
   * Planets come in generation order, which is order of distance: each lies
   * at least 30 beyond the previous one (the first at least 30 beyond the
   * starting distance), and the running distance is the last planet's.
   */
  lemma {:induction false} PlanetsRecede(seed: Word, start: nat, dist0: real, n: nat)
    ensures var r := PlanetsUpTo(seed, start, dist0, n);
      && (n == 0 ==> r.distFromStar == dist0)
      && (n > 0 ==> r.distFromStar == r.planets[n - 1].dist)
      && (n > 0 ==> r.planets[0].dist >= dist0 + 30.0)
      && forall i :: 0 < i < n ==> r.planets[i].dist >= r.planets[i - 1].dist + 30.0
  {
    if n > 0 {
      PlanetsRecede(seed, start, dist0, n - 1);
      var prev := PlanetsUpTo(seed, start, dist0, n - 1);
      var step := PlanetAt(seed, prev.next, prev.distFromStar);
      PlanetAtRecedes(seed, prev.next, prev.distFromStar);
      var r := PlanetsUpTo(seed, start, dist0, n);
      assert r.planets == prev.planets + [step.planet];
      forall i | 0 < i < n
        ensures r.planets[i].dist >= r.planets[i - 1].dist + 30.0
      {
        assert r.planets[i - 1] == prev.planets[i - 1];
        if i < n - 1 {
          assert r.planets[i] == prev.planets[i];
        }
      }
    }
  }

  /** A planet lies at least 30 beyond the running distance, which becomes its own. */
  lemma PlanetAtRecedes(seed: Word, pos: nat, distFromStar: real)
    ensures PlanetAt(seed, pos, distFromStar).planet.dist == PlanetAt(seed, pos, distFromStar).distFromStar
    ensures PlanetAt(seed, pos, distFromStar).distFromStar >= distFromStar + 30.0
  {
    ScaleAtLeastMin(Output(seed, pos), 30.0, 200.0);
  }

  /** The four surface draws of one pass of the planet loop. */
  method DrawSurface(rand: LehmerRand) returns (sf: Surface)
    requires rand.Valid()
    modifies rand
    ensures rand.Valid() && rand.seed0 == old(rand.seed0) && rand.calls == old(rand.calls) + 4
    ensures sf == SurfaceAt(rand.seed0, old(rand.calls))
  {
    var w := rand.NextDouble(0.0, 5.0);
    var f := rand.NextDouble(0.0, 1.0);
    var m := rand.NextDouble(0.2, 1.0);
    var g := rand.NextDouble(0.0, 1.0);
    sf := SurfaceOf(w, f, m, g);
  }

  /** The eleven fixed draws of one pass of the planet loop. */
  method DrawHead(rand: LehmerRand, distFromStar: real) returns (h: PlanetHead)
    requires rand.Valid()
    modifies rand
    ensures rand.Valid() && rand.seed0 == old(rand.seed0) && rand.calls == old(rand.calls) + 11
    ensures h == HeadAt(rand.seed0, old(rand.calls), distFromStar)
  {
    var step := rand.NextDouble(30.0, 200.0);
    var diam := rand.NextDouble(4.0, 20.0);
    var sf := DrawSurface(rand);
    var ring := rand.NextInt(0, 8);
    // the three tints of the display colour
    var tintR := rand.NextDouble(0.0, 1.5);
    var tintG := rand.NextDouble(0.0, 1.5);
    var tintB := rand.NextDouble(0.0, 1.5);
    var mc := rand.NextInt(-5, 5);
    h := PlanetHead(distFromStar + step, diam, sf, ring == 1, IntMax(mc, 0));
  }

  /** One pass of the constructor's planet loop, from the running distance. */
  method DrawPlanet(rand: LehmerRand, distFromStar: real) returns (p: Planet, newDist: real)
    requires rand.Valid()
    modifies rand
    ensures rand.Valid() && rand.seed0 == old(rand.seed0)
    ensures PlanetStep(p, rand.calls, newDist) == PlanetAt(rand.seed0, old(rand.calls), distFromStar)
  {
    ghost var seed, pos := rand.seed0, rand.calls;
    var h := DrawHead(rand, distFromStar);
    assert h == HeadAt(seed, pos, distFromStar) && rand.calls == pos + 11;
    var moons := DrawMoons(rand, h.diameter, h.moonCount);
    p := WithMoons(h, moons);
    newDist := h.dist;
  }

  /** The constructor's planet loop: `count` planets from the starting distance `dist0`. */
  method DrawPlanets(rand: LehmerRand, dist0: real, count: nat) returns (planets: seq<Planet>)
    requires rand.Valid()
    modifies rand
    ensures rand.Valid() && rand.seed0 == old(rand.seed0)
    ensures planets == PlanetsUpTo(rand.seed0, old(rand.calls), dist0, count).planets
  {
    ghost var start := rand.calls;
    var distFromStar := dist0;
    planets := [];
    var i := 0;
    while i < count
      invariant 0 <= i <= count
      invariant rand.Valid() && rand.seed0 == old(rand.seed0)
      invariant PlanetRun(planets, rand.calls, distFromStar) == PlanetsUpTo(rand.seed0, start, dist0, i)
    {
      var p;
      p, distFromStar := DrawPlanet(rand, distFromStar);
      planets := planets + [p];
      i := i + 1;
    }
  }

  /** The constructor `StarSystem(x, y, generateFullSystem)`. */
  method Generate(x: Word, y: Word, full: bool) returns (s: StarSystem)
    ensures s == StarSystemAt(x, y, full)
  {
    ghost var seed := CoordSeed(x, y);
    var rand := new LehmerRand(CoordSeed(x, y));
    var coords := (x, y);
    var planets: seq<Planet> := [];

    var e := rand.NextInt(0, 20);
    var starExists := e == 1;
    if !starExists {
      return StarSystem(false, 0.0, Empty, planets, coords);
    }

    var starDiameter := rand.NextDouble(20.0, 60.0);
    var ci := rand.NextInt(0, |StarColors|);
    assert starDiameter == DoubleDraw(seed, 1, 20.0, 60.0) && ci == IntDraw(seed, 2, 0, 16);
    var starCol := StarColors[ci];

    if !full {
      return StarSystem(true, starDiameter, starCol, planets, coords);
    }

    var distFromStar := rand.NextDouble(40.0, 180.0);
    var planetCount := rand.NextInt(0, 12);
    assert distFromStar == DoubleDraw(seed, 3, 40.0, 180.0) && planetCount == IntDraw(seed, 4, 0, 12);
    assert rand.seed0 == seed && rand.calls == 5;
    planets := DrawPlanets(rand, distFromStar, planetCount);
    s := StarSystem(true, starDiameter, starCol, planets, coords);
  }
}
