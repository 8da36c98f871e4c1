/**
 * The older star-system generator, the one the galaxy view selects: the
 * same star draws with other ranges, and planets whose temperature drives
 * their water and minerals.  A planet's population is computed and then
 * overwritten with 0, so every planet is uninhabited, yet its two
 * population draws are still taken from the stream.
 */
module SolarSystems {
  import opened Rand
  import opened Sectors
  import opened Colors
  import opened Planets

  datatype SolarSystem = SolarSystem(
    starExists: bool,
    starDiameter: real,
    starCol: Color,
    planets: seq<Planet>,
    coords: (Word, Word)
  )

  /** Temperature, distance from the star and diameter: the first three draws of a planet. */
  datatype Climate = Climate(temp: real, dist: real, diameter: real)

  /**
   * Water, foliage, minerals and gases, and how many draws they took:
   * the minerals draw is skipped on a planet below 0 degrees.
   */
  datatype Resources = Resources(water: real, foliage: real, minerals: real, gases: real, draws: nat)

  /** What the fixed draws after the climate decide. */
  datatype Tail = Tail(resources: Resources, population: real, hasRing: bool, moonCount: nat)

  /** What the fixed draws of one planet decide; its moons come after them. */
  datatype SolarHead = SolarHead(climate: Climate, tail: Tail)

  /** A planet together with the draw position and the distance after it. */
  datatype SolarStep = SolarStep(planet: Planet, next: nat, distFromStar: real)

  /** The planets generated so far, the next draw position and the running distance. */
  datatype SolarRun = SolarRun(planets: seq<Planet>, next: nat, distFromStar: real)

  /** `Math.Sign` of a double. */
  function RealSign(x: real): int {
    if x > 0.0 then 1 else if x < 0.0 then -1 else 0
  }

  /** `Math.Sign` of an int. */
  function IntSign(x: int): int {
    if x > 0 then 1 else if x < 0 then -1 else 0
  }

  /**
   * The climate from the running distance and the star's diameter, given
   * the draws in [0, 20) and [30, 200): a hot star warms near planets, the
   * base temperature never goes below -200, and the distance grows before
   * it is recorded.
   */
  function ClimateOf(starDiameter: real, distFromStar: real, cooling: real, step: real, diam: real): Climate {
    var temp := RealMax(-200.0, starDiameter * 20.0 - distFromStar * 1.5) - cooling;
    Climate(temp, distFromStar + step, diam)
  }

  /** The climate of the three draws starting at position `pos`. */
  function ClimateAt(seed: Word, pos: nat, starDiameter: real, distFromStar: real): Climate {
    ClimateOf(starDiameter, distFromStar, DoubleDraw(seed, pos, 0.0, 20.0),
              DoubleDraw(seed, pos + 1, 30.0, 200.0), DoubleDraw(seed, pos + 2, 4.0, 20.0))
  }

  /** Water follows the temperature: none below -100, rising linearly to 1 at 0 degrees. */
  function WaterOf(temp: real): real {
    if temp >= -100.0 then RealMax(0.0, RealMin(1.0, (temp + 100.0) / 100.0)) else 0.0
  }

  /**
   * The resources of a planet at temperature `temp`, given its foliage,
   * minerals and gases draws; below 0 degrees the minerals are a fixed
   * 0.15 and `m` plays no part (no minerals draw is taken, `draws` is 2).
   */
  function ResourcesOf(temp: real, f: real, m: real, g: real): Resources {
    var water := WaterOf(temp);
    var foliage := RealMin(1.0, f * water);
    var minerals :=
      if temp >= 0.0 then RealMax(0.0, RealMin(1.0, (m * 0.5 + 0.3) + (if temp < 50.0 then 0.0 else 0.4)))
      else 0.15;
    Resources(water, foliage, minerals, RealMin(1.0, g * minerals), if temp >= 0.0 then 3 else 2)
  }

  /** The resources drawn from position `pos` on, on a planet at temperature `temp`. */
  function ResourcesAt(seed: Word, pos: nat, temp: real): Resources {
    if temp >= 0.0 then
      ResourcesOf(temp, DoubleDraw(seed, pos, 0.6, 1.5), DoubleDraw(seed, pos + 1, 0.0, 1.0),
                  DoubleDraw(seed, pos + 2, 0.5, 1.2))
    else
      ResourcesOf(temp, DoubleDraw(seed, pos, 0.6, 1.5), 0.0, DoubleDraw(seed, pos + 1, 0.5, 1.2))
  }

  /**
   * The fixed draws after the climate, from position `pos`, on a planet at
   * temperature `temp`: resources (2 or 3), population and its sign (2),
   * ring (1) and moon count (1).  The population chain always ends at 0.
   */
  function TailAt(seed: Word, pos: nat, temp: real): Tail {
    var r := ResourcesAt(seed, pos, temp);
    Tail(r, 0.0, IntDraw(seed, pos + r.draws + 2, 0, 8) == 1, IntMax(IntDraw(seed, pos + r.draws + 3, -5, 5), 0))
  }

  /** The fixed draws of one iteration of the planet loop from position `pos`. */
  function HeadAt(seed: Word, pos: nat, starDiameter: real, distFromStar: real): SolarHead {
    var c := ClimateAt(seed, pos, starDiameter, distFromStar);
    SolarHead(c, TailAt(seed, pos + 3, c.temp))
  }

  /** Draws the fixed part of a planet takes: nine, plus the minerals draw when it is taken. */
  function HeadDraws(h: SolarHead): nat {
    7 + h.tail.resources.draws
  }

  /** The planet with these fixed attributes and these moons. */
  function WithMoons(h: SolarHead, moons: seq<real>): Planet {
    var r := h.tail.resources;
    Planet(h.climate.dist, h.climate.diameter, r.foliage, r.minerals, r.water, r.gases,
           h.climate.temp, h.tail.population, h.tail.hasRing, moons)
  }

  /** One iteration of the planet loop: the fixed draws, then one draw per moon. */
  function PlanetAt(seed: Word, pos: nat, starDiameter: real, distFromStar: real): SolarStep {
    var h := HeadAt(seed, pos, starDiameter, distFromStar);
    var moonPos := pos + HeadDraws(h);
    SolarStep(WithMoons(h, Moons(seed, moonPos, h.climate.diameter, h.tail.moonCount)),
              moonPos + h.tail.moonCount, h.climate.dist)
  }

  /** The first n planets of the loop, the first one starting at draw position `start`. */
  function PlanetsUpTo(seed: Word, start: nat, starDiameter: real, dist0: real, n: nat): (r: SolarRun)
    ensures |r.planets| == n
  {
    if n == 0 then SolarRun([], start, dist0)
    else
      var prev := PlanetsUpTo(seed, start, starDiameter, dist0, n - 1);
      var step := PlanetAt(seed, prev.next, starDiameter, prev.distFromStar);
      SolarRun(prev.planets + [step.planet], step.next, step.distFromStar)
  }

  /**
   * The system the constructor `SolarSystem(x, y, full)` builds.  Draw 0
   * decides existence, 1 the diameter, 2 the palette index; a full system
   * continues with the starting distance (3), the planet count (4) and the
   * planets from draw 5 on.
   */
  function SolarSystemAt(x: Word, y: Word, full: bool): SolarSystem {
    var seed := CoordSeed(x, y);
    if IntDraw(seed, 0, 0, 20) != 1 then
      SolarSystem(false, 0.0, Empty, [], (x, y))
    else
      var diam := DoubleDraw(seed, 1, 10.0, 40.0);
      var col := StarColors[IntDraw(seed, 2, 0, 16)];
      if !full then
        SolarSystem(true, diam, col, [], (x, y))
      else
        var dist0 := DoubleDraw(seed, 3, 40.0, 180.0);
        var count := IntDraw(seed, 4, 0, 12);
        SolarSystem(true, diam, col, PlanetsUpTo(seed, 5, diam, dist0, count).planets, (x, y))
  }

  /** A star exists exactly when the first draw in [0, 20) is 1; otherwise nothing else is set. */
  lemma StarExistence(x: Word, y: Word, full: bool)
    ensures SolarSystemAt(x, y, full).starExists <==> IntDraw(CoordSeed(x, y), 0, 0, 20) == 1
    ensures !SolarSystemAt(x, y, full).starExists ==>
      SolarSystemAt(x, y, full) == SolarSystem(false, 0.0, Empty, [], (x, y))
  {
  }

  /** The star colour is always one of the 16 palette entries. */
  lemma StarColInPalette(x: Word, y: Word, full: bool)
    requires SolarSystemAt(x, y, full).starExists
    ensures SolarSystemAt(x, y, full).starCol in StarColors
  {
  }

  /** Without full generation there are no planets. */
  lemma NonFullHasNoPlanets(x: Word, y: Word)
    ensures SolarSystemAt(x, y, false).planets == []
  {
  }

  /** Full and non-full generation share their draw prefix, so they agree on the star. */
  lemma FullAgreesWithNonFull(x: Word, y: Word)
    ensures SolarSystemAt(x, y, true).starExists == SolarSystemAt(x, y, false).starExists
    ensures SolarSystemAt(x, y, true).starDiameter == SolarSystemAt(x, y, false).starDiameter
    ensures SolarSystemAt(x, y, true).starCol == SolarSystemAt(x, y, false).starCol
    ensures SolarSystemAt(x, y, true).coords == SolarSystemAt(x, y, false).coords == (x, y)
  {
  }

  /** A full system has exactly the drawn number of planets, fewer than 12. */
  lemma FullPlanetCount(x: Word, y: Word)
    requires SolarSystemAt(x, y, true).starExists
    ensures |SolarSystemAt(x, y, true).planets| == IntDraw(CoordSeed(x, y), 4, 0, 12) < 12
  {
  }

  /**
   * One planet takes nine fixed draws, a tenth exactly when it is at least
   * 0 degrees warm, and one per moon; it has at most four moons, each of
   * diameter at least 1, and nobody lives on it.
   */
  lemma PlanetAtShape(seed: Word, pos: nat, starDiameter: real, distFromStar: real)
    ensures var s := PlanetAt(seed, pos, starDiameter, distFromStar);
      && s.next == pos + 9 + (if s.planet.temp >= 0.0 then 1 else 0) + |s.planet.moons|
      && |s.planet.moons| <= 4
      && (forall m :: m in s.planet.moons ==> m >= 1.0)
      && s.planet.population == 0.0
  {
    var h := HeadAt(seed, pos, starDiameter, distFromStar);
    assert IntDraw(seed, pos + HeadDraws(h) - 1, -5, 5) < 5;
  }

  /**
   * Over the whole loop: every planet is uninhabited and has at most four
   * moons of diameter at least 1, and the loop's draws are exactly the sum
   * of its planets' draws.
   */
  lemma {:induction false} PlanetsShape(seed: Word, start: nat, starDiameter: real, dist0: real, n: nat)
    ensures var r := PlanetsUpTo(seed, start, starDiameter, dist0, n);
      && r.next == start + SolarDraws(r.planets)
      && forall p :: p in r.planets ==>
           p.population == 0.0 && |p.moons| <= 4 && forall m :: m in p.moons ==> m >= 1.0
  {
    if n > 0 {
      PlanetsShape(seed, start, starDiameter, dist0, n - 1);
      var prev := PlanetsUpTo(seed, start, starDiameter, dist0, n - 1);
      PlanetAtShape(seed, prev.next, starDiameter, prev.distFromStar);
      var step := PlanetAt(seed, prev.next, starDiameter, prev.distFromStar);
      var ps := prev.planets + [step.planet];
      assert ps[..n - 1] == prev.planets;
    }
  }

  /** Draws a sequence of planets of this revision takes, in generation order. */
  function SolarDraws(ps: seq<Planet>): nat {
    if ps == [] then 0
    else SolarDraws(ps[..|ps| - 1]) + 9 + (if ps[|ps| - 1].temp >= 0.0 then 1 else 0) + |ps[|ps| - 1].moons|
  }

  /** Every planet of every solar system is uninhabited. */
  lemma NobodyLivesThere(x: Word, y: Word, full: bool)
    ensures forall p :: p in SolarSystemAt(x, y, full).planets ==> p.population == 0.0
  {
    var seed := CoordSeed(x, y);
    if full && IntDraw(seed, 0, 0, 20) == 1 {
      PlanetsShape(seed, 5, DoubleDraw(seed, 1, 10.0, 40.0), DoubleDraw(seed, 3, 40.0, 180.0), IntDraw(seed, 4, 0, 12));
    }
  }

  /** The climate draws of one pass of the planet loop. */
  method DrawClimate(rand: LehmerRand, starDiameter: real, distFromStar: real) returns (c: Climate)
    requires rand.Valid()
    modifies rand
    ensures rand.Valid() && rand.seed0 == old(rand.seed0) && rand.calls == old(rand.calls) + 3
    ensures c == ClimateAt(rand.seed0, old(rand.calls), starDiameter, distFromStar)
  {
    var cooling := rand.NextDouble(0.0, 20.0);
    var step := rand.NextDouble(30.0, 200.0);
    var diam := rand.NextDouble(4.0, 20.0);
    c := ClimateOf(starDiameter, distFromStar, cooling, step, diam);
  }

  /** The resource draws of one pass of the planet loop; the minerals draw only when warm. */
  method DrawResources(rand: LehmerRand, temp: real) returns (r: Resources)
    requires rand.Valid()
    modifies rand
    ensures rand.Valid() && rand.seed0 == old(rand.seed0)
    ensures r == ResourcesAt(rand.seed0, old(rand.calls), temp)
    ensures rand.calls == old(rand.calls) + r.draws
  {
    var f := rand.NextDouble(0.6, 1.5);
    var m := 0.0;
    if temp >= 0.0 {
      m := rand.NextDouble(0.0, 1.0);
    }
    var g := rand.NextDouble(0.5, 1.2);
    r := ResourcesOf(temp, f, m, g);
  }

  /**
   * The population of one pass of the planet loop: a draw, scaled by the
   * planet's attributes and signs, then discarded.  Two draws, result 0.
   */
  method DrawPopulation(rand: LehmerRand, temp: real, r: Resources) returns (pop: real)
    requires rand.Valid()
    modifies rand
    ensures rand.Valid() && rand.seed0 == old(rand.seed0) && rand.calls == old(rand.calls) + 2
    ensures pop == 0.0
  {
    pop := rand.NextDouble(0.0, 100000000.0);
    pop := pop * (1.0 + temp / 100.0);
    pop := pop * (1.0 + r.foliage);
    pop := pop * (1.0 + r.minerals);
    pop := pop * (1.0 + r.gases);
    pop := pop * (1.0 + r.water);
    pop := pop * RealSign(pop) as real;
    var sign := rand.NextInt(-999, 2);
    pop := pop * IntSign(sign) as real;
    pop := 0.0;
  }

  /** The fixed draws of one pass of the planet loop after the climate. */
  method DrawTail(rand: LehmerRand, temp: real) returns (t: Tail)
    requires rand.Valid()
    modifies rand
    ensures rand.Valid() && rand.seed0 == old(rand.seed0)
    ensures t == TailAt(rand.seed0, old(rand.calls), temp)
    ensures rand.calls == old(rand.calls) + t.resources.draws + 4
  {
    var r := DrawResources(rand, temp);
    var pop := DrawPopulation(rand, temp, r);
    var ring := rand.NextInt(0, 8);
    var mc := rand.NextInt(-5, 5);
    t := Tail(r, pop, ring == 1, IntMax(mc, 0));
  }

  /** One pass of the constructor's planet loop, from the running distance. */
  method DrawPlanet(rand: LehmerRand, starDiameter: real, distFromStar: real) returns (p: Planet, newDist: real)
    requires rand.Valid()
    modifies rand
    ensures rand.Valid() && rand.seed0 == old(rand.seed0)
    ensures SolarStep(p, rand.calls, newDist) == PlanetAt(rand.seed0, old(rand.calls), starDiameter, distFromStar)
  {
    ghost var seed, pos := rand.seed0, rand.calls;
    var c := DrawClimate(rand, starDiameter, distFromStar);
    var t := DrawTail(rand, c.temp);
    var h := SolarHead(c, t);
    assert h == HeadAt(seed, pos, starDiameter, distFromStar) && rand.calls == pos + HeadDraws(h);
    var moons := DrawMoons(rand, c.diameter, t.moonCount);
    p := WithMoons(h, moons);
    newDist := h.climate.dist;
  }

  /** The constructor's planet loop: `count` planets from the starting distance `dist0`. */
  method DrawPlanets(rand: LehmerRand, starDiameter: real, dist0: real, count: nat) returns (planets: seq<Planet>)
    requires rand.Valid()
    modifies rand
    ensures rand.Valid() && rand.seed0 == old(rand.seed0)
    ensures planets == PlanetsUpTo(rand.seed0, old(rand.calls), starDiameter, dist0, count).planets
  {
    ghost var start := rand.calls;
    var distFromStar := dist0;
    planets := [];
    var i := 0;
    while i < count
      invariant 0 <= i <= count
      invariant rand.Valid() && rand.seed0 == old(rand.seed0)
      invariant SolarRun(planets, rand.calls, distFromStar) == PlanetsUpTo(rand.seed0, start, starDiameter, dist0, i)
    {
      var p;
      p, distFromStar := DrawPlanet(rand, starDiameter, distFromStar);
      planets := planets + [p];
      i := i + 1;
    }
  }

  /** The constructor `SolarSystem(x, y, generateFullSystem)`. */
  method Generate(x: Word, y: Word, full: bool) returns (s: SolarSystem)
    ensures s == SolarSystemAt(x, y, full)
  {
    ghost var seed := CoordSeed(x, y);
    var rand := new LehmerRand(CoordSeed(x, y));
    var coords := (x, y);
    var planets: seq<Planet> := [];

    var e := rand.NextInt(0, 20);
    var starExists := e == 1;
    if !starExists {
      return SolarSystem(false, 0.0, Empty, planets, coords);
    }

    var starDiameter := rand.NextDouble(10.0, 40.0);
    var ci := rand.NextInt(0, |StarColors|);
    assert starDiameter == DoubleDraw(seed, 1, 10.0, 40.0) && ci == IntDraw(seed, 2, 0, 16);
    var starCol := StarColors[ci];

    if !full {
      return SolarSystem(true, starDiameter, starCol, planets, coords);
    }

    var distFromStar := rand.NextDouble(40.0, 180.0);
    var planetCount := rand.NextInt(0, 12);
    assert distFromStar == DoubleDraw(seed, 3, 40.0, 180.0) && planetCount == IntDraw(seed, 4, 0, 12);
    assert rand.seed0 == seed && rand.calls == 5;
    planets := DrawPlanets(rand, starDiameter, distFromStar, planetCount);
    s := SolarSystem(true, starDiameter, starCol, planets, coords);
  }
}
