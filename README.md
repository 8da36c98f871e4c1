# CosmicFortune universe generation, modelled in Dafny

CosmicFortune builds an endless galaxy procedurally. Nothing about a sector
is stored. Whatever occupies sector (x, y) is recomputed on demand from a
small counter-based generator, `LehmerRand`, seeded with the sector's low
coordinate bits. This project models:

- the generator, as a class with its 32-bit state and a position-indexed
  description of its stream (`Rand`);
- the coordinate seed (`Sectors`);
- the resolver `GalacticBody.At`, which decides whether a sector holds a
  black hole, a nebula or a star system (`GalacticBodies`);
- the three generators it can call: the current star-system generator
  (`StarSystems`), the nebula generator (`Nebulae`) and the older
  solar-system generator that the galaxy view selects (`SolarSystems`),
  together with the planet record and the moon loop they share (`Planets`);
- the galaxy view's selection state (`Galaxies`): a cursor, a selected
  system and a selected planet, driven by held keys and a move cooldown.

Each generator has two forms. One is a specification function (`StarSystemAt`,
`NebulaAt`, `SolarSystemAt`, `BodyAt`) that names every draw by its position
in the sector's stream. The other is a method (`Generate`, `At`) that runs the
constructor's own imperative draw sequence on a fresh `LehmerRand`. Every
method is proved equal to its function. The lemmas state what the source
promises about the function:

- existence exactly when the first draw is 1;
- the palette, type and count ranges;
- agreement between full and non-full generation;
- the exact number of draws each planet consumes;
- the bounds on moons and clouds;
- the planets' increasing distances;
- the always-zero population;
- the fact that only the low 16 bits of a coordinate matter.

Integers follow C#:

- `uint` has the type `Word` and `int` has the type `Int32`.
- Unchecked `int` arithmetic wraps, modelled by `Wrap32`.
- The ranged draw takes its remainder the way C# does it.
- Integer division truncates toward zero.

Doubles are exact reals.

Some facts about the source that shape the model:

- Every call of `Next()` adds the constant 0xE120FC15 to the state; the
  generator's state is nothing but the coordinate seed advanced by those calls.
- `Next(double, double)` divides by 0x7FFFFFFF, the signed 32-bit maximum.
- A full nebula draws between 75 and 149 clouds; each cloud's colour is one
  of its type's two colours with alpha 180.
- In the solar-system revision, water depends only on the temperature, and
  gases scale with the minerals. Foliage is a multiple of the water, so it
  is 0 below -100 degrees.

## Model

| member | source | states |
|---|---|---|
| Rand.LehmerRand.constructor | CosmicFortune/Common/LehmerRand.cs:4-6 | a new generator holds the seed as its state and is at position 0 of that seed's stream |
| Rand.LehmerRand.Seed | CosmicFortune/Common/LehmerRand.cs:10-12 | reseeding leaves the generator exactly as a fresh one with that seed: state, stream and position 0 |
| Rand.LehmerRand.Next | CosmicFortune/Common/LehmerRand.cs:14-22 | the state advances by the Weyl constant mod 2^32; the result is the two-round fold of the new state and equals the stream value at the call's position; the position grows by one |
| Rand.LehmerRand.NextInt | CosmicFortune/Common/LehmerRand.cs:24-26 | consumes exactly one `Next()` and returns the ranged draw for that stream position |
| Rand.LehmerRand.NextDouble | CosmicFortune/Common/LehmerRand.cs:28-30 | consumes exactly one `Next()` and returns the scaled draw for that stream position |
| Rand.Wrap32 | CosmicFortune/Common/LehmerRand.cs:25 | the wrapped value is an `int` congruent to the input mod 2^32, and equals the input when the input already fits an `int` |
| Rand.OutputIsMixOfState | CosmicFortune/Common/LehmerRand.cs:14-21 | call n returns the fold of the state after n + 1 advances |
| Rand.StateAfterClosedForm | CosmicFortune/Common/LehmerRand.cs:15 | after n calls the state is seed + n * 0xE120FC15 mod 2^32 |
| Rand.OutputClosedForm | CosmicFortune/Common/LehmerRand.cs:4-21 | the n-th output depends on the seed and n alone: two generators with one seed give one sequence |
| Rand.StateAfterAdd | CosmicFortune/Common/LehmerRand.cs:14-15 | a calls followed by b calls leave the state that a + b calls leave |
| Rand.StateAfterShift | CosmicFortune/Common/LehmerRand.cs:15 | a stream seeded one step on is the original stream shifted by one call |
| Rand.RangeOf | CosmicFortune/Common/LehmerRand.cs:25 | for min < max the result lies in [min, max); when max - min fits an int it is word mod (max - min) + min; min = max is excluded (division by zero in the source) |
| Rand.IntDraw | CosmicFortune/Common/LehmerRand.cs:24-26 | a ranged draw at any stream position lies in [min, max) |
| Sectors.MaskShiftOr | CosmicFortune/Game/Objects/GalacticBody.cs:7 | on 32-bit vectors the mask, shift and OR equal `(x % 65536) * 65536 + y % 65536` computed on the same vectors, the formula `CoordSeed` uses on integers |
| Sectors.CoordSeedLow16 | CosmicFortune/Game/Objects/GalacticBody.cs:7 | coordinates equal in their low 16 bits give the same seed |
| Sectors.CoordSeedInjectiveLow16 | CosmicFortune/Game/Objects/GalacticBody.cs:7 | conversely, equal seeds mean equal low 16 bits of both coordinates |
| Sectors.CoordSeedTileEast | CosmicFortune/Game/Objects/GalacticBody.cs:7 | x + 65536 (as a uint) has the same seed as x |
| GalacticBodies.Occupancy | CosmicFortune/Game/Objects/GalacticBody.cs:9 | a sector is occupied if and only if its first draw in [0, 20) is 1 |
| GalacticBodies.Classification | CosmicFortune/Game/Objects/GalacticBody.cs:11-15 | second draw 0 gives a black hole, 1..15 a nebula and 16..499 a star system, each an if-and-only-if |
| GalacticBodies.KindLow16 | CosmicFortune/Game/Objects/GalacticBody.cs:6-9 | the kind of body depends only on the low 16 bits of each coordinate |
| GalacticBodies.KindRepeatsEast | CosmicFortune/Game/Objects/GalacticBody.cs:6-9 | the sector 65536 to the east holds the same kind of body |
| GalacticBodies.Agreement | CosmicFortune/Game/Objects/GalacticBody.cs:12-14 | a returned nebula or star system exists and has no clouds or planets (non-full mode); every body keeps its coordinates |
| GalacticBodies.At | CosmicFortune/Game/Objects/GalacticBody.cs:6-16 | the resolver's two draws and constructor call give exactly the specified body |
| Planets.MoonSize | CosmicFortune/Game/Objects/StarSystem.cs:60 | a moon's diameter is at least 1 |
| Planets.Moons | CosmicFortune/Game/Objects/StarSystem.cs:58-61 | the moon loop yields exactly `count` moons, each of diameter at least 1 |
| Planets.DrawMoons | CosmicFortune/Game/SolarSystem.cs:63-66 | the `while (moonCount-- > 0)` loop consumes one draw per moon and appends the specified moons in order |
| StarSystems.PlanetsUpTo | CosmicFortune/Game/Objects/StarSystem.cs:22-64 | n iterations yield n planets and consume exactly 11 draws plus one per moon for each planet, in order |
| StarSystems.StarExistence | CosmicFortune/Game/Objects/StarSystem.cs:12-13 | a star exists if and only if the first draw is 1; otherwise diameter 0, no colour, no planets |
| StarSystems.StarColInPalette | CosmicFortune/Game/Objects/StarSystem.cs:16 | the star colour is one of the 16 palette entries |
| StarSystems.NonFullHasNoPlanets | CosmicFortune/Game/Objects/StarSystem.cs:18 | without full generation the planet list is empty |
| StarSystems.FullAgreesWithNonFull | CosmicFortune/Game/Objects/StarSystem.cs:12-18 | full and non-full generation agree on existence, diameter, colour and coordinates |
| StarSystems.FullPlanetCount | CosmicFortune/Game/Objects/StarSystem.cs:21-22 | a full system has exactly the drawn planet count, below 12 |
| StarSystems.PlanetsMoonsBounded | CosmicFortune/Game/Objects/StarSystem.cs:58-61 | every planet has at most 4 moons, each of diameter at least 1 |
| StarSystems.PlanetsRecede | CosmicFortune/Game/Objects/StarSystem.cs:24 | planets are in generation order and each lies at least 30 beyond the previous one; the running distance is the last planet's |
| StarSystems.PlanetAtRecedes | CosmicFortune/Game/Objects/StarSystem.cs:24 | one iteration moves the running distance out by at least 30 and records it as the planet's distance |
| Rand.ScaleAtLeastMin | CosmicFortune/Common/LehmerRand.cs:29 | a double draw is never below its minimum |
| StarSystems.DrawSurface | CosmicFortune/Game/Objects/StarSystem.cs:27-30 | four draws give the specified water, foliage, minerals and gases |
| StarSystems.DrawHead | CosmicFortune/Game/Objects/StarSystem.cs:24-58 | the eleven fixed draws of a planet (three of them only tint the colour) give its distance, diameter, surface, ring and moon count |
| StarSystems.DrawPlanet | CosmicFortune/Game/Objects/StarSystem.cs:24-63 | one pass of the loop builds the specified planet, next draw position and running distance |
| StarSystems.DrawPlanets | CosmicFortune/Game/Objects/StarSystem.cs:20-64 | the planet loop builds exactly the specified planet list |
| StarSystems.Generate | CosmicFortune/Game/Objects/StarSystem.cs:6-65 | the constructor builds exactly `StarSystemAt(x, y, full)` |
| SolarSystems.StarExistence | CosmicFortune/Game/SolarSystem.cs:12-13 | a star exists if and only if the first draw is 1; otherwise nothing else is set |
| SolarSystems.StarColInPalette | CosmicFortune/Game/SolarSystem.cs:16 | the star colour is one of the 16 palette entries |
| SolarSystems.NonFullHasNoPlanets | CosmicFortune/Game/SolarSystem.cs:18 | without full generation the planet list is empty |
| SolarSystems.FullAgreesWithNonFull | CosmicFortune/Game/SolarSystem.cs:12-18 | full and non-full generation agree on existence, diameter, colour and coordinates |
| SolarSystems.FullPlanetCount | CosmicFortune/Game/SolarSystem.cs:21-22 | a full system has exactly the drawn planet count, below 12 |
| SolarSystems.PlanetsUpTo | CosmicFortune/Game/SolarSystem.cs:22-69 | n iterations yield n planets |
| SolarSystems.PlanetAtShape | CosmicFortune/Game/SolarSystem.cs:24-66 | a planet takes 9 draws, plus 1 exactly when its temperature is at least 0, plus one per moon; it has at most 4 moons of diameter at least 1 and population 0 |
| SolarSystems.PlanetsShape | CosmicFortune/Game/SolarSystem.cs:22-69 | over the loop, the draws consumed are the sum of the planets' draws, and every planet is uninhabited with at most 4 moons of diameter at least 1 |
| SolarSystems.NobodyLivesThere | CosmicFortune/Game/SolarSystem.cs:33-41 | every planet of every solar system has population 0 |
| SolarSystems.DrawClimate | CosmicFortune/Game/SolarSystem.cs:24-26 | three draws give the specified temperature, distance and diameter |
| SolarSystems.DrawResources | CosmicFortune/Game/SolarSystem.cs:28-31 | the minerals draw is taken only when the temperature is at least 0; it consumes exactly the counted draws and gives the specified resources |
| SolarSystems.DrawPopulation | CosmicFortune/Game/SolarSystem.cs:33-41 | the population chain consumes two draws and always ends at 0 |
| SolarSystems.DrawTail | CosmicFortune/Game/SolarSystem.cs:28-63 | resources, population, ring and moon count consume the resource draws plus 4 and give the specified tail, whose population (stored in the planet) is 0 |
| SolarSystems.DrawPlanet | CosmicFortune/Game/SolarSystem.cs:24-68 | one pass of the loop builds the specified planet, next draw position and running distance |
| SolarSystems.DrawPlanets | CosmicFortune/Game/SolarSystem.cs:20-69 | the planet loop builds exactly the specified planet list |
| SolarSystems.Generate | CosmicFortune/Game/SolarSystem.cs:6-70 | the constructor builds exactly `SolarSystemAt(x, y, full)` |
| Nebulae.CloudsUpTo | CosmicFortune/Game/Objects/Nebula.cs:29-34 | n iterations yield n clouds |
| Nebulae.NebulaExistence | CosmicFortune/Game/Objects/Nebula.cs:11-12 | a nebula exists if and only if the first draw is 1; otherwise every field keeps its default |
| Nebulae.TypeAlwaysNamed | CosmicFortune/Game/Objects/Nebula.cs:15-22 | the type is one of the five named ones, so the HotPink fallback is never chosen |
| Nebulae.OverallColInPair | CosmicFortune/Game/Objects/Nebula.cs:24 | the overall colour is one of the type's two colours |
| Nebulae.NonFullHasNoClouds | CosmicFortune/Game/Objects/Nebula.cs:26 | without full generation there are no clouds |
| Nebulae.FullAgreesWithNonFull | CosmicFortune/Game/Objects/Nebula.cs:11-26 | full and non-full generation agree on existence, size, type, overall colour and coordinates |
| Nebulae.FullCloudCount | CosmicFortune/Game/Objects/Nebula.cs:28-29 | a full nebula has exactly the drawn cloud count, in [75, 150) |
| Nebulae.CloudWindow | CosmicFortune/Game/Objects/Nebula.cs:29-34 | cloud i is drawn from the five stream positions starting at start + 5 i |
| Nebulae.CloudsBounded | CosmicFortune/Game/Objects/Nebula.cs:30-32 | every cloud has a pair colour with alpha 180, a position in [0, 180)^2 and a size in [20, 40)^2 |
| Nebulae.DrawCloud | CosmicFortune/Game/Objects/Nebula.cs:30-33 | one pass consumes five draws and gives the specified cloud |
| Nebulae.DrawClouds | CosmicFortune/Game/Objects/Nebula.cs:29-34 | the cloud loop consumes five draws per cloud and builds the specified list |
| Nebulae.Generate | CosmicFortune/Game/Objects/Nebula.cs:6-35 | the constructor builds exactly `NebulaAt(x, y, full)` |
| Galaxies.Clamp | CosmicFortune/Game/Galaxy.cs:33-34 | the clamped value is at least 0 and, for a non-negative bound, at most the bound; values already inside are kept |
| Galaxies.ToUInt | CosmicFortune/Game/Galaxy.cs:80 | the `(uint)` cast is congruent to its argument mod 2^32 and keeps non-negative values |
| Galaxies.SectorOfCursor | CosmicFortune/Game/Galaxy.cs:80 | for a non-negative cursor and offset whose sums do not overflow, the selected sector is the offset plus the cursor's sector |
| Galaxies.SectorZeroSpansWest | CosmicFortune/Game/Galaxy.cs:80 | with the view scrolled one sector west, cursor columns 1 to 31 all select sector column 0, because the division truncates toward zero; the model keeps this source behaviour |
| Galaxies.SelectionIsFullSystem | CosmicFortune/Game/Galaxy.cs:81-90 | a selection exists if and only if the sector has a star, and it is then the full system with fewer than 12 planets |
| Galaxies.IndexAfterFits | CosmicFortune/Game/Galaxy.cs:196-201 | J/L navigation keeps the index inside a non-empty planet list, and never below -1 for an empty one |
| Galaxies.IndexWraps | CosmicFortune/Game/Galaxy.cs:199-201 | J from the first planet wraps to the last; L from the last wraps to the first |
| Galaxies.IndexSteps | CosmicFortune/Game/Galaxy.cs:196-201 | away from the ends J and L move the index by exactly one; both keys or neither leave it unchanged |
| Galaxies.EmptyIndexDrifts | CosmicFortune/Game/Galaxy.cs:199-201 | with no planets, L raises the index by one and J from 0 gives -1 |
| Galaxies.CursorMovesBySectors | CosmicFortune/Game/Galaxy.cs:203-206 | away from the int range's ends, I/J/K/L each move the cursor by exactly one 16-pixel sector |
| Galaxies.Galaxy.constructor | CosmicFortune/Game/Galaxy.cs:9-17 | the initial offset, cursor, selection, index and cooldown |
| Galaxies.Galaxy.UpdateSelectedSystem | CosmicFortune/Game/Galaxy.cs:79-91 | resets the planet index to 0 and selects nothing if the sector under the cursor has no star, else its full system; nothing else changes |
| Galaxies.Galaxy.StepPlanet | CosmicFortune/Game/Galaxy.cs:196-201 | the planet index becomes the J/L step of the old one and stays valid; nothing else changes |
| Galaxies.Galaxy.MoveCursor | CosmicFortune/Game/Galaxy.cs:203-206 | the cursor becomes the I/J/K/L move of the old one; nothing else changes |
| Galaxies.Galaxy.ApplyKeysHeld | CosmicFortune/Game/Galaxy.cs:190-208 | Escape clears the selection. Until the cooldown exceeds 0.15 only the cooldown grows; after that the planet index steps (system selected) or the cursor moves (none selected), and the cooldown resets to 0 |
| Galaxies.Galaxy.Update | CosmicFortune/Game/Galaxy.cs:31-75 | after a frame the cursor lies in [0, width] x [0, height] and is the clamped key move; the cooldown, selection and planet index are those of `ApplyKeysHeld`, except that space reselects the sector under the cursor and resets the index to 0 |

## Left out

- Rand.LehmerRand.NextDouble: the result is the exact real `w / 2147483647 * (max - min) + min` and not its IEEE double rounding. No upper bound is stated for any double draw, because the scaling by 0x7FFFFFFF can exceed `max`.
- Floating-point arithmetic in general. Diameters, distances, temperatures, resource fractions, nebula sizes and the galaxy cooldown are exact reals. The cooldown's `float` constant 0.15f is the real 0.15.
- Planet colours. In both revisions these are byte casts of doubles fed to `Color.FromArgb`. Only their three tint draws are modelled, as consumed positions. The ARGB values of the named colours are also left out.
- StarSystem planet coordinates. `(int)(Coords.x + dist)` truncates a double, so it is left out with the other double-to-integer casts.
- Galaxies.Galaxy.ApplyKeysHeld: the WASD offset scrolling of `ApplyKeysHeld` is not modelled. It moves a `float` offset at `_moveSpeed * deltaTime`. The offset is held as the integer part `(int)offset` that `UpdateSelectedSystem` reads, and no modelled method changes it.
- Galaxies.Galaxy.Update: all drawing is left out. This covers the per-sector render loop, the cursor rectangle, the planet-count text and `RenderSelectedSystem`. These are GDI calls with no effect on the state.
- Reading the keyboard (`UpdateKeysHeld`, `Input.cs`) and the clock (`Time.cs`). The held keys and the frame time are parameters.
- The window (`Engine.cs`) supplies the window size; here it is the `width` and `height` constants.
- Rendering files, `Materials.cs` and both `Program.cs` entry points: they draw, load bitmaps or start the process.
- A process-wide static seed. An entry point assigns one, but `LehmerRand.cs` defines no such member, and the shown class's state is only the coordinate seed.
- Planet terrain chunks, harvesting and their save files. No shown source file defines them.
- Sectors.MaskShiftOr: the lemma stays on 32-bit vectors. Converting its two sides to integers, to meet `CoordSeed` directly, is beyond the verifier's resource limit, so the bridge from the bit expression to `CoordSeed` is that both compute the same formula.
- Concrete values of the stream, such as the first output for seed 0. Evaluating the 64-step XOR fold on literals is beyond the verifier's resource limit, so every property is stated for all seeds instead.
- The `Nebula`, `StarSystem` and `SolarSystem` objects keep their `LehmerRand` in a private field. The model uses a fresh local generator per construction, which is equivalent because the field is never read afterwards.
