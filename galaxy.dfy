/**
 * The galaxy view's selection state machine: a cursor that moves one
 * 16-pixel sector at a time and is kept inside the window, a selected
 * solar system (chosen with space, dropped with Escape) and the index of
 * the selected planet, stepped with J and L and wrapped around the
 * system's planet list.  Keys only act once the move cooldown has passed.
 */
module Galaxies {
  import opened Rand
  import opened Options
  import opened SolarSystems

  /** Width and height of a sector in pixels. */
  const SectorW: int := 16
  const SectorH: int := 16
  /** Seconds that must pass between two navigation steps. */
  const Cooldown: real := 0.15
  /** The Escape key. */
  const Escape: char := 27 as char

  /** A C# `List.Count`. */
  type Count = x: int | 0 <= x < 0x8000_0000

  /** `Math.Max(Math.Min(hi, v), 0)`. */
  function Clamp(v: Int32, hi: Int32): (r: Int32)
    ensures 0 <= r
    ensures hi >= 0 ==> r <= hi
    ensures 0 <= v <= hi ==> r == v
    ensures v < 0 ==> r == 0
  {
    var m := if hi <= v then hi else v;
    if m >= 0 then m else 0
  }

  /** C# integer division by a positive divisor, truncating toward zero. */
  function TruncDiv(a: int, b: int): int
    requires b > 0
  {
    if a >= 0 then a / b else -((-a) / b)
  }

  /** The `(uint)` cast of an `int`. */
  function ToUInt(v: int): (r: Word)
    ensures (r - v) % TwoTo32 == 0
    ensures 0 <= v < TwoTo32 ==> r == v
  {
    v % TwoTo32
  }

  /**
   * The sector under the cursor: the cursor's pixel position plus the
   * whole-sector scroll offset, divided by the sector size and cast to
   * `uint` coordinates.
   */
  function SelectedSector(coords: (Int32, Int32), offset: (Int32, Int32)): (Word, Word) {
    var ox := Wrap32(coords.0 + Wrap32(offset.0 * SectorW));
    var oy := Wrap32(coords.1 + Wrap32(offset.1 * SectorH));
    (ToUInt(TruncDiv(ox, SectorW)), ToUInt(TruncDiv(oy, SectorH)))
  }

  /** For a cursor inside the window and a non-negative offset, the sector is the offset plus the cursor's sector. */
  lemma SectorOfCursor(coords: (Int32, Int32), offset: (Int32, Int32))
    requires 0 <= coords.0 && 0 <= coords.1 && 0 <= offset.0 && 0 <= offset.1
    requires coords.0 + offset.0 * SectorW < 0x8000_0000 && coords.1 + offset.1 * SectorH < 0x8000_0000
    ensures SelectedSector(coords, offset) == (offset.0 + coords.0 / SectorW, offset.1 + coords.1 / SectorH)
  {
    assert (coords.0 + offset.0 * SectorW) / SectorW == offset.0 + coords.0 / SectorW;
    assert (coords.1 + offset.1 * SectorH) / SectorH == offset.1 + coords.1 / SectorH;
  }

  /**
   * Scrolled one sector west of the origin, the cursor columns 1 to 31 all
   * select sector column 0: truncating division sends -15..15 to 0, so
   * sector 0 is nearly twice as wide as the others.
   */
  lemma SectorZeroSpansWest(coords: (Int32, Int32), offset: (Int32, Int32))
    requires offset.0 == -1 && 1 <= coords.0 < 2 * SectorW
    ensures SelectedSector(coords, offset).0 == 0
  {
    var ox := Wrap32(coords.0 + Wrap32(offset.0 * SectorW));
    assert ox == coords.0 - SectorW;
    assert TruncDiv(ox, SectorW) == 0;
  }

  /** What selecting the sector (x, y) leaves selected: nothing if it has no star, else its full system. */
  function SelectionAt(sector: (Word, Word)): Option<SolarSystem> {
    if SolarSystemAt(sector.0, sector.1, false).starExists then Some(SolarSystemAt(sector.0, sector.1, true))
    else None
  }

  /** A selection is present exactly when the sector has a star, and then it is that star's full system. */
  lemma SelectionIsFullSystem(sector: (Word, Word))
    ensures SelectionAt(sector).Some? <==> SolarSystemAt(sector.0, sector.1, true).starExists
    ensures SelectionAt(sector).Some? ==>
      && SelectionAt(sector).value == SolarSystemAt(sector.0, sector.1, true)
      && |SelectionAt(sector).value.planets| < 12
  {
    FullAgreesWithNonFull(sector.0, sector.1);
    if SolarSystemAt(sector.0, sector.1, true).starExists {
      FullPlanetCount(sector.0, sector.1);
    }
  }

  /**
   * The planet index fits its list: inside it when the list has planets;
   * with no planets, never below -1 (L keeps raising it, harmlessly, since
   * the planet list is only indexed when it is non-empty).
   */
  predicate IndexFits(ind: int, count: int) {
    if count > 0 then 0 <= ind < count else -1 <= ind
  }

  /**
   * The planet index after one navigation step: J steps down, L steps up
   * (both wrapping as `int`), then a negative index jumps to the last
   * planet and any other index is reduced modulo the planet count.
   */
  function PlanetIndexAfter(ind: Int32, left: bool, right: bool, count: Count): Int32 {
    var i1 := if left then Wrap32(ind - 1) else ind;
    var i2 := if right then Wrap32(i1 + 1) else i1;
    if i2 < 0 then count - 1 else if count > 0 then i2 % count else i2
  }

  /** A step keeps a fitting index fitting. */
  lemma IndexAfterFits(ind: Int32, left: bool, right: bool, count: Count)
    requires IndexFits(ind, count)
    ensures IndexFits(PlanetIndexAfter(ind, left, right, count), count)
  {
  }

  /** Stepping down from the first planet wraps to the last one, and up from the last wraps to the first. */
  lemma IndexWraps(count: Count)
    requires count > 0
    ensures PlanetIndexAfter(0, true, false, count) == count - 1
    ensures PlanetIndexAfter(count - 1, false, true, count) == 0
  {
  }

  /** Away from the ends a step moves by exactly one; both keys or neither leave the index alone. */
  lemma IndexSteps(ind: Int32, count: Count)
    requires 0 <= ind < count
    ensures 0 < ind ==> PlanetIndexAfter(ind, true, false, count) == ind - 1
    ensures ind < count - 1 ==> PlanetIndexAfter(ind, false, true, count) == ind + 1
    ensures PlanetIndexAfter(ind, true, true, count) == ind
    ensures PlanetIndexAfter(ind, false, false, count) == ind
  {
    SmallMod(ind, count);
    if 0 < ind {
      SmallMod(ind - 1, count);
    }
    if ind < count - 1 {
      SmallMod(ind + 1, count);
    }
  }

  lemma SmallMod(i: int, n: int)
    requires 0 <= i < n
    ensures i % n == i
  {
  }

  /** With no planets, L raises a non-negative index by one and J from 0 gives -1. */
  lemma EmptyIndexDrifts(ind: Int32)
    requires 0 <= ind < 0x7FFF_FFFF
    ensures PlanetIndexAfter(ind, false, true, 0) == ind + 1
    ensures PlanetIndexAfter(0, true, false, 0) == -1
  {
  }

  /** The cursor after I (up), J (left), K (down) and L (right), each one sector, in `int` arithmetic. */
  function CursorAfter(c: (Int32, Int32), keys: set<char>): (Int32, Int32) {
    var y1 := if 'I' in keys then Wrap32(c.1 - SectorH) else c.1;
    var x1 := if 'J' in keys then Wrap32(c.0 - SectorW) else c.0;
    var y2 := if 'K' in keys then Wrap32(y1 + SectorH) else y1;
    var x2 := if 'L' in keys then Wrap32(x1 + SectorW) else x1;
    (x2, y2)
  }

  /** Away from the ends of the `int` range, each key moves the cursor by exactly one sector. */
  lemma CursorMovesBySectors(c: (Int32, Int32), keys: set<char>)
    requires -0x7FFF_0000 <= c.0 <= 0x7FFF_0000 && -0x7FFF_0000 <= c.1 <= 0x7FFF_0000
    ensures var d := CursorAfter(c, keys);
      && d.0 == c.0 + SectorW * ((if 'L' in keys then 1 else 0) - (if 'J' in keys then 1 else 0))
      && d.1 == c.1 + SectorH * ((if 'K' in keys then 1 else 0) - (if 'I' in keys then 1 else 0))
  {
  }

  /** Whether a key press moves the cursor: the cooldown has passed and nothing is selected. */
  predicate CursorMoves(cooldown: real, dt: real, keys: set<char>, selected: Option<SolarSystem>) {
    cooldown + dt > Cooldown && (Escape in keys || selected.None?)
  }

  class Galaxy {
    const width: Int32
    const height: Int32
    /** The whole-sector part of the scroll offset, `(int)offset`. */
    var offset: (Int32, Int32)
    var selectedCoords: (Int32, Int32)
    var selectedSystem: Option<SolarSystem>
    var selectedPlanetInd: Int32
    var moveCooldown: real

    /** A selected system has a star and fewer than 12 planets, and the planet index fits its list. */
    ghost predicate Valid()
      reads this
    {
      match selectedSystem
      case None => true
      case Some(s) => s.starExists && |s.planets| < 12 && IndexFits(selectedPlanetInd, |s.planets|)
    }

    constructor (width: Int32, height: Int32)
      ensures Valid()
      ensures this.width == width && this.height == height
      ensures offset == (0, 0) && selectedCoords == (0, 0) && selectedSystem == None
      ensures selectedPlanetInd == 0 && moveCooldown == 0.0
    {
      this.width, this.height := width, height;
      offset := (0, 0);
      selectedCoords := (0, 0);
      selectedSystem := None;
      selectedPlanetInd := 0;
      moveCooldown := 0.0;
    }

    /** Selects the system under the cursor, or nothing if it has no star, and resets the planet index. */
    method UpdateSelectedSystem()
      modifies this
      ensures Valid()
      ensures selectedPlanetInd == 0
      ensures selectedSystem == SelectionAt(SelectedSector(old(selectedCoords), old(offset)))
      ensures selectedCoords == old(selectedCoords) && offset == old(offset) && moveCooldown == old(moveCooldown)
    {
      var sector := SelectedSector(selectedCoords, offset);
      var x, y := sector.0, sector.1;
      var system := Generate(x, y, false);
      selectedPlanetInd := 0;
      SelectionIsFullSystem(sector);
      if !system.starExists {
        selectedSystem := None;
        return;
      }
      var full := Generate(x, y, true);
      selectedSystem := Some(full);
    }

    /**
     * The held keys: Escape drops the selection; once the cooldown has
     * passed, J and L step through the selected system's planets, or, with
     * nothing selected, I, J, K and L move the cursor, and the cooldown
     * restarts.  Before that nothing but the cooldown and the selection
     * changes.
     */
    method ApplyKeysHeld(keys: set<char>, dt: real)
      requires Valid()
      modifies this
      ensures Valid()
      ensures selectedSystem == if Escape in keys then None else old(selectedSystem)
      ensures moveCooldown == if old(moveCooldown) + dt <= Cooldown then old(moveCooldown) + dt else 0.0
      ensures selectedPlanetInd ==
        if old(moveCooldown) + dt > Cooldown && selectedSystem.Some? then
          PlanetIndexAfter(old(selectedPlanetInd), 'J' in keys, 'L' in keys, |selectedSystem.value.planets|)
        else old(selectedPlanetInd)
      ensures selectedCoords ==
        if CursorMoves(old(moveCooldown), dt, keys, old(selectedSystem)) then CursorAfter(old(selectedCoords), keys)
        else old(selectedCoords)
      ensures offset == old(offset)
    {
      if Escape in keys && selectedSystem.Some? {
        selectedSystem := None;
      }
      moveCooldown := moveCooldown + dt;
      if moveCooldown <= Cooldown {
        return;
      }
      if selectedSystem.Some? {
        StepPlanet(keys);
      } else {
        MoveCursor(keys);
      }
      moveCooldown := 0.0;
    }

    /** J and L with a system selected: step through its planets, wrapping at both ends. */
    method StepPlanet(keys: set<char>)
      requires Valid() && selectedSystem.Some?
      modifies this
      ensures Valid()
      ensures selectedSystem == old(selectedSystem) && selectedCoords == old(selectedCoords)
      ensures selectedPlanetInd ==
        PlanetIndexAfter(old(selectedPlanetInd), 'J' in keys, 'L' in keys, |selectedSystem.value.planets|)
      ensures offset == old(offset) && moveCooldown == old(moveCooldown)
    {
      if 'J' in keys {
        selectedPlanetInd := Wrap32(selectedPlanetInd - 1);
      }
      if 'L' in keys {
        selectedPlanetInd := Wrap32(selectedPlanetInd + 1);
      }
      var planetCount := |selectedSystem.value.planets|;
      selectedPlanetInd :=
        if selectedPlanetInd < 0 then planetCount - 1
        else if planetCount > 0 then selectedPlanetInd % planetCount
        else selectedPlanetInd;
      IndexAfterFits(old(selectedPlanetInd), 'J' in keys, 'L' in keys, planetCount);
    }

    /** I, J, K and L with nothing selected: move the cursor one sector per key. */
    method MoveCursor(keys: set<char>)
      modifies this
      ensures selectedCoords == CursorAfter(old(selectedCoords), keys)
      ensures selectedSystem == old(selectedSystem) && selectedPlanetInd == old(selectedPlanetInd)
      ensures offset == old(offset) && moveCooldown == old(moveCooldown)
    {
      if 'I' in keys {
        selectedCoords := (selectedCoords.0, Wrap32(selectedCoords.1 - SectorH));
      }
      if 'J' in keys {
        selectedCoords := (Wrap32(selectedCoords.0 - SectorW), selectedCoords.1);
      }
      if 'K' in keys {
        selectedCoords := (selectedCoords.0, Wrap32(selectedCoords.1 + SectorH));
      }
      if 'L' in keys {
        selectedCoords := (Wrap32(selectedCoords.0 + SectorW), selectedCoords.1);
      }
    }

    /**
     * One frame of the view's state: apply the held keys, clamp the
     * cursor into the window, and select the sector under it when space
     * is held.
     */
    method Update(keys: set<char>, dt: real)
      requires Valid()
      modifies this
      ensures Valid()
      ensures 0 <= selectedCoords.0 && (width >= 0 ==> selectedCoords.0 <= width)
      ensures 0 <= selectedCoords.1 && (height >= 0 ==> selectedCoords.1 <= height)
      ensures var c := if CursorMoves(old(moveCooldown), dt, keys, old(selectedSystem))
                       then CursorAfter(old(selectedCoords), keys) else old(selectedCoords);
        selectedCoords == (Clamp(c.0, width), Clamp(c.1, height))
      ensures ' ' in keys ==>
        selectedPlanetInd == 0 && selectedSystem == SelectionAt(SelectedSector(selectedCoords, offset))
      ensures ' ' !in keys ==> selectedSystem == if Escape in keys then None else old(selectedSystem)
      ensures ' ' !in keys ==>
        (selectedPlanetInd ==
          if old(moveCooldown) + dt > Cooldown && selectedSystem.Some? then
            PlanetIndexAfter(old(selectedPlanetInd), 'J' in keys, 'L' in keys, |selectedSystem.value.planets|)
          else old(selectedPlanetInd))
      ensures moveCooldown == if old(moveCooldown) + dt <= Cooldown then old(moveCooldown) + dt else 0.0
      ensures offset == old(offset)
    {
      ApplyKeysHeld(keys, dt);
      selectedCoords := (Clamp(selectedCoords.0, width), Clamp(selectedCoords.1, height));
      if ' ' in keys {
        UpdateSelectedSystem();
      }
    }
  }
}
