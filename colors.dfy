/**
 * The named `System.Drawing` colours the generators pick from.  Their
 * ARGB values are of no concern here: only which name is chosen.
 */
module Colors {

  datatype Color =
    | Empty                 // `default(Color)`, the value of an unassigned colour property
    | White | Yellow | Red | DarkRed | DarkBlue | Cyan | Magenta | Purple
    | OrangeRed | Orchid | PaleGoldenrod | PaleGreen | LightSkyBlue | Orange
    | LightGoldenrodYellow | YellowGreen
    | Blue | DarkViolet | LightCoral | HotPink
    | WithAlpha(alpha: int, base: Color)   // `Color.FromArgb(alpha, base)`

  /**
   * The 16-entry star palette.  `StarSystem.Colors` and `SolarSystem.Colors`
   * are two static arrays with these same entries in this order.
   */
  const StarColors: seq<Color> := [
    White, Yellow,
    Red, DarkRed,
    DarkBlue, Cyan,
    Magenta, Purple,
    OrangeRed, Orchid,
    PaleGoldenrod, PaleGreen,
    LightSkyBlue, Orange,
    LightGoldenrodYellow, YellowGreen
  ]
}
