/*
 * The four fixed palettes of the visualization color-map utility: each maps a
 * scalar (normally in [0, 1], but never clamped here) to an RGB triple.
 *
 * The arithmetic is modelled over `real`, so the formulas are exact. The two
 * helpers the palettes call, JetBase and Interpolate, belong to a header that
 * is not part of this model; they are passed in as a `Helpers` value, and
 * every lemma below holds whatever those helpers compute.
 */
module ColorMap {

  /** An RGB color, channels in the order of the source's three-vector. */
  datatype Rgb = Rgb(r: real, g: real, b: real)

  /**
   * The external helpers. `jetBase` is the jet ramp kernel; `interpolate` is
   * applied to the value followed by the four anchor constants, in the order
   * the source passes them. Nothing is assumed about either of them.
   */
  datatype Helpers = Helpers(
    jetBase: real -> real,
    interpolate: (real, real, real, real, real) -> real)

  /** The palette variants; a palette has no identity beyond its tag. */
  datatype Palette = Gray | Jet | Summer | Winter

  function GrayColor(value: real): (c: Rgb)
  {
    Rgb(value, value, value)
  }

  function JetColor(h: Helpers, value: real): (c: Rgb)
  {
    Rgb(h.jetBase(value * 2.0 - 1.5),
        h.jetBase(value * 2.0 - 1.0),
        h.jetBase(value * 2.0 - 0.5))
  }

  function SummerColor(h: Helpers, value: real): (c: Rgb)
  {
    Rgb(h.interpolate(value, 0.0, 0.0, 1.0, 1.0),
        h.interpolate(value, 0.5, 0.0, 1.0, 1.0),
        0.4)
  }

  function WinterColor(h: Helpers, value: real): (c: Rgb)
  {
    Rgb(0.0,
        h.interpolate(value, 0.0, 0.0, 1.0, 1.0),
        h.interpolate(value, 1.0, 0.0, 0.5, 1.0))
  }

  /** The virtual `GetColor` of a palette, dispatched on its tag. */
  function GetColor(h: Helpers, p: Palette, value: real): (c: Rgb)
  {
    match p
    case Gray => GrayColor(value)
    case Jet => JetColor(h, value)
    case Summer => SummerColor(h, value)
    case Winter => WinterColor(h, value)
  }

  /** Gray puts the value itself on all three channels. */
  lemma GrayIsDiagonal(h: Helpers, value: real)
    ensures GetColor(h, Gray, value) == Rgb(value, value, value)
  {
  }

  /**
   * Jet's three channels are one kernel read at three shifted points: red a
   * quarter step later equals green now, green a quarter step later equals
   * blue now, so red half a step later equals blue now.
   */
  lemma JetChannelsAreShifted(h: Helpers, value: real)
    ensures GetColor(h, Jet, value + 0.25).r == GetColor(h, Jet, value).g
    ensures GetColor(h, Jet, value + 0.25).g == GetColor(h, Jet, value).b
    ensures GetColor(h, Jet, value + 0.5).r == GetColor(h, Jet, value).b
  {
  }

  /** At the middle of the range, Jet reads the kernel at -0.5, 0 and 0.5. */
  lemma JetAtMidpoint(h: Helpers)
    ensures GetColor(h, Jet, 0.5) == Rgb(h.jetBase(-0.5), h.jetBase(0.0), h.jetBase(0.5))
  {
  }

  /** At the two ends of the range, Jet reads the kernel at its shifted points. */
  lemma JetAtEnds(h: Helpers)
    ensures GetColor(h, Jet, 0.0) == Rgb(h.jetBase(-1.5), h.jetBase(-1.0), h.jetBase(-0.5))
    ensures GetColor(h, Jet, 1.0) == Rgb(h.jetBase(0.5), h.jetBase(1.0), h.jetBase(1.5))
  {
  }

  /** Summer's blue channel is 0.4 for every input. */
  lemma SummerBlueIsConstant(h: Helpers, value: real)
    ensures GetColor(h, Summer, value).b == 0.4
  {
  }

  /** Winter's red channel is 0 for every input. */
  lemma WinterRedIsZero(h: Helpers, value: real)
    ensures GetColor(h, Winter, value).r == 0.0
  {
  }

  /** Summer's red and Winter's green come from the same interpolation call. */
  lemma SummerRedIsWinterGreen(h: Helpers, value: real)
    ensures GetColor(h, Summer, value).r == GetColor(h, Winter, value).g
  {
  }
}
