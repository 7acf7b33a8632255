/**
 * Vocabulary shared by every calculator: which screen dimension a value
 * follows (`ScreenType`), the orientation a design was made for
 * (`BaseOrientation`), the thirteen scaling strategies, and the
 * orientation-driven inversion of LOWEST and HIGHEST.
 *
 * The dynamic, games (Kotlin and native) and Web calculators, the
 * adjustment-factor object and the fluid builder all resolve the screen type
 * the same way: with AUTO the requested type is kept; otherwise the current
 * screen is portrait exactly when its height exceeds its width, and the type
 * is swapped when that orientation differs from the design's.
 */
module Screens {
  import opened Numerics

  datatype ScreenType = LOWEST | HIGHEST

  datatype BaseOrientation = PORTRAIT | LANDSCAPE | AUTO

  /** The strategies, in declaration order (the games cache hashes their ordinals). */
  datatype ScalingStrategy =
    | DEFAULT | PERCENTAGE | BALANCED | LOGARITHMIC | POWER | FLUID
    | INTERPOLATED | DIAGONAL | PERIMETER | FIT | FILL | AUTOSIZE | NONE

  /** `PerceptualModel`: the psychophysical law a perceptual scale follows. */
  datatype PerceptualModel = LOGARITHMIC_MODEL | POWER_MODEL | BALANCED_MODEL

  /** `ordinal` of a strategy. */
  function StrategyOrdinal(s: ScalingStrategy): (n: int)
    ensures 0 <= n < 13
    ensures s == DEFAULT <==> n == 0
    ensures s == NONE <==> n == 12
  {
    match s
    case DEFAULT => 0
    case PERCENTAGE => 1
    case BALANCED => 2
    case LOGARITHMIC => 3
    case POWER => 4
    case FLUID => 5
    case INTERPOLATED => 6
    case DIAGONAL => 7
    case PERIMETER => 8
    case FIT => 9
    case FILL => 10
    case AUTOSIZE => 11
    case NONE => 12
  }

  /** Different strategies have different ordinals. */
  lemma StrategyOrdinalInjective(a: ScalingStrategy, b: ScalingStrategy)
    ensures StrategyOrdinal(a) == StrategyOrdinal(b) ==> a == b
  {
  }

  /** The other screen type. */
  function Inverted(t: ScreenType): (r: ScreenType)
    ensures r != t
  {
    if t == LOWEST then HIGHEST else LOWEST
  }

  /** A screen is portrait when it is strictly taller than wide. */
  predicate IsPortrait(width: real, height: real)
  {
    height > width
  }

  /**
   * `resolveScreenType`: the type actually used, given the requested type,
   * the design orientation and the current screen size.
   */
  function ResolveScreenType(requested: ScreenType, base: BaseOrientation, width: real, height: real): (r: ScreenType)
    ensures base == AUTO ==> r == requested
    ensures base == PORTRAIT ==> (r == requested <==> IsPortrait(width, height))
    ensures base == LANDSCAPE ==> (r == requested <==> !IsPortrait(width, height))
  {
    if base == AUTO then requested
    else
      var currentIsPortrait := height > width;
      var shouldInvert := if base == PORTRAIT then !currentIsPortrait else currentIsPortrait;
      if shouldInvert then Inverted(requested) else requested
  }

  /** `getDimensionForType` once the type is resolved: the larger or the smaller side. */
  function DimensionFor(t: ScreenType, width: real, height: real): (d: real)
    ensures d == width || d == height
    ensures t == HIGHEST ==> d >= width && d >= height
    ensures t == LOWEST ==> d <= width && d <= height
  {
    if t == HIGHEST then Max(width, height) else Min(width, height)
  }

  /** The resolved dimension a strategy reads. */
  function OrientedDimension(requested: ScreenType, base: BaseOrientation, width: real, height: real): real
  {
    DimensionFor(ResolveScreenType(requested, base, width, height), width, height)
  }

  /** Inverting twice gives back the requested type. */
  lemma InvertedInvolutive(t: ScreenType)
    ensures Inverted(Inverted(t)) == t
  {
  }

  /**
   * With a fixed design orientation the resolved dimension follows a fixed
   * AXIS of the device whatever way it is held: a portrait design's LOWEST is
   * always the current width, its HIGHEST the current height, and the other
   * way round for a landscape design.
   */
  lemma OrientationTracksAxis(width: real, height: real)
    ensures OrientedDimension(LOWEST, PORTRAIT, width, height) == width
    ensures OrientedDimension(HIGHEST, PORTRAIT, width, height) == height
    ensures OrientedDimension(LOWEST, LANDSCAPE, width, height) == height
    ensures OrientedDimension(HIGHEST, LANDSCAPE, width, height) == width
  {
  }

  /** Rotating the device does not change the dimension an AUTO request reads. */
  lemma AutoIgnoresRotation(t: ScreenType, width: real, height: real)
    ensures OrientedDimension(t, AUTO, width, height) == OrientedDimension(t, AUTO, height, width)
  {
  }
}
