/**
 * The games module's screen snapshot (`GameScreenConfig`) and its derived
 * values: aspect ratio, density scale and orientation.
 */
module GameModels {
  import opened Numerics
  import Qualifiers

  /** The fallback aspect ratio when a side is not positive. */
  const DefaultAspectRatio: real := 1.78

  /** `GameScreenConfig`; the UI mode is modelled by its code, as in the dynamic module. */
  datatype GameScreenConfig = GameScreenConfig(
    screenWidthDp: real,
    screenHeightDp: real,
    smallestScreenWidthDp: real,
    densityDpi: int,
    uiMode: Qualifiers.UiModeType)

  /**
   * `aspectRatio`: the larger side over the smaller one, or 1.78 when the
   * smaller side is not positive.
   */
  function AspectRatio(c: GameScreenConfig): (r: real)
    ensures r >= 1.0
    ensures Min(c.screenWidthDp, c.screenHeightDp) <= 0.0 ==> r == DefaultAspectRatio
  {
    var smallest := Min(c.screenWidthDp, c.screenHeightDp);
    var largest := Max(c.screenWidthDp, c.screenHeightDp);
    if smallest > 0.0 then Numerics.RatioAtLeastOne(largest, smallest); largest / smallest
    else DefaultAspectRatio
  }

  /** On a screen with a positive smaller side, the ratio times the smaller side is the larger side. */
  lemma AspectRatioRelatesSides(c: GameScreenConfig)
    requires Min(c.screenWidthDp, c.screenHeightDp) > 0.0
    ensures AspectRatio(c) * Min(c.screenWidthDp, c.screenHeightDp) == Max(c.screenWidthDp, c.screenHeightDp)
  {
  }

  /** The aspect ratio does not depend on which way the device is held. */
  lemma AspectRatioRotationInvariant(c: GameScreenConfig)
    ensures AspectRatio(c) == AspectRatio(c.(screenWidthDp := c.screenHeightDp, screenHeightDp := c.screenWidthDp))
  {
  }

  /** `densityScale`: density over the 160 dpi baseline. */
  function DensityScale(c: GameScreenConfig): (r: real)
    ensures r * 160.0 == c.densityDpi as real
  {
    c.densityDpi as real / 160.0
  }

  /** `isPortrait`: strictly taller than wide. */
  function IsPortrait(c: GameScreenConfig): (b: bool)
    ensures b ==> Min(c.screenWidthDp, c.screenHeightDp) == c.screenWidthDp != c.screenHeightDp
  {
    c.screenHeightDp > c.screenWidthDp
  }

  /** `isLandscape`: strictly wider than tall. */
  function IsLandscape(c: GameScreenConfig): (b: bool)
    ensures b <==> IsPortrait(c.(screenWidthDp := c.screenHeightDp, screenHeightDp := c.screenWidthDp))
    ensures b ==> !IsPortrait(c)
  {
    c.screenWidthDp > c.screenHeightDp
  }

  /** The two orientations exclude each other, a square screen has neither, any other screen has one. */
  lemma OrientationExclusive(c: GameScreenConfig)
    ensures !(IsPortrait(c) && IsLandscape(c))
    ensures c.screenWidthDp == c.screenHeightDp <==> !IsPortrait(c) && !IsLandscape(c)
  {
  }
}
