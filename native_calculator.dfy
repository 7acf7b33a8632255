/**
 * The native (C++) games calculator, `GameCalculator`: ten strategies routed
 * by `calculate`, the fluid formula, orientation handling, the element-type
 * table of `inferStrategy` and the preset search.
 *
 * The declarations in `GameCalculator.h` are not part of this model.  The
 * constants are taken to be those of the Kotlin calculators (300 x 533
 * reference, 1.78 reference aspect ratio); the element types are those of
 * the Kotlin `GameElementType`; the default arguments of the strategy
 * functions, which `calculate` relies on, are a `Defaults` parameter.  The
 * logarithm (`LnLookup::fastLn`) is a parameter `ln`, as in the Kotlin
 * models.
 */
module NativeCalculator {
  import opened Numerics
  import opened Screens
  import LnTables
  import Fluid
  import Presets
  import DC = DynamicCalculator
  import GE = GameElements

  /** `GameScreenConfigNative`: the two sides the calculator reads. */
  datatype NativeConfig = NativeConfig(screenWidthDp: real, screenHeightDp: real)

  /** The default arguments of the strategy functions, declared in the header. */
  datatype Defaults = Defaults(
    applyAspectRatio: bool,
    balancedSensitivity: real,
    transitionPoint: real,
    logarithmicSensitivity: real,
    powerExponent: real)

  /** A dynamic-calculator configuration describing the same screen. */
  predicate SameScreen(c: NativeConfig, dc: DC.CalculationConfig)
  {
    dc.screenWidthDp == c.screenWidthDp && dc.screenHeightDp == c.screenHeightDp
  }

  // ------------------------------------------------------------------
  // Orientation
  // ------------------------------------------------------------------

  /**
   * `resolveScreenType`: AUTO keeps the requested type; a portrait design
   * inverts it on a screen that is not taller than wide, a landscape design
   * on one that is.  It is the resolution every other port uses.
   */
  function ResolveScreenType(requested: ScreenType, b: BaseOrientation, c: NativeConfig): (r: ScreenType)
    ensures r == Screens.ResolveScreenType(requested, b, c.screenWidthDp, c.screenHeightDp)
  {
    if b == AUTO then requested
    else
      var currentIsPortrait := c.screenHeightDp > c.screenWidthDp;
      var shouldInvert := match b
        case PORTRAIT => !currentIsPortrait
        case LANDSCAPE => currentIsPortrait
        case AUTO => false;
      if shouldInvert then (if requested == LOWEST then HIGHEST else LOWEST)
      else requested
  }

  /** `getDimensionForType`: the larger side for HIGHEST, the smaller one otherwise. */
  function GetDimensionForType(c: NativeConfig, t: ScreenType, b: BaseOrientation): (d: real)
    ensures d == OrientedDimension(t, b, c.screenWidthDp, c.screenHeightDp)
  {
    match ResolveScreenType(t, b, c)
    case HIGHEST => Max(c.screenWidthDp, c.screenHeightDp)
    case LOWEST => Min(c.screenWidthDp, c.screenHeightDp)
  }

  /** The resolved dimension is the dynamic calculator's on the same screen. */
  lemma DimensionAgrees(c: NativeConfig, dc: DC.CalculationConfig, t: ScreenType, b: BaseOrientation)
    requires SameScreen(c, dc)
    ensures GetDimensionForType(c, t, b) == DC.Dimension(dc, t, b)
  {
  }

  // ------------------------------------------------------------------
  // Strategies
  // ------------------------------------------------------------------

  /**
   * DEFAULT: `1 + difference * 0.00333` without the aspect ratio, the
   * increment growing with the log of the aspect ratio with it.  The
   * aspect ratio divides by the smaller side.
   */
  function CalculateDefault(ln: real -> real, base: real, c: NativeConfig, t: ScreenType, b: BaseOrientation, applyAspectRatio: bool): (r: real)
    requires applyAspectRatio ==> Min(c.screenWidthDp, c.screenHeightDp) != 0.0
    ensures GetDimensionForType(c, t, b) == DC.BaseWidthDp ==> r == base
    ensures !applyAspectRatio && base > 0.0 ==> (r > base <==> GetDimensionForType(c, t, b) > DC.BaseWidthDp)
  {
    var difference := GetDimensionForType(c, t, b) - DC.BaseWidthDp;
    var factor := DefaultFactor(ln, difference, c, applyAspectRatio);
    DC.ScaleAboveOne(base, factor, difference * DC.DefaultSlope);
    base * factor
  }

  /** The DEFAULT factor for a difference from 300. */
  function DefaultFactor(ln: real -> real, difference: real, c: NativeConfig, applyAspectRatio: bool): (r: real)
    requires applyAspectRatio ==> Min(c.screenWidthDp, c.screenHeightDp) != 0.0
    ensures difference == 0.0 ==> r == 1.0
    ensures !applyAspectRatio ==> r == 1.0 + difference * DC.DefaultSlope
  {
    if applyAspectRatio then
      var ar := Max(c.screenWidthDp, c.screenHeightDp) / Min(c.screenWidthDp, c.screenHeightDp);
      1.0 + difference * (DC.BaseIncrement + DC.DefaultArSensitivity * ln(ar * DC.InvReferenceAr))
    else 1.0 + difference * DC.DefaultSlope
  }

  /**
   * The DEFAULT factor is the dynamic calculator's (with its default
   * aspect-ratio sensitivity) on the same screen, so both calculators
   * return the base value times the same factor.
   */
  lemma DefaultFactorAgrees(ln: real -> real, difference: real, c: NativeConfig, dc: DC.CalculationConfig, apply: bool)
    requires SameScreen(c, dc) && DC.ValidScreen(dc)
    ensures DefaultFactor(ln, difference, c, apply) == DC.DefaultFactor(ln, difference, DC.DefaultParams(apply, None), DC.AspectRatio(dc))
  {
    assert DC.AspectRatio(dc) == Max(c.screenWidthDp, c.screenHeightDp) / Min(c.screenWidthDp, c.screenHeightDp);
  }

  /**
   * PERCENTAGE: proportional to the resolved dimension; a positive base grows
   * exactly when the dimension's ratio to the reference exceeds 1.
   */
  function CalculatePercentage(base: real, c: NativeConfig, t: ScreenType, b: BaseOrientation): (r: real)
    ensures GetDimensionForType(c, t, b) == 0.0 ==> r == 0.0
    ensures base > 0.0 ==> (r > base <==> GetDimensionForType(c, t, b) * DC.InvBaseWidthDp > 1.0)
  {
    var ratio := GetDimensionForType(c, t, b) * DC.InvBaseWidthDp;
    DC.ScaleAboveOne(base, ratio, ratio - 1.0);
    base * ratio
  }

  /** PERCENTAGE gives the dynamic calculator's PERCENTAGE. */
  lemma PercentageAgrees(base: real, c: NativeConfig, dc: DC.CalculationConfig, t: ScreenType, b: BaseOrientation)
    requires SameScreen(c, dc)
    ensures CalculatePercentage(base, c, t, b) == DC.CalculatePercentage(base, dc, t, b)
  {
    DimensionAgrees(c, dc, t, b);
  }

  /**
   * BALANCED: the PERCENTAGE value up to and including the transition point,
   * logarithmic growth from there on.
   */
  function CalculateBalanced(ln: real -> real, base: real, c: NativeConfig, t: ScreenType, b: BaseOrientation, sensitivity: real, transitionPoint: real): (r: real)
    ensures GetDimensionForType(c, t, b) <= transitionPoint ==> r == CalculatePercentage(base, c, t, b)
  {
    var screenDp := GetDimensionForType(c, t, b);
    if screenDp <= transitionPoint then base * (screenDp * DC.InvBaseWidthDp)
    else
      var excess := screenDp - transitionPoint;
      var scale := (transitionPoint * DC.InvBaseWidthDp) + sensitivity * ln(1.0 + excess * DC.InvBaseWidthDp);
      base * scale
  }

  /** BALANCED gives the dynamic calculator's BALANCED with the same sensitivity and transition point. */
  lemma BalancedAgrees(ln: real -> real, base: real, c: NativeConfig, dc: DC.CalculationConfig, t: ScreenType, b: BaseOrientation, sensitivity: real, transitionPoint: real)
    requires SameScreen(c, dc)
    ensures CalculateBalanced(ln, base, c, t, b, sensitivity, transitionPoint) ==
      DC.CalculateBalanced(ln, base, dc, t, b, PerceptualOf(sensitivity, transitionPoint, DC.DefaultPowerExponent))
  {
    DimensionAgrees(c, dc, t, b);
  }

  /** The dynamic calculator's parameters with a given sensitivity, transition point and exponent. */
  function PerceptualOf(sensitivity: real, transitionPoint: real, exponent: real): DC.PerceptualParams
  {
    DC.PerceptualParams(BALANCED_MODEL, sensitivity, exponent, transitionPoint, true, DC.DefaultArSensitivity)
  }

  /**
   * LOGARITHMIC: above 300 one plus, below one minus, the sensitivity times
   * the log of the ratio to 300; the lower branch divides by the dimension.
   */
  function CalculateLogarithmic(ln: real -> real, base: real, c: NativeConfig, t: ScreenType, b: BaseOrientation, sensitivity: real): (r: real)
    requires GetDimensionForType(c, t, b) != 0.0
    ensures LnTables.VanishesNearOne(ln) && GetDimensionForType(c, t, b) == DC.BaseWidthDp ==> r == base
  {
    var screenDp := GetDimensionForType(c, t, b);
    var scale :=
      if screenDp > DC.BaseWidthDp then 1.0 + sensitivity * ln(screenDp * DC.InvBaseWidthDp)
      else 1.0 - sensitivity * ln(DC.BaseWidthDp / screenDp);
    assert screenDp == DC.BaseWidthDp && LnTables.VanishesNearOne(ln) ==> ln(DC.BaseWidthDp / screenDp) == 0.0;
    base * scale
  }

  /** LOGARITHMIC gives the dynamic calculator's LOGARITHMIC. */
  lemma LogarithmicAgrees(ln: real -> real, base: real, c: NativeConfig, dc: DC.CalculationConfig, t: ScreenType, b: BaseOrientation, sensitivity: real)
    requires SameScreen(c, dc) && DC.ValidScreen(dc)
    ensures GetDimensionForType(c, t, b) != 0.0
    ensures CalculateLogarithmic(ln, base, c, t, b, sensitivity) ==
      DC.CalculateLogarithmic(ln, base, dc, t, b, PerceptualOf(sensitivity, DC.DefaultTransitionPoint, DC.DefaultPowerExponent))
  {
    DimensionAgrees(c, dc, t, b);
  }

  /** POWER: the ratio to 300 raised to the exponent. */
  function CalculatePower(m: MathLib, base: real, c: NativeConfig, t: ScreenType, b: BaseOrientation, exponent: real): (r: real)
    ensures Lawful(m) && GetDimensionForType(c, t, b) == DC.BaseWidthDp ==> r == base
  {
    var screenDp := GetDimensionForType(c, t, b);
    var ratio := screenDp / DC.BaseWidthDp;
    base * m.pow(ratio, exponent)
  }

  /** POWER gives the dynamic calculator's POWER. */
  lemma PowerAgrees(m: MathLib, base: real, c: NativeConfig, dc: DC.CalculationConfig, t: ScreenType, b: BaseOrientation, exponent: real)
    requires SameScreen(c, dc)
    ensures CalculatePower(m, base, c, t, b, exponent) ==
      DC.CalculatePower(m, base, dc, t, b, PerceptualOf(DC.DefaultSensitivity, DC.DefaultTransitionPoint, exponent))
  {
    DimensionAgrees(c, dc, t, b);
  }

  /**
   * `calculateFluid`: flat at `minValue` up to `minWidth`, flat at
   * `maxValue` from `maxWidth`, linear in between; the base value is not
   * read.  It is the fluid interpolation of the Kotlin calculators.
   */
  function CalculateFluid(base: real, c: NativeConfig, t: ScreenType, b: BaseOrientation,
                          minValue: real, maxValue: real, minWidth: real, maxWidth: real): (r: real)
    ensures r == Fluid.InterpolateFluid(GetDimensionForType(c, t, b), minValue, maxValue, minWidth, maxWidth)
    ensures GetDimensionForType(c, t, b) <= minWidth ==> r == minValue
    ensures minWidth < GetDimensionForType(c, t, b) && maxWidth <= GetDimensionForType(c, t, b) ==> r == maxValue
    ensures Min(minValue, maxValue) <= r <= Max(minValue, maxValue)
  {
    var width := GetDimensionForType(c, t, b);
    if width <= minWidth then minValue
    else if width >= maxWidth then maxValue
    else
      var progress := (width - minWidth) / (maxWidth - minWidth);
      minValue + (maxValue - minValue) * progress
  }

  /** INTERPOLATED: half-way between the unscaled value and the proportional one. */
  function CalculateInterpolated(base: real, c: NativeConfig, t: ScreenType, b: BaseOrientation): (r: real)
    ensures r - base == base * (GetDimensionForType(c, t, b) / DC.BaseWidthDp) - r
  {
    var w := GetDimensionForType(c, t, b);
    var linear := base * (w / DC.BaseWidthDp);
    base + (linear - base) * 0.5
  }

  /**
   * DIAGONAL: proportional to the diagonal, whichever way the device is
   * held; a positive base grows exactly on a diagonal longer than the
   * reference one.
   */
  function CalculateDiagonal(m: MathLib, base: real, c: NativeConfig): (r: real)
    ensures r == base * (m.sqrt(c.screenWidthDp * c.screenWidthDp + c.screenHeightDp * c.screenHeightDp) / DC.BaseDiagonal)
    ensures base > 0.0 ==>
      (r > base <==> m.sqrt(c.screenWidthDp * c.screenWidthDp + c.screenHeightDp * c.screenHeightDp) > DC.BaseDiagonal)
  {
    var smallest := Min(c.screenWidthDp, c.screenHeightDp);
    var largest := Max(c.screenWidthDp, c.screenHeightDp);
    assert smallest * smallest + largest * largest == c.screenWidthDp * c.screenWidthDp + c.screenHeightDp * c.screenHeightDp;
    var ratio := m.sqrt(smallest * smallest + largest * largest) / DC.BaseDiagonal;
    DC.ScaleAboveOne(base, ratio, ratio - 1.0);
    base * ratio
  }

  /**
   * PERIMETER: proportional to width plus height; a positive base grows
   * exactly when the sides add up to more than the reference perimeter.
   */
  function CalculatePerimeter(base: real, c: NativeConfig): (r: real)
    ensures r == base * ((c.screenWidthDp + c.screenHeightDp) / DC.BasePerimeter)
    ensures base > 0.0 ==> (r > base <==> c.screenWidthDp + c.screenHeightDp > DC.BasePerimeter)
  {
    var smallest := Min(c.screenWidthDp, c.screenHeightDp);
    var largest := Max(c.screenWidthDp, c.screenHeightDp);
    var ratio := (smallest + largest) / DC.BasePerimeter;
    DC.ScaleAboveOne(base, ratio, ratio - 1.0);
    base * ratio
  }

  /** The two side ratios FIT and FILL choose between. */
  function RatioW(c: NativeConfig): real
  {
    Min(c.screenWidthDp, c.screenHeightDp) / DC.BaseWidthDp
  }

  function RatioH(c: NativeConfig): real
  {
    Max(c.screenWidthDp, c.screenHeightDp) / DC.BaseHeightDp
  }

  /** FIT: the smaller side ratio, so a non-negative value fits along both axes. */
  function CalculateFit(base: real, c: NativeConfig): (r: real)
    ensures r == base * RatioW(c) || r == base * RatioH(c)
    ensures base >= 0.0 ==> r <= base * RatioW(c) && r <= base * RatioH(c)
  {
    var ratioW := RatioW(c);
    var ratioH := RatioH(c);
    DC.MulMonotone(base, Min(ratioW, ratioH), ratioW);
    DC.MulMonotone(base, Min(ratioW, ratioH), ratioH);
    base * Min(ratioW, ratioH)
  }

  /** FILL: the larger side ratio, so a non-negative value covers both axes. */
  function CalculateFill(base: real, c: NativeConfig): (r: real)
    ensures r == base * RatioW(c) || r == base * RatioH(c)
    ensures base >= 0.0 ==> r >= base * RatioW(c) && r >= base * RatioH(c)
  {
    var ratioW := RatioW(c);
    var ratioH := RatioH(c);
    DC.MulMonotone(base, ratioW, Max(ratioW, ratioH));
    DC.MulMonotone(base, ratioH, Max(ratioW, ratioH));
    base * Max(ratioW, ratioH)
  }

  // ------------------------------------------------------------------
  // Dispatch
  // ------------------------------------------------------------------

  /** The divisions of DEFAULT (with the aspect ratio) and LOGARITHMIC are defined. */
  predicate Defined(s: ScalingStrategy, c: NativeConfig, t: ScreenType, b: BaseOrientation, d: Defaults)
  {
    && (s == DEFAULT && d.applyAspectRatio ==> Min(c.screenWidthDp, c.screenHeightDp) != 0.0)
    && (s == LOGARITHMIC ==> GetDimensionForType(c, t, b) != 0.0)
  }

  /** DEFAULT, and POWER and LOGARITHMIC under the laws of their functions, return the base value at 300. */
  ghost predicate NeutralAtReference(s: ScalingStrategy, ln: real -> real, m: MathLib)
  {
    s == DEFAULT || (s == POWER && Lawful(m)) || (s == LOGARITHMIC && LnTables.VanishesNearOne(ln))
  }

  /**
   * `calculate`: NONE, and FLUID and AUTOSIZE which the switch does not
   * list, return the base value; every other strategy is computed with the
   * header's default arguments.
   */
  function Calculate(ln: real -> real, m: MathLib, base: real, s: ScalingStrategy,
                     c: NativeConfig, t: ScreenType, b: BaseOrientation, d: Defaults): (r: real)
    requires Defined(s, c, t, b, d)
    ensures s == NONE || s == FLUID || s == AUTOSIZE ==> r == base
    ensures GetDimensionForType(c, t, b) == DC.BaseWidthDp && NeutralAtReference(s, ln, m) ==> r == base
  {
    if s == NONE then base
    else
      match s
      case DEFAULT => CalculateDefault(ln, base, c, t, b, d.applyAspectRatio)
      case PERCENTAGE => CalculatePercentage(base, c, t, b)
      case BALANCED => CalculateBalanced(ln, base, c, t, b, d.balancedSensitivity, d.transitionPoint)
      case LOGARITHMIC => CalculateLogarithmic(ln, base, c, t, b, d.logarithmicSensitivity)
      case POWER => CalculatePower(m, base, c, t, b, d.powerExponent)
      case INTERPOLATED => CalculateInterpolated(base, c, t, b)
      case DIAGONAL => CalculateDiagonal(m, base, c)
      case PERIMETER => CalculatePerimeter(base, c)
      case FIT => CalculateFit(base, c)
      case FILL => CalculateFill(base, c)
      case NONE => base
      case _ => base
  }

  /** For a non-negative base value, `calculate` with FIT never exceeds FILL on the same screen. */
  lemma FitAtMostFill(ln: real -> real, m: MathLib, base: real, c: NativeConfig, t: ScreenType, b: BaseOrientation, d: Defaults)
    requires base >= 0.0
    ensures Calculate(ln, m, base, FIT, c, t, b, d) <= Calculate(ln, m, base, FILL, c, t, b, d)
  {
    assert Calculate(ln, m, base, FIT, c, t, b, d) == CalculateFit(base, c);
    assert Calculate(ln, m, base, FILL, c, t, b, d) == CalculateFill(base, c);
  }

  // ------------------------------------------------------------------
  // Strategy inference
  // ------------------------------------------------------------------

  /**
   * `inferStrategy`: HUD controls DEFAULT, text FLUID, containers
   * PERCENTAGE, characters, objects and effects BALANCED, backgrounds FILL,
   * the divider NONE, and every unlisted element BALANCED.  The screen is
   * not read.
   */
  function InferStrategy(e: GE.GameElementType, c: NativeConfig): (r: ScalingStrategy)
    ensures r == FILL <==> e == GE.BACKGROUND || e == GE.PARALLAX_LAYER
    ensures r == NONE <==> e == GE.DIVIDER
    ensures r == DEFAULT <==> e == GE.HUD_BUTTON || e == GE.HUD_ICON || e == GE.HUD_BAR || e == GE.HUD_CROSSHAIR
    ensures r == DEFAULT || r == FLUID || r == PERCENTAGE || r == BALANCED || r == FILL || r == NONE
  {
    match e
    case HUD_BUTTON | HUD_ICON | HUD_BAR | HUD_CROSSHAIR => DEFAULT
    case HUD_TEXT | TEXT | DIALOGUE | CAPTION | FLOATING_TEXT | QUEST_TEXT | LORE_TEXT => FLUID
    case HUD_CONTAINER | CONTAINER | INVENTORY | ABILITY_PANEL | CARD | LIST_ITEM => PERCENTAGE
    case PLAYER | ENEMY | BOSS | NPC | COMPANION | VEHICLE => BALANCED
    case ITEM | WEAPON | PROJECTILE | OBSTACLE | INTERACTIVE_OBJECT | DESTRUCTIBLE | PICKUP | TRAP
       | WORLD_OBJECT | BUILDING => BALANCED
    case BACKGROUND | PARALLAX_LAYER => FILL
    case PARTICLE | VISUAL_EFFECT | ANIMATION | LIGHT_EFFECT => BALANCED
    case DIVIDER => NONE
    case _ => BALANCED
  }

  /**
   * The elements the native table does not list and the Kotlin table does
   * not recommend BALANCED for: the minimap, camera bounds, trigger zones,
   * the debug element and eight standard UI elements.
   */
  predicate UnlistedNatively(e: GE.GameElementType)
  {
    match e
    case HUD_MINIMAP | CAMERA_BOUNDS | TRIGGER_ZONE | DEBUG_ELEMENT | ICON | BADGE
       | IMAGE | CHIP | INPUT | NAVIGATION | HEADER | TOOLBAR => true
    case _ => false
  }

  /** Outside those twelve elements the native table gives the Kotlin recommendation. */
  lemma InferenceMatchesKotlin(e: GE.GameElementType, c: NativeConfig)
    ensures !UnlistedNatively(e) ==> InferStrategy(e, c) == GE.GetRecommendedStrategy(e)
  {
  }

  /** On those twelve the native table falls through to BALANCED ... */
  lemma UnlistedAreBalanced(e: GE.GameElementType, c: NativeConfig)
    ensures UnlistedNatively(e) ==> InferStrategy(e, c) == BALANCED
  {
  }

  /** ... which the Kotlin table never recommends for them, so the two tables differ there. */
  lemma KotlinUnlistedNotBalanced(e: GE.GameElementType)
    ensures UnlistedNatively(e) ==> GE.GetRecommendedStrategy(e) != BALANCED
  {
  }
}
