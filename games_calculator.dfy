/**
 * The games calculator (`GamesCalculator`): the same thirteen strategies as
 * the dynamic calculator, read from a `GameScreenConfig`, with an
 * aspect-ratio adjustment on the perceptual, power and interpolated
 * strategies, a strategy inference from the element type or the device
 * class, and the direct-mapped result cache in front of it all.
 *
 * Where the games code computes exactly what the dynamic code computes
 * (PERCENTAGE, DIAGONAL, PERIMETER, FIT, FILL, the qualifier override and the
 * constraints) the dynamic functions are used on the converted screen; the
 * strategies that differ are written out here and each is proved to be the
 * dynamic value times the games' aspect-ratio factor.
 */
module GamesCalculator {
  import opened Numerics
  import opened Screens
  import LnTables
  import Qualifiers
  import Fluid
  import GameModels
  import GameElements
  import GameCache
  import DC = DynamicCalculator

  /** `DEFAULT_AR_SENSITIVITY`. */
  const DefaultArSensitivity: real := 0.08 / 30.0

  /** The games' perceptual defaults: as the dynamic ones, but an aspect-ratio sensitivity of 0.08. */
  const DefaultPerceptualParams: DC.PerceptualParams :=
    DC.PerceptualParams(BALANCED_MODEL, 0.40, 0.75, 480.0, true, 0.08)

  /**
   * The games' `FluidParams`.  Its device and screen qualifier maps are not
   * fields here: the games FLUID strategy never reads them.
   */
  datatype FluidParams = FluidParams(
    minValue: real,
    maxValue: real,
    minWidth: real,
    maxWidth: real,
    applyAspectRatio: bool,
    arSensitivity: Option<real>)

  /** `InterpolatedParams`. */
  datatype InterpolatedParams = InterpolatedParams(applyAspectRatio: bool, arSensitivity: Option<real>)

  /**
   * The device classes the inference distinguishes.  `GameDeviceType` and
   * its classification `GameDeviceType.from` are not part of this model: the
   * class is an input, and `OTHER` stands for every other class.
   */
  datatype GameDeviceType = TABLET_LARGE | TV | TABLET_SMALL | OTHER

  /** The same screen as the dynamic calculator's configuration. */
  function Cfg(c: GameModels.GameScreenConfig): DC.CalculationConfig
  {
    DC.CalculationConfig(c.screenWidthDp, c.screenHeightDp, c.smallestScreenWidthDp, c.densityDpi, c.uiMode)
  }

  /** `getDimensionForType`: the side the resolved screen type selects. */
  function Dimension(c: GameModels.GameScreenConfig, st: ScreenType, b: BaseOrientation): real
  {
    OrientedDimension(st, b, c.screenWidthDp, c.screenHeightDp)
  }

  /** On a screen with two positive sides the games' aspect ratio is the dynamic one. */
  lemma AspectRatioAgrees(c: GameModels.GameScreenConfig)
    requires DC.ValidScreen(Cfg(c))
    ensures GameModels.AspectRatio(c) == DC.AspectRatio(Cfg(c))
  {
  }

  // ------------------------------------------------------------------
  // Aspect-ratio adjustment
  // ------------------------------------------------------------------

  /**
   * `1 + arSensitivity * fastLn(ar * INV_REFERENCE_AR)`: neutral (exactly 1)
   * on a screen of the reference ratio 1.78 when the logarithm vanishes near
   * 1, and whenever the sensitivity is 0.
   */
  function ArAdjustment(ln: real -> real, c: GameModels.GameScreenConfig, sensitivity: real): (r: real)
    ensures sensitivity == 0.0 ==> r == 1.0
    ensures LnTables.VanishesNearOne(ln) && GameModels.AspectRatio(c) == DC.ReferenceAr ==> r == 1.0
  {
    1.0 + sensitivity * ln(GameModels.AspectRatio(c) * DC.InvReferenceAr)
  }

  /** The factor a strategy's scale is multiplied by: the adjustment when it is enabled, else 1. */
  function ArFactor(ln: real -> real, c: GameModels.GameScreenConfig, apply: bool, sensitivity: real): real
  {
    if apply then ArAdjustment(ln, c, sensitivity) else 1.0
  }

  /** The sensitivity of the fluid and interpolated parameters: their own, or 0.08 / 30. */
  function ArSensitivity(sensitivity: Option<real>): real
  {
    if sensitivity.Some? then sensitivity.value else DefaultArSensitivity
  }

  /** Scaling by a product is scaling twice. */
  lemma ScaledTwice(base: real, scale: real, factor: real, unscaled: real)
    requires unscaled == base * scale
    ensures base * (scale * factor) == unscaled * factor
  {
  }

  // ------------------------------------------------------------------
  // Strategies
  // ------------------------------------------------------------------

  /**
   * DEFAULT: the dynamic DEFAULT, except that the aspect ratio of a screen
   * without two positive sides is 1.78 rather than undefined.  At the
   * reference width the base value comes back unchanged.
   */
  function CalculateDefault(ln: real -> real, base: real, c: GameModels.GameScreenConfig,
                            st: ScreenType, b: BaseOrientation, p: DC.DefaultParams): (r: real)
    ensures Dimension(c, st, b) == DC.BaseWidthDp ==> r == base
    ensures !p.applyAspectRatio && base > 0.0 ==> (r > base <==> Dimension(c, st, b) > DC.BaseWidthDp)
    ensures DC.ValidScreen(Cfg(c)) ==> r == DC.CalculateDefault(ln, base, Cfg(c), st, b, p)
  {
    var difference := Dimension(c, st, b) - DC.BaseWidthDp;
    var factor := DC.DefaultFactor(ln, difference, p, GameModels.AspectRatio(c));
    DC.ScaleAboveOne(base, factor, difference * DC.DefaultSlope);
    assert DC.Dimension(Cfg(c), st, b) == Dimension(c, st, b);
    if DC.ValidScreen(Cfg(c)) then
      AspectRatioAgrees(c);
      base * factor
    else base * factor
  }

  /**
   * BALANCED: the dynamic BALANCED value (linear up to the transition point,
   * logarithmic beyond) times the aspect-ratio factor.
   */
  function CalculateBalanced(ln: real -> real, base: real, c: GameModels.GameScreenConfig,
                             st: ScreenType, b: BaseOrientation, p: DC.PerceptualParams): (r: real)
    ensures r == DC.CalculateBalanced(ln, base, Cfg(c), st, b, p) * ArFactor(ln, c, p.applyAspectRatio, p.arSensitivity)
  {
    var scale := DC.BalancedScale(ln, Dimension(c, st, b), p);
    var adjusted := if p.applyAspectRatio then scale * ArAdjustment(ln, c, p.arSensitivity) else scale;
    assert DC.Dimension(Cfg(c), st, b) == Dimension(c, st, b);
    ScaledTwice(base, scale, ArFactor(ln, c, p.applyAspectRatio, p.arSensitivity), DC.CalculateBalanced(ln, base, Cfg(c), st, b, p));
    base * adjusted
  }

  /**
   * LOGARITHMIC: one plus (or minus) the sensitivity times the log of the
   * ratio to 300, times the aspect-ratio factor; at the reference width the
   * base value times that factor.  The source divides by the dimension when
   * it is at most 300, so a zero dimension is excluded.
   */
  function CalculateLogarithmic(ln: real -> real, base: real, c: GameModels.GameScreenConfig,
                                st: ScreenType, b: BaseOrientation, p: DC.PerceptualParams): (r: real)
    requires Dimension(c, st, b) != 0.0
    ensures DC.ValidScreen(Cfg(c)) ==>
      r == DC.CalculateLogarithmic(ln, base, Cfg(c), st, b, p) * ArFactor(ln, c, p.applyAspectRatio, p.arSensitivity)
    ensures LnTables.VanishesNearOne(ln) && Dimension(c, st, b) == DC.BaseWidthDp ==>
      r == base * ArFactor(ln, c, p.applyAspectRatio, p.arSensitivity)
  {
    var scale := DC.LogarithmicScale(ln, Dimension(c, st, b), p.sensitivity);
    var adjusted := if p.applyAspectRatio then scale * ArAdjustment(ln, c, p.arSensitivity) else scale;
    assert DC.Dimension(Cfg(c), st, b) == Dimension(c, st, b);
    if DC.ValidScreen(Cfg(c)) then
      ScaledTwice(base, scale, ArFactor(ln, c, p.applyAspectRatio, p.arSensitivity), DC.CalculateLogarithmic(ln, base, Cfg(c), st, b, p));
      base * adjusted
    else base * adjusted
  }

  /** POWER: the ratio to 300 raised to the exponent, times the aspect-ratio factor. */
  function CalculatePower(ln: real -> real, m: MathLib, base: real, c: GameModels.GameScreenConfig,
                          st: ScreenType, b: BaseOrientation, p: DC.PerceptualParams): (r: real)
    ensures r == DC.CalculatePower(m, base, Cfg(c), st, b, p) * ArFactor(ln, c, p.applyAspectRatio, p.arSensitivity)
    ensures Lawful(m) && Dimension(c, st, b) == DC.BaseWidthDp ==> r == base * ArFactor(ln, c, p.applyAspectRatio, p.arSensitivity)
  {
    var scale := DC.PowerScale(m, Dimension(c, st, b), p.powerExponent);
    var adjusted := if p.applyAspectRatio then scale * ArAdjustment(ln, c, p.arSensitivity) else scale;
    assert DC.Dimension(Cfg(c), st, b) == Dimension(c, st, b);
    ScaledTwice(base, scale, ArFactor(ln, c, p.applyAspectRatio, p.arSensitivity), DC.CalculatePower(m, base, Cfg(c), st, b, p));
    base * adjusted
  }

  /**
   * FLUID: below the width range the lower bound, above it the upper bound,
   * in between the linear interpolation, times the aspect-ratio factor when
   * the parameters enable it (the global perceptual settings play no part).
   * Without the factor, or on a screen of the reference ratio, the value
   * stays between the bounds.
   */
  function CalculateFluid(ln: real -> real, c: GameModels.GameScreenConfig,
                          st: ScreenType, b: BaseOrientation, p: FluidParams): (r: real)
    ensures Dimension(c, st, b) <= p.minWidth ==>
      r == p.minValue * ArFactor(ln, c, p.applyAspectRatio, ArSensitivity(p.arSensitivity))
    ensures p.minWidth < Dimension(c, st, b) && p.maxWidth <= Dimension(c, st, b) ==>
      r == p.maxValue * ArFactor(ln, c, p.applyAspectRatio, ArSensitivity(p.arSensitivity))
    ensures !p.applyAspectRatio || (LnTables.VanishesNearOne(ln) && GameModels.AspectRatio(c) == DC.ReferenceAr) ==>
      Min(p.minValue, p.maxValue) <= r <= Max(p.minValue, p.maxValue)
  {
    var result := Fluid.InterpolateFluid(Dimension(c, st, b), p.minValue, p.maxValue, p.minWidth, p.maxWidth);
    if p.applyAspectRatio then result * ArAdjustment(ln, c, ArSensitivity(p.arSensitivity))
    else result
  }

  /**
   * INTERPOLATED: half-way between the unscaled and the proportional value
   * (the dynamic INTERPOLATED value), times the aspect-ratio factor.
   */
  function CalculateInterpolated(ln: real -> real, base: real, c: GameModels.GameScreenConfig,
                                 st: ScreenType, b: BaseOrientation, p: InterpolatedParams): (r: real)
    ensures r == DC.CalculateInterpolated(base, Cfg(c), st, b) * ArFactor(ln, c, p.applyAspectRatio, ArSensitivity(p.arSensitivity))
    ensures !p.applyAspectRatio ==> r - base == base * (Dimension(c, st, b) / DC.BaseWidthDp) - r
  {
    var w := Dimension(c, st, b);
    var linear := base * (w / DC.BaseWidthDp);
    var result := base + (linear - base) * 0.5;
    assert DC.Dimension(Cfg(c), st, b) == w;
    assert DC.CalculateInterpolated(base, Cfg(c), st, b) == result;
    if p.applyAspectRatio then result * ArAdjustment(ln, c, ArSensitivity(p.arSensitivity))
    else result
  }

  // ------------------------------------------------------------------
  // Strategy inference
  // ------------------------------------------------------------------

  /**
   * `inferStrategy`: the element type's recommendation when there is an
   * element type; otherwise BALANCED on large and small tablets and TVs and
   * DEFAULT elsewhere.  Whether fluid parameters or bounds are present does
   * not matter.
   */
  function InferStrategy(e: Option<GameElements.GameElementType>, device: GameDeviceType,
                         hasFluidConfig: bool, hasBounds: bool): (s: ScalingStrategy)
    ensures e.Some? ==> s == GameElements.GetRecommendedStrategy(e.value)
    ensures e.None? ==> (s == BALANCED <==> device != OTHER)
    ensures e.None? ==> (s == DEFAULT <==> device == OTHER)
  {
    if e.Some? then GameElements.GetRecommendedStrategy(e.value)
    else
      match device
      case TABLET_LARGE => BALANCED
      case TV => BALANCED
      case TABLET_SMALL => BALANCED
      case OTHER => DEFAULT
  }

  // ------------------------------------------------------------------
  // Entry point
  // ------------------------------------------------------------------

  /** The inputs of `calculate`, with the device class as an input. */
  datatype Request = Request(
    base: real,
    strategy: Option<ScalingStrategy>,
    elementType: Option<GameElements.GameElementType>,
    config: GameModels.GameScreenConfig,
    device: GameDeviceType,
    screenType: ScreenType,
    baseOrientation: BaseOrientation,
    defaultParams: DC.DefaultParams,
    perceptualParams: DC.PerceptualParams,
    fluidParams: Option<FluidParams>,
    interpolatedParams: InterpolatedParams,
    constraints: DC.Constraints,
    qualifiers: Qualifiers.CustomQualifiers)

  /** The strategy used when no override applies: the requested one, or the inferred one. */
  function EffectiveStrategy(rq: Request): ScalingStrategy
  {
    if rq.strategy.Some? then rq.strategy.value
    else InferStrategy(rq.elementType, rq.device, rq.fluidParams.Some?,
                       rq.constraints.minValue.Some? && rq.constraints.maxValue.Some?)
  }

  /** A request the model computes: LOGARITHMIC needs a non-zero dimension. */
  predicate Defined(rq: Request)
  {
    EffectiveStrategy(rq) != LOGARITHMIC || Dimension(rq.config, rq.screenType, rq.baseOrientation) != 0.0
  }

  /** The unconstrained value of a strategy. */
  function RawValue(ln: real -> real, m: MathLib, rq: Request, s: ScalingStrategy): real
    requires s == LOGARITHMIC ==> Dimension(rq.config, rq.screenType, rq.baseOrientation) != 0.0
  {
    var c := rq.config;
    match s
    case DEFAULT => CalculateDefault(ln, rq.base, c, rq.screenType, rq.baseOrientation, rq.defaultParams)
    case PERCENTAGE => DC.CalculatePercentage(rq.base, Cfg(c), rq.screenType, rq.baseOrientation)
    case BALANCED => CalculateBalanced(ln, rq.base, c, rq.screenType, rq.baseOrientation, rq.perceptualParams)
    case LOGARITHMIC => CalculateLogarithmic(ln, rq.base, c, rq.screenType, rq.baseOrientation, rq.perceptualParams)
    case POWER => CalculatePower(ln, m, rq.base, c, rq.screenType, rq.baseOrientation, rq.perceptualParams)
    case FLUID =>
      var p := if rq.fluidParams.Some? then rq.fluidParams.value
               else FluidParams(rq.base * 0.8, rq.base * 1.2, 320.0, 768.0, false, None);
      CalculateFluid(ln, c, rq.screenType, rq.baseOrientation, p)
    case INTERPOLATED => CalculateInterpolated(ln, rq.base, c, rq.screenType, rq.baseOrientation, rq.interpolatedParams)
    case DIAGONAL => DC.CalculateDiagonal(m, rq.base, Cfg(c))
    case PERIMETER => DC.CalculatePerimeter(rq.base, Cfg(c))
    case FIT => DC.CalculateFit(rq.base, Cfg(c))
    case FILL => DC.CalculateFill(rq.base, Cfg(c))
    case AUTOSIZE => rq.base
    case NONE => rq.base
  }

  /** PERCENTAGE and PERIMETER are the dynamic strategies on the converted screen. */
  lemma SharedStrategies(ln: real -> real, m: MathLib, rq: Request)
    ensures RawValue(ln, m, rq, PERCENTAGE) == DC.CalculatePercentage(rq.base, Cfg(rq.config), rq.screenType, rq.baseOrientation)
    ensures RawValue(ln, m, rq, PERIMETER) == rq.base * ((rq.config.screenWidthDp + rq.config.screenHeightDp) / DC.BasePerimeter)
  {
  }

  /** For a non-negative base value FIT never exceeds FILL. */
  lemma GamesFitAtMostFill(ln: real -> real, m: MathLib, rq: Request)
    requires rq.base >= 0.0
    ensures RawValue(ln, m, rq, FIT) <= RawValue(ln, m, rq, FILL)
  {
    DC.FitAtMostFill(rq.base, Cfg(rq.config));
  }

  /** Without fluid parameters FLUID stays between 80% and 120% of the base value. */
  lemma FluidWithoutParams(ln: real -> real, m: MathLib, rq: Request)
    requires rq.fluidParams.None?
    ensures Min(rq.base * 0.8, rq.base * 1.2) <= RawValue(ln, m, rq, FLUID) <= Max(rq.base * 0.8, rq.base * 1.2)
  {
  }

  /**
   * `calculateUncached`: a qualifier override wins (constrained); otherwise
   * the effective strategy's value, constrained.  AUTOSIZE and NONE give the
   * constrained base value, and with ordered bounds (and no physical cap)
   * the result lies between them.
   */
  function CalculateUncached(ln: real -> real, m: MathLib, rq: Request): (r: real)
    requires Defined(rq)
    ensures var o := DC.ResolveQualifierOverride(Cfg(rq.config), rq.qualifiers);
      o.Some? ==> r == DC.ApplyConstraints(o.value, Cfg(rq.config), rq.constraints)
    ensures var o := DC.ResolveQualifierOverride(Cfg(rq.config), rq.qualifiers);
      o.None? && EffectiveStrategy(rq) in {AUTOSIZE, NONE} ==> r == DC.ApplyConstraints(rq.base, Cfg(rq.config), rq.constraints)
    ensures var k := rq.constraints;
      k.minValue.Some? && k.maxValue.Some? && k.minValue.value <= k.maxValue.value && k.maxPhysicalMm.None? ==>
        k.minValue.value <= r <= k.maxValue.value
  {
    var c := Cfg(rq.config);
    var o := DC.ResolveQualifierOverride(c, rq.qualifiers);
    if o.Some? then DC.ApplyConstraints(o.value, c, rq.constraints)
    else DC.ApplyConstraints(RawValue(ln, m, rq, EffectiveStrategy(rq)), c, rq.constraints)
  }

  /** Without a strategy but with an element type, the element's recommendation is what is computed. */
  lemma ElementTypeDecides(ln: real -> real, m: MathLib, rq: Request)
    requires Defined(rq)
    requires rq.strategy.None? && rq.elementType.Some?
    requires DC.ResolveQualifierOverride(Cfg(rq.config), rq.qualifiers).None?
    ensures CalculateUncached(ln, m, rq) ==
      DC.ApplyConstraints(RawValue(ln, m, rq, GameElements.GetRecommendedStrategy(rq.elementType.value)), Cfg(rq.config), rq.constraints)
  {
  }

  // ------------------------------------------------------------------
  // Cached entry point
  // ------------------------------------------------------------------

  /** The ordinal folded into the hash for an absent strategy or element type. */
  const AbsentOrdinal: int := -1

  /**
   * The key `calculate` looks the cache up with: the game hash of the base
   * value's bits, the three screen sizes, the strategy ordinal and the
   * element ordinal (-1 for an absent one).  The screen type and the design
   * orientation are not part of it.  An absent element folds the all-ones
   * word last.
   */
  function RequestHash(rq: Request, baseBits: bv32): (r: bv32)
    ensures rq.elementType.None? ==>
      r == GameCache.FnvStep(GameCache.ComputeHash(baseBits, rq.config.screenWidthDp, rq.config.screenHeightDp,
        rq.config.smallestScreenWidthDp, if rq.strategy.Some? then StrategyOrdinal(rq.strategy.value) else AbsentOrdinal),
        0xffff_ffff)
  {
    GameCache.ComputeGameHash(baseBits, rq.config.screenWidthDp, rq.config.screenHeightDp, rq.config.smallestScreenWidthDp,
      if rq.strategy.Some? then StrategyOrdinal(rq.strategy.value) else AbsentOrdinal,
      if rq.elementType.Some? then GameElements.Ordinal(rq.elementType.value) else AbsentOrdinal)
  }

  /** Requests that differ only in screen type or design orientation share a cache key. */
  lemma HashIgnoresScreenTypeAndOrientation(rq: Request, baseBits: bv32, st: ScreenType, b: BaseOrientation)
    ensures RequestHash(rq.(screenType := st, baseOrientation := b), baseBits) == RequestHash(rq, baseBits)
  {
  }

  /**
   * `calculate` as written: NONE returns the constrained base value without
   * touching the cache; every other request goes through `rememberFast`
   * under `RequestHash`, with the uncached value as what a miss computes.
   * The raw bits of the base value and the clock are inputs.
   */
  method Calculate(cache: GameCache.GameCacheFast<bv32>, ln: real -> real, m: MathLib, rq: Request,
                   baseBits: bv32, now: int) returns (r: real)
    requires cache.Valid() && Defined(rq)
    modifies cache.slots
    ensures rq.strategy == Some(NONE) ==>
      r == DC.ApplyConstraints(rq.base, Cfg(rq.config), rq.constraints) && cache.slots[..] == old(cache.slots[..])
    ensures rq.strategy != Some(NONE) ==>
      var h := RequestHash(rq, baseBits);
      var x := GameCache.Remember(old(cache.slots[..]), h, h, CalculateUncached(ln, m, rq), now);
      cache.slots[..] == x.slots && r == x.value
  {
    if rq.strategy == Some(NONE) {
      return DC.ApplyConstraints(rq.base, Cfg(rq.config), rq.constraints);
    }
    var hash := RequestHash(rq, baseBits);
    r := cache.RememberFast(hash, hash, CalculateUncached(ln, m, rq), now);
  }

  /** The bits of the `ordinal` of a screen type and of a design orientation. */
  function ScreenTypeBits(st: ScreenType): bv32
  {
    if st == LOWEST then 0 else 1
  }

  function OrientationBits(b: BaseOrientation): bv32
  {
    match b
    case PORTRAIT => 0
    case LANDSCAPE => 1
    case AUTO => 2
  }

  /** The corrected slot hash: the game hash with the screen type and design orientation folded in. */
  function CorrectedHash(rq: Request, baseBits: bv32): bv32
  {
    GameCache.FoldHash(RequestHash(rq, baseBits), [ScreenTypeBits(rq.screenType), OrientationBits(rq.baseOrientation)])
  }

  /** The uncached calculation as a function of the request, defined on the requests the model computes. */
  function Uncached(ln: real -> real, m: MathLib): Request --> real
  {
    rq requires Defined(rq) => CalculateUncached(ln, m, rq)
  }

  /**
   * The corrected cache step: the entry is keyed by the whole request (the
   * hash only selects the slot), so a table that holds uncached values keeps
   * holding them and every call returns exactly the uncached value.
   */
  lemma CorrectedCacheIsTransparent(ln: real -> real, m: MathLib, s: GameCache.Slots<Request>, rq: Request,
                                    baseBits: bv32, now: int)
    requires Defined(rq)
    requires |s| == GameCache.FastCacheSize && GameCache.Consistent(s, Uncached(ln, m))
    ensures var x := GameCache.Remember(s, CorrectedHash(rq, baseBits), rq, CalculateUncached(ln, m, rq), now);
      x.value == CalculateUncached(ln, m, rq) && GameCache.Consistent(x.slots, Uncached(ln, m))
  {
    assert Uncached(ln, m).requires(rq) && Uncached(ln, m)(rq) == CalculateUncached(ln, m, rq);
    GameCache.RememberIsTransparent(s, Uncached(ln, m), CorrectedHash(rq, baseBits), rq, now);
  }

  /**
   * `calculate` with the corrected cache: NONE as before; every other
   * request returns its uncached value, and the cache keeps holding only
   * uncached values.
   */
  method CalculateCorrected(cache: GameCache.GameCacheFast<Request>, ln: real -> real, m: MathLib, rq: Request,
                            baseBits: bv32, now: int) returns (r: real)
    requires cache.Valid() && Defined(rq)
    requires GameCache.Consistent(cache.slots[..], Uncached(ln, m))
    modifies cache.slots
    ensures rq.strategy == Some(NONE) ==> r == DC.ApplyConstraints(rq.base, Cfg(rq.config), rq.constraints)
    ensures rq.strategy != Some(NONE) ==> r == CalculateUncached(ln, m, rq)
    ensures GameCache.Consistent(cache.slots[..], Uncached(ln, m))
  {
    if rq.strategy == Some(NONE) {
      return DC.ApplyConstraints(rq.base, Cfg(rq.config), rq.constraints);
    }
    CorrectedCacheIsTransparent(ln, m, cache.slots[..], rq, baseBits, now);
    r := cache.RememberFast(CorrectedHash(rq, baseBits), rq, CalculateUncached(ln, m, rq), now);
  }

  // ------------------------------------------------------------------
  // The stale screen-type hit
  // ------------------------------------------------------------------

  /** A 400 x 800 dp portrait phone at 160 dpi. */
  const ExampleScreen: GameModels.GameScreenConfig := GameModels.GameScreenConfig(400.0, 800.0, 400.0, 160, Qualifiers.UiModeType(1))

  /** PERCENTAGE of 100 dp on that screen, for a given screen type, with no parameters set. */
  function ExampleRequest(st: ScreenType): Request
  {
    Request(100.0, Some(PERCENTAGE), None, ExampleScreen, OTHER, st, Screens.AUTO,
      DC.DefaultDefaultParams, DefaultPerceptualParams, None, InterpolatedParams(true, None),
      DC.Constraints(None, None, None), Qualifiers.NoQualifiers)
  }

  /** The example's uncached values: 400 x 0.003333333 x 100 for LOWEST, 800 x 0.003333333 x 100 for HIGHEST. */
  lemma ExampleValues(ln: real -> real, m: MathLib)
    ensures CalculateUncached(ln, m, ExampleRequest(LOWEST)) == 133.33332
    ensures CalculateUncached(ln, m, ExampleRequest(HIGHEST)) == 266.66664
  {
    assert Cfg(ExampleScreen).uiMode !in Qualifiers.NoQualifiers.uiModeMap;
    assert DC.ResolveQualifierOverride(Cfg(ExampleScreen), Qualifiers.NoQualifiers).None?;
  }

  /**
   * As written, on a cleared cache, a HIGHEST request after a LOWEST one
   * with the same base value, screen and strategy finds the LOWEST entry and
   * returns 133.33332 instead of its own 266.66664.
   */
  lemma StaleScreenTypeHit(ln: real -> real, m: MathLib, s: GameCache.Slots<bv32>, baseBits: bv32, now1: int, now2: int)
    requires |s| == GameCache.FastCacheSize && GameCache.AllEmpty(s)
    ensures var lo := ExampleRequest(LOWEST);
      var hi := ExampleRequest(HIGHEST);
      var h := RequestHash(lo, baseBits);
      var first := GameCache.Remember(s, h, h, CalculateUncached(ln, m, lo), now1);
      h == RequestHash(hi, baseBits) &&
      GameCache.Remember(first.slots, h, h, CalculateUncached(ln, m, hi), now2).value == 133.33332 &&
      CalculateUncached(ln, m, hi) == 266.66664
  {
    var lo := ExampleRequest(LOWEST);
    var hi := ExampleRequest(HIGHEST);
    HashIgnoresScreenTypeAndOrientation(lo, baseBits, HIGHEST, Screens.AUTO);
    assert hi == lo.(screenType := HIGHEST, baseOrientation := Screens.AUTO);
    StaleHitUnderKey(ln, m, s, RequestHash(lo, baseBits), now1, now2);
  }

  /** Under any key, the HIGHEST example stored after the LOWEST one on a cleared cache hits the LOWEST value. */
  lemma StaleHitUnderKey(ln: real -> real, m: MathLib, s: GameCache.Slots<bv32>, h: bv32, now1: int, now2: int)
    requires |s| == GameCache.FastCacheSize && GameCache.AllEmpty(s)
    ensures var first := GameCache.Remember(s, h, h, CalculateUncached(ln, m, ExampleRequest(LOWEST)), now1);
      GameCache.Remember(first.slots, h, h, CalculateUncached(ln, m, ExampleRequest(HIGHEST)), now2).value == 133.33332 &&
      CalculateUncached(ln, m, ExampleRequest(HIGHEST)) == 266.66664
  {
    ExampleValues(ln, m);
    GameCache.EmptyHasNoEntries(s);
    assert !GameCache.Hits(s, h, h);
    GameCache.RememberThenHit(s, h, h, CalculateUncached(ln, m, ExampleRequest(LOWEST)), now1,
      CalculateUncached(ln, m, ExampleRequest(HIGHEST)), now2);
  }

  /** With the corrected cache the same two calls return 133.33332 and then 266.66664. */
  lemma CorrectedScreenTypeMiss(ln: real -> real, m: MathLib, s: GameCache.Slots<Request>, baseBits: bv32, now1: int, now2: int)
    requires |s| == GameCache.FastCacheSize && GameCache.Consistent(s, Uncached(ln, m))
    ensures var lo := ExampleRequest(LOWEST);
      var hi := ExampleRequest(HIGHEST);
      var first := GameCache.Remember(s, CorrectedHash(lo, baseBits), lo, CalculateUncached(ln, m, lo), now1);
      first.value == 133.33332 &&
      GameCache.Remember(first.slots, CorrectedHash(hi, baseBits), hi, CalculateUncached(ln, m, hi), now2).value == 266.66664
  {
    ExampleValues(ln, m);
    var lo := ExampleRequest(LOWEST);
    var hi := ExampleRequest(HIGHEST);
    CorrectedCacheIsTransparent(ln, m, s, lo, baseBits, now1);
    var first := GameCache.Remember(s, CorrectedHash(lo, baseBits), lo, CalculateUncached(ln, m, lo), now1);
    CorrectedCacheIsTransparent(ln, m, first.slots, hi, baseBits, now2);
  }
}
