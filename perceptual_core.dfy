/**
 * `PerceptualCore`, the dynamic module's perceptual scaling engine: the
 * Weber-Fechner (logarithmic), Stevens (power) and hybrid (linear, then
 * logarithmic) scales, the aspect-ratio compensation, the resolution of
 * the base value through custom qualifiers, and the final scaled value.
 *
 * `kotlin.math.ln` and `Float.pow` come from the `MathLib` parameter.
 * The qualifier, intersection and orientation helpers of
 * `AdjustmentFactorsCore` compute exactly what those of
 * `AppDimensAdjustmentFactors` compute, and are taken from that module.
 */
module PerceptualCore {
  import opened Numerics
  import opened Screens
  import opened Qualifiers
  import AF = AdjustmentFactors
  import DC = DynamicCalculator
  import Extensions

  const BaseWidthDp: real := 300.0
  const ReferenceAr: real := 1.78
  const DefaultSensitivity: real := 0.40
  const DefaultPowerExponent: real := 0.75
  const DefaultTransitionPoint: real := 480.0
  const DefaultArSensitivity: real := 0.08

  /** `PerceptualConfig`: the base value and the parameters of the chosen model. */
  datatype PerceptualConfig = PerceptualConfig(
    baseValue: real,
    model: PerceptualModel,
    sensitivity: real,
    powerExponent: real,
    transitionPoint: real,
    applyAspectRatio: bool,
    arSensitivity: real,
    screenType: ScreenType,
    baseOrientation: BaseOrientation,
    customQualifiers: CustomQualifiers)

  /** `PerceptualConfig(baseValue)` with every other parameter at its default. */
  function DefaultConfig(baseValue: real): (c: PerceptualConfig)
    ensures c.baseValue == baseValue && c.model == BALANCED_MODEL && c.transitionPoint == DefaultTransitionPoint
  {
    PerceptualConfig(baseValue, BALANCED_MODEL, DefaultSensitivity, DefaultPowerExponent, DefaultTransitionPoint,
                     true, DefaultArSensitivity, LOWEST, AUTO, NoQualifiers)
  }

  /** `ScreenConfig`: the measures of the current screen, in dp, and its UI mode. */
  datatype ScreenConfig = ScreenConfig(smallestWidthDp: real, screenWidthDp: real, screenHeightDp: real, uiMode: UiModeType)

  /**
   * `ln` is 0 at 1 and does not decrease from 1 on, the two laws of the
   * logarithm the ordering lemmas use.
   */
  ghost predicate MonotoneFromOne(ln: real -> real)
  {
    && ln(1.0) == 0.0
    && forall x: real, y: real :: 1.0 <= x <= y ==> ln(x) <= ln(y)
  }

  // ------------------------------------------------------------------
  // Perceptual models
  // ------------------------------------------------------------------

  /**
   * `calculateWeberFechnerScale`: 1 at the 300 dp reference, growing with
   * the logarithm of the ratio above it and shrinking with the logarithm of
   * the inverse ratio below it.
   */
  function CalculateWeberFechnerScale(ln: real -> real, dimension: real, sensitivity: real): (r: real)
    requires dimension != 0.0
    ensures ln(1.0) == 0.0 && dimension == BaseWidthDp ==> r == 1.0
    ensures sensitivity == 0.0 ==> r == 1.0
  {
    if dimension <= BaseWidthDp then 1.0 - sensitivity * ln(BaseWidthDp / dimension)
    else 1.0 + sensitivity * ln(dimension / BaseWidthDp)
  }

  /**
   * The scale of a screen `x` times the reference and that of a screen `x`
   * times smaller lie symmetrically around 1.
   */
  lemma WeberFechnerReciprocal(ln: real -> real, x: real, sensitivity: real)
    requires x > 0.0 && ln(1.0) == 0.0
    ensures CalculateWeberFechnerScale(ln, BaseWidthDp * x, sensitivity)
          + CalculateWeberFechnerScale(ln, BaseWidthDp / x, sensitivity) == 2.0
  {
    var up := BaseWidthDp * x;
    var down := BaseWidthDp / x;
    assert down * x == BaseWidthDp;
    if x >= 1.0 {
      assert down <= BaseWidthDp by { Numerics.RatioAtLeastOne(up, BaseWidthDp); }
      assert BaseWidthDp / down == x;
      if up <= BaseWidthDp {
        assert x == 1.0;
      } else {
        assert up / BaseWidthDp == x;
      }
    } else {
      assert up < BaseWidthDp;
      assert down > BaseWidthDp;
      assert BaseWidthDp / up == 1.0 / x;
      assert down / BaseWidthDp == 1.0 / x;
    }
  }

  /** `a / x` does not grow with a positive `x`. */
  lemma DivAntitone(a: real, x: real, y: real)
    requires a >= 0.0 && 0.0 < x <= y
    ensures a / y <= a / x
  {
    assert a / x * x == a && a / y * y == a;
    assert a / y * x <= a / y * y;
  }

  /**
   * With a non-negative sensitivity and a logarithm that does not decrease,
   * the Weber-Fechner scale does not decrease with the dimension, and it is
   * on the same side of 1 as the dimension is of 300.
   */
  lemma WeberFechnerOrdered(ln: real -> real, d1: real, d2: real, sensitivity: real)
    requires 0.0 < d1 <= d2 && sensitivity >= 0.0 && MonotoneFromOne(ln)
    ensures CalculateWeberFechnerScale(ln, d1, sensitivity) <= CalculateWeberFechnerScale(ln, d2, sensitivity)
    ensures d1 >= BaseWidthDp ==> CalculateWeberFechnerScale(ln, d1, sensitivity) >= 1.0
    ensures d2 <= BaseWidthDp ==> CalculateWeberFechnerScale(ln, d2, sensitivity) <= 1.0
  {
    if d2 <= BaseWidthDp {
      WeberFechnerBelow(ln, d1, d2, sensitivity);
    } else if d1 > BaseWidthDp {
      WeberFechnerAbove(ln, d1, d2, sensitivity);
    } else {
      WeberFechnerBelow(ln, d1, d1, sensitivity);
      WeberFechnerAbove(ln, d2, d2, sensitivity);
    }
  }

  /** Up to the reference the scale grows with the dimension and stays at most 1. */
  lemma WeberFechnerBelow(ln: real -> real, d1: real, d2: real, sensitivity: real)
    requires 0.0 < d1 <= d2 <= BaseWidthDp && sensitivity >= 0.0 && MonotoneFromOne(ln)
    ensures CalculateWeberFechnerScale(ln, d1, sensitivity) <= CalculateWeberFechnerScale(ln, d2, sensitivity) <= 1.0
  {
    var q1 := BaseWidthDp / d1;
    var q2 := BaseWidthDp / d2;
    DivAntitone(BaseWidthDp, d1, d2);
    Numerics.RatioAtLeastOne(BaseWidthDp, d2);
    MonotoneStep(ln, q2, q1, sensitivity);
    MonotoneStep(ln, 1.0, q2, sensitivity);
  }

  /** Past the reference the scale grows with the dimension and stays at least 1. */
  lemma WeberFechnerAbove(ln: real -> real, d1: real, d2: real, sensitivity: real)
    requires BaseWidthDp < d1 <= d2 && sensitivity >= 0.0 && MonotoneFromOne(ln)
    ensures 1.0 <= CalculateWeberFechnerScale(ln, d1, sensitivity) <= CalculateWeberFechnerScale(ln, d2, sensitivity)
  {
    var q1 := d1 / BaseWidthDp;
    var q2 := d2 / BaseWidthDp;
    assert q1 <= q2;
    Numerics.RatioAtLeastOne(d1, BaseWidthDp);
    MonotoneStep(ln, q1, q2, sensitivity);
    MonotoneStep(ln, 1.0, q1, sensitivity);
  }

  /** One step of the monotone logarithm, scaled by a non-negative sensitivity. */
  lemma MonotoneStep(ln: real -> real, x: real, y: real, sensitivity: real)
    requires 1.0 <= x <= y && sensitivity >= 0.0 && MonotoneFromOne(ln)
    ensures sensitivity * ln(x) <= sensitivity * ln(y)
    ensures sensitivity * ln(x) >= 0.0
  {
    assert ln(1.0) <= ln(x) <= ln(y);
    Extensions.MulNonNeg(sensitivity, ln(y) - ln(x));
    Extensions.MulNonNeg(sensitivity, ln(x));
  }

  /**
   * `calculateStevensScale`: the ratio to 300 raised to the exponent, the
   * same factor the dynamic calculator's POWER strategy applies; 1 at the
   * reference.
   */
  function CalculateStevensScale(m: MathLib, dimension: real, powerExponent: real): (r: real)
    ensures r == DC.PowerScale(m, dimension, powerExponent)
    ensures Lawful(m) && dimension == BaseWidthDp ==> r == 1.0
  {
    var ratio := dimension / BaseWidthDp;
    m.pow(ratio, powerExponent)
  }

  /** The logarithmic branch of the hybrid scale, past the transition point. */
  function HybridLogBranch(ln: real -> real, dimension: real, sensitivity: real, transitionPoint: real): real
  {
    var excess := dimension - transitionPoint;
    var baseLinear := transitionPoint / BaseWidthDp;
    var logGrowth := sensitivity * ln(1.0 + excess / BaseWidthDp);
    baseLinear + logGrowth
  }

  /**
   * `calculateHybridScale`: the linear ratio to 300 up to the transition
   * point, the logarithmic branch past it.
   */
  function CalculateHybridScale(ln: real -> real, dimension: real, sensitivity: real, transitionPoint: real): (r: real)
    ensures dimension <= transitionPoint ==> r * BaseWidthDp == dimension
    ensures dimension > transitionPoint ==> r == HybridLogBranch(ln, dimension, sensitivity, transitionPoint)
  {
    var linearScale := dimension / BaseWidthDp;
    if dimension <= transitionPoint then linearScale
    else HybridLogBranch(ln, dimension, sensitivity, transitionPoint)
  }

  /**
   * The two branches meet at the transition point: the logarithmic branch
   * evaluated there gives the linear value, so the scale has no jump.
   */
  lemma HybridContinuousAtTransition(ln: real -> real, sensitivity: real, transitionPoint: real)
    requires ln(1.0) == 0.0
    ensures HybridLogBranch(ln, transitionPoint, sensitivity, transitionPoint)
         == CalculateHybridScale(ln, transitionPoint, sensitivity, transitionPoint)
  {
    assert 1.0 + (transitionPoint - transitionPoint) / BaseWidthDp == 1.0;
  }

  /**
   * With a non-negative sensitivity and a logarithm that does not decrease,
   * the hybrid scale does not decrease with the dimension, and past the
   * transition point it never falls below the linear value at that point.
   */
  lemma HybridMonotone(ln: real -> real, d1: real, d2: real, sensitivity: real, transitionPoint: real)
    requires d1 <= d2 && sensitivity >= 0.0 && MonotoneFromOne(ln)
    ensures CalculateHybridScale(ln, d1, sensitivity, transitionPoint) <= CalculateHybridScale(ln, d2, sensitivity, transitionPoint)
    ensures d2 > transitionPoint ==>
      CalculateHybridScale(ln, d2, sensitivity, transitionPoint) >= transitionPoint / BaseWidthDp
  {
    var u1 := 1.0 + (d1 - transitionPoint) / BaseWidthDp;
    var u2 := 1.0 + (d2 - transitionPoint) / BaseWidthDp;
    if d2 > transitionPoint {
      assert u2 >= 1.0;
      MonotoneStep(ln, 1.0, u2, sensitivity);
      if d1 > transitionPoint {
        assert 1.0 <= u1 <= u2;
        MonotoneStep(ln, u1, u2, sensitivity);
      } else {
        assert d1 / BaseWidthDp <= transitionPoint / BaseWidthDp;
      }
    }
  }

  /** `calculatePerceptualScale`: the scale of the configured model. */
  function CalculatePerceptualScale(m: MathLib, dimension: real, config: PerceptualConfig): (r: real)
    requires config.model == LOGARITHMIC_MODEL ==> dimension != 0.0
    ensures (Lawful(m) && dimension == BaseWidthDp &&
             (config.model == BALANCED_MODEL ==> config.transitionPoint >= BaseWidthDp)) ==> r == 1.0
    ensures config.model == BALANCED_MODEL && dimension <= config.transitionPoint ==> r * BaseWidthDp == dimension
  {
    match config.model
    case LOGARITHMIC_MODEL => CalculateWeberFechnerScale(m.ln, dimension, config.sensitivity)
    case POWER_MODEL => CalculateStevensScale(m, dimension, config.powerExponent)
    case BALANCED_MODEL => CalculateHybridScale(m.ln, dimension, config.sensitivity, config.transitionPoint)
  }

  // ------------------------------------------------------------------
  // Aspect ratio compensation
  // ------------------------------------------------------------------

  /**
   * `calculateAspectRatioFactor`: one plus the sensitivity times the
   * logarithm of the screen's aspect ratio (larger side over smaller side)
   * relative to 1.78.
   */
  function CalculateAspectRatioFactor(ln: real -> real, width: real, height: real, arSensitivity: real): (r: real)
    requires Min(width, height) != 0.0
    ensures r == 1.0 + arSensitivity * ln(AF.GetReferenceAspectRatio(width, height) / ReferenceAr)
    ensures arSensitivity == 0.0 ==> r == 1.0
  {
    var currentAr := Max(width, height) / Min(width, height);
    var arAdjustment := arSensitivity * ln(currentAr / ReferenceAr);
    1.0 + arAdjustment
  }

  /** At the 1.78 reference ratio the factor is 1, given ln(1) = 0. */
  lemma AspectRatioFactorAtReference(ln: real -> real, width: real, height: real, arSensitivity: real)
    requires Min(width, height) != 0.0 && ln(1.0) == 0.0
    requires Max(width, height) == ReferenceAr * Min(width, height)
    ensures CalculateAspectRatioFactor(ln, width, height, arSensitivity) == 1.0
  {
    assert Max(width, height) / Min(width, height) == ReferenceAr;
  }

  /** Rotating the screen does not change the factor. */
  lemma AspectRatioFactorSwapSymmetric(ln: real -> real, width: real, height: real, arSensitivity: real)
    requires Min(width, height) != 0.0
    ensures CalculateAspectRatioFactor(ln, width, height, arSensitivity)
         == CalculateAspectRatioFactor(ln, height, width, arSensitivity)
  {
    AF.AspectRatioSwapSymmetric(width, height);
  }

  // ------------------------------------------------------------------
  // Qualifier resolution
  // ------------------------------------------------------------------

  /** An intersection entry applies: same UI mode, and the screen reaches its size qualifier. */
  predicate IntersectionMatches(sc: ScreenConfig, e: UiModeQualifierEntry)
  {
    && e.uiModeType == sc.uiMode
    && AF.ResolveIntersectionCondition(e.dpQualifierEntry, sc.smallestWidthDp, sc.screenWidthDp, sc.screenHeightDp)
  }

  predicate NoIntersectionMatches(sc: ScreenConfig, q: CustomQualifiers)
  {
    forall i :: 0 <= i < |q.intersectionMap| ==> !IntersectionMatches(sc, q.intersectionMap[i].0)
  }

  /**
   * `resolveFinalBaseDp`: the value of the applicable intersection entry
   * with the largest threshold; else the value for the current UI mode;
   * else the size-qualifier search started from the configured base value.
   */
  function ResolveFinalBaseDp(sc: ScreenConfig, config: PerceptualConfig): (r: real)
    ensures (exists i :: 0 <= i < |config.customQualifiers.intersectionMap| &&
               IntersectionMatches(sc, config.customQualifiers.intersectionMap[i].0)) ==>
      exists i :: 0 <= i < |config.customQualifiers.intersectionMap| &&
        IntersectionMatches(sc, config.customQualifiers.intersectionMap[i].0) &&
        r == config.customQualifiers.intersectionMap[i].1 &&
        (forall j :: (0 <= j < |config.customQualifiers.intersectionMap| &&
                      IntersectionMatches(sc, config.customQualifiers.intersectionMap[j].0)) ==>
           IntersectionThreshold(config.customQualifiers.intersectionMap[j].0)
             <= IntersectionThreshold(config.customQualifiers.intersectionMap[i].0)) &&
        forall j :: (0 <= j < i && IntersectionMatches(sc, config.customQualifiers.intersectionMap[j].0)) ==>
          IntersectionThreshold(config.customQualifiers.intersectionMap[j].0)
            < IntersectionThreshold(config.customQualifiers.intersectionMap[i].0)
    ensures NoIntersectionMatches(sc, config.customQualifiers) && sc.uiMode in config.customQualifiers.uiModeMap ==>
      r == config.customQualifiers.uiModeMap[sc.uiMode]
    ensures NoIntersectionMatches(sc, config.customQualifiers) && sc.uiMode !in config.customQualifiers.uiModeMap ==>
      r == AF.QualifierDp(config.customQualifiers.dpMap, sc.smallestWidthDp, sc.screenWidthDp, sc.screenHeightDp, config.baseValue)
  {
    var qualifiers := config.customQualifiers;
    var foundIntersection := SelectValue(qualifiers.intersectionMap,
                                         (e: UiModeQualifierEntry) => IntersectionMatches(sc, e), IntersectionThreshold);
    if foundIntersection.Some? then foundIntersection.value
    else if sc.uiMode in qualifiers.uiModeMap then qualifiers.uiModeMap[sc.uiMode]
    else AF.QualifierDp(qualifiers.dpMap, sc.smallestWidthDp, sc.screenWidthDp, sc.screenHeightDp, config.baseValue)
  }

  /** Without custom qualifiers the configured base value is used. */
  lemma NoQualifiersKeepBase(sc: ScreenConfig, config: PerceptualConfig)
    requires config.customQualifiers == NoQualifiers
    ensures ResolveFinalBaseDp(sc, config) == config.baseValue
  {
    assert !AF.SomePasses([], SMALL_WIDTH, sc.smallestWidthDp);
    assert !AF.SomePasses([], HEIGHT, sc.screenHeightDp);
    assert !AF.SomePasses([], WIDTH, sc.screenWidthDp);
  }

  // ------------------------------------------------------------------
  // Final value
  // ------------------------------------------------------------------

  /** `createConfigurationFromScreenConfig`: the measures truncated to whole dp. */
  function ConfigurationOf(sc: ScreenConfig): AF.Configuration
  {
    AF.Configuration(FloatToInt(sc.screenWidthDp), FloatToInt(sc.screenHeightDp), FloatToInt(sc.smallestWidthDp))
  }

  /**
   * The dimension the scale reads: the larger side for HIGHEST, the
   * smallest width for LOWEST, after the orientation rule has been applied
   * to the truncated configuration.
   */
  function DimensionToUse(sc: ScreenConfig, config: PerceptualConfig): (d: real)
    ensures d == sc.smallestWidthDp || d == Max(sc.screenWidthDp, sc.screenHeightDp)
    ensures config.baseOrientation == AUTO ==>
      d == (if config.screenType == HIGHEST then Max(sc.screenWidthDp, sc.screenHeightDp) else sc.smallestWidthDp)
  {
    var effectiveScreenType := AF.ResolveScreenType(config.screenType, config.baseOrientation, ConfigurationOf(sc));
    match effectiveScreenType
    case HIGHEST => Max(sc.screenWidthDp, sc.screenHeightDp)
    case LOWEST => sc.smallestWidthDp
  }

  /**
   * On whole-dp measures the truncated configuration resolves the screen
   * type exactly as the measures themselves do.
   */
  lemma WholeDpOrientation(sc: ScreenConfig, t: ScreenType, b: BaseOrientation)
    requires WholeInt32(sc.screenWidthDp) && WholeInt32(sc.screenHeightDp)
    ensures AF.ResolveScreenType(t, b, ConfigurationOf(sc)) == Screens.ResolveScreenType(t, b, sc.screenWidthDp, sc.screenHeightDp)
  {
    WholeTruncates(sc.screenWidthDp);
    WholeTruncates(sc.screenHeightDp);
  }

  /** A whole number strictly inside the 32-bit range. */
  predicate WholeInt32(x: real)
  {
    x == x.Floor as real && Int32Min as real < x < Int32Max as real
  }

  /** `toInt()` keeps a whole number in range. */
  lemma WholeTruncates(x: real)
    requires WholeInt32(x)
    ensures FloatToInt(x) as real == x
  {
    if x < 0.0 {
      assert (-x).Floor == -(x.Floor);
    }
  }

  /** The inputs on which `calculateScaledValue` divides by no zero. */
  predicate Defined(sc: ScreenConfig, config: PerceptualConfig)
  {
    && (config.model == LOGARITHMIC_MODEL ==> DimensionToUse(sc, config) != 0.0)
    && (config.applyAspectRatio ==> Min(sc.screenWidthDp, sc.screenHeightDp) != 0.0)
  }

  /** The aspect-ratio factor, or 1 when the compensation is off. */
  function ArFactor(ln: real -> real, sc: ScreenConfig, config: PerceptualConfig): (r: real)
    requires config.applyAspectRatio ==> Min(sc.screenWidthDp, sc.screenHeightDp) != 0.0
    ensures !config.applyAspectRatio ==> r == 1.0
  {
    if config.applyAspectRatio then CalculateAspectRatioFactor(ln, sc.screenWidthDp, sc.screenHeightDp, config.arSensitivity)
    else 1.0
  }

  /**
   * `calculateScaledValue`: the resolved base value times the perceptual
   * scale of the resolved dimension times the aspect-ratio factor.  On a
   * reference screen (the dimension is 300, and the aspect ratio is 1.78
   * or not compensated) the resolved base value comes back unchanged.
   */
  function CalculateScaledValue(m: MathLib, sc: ScreenConfig, config: PerceptualConfig): (r: real)
    requires Defined(sc, config)
    ensures (Lawful(m) && DimensionToUse(sc, config) == BaseWidthDp &&
             (config.model == BALANCED_MODEL ==> config.transitionPoint >= BaseWidthDp) &&
             ArFactor(m.ln, sc, config) == 1.0) ==> r == ResolveFinalBaseDp(sc, config)
  {
    var baseValue := ResolveFinalBaseDp(sc, config);
    var dimensionToUse := DimensionToUse(sc, config);
    var arFactor := ArFactor(m.ln, sc, config);
    ScaledBy(m, baseValue, dimensionToUse, arFactor, config)
  }

  /** The resolved base value times the perceptual scale of the dimension times the aspect-ratio factor. */
  function ScaledBy(m: MathLib, baseValue: real, dimension: real, arFactor: real, config: PerceptualConfig): real
    requires config.model == LOGARITHMIC_MODEL ==> dimension != 0.0
  {
    baseValue * CalculatePerceptualScale(m, dimension, config) * arFactor
  }

  /**
   * On a screen of the 1.78 reference ratio whose resolved dimension is 300,
   * a default configuration without qualifiers returns its base value.
   */
  lemma ReferenceScreenKeepsBase(m: MathLib, sc: ScreenConfig, baseValue: real)
    requires Lawful(m) && Min(sc.screenWidthDp, sc.screenHeightDp) != 0.0
    requires Max(sc.screenWidthDp, sc.screenHeightDp) == ReferenceAr * Min(sc.screenWidthDp, sc.screenHeightDp)
    requires sc.smallestWidthDp == BaseWidthDp
    ensures CalculateScaledValue(m, sc, DefaultConfig(baseValue)) == baseValue
  {
    var config := DefaultConfig(baseValue);
    AspectRatioFactorAtReference(m.ln, sc.screenWidthDp, sc.screenHeightDp, config.arSensitivity);
    NoQualifiersKeepBase(sc, config);
  }

  /**
   * With AUTO orientation and no custom qualifiers, rotating the screen
   * (swapping width and height) leaves the scaled value unchanged.
   */
  lemma AutoWithoutQualifiersIgnoresRotation(m: MathLib, sc: ScreenConfig, config: PerceptualConfig)
    requires config.baseOrientation == AUTO && config.customQualifiers == NoQualifiers
    requires Defined(sc, config)
    ensures Defined(sc.(screenWidthDp := sc.screenHeightDp, screenHeightDp := sc.screenWidthDp), config)
    ensures CalculateScaledValue(m, sc, config)
         == CalculateScaledValue(m, sc.(screenWidthDp := sc.screenHeightDp, screenHeightDp := sc.screenWidthDp), config)
  {
    var rotated := sc.(screenWidthDp := sc.screenHeightDp, screenHeightDp := sc.screenWidthDp);
    assert Min(sc.screenWidthDp, sc.screenHeightDp) == Min(rotated.screenWidthDp, rotated.screenHeightDp);
    RotatedParts(m, sc, config);
    SameParts(m, sc, rotated, config);
  }

  /** Rotation under AUTO without qualifiers keeps each factor of the scaled value. */
  lemma RotatedParts(m: MathLib, sc: ScreenConfig, config: PerceptualConfig)
    requires config.baseOrientation == AUTO && config.customQualifiers == NoQualifiers
    requires config.applyAspectRatio ==> Min(sc.screenWidthDp, sc.screenHeightDp) != 0.0
    ensures var rotated := sc.(screenWidthDp := sc.screenHeightDp, screenHeightDp := sc.screenWidthDp);
      && DimensionToUse(rotated, config) == DimensionToUse(sc, config)
      && ArFactor(m.ln, rotated, config) == ArFactor(m.ln, sc, config)
      && ResolveFinalBaseDp(rotated, config) == ResolveFinalBaseDp(sc, config)
  {
    var rotated := sc.(screenWidthDp := sc.screenHeightDp, screenHeightDp := sc.screenWidthDp);
    assert Max(sc.screenWidthDp, sc.screenHeightDp) == Max(rotated.screenWidthDp, rotated.screenHeightDp);
    if config.applyAspectRatio {
      AspectRatioFactorSwapSymmetric(m.ln, sc.screenWidthDp, sc.screenHeightDp, config.arSensitivity);
    }
    NoQualifiersKeepBase(sc, config);
    NoQualifiersKeepBase(rotated, config);
  }

  /** Two screens whose three factors agree have the same scaled value. */
  lemma SameParts(m: MathLib, sc1: ScreenConfig, sc2: ScreenConfig, config: PerceptualConfig)
    requires Defined(sc1, config) && Defined(sc2, config)
    requires DimensionToUse(sc1, config) == DimensionToUse(sc2, config)
    requires ArFactor(m.ln, sc1, config) == ArFactor(m.ln, sc2, config)
    requires ResolveFinalBaseDp(sc1, config) == ResolveFinalBaseDp(sc2, config)
    ensures CalculateScaledValue(m, sc1, config) == CalculateScaledValue(m, sc2, config)
  {
  }
}
