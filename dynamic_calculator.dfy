/**
 * The unified calculator of the dynamic Android module
 * (`core/calculation/Calculator.kt`): thirteen scaling strategies, custom
 * qualifier overrides, weighted strategy inference, fluid configuration
 * resolution and constraint clamping.
 *
 * The per-call `CalculationCache` only memoises values that each strategy
 * reads once (the smaller and larger side, the aspect ratio), so it has no
 * observable effect and the model computes those values directly.  `fastLn`
 * reads the logarithm table in the order written (see
 * `LnTables.DynamicLookupMisses`).
 */
module DynamicCalculator {
  import opened Numerics
  import opened Screens
  import opened Qualifiers
  import LnTables
  import Extensions
  import Fluid

  const BaseWidthDp: real := 300.0
  const BaseHeightDp: real := 533.0
  const ReferenceAr: real := 1.78
  const DefaultSensitivity: real := 0.40
  const DefaultPowerExponent: real := 0.75
  const DefaultTransitionPoint: real := 480.0
  const DefaultArSensitivity: real := 0.08 / 30.0
  const BaseIncrement: real := 0.10 / 30.0
  const BaseDiagonal: real := 611.6305
  const BasePerimeter: real := 833.0
  /** The multiplicative shortcuts the source uses instead of dividing by 300 and by 1.78. */
  const InvBaseWidthDp: real := 0.003333333
  const InvReferenceAr: real := 0.5617978
  /** The slope of the DEFAULT strategy when the aspect ratio is ignored. */
  const DefaultSlope: real := 0.00333

  /** `CalculationConfig`: a snapshot of the screen. */
  datatype CalculationConfig = CalculationConfig(
    screenWidthDp: real,
    screenHeightDp: real,
    smallestScreenWidthDp: real,
    densityDpi: int,
    uiMode: UiModeType)

  /** Both sides positive: the aspect ratio and the logarithmic strategy divide by them. */
  predicate ValidScreen(c: CalculationConfig)
  {
    c.screenWidthDp > 0.0 && c.screenHeightDp > 0.0
  }

  function Smallest(c: CalculationConfig): real
  {
    Min(c.screenWidthDp, c.screenHeightDp)
  }

  function Largest(c: CalculationConfig): real
  {
    Max(c.screenWidthDp, c.screenHeightDp)
  }

  /** `getAspectRatio`: the larger side over the smaller one. */
  function AspectRatio(c: CalculationConfig): (ar: real)
    requires ValidScreen(c)
    ensures ar >= 1.0
  {
    Numerics.RatioAtLeastOne(Largest(c), Smallest(c));
    Largest(c) / Smallest(c)
  }

  /** The ratio times the smaller side is the larger side. */
  lemma AspectRatioRelatesSides(c: CalculationConfig)
    requires ValidScreen(c)
    ensures AspectRatio(c) * Smallest(c) == Largest(c)
  {
  }

  /** The dimension a strategy reads after orientation handling. */
  function Dimension(c: CalculationConfig, t: ScreenType, b: BaseOrientation): real
  {
    OrientedDimension(t, b, c.screenWidthDp, c.screenHeightDp)
  }

  datatype DefaultParams = DefaultParams(applyAspectRatio: bool, arSensitivity: Option<real>)

  datatype PerceptualParams = PerceptualParams(
    model: PerceptualModel,
    sensitivity: real,
    powerExponent: real,
    transitionPoint: real,
    applyAspectRatio: bool,
    arSensitivity: real)

  const DefaultDefaultParams: DefaultParams := DefaultParams(true, None)
  const DefaultPerceptualParams: PerceptualParams :=
    PerceptualParams(BALANCED_MODEL, DefaultSensitivity, DefaultPowerExponent, DefaultTransitionPoint, true, DefaultArSensitivity)

  datatype FluidParams = FluidParams(
    minValue: real,
    maxValue: real,
    minWidth: real,
    maxWidth: real,
    deviceQualifiers: map<Fluid.FluidDeviceType, Fluid.FluidConfig>,
    screenQualifiers: seq<(int, Fluid.FluidConfig)>)

  datatype Constraints = Constraints(minValue: Option<real>, maxValue: Option<real>, maxPhysicalMm: Option<real>)

  /** The element types the inference table distinguishes. */
  datatype ElementType =
    | BUTTON | TEXT | ICON | CONTAINER | SPACING | CARD | DIALOG | TOOLBAR | FAB
    | CHIP | LIST_ITEM | IMAGE | BADGE | DIVIDER | NAVIGATION | INPUT | HEADER | GENERIC

  /**
   * `DeviceType` as the inference reads it.  Its classification
   * (`DeviceType.from`) is an input here; `OTHER` stands for any further
   * category, carrying whether it compares at or above TABLET_SMALL.
   */
  datatype DeviceType = PHONE_SMALL | PHONE_LARGE | TABLET_SMALL | TABLET_LARGE | TV | OTHER(atLeastTabletSmall: bool)

  predicate AtLeastTabletSmall(d: DeviceType)
  {
    match d
    case PHONE_SMALL => false
    case PHONE_LARGE => false
    case TABLET_SMALL => true
    case TABLET_LARGE => true
    case TV => true
    case OTHER(b) => b
  }

  /**
   * `fastLn` as the dynamic calculator runs it: over its table with the keys
   * in the order they are listed (2.25 before 2.243, see `LnTables`), falling
   * back to the platform logarithm.  The strategies take the logarithm as a
   * parameter `ln`, so that their proofs do not depend on the table's hundred
   * entries; this is the one `calculate` uses.
   */
  function Ln(m: MathLib): real -> real
  {
    LnTables.CalculatorTablesZeroNearOne(m);
    LnTables.FastLnOf(LnTables.DynamicTable, m)
  }

  /** That logarithm vanishes near 1. */
  lemma LnVanishesNearOne(m: MathLib)
    ensures LnTables.VanishesNearOne(Ln(m))
  {
    LnTables.CalculatorTablesZeroNearOne(m);
  }

  // ------------------------------------------------------------------
  // Strategies
  // ------------------------------------------------------------------

  /**
   * DEFAULT: the base value grows by a fixed fraction per dp above 300 (the
   * fraction itself growing with the aspect ratio when that is enabled).  At
   * the reference width the base value is returned unchanged.
   */
  function CalculateDefault(ln: real -> real, base: real, c: CalculationConfig, st: ScreenType, b: BaseOrientation, p: DefaultParams): (r: real)
    requires ValidScreen(c)
    ensures Dimension(c, st, b) == BaseWidthDp ==> r == base
    ensures !p.applyAspectRatio && base > 0.0 ==> (r > base <==> Dimension(c, st, b) > BaseWidthDp)
  {
    var difference := Dimension(c, st, b) - BaseWidthDp;
    var factor := DefaultFactor(ln, difference, p, AspectRatio(c));
    ScaleAboveOne(base, factor, difference * DefaultSlope);
    base * factor
  }

  /**
   * The factor DEFAULT applies `difference` dp above 300 on a screen of
   * aspect ratio `ar` (the games calculator applies it too): 1 at the
   * reference width, and a fixed slope when the aspect ratio is ignored.
   */
  function DefaultFactor(ln: real -> real, difference: real, p: DefaultParams, ar: real): (r: real)
    ensures difference == 0.0 ==> r == 1.0
    ensures !p.applyAspectRatio ==> r == 1.0 + difference * DefaultSlope
  {
    if p.applyAspectRatio then
      var sensitivity := if p.arSensitivity.Some? then p.arSensitivity.value else DefaultArSensitivity;
      1.0 + difference * (BaseIncrement + sensitivity * ln(ar * InvReferenceAr))
    else 1.0 + difference * DefaultSlope
  }

  /** Scaling a positive base by `1 + x` increases it exactly when `x` is positive. */
  lemma ScaleAboveOne(base: real, factor: real, x: real)
    ensures factor == 1.0 + x && base > 0.0 ==> (base * factor > base <==> x > 0.0)
  {
    if factor == 1.0 + x && base > 0.0 {
      assert base * factor - base == base * x;
      if x > 0.0 {
        assert base * x > 0.0;
      } else {
        Extensions.MulNonNeg(base, -x);
      }
    }
  }

  /**
   * PERCENTAGE: proportional to the resolved dimension.  A zero dimension
   * gives zero, and a positive base grows exactly when the dimension's ratio
   * to the reference (taken with the constant 0.003333333) exceeds 1.
   */
  function CalculatePercentage(base: real, c: CalculationConfig, st: ScreenType, b: BaseOrientation): (r: real)
    ensures Dimension(c, st, b) == 0.0 ==> r == 0.0
    ensures base > 0.0 ==> (r > base <==> Dimension(c, st, b) * InvBaseWidthDp > 1.0)
  {
    var ratio := Dimension(c, st, b) * InvBaseWidthDp;
    ScaleAboveOne(base, ratio, ratio - 1.0);
    Proportional(base, Dimension(c, st, b))
  }

  /** The base scaled by a dimension's ratio to the 300dp reference. */
  function Proportional(base: real, dimensionDp: real): real
  {
    base * (dimensionDp * InvBaseWidthDp)
  }

  /**
   * BALANCED: proportional (the PERCENTAGE value) up to the transition point,
   * then logarithmic growth from the value at the transition point.
   */
  function CalculateBalanced(ln: real -> real, base: real, c: CalculationConfig, st: ScreenType, b: BaseOrientation, p: PerceptualParams): (r: real)
    ensures Dimension(c, st, b) <= p.transitionPoint ==> r == CalculatePercentage(base, c, st, b)
    ensures Dimension(c, st, b) > p.transitionPoint ==>
      r == base * (p.transitionPoint * InvBaseWidthDp) +
           base * p.sensitivity * ln(1.0 + (Dimension(c, st, b) - p.transitionPoint) * InvBaseWidthDp)
  {
    base * BalancedScale(ln, Dimension(c, st, b), p)
  }

  /** The factor BALANCED applies at a dimension (the games calculator applies it too). */
  function BalancedScale(ln: real -> real, screenDp: real, p: PerceptualParams): real
  {
    if screenDp <= p.transitionPoint then screenDp * InvBaseWidthDp
    else
      var excess := screenDp - p.transitionPoint;
      (p.transitionPoint * InvBaseWidthDp) + p.sensitivity * ln(1.0 + excess * InvBaseWidthDp)
  }

  /**
   * BALANCED is continuous at the transition point: with a logarithm that
   * vanishes near 1, the logarithmic branch evaluated at the
   * transition point gives the linear branch's value there.
   */
  lemma BalancedContinuous(ln: real -> real, base: real, p: PerceptualParams)
    requires LnTables.VanishesNearOne(ln)
    ensures base * ((p.transitionPoint * InvBaseWidthDp) + p.sensitivity * ln(1.0 + (p.transitionPoint - p.transitionPoint) * InvBaseWidthDp))
      == base * (p.transitionPoint * InvBaseWidthDp)
  {
    assert ln(1.0 + (p.transitionPoint - p.transitionPoint) * InvBaseWidthDp) == 0.0;
  }

  /**
   * LOGARITHMIC: one plus (or minus) the sensitivity times the log of the
   * ratio to 300.  With a logarithm that vanishes near 1 the base is
   * unchanged at the 300dp reference.
   */
  function CalculateLogarithmic(ln: real -> real, base: real, c: CalculationConfig, st: ScreenType, b: BaseOrientation, p: PerceptualParams): (r: real)
    requires ValidScreen(c)
    ensures LnTables.VanishesNearOne(ln) && Dimension(c, st, b) == BaseWidthDp ==> r == base
  {
    var screenDp := Dimension(c, st, b);
    assert screenDp == BaseWidthDp ==> LogarithmicScale(ln, screenDp, p.sensitivity) == 1.0 - p.sensitivity * ln(1.0);
    base * LogarithmicScale(ln, screenDp, p.sensitivity)
  }

  /** The factor LOGARITHMIC applies at a non-zero dimension. */
  function LogarithmicScale(ln: real -> real, screenDp: real, sensitivity: real): real
    requires screenDp != 0.0
  {
    if screenDp > BaseWidthDp then 1.0 + sensitivity * ln(screenDp * InvBaseWidthDp)
    else 1.0 - sensitivity * ln(BaseWidthDp / screenDp)
  }

  /** POWER: the ratio to 300 raised to the exponent. */
  function CalculatePower(m: MathLib, base: real, c: CalculationConfig, t: ScreenType, b: BaseOrientation, p: PerceptualParams): (r: real)
    ensures Lawful(m) && Dimension(c, t, b) == BaseWidthDp ==> r == base
  {
    base * PowerScale(m, Dimension(c, t, b), p.powerExponent)
  }

  /** The factor POWER applies: the ratio to 300 raised to the exponent. */
  function PowerScale(m: MathLib, screenDp: real, exponent: real): real
  {
    m.pow(screenDp / BaseWidthDp, exponent)
  }

  /** `inferDeviceType`: the fluid device class of the smaller side. */
  function InferDeviceType(smallestDp: real): (d: Fluid.FluidDeviceType)
    ensures d == Fluid.WATCH <==> smallestDp < 300.0
    ensures d == Fluid.PHONE <==> 300.0 <= smallestDp < 600.0
    ensures d == Fluid.TABLET <==> 600.0 <= smallestDp < 840.0
    ensures d == Fluid.TV <==> 840.0 <= smallestDp
  {
    if smallestDp < 300.0 then Fluid.WATCH
    else if smallestDp < 600.0 then Fluid.PHONE
    else if smallestDp < 840.0 then Fluid.TABLET
    else Fluid.TV
  }

  /** A screen qualifier of `FluidParams` applies once the width reaches it (any integer key). */
  predicate FluidScreenApplies(width: real, e: (int, Fluid.FluidConfig))
  {
    width >= e.0 as real
  }

  /**
   * `resolveFluidConfig`: the range of the largest screen qualifier the width
   * reaches; else the range set for the inferred device class; else the
   * parameters' own range, AUTO and LOWEST.
   */
  function ResolveFluidConfig(width: real, c: CalculationConfig, p: FluidParams): (fc: Fluid.FluidConfig)
    ensures (exists i :: 0 <= i < |p.screenQualifiers| && FluidScreenApplies(width, p.screenQualifiers[i])) ==>
      exists i :: 0 <= i < |p.screenQualifiers| && FluidScreenApplies(width, p.screenQualifiers[i]) &&
        fc == p.screenQualifiers[i].1 &&
        forall j :: 0 <= j < |p.screenQualifiers| && FluidScreenApplies(width, p.screenQualifiers[j]) ==>
          p.screenQualifiers[j].0 <= p.screenQualifiers[i].0
    ensures (forall i :: 0 <= i < |p.screenQualifiers| ==> !FluidScreenApplies(width, p.screenQualifiers[i])) ==>
      var d := InferDeviceType(Smallest(c));
      fc == if d in p.deviceQualifiers then p.deviceQualifiers[d]
            else Fluid.FluidConfig(p.minValue, p.maxValue, p.minWidth, p.maxWidth, Screens.AUTO, LOWEST)
  {
    var k := FirstMaxIndex(p.screenQualifiers, (e: (int, Fluid.FluidConfig)) => FluidScreenApplies(width, e), Fluid.QualifierScore);
    if k.Some? then p.screenQualifiers[k.value].1
    else
      var deviceType := InferDeviceType(Smallest(c));
      if deviceType in p.deviceQualifiers then p.deviceQualifiers[deviceType]
      else Fluid.FluidConfig(p.minValue, p.maxValue, p.minWidth, p.maxWidth, Screens.AUTO, LOWEST)
  }

  /** FLUID: interpolate over the resolved range at the resolved dimension (the base value is not used). */
  function CalculateFluid(c: CalculationConfig, t: ScreenType, b: BaseOrientation, p: FluidParams): (r: real)
    ensures var fc := ResolveFluidConfig(Dimension(c, t, b), c, p);
      Min(fc.minValue, fc.maxValue) <= r <= Max(fc.minValue, fc.maxValue)
    ensures |p.screenQualifiers| == 0 && p.deviceQualifiers == map[] ==>
      r == Fluid.InterpolateFluid(Dimension(c, t, b), p.minValue, p.maxValue, p.minWidth, p.maxWidth)
  {
    var width := Dimension(c, t, b);
    Fluid.Interpolate(width, ResolveFluidConfig(width, c, p))
  }

  /** INTERPOLATED: half-way between the unscaled value and the proportional one. */
  function CalculateInterpolated(base: real, c: CalculationConfig, t: ScreenType, b: BaseOrientation): (r: real)
    ensures r - base == base * (Dimension(c, t, b) / BaseWidthDp) - r
  {
    var w := Dimension(c, t, b);
    var linear := base * (w / BaseWidthDp);
    base + (linear - base) * 0.5
  }

  /**
   * DIAGONAL: proportional to the screen diagonal, whichever way the device
   * is held; a positive base grows exactly on a diagonal longer than the
   * reference one.
   */
  function CalculateDiagonal(m: MathLib, base: real, c: CalculationConfig): (r: real)
    ensures r == base * (m.sqrt(c.screenWidthDp * c.screenWidthDp + c.screenHeightDp * c.screenHeightDp) / BaseDiagonal)
    ensures base > 0.0 ==>
      (r > base <==> m.sqrt(c.screenWidthDp * c.screenWidthDp + c.screenHeightDp * c.screenHeightDp) > BaseDiagonal)
  {
    var smallest := Smallest(c);
    var largest := Largest(c);
    assert smallest * smallest + largest * largest == c.screenWidthDp * c.screenWidthDp + c.screenHeightDp * c.screenHeightDp;
    var ratio := m.sqrt(smallest * smallest + largest * largest) / BaseDiagonal;
    ScaleAboveOne(base, ratio, ratio - 1.0);
    base * ratio
  }

  /**
   * PERIMETER: proportional to width plus height; a positive base grows
   * exactly when the sides add up to more than the reference perimeter.
   */
  function CalculatePerimeter(base: real, c: CalculationConfig): (r: real)
    ensures r == base * ((c.screenWidthDp + c.screenHeightDp) / BasePerimeter)
    ensures base > 0.0 ==> (r > base <==> c.screenWidthDp + c.screenHeightDp > BasePerimeter)
  {
    var ratio := (Smallest(c) + Largest(c)) / BasePerimeter;
    ScaleAboveOne(base, ratio, ratio - 1.0);
    base * ratio
  }

  /** FIT: the smaller of the two side ratios against the 300 x 533 reference. */
  function CalculateFit(base: real, c: CalculationConfig): (r: real)
    ensures r == base * (Smallest(c) / BaseWidthDp) || r == base * (Largest(c) / BaseHeightDp)
    ensures base >= 0.0 ==> r <= base * (Smallest(c) / BaseWidthDp) && r <= base * (Largest(c) / BaseHeightDp)
  {
    var ratioW := Smallest(c) / BaseWidthDp;
    var ratioH := Largest(c) / BaseHeightDp;
    MulMonotone(base, Min(ratioW, ratioH), ratioW);
    MulMonotone(base, Min(ratioW, ratioH), ratioH);
    base * Min(ratioW, ratioH)
  }

  /** FILL: the larger of the two side ratios. */
  function CalculateFill(base: real, c: CalculationConfig): (r: real)
    ensures r == base * (Smallest(c) / BaseWidthDp) || r == base * (Largest(c) / BaseHeightDp)
    ensures base >= 0.0 ==> r >= base * (Smallest(c) / BaseWidthDp) && r >= base * (Largest(c) / BaseHeightDp)
  {
    var ratioW := Smallest(c) / BaseWidthDp;
    var ratioH := Largest(c) / BaseHeightDp;
    MulMonotone(base, ratioW, Max(ratioW, ratioH));
    MulMonotone(base, ratioH, Max(ratioW, ratioH));
    base * Max(ratioW, ratioH)
  }

  lemma MulMonotone(k: real, a: real, b: real)
    requires a <= b
    ensures k >= 0.0 ==> k * a <= k * b
  {
    if k >= 0.0 {
      Extensions.MulNonNeg(k, b - a);
      assert k * (b - a) == k * b - k * a;
    }
  }

  /** For a non-negative base value FIT never exceeds FILL. */
  lemma FitAtMostFill(base: real, c: CalculationConfig)
    requires base >= 0.0
    ensures CalculateFit(base, c) <= CalculateFill(base, c)
  {
  }

  // ------------------------------------------------------------------
  // Constraints
  // ------------------------------------------------------------------

  /** The physical cap in dp: millimetres to inches, times the density scale. */
  function MaxPhysicalDp(mm: real, densityDpi: int): real
  {
    (mm / 25.4) * (densityDpi as real / 160.0)
  }

  /** The value already satisfies every constraint that is set. */
  predicate WithinConstraints(value: real, c: CalculationConfig, k: Constraints)
  {
    && (k.minValue.None? || k.minValue.value <= value)
    && (k.maxValue.None? || value <= k.maxValue.value)
    && (k.maxPhysicalMm.None? || value <= MaxPhysicalDp(k.maxPhysicalMm.value, c.densityDpi))
  }

  /**
   * `applyConstraints`: raise to the minimum, then lower to the maximum, then
   * lower to the physical cap.
   */
  function ApplyConstraints(value: real, c: CalculationConfig, k: Constraints): (r: real)
    ensures k.minValue.None? && k.maxValue.None? && k.maxPhysicalMm.None? ==> r == value
    ensures k.maxValue.Some? ==> r <= k.maxValue.value
    ensures k.maxPhysicalMm.Some? ==> r <= MaxPhysicalDp(k.maxPhysicalMm.value, c.densityDpi)
    ensures k.minValue.Some? && k.maxValue.Some? && k.minValue.value <= k.maxValue.value && k.maxPhysicalMm.None? ==>
      k.minValue.value <= r <= k.maxValue.value
    ensures WithinConstraints(value, c, k) ==> r == value
    ensures r == value || (k.minValue.Some? && r == k.minValue.value) || (k.maxValue.Some? && r == k.maxValue.value) ||
      (k.maxPhysicalMm.Some? && r == MaxPhysicalDp(k.maxPhysicalMm.value, c.densityDpi))
  {
    var r1 := if k.minValue.Some? then Max(value, k.minValue.value) else value;
    var r2 := if k.maxValue.Some? then Min(r1, k.maxValue.value) else r1;
    if k.maxPhysicalMm.Some? then Min(r2, MaxPhysicalDp(k.maxPhysicalMm.value, c.densityDpi)) else r2
  }

  /** Constraining is monotone and constraining twice changes nothing. */
  lemma {:induction false} ApplyConstraintsMonotoneIdempotent(v1: real, v2: real, c: CalculationConfig, k: Constraints)
    ensures v1 <= v2 ==> ApplyConstraints(v1, c, k) <= ApplyConstraints(v2, c, k)
    ensures ApplyConstraints(ApplyConstraints(v1, c, k), c, k) == ApplyConstraints(v1, c, k)
  {
  }

  // ------------------------------------------------------------------
  // Custom qualifiers
  // ------------------------------------------------------------------

  /**
   * The size test of a qualifier entry in this calculator: SMALL_WIDTH against
   * the smaller side of the current screen, WIDTH and HEIGHT against those sides.
   */
  predicate Reaches(e: DpQualifierEntry, c: CalculationConfig)
  {
    match e.kind
    case SMALL_WIDTH => Smallest(c) >= e.value as real
    case WIDTH => c.screenWidthDp >= e.value as real
    case HEIGHT => c.screenHeightDp >= e.value as real
  }

  predicate IntersectionApplies(c: CalculationConfig, e: UiModeQualifierEntry)
  {
    e.uiModeType == c.uiMode && Reaches(e.dpQualifierEntry, c)
  }

  predicate NoIntersectionApplies(c: CalculationConfig, q: CustomQualifiers)
  {
    forall i :: 0 <= i < |q.intersectionMap| ==> !IntersectionApplies(c, q.intersectionMap[i].0)
  }

  /**
   * Intersection entry `i` applies, has the largest threshold of those that
   * apply, and every earlier applicable entry has a smaller one.
   */
  predicate FirstBestIntersection(c: CalculationConfig, q: CustomQualifiers, i: int)
  {
    && 0 <= i < |q.intersectionMap|
    && IntersectionApplies(c, q.intersectionMap[i].0)
    && (forall j :: 0 <= j < |q.intersectionMap| && IntersectionApplies(c, q.intersectionMap[j].0) ==>
          IntersectionThreshold(q.intersectionMap[j].0) <= IntersectionThreshold(q.intersectionMap[i].0))
    && (forall j :: 0 <= j < i && IntersectionApplies(c, q.intersectionMap[j].0) ==>
          IntersectionThreshold(q.intersectionMap[j].0) < IntersectionThreshold(q.intersectionMap[i].0))
  }

  /** The same for size entry `i`. */
  predicate FirstBestDp(c: CalculationConfig, q: CustomQualifiers, i: int)
  {
    && 0 <= i < |q.dpMap|
    && Reaches(q.dpMap[i].0, c)
    && (forall j :: 0 <= j < |q.dpMap| && Reaches(q.dpMap[j].0, c) ==> DpThreshold(q.dpMap[j].0) <= DpThreshold(q.dpMap[i].0))
    && (forall j :: 0 <= j < i && Reaches(q.dpMap[j].0, c) ==> DpThreshold(q.dpMap[j].0) < DpThreshold(q.dpMap[i].0))
  }

  /**
   * `resolveQualifierOverride`: the applicable UI-mode-and-size entry with the
   * largest threshold; else the entry for the UI mode; else the applicable
   * size entry with the largest threshold; else nothing.
   */
  function ResolveQualifierOverride(c: CalculationConfig, q: CustomQualifiers): (r: Option<real>)
    ensures (exists i :: 0 <= i < |q.intersectionMap| && IntersectionApplies(c, q.intersectionMap[i].0)) ==>
      exists i :: FirstBestIntersection(c, q, i) && r == Some(q.intersectionMap[i].1)
    ensures NoIntersectionApplies(c, q) && c.uiMode in q.uiModeMap ==> r == Some(q.uiModeMap[c.uiMode])
    ensures NoIntersectionApplies(c, q) && c.uiMode !in q.uiModeMap ==>
      (r.None? <==> forall i :: 0 <= i < |q.dpMap| ==> !Reaches(q.dpMap[i].0, c))
    ensures NoIntersectionApplies(c, q) && c.uiMode !in q.uiModeMap && r.Some? ==>
      exists i :: FirstBestDp(c, q, i) && r.value == q.dpMap[i].1
  {
    var inter := SelectIntersection(c, q);
    if inter.Some? then inter
    else if c.uiMode in q.uiModeMap then Some(q.uiModeMap[c.uiMode])
    else SelectDp(c, q)
  }

  /** The value of the first applicable intersection entry with the largest threshold. */
  function SelectIntersection(c: CalculationConfig, q: CustomQualifiers): (r: Option<real>)
    ensures r.None? <==> NoIntersectionApplies(c, q)
    ensures r.Some? ==> exists i :: FirstBestIntersection(c, q, i) && r.value == q.intersectionMap[i].1
  {
    SelectValue(q.intersectionMap, (e: UiModeQualifierEntry) => IntersectionApplies(c, e), IntersectionThreshold)
  }

  /** The value of the first reached size entry with the largest threshold. */
  function SelectDp(c: CalculationConfig, q: CustomQualifiers): (r: Option<real>)
    ensures r.None? <==> forall i :: 0 <= i < |q.dpMap| ==> !Reaches(q.dpMap[i].0, c)
    ensures r.Some? ==> exists i :: FirstBestDp(c, q, i) && r.value == q.dpMap[i].1
  {
    SelectValue(q.dpMap, (e: DpQualifierEntry) => Reaches(e, c), DpThreshold)
  }

  // ------------------------------------------------------------------
  // Strategy inference
  // ------------------------------------------------------------------

  datatype StrategyWeight = StrategyWeight(strategy: ScalingStrategy, weight: real)

  /** The element's own vote, if it has one. */
  function ElementWeight(e: Option<ElementType>, device: DeviceType): (w: seq<StrategyWeight>)
    ensures |w| <= 1
    ensures forall i :: 0 <= i < |w| ==> w[i].weight <= 0.8
  {
    if e.None? then []
    else
      var tablet := AtLeastTabletSmall(device);
      match e.value
      case BUTTON => if tablet then [StrategyWeight(BALANCED, 0.7)] else [StrategyWeight(DEFAULT, 0.6)]
      case TEXT => [StrategyWeight(FLUID, 0.8)]
      case ICON => [StrategyWeight(DEFAULT, 0.7)]
      case CONTAINER => [StrategyWeight(PERCENTAGE, 0.7)]
      case SPACING => if tablet then [StrategyWeight(BALANCED, 0.6)] else [StrategyWeight(DEFAULT, 0.5)]
      case CARD => [StrategyWeight(PERCENTAGE, 0.7)]
      case DIALOG => [StrategyWeight(BALANCED, 0.7)]
      case TOOLBAR => [StrategyWeight(DEFAULT, 0.6)]
      case FAB => [StrategyWeight(DEFAULT, 0.7)]
      case CHIP => [StrategyWeight(FLUID, 0.6)]
      case LIST_ITEM => [StrategyWeight(PERCENTAGE, 0.6)]
      case IMAGE => [StrategyWeight(PERCENTAGE, 0.7)]
      case BADGE => [StrategyWeight(DEFAULT, 0.6)]
      case DIVIDER => [StrategyWeight(NONE, 0.7)]
      case NAVIGATION => [StrategyWeight(DEFAULT, 0.6)]
      case INPUT => [StrategyWeight(FLUID, 0.7)]
      case HEADER => [StrategyWeight(BALANCED, 0.6)]
      case GENERIC => []
  }

  /** The device's vote: always present. */
  function DeviceWeight(device: DeviceType): (w: StrategyWeight)
    ensures w.weight <= 0.5
  {
    match device
    case TABLET_LARGE => StrategyWeight(BALANCED, 0.5)
    case TV => StrategyWeight(BALANCED, 0.5)
    case TABLET_SMALL => StrategyWeight(BALANCED, 0.4)
    case PHONE_LARGE => StrategyWeight(BALANCED, 0.3)
    case PHONE_SMALL => StrategyWeight(DEFAULT, 0.4)
    case OTHER(_) => StrategyWeight(DEFAULT, 0.3)
  }

  /**
   * `calculateStrategyWeights`: the element's vote, a fluid vote of 0.9 when
   * fluid parameters are given, one of 0.6 when both bounds are, and the
   * device's vote.  The list is never empty, so the "fallback default" entry
   * of the source is never added.
   */
  function StrategyWeights(e: Option<ElementType>, device: DeviceType, hasFluidConfig: bool, hasBounds: bool): (w: seq<StrategyWeight>)
    ensures |w| > 0
    ensures w[|w| - 1] == DeviceWeight(device)
    ensures hasFluidConfig <==> StrategyWeight(FLUID, 0.9) in w
    ensures forall i :: 0 <= i < |w| ==> w[i].weight <= 0.9
    ensures forall i :: 0 <= i < |w| && w[i].weight == 0.9 ==> w[i].strategy == FLUID
  {
    var weights := ElementWeight(e, device)
      + (if hasFluidConfig then [StrategyWeight(FLUID, 0.9)] else [])
      + (if hasBounds then [StrategyWeight(FLUID, 0.6)] else [])
      + [DeviceWeight(device)];
    if |weights| == 0 then [StrategyWeight(DEFAULT, 0.5)] else weights
  }

  function Weight(w: StrategyWeight): real
  {
    w.weight
  }

  function AnyWeight(w: StrategyWeight): bool
  {
    true
  }

  /**
   * `inferStrategy`: the strategy of the first heaviest vote.  Fluid
   * parameters always win (0.9 beats every other vote).
   */
  function InferStrategy(e: Option<ElementType>, device: DeviceType, hasFluidConfig: bool, hasBounds: bool): (r: ScalingStrategy)
    ensures var w := StrategyWeights(e, device, hasFluidConfig, hasBounds);
      exists i :: FirstHeaviestAt(w, i) && w[i].strategy == r
    ensures hasFluidConfig ==> r == FLUID
  {
    var w := StrategyWeights(e, device, hasFluidConfig, hasBounds);
    assert hasFluidConfig ==> FluidVoteHeaviest(w);
    PickHeaviest(w)
  }

  /** Vote `i` weighs at least as much as every vote, and strictly more than every earlier one. */
  predicate FirstHeaviestAt(w: seq<StrategyWeight>, i: int)
  {
    && 0 <= i < |w|
    && (forall j :: 0 <= j < |w| ==> w[j].weight <= w[i].weight)
    && (forall j :: 0 <= j < i ==> w[j].weight < w[i].weight)
  }

  /** The strategy of the first heaviest vote of a non-empty list (DEFAULT for an empty one). */
  function PickHeaviest(w: seq<StrategyWeight>): (r: ScalingStrategy)
    ensures |w| > 0 ==>
      exists i :: FirstHeaviestAt(w, i) && w[i].strategy == r
    ensures FluidVoteHeaviest(w) ==> r == FLUID
  {
    var k := FirstMaxIndex(w, AnyWeight, Weight);
    if k.Some? then
      assert AnyWeight(w[k.value]);
      assert FirstHeaviestAt(w, k.value);
      if FluidVoteHeaviest(w) then FluidVoteWins(w, k.value); w[k.value].strategy
      else w[k.value].strategy
    else DEFAULT
  }

  /** The list holds the 0.9 fluid vote, nothing weighs more, and every 0.9 vote is a fluid one. */
  predicate FluidVoteHeaviest(w: seq<StrategyWeight>)
  {
    && StrategyWeight(FLUID, 0.9) in w
    && (forall i :: 0 <= i < |w| ==> w[i].weight <= 0.9)
    && (forall i :: 0 <= i < |w| && w[i].weight == 0.9 ==> w[i].strategy == FLUID)
  }

  /** The first heaviest vote in a list holding the 0.9 fluid vote, where nothing weighs more, is a FLUID vote. */
  lemma FluidVoteWins(w: seq<StrategyWeight>, k: nat)
    requires k < |w|
    requires StrategyWeight(FLUID, 0.9) in w
    requires forall i :: 0 <= i < |w| ==> w[i].weight <= 0.9
    requires forall i :: 0 <= i < |w| ==> w[i].weight <= w[k].weight
    requires forall i :: 0 <= i < k ==> w[i].weight < w[k].weight
    requires forall i :: 0 <= i < |w| && w[i].weight == 0.9 ==> w[i].strategy == FLUID
    ensures w[k].strategy == FLUID
  {
    var j :| 0 <= j < |w| && w[j] == StrategyWeight(FLUID, 0.9);
    assert w[k].weight == 0.9;
  }

  /** Every element vote outweighs every device vote. */
  lemma ElementOutweighsDevice(e: ElementType, device: DeviceType)
    requires e != GENERIC
    ensures |ElementWeight(Some(e), device)| == 1
    ensures ElementWeight(Some(e), device)[0].weight > DeviceWeight(device).weight
  {
  }

  /**
   * The vote chosen is the first heaviest one: a vote that nothing outweighs
   * and that every earlier vote is lighter than decides, and a later vote of
   * equal weight does not.
   */
  lemma FirstHeaviestChosen(w: seq<StrategyWeight>, i: nat)
    requires FirstHeaviestAt(w, i)
    ensures FirstMaxIndex(w, AnyWeight, Weight) == Some(i)
    ensures PickHeaviest(w) == w[i].strategy
  {
    assert AnyWeight(w[i]);
    var k := FirstMaxIndex(w, AnyWeight, Weight);
    assert Weight(w[i]) <= Weight(w[k.value]) && Weight(w[k.value]) <= Weight(w[i]);
  }

  /**
   * A tie decided by order: a phone-sized BUTTON with bounds votes DEFAULT at
   * 0.6 and the bounds vote FLUID at 0.6; the element's vote comes first and
   * wins.
   */
  lemma ButtonTieGoesToElement(device: DeviceType)
    requires !AtLeastTabletSmall(device)
    ensures InferStrategy(Some(BUTTON), device, false, true) == DEFAULT
  {
    var w := StrategyWeights(Some(BUTTON), device, false, true);
    assert w == [StrategyWeight(DEFAULT, 0.6), StrategyWeight(FLUID, 0.6), DeviceWeight(device)];
    FirstHeaviestChosen(w, 0);
  }

  /** Without fluid parameters or bounds, an element's vote decides for every element type that has one. */
  lemma ElementVoteDecides(e: ElementType, device: DeviceType)
    requires e != GENERIC
    ensures InferStrategy(Some(e), device, false, false) == ElementWeight(Some(e), device)[0].strategy
  {
    ElementOutweighsDevice(e, device);
    var w := StrategyWeights(Some(e), device, false, false);
    assert w == ElementWeight(Some(e), device) + [DeviceWeight(device)];
    FirstHeaviestChosen(w, 0);
  }

  /** With no element type and no fluid parameters or bounds the device decides. */
  lemma {:induction false} DeviceVoteDecides(device: DeviceType)
    ensures InferStrategy(None, device, false, false) == DeviceWeight(device).strategy
    ensures InferStrategy(None, device, false, false) ==
      (if device.TABLET_LARGE? || device.TV? || device.TABLET_SMALL? || device.PHONE_LARGE? then BALANCED else DEFAULT)
  {
    var w := StrategyWeights(None, device, false, false);
    assert w == [DeviceWeight(device)];
  }

  // ------------------------------------------------------------------
  // Entry point
  // ------------------------------------------------------------------

  /** The inputs of `calculate`, with the source's defaults where it has them. */
  datatype Request = Request(
    base: real,
    strategy: Option<ScalingStrategy>,
    elementType: Option<ElementType>,
    config: CalculationConfig,
    device: DeviceType,
    screenType: ScreenType,
    baseOrientation: BaseOrientation,
    defaultParams: DefaultParams,
    perceptualParams: PerceptualParams,
    fluidParams: Option<FluidParams>,
    constraints: Constraints,
    qualifiers: CustomQualifiers)

  predicate PercentageShortcut(rq: Request)
  {
    rq.strategy == Some(PERCENTAGE) && |rq.qualifiers.intersectionMap| == 0 &&
    |rq.qualifiers.uiModeMap| == 0 && |rq.qualifiers.dpMap| == 0 && rq.baseOrientation == Screens.AUTO
  }

  /** The strategy used when no override applies: the requested one, or the inferred one. */
  function EffectiveStrategy(rq: Request): ScalingStrategy
  {
    if rq.strategy.Some? then rq.strategy.value
    else InferStrategy(rq.elementType, rq.device, rq.fluidParams.Some?,
                       rq.constraints.minValue.Some? && rq.constraints.maxValue.Some?)
  }

  /** The unconstrained value of a strategy. */
  function RawValue(ln: real -> real, m: MathLib, rq: Request, s: ScalingStrategy): real
    requires ValidScreen(rq.config)
  {
    var c := rq.config;
    match s
    case DEFAULT => CalculateDefault(ln, rq.base, c, rq.screenType, rq.baseOrientation, rq.defaultParams)
    case PERCENTAGE => CalculatePercentage(rq.base, c, rq.screenType, rq.baseOrientation)
    case BALANCED => CalculateBalanced(ln, rq.base, c, rq.screenType, rq.baseOrientation, rq.perceptualParams)
    case LOGARITHMIC => CalculateLogarithmic(ln, rq.base, c, rq.screenType, rq.baseOrientation, rq.perceptualParams)
    case POWER => CalculatePower(m, rq.base, c, rq.screenType, rq.baseOrientation, rq.perceptualParams)
    case FLUID =>
      var p := if rq.fluidParams.Some? then rq.fluidParams.value
               else FluidParams(rq.base * 0.8, rq.base * 1.2, 320.0, 768.0, map[], []);
      CalculateFluid(c, rq.screenType, rq.baseOrientation, p)
    case INTERPOLATED => CalculateInterpolated(rq.base, c, rq.screenType, rq.baseOrientation)
    case DIAGONAL => CalculateDiagonal(m, rq.base, c)
    case PERIMETER => CalculatePerimeter(rq.base, c)
    case FIT => CalculateFit(rq.base, c)
    case FILL => CalculateFill(rq.base, c)
    case AUTOSIZE => rq.base
    case NONE => rq.base
  }

  /** The PERCENTAGE shortcut: the larger or smaller side, with no orientation handling. */
  function PercentageFastPath(rq: Request): real
  {
    var dimensionDp := DimensionFor(rq.screenType, rq.config.screenWidthDp, rq.config.screenHeightDp);
    ApplyConstraints(Proportional(rq.base, dimensionDp), rq.config, rq.constraints)
  }

  /** The general path of `calculate`: override, else the effective strategy; then the constraints. */
  function GeneralPath(ln: real -> real, m: MathLib, rq: Request): real
    requires ValidScreen(rq.config)
  {
    var o := ResolveQualifierOverride(rq.config, rq.qualifiers);
    if o.Some? then ApplyConstraints(o.value, rq.config, rq.constraints)
    else ApplyConstraints(RawValue(ln, m, rq, EffectiveStrategy(rq)), rq.config, rq.constraints)
  }

  /**
   * `calculate`: NONE returns the constrained base value; a PERCENTAGE
   * request without qualifiers or design orientation takes a shortcut; every
   * other request goes through the general path.  With both bounds set and
   * ordered (and no physical cap) the result lies between them.
   */
  function Calculate(ln: real -> real, m: MathLib, rq: Request): (r: real)
    requires rq.strategy == Some(NONE) || ValidScreen(rq.config)
    ensures rq.strategy == Some(NONE) ==> r == ApplyConstraints(rq.base, rq.config, rq.constraints)
    ensures rq.strategy != Some(NONE) ==>
      var o := ResolveQualifierOverride(rq.config, rq.qualifiers);
      o.Some? ==> r == ApplyConstraints(o.value, rq.config, rq.constraints)
    ensures var k := rq.constraints;
      k.minValue.Some? && k.maxValue.Some? && k.minValue.value <= k.maxValue.value && k.maxPhysicalMm.None? ==>
        k.minValue.value <= r <= k.maxValue.value
    ensures rq.strategy == Some(AUTOSIZE) && ResolveQualifierOverride(rq.config, rq.qualifiers).None? ==>
      r == ApplyConstraints(rq.base, rq.config, rq.constraints)
  {
    if rq.strategy == Some(NONE) then ApplyConstraints(rq.base, rq.config, rq.constraints)
    else if PercentageShortcut(rq) then PercentageFastPath(rq)
    else GeneralPath(ln, m, rq)
  }

  /** The PERCENTAGE shortcut is only a shortcut: it gives what the general path gives. */
  lemma PercentageShortcutAgrees(ln: real -> real, m: MathLib, rq: Request)
    requires PercentageShortcut(rq) && ValidScreen(rq.config)
    ensures Calculate(ln, m, rq) == GeneralPath(ln, m, rq)
  {
    FastPathIsGeneralPath(ln, m, rq);
  }

  lemma FastPathIsGeneralPath(ln: real -> real, m: MathLib, rq: Request)
    requires PercentageShortcut(rq) && ValidScreen(rq.config)
    ensures PercentageFastPath(rq) == GeneralPath(ln, m, rq)
  {
    ShortcutHasNoOverride(rq);
    GeneralPathPercentage(ln, m, rq);
    FastPathIsPercentage(rq);
  }

  /** Without design orientation the PERCENTAGE strategy reads the side the shortcut reads. */
  lemma FastPathIsPercentage(rq: Request)
    requires rq.baseOrientation == Screens.AUTO
    ensures PercentageFastPath(rq) ==
      ApplyConstraints(CalculatePercentage(rq.base, rq.config, rq.screenType, rq.baseOrientation), rq.config, rq.constraints)
  {
    assert Dimension(rq.config, rq.screenType, rq.baseOrientation) ==
      DimensionFor(rq.screenType, rq.config.screenWidthDp, rq.config.screenHeightDp);
  }

  /** A request without qualifiers has no override. */
  lemma ShortcutHasNoOverride(rq: Request)
    requires PercentageShortcut(rq)
    ensures ResolveQualifierOverride(rq.config, rq.qualifiers).None?
  {
    assert rq.config.uiMode !in rq.qualifiers.uiModeMap;
  }

  /** Without an override, a PERCENTAGE request's general path constrains the PERCENTAGE value. */
  lemma GeneralPathPercentage(ln: real -> real, m: MathLib, rq: Request)
    requires ValidScreen(rq.config)
    requires ResolveQualifierOverride(rq.config, rq.qualifiers).None? && rq.strategy == Some(PERCENTAGE)
    ensures GeneralPath(ln, m, rq) ==
      ApplyConstraints(CalculatePercentage(rq.base, rq.config, rq.screenType, rq.baseOrientation), rq.config, rq.constraints)
  {
  }

  /** Fluid parameters make an un-typed request FLUID, so the result lies in the resolved fluid range. */
  lemma FluidParamsSelectFluid(ln: real -> real, m: MathLib, rq: Request)
    requires rq.strategy.None? && rq.fluidParams.Some? && ValidScreen(rq.config)
    requires ResolveQualifierOverride(rq.config, rq.qualifiers).None?
    requires rq.constraints == Constraints(None, None, None)
    ensures var p := rq.fluidParams.value;
      var fc := ResolveFluidConfig(Dimension(rq.config, rq.screenType, rq.baseOrientation), rq.config, p);
      Min(fc.minValue, fc.maxValue) <= Calculate(ln, m, rq) <= Max(fc.minValue, fc.maxValue)
  {
    assert EffectiveStrategy(rq) == FLUID;
  }
}
