/**
 * The Web calculation engine (`Calculator.ts`): the strategies routed by
 * `calculate`, the memo object its helpers fill in during one call, the
 * constraints applied last, and the element-type table of `inferStrategy`.
 *
 * Optional parameters are `Option`s.  The source defaults numbers with
 * `x || d`, which replaces an absent value AND a zero by the default
 * (`OrDefault`).  The declarations in `types/ScalingStrategy.ts` and
 * `types/BaseOrientation.ts` are not part of this model: the strategies,
 * screen types and orientations are those of the other ports, and
 * `ElementType` holds the tags the switch names plus `OTHER` for the rest.
 * The logarithm is a parameter `ln`; `WebLn(m)` is `fastLn` over the Web
 * table of `LnTables`.
 */
module WebCalculator {
  import opened Numerics
  import opened Screens
  import LnTables
  import Fluid
  import DC = DynamicCalculator
  import Extensions

  /** `INV_BASE_WIDTH_DP`, computed as an exact reciprocal (the Kotlin calculators write a rounded literal). */
  const InvBaseWidthDp: real := 1.0 / 300.0

  /** `INV_REFERENCE_AR`, likewise exact. */
  const InvReferenceAr: real := 1.0 / 1.78

  /** The fluid breakpoints used when `minWidth` / `maxWidth` are not given. */
  const DefaultMinWidth: real := 320.0
  const DefaultMaxWidth: real := 768.0

  /** `CalculationConfig`: the screen snapshot. */
  datatype WebConfig = WebConfig(screenWidthDp: real, screenHeightDp: real, smallestScreenWidthDp: real, densityDpi: real)

  datatype DefaultParams = DefaultParams(applyAspectRatio: Option<bool>, arSensitivity: Option<real>)

  /**
   * The fields of `PerceptualParams` the strategies read; `model`,
   * `applyAspectRatio` and `arSensitivity` are declared but never read.
   */
  datatype PerceptualParams = PerceptualParams(sensitivity: Option<real>, powerExponent: Option<real>, transitionPoint: Option<real>)

  datatype FluidParams = FluidParams(minValue: real, maxValue: real, minWidth: Option<real>, maxWidth: Option<real>)

  /** The parameter objects `calculate` substitutes for missing ones (`params || {}`). */
  const NoDefaultParams: DefaultParams := DefaultParams(None, None)
  const NoPerceptualParams: PerceptualParams := PerceptualParams(None, None, None)

  /** The error `calculate` throws for FLUID without fluid parameters. */
  const FluidParamsRequired: string := "FLUID strategy requires fluidParams"

  /** `x || d` on an optional number: the value when present and non-zero, the default otherwise. */
  function OrDefault(x: Option<real>, d: real): (r: real)
    ensures x.Some? && x.value != 0.0 ==> r == x.value
    ensures x.None? || x.value == 0.0 ==> r == d
  {
    if x.Some? && x.value != 0.0 then x.value else d
  }

  /** `params.applyAspectRatio !== false`: applied unless explicitly switched off. */
  predicate AppliesAspectRatio(p: DefaultParams)
  {
    p.applyAspectRatio != Some(false)
  }

  function TransitionPoint(p: PerceptualParams): real
  {
    OrDefault(p.transitionPoint, DC.DefaultTransitionPoint)
  }

  function Sensitivity(p: PerceptualParams): real
  {
    OrDefault(p.sensitivity, DC.DefaultSensitivity)
  }

  function Exponent(p: PerceptualParams): real
  {
    OrDefault(p.powerExponent, DC.DefaultPowerExponent)
  }

  /** The table-backed `fastLn` of this calculator. */
  function WebLn(m: MathLib): real -> real
  {
    LnTables.CalculatorTablesZeroNearOne(m);
    LnTables.FastLnOf(LnTables.WebTable, m)
  }

  /** It is exactly 0 within tolerance of 1, because the table stores ln(1.0) = 0. */
  lemma WebLnVanishesNearOne(m: MathLib)
    ensures LnTables.VanishesNearOne(WebLn(m))
  {
    LnTables.CalculatorTablesZeroNearOne(m);
  }

  // ------------------------------------------------------------------
  // Screen geometry
  // ------------------------------------------------------------------

  function Smallest(c: WebConfig): real
  {
    Min(c.screenWidthDp, c.screenHeightDp)
  }

  function Largest(c: WebConfig): real
  {
    Max(c.screenWidthDp, c.screenHeightDp)
  }

  /** `getAspectRatio`: the larger side over the smaller one. */
  function AspectRatio(c: WebConfig): (ar: real)
    requires Smallest(c) != 0.0
    ensures Smallest(c) > 0.0 ==> ar >= 1.0
  {
    if Smallest(c) > 0.0 then Numerics.RatioAtLeastOne(Largest(c), Smallest(c)); Largest(c) / Smallest(c)
    else Largest(c) / Smallest(c)
  }

  /** The dimension the orientation-aware strategies read. */
  function Dimension(c: WebConfig, t: ScreenType, b: BaseOrientation): real
  {
    OrientedDimension(t, b, c.screenWidthDp, c.screenHeightDp)
  }

  // ------------------------------------------------------------------
  // The memo object of one `calculate` call
  // ------------------------------------------------------------------

  /** A remembered number counts only when it is truthy: present and not zero. */
  predicate Truthy(x: Option<real>)
  {
    x.Some? && x.value != 0.0
  }

  /**
   * `CalculationCache`: the helpers remember the resolved screen type, the
   * sides, the aspect ratio and the resolved dimension.  Neither the screen
   * type nor the dimension records what it was computed for, so a second
   * resolution with other arguments would get the first answer back;
   * `calculate` creates a fresh object per call and resolves once.
   */
  class CalculationCache {
    var aspectRatio: Option<real>
    var smallestDimension: Option<real>
    var largestDimension: Option<real>
    var effectiveScreenType: Option<ScreenType>
    var dimensionForType: Option<real>

    /** Nothing remembered yet. */
    predicate Empty()
      reads this
    {
      && aspectRatio.None? && smallestDimension.None? && largestDimension.None?
      && effectiveScreenType.None? && dimensionForType.None?
    }

    /** Every side and ratio remembered is the one of screen `c`. */
    predicate Faithful(c: WebConfig)
      reads this
    {
      && (smallestDimension.Some? ==> smallestDimension.value == Smallest(c))
      && (largestDimension.Some? ==> largestDimension.value == Largest(c))
      && (aspectRatio.Some? ==> Smallest(c) != 0.0 && aspectRatio.value == AspectRatio(c))
    }

    constructor ()
      ensures Empty()
    {
      aspectRatio := None;
      smallestDimension := None;
      largestDimension := None;
      effectiveScreenType := None;
      dimensionForType := None;
    }

    /**
     * `resolveScreenType`: the remembered type if there is one, whatever
     * was requested; otherwise the orientation rule, remembered.
     */
    method ResolveScreenType(requested: ScreenType, b: BaseOrientation, c: WebConfig) returns (r: ScreenType)
      modifies this`effectiveScreenType
      ensures old(effectiveScreenType).Some? ==> r == old(effectiveScreenType).value
      ensures old(effectiveScreenType).None? ==> r == Screens.ResolveScreenType(requested, b, c.screenWidthDp, c.screenHeightDp)
      ensures effectiveScreenType == Some(r)
    {
      if effectiveScreenType.Some? {
        return effectiveScreenType.value;
      }
      var currentIsPortrait := c.screenHeightDp > c.screenWidthDp;
      match b {
        case PORTRAIT =>
          r := if currentIsPortrait then requested else if requested == LOWEST then HIGHEST else LOWEST;
        case LANDSCAPE =>
          r := if !currentIsPortrait then requested else if requested == LOWEST then HIGHEST else LOWEST;
        case AUTO =>
          r := requested;
      }
      effectiveScreenType := Some(r);
    }

    /** `getSmallestDimension`: the smaller side, remembered. */
    method GetSmallestDimension(c: WebConfig) returns (s: real)
      requires Faithful(c)
      modifies this`smallestDimension
      ensures s == Smallest(c) && smallestDimension == Some(s) && Faithful(c)
    {
      if Truthy(smallestDimension) {
        return smallestDimension.value;
      }
      s := Min(c.screenWidthDp, c.screenHeightDp);
      smallestDimension := Some(s);
    }

    /** `getLargestDimension`: the larger side, remembered. */
    method GetLargestDimension(c: WebConfig) returns (l: real)
      requires Faithful(c)
      modifies this`largestDimension
      ensures l == Largest(c) && largestDimension == Some(l) && Faithful(c)
    {
      if Truthy(largestDimension) {
        return largestDimension.value;
      }
      l := Max(c.screenWidthDp, c.screenHeightDp);
      largestDimension := Some(l);
    }

    /**
     * `getDimensionForType`: the remembered dimension if it is truthy,
     * whatever type is asked for; otherwise the side of type `t`, remembered.
     */
    method GetDimensionForType(c: WebConfig, t: ScreenType) returns (d: real)
      requires Faithful(c)
      modifies this`dimensionForType, this`smallestDimension, this`largestDimension
      ensures Truthy(old(dimensionForType)) ==> d == old(dimensionForType).value
      ensures !Truthy(old(dimensionForType)) ==> d == DimensionFor(t, c.screenWidthDp, c.screenHeightDp)
      ensures dimensionForType == Some(d)
      ensures Truthy(old(dimensionForType)) ==>
        smallestDimension == old(smallestDimension) && largestDimension == old(largestDimension)
      ensures !Truthy(old(dimensionForType)) ==>
        smallestDimension == Some(Smallest(c)) && largestDimension == Some(Largest(c))
      ensures Faithful(c)
    {
      if Truthy(dimensionForType) {
        return dimensionForType.value;
      }
      var smallest := GetSmallestDimension(c);
      var largest := GetLargestDimension(c);
      d := if t == LOWEST then smallest else largest;
      dimensionForType := Some(d);
    }

    /** `getAspectRatio`: the larger side over the smaller, remembered. */
    method GetAspectRatio(c: WebConfig) returns (ar: real)
      requires Faithful(c) && Smallest(c) != 0.0
      modifies this`aspectRatio, this`smallestDimension, this`largestDimension
      ensures ar == AspectRatio(c) && Faithful(c)
      ensures aspectRatio == Some(ar)
      ensures Truthy(old(aspectRatio)) ==>
        smallestDimension == old(smallestDimension) && largestDimension == old(largestDimension)
      ensures !Truthy(old(aspectRatio)) ==>
        smallestDimension == Some(Smallest(c)) && largestDimension == Some(Largest(c))
    {
      if Truthy(aspectRatio) {
        return aspectRatio.value;
      }
      var smallest := GetSmallestDimension(c);
      var largest := GetLargestDimension(c);
      ar := largest / smallest;
      aspectRatio := Some(ar);
    }

    /** `cache.smallestDimension || Math.min(...)`, as the screen-wide strategies read it. */
    function SmallestOrMin(c: WebConfig): (s: real)
      requires Faithful(c)
      reads this
      ensures s == Smallest(c)
    {
      if Truthy(smallestDimension) then smallestDimension.value else Min(c.screenWidthDp, c.screenHeightDp)
    }

    /** `cache.largestDimension || Math.max(...)`. */
    function LargestOrMax(c: WebConfig): (l: real)
      requires Faithful(c)
      reads this
      ensures l == Largest(c)
    {
      if Truthy(largestDimension) then largestDimension.value else Max(c.screenWidthDp, c.screenHeightDp)
    }
  }

  /**
   * The first two lines of every orientation-aware strategy: resolve the
   * screen type, then read its dimension.  On a cache that has resolved
   * nothing yet this is the oriented dimension of the screen.
   */
  method ResolvedDimension(cache: CalculationCache, requested: ScreenType, b: BaseOrientation, c: WebConfig) returns (d: real)
    requires cache.Faithful(c) && cache.effectiveScreenType.None? && cache.dimensionForType.None?
    modifies cache
    ensures d == Dimension(c, requested, b) && cache.Faithful(c)
  {
    var effective := cache.ResolveScreenType(requested, b, c);
    d := cache.GetDimensionForType(c, effective);
  }

  // ------------------------------------------------------------------
  // Strategies, in terms of the dimension they read
  // ------------------------------------------------------------------

  /** PERCENTAGE: proportional to the dimension, the base value at 300. */
  function CalculatePercentage(base: real, screenDp: real): (r: real)
    ensures r * DC.BaseWidthDp == base * screenDp
  {
    base * (screenDp / DC.BaseWidthDp)
  }

  /** The aspect-ratio factor of DEFAULT: 1 when switched off. */
  function ArAdjustment(ln: real -> real, ar: real, p: DefaultParams): (r: real)
    ensures !AppliesAspectRatio(p) ==> r == 1.0
    ensures LnTables.VanishesNearOne(ln) && Abs(ar * InvReferenceAr - 1.0) <= LnTables.Tolerance ==> r == 1.0
  {
    if AppliesAspectRatio(p) then 1.0 + OrDefault(p.arSensitivity, DC.DefaultArSensitivity) * ln(ar * InvReferenceAr)
    else 1.0
  }

  /**
   * DEFAULT: the linear scale `1 + (W - 300) * 0.10/30` times the
   * aspect-ratio factor.  The increment is exactly 1/300, so the linear
   * part is the PERCENTAGE ratio: DEFAULT is PERCENTAGE without the aspect
   * ratio or at the 1.78 reference ratio, and the aspect-ratio factor
   * times the base value at 300.
   */
  function CalculateDefault(ln: real -> real, base: real, screenDp: real, ar: real, p: DefaultParams): (r: real)
    ensures !AppliesAspectRatio(p) ==> r == CalculatePercentage(base, screenDp)
    ensures LnTables.VanishesNearOne(ln) && Abs(ar * InvReferenceAr - 1.0) <= LnTables.Tolerance ==> r == CalculatePercentage(base, screenDp)
    ensures screenDp == DC.BaseWidthDp ==> r == base * ArAdjustment(ln, ar, p)
  {
    var linearScale := 1.0 + ((screenDp - DC.BaseWidthDp) / 1.0) * DC.BaseIncrement;
    assert linearScale == screenDp / DC.BaseWidthDp;
    base * linearScale * ArAdjustment(ln, ar, p)
  }

  /**
   * BALANCED: linear strictly below the transition point, logarithmic
   * growth from the value there on.  At the transition point itself the
   * logarithmic branch is taken, but with a logarithm that vanishes at 1
   * it gives the linear value, so the result is linear up to and including
   * the transition point, as in the Kotlin calculators.
   */
  function CalculateBalanced(ln: real -> real, base: real, screenDp: real, p: PerceptualParams): (r: real)
    ensures screenDp < TransitionPoint(p) ==> r == CalculatePercentage(base, screenDp)
    ensures LnTables.VanishesNearOne(ln) && screenDp <= TransitionPoint(p) ==> r == CalculatePercentage(base, screenDp)
  {
    var transitionPoint := TransitionPoint(p);
    var sensitivity := Sensitivity(p);
    if screenDp < transitionPoint then base * (screenDp / DC.BaseWidthDp)
    else
      var excess := screenDp - transitionPoint;
      assert LnTables.VanishesNearOne(ln) && excess == 0.0 ==> ln(1.0 + excess * InvBaseWidthDp) == 0.0;
      base * (transitionPoint * InvBaseWidthDp + sensitivity * ln(1.0 + excess * InvBaseWidthDp))
  }

  /**
   * LOGARITHMIC: one plus the sensitivity times the log of the ratio to 300
   * above 300, one minus the log of the inverse ratio below; the base value
   * at 300.
   */
  function CalculateLogarithmic(ln: real -> real, base: real, screenDp: real, p: PerceptualParams): (r: real)
    requires screenDp != 0.0
    ensures LnTables.VanishesNearOne(ln) && screenDp == DC.BaseWidthDp ==> r == base
  {
    var sensitivity := Sensitivity(p);
    assert LnTables.VanishesNearOne(ln) && screenDp == DC.BaseWidthDp ==> ln(DC.BaseWidthDp / screenDp) == 0.0;
    var scale :=
      if screenDp > DC.BaseWidthDp then 1.0 + sensitivity * ln(screenDp * InvBaseWidthDp)
      else 1.0 - sensitivity * ln(DC.BaseWidthDp / screenDp);
    base * scale
  }

  /** A logarithm that is 0 at 1 and not negative from there on. */
  ghost predicate NonNegativeFromOne(ln: real -> real)
  {
    ln(1.0) == 0.0 && forall x :: x >= 1.0 ==> ln(x) >= 0.0
  }

  /**
   * With such a logarithm and a positive sensitivity, LOGARITHMIC never
   * shrinks a positive base value above 300 and never grows it below.
   */
  lemma LogarithmicOrderedAroundReference(ln: real -> real, base: real, screenDp: real, p: PerceptualParams)
    requires screenDp > 0.0 && base > 0.0 && Sensitivity(p) > 0.0 && NonNegativeFromOne(ln)
    ensures screenDp >= DC.BaseWidthDp ==> CalculateLogarithmic(ln, base, screenDp, p) >= base
    ensures screenDp <= DC.BaseWidthDp ==> CalculateLogarithmic(ln, base, screenDp, p) <= base
  {
    var s := Sensitivity(p);
    if screenDp > DC.BaseWidthDp {
      var x := screenDp * InvBaseWidthDp;
      assert x >= 1.0;
      var k := s * ln(x);
      Extensions.MulNonNeg(s, ln(x));
      Extensions.MulNonNeg(base, k);
      assert base * (1.0 + k) == base + base * k;
    } else {
      var x := DC.BaseWidthDp / screenDp;
      Numerics.RatioAtLeastOne(DC.BaseWidthDp, screenDp);
      var k := s * ln(x);
      Extensions.MulNonNeg(s, ln(x));
      Extensions.MulNonNeg(base, k);
      assert base * (1.0 - k) == base - base * k;
      if screenDp == DC.BaseWidthDp {
        assert x == 1.0;
      }
    }
  }

  /** POWER: the ratio to 300 raised to the exponent, the Kotlin POWER factor. */
  function CalculatePower(m: MathLib, base: real, screenDp: real, p: PerceptualParams): (r: real)
    ensures Lawful(m) && screenDp == DC.BaseWidthDp ==> r == base
    ensures r == base * DC.PowerScale(m, screenDp, Exponent(p))
  {
    var exponent := Exponent(p);
    var ratio := screenDp / DC.BaseWidthDp;
    base * m.pow(ratio, exponent)
  }

  /**
   * FLUID: `minValue` up to `minWidth`, `maxValue` from `maxWidth`, linear in
   * between; the base value is not read.  It is the fluid interpolation of
   * the Kotlin calculators with the breakpoints defaulted to 320 and 768.
   */
  function CalculateFluid(width: real, p: FluidParams): (r: real)
    ensures r == Fluid.InterpolateFluid(width, p.minValue, p.maxValue,
                                        OrDefault(p.minWidth, DefaultMinWidth), OrDefault(p.maxWidth, DefaultMaxWidth))
    ensures Min(p.minValue, p.maxValue) <= r <= Max(p.minValue, p.maxValue)
  {
    var minWidth := OrDefault(p.minWidth, DefaultMinWidth);
    var maxWidth := OrDefault(p.maxWidth, DefaultMaxWidth);
    if width <= minWidth then p.minValue
    else if width >= maxWidth then p.maxValue
    else
      var progress := (width - minWidth) / (maxWidth - minWidth);
      p.minValue + (p.maxValue - p.minValue) * progress
  }

  /** INTERPOLATED: half-way between the base value and PERCENTAGE. */
  function CalculateInterpolated(base: real, w: real): (r: real)
    ensures r - base == CalculatePercentage(base, w) - r
  {
    var linear := base * (w / DC.BaseWidthDp);
    base + (linear - base) * 0.5
  }

  /**
   * DIAGONAL: proportional to the diagonal, whichever way the device is
   * held; a positive base grows exactly on a diagonal longer than the
   * reference one.
   */
  function CalculateDiagonal(m: MathLib, base: real, smallest: real, largest: real): (r: real)
    ensures base > 0.0 ==> (r > base <==> m.sqrt(smallest * smallest + largest * largest) > DC.BaseDiagonal)
  {
    var ratio := m.sqrt(smallest * smallest + largest * largest) / DC.BaseDiagonal;
    DC.ScaleAboveOne(base, ratio, ratio - 1.0);
    base * ratio
  }

  /**
   * PERIMETER: proportional to the sum of the sides; a positive base grows
   * exactly when the sides add up to more than the reference perimeter.
   */
  function CalculatePerimeter(base: real, smallest: real, largest: real): (r: real)
    ensures base > 0.0 ==> (r > base <==> smallest + largest > DC.BasePerimeter)
  {
    var ratio := (smallest + largest) / DC.BasePerimeter;
    DC.ScaleAboveOne(base, ratio, ratio - 1.0);
    base * ratio
  }

  /** FIT: the smaller of the two side ratios, so a non-negative value fits along both axes. */
  function CalculateFit(base: real, smallest: real, largest: real): (r: real)
    ensures r == base * (smallest / DC.BaseWidthDp) || r == base * (largest / DC.BaseHeightDp)
    ensures base >= 0.0 ==> r <= base * (smallest / DC.BaseWidthDp) && r <= base * (largest / DC.BaseHeightDp)
  {
    var ratioW := smallest / DC.BaseWidthDp;
    var ratioH := largest / DC.BaseHeightDp;
    DC.MulMonotone(base, Min(ratioW, ratioH), ratioW);
    DC.MulMonotone(base, Min(ratioW, ratioH), ratioH);
    base * Min(ratioW, ratioH)
  }

  /** FILL: the larger of the two side ratios, so a non-negative value covers both axes. */
  function CalculateFill(base: real, smallest: real, largest: real): (r: real)
    ensures r == base * (smallest / DC.BaseWidthDp) || r == base * (largest / DC.BaseHeightDp)
    ensures base >= 0.0 ==> r >= base * (smallest / DC.BaseWidthDp) && r >= base * (largest / DC.BaseHeightDp)
  {
    var ratioW := smallest / DC.BaseWidthDp;
    var ratioH := largest / DC.BaseHeightDp;
    DC.MulMonotone(base, ratioW, Max(ratioW, ratioH));
    DC.MulMonotone(base, ratioH, Max(ratioW, ratioH));
    base * Max(ratioW, ratioH)
  }

  /** On a screen, DIAGONAL and PERIMETER depend on the two sides only, not on which is which. */
  lemma ScreenWideStrategiesIgnoreRotation(m: MathLib, base: real, c: WebConfig)
    ensures CalculateDiagonal(m, base, Smallest(c), Largest(c)) ==
      base * (m.sqrt(c.screenWidthDp * c.screenWidthDp + c.screenHeightDp * c.screenHeightDp) / DC.BaseDiagonal)
    ensures CalculatePerimeter(base, Smallest(c), Largest(c)) == base * ((c.screenWidthDp + c.screenHeightDp) / DC.BasePerimeter)
  {
    assert Smallest(c) * Smallest(c) + Largest(c) * Largest(c) ==
      c.screenWidthDp * c.screenWidthDp + c.screenHeightDp * c.screenHeightDp;
  }

  // ------------------------------------------------------------------
  // Constraints and dispatch
  // ------------------------------------------------------------------

  /** `maxPhysicalMm` in dp at the screen density. */
  function MaxPhysicalDp(mm: real, densityDpi: real): real
  {
    (mm / 25.4) * (densityDpi / 160.0)
  }

  /** The constraints as `calculate` applies them: raise to the minimum, lower to the maximum, lower to the physical cap. */
  function ApplyConstraints(value: real, densityDpi: real, k: DC.Constraints): (r: real)
    ensures k.maxValue.Some? ==> r <= k.maxValue.value
    ensures k.maxPhysicalMm.Some? ==> r <= MaxPhysicalDp(k.maxPhysicalMm.value, densityDpi)
    ensures k.minValue.Some? && k.maxValue.Some? && k.minValue.value <= k.maxValue.value && k.maxPhysicalMm.None? ==>
      k.minValue.value <= r <= k.maxValue.value
    ensures k.minValue.None? && k.maxValue.None? && k.maxPhysicalMm.None? ==> r == value
  {
    var r1 := if k.minValue.Some? then Max(value, k.minValue.value) else value;
    var r2 := if k.maxValue.Some? then Min(r1, k.maxValue.value) else r1;
    if k.maxPhysicalMm.Some? then Min(r2, MaxPhysicalDp(k.maxPhysicalMm.value, densityDpi)) else r2
  }

  /** On a screen of whole-number density the constraints are those of the Kotlin calculator. */
  lemma ConstraintsAgreeWithKotlin(value: real, densityDpi: real, dc: DC.CalculationConfig, k: DC.Constraints)
    requires dc.densityDpi as real == densityDpi
    ensures ApplyConstraints(value, densityDpi, k) == DC.ApplyConstraints(value, dc, k)
  {
  }

  /** The divisions DEFAULT (with the aspect ratio) and LOGARITHMIC make are by non-zero values. */
  predicate Defined(s: ScalingStrategy, c: WebConfig, t: ScreenType, b: BaseOrientation, dp: DefaultParams)
  {
    && (s == DEFAULT && AppliesAspectRatio(dp) ==> Smallest(c) != 0.0)
    && (s == LOGARITHMIC ==> Dimension(c, t, b) != 0.0)
  }

  /** The aspect ratio DEFAULT reads; not read, and 0 here, when it is switched off. */
  function DefaultAspectRatio(c: WebConfig, dp: DefaultParams): real
    requires AppliesAspectRatio(dp) ==> Smallest(c) != 0.0
  {
    if AppliesAspectRatio(dp) then AspectRatio(c) else 0.0
  }

  /** The value of the strategy switch, before the constraints. */
  function Unconstrained(ln: real -> real, m: MathLib, base: real, s: ScalingStrategy, c: WebConfig,
                         t: ScreenType, b: BaseOrientation, dp: DefaultParams, pp: PerceptualParams,
                         fp: Option<FluidParams>): real
    requires Defined(s, c, t, b, dp) && (s == FLUID ==> fp.Some?)
  {
    match s
    case DEFAULT => CalculateDefault(ln, base, Dimension(c, t, b), DefaultAspectRatio(c, dp), dp)
    case PERCENTAGE => CalculatePercentage(base, Dimension(c, t, b))
    case BALANCED => CalculateBalanced(ln, base, Dimension(c, t, b), pp)
    case LOGARITHMIC => CalculateLogarithmic(ln, base, Dimension(c, t, b), pp)
    case POWER => CalculatePower(m, base, Dimension(c, t, b), pp)
    case FLUID => CalculateFluid(Dimension(c, t, b), fp.value)
    case INTERPOLATED => CalculateInterpolated(base, Dimension(c, t, b))
    case DIAGONAL => CalculateDiagonal(m, base, Smallest(c), Largest(c))
    case PERIMETER => CalculatePerimeter(base, Smallest(c), Largest(c))
    case FIT => CalculateFit(base, Smallest(c), Largest(c))
    case FILL => CalculateFill(base, Smallest(c), Largest(c))
    case AUTOSIZE => base
    case NONE => base
  }

  /**
   * `calculate`: an error for FLUID without fluid parameters, otherwise the
   * strategy's value with the constraints applied.  With both bounds set
   * and ordered (and no physical cap) the value lies between them; NONE and
   * AUTOSIZE give the constrained base value.
   */
  function Calculate(ln: real -> real, m: MathLib, base: real, s: ScalingStrategy, c: WebConfig,
                     t: ScreenType, b: BaseOrientation, dp: DefaultParams, pp: PerceptualParams,
                     fp: Option<FluidParams>, k: DC.Constraints): (r: Result<real, string>)
    requires Defined(s, c, t, b, dp)
    ensures r.Err? <==> s == FLUID && fp.None?
    ensures r.Err? ==> r.error == FluidParamsRequired
    ensures r.Ok? && k.minValue.Some? && k.maxValue.Some? && k.minValue.value <= k.maxValue.value && k.maxPhysicalMm.None? ==>
      k.minValue.value <= r.value <= k.maxValue.value
    ensures s == NONE || s == AUTOSIZE ==> r == Ok(ApplyConstraints(base, c.densityDpi, k))
  {
    if s == FLUID && fp.None? then Err(FluidParamsRequired)
    else Ok(ApplyConstraints(Unconstrained(ln, m, base, s, c, t, b, dp, pp, fp), c.densityDpi, k))
  }

  /**
   * `calculate` as written: a fresh memo object, the switch with each
   * strategy's helper calls, the throw for FLUID without parameters, then
   * the constraints one by one.  The memo object changes nothing.
   */
  method CalculateCached(ln: real -> real, m: MathLib, base: real, s: ScalingStrategy, c: WebConfig,
                         t: ScreenType, b: BaseOrientation, dp: DefaultParams, pp: PerceptualParams,
                         fp: Option<FluidParams>, k: DC.Constraints) returns (r: Result<real, string>)
    requires Defined(s, c, t, b, dp)
    ensures r == Calculate(ln, m, base, s, c, t, b, dp, pp, fp, k)
  {
    if s == FLUID && fp.None? {
      return Err(FluidParamsRequired);
    }
    var value := UnconstrainedCached(ln, m, base, s, c, t, b, dp, pp, fp);
    var result := ConstrainStepwise(value, c.densityDpi, k);
    return Ok(result);
  }

  /** The `if (constraints)` block: each bound that is set, in turn. */
  method ConstrainStepwise(value: real, densityDpi: real, k: DC.Constraints) returns (result: real)
    ensures result == ApplyConstraints(value, densityDpi, k)
  {
    result := value;
    if k.minValue.Some? {
      result := Max(result, k.minValue.value);
    }
    if k.maxValue.Some? {
      result := Min(result, k.maxValue.value);
    }
    if k.maxPhysicalMm.Some? {
      var maxDp := (k.maxPhysicalMm.value / 25.4) * (densityDpi / 160.0);
      result := Min(result, maxDp);
    }
  }

  /** The switch of `calculate` over a fresh memo object. */
  method UnconstrainedCached(ln: real -> real, m: MathLib, base: real, s: ScalingStrategy, c: WebConfig,
                             t: ScreenType, b: BaseOrientation, dp: DefaultParams, pp: PerceptualParams,
                             fp: Option<FluidParams>) returns (result: real)
    requires Defined(s, c, t, b, dp) && (s == FLUID ==> fp.Some?)
    ensures result == Unconstrained(ln, m, base, s, c, t, b, dp, pp, fp)
  {
    var cache := new CalculationCache();
    match s
    case DEFAULT =>
      var screenDp := ResolvedDimension(cache, t, b, c);
      var ar := 0.0;
      if AppliesAspectRatio(dp) {
        ar := cache.GetAspectRatio(c);
      }
      result := CalculateDefault(ln, base, screenDp, ar, dp);
    case PERCENTAGE =>
      var screenDp := ResolvedDimension(cache, t, b, c);
      result := CalculatePercentage(base, screenDp);
    case BALANCED =>
      var screenDp := ResolvedDimension(cache, t, b, c);
      result := CalculateBalanced(ln, base, screenDp, pp);
    case LOGARITHMIC =>
      var screenDp := ResolvedDimension(cache, t, b, c);
      result := CalculateLogarithmic(ln, base, screenDp, pp);
    case POWER =>
      var screenDp := ResolvedDimension(cache, t, b, c);
      result := CalculatePower(m, base, screenDp, pp);
    case FLUID =>
      var width := ResolvedDimension(cache, t, b, c);
      result := CalculateFluid(width, fp.value);
    case INTERPOLATED =>
      var w := ResolvedDimension(cache, t, b, c);
      result := CalculateInterpolated(base, w);
    case DIAGONAL =>
      result := CalculateDiagonal(m, base, cache.SmallestOrMin(c), cache.LargestOrMax(c));
    case PERIMETER =>
      result := CalculatePerimeter(base, cache.SmallestOrMin(c), cache.LargestOrMax(c));
    case FIT =>
      result := CalculateFit(base, cache.SmallestOrMin(c), cache.LargestOrMax(c));
    case FILL =>
      result := CalculateFill(base, cache.SmallestOrMin(c), cache.LargestOrMax(c));
    case AUTOSIZE =>
      result := base;
    case NONE =>
      result := base;
  }

  // ------------------------------------------------------------------
  // Properties of `calculate`
  // ------------------------------------------------------------------

  /**
   * On the 300dp reference the dimension-based strategies keep the base
   * value: PERCENTAGE and INTERPOLATED always, BALANCED when the transition
   * point is not below 300, LOGARITHMIC with a logarithm vanishing at 1,
   * POWER with a lawful power, and DEFAULT when the aspect ratio is off.
   */
  lemma ReferenceDimensionKeepsBase(ln: real -> real, m: MathLib, base: real, s: ScalingStrategy, c: WebConfig,
                                    t: ScreenType, b: BaseOrientation, dp: DefaultParams, pp: PerceptualParams)
    requires Defined(s, c, t, b, dp) && Dimension(c, t, b) == DC.BaseWidthDp
    requires LnTables.VanishesNearOne(ln) && Lawful(m)
    ensures s == PERCENTAGE ==> Unconstrained(ln, m, base, s, c, t, b, dp, pp, None) == base
    ensures s == INTERPOLATED ==> Unconstrained(ln, m, base, s, c, t, b, dp, pp, None) == base
    ensures s == BALANCED && DC.BaseWidthDp <= TransitionPoint(pp) ==> Unconstrained(ln, m, base, s, c, t, b, dp, pp, None) == base
    ensures s == LOGARITHMIC ==> Unconstrained(ln, m, base, s, c, t, b, dp, pp, None) == base
    ensures s == POWER ==> Unconstrained(ln, m, base, s, c, t, b, dp, pp, None) == base
    ensures s == DEFAULT && !AppliesAspectRatio(dp) ==> Unconstrained(ln, m, base, s, c, t, b, dp, pp, None) == base
  {
  }

  /** For a non-negative base value FIT never exceeds FILL, before and after the constraints. */
  lemma FitAtMostFill(ln: real -> real, m: MathLib, base: real, c: WebConfig, t: ScreenType, b: BaseOrientation,
                      dp: DefaultParams, pp: PerceptualParams, k: DC.Constraints)
    requires base >= 0.0
    ensures Calculate(ln, m, base, FIT, c, t, b, dp, pp, None, k).value <= Calculate(ln, m, base, FILL, c, t, b, dp, pp, None, k).value
  {
    var fit := CalculateFit(base, Smallest(c), Largest(c));
    var fill := CalculateFill(base, Smallest(c), Largest(c));
    assert fit <= fill;
    ConstraintsMonotone(fit, fill, c.densityDpi, k);
  }

  /** Constraining is monotone. */
  lemma ConstraintsMonotone(v1: real, v2: real, densityDpi: real, k: DC.Constraints)
    requires v1 <= v2
    ensures ApplyConstraints(v1, densityDpi, k) <= ApplyConstraints(v2, densityDpi, k)
  {
  }

  /**
   * A zero sensitivity or transition point cannot be requested: `||`
   * replaces it by the default, exactly as if it were absent.
   */
  lemma ZeroParametersAreDefaults(ln: real -> real, base: real, screenDp: real, p: PerceptualParams)
    requires p.sensitivity == Some(0.0) && p.transitionPoint == Some(0.0)
    ensures CalculateBalanced(ln, base, screenDp, p) == CalculateBalanced(ln, base, screenDp, PerceptualParams(None, p.powerExponent, None))
  {
  }

  // ------------------------------------------------------------------
  // Strategy inference
  // ------------------------------------------------------------------

  /** The element tags `inferStrategy` distinguishes; `OTHER` is any tag the switch does not name. */
  datatype ElementType =
    | BUTTON | CHIP | FAB | TEXT | HEADER | ICON | BADGE | IMAGE | CONTAINER | CARD | SPACING | DIVIDER | GAME_UI | OTHER

  /**
   * `inferStrategy`: icons and badges DEFAULT, images, containers and cards
   * PERCENTAGE, the divider NONE, game UI FIT, and every other tag BALANCED.
   */
  function InferStrategy(e: ElementType): (r: ScalingStrategy)
    ensures r == DEFAULT <==> e == ICON || e == BADGE
    ensures r == PERCENTAGE <==> e == IMAGE || e == CONTAINER || e == CARD
    ensures r == NONE <==> e == DIVIDER
    ensures r == FIT <==> e == GAME_UI
    ensures r == BALANCED || r == DEFAULT || r == PERCENTAGE || r == NONE || r == FIT
  {
    match e
    case BUTTON | CHIP | FAB => BALANCED
    case TEXT | HEADER => BALANCED
    case ICON | BADGE => DEFAULT
    case IMAGE | CONTAINER | CARD => PERCENTAGE
    case SPACING => BALANCED
    case DIVIDER => NONE
    case GAME_UI => FIT
    case _ => BALANCED
  }

  /** The inferred strategy never needs fluid parameters, so `calculate` accepts it without them. */
  lemma InferredStrategyNeverThrows(ln: real -> real, m: MathLib, base: real, e: ElementType, c: WebConfig,
                                    t: ScreenType, b: BaseOrientation, pp: PerceptualParams, k: DC.Constraints)
    requires InferStrategy(e) != DEFAULT || Smallest(c) != 0.0
    ensures Defined(InferStrategy(e), c, t, b, NoDefaultParams)
    ensures Calculate(ln, m, base, InferStrategy(e), c, t, b, NoDefaultParams, pp, None, k).Ok?
  {
  }
}
