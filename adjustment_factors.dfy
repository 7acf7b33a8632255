/**
 * `AppDimensAdjustmentFactors`, the helpers of the dynamic module's View
 * system: the qualifier search that picks a custom base value, the
 * intersection test, the aspect ratio, the basic adjustment factors and the
 * orientation rule.
 *
 * The platform logarithm `kotlin.math.ln` is a parameter `ln`.  Float
 * arithmetic is exact here; the `toFloat()` rounding of the logarithmic
 * term is not modelled.
 */
module AdjustmentFactors {
  import opened Numerics
  import opened Screens
  import opened Qualifiers
  import Extensions

  const BaseDpFactor: real := 1.0
  const BaseWidthDp: real := 300.0
  const IncrementDpStep: real := 1.0
  const ReferenceAr: real := 1.78
  const DefaultSensitivityK: real := 0.08 / 30.0
  const BaseIncrement: real := 0.10 / 30.0

  /** The measures of an Android `Configuration` these helpers read, in whole dp. */
  datatype Configuration = Configuration(screenWidthDp: int, screenHeightDp: int, smallestScreenWidthDp: int)

  /** `ScreenAdjustmentFactors`. */
  datatype ScreenAdjustmentFactors = ScreenAdjustmentFactors(
    withArFactorLowest: real,
    withArFactorHighest: real,
    withoutArFactor: real,
    adjustmentFactorLowest: real,
    adjustmentFactorHighest: real)

  // ------------------------------------------------------------------
  // Qualifiers
  // ------------------------------------------------------------------

  /** The screen measure a qualifier type compares against. */
  function Measure(kind: DpQualifier, smallestWidthDp: real, width: real, height: real): real
  {
    match kind
    case SMALL_WIDTH => smallestWidthDp
    case WIDTH => width
    case HEIGHT => height
  }

  /** The entry is of type `kind` and the measure reaches its threshold. */
  predicate Passes(e: DpQualifierEntry, kind: DpQualifier, measure: real)
  {
    e.kind == kind && measure >= DpThreshold(e)
  }

  predicate SomePasses(entries: seq<(DpQualifierEntry, real)>, kind: DpQualifier, measure: real)
  {
    exists i :: 0 <= i < |entries| && Passes(entries[i].0, kind, measure)
  }

  /**
   * `v` is stored with a passing entry whose threshold no passing entry
   * exceeds, the first such entry in order.
   */
  predicate LargestPassing(entries: seq<(DpQualifierEntry, real)>, kind: DpQualifier, measure: real, v: real)
  {
    exists i :: 0 <= i < |entries| && Passes(entries[i].0, kind, measure) && entries[i].1 == v &&
      (forall j :: 0 <= j < |entries| && Passes(entries[j].0, kind, measure) ==> DpThreshold(entries[j].0) <= DpThreshold(entries[i].0)) &&
      forall j :: 0 <= j < i && Passes(entries[j].0, kind, measure) ==> DpThreshold(entries[j].0) < DpThreshold(entries[i].0)
  }

  /**
   * `sortedQualifiers.firstOrNull { type == kind && measure >= value }?.value`:
   * among the entries sorted by descending threshold (a stable sort), the
   * first that passes.
   */
  function FirstPassingDescending(entries: seq<(DpQualifierEntry, real)>, kind: DpQualifier, measure: real): (r: Option<real>)
    ensures r.None? <==> !SomePasses(entries, kind, measure)
    ensures r.Some? ==> LargestPassing(entries, kind, measure, r.value)
  {
    SelectValue(entries, (e: DpQualifierEntry) => Passes(e, kind, measure), DpThreshold)
  }

  /**
   * The value `resolveQualifierDp` settles on: a smallest-width qualifier the
   * screen reaches wins, else a height qualifier, else a width qualifier;
   * within a type the largest threshold reached; with none reached, the
   * initial value.
   */
  function QualifierDp(customDpMap: seq<(DpQualifierEntry, real)>, smallestWidthDp: real,
                       currentScreenWidthDp: real, currentScreenHeightDp: real, initialBaseDp: real): (r: real)
    ensures SomePasses(customDpMap, SMALL_WIDTH, smallestWidthDp) ==>
      LargestPassing(customDpMap, SMALL_WIDTH, smallestWidthDp, r)
    ensures !SomePasses(customDpMap, SMALL_WIDTH, smallestWidthDp) && SomePasses(customDpMap, HEIGHT, currentScreenHeightDp) ==>
      LargestPassing(customDpMap, HEIGHT, currentScreenHeightDp, r)
    ensures (!SomePasses(customDpMap, SMALL_WIDTH, smallestWidthDp) && !SomePasses(customDpMap, HEIGHT, currentScreenHeightDp) &&
             SomePasses(customDpMap, WIDTH, currentScreenWidthDp)) ==>
      LargestPassing(customDpMap, WIDTH, currentScreenWidthDp, r)
    ensures (!SomePasses(customDpMap, SMALL_WIDTH, smallestWidthDp) && !SomePasses(customDpMap, HEIGHT, currentScreenHeightDp) &&
             !SomePasses(customDpMap, WIDTH, currentScreenWidthDp)) ==> r == initialBaseDp
  {
    var bySmallestWidth := FirstPassingDescending(customDpMap, SMALL_WIDTH, smallestWidthDp);
    var byHeight := FirstPassingDescending(customDpMap, HEIGHT, currentScreenHeightDp);
    var byWidth := FirstPassingDescending(customDpMap, WIDTH, currentScreenWidthDp);
    if bySmallestWidth.Some? then bySmallestWidth.value
    else if byHeight.Some? then byHeight.value
    else if byWidth.Some? then byWidth.value
    else initialBaseDp
  }

  /** `resolveQualifierDp`, step by step on its local variables. */
  method ResolveQualifierDp(customDpMap: seq<(DpQualifierEntry, real)>, smallestWidthDp: real,
                            currentScreenWidthDp: real, currentScreenHeightDp: real, initialBaseDp: real)
    returns (dpToAdjust: real)
    ensures dpToAdjust == QualifierDp(customDpMap, smallestWidthDp, currentScreenWidthDp, currentScreenHeightDp, initialBaseDp)
  {
    dpToAdjust := initialBaseDp;
    var foundCustomDp := FirstPassingDescending(customDpMap, SMALL_WIDTH, smallestWidthDp);
    if foundCustomDp.Some? {
      dpToAdjust := foundCustomDp.value;
    } else {
      foundCustomDp := FirstPassingDescending(customDpMap, HEIGHT, currentScreenHeightDp);
      if foundCustomDp.Some? {
        dpToAdjust := foundCustomDp.value;
      } else {
        foundCustomDp := FirstPassingDescending(customDpMap, WIDTH, currentScreenWidthDp);
        if foundCustomDp.Some? {
          dpToAdjust := foundCustomDp.value;
        }
      }
    }
  }

  /**
   * `resolveIntersectionCondition`: the screen reaches the entry's threshold
   * in the entry's own measure, which is the test the qualifier search
   * applies to entries of that type.
   */
  function ResolveIntersectionCondition(entry: DpQualifierEntry, smallestWidthDp: real,
                                        currentScreenWidthDp: real, currentScreenHeightDp: real): (r: bool)
    ensures r <==> Passes(entry, entry.kind, Measure(entry.kind, smallestWidthDp, currentScreenWidthDp, currentScreenHeightDp))
  {
    match entry.kind
    case HEIGHT => currentScreenHeightDp >= entry.value as real
    case WIDTH => currentScreenWidthDp >= entry.value as real
    case _ => smallestWidthDp >= entry.value as real
  }

  // ------------------------------------------------------------------
  // Aspect ratio and adjustment factors
  // ------------------------------------------------------------------

  /** `getReferenceAspectRatio`: the larger side over the smaller one. */
  function GetReferenceAspectRatio(screenWidthDp: real, screenHeightDp: real): (r: real)
    requires Min(screenWidthDp, screenHeightDp) != 0.0
    ensures r == Max(screenWidthDp, screenHeightDp) / Min(screenWidthDp, screenHeightDp)
    ensures screenWidthDp > 0.0 && screenHeightDp > 0.0 ==> r >= 1.0
  {
    AspectRatioAtLeastOne(screenWidthDp, screenHeightDp);
    if screenWidthDp > screenHeightDp then screenWidthDp / screenHeightDp
    else screenHeightDp / screenWidthDp
  }

  lemma AspectRatioAtLeastOne(w: real, h: real)
    requires Min(w, h) != 0.0
    ensures w > 0.0 && h > 0.0 ==> Max(w, h) / Min(w, h) >= 1.0
  {
    if w > 0.0 && h > 0.0 {
      Numerics.RatioAtLeastOne(Max(w, h), Min(w, h));
    }
  }

  /** The aspect ratio does not depend on which side is the width. */
  lemma AspectRatioSwapSymmetric(w: real, h: real)
    requires Min(w, h) != 0.0
    ensures GetReferenceAspectRatio(w, h) == GetReferenceAspectRatio(h, w)
  {
  }

  /** The aspect ratio of a configuration, as the factors read it. */
  function ConfigurationAr(c: Configuration): real
    requires Min(c.screenWidthDp as real, c.screenHeightDp as real) != 0.0
  {
    GetReferenceAspectRatio(c.screenWidthDp as real, c.screenHeightDp as real)
  }

  /** `finalIncrementValueWithAr`: the base increment plus the logarithmic aspect-ratio term. */
  function IncrementWithAr(ln: real -> real, c: Configuration): real
    requires Min(c.screenWidthDp as real, c.screenHeightDp as real) != 0.0
  {
    BaseIncrement + DefaultSensitivityK * ln(ConfigurationAr(c) / ReferenceAr)
  }

  /**
   * `calculateAdjustmentFactors`: the differences of the smallest width
   * and of the larger side from 300, the factor without the aspect ratio
   * (proportional to the smallest width, 1 exactly at 300), and the two
   * factors with it.
   */
  function CalculateAdjustmentFactors(ln: real -> real, c: Configuration): (r: ScreenAdjustmentFactors)
    requires Min(c.screenWidthDp as real, c.screenHeightDp as real) != 0.0
    ensures r.adjustmentFactorLowest == c.smallestScreenWidthDp as real - BaseWidthDp
    ensures r.adjustmentFactorHighest == Max(c.screenWidthDp as real, c.screenHeightDp as real) - BaseWidthDp
    ensures r.withoutArFactor * BaseWidthDp == c.smallestScreenWidthDp as real
    ensures r.withoutArFactor == 1.0 <==> c.smallestScreenWidthDp == 300
    ensures r.withArFactorLowest == 1.0 + r.adjustmentFactorLowest * IncrementWithAr(ln, c)
    ensures r.withArFactorHighest == 1.0 + r.adjustmentFactorHighest * IncrementWithAr(ln, c)
  {
    var smallestWidthDp := c.smallestScreenWidthDp as real;
    var currentScreenWidthDp := c.screenWidthDp as real;
    var currentScreenHeightDp := c.screenHeightDp as real;
    var highestDimensionDp := Max(currentScreenWidthDp, currentScreenHeightDp);
    var adjustmentFactorLowest := (smallestWidthDp - BaseWidthDp) / IncrementDpStep;
    var adjustmentFactorHighest := (highestDimensionDp - BaseWidthDp) / IncrementDpStep;
    var withoutArFactor := BaseDpFactor + adjustmentFactorLowest * BaseIncrement;
    var currentAr := GetReferenceAspectRatio(currentScreenWidthDp, currentScreenHeightDp);
    var continuousAdjustment := DefaultSensitivityK * ln(currentAr / ReferenceAr);
    var finalIncrementValueWithAr := BaseIncrement + continuousAdjustment;
    ScreenAdjustmentFactors(
      BaseDpFactor + adjustmentFactorLowest * finalIncrementValueWithAr,
      BaseDpFactor + adjustmentFactorHighest * finalIncrementValueWithAr,
      withoutArFactor,
      adjustmentFactorLowest,
      adjustmentFactorHighest)
  }

  /**
   * At the 1.78 reference ratio the logarithmic term vanishes (given
   * ln(1) = 0), and the lowest factor with the aspect ratio is the factor
   * without it.
   */
  lemma ReferenceRatioAddsNothing(ln: real -> real, c: Configuration)
    requires Min(c.screenWidthDp as real, c.screenHeightDp as real) != 0.0
    requires ln(1.0) == 0.0 && ConfigurationAr(c) == ReferenceAr
    ensures CalculateAdjustmentFactors(ln, c).withArFactorLowest == CalculateAdjustmentFactors(ln, c).withoutArFactor
  {
    assert ConfigurationAr(c) / ReferenceAr == 1.0;
    assert IncrementWithAr(ln, c) == BaseIncrement;
  }

  /**
   * With a non-negative increment, and a larger side at least the smallest
   * width (as on any real screen), the HIGHEST factor is at least the LOWEST.
   */
  lemma HighestAtLeastLowest(ln: real -> real, c: Configuration)
    requires Min(c.screenWidthDp as real, c.screenHeightDp as real) != 0.0
    requires IncrementWithAr(ln, c) >= 0.0
    requires Max(c.screenWidthDp as real, c.screenHeightDp as real) >= c.smallestScreenWidthDp as real
    ensures CalculateAdjustmentFactors(ln, c).withArFactorHighest >= CalculateAdjustmentFactors(ln, c).withArFactorLowest
  {
    var r := CalculateAdjustmentFactors(ln, c);
    FactorOrdered(r.withArFactorLowest, r.withArFactorHighest,
                  r.adjustmentFactorLowest, r.adjustmentFactorHighest, IncrementWithAr(ln, c));
  }

  /** One plus a multiple of a non-negative increment grows with the multiplier. */
  lemma FactorOrdered(lowest: real, highest: real, a: real, b: real, k: real)
    requires lowest == 1.0 + a * k && highest == 1.0 + b * k
    requires a <= b && k >= 0.0
    ensures lowest <= highest
  {
    Extensions.MulNonNeg(b - a, k);
    assert (b - a) * k == b * k - a * k;
  }

  // ------------------------------------------------------------------
  // Orientation
  // ------------------------------------------------------------------

  /**
   * `resolveScreenType`: AUTO keeps the requested type; a portrait design
   * inverts it on a screen that is not taller than wide, a landscape design
   * on one that is.
   */
  function ResolveScreenType(requested: ScreenType, b: BaseOrientation, c: Configuration): (r: ScreenType)
    ensures r == Screens.ResolveScreenType(requested, b, c.screenWidthDp as real, c.screenHeightDp as real)
    ensures r == requested || r == Inverted(requested)
  {
    if b == AUTO then requested
    else
      var currentIsPortrait := c.screenHeightDp > c.screenWidthDp;
      var currentIsLandscape := !currentIsPortrait;
      var shouldInvert := match b
        case PORTRAIT => currentIsLandscape
        case LANDSCAPE => currentIsPortrait
        case AUTO => false;
      if shouldInvert then (match requested case LOWEST => HIGHEST case HIGHEST => LOWEST)
      else requested
  }

  /** The inversion is a swap: resolving the resolved type again gives back the requested one. */
  lemma ResolveTwiceRestores(requested: ScreenType, b: BaseOrientation, c: Configuration)
    ensures ResolveScreenType(ResolveScreenType(requested, b, c), b, c) == requested
  {
  }
}
