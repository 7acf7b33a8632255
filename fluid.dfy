/**
 * Fluid sizing (`compose/AppDimensFluid.kt`): a value that grows linearly
 * from `minValue` to `maxValue` as the screen dimension goes from `minWidth`
 * to `maxWidth`, flat outside that range, with optional per-device and
 * per-screen-width overrides.
 *
 * `InterpolateFluid` is the clamp-interpolation every port shares (the
 * builder's `interpolate`, the dynamic calculator's `interpolateFluid`, the
 * games calculators' `calculateFluid`).  The builder object itself is the
 * class `AppDimensFluid`: its fluent setters update its fields and qualifier
 * maps in place.
 */
module Fluid {
  import opened Numerics
  import opened Screens
  import Extensions
  import Qualifiers

  /** `FluidConfig`: one interpolation range. */
  datatype FluidConfig = FluidConfig(
    minValue: real,
    maxValue: real,
    minWidth: real,
    maxWidth: real,
    baseOrientation: BaseOrientation,
    screenType: ScreenType)

  /** `FluidDeviceType`. */
  datatype FluidDeviceType = PHONE | TABLET | TV | WATCH | AUTO

  /**
   * At or below `minWidth` the minimum, at or above `maxWidth` the maximum,
   * linear in between.
   */
  function InterpolateFluid(width: real, min: real, max: real, minWidth: real, maxWidth: real): (r: real)
    ensures width <= minWidth ==> r == min
    ensures minWidth < width && maxWidth <= width ==> r == max
    ensures Min(min, max) <= r <= Max(min, max)
    ensures minWidth < width < maxWidth ==>
      r == Extensions.Lerp(min, max, (width - minWidth) / (maxWidth - minWidth))
  {
    if width <= minWidth then min
    else if width >= maxWidth then max
    else
      var progress := (width - minWidth) / (maxWidth - minWidth);
      ProgressInUnit(width, minWidth, maxWidth);
      Extensions.LerpBetween(min, max, progress);
      min + (max - min) * progress
  }

  lemma ProgressInUnit(width: real, minWidth: real, maxWidth: real)
    requires minWidth < width < maxWidth
    ensures 0.0 < (width - minWidth) / (maxWidth - minWidth) < 1.0
  {
    var a := width - minWidth;
    var b := maxWidth - minWidth;
    var q := a / b;
    assert q * b == a;
    if q >= 1.0 {
      assert (q - 1.0) * b == q * b - b;
      Extensions.MulNonNeg(q - 1.0, b);
    }
    if q <= 0.0 {
      assert (-q) * b == -(q * b);
      Extensions.MulNonNeg(-q, b);
    }
  }

  /** `interpolate(width, config)`: the configured minimum up to `minWidth`, the maximum from `maxWidth`, always between them. */
  function Interpolate(width: real, c: FluidConfig): (r: real)
    ensures width <= c.minWidth ==> r == c.minValue
    ensures c.minWidth < width && c.maxWidth <= width ==> r == c.maxValue
    ensures Min(c.minValue, c.maxValue) <= r <= Max(c.minValue, c.maxValue)
  {
    InterpolateFluid(width, c.minValue, c.maxValue, c.minWidth, c.maxWidth)
  }

  /** A growing range grows with the screen: the interpolation is monotone in the width. */
  lemma InterpolateFluidMonotone(w1: real, w2: real, min: real, max: real, minWidth: real, maxWidth: real)
    requires w1 <= w2
    requires min <= max
    ensures InterpolateFluid(w1, min, max, minWidth, maxWidth) <= InterpolateFluid(w2, min, max, minWidth, maxWidth)
  {
    if minWidth < w1 < maxWidth && minWidth < w2 < maxWidth {
      var d := maxWidth - minWidth;
      var p1 := (w1 - minWidth) / d;
      var p2 := (w2 - minWidth) / d;
      assert p1 <= p2 by {
        assert p2 - p1 == (w2 - w1) / d;
      }
      assert (max - min) * p1 <= (max - min) * p2 by {
        assert (max - min) * p2 - (max - min) * p1 == (max - min) * (p2 - p1);
        Extensions.MulNonNeg(max - min, p2 - p1);
      }
    }
  }

  /** A LinkedHashMap's entries: each key at most once. */
  ghost predicate UniqueKeys<K, V>(s: seq<(K, V)>)
  {
    forall i, j :: 0 <= i < j < |s| ==> s[i].0 != s[j].0
  }

  /** `map[key] = value` on an insertion-ordered map: replace in place, or append. */
  function Put<K(==), V>(s: seq<(K, V)>, key: K, value: V): (r: seq<(K, V)>)
    ensures UniqueKeys(s) ==> UniqueKeys(r)
    ensures (key, value) in r
    ensures forall i :: 0 <= i < |s| && s[i].0 != key ==> s[i] in r
    ensures forall e :: e in r && e.0 != key ==> e in s
    ensures |r| == |s| || |r| == |s| + 1
  {
    if |s| == 0 then [(key, value)]
    else if s[0].0 == key then [(key, value)] + s[1..]
    else [s[0]] + Put(s[1..], key, value)
  }

  /**
   * A matching screen qualifier, as the `resolveConfig` loop tests it: the
   * width reaches it and it beats the running largest, which starts at 0.
   */
  predicate ScreenMatches(width: real, e: (int, FluidConfig))
  {
    width >= e.0 as real && e.0 > 0
  }

  function QualifierScore(e: (int, FluidConfig)): real
  {
    e.0 as real
  }

  class AppDimensFluid {
    const minValue: real
    const maxValue: real
    const minWidth: real
    const maxWidth: real
    var baseOrientation: BaseOrientation
    var screenType: ScreenType
    var deviceQualifiers: map<FluidDeviceType, FluidConfig>
    /** Entries in insertion order (a `mutableMapOf` iterates that way). */
    var screenQualifiers: seq<(int, FluidConfig)>

    ghost predicate Valid()
      reads this
    {
      UniqueKeys(screenQualifiers)
    }

    /** The range used when no qualifier applies. */
    function DefaultConfig(): (c: FluidConfig)
      reads this
      ensures c.minValue == minValue && c.maxValue == maxValue
      ensures c.minWidth == minWidth && c.maxWidth == maxWidth
    {
      FluidConfig(minValue, maxValue, minWidth, maxWidth, Screens.AUTO, LOWEST)
    }

    /** `AppDimensFluid(minValue, maxValue, minWidth, maxWidth)` with no qualifiers, AUTO and LOWEST. */
    constructor(minValue: real, maxValue: real, minWidth: real, maxWidth: real)
      ensures this.minValue == minValue && this.maxValue == maxValue
      ensures this.minWidth == minWidth && this.maxWidth == maxWidth
      ensures baseOrientation == Screens.AUTO && screenType == LOWEST
      ensures deviceQualifiers == map[] && screenQualifiers == []
      ensures Valid()
    {
      this.minValue := minValue;
      this.maxValue := maxValue;
      this.minWidth := minWidth;
      this.maxWidth := maxWidth;
      baseOrientation := Screens.AUTO;
      screenType := LOWEST;
      deviceQualifiers := map[];
      screenQualifiers := [];
    }

    /** `device(type, minValue, maxValue, minWidth, maxWidth)`: set the range for a device type. */
    method Device(t: FluidDeviceType, minV: real, maxV: real, minW: real, maxW: real) returns (self: AppDimensFluid)
      modifies this
      ensures self == this
      ensures deviceQualifiers == old(deviceQualifiers)[t := FluidConfig(minV, maxV, minW, maxW, Screens.AUTO, LOWEST)]
      ensures screenQualifiers == old(screenQualifiers)
      ensures baseOrientation == old(baseOrientation) && screenType == old(screenType)
    {
      deviceQualifiers := deviceQualifiers[t := FluidConfig(minV, maxV, minW, maxW, Screens.AUTO, LOWEST)];
      self := this;
    }

    /** `screen(qualifier, minValue, maxValue, minWidth, maxWidth)`: set the range from a width on. */
    method Screen(qualifier: int, minV: real, maxV: real, minW: real, maxW: real) returns (self: AppDimensFluid)
      requires Valid()
      modifies this
      ensures self == this && Valid()
      ensures screenQualifiers == Put(old(screenQualifiers), qualifier, FluidConfig(minV, maxV, minW, maxW, Screens.AUTO, LOWEST))
      ensures deviceQualifiers == old(deviceQualifiers)
      ensures baseOrientation == old(baseOrientation) && screenType == old(screenType)
    {
      screenQualifiers := Put(screenQualifiers, qualifier, FluidConfig(minV, maxV, minW, maxW, Screens.AUTO, LOWEST));
      self := this;
    }

    /** `baseOrientation(orientation)`. */
    method WithBaseOrientation(orientation: BaseOrientation) returns (self: AppDimensFluid)
      modifies this
      ensures self == this && baseOrientation == orientation && screenType == old(screenType)
      ensures deviceQualifiers == old(deviceQualifiers) && screenQualifiers == old(screenQualifiers)
    {
      baseOrientation := orientation;
      self := this;
    }

    /** `type(type)`. */
    method WithType(t: ScreenType) returns (self: AppDimensFluid)
      modifies this
      ensures self == this && screenType == t && baseOrientation == old(baseOrientation)
      ensures deviceQualifiers == old(deviceQualifiers) && screenQualifiers == old(screenQualifiers)
    {
      screenType := t;
      self := this;
    }

    /** `portraitLowest()` and its three siblings: a design orientation and a screen type at once. */
    method WithOrientationAndType(orientation: BaseOrientation, t: ScreenType) returns (self: AppDimensFluid)
      modifies this
      ensures self == this && baseOrientation == orientation && screenType == t
      ensures deviceQualifiers == old(deviceQualifiers) && screenQualifiers == old(screenQualifiers)
    {
      baseOrientation := orientation;
      screenType := t;
      self := this;
    }

    /** `getPreferred()`: the midpoint of the range. */
    function GetPreferred(): (r: real)
      reads this
      ensures r - minValue == maxValue - r
    {
      (minValue + maxValue) / 2.0
    }

    /** `lerp(t)`: the fraction is clamped to [0, 1] before interpolating. */
    function Lerp(t: real): (r: real)
      reads this
      ensures t <= 0.0 ==> r == minValue
      ensures t >= 1.0 ==> r == maxValue
      ensures Min(minValue, maxValue) <= r <= Max(minValue, maxValue)
    {
      Extensions.Lerp(minValue, maxValue, Extensions.Clamp(t, 0.0, 1.0))
    }

    /** The preferred value is the range's value at the half-way fraction. */
    lemma PreferredIsHalfway()
      ensures Lerp(0.5) == GetPreferred()
    {
    }

    /** The range `resolveConfig` picks, stated with the first-largest selection. */
    function ResolvedConfig(width: real, deviceType: Option<FluidDeviceType>): FluidConfig
      reads this
    {
      if deviceType.Some? && deviceType.value in deviceQualifiers then deviceQualifiers[deviceType.value]
      else
        var k := Qualifiers.FirstMaxIndex(screenQualifiers, (e: (int, FluidConfig)) => ScreenMatches(width, e), QualifierScore);
        if k.Some? then screenQualifiers[k.value].1 else DefaultConfig()
    }

    /**
     * `resolveConfig(width, deviceType)`: the range of the requested device
     * type if one was set; otherwise the range of the largest positive screen
     * qualifier the width reaches; otherwise the default range.
     */
    method ResolveConfig(width: real, deviceType: Option<FluidDeviceType>) returns (c: FluidConfig)
      ensures c == ResolvedConfig(width, deviceType)
      ensures deviceType.Some? && deviceType.value in deviceQualifiers ==> c == deviceQualifiers[deviceType.value]
      ensures !(deviceType.Some? && deviceType.value in deviceQualifiers) ==>
        if exists i :: 0 <= i < |screenQualifiers| && ScreenMatches(width, screenQualifiers[i]) then
          exists i :: 0 <= i < |screenQualifiers| && ScreenMatches(width, screenQualifiers[i]) &&
            c == screenQualifiers[i].1 &&
            forall j :: 0 <= j < |screenQualifiers| && ScreenMatches(width, screenQualifiers[j]) ==>
              screenQualifiers[j].0 <= screenQualifiers[i].0
        else c == DefaultConfig()
    {
      if deviceType.Some? && deviceType.value in deviceQualifiers {
        return deviceQualifiers[deviceType.value];
      }
      var qs := screenQualifiers;
      var ok := (e: (int, FluidConfig)) => ScreenMatches(width, e);
      var matched: Option<FluidConfig> := None;
      var largestQualifier := 0;
      var i := 0;
      while i < |qs|
        invariant 0 <= i <= |qs|
        invariant var k := Qualifiers.FirstMaxIndex(qs[..i], ok, QualifierScore);
          && (k.None? <==> matched.None?)
          && (k.None? ==> largestQualifier == 0)
          && (k.Some? ==> matched == Some(qs[k.value].1) && largestQualifier == qs[k.value].0 > 0)
      {
        Qualifiers.FirstMaxIndexStep(qs, i, ok, QualifierScore);
        var (qualifier, config) := qs[i];
        if width >= qualifier as real && qualifier > largestQualifier {
          matched := Some(config);
          largestQualifier := qualifier;
        }
        i := i + 1;
      }
      assert qs[..i] == qs;
      var k := Qualifiers.FirstMaxIndex(qs, ok, QualifierScore);
      if matched.Some? {
        c := matched.value;
        assert ScreenMatches(width, qs[k.value]);
      } else {
        c := DefaultConfig();
      }
    }

    /**
     * `calculate(configuration, deviceType)`: resolve the screen type from the
     * design orientation, read that side of the (whole-dp) configuration,
     * pick the range and interpolate.
     */
    method Calculate(screenWidthDp: int, screenHeightDp: int, deviceType: Option<FluidDeviceType>) returns (r: real)
      ensures var d := OrientedDimension(screenType, baseOrientation, screenWidthDp as real, screenHeightDp as real);
        r == Interpolate(d, ResolvedConfig(d, deviceType))
      ensures var d := OrientedDimension(screenType, baseOrientation, screenWidthDp as real, screenHeightDp as real);
        deviceQualifiers == map[] && screenQualifiers == [] ==>
          r == InterpolateFluid(d, minValue, maxValue, minWidth, maxWidth)
    {
      var effective := ResolveScreenType(screenType, baseOrientation, screenWidthDp as real, screenHeightDp as real);
      var dimensionDp := DimensionFor(effective, screenWidthDp as real, screenHeightDp as real);
      var config := ResolveConfig(dimensionDp, deviceType);
      r := Interpolate(dimensionDp, config);
    }

    /** The deprecated `calculate(screenWidthDp, deviceType)`: the given width, no orientation handling. */
    method CalculateForWidth(screenWidthDp: real, deviceType: Option<FluidDeviceType>) returns (r: real)
      ensures deviceQualifiers == map[] && screenQualifiers == [] ==>
        r == InterpolateFluid(screenWidthDp, minValue, maxValue, minWidth, maxWidth)
      ensures minValue <= maxValue && deviceQualifiers == map[] && screenQualifiers == [] ==>
        minValue <= r <= maxValue
    {
      var config := ResolveConfig(screenWidthDp, deviceType);
      r := Interpolate(screenWidthDp, config);
    }
  }
}
