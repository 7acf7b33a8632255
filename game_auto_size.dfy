/**
 * Container-aware sizing of the games module: the preset tables of
 * `GameAutoSize` and `AutoSizeConfig`, the auto-size calculation that picks a
 * preset for a container, and the HUD text size estimate.
 *
 * Kotlin `FloatArray(count)` throws for a negative count; the model returns
 * `Err(NegativeArraySize)` there.  Where the float arithmetic produces NaN
 * entries the model returns `Err(NotANumber)`.
 */
module GameAutoSize {
  import opened Numerics
  import Presets
  import Extensions

  datatype SizeError = NegativeArraySize | NotANumber | EmptyRange

  /** The `i`-th entry of a linear table, `min + i * granularity`. */
  function StepValue(minValue: real, granularity: real, i: int): real
  {
    minValue + i as real * granularity
  }

  /** `min + i * granularity` for `i` in `[0, count)`. */
  function LinearPresets(minValue: real, granularity: real, count: nat): (s: seq<real>)
    ensures |s| == count
    ensures forall i :: 0 <= i < count ==> s[i] == StepValue(minValue, granularity, i)
  {
    seq(count, i => StepValue(minValue, granularity, i))
  }

  /**
   * The array length both generators compute, `((max - min) / granularity).toInt() + 1`
   * in 32-bit arithmetic.  A zero granularity divides a positive span into
   * +Infinity, which saturates to `Int.MAX_VALUE` and wraps to a negative
   * count, a negative span into -Infinity (saturating to `Int.MIN_VALUE`), and
   * an empty span into NaN, which converts to 0.
   */
  function PresetCount(minValue: real, maxValue: real, granularity: real): int
  {
    if granularity == 0.0 then
      (if maxValue - minValue > 0.0 then WrapInt32(Int32Max + 1)
       else if maxValue - minValue < 0.0 then WrapInt32(Int32Min + 1)
       else WrapInt32(0 + 1))
    else WrapInt32(FloatToInt((maxValue - minValue) / granularity) + 1)
  }

  /** The table for a count: an error when the count is negative. */
  function PresetsOfCount(minValue: real, granularity: real, count: int): Result<seq<real>, SizeError>
  {
    if count < 0 then Err(NegativeArraySize) else Ok(LinearPresets(minValue, granularity, count))
  }

  /**
   * `GameAutoSize.generatePresets`: `[min]` for an empty or inverted range,
   * otherwise the steps of `granularity` from `min` that do not pass `max`.
   */
  function GeneratePresets(minValue: real, maxValue: real, granularity: real): (r: Result<seq<real>, SizeError>)
    ensures minValue >= maxValue ==> r == Ok([minValue])
    ensures minValue < maxValue && granularity == 0.0 ==> r == Err(NegativeArraySize)
    ensures minValue < maxValue && granularity > 0.0 && (maxValue - minValue) / granularity < Int32Max as real ==>
      && r.Ok?
      && |r.value| == TruncToInt((maxValue - minValue) / granularity) + 1
      && r.value[0] == minValue
      && (forall i :: 0 <= i < |r.value| ==> minValue <= r.value[i] <= maxValue)
      && (forall i :: 0 < i < |r.value| ==> r.value[i] - r.value[i - 1] == granularity)
  {
    if minValue >= maxValue then Ok([minValue])
    else
      var count := PresetCount(minValue, maxValue, granularity);
      if granularity > 0.0 && (maxValue - minValue) / granularity < Int32Max as real then
        StepsStayInRange(minValue, maxValue, granularity);
        PresetsOfCount(minValue, granularity, count)
      else PresetsOfCount(minValue, granularity, count)
  }

  /**
   * With a positive step and no overflow, the count is the truncated number
   * of steps plus one, and the last step does not pass `max`.
   */
  lemma StepsStayInRange(minValue: real, maxValue: real, granularity: real)
    requires minValue < maxValue && granularity > 0.0
    requires (maxValue - minValue) / granularity < Int32Max as real
    ensures PresetCount(minValue, maxValue, granularity) == TruncToInt((maxValue - minValue) / granularity) + 1
    ensures forall i :: 0 <= i <= TruncToInt((maxValue - minValue) / granularity) ==>
      minValue <= StepValue(minValue, granularity, i) <= maxValue
  {
    var q := (maxValue - minValue) / granularity;
    assert q * granularity == maxValue - minValue;
    var n := TruncToInt(q);
    assert 0 <= n && n as real <= q;
    forall i | 0 <= i <= n
      ensures minValue <= StepValue(minValue, granularity, i) <= maxValue
    {
      assert (q - i as real) * granularity >= 0.0 by {
        assert q - i as real >= 0.0;
      }
      assert (q - i as real) * granularity == (maxValue - minValue) - i as real * granularity;
    }
  }

  /** Generated tables are ascending whenever the step is not negative. */
  lemma GeneratedPresetsAscending(minValue: real, maxValue: real, granularity: real)
    requires granularity >= 0.0
    requires GeneratePresets(minValue, maxValue, granularity).Ok?
    ensures Presets.NonDecreasing(GeneratePresets(minValue, maxValue, granularity).value)
  {
    var s := GeneratePresets(minValue, maxValue, granularity).value;
    if minValue < maxValue {
      assert s == LinearPresets(minValue, granularity, |s|);
      forall i, j | 0 <= i <= j < |s|
        ensures s[i] <= s[j]
      {
        StepValueMonotone(minValue, granularity, i, j);
      }
    }
  }

  /** With a non-negative step, later entries of a linear table are no smaller. */
  lemma StepValueMonotone(minValue: real, granularity: real, i: int, j: int)
    requires granularity >= 0.0 && i <= j
    ensures StepValue(minValue, granularity, i) <= StepValue(minValue, granularity, j)
  {
    assert StepValue(minValue, granularity, j) - StepValue(minValue, granularity, i) == (j - i) as real * granularity;
  }

  /** `AutoSizeConfig`: a container, a value range, a step and optional presets. */
  datatype AutoSizeConfig = AutoSizeConfig(
    baseValue: real,
    minValue: real,
    maxValue: real,
    containerWidthDp: real,
    containerHeightDp: real,
    granularity: real,
    presets: Option<seq<real>>)

  /**
   * `AutoSizeConfig.generatePresets` as written: the same table without the
   * guard for an empty or inverted range.
   */
  function ConfigGeneratePresetsAsWritten(c: AutoSizeConfig): (r: Result<seq<real>, SizeError>)
    ensures c.minValue < c.maxValue ==> r == GeneratePresets(c.minValue, c.maxValue, c.granularity)
  {
    PresetsOfCount(c.minValue, c.granularity, PresetCount(c.minValue, c.maxValue, c.granularity))
  }

  /**
   * Without the guard, a range inverted by one step yields an empty table (and
   * the auto-size calculation then returns the container size, outside the
   * range), and a range inverted by two steps or more fails; with the guard both
   * give `[min]`.
   */
  lemma UnguardedPresetsForInvertedRange()
    ensures ConfigGeneratePresetsAsWritten(AutoSizeConfig(16.0, 11.0, 10.0, 100.0, 100.0, 1.0, None)) == Ok([])
    ensures ConfigGeneratePresetsAsWritten(AutoSizeConfig(16.0, 20.0, 10.0, 100.0, 100.0, 1.0, None)) == Err(NegativeArraySize)
    ensures GeneratePresets(11.0, 10.0, 1.0) == Ok([11.0])
    ensures GeneratePresets(20.0, 10.0, 1.0) == Ok([20.0])
  {
    assert TruncToInt(-1.0) == -1;
    assert TruncToInt(-10.0) == -10;
  }

  /** `getOrGeneratePresets` as written: the supplied presets, else the unguarded table. */
  function GetOrGeneratePresetsAsWritten(c: AutoSizeConfig): (r: Result<seq<real>, SizeError>)
    ensures c.presets.Some? ==> r == Ok(c.presets.value)
    ensures c.presets.None? ==> r == ConfigGeneratePresetsAsWritten(c)
  {
    if c.presets.Some? then Ok(c.presets.value) else ConfigGeneratePresetsAsWritten(c)
  }

  /**
   * `getOrGeneratePresets` with the range guard of `GameAutoSize.generatePresets`:
   * the supplied presets, else a table that is never empty.
   */
  function GetOrGeneratePresets(c: AutoSizeConfig): (r: Result<seq<real>, SizeError>)
    ensures c.presets.Some? ==> r == Ok(c.presets.value)
    ensures c.presets.None? ==> r == GeneratePresets(c.minValue, c.maxValue, c.granularity)
    ensures c.presets.None? && r.Ok? ==> |r.value| > 0 || c.granularity < 0.0
  {
    if c.presets.Some? then Ok(c.presets.value)
    else
      var r := GeneratePresets(c.minValue, c.maxValue, c.granularity);
      if c.minValue < c.maxValue && c.granularity > 0.0 && r.Ok? then
        PositiveStepCount(c.minValue, c.maxValue, c.granularity);
        r
      else r
  }

  /** With a positive step over a proper range the count is at least one. */
  lemma PositiveStepCount(minValue: real, maxValue: real, granularity: real)
    requires minValue < maxValue && granularity > 0.0
    ensures PresetCount(minValue, maxValue, granularity) >= 1 || PresetCount(minValue, maxValue, granularity) < 0
  {
    var q := (maxValue - minValue) / granularity;
    assert q * granularity == maxValue - minValue;
    assert q > 0.0;
  }

  /**
   * `calculateAutoSize`: the best preset for the smaller side of the
   * container, over the table `getOrGeneratePresets` returns as written (the
   * container size itself when that table is empty, an error when it cannot
   * be built).
   */
  method CalculateAutoSize(c: AutoSizeConfig) returns (r: Result<real, SizeError>)
    ensures GetOrGeneratePresetsAsWritten(c).Err? ==> r == Err(GetOrGeneratePresetsAsWritten(c).error)
    ensures GetOrGeneratePresetsAsWritten(c).Ok? ==>
      r.Ok? && BestForContainer(GetOrGeneratePresetsAsWritten(c).value, c, r.value)
  {
    var table := GetOrGeneratePresetsAsWritten(c);
    if table.Err? {
      return Err(table.error);
    }
    var best := PickForContainer(table.value, c);
    return Ok(best);
  }

  /**
   * The same calculation over the guarded table: without supplied presets
   * and with a non-negative step the result is always one of the presets,
   * never the container size.
   */
  method CalculateAutoSizeCorrected(c: AutoSizeConfig) returns (r: Result<real, SizeError>)
    ensures GetOrGeneratePresets(c).Err? ==> r == Err(GetOrGeneratePresets(c).error)
    ensures GetOrGeneratePresets(c).Ok? ==>
      r.Ok? && BestForContainer(GetOrGeneratePresets(c).value, c, r.value)
    ensures c.presets.None? && c.granularity >= 0.0 && r.Ok? ==> r.value in GetOrGeneratePresets(c).value
  {
    var table := GetOrGeneratePresets(c);
    if table.Err? {
      return Err(table.error);
    }
    var best := PickForContainer(table.value, c);
    return Ok(best);
  }

  /**
   * What `findBestPreset` promises for a table and the smaller side of the
   * container: the container size for an empty table, otherwise a preset;
   * on an ascending table the largest preset that fits, when one fits; the
   * first preset when none fits.
   */
  ghost predicate BestForContainer(s: seq<real>, c: AutoSizeConfig, best: real)
  {
    var available := Min(c.containerWidthDp, c.containerHeightDp);
    && (|s| == 0 ==> best == available)
    && (|s| > 0 ==> best in s)
    && (Presets.NonDecreasing(s) && Presets.SomeFits(s, available) ==>
          best <= available && forall i :: 0 <= i < |s| && s[i] <= available ==> s[i] <= best)
    && (|s| > 0 && !Presets.SomeFits(s, available) ==> best == s[0])
  }

  /** The search itself: the table copied into an array and handed to `findBestPreset`. */
  method PickForContainer(s: seq<real>, c: AutoSizeConfig) returns (best: real)
    ensures BestForContainer(s, c, best)
  {
    var presets := new real[|s|](i requires 0 <= i < |s| => s[i]);
    assert presets[..] == s;
    var availableSize := Min(c.containerWidthDp, c.containerHeightDp);
    best := Presets.FindBestPreset(presets, presets.Length, availableSize);
  }

  /**
   * `generateLogPresets` as written: `count` values spaced evenly in
   * logarithm from `min` to `max`.  With `count == 1` the step divides by zero
   * and the single entry is NaN; a range that is not positive also gives NaN.
   */
  function GenerateLogPresetsAsWritten(m: MathLib, minValue: real, maxValue: real, count: int): (r: Result<seq<real>, SizeError>)
    ensures minValue >= maxValue || count <= 0 ==> r == Ok([minValue])
    ensures minValue < maxValue && count == 1 ==> r == Err(NotANumber)
  {
    if minValue >= maxValue || count <= 0 then Ok([minValue])
    else if count == 1 || minValue <= 0.0 then Err(NotANumber)
    else LogSpaced(m, minValue, maxValue, count)
  }

  /** The logarithm of the `i`-th entry of a logarithmic table, `ln min + i * step`. */
  function LogExponent(logMin: real, logStep: real, i: int): real
  {
    logMin + i as real * logStep
  }

  /** `count >= 2` values whose logarithms step evenly from `ln min` to `ln max`. */
  function LogSpaced(m: MathLib, minValue: real, maxValue: real, count: int): (r: Result<seq<real>, SizeError>)
    requires count >= 2
    ensures r.Ok? && |r.value| == count
    ensures r.value[0] == m.exp(m.ln(minValue))
    ensures r.value[count - 1] == m.exp(m.ln(maxValue))
  {
    var logMin := m.ln(minValue);
    var logMax := m.ln(maxValue);
    var logStep := (logMax - logMin) / (count - 1) as real;
    var s := seq(count, i => m.exp(LogExponent(logMin, logStep, i)));
    assert LogExponent(logMin, logStep, 0) == logMin;
    assert LogExponent(logMin, logStep, count - 1) == logMax by {
      EvenStepsReachEnd(logMin, logMax, count - 1);
    }
    Ok(s)
  }

  /** `n` steps of `(hi - lo) / n` lead from `lo` to `hi`. */
  lemma EvenStepsReachEnd(lo: real, hi: real, n: int)
    requires n > 0
    ensures lo + n as real * ((hi - lo) / n as real) == hi
  {
    var step := (hi - lo) / n as real;
    assert step * n as real == hi - lo;
  }

  /**
   * `generateLogPresets` with a single requested value answered by `[min]`,
   * as for an empty range; otherwise as written.
   */
  function GenerateLogPresets(m: MathLib, minValue: real, maxValue: real, count: int): (r: Result<seq<real>, SizeError>)
    ensures minValue >= maxValue || count <= 1 ==> r == Ok([minValue])
    ensures r.Err? <==> minValue < maxValue && count >= 2 && minValue <= 0.0
    ensures minValue < maxValue && count >= 2 && minValue > 0.0 ==>
      |r.value| == count && r.value[0] == m.exp(m.ln(minValue)) && r.value[count - 1] == m.exp(m.ln(maxValue))
  {
    if minValue >= maxValue || count <= 1 then Ok([minValue])
    else if minValue <= 0.0 then Err(NotANumber)
    else LogSpaced(m, minValue, maxValue, count)
  }

  /** The corrected generator differs from the original only for a single requested value. */
  lemma LogPresetsAgreeExceptSingle(m: MathLib, minValue: real, maxValue: real, count: int)
    ensures count != 1 ==> GenerateLogPresets(m, minValue, maxValue, count) == GenerateLogPresetsAsWritten(m, minValue, maxValue, count)
    ensures minValue < maxValue && count == 1 ==>
      GenerateLogPresetsAsWritten(m, minValue, maxValue, count).Err? && GenerateLogPresets(m, minValue, maxValue, count) == Ok([minValue])
  {
  }

  /**
   * `calculateHudTextSize`: shrink the base size so that the text (0.6 em
   * per character) fits the width and one line (1.2 em) fits the height,
   * never enlarge it, and clamp to `[minSize, maxSize]`.  `coerceIn` rejects
   * an empty range; a zero base size over a height that is not positive is
   * NaN.
   */
  function CalculateHudTextSize(textLength: nat, availableWidthDp: real, availableHeightDp: real,
                                baseSize: real, minSize: real, maxSize: real): (r: Result<real, SizeError>)
    ensures minSize > maxSize <==> r == Err(EmptyRange)
    ensures r.Ok? ==> minSize <= r.value <= maxSize
    ensures minSize <= maxSize && baseSize > 0.0 ==> r.Ok?
    ensures r.Ok? && baseSize > 0.0 ==> r.value <= Max(baseSize, minSize)
  {
    if minSize > maxSize then Err(EmptyRange)
    else
      var estimatedCharWidth := baseSize * 0.6;
      var estimatedTextWidth := textLength as real * estimatedCharWidth;
      var widthScale := if estimatedTextWidth > 0.0 then availableWidthDp / estimatedTextWidth else 1.0;
      var lineHeight := baseSize * 1.2;
      if lineHeight == 0.0 && availableHeightDp <= 0.0 then Err(NotANumber)
      else
        // A zero line height over a positive height gives +Infinity, which never wins the minimum.
        var scale := if lineHeight == 0.0 then Min(widthScale, 1.0)
                     else Min(Min(widthScale, availableHeightDp / lineHeight), 1.0);
        var scaledSize := baseSize * scale;
        if baseSize > 0.0 then
          Extensions.MulNonNeg(baseSize, 1.0 - scale);
          Ok(CoerceIn(scaledSize, minSize, maxSize))
        else Ok(CoerceIn(scaledSize, minSize, maxSize))
  }

  /** Kotlin `coerceIn` on a non-empty range. */
  function CoerceIn(value: real, minimum: real, maximum: real): (r: real)
    requires minimum <= maximum
    ensures minimum <= r <= maximum
    ensures r == value || r == minimum || r == maximum
    ensures minimum <= value <= maximum ==> r == value
  {
    if value < minimum then minimum else if value > maximum then maximum else value
  }

  /** A text that fits at its base size keeps it (up to the clamp). */
  lemma HudTextFitsKeepsBase(textLength: nat, availableWidthDp: real, availableHeightDp: real,
                             baseSize: real, minSize: real, maxSize: real)
    requires minSize <= maxSize && baseSize > 0.0
    requires textLength as real * (baseSize * 0.6) <= availableWidthDp
    requires baseSize * 1.2 <= availableHeightDp
    ensures CalculateHudTextSize(textLength, availableWidthDp, availableHeightDp, baseSize, minSize, maxSize)
      == Ok(CoerceIn(baseSize, minSize, maxSize))
  {
    var w := textLength as real * (baseSize * 0.6);
    if w > 0.0 {
      Numerics.RatioAtLeastOne(availableWidthDp, w);
    }
    Numerics.RatioAtLeastOne(availableHeightDp, baseSize * 1.2);
  }
}
