# AppDimens scaling core in Dafny

AppDimens turns a designer's base size, in density-independent pixels (dp), into a size for the current screen. Every port of the library has a *calculator* with the same scaling strategies:

- DEFAULT: linear with a logarithmic aspect-ratio correction.
- PERCENTAGE: proportional to the screen dimension over the 300 dp reference.
- BALANCED: linear up to a transition point, logarithmic above it.
- LOGARITHMIC.
- POWER (Stevens).
- FLUID: clamped interpolation between two widths.
- INTERPOLATED.
- DIAGONAL and PERIMETER.
- FIT and FILL.
- AUTOSIZE and NONE.

Around the strategies sit optional qualifier overrides (intersection, UI mode and dp qualifiers), strategy inference from the element type, and min, max and physical-millimetre constraints.

This project models the following:

- Four calculators:
  - the Android dynamic calculator (`DynamicCalculator`);
  - the games calculator with its fixed-size hash cache (`GamesCalculator`, `GameCache`);
  - the games C++ native calculator (`NativeCalculator`);
  - the Web calculator (`WebCalculator`).
- The pieces they share:
  - the logarithm lookup tables behind `fastLn` (`LnTables`);
  - screen-type resolution (`Screens`);
  - first-largest qualifier selection (`Qualifiers`);
  - the binary-search preset picker (`Presets`).
- The surrounding helpers:
  - the adjustment factors (`AdjustmentFactors`);
  - the fluid builder class (`Fluid`);
  - the perceptual core (`PerceptualCore`);
  - the numeric extensions (`Extensions`);
  - the game element catalogue (`GameElements`);
  - the game screen model (`GameModels`);
  - the auto-size helpers (`GameAutoSize`).

Modelling choices:

- **Numbers** are `real`.
- **Math functions.** The transcendental functions (`ln`, `exp`, `sqrt`, `pow`) are parameters: either a `ln: real -> real` or a `Numerics.MathLib` record. Lemmas state the law they rely on, such as `ln(1) = 0`, or `LnTables.VanishesNearOne`, meaning the logarithm is exactly 0 within the 0.005 table tolerance of 1.
- **Integer conversions.** Kotlin's saturating float-to-int conversion and 32-bit wrap-around are written out in `Numerics`.
- **Source form.**
  - Pure code becomes functions and lemmas.
  - Code that loops or mutates becomes methods proved against those functions:
    - the binary searches;
    - the qualifier loop in `AppDimensAdjustmentFactors`;
    - the fluid builder's `resolveConfig` loop;
    - the cache array of `GameCacheFast`;
    - the Web `CalculationCache` memo fields.
- **Cross-port agreement.** Where the ports should agree, lemmas tie them to the Kotlin dynamic calculator, e.g. `NativeCalculator.BalancedAgrees` and `WebCalculator.ConstraintsAgreeWithKotlin`.
- **Where the ports differ:**
  - The native `inferStrategy` falls back to BALANCED for twelve element types that the Kotlin enum maps elsewhere (`NativeCalculator.UnlistedAreBalanced`, `NativeCalculator.KotlinUnlistedNotBalanced`).
  - The Web BALANCED branch tests `<` where Kotlin tests `<=`. `WebCalculator.CalculateBalanced` shows that the two agree at the transition point whenever the logarithm vanishes near 1, so the difference is not observable.

## Model

| member | source | states |
|---|---|---|
| Numerics.FloatToInt | Android/appdimens_dynamic/src/main/java/com/appdimens/dynamic/core/optimization/PerceptualCore.kt:213-216 | Kotlin `Float.toInt()`: truncates toward zero inside the 32-bit range and saturates at its ends |
| Numerics.WrapInt32 | Android/appdimens_games/src/main/java/com/appdimens/games/helpers/GameAutoSize.kt:136-149 | 32-bit `Int` arithmetic stays in range, is the identity on in-range values and wraps `Int.MAX_VALUE + 1` to `Int.MIN_VALUE` |
| Numerics.TruncDiv | Android/appdimens_dynamic/src/main/java/com/appdimens/dynamic/core/shared/Extensions.kt:423-425 | integer division truncating toward zero: the remainder is smaller than the divisor and has the dividend's sign |
| Screens.StrategyOrdinal | Android/appdimens_games/src/main/java/com/appdimens/games/core/cache/GameCacheFast.kt:181-208 | the strategy ordinal hashed into the cache key lies in 0..12, with DEFAULT first and NONE last |
| Screens.StrategyOrdinalInjective | Android/appdimens_games/src/main/java/com/appdimens/games/core/cache/GameCacheFast.kt:181-208 | distinct strategies have distinct ordinals, so the ordinal word of the cache key separates them |
| Screens.Inverted | Android/appdimens_dynamic/src/main/java/com/appdimens/dynamic/core/calculation/Calculator.kt:1400-1443 | flipping LOWEST/HIGHEST always gives the other screen type |
| Screens.InvertedInvolutive | Android/appdimens_dynamic/src/main/java/com/appdimens/dynamic/core/calculation/Calculator.kt:1400-1443 | flipping the screen type twice restores it |
| Screens.ResolveScreenType | Android/appdimens_dynamic/src/main/java/com/appdimens/dynamic/core/calculation/Calculator.kt:1400-1443 | AUTO keeps the requested type; PORTRAIT keeps it exactly when the screen is taller than wide and inverts it otherwise; LANDSCAPE keeps it exactly when the screen is not taller than wide (GamesCalculator.kt lines 576-598 and GameCalculator.cpp lines 266-296 apply the same rule) |
| Screens.DimensionFor | Android/appdimens_dynamic/src/main/java/com/appdimens/dynamic/core/calculation/Calculator.kt:1455-1474 | HIGHEST picks the larger side and LOWEST the smaller, always one of width and height |
| Screens.OrientationTracksAxis | Android/appdimens_dynamic/src/main/java/com/appdimens/dynamic/core/calculation/Calculator.kt:1400-1474 | with a portrait base LOWEST means the width and HIGHEST the height, and landscape swaps them, on every screen |
| Screens.AutoIgnoresRotation | Android/appdimens_dynamic/src/main/java/com/appdimens/dynamic/core/calculation/Calculator.kt:1455-1474 | with AUTO orientation the chosen dimension does not change when the device is rotated |
| Qualifiers.FirstMaxIndex | Android/appdimens_dynamic/src/main/java/com/appdimens/dynamic/core/calculation/Calculator.kt:826-838 | `maxByOrNull`: None exactly when nothing qualifies, otherwise a qualifying index whose score is the maximum and strictly beats every earlier qualifying entry |
| Qualifiers.SelectValue | Android/appdimens_dynamic/src/main/java/com/appdimens/dynamic/core/calculation/Calculator.kt:708-760 | picking the value of a qualifying map entry with the largest threshold, the first such entry in map order on a tie: None exactly when no entry qualifies |
| Presets.FindBestPreset | Android/appdimens_dynamic/src/main/java/com/appdimens/dynamic/core/calculation/Calculator.kt:1683-1716 | the dynamic binary search returns the available size for an empty table, otherwise a preset; the last preset once it fits; the largest fitting preset of an ascending table; the first preset when none fits (the games `findBestPreset` at GamesCalculator.kt lines 689-715 and the native one at GameCalculator.cpp lines 382-412 are the same search) |
| LnTables.Search | Android/appdimens_dynamic/src/main/java/com/appdimens/dynamic/core/calculation/Calculator.kt:229-247 | the `while (low <= high)` search returns early only at an index whose key is within 0.005 of the value, and otherwise stops with an empty window `low == high + 1` |
| LnTables.LookupIndex | Android/appdimens_dynamic/src/main/java/com/appdimens/dynamic/core/calculation/Calculator.kt:228-264 | after the search the neighbours `high` then `low` are checked; any index returned has its key within the 0.005 tolerance |
| LnTables.Lookup | Android/appdimens_dynamic/src/main/java/com/appdimens/dynamic/core/calculation/Calculator.kt:228-264 | `lookup` returns `values[i]` only for an index with `abs(value - keys[i]) <= 0.005`, null otherwise |
| LnTables.SearchLoop | Android/appdimens_games/src/main/java/com/appdimens/games/core/calculation/GamesCalculator.kt:125-143 | the binary-search loop (shared by the three tables) stops exactly where the recursive `Search` does |
| LnTables.LookupLoop | Web/src/core/Calculator.ts:125-158 | the imperative lookup (loop, then the `high` and `low` neighbour checks) returns exactly `Lookup` |
| LnTables.FastLn | Android/appdimens_dynamic/src/main/java/com/appdimens/dynamic/core/calculation/Calculator.kt:289-292 | `fastLn` is either a stored logarithm of a key within tolerance, or the platform `ln` when the lookup missed |
| LnTables.SearchMissesOnlyFarKeys | Android/appdimens_dynamic/src/main/java/com/appdimens/dynamic/core/calculation/Calculator.kt:233-247 | on ascending keys the search only gives up when no key at all lies within tolerance |
| LnTables.LookupComplete | Android/appdimens_dynamic/src/main/java/com/appdimens/dynamic/core/calculation/Calculator.kt:228-264 | on ascending keys the lookup hits if and only if some key lies within 0.005 of the value |
| LnTables.LookupBracketed | Android/appdimens_dynamic/src/main/java/com/appdimens/dynamic/core/calculation/Calculator.kt:228-264 | on ascending keys a value near key `i` and clear of its neighbours is answered with `values[i]` |
| LnTables.GamesTableAscending | Android/appdimens_games/src/main/java/com/appdimens/games/core/calculation/GamesCalculator.kt:98-117 | the games key table is strictly ascending and parallel to its values |
| LnTables.WebTableAscending | Web/src/core/Calculator.ts:99-118 | the Web key table is strictly ascending and parallel to its values |
| LnTables.DynamicTableNotAscending | Android/appdimens_dynamic/src/main/java/com/appdimens/dynamic/core/calculation/Calculator.kt:174-187 | the dynamic key table, documented as sorted ascending, lists 2.25 before 2.243 and so is not ascending |
| LnTables.DynamicLookupMissesAsWritten | Android/appdimens_dynamic/src/main/java/com/appdimens/dynamic/core/calculation/Calculator.kt:181-182 | with the table as written, looking up 2.24 misses although the key 2.243 is 0.003 away |
| LnTables.SearchFor224Misses | Android/appdimens_dynamic/src/main/java/com/appdimens/dynamic/core/calculation/Calculator.kt:228-264 | the search for 2.24 probes 2.56, 1.667, 2.17, 2.3, 2.25, 2.2 and 2.223 and ends with an empty window, never probing position 42 |
| LnTables.DynamicLookupMisses | Android/appdimens_dynamic/src/main/java/com/appdimens/dynamic/core/calculation/Calculator.kt:174-264 | the as-written table misses 2.24 while the corrected table finds a key for it |
| LnTables.DynamicTableCorrectedAscending | Android/appdimens_dynamic/src/main/java/com/appdimens/dynamic/core/calculation/Calculator.kt:174-210 | the dynamic table with 2.243 and 2.25 swapped (keys and values) is strictly ascending |
| LnTables.FindsNearbyKey | Android/appdimens_dynamic/src/main/java/com/appdimens/dynamic/core/calculation/Calculator.kt:228-264 | on an ascending table a key within tolerance is always found |
| LnTables.FastLnNearOne | Android/appdimens_games/src/main/java/com/appdimens/games/core/calculation/GamesCalculator.kt:100-112 | each table as written stores 0 for the key 1.0, so `fastLn` is exactly 0 within 0.005 of 1; on the dynamic table the search near 1 probes 2.56, 1.667, 1.31, 0.9, 1.2 and then 1.0, never reaching the misordered pair |
| LnTables.DynamicLookupNearOne | Android/appdimens_dynamic/src/main/java/com/appdimens/dynamic/core/calculation/Calculator.kt:228-264 | the lookup in the dynamic table as written returns the stored ln(1) = 0 for every value within tolerance of 1 |
| LnTables.SearchNearOneHits | Android/appdimens_dynamic/src/main/java/com/appdimens/dynamic/core/calculation/Calculator.kt:228-264 | on any 104-key table with 2.56, 1.667, 1.31, 0.9, 1.2 and 1.0 at the probed positions, the binary search for a value near 1 stops at position 6 |
| LnTables.CalculatorTablesZeroNearOne | Web/src/core/Calculator.ts:164-167 | the `fastLn` each calculator uses, over its table as written, vanishes within tolerance of 1 (the law the strategies' reference-size results need) |
| DynamicCalculator.AspectRatio | Android/appdimens_dynamic/src/main/java/com/appdimens/dynamic/core/calculation/Calculator.kt:1486-1499 | the aspect ratio (larger side over smaller side) is at least 1 on a valid screen |
| DynamicCalculator.AspectRatioRelatesSides | Android/appdimens_dynamic/src/main/java/com/appdimens/dynamic/core/calculation/Calculator.kt:1486-1499 | the aspect ratio times the smaller side gives back the larger side |
| DynamicCalculator.LnVanishesNearOne | Android/appdimens_dynamic/src/main/java/com/appdimens/dynamic/core/calculation/Calculator.kt:289-292 | the dynamic `fastLn` (the table as written, then platform `ln`) is exactly 0 within tolerance of 1 whenever the platform `ln(1)` is 0 |
| DynamicCalculator.CalculateDefault | Android/appdimens_dynamic/src/main/java/com/appdimens/dynamic/core/calculation/Calculator.kt:1053-1088 | DEFAULT leaves the base unchanged on the 300 dp reference dimension; without the aspect-ratio term it grows a positive base exactly when the dimension exceeds 300 dp |
| DynamicCalculator.DefaultFactor | Android/appdimens_dynamic/src/main/java/com/appdimens/dynamic/core/calculation/Calculator.kt:1066-1085 | the DEFAULT factor is 1 when the difference from 300 dp is 0, and is `1 + difference * 0.00333` without aspect-ratio correction |
| DynamicCalculator.ScaleAboveOne | Android/appdimens_dynamic/src/main/java/com/appdimens/dynamic/core/calculation/Calculator.kt:1053-1088 | a factor `1 + x` grows a positive base exactly when `x > 0` |
| DynamicCalculator.CalculatePercentage | Android/appdimens_dynamic/src/main/java/com/appdimens/dynamic/core/calculation/Calculator.kt:1099-1110 | PERCENTAGE is 0 on a zero dimension, and for a positive base exceeds the base exactly when the dimension exceeds the 300 dp reference |
| DynamicCalculator.CalculateBalanced | Android/appdimens_dynamic/src/main/java/com/appdimens/dynamic/core/calculation/Calculator.kt:1124-1153 | BALANCED equals PERCENTAGE up to and including the transition point, and above it is the linear part at the transition plus `sensitivity * ln(1 + excess / 300)` |
| DynamicCalculator.BalancedContinuous | Android/appdimens_dynamic/src/main/java/com/appdimens/dynamic/core/calculation/Calculator.kt:1124-1153 | the logarithmic branch of BALANCED meets the linear branch at the transition point |
| DynamicCalculator.CalculateLogarithmic | Android/appdimens_dynamic/src/main/java/com/appdimens/dynamic/core/calculation/Calculator.kt:1165-1191 | LOGARITHMIC leaves the base unchanged on the 300 dp reference dimension when `fastLn` vanishes near 1 |
| DynamicCalculator.CalculatePower | Android/appdimens_dynamic/src/main/java/com/appdimens/dynamic/core/calculation/Calculator.kt:1198-1219 | POWER leaves the base unchanged on the reference dimension when `pow(1, e) = 1` |
| DynamicCalculator.InferDeviceType | Android/appdimens_dynamic/src/main/java/com/appdimens/dynamic/core/calculation/Calculator.kt:1556-1565 | the fluid device type is WATCH below 300 dp, PHONE in [300, 600), TABLET in [600, 840) and TV from 840 dp, each as an if-and-only-if |
| DynamicCalculator.ResolveFluidConfig | Android/appdimens_dynamic/src/main/java/com/appdimens/dynamic/core/calculation/Calculator.kt:1510-1544 | the applicable screen qualifier with the largest threshold wins; failing that the inferred device's entry; failing that the parameters' own min/max/width range |
| DynamicCalculator.CalculateFluid | Android/appdimens_dynamic/src/main/java/com/appdimens/dynamic/core/calculation/Calculator.kt:1229-1263 | FLUID stays between the resolved configuration's min and max values, and without qualifiers is the plain clamped interpolation |
| DynamicCalculator.CalculateInterpolated | Android/appdimens_dynamic/src/main/java/com/appdimens/dynamic/core/calculation/Calculator.kt:1270-1287 | INTERPOLATED is the midpoint of the base and its PERCENTAGE-scaled value |
| DynamicCalculator.CalculateDiagonal | Android/appdimens_dynamic/src/main/java/com/appdimens/dynamic/core/calculation/Calculator.kt:1299-1315 | DIAGONAL scales by the screen diagonal over the reference diagonal 611.6305 dp, whichever way the device is held; a positive base grows exactly when the diagonal exceeds the reference |
| DynamicCalculator.CalculatePerimeter | Android/appdimens_dynamic/src/main/java/com/appdimens/dynamic/core/calculation/Calculator.kt:1327-1339 | PERIMETER scales by width plus height over the reference perimeter 833 dp; a positive base grows exactly when the sides add up to more than the reference |
| DynamicCalculator.CalculateFit | Android/appdimens_dynamic/src/main/java/com/appdimens/dynamic/core/calculation/Calculator.kt:1346-1362 | FIT uses one of the two reference ratios (smallest/300 or largest/533), and for a non-negative base the smaller of them |
| DynamicCalculator.CalculateFill | Android/appdimens_dynamic/src/main/java/com/appdimens/dynamic/core/calculation/Calculator.kt:1369-1385 | FILL uses one of the two reference ratios, and for a non-negative base the larger of them |
| DynamicCalculator.FitAtMostFill | Android/appdimens_dynamic/src/main/java/com/appdimens/dynamic/core/calculation/Calculator.kt:1346-1385 | for a non-negative base FIT never exceeds FILL |
| DynamicCalculator.ApplyConstraints | Android/appdimens_dynamic/src/main/java/com/appdimens/dynamic/core/calculation/Calculator.kt:1623-1650 | no constraint leaves the value alone; the result is at most `maxValue` and at most the physical-mm cap; with ordered min/max and no cap it lies in [min, max]; a value already within bounds is unchanged; the result is the value or one of the bounds |
| DynamicCalculator.ApplyConstraintsMonotoneIdempotent | Android/appdimens_dynamic/src/main/java/com/appdimens/dynamic/core/calculation/Calculator.kt:1623-1650 | constraining preserves order and applying it twice equals applying it once |
| DynamicCalculator.ResolveQualifierOverride | Android/appdimens_dynamic/src/main/java/com/appdimens/dynamic/core/calculation/Calculator.kt:708-760 | an applicable intersection qualifier with the largest dp threshold wins, the first such entry in order on a tie; else the current UI mode's value; else the first reached dp qualifier with the largest threshold; None exactly when none of the three applies |
| DynamicCalculator.SelectIntersection | Android/appdimens_dynamic/src/main/java/com/appdimens/dynamic/core/calculation/Calculator.kt:708-725 | the intersection stage yields nothing exactly when no intersection qualifier applies, else the value of the first applicable entry with the largest threshold |
| DynamicCalculator.SelectDp | Android/appdimens_dynamic/src/main/java/com/appdimens/dynamic/core/calculation/Calculator.kt:740-760 | the dp stage yields nothing exactly when no dp qualifier is reached, else the value of the first reached entry with the largest threshold |
| DynamicCalculator.ElementWeight | Android/appdimens_dynamic/src/main/java/com/appdimens/dynamic/core/calculation/Calculator.kt:905-992 | each element type adds at most one vote, of weight at most 0.8 |
| DynamicCalculator.DeviceWeight | Android/appdimens_dynamic/src/main/java/com/appdimens/dynamic/core/calculation/Calculator.kt:1004-1027 | the device-type vote weighs at most 0.5 |
| DynamicCalculator.StrategyWeights | Android/appdimens_dynamic/src/main/java/com/appdimens/dynamic/core/calculation/Calculator.kt:897-1038 | the vote list is never empty, ends with the device vote, holds the 0.9 FLUID vote exactly when a fluid configuration is present, and only that vote reaches 0.9 |
| DynamicCalculator.InferStrategy | Android/appdimens_dynamic/src/main/java/com/appdimens/dynamic/core/calculation/Calculator.kt:826-856 | the inferred strategy is that of the first vote of maximum weight in the vote list; a fluid configuration always selects FLUID |
| DynamicCalculator.PickHeaviest | Android/appdimens_dynamic/src/main/java/com/appdimens/dynamic/core/calculation/Calculator.kt:836-837 | on a non-empty list the choice is the first vote carrying the maximum weight; when the 0.9 FLUID vote is present it is FLUID |
| DynamicCalculator.FluidVoteWins | Android/appdimens_dynamic/src/main/java/com/appdimens/dynamic/core/calculation/Calculator.kt:994-998 | once the 0.9 FLUID vote is cast, the first heaviest vote is FLUID |
| DynamicCalculator.ElementOutweighsDevice | Android/appdimens_dynamic/src/main/java/com/appdimens/dynamic/core/calculation/Calculator.kt:905-1027 | every non-generic element's single vote is strictly heavier than the device vote |
| DynamicCalculator.FirstHeaviestChosen | Android/appdimens_dynamic/src/main/java/com/appdimens/dynamic/core/calculation/Calculator.kt:836-837 | `maxByOrNull` returns the first vote of maximum weight: any vote heavier than all before it and at least as heavy as all after it is the one chosen |
| DynamicCalculator.ButtonTieGoesToElement | Android/appdimens_dynamic/src/main/java/com/appdimens/dynamic/core/calculation/Calculator.kt:826-856 | for a button on a device below a small tablet, the element's DEFAULT vote and the device's vote tie and the element vote, listed first, decides |
| DynamicCalculator.ElementVoteDecides | Android/appdimens_dynamic/src/main/java/com/appdimens/dynamic/core/calculation/Calculator.kt:826-856 | without fluid config or bounds, a non-generic element type decides the strategy |
| DynamicCalculator.DeviceVoteDecides | Android/appdimens_dynamic/src/main/java/com/appdimens/dynamic/core/calculation/Calculator.kt:1004-1027 | with no element type, fluid config or bounds, tablets, TVs and large phones get BALANCED and other devices DEFAULT |
| DynamicCalculator.Calculate | Android/appdimens_dynamic/src/main/java/com/appdimens/dynamic/core/calculation/Calculator.kt:528-694 | NONE returns the constrained base; a qualifier override returns the constrained override; ordered min/max bounds always hold; AUTOSIZE without an override returns the constrained base |
| DynamicCalculator.PercentageShortcutAgrees | Android/appdimens_dynamic/src/main/java/com/appdimens/dynamic/core/calculation/Calculator.kt:553-566 | whenever the PERCENTAGE fast path is taken, the result equals what the general path would compute |
| DynamicCalculator.FastPathIsGeneralPath | Android/appdimens_dynamic/src/main/java/com/appdimens/dynamic/core/calculation/Calculator.kt:553-566 | the fast path's inline formula equals the general path for the same request |
| DynamicCalculator.FastPathIsPercentage | Android/appdimens_dynamic/src/main/java/com/appdimens/dynamic/core/calculation/Calculator.kt:553-566 | under AUTO orientation the fast path is the constrained PERCENTAGE value |
| DynamicCalculator.ShortcutHasNoOverride | Android/appdimens_dynamic/src/main/java/com/appdimens/dynamic/core/calculation/Calculator.kt:553-566 | the fast path is taken only when no qualifier override applies |
| DynamicCalculator.GeneralPathPercentage | Android/appdimens_dynamic/src/main/java/com/appdimens/dynamic/core/calculation/Calculator.kt:592-693 | an explicit PERCENTAGE request without an override is the constrained PERCENTAGE value |
| DynamicCalculator.FluidParamsSelectFluid | Android/appdimens_dynamic/src/main/java/com/appdimens/dynamic/core/calculation/Calculator.kt:601-607 | with fluid parameters and no explicit strategy, the result lies between the resolved fluid configuration's min and max |
| AdjustmentFactors.FirstPassingDescending | Android/appdimens_dynamic/src/main/java/com/appdimens/dynamic/code/AppDimensAdjustmentFactors.kt:112-119 | scanning entries by descending threshold finds a value exactly when some entry of the kind passes, and that value belongs to the first passing entry with the largest threshold, as the stable descending sort gives |
| AdjustmentFactors.QualifierDp | Android/appdimens_dynamic/src/main/java/com/appdimens/dynamic/code/AppDimensAdjustmentFactors.kt:101-143 | the smallest-width qualifier takes precedence, then HEIGHT, then WIDTH, each choosing the first passing entry with the largest threshold; with none passing the initial base dp is kept |
| AdjustmentFactors.ResolveQualifierDp | Android/appdimens_dynamic/src/main/java/com/appdimens/dynamic/code/AppDimensAdjustmentFactors.kt:101-143 | the looping implementation returns exactly `QualifierDp` |
| AdjustmentFactors.ResolveIntersectionCondition | Android/appdimens_dynamic/src/main/java/com/appdimens/dynamic/code/AppDimensAdjustmentFactors.kt:149-158 | an intersection condition holds exactly when the entry's own measure reaches its threshold |
| AdjustmentFactors.GetReferenceAspectRatio | Android/appdimens_dynamic/src/main/java/com/appdimens/dynamic/code/AppDimensAdjustmentFactors.kt:167-172 | the reference aspect ratio is larger side over smaller side, at least 1 for positive sides |
| AdjustmentFactors.AspectRatioSwapSymmetric | Android/appdimens_dynamic/src/main/java/com/appdimens/dynamic/code/AppDimensAdjustmentFactors.kt:167-172 | the reference aspect ratio is unchanged by rotating the screen |
| AdjustmentFactors.CalculateAdjustmentFactors | Android/appdimens_dynamic/src/main/java/com/appdimens/dynamic/code/AppDimensAdjustmentFactors.kt:186-225 | the lowest/highest adjustments are the smallest/largest side minus 300 dp; `withoutArFactor * 300` is the smallest width, and it is 1 exactly at 300 dp; the with-AR factors are `1 + adjustment * increment` |
| AdjustmentFactors.ReferenceRatioAddsNothing | Android/appdimens_dynamic/src/main/java/com/appdimens/dynamic/code/AppDimensAdjustmentFactors.kt:186-225 | at the reference aspect ratio 1.78 the lowest with-AR factor equals the plain factor |
| AdjustmentFactors.HighestAtLeastLowest | Android/appdimens_dynamic/src/main/java/com/appdimens/dynamic/code/AppDimensAdjustmentFactors.kt:186-225 | with a non-negative increment the highest-side factor is at least the lowest-side factor |
| AdjustmentFactors.ResolveScreenType | Android/appdimens_dynamic/src/main/java/com/appdimens/dynamic/code/AppDimensAdjustmentFactors.kt:244-274 | the adjustment-factor screen-type rule is the shared one, and always yields the requested type or its inverse |
| AdjustmentFactors.ResolveTwiceRestores | Android/appdimens_dynamic/src/main/java/com/appdimens/dynamic/code/AppDimensAdjustmentFactors.kt:244-274 | resolving an already resolved screen type restores the requested one |
| Fluid.InterpolateFluid | Android/appdimens_dynamic/src/main/java/com/appdimens/dynamic/core/calculation/Calculator.kt:1575-1596 | at or below `minWidth` the minimum, from `maxWidth` up the maximum, strictly between the linear interpolation; always between min and max (the fluid builder's `interpolate`, AppDimensFluid.kt lines 322-336, is the same function) |
| Fluid.Interpolate | Android/appdimens_dynamic/src/main/java/com/appdimens/dynamic/compose/AppDimensFluid.kt:322-336 | at or below the minimum width the minimum value, at or above the maximum width the maximum value, and always between the two values |
| Fluid.ProgressInUnit | Android/appdimens_dynamic/src/main/java/com/appdimens/dynamic/compose/AppDimensFluid.kt:322-336 | strictly between the two widths the interpolation progress lies strictly between 0 and 1 |
| Fluid.InterpolateFluidMonotone | Android/appdimens_dynamic/src/main/java/com/appdimens/dynamic/core/calculation/Calculator.kt:1575-1596 | for `min <= max` fluid sizes never shrink as the width grows |
| Fluid.Put | Android/appdimens_dynamic/src/main/java/com/appdimens/dynamic/compose/AppDimensFluid.kt:147-156 | inserting into the screen-qualifier map keeps keys unique, stores the new pair, keeps every other key's pair and adds nothing else |
| Fluid.AppDimensFluid.DefaultConfig | Android/appdimens_dynamic/src/main/java/com/appdimens/dynamic/compose/AppDimensFluid.kt:91-337 | the builder's own range with AUTO orientation and LOWEST type, and the builder starts with no qualifiers |
| Fluid.AppDimensFluid.constructor | Android/appdimens_dynamic/src/main/java/com/appdimens/dynamic/compose/AppDimensFluid.kt:91-100 | a new builder holds its range, AUTO orientation, LOWEST type and empty qualifier maps |
| Fluid.AppDimensFluid.Device | Android/appdimens_dynamic/src/main/java/com/appdimens/dynamic/compose/AppDimensFluid.kt:119-128 | `device` records that device's configuration, overwriting an earlier one, and changes nothing else |
| Fluid.AppDimensFluid.Screen | Android/appdimens_dynamic/src/main/java/com/appdimens/dynamic/compose/AppDimensFluid.kt:147-156 | `screen` records that threshold's configuration with unique keys and changes nothing else |
| Fluid.AppDimensFluid.WithBaseOrientation | Android/appdimens_dynamic/src/main/java/com/appdimens/dynamic/compose/AppDimensFluid.kt:161-164 | sets only the base orientation |
| Fluid.AppDimensFluid.WithType | Android/appdimens_dynamic/src/main/java/com/appdimens/dynamic/compose/AppDimensFluid.kt:169-172 | sets only the screen type |
| Fluid.AppDimensFluid.WithOrientationAndType | Android/appdimens_dynamic/src/main/java/com/appdimens/dynamic/compose/AppDimensFluid.kt:177-208 | `portraitLowest`, `portraitHighest`, `landscapeLowest` and `landscapeHighest` set exactly the orientation and the type |
| Fluid.AppDimensFluid.GetPreferred | Android/appdimens_dynamic/src/main/java/com/appdimens/dynamic/compose/AppDimensFluid.kt:274 | the preferred value is equidistant from min and max |
| Fluid.AppDimensFluid.Lerp | Android/appdimens_dynamic/src/main/java/com/appdimens/dynamic/compose/AppDimensFluid.kt:282-285 | the progress is clamped to [0, 1], so the result is min at or below 0, max at or above 1, and always between them |
| Fluid.AppDimensFluid.PreferredIsHalfway | Android/appdimens_dynamic/src/main/java/com/appdimens/dynamic/compose/AppDimensFluid.kt:274-285 | the preferred value is the interpolation at one half |
| Fluid.AppDimensFluid.ResolveConfig | Android/appdimens_dynamic/src/main/java/com/appdimens/dynamic/compose/AppDimensFluid.kt:291-317 | the loop returns `ResolvedConfig`: a configured device type wins; else the matching screen qualifier with the largest threshold; else the default configuration |
| Fluid.AppDimensFluid.Calculate | Android/appdimens_dynamic/src/main/java/com/appdimens/dynamic/compose/AppDimensFluid.kt:218-240 | the result interpolates the oriented dimension through the resolved configuration, and with no qualifiers is the plain clamped interpolation |
| Fluid.AppDimensFluid.CalculateForWidth | Android/appdimens_dynamic/src/main/java/com/appdimens/dynamic/compose/AppDimensFluid.kt:250-259 | the deprecated width overload interpolates the given width and, for an ordered range without qualifiers, stays within it |
| Extensions.Lerp | Android/appdimens_dynamic/src/main/java/com/appdimens/dynamic/core/shared/Extensions.kt:117-119 | `lerp` gives the start at 0, the end at 1, and stays between them for fractions in [0, 1] |
| Extensions.LerpBetween | Android/appdimens_dynamic/src/main/java/com/appdimens/dynamic/core/shared/Extensions.kt:117-119 | for fractions in [0, 1] the interpolation stays between start and end |
| Extensions.Clamp | Android/appdimens_dynamic/src/main/java/com/appdimens/dynamic/core/shared/Extensions.kt:145-151 | for `min <= max` the result is in range; an in-range value is unchanged; the result is the value or a bound |
| Extensions.IsInRange | Android/appdimens_dynamic/src/main/java/com/appdimens/dynamic/core/shared/Extensions.kt:231-233 | `isInRange` holds exactly when the value lies within half the range's width of its midpoint, which needs a non-inverted range |
| Extensions.ClampIdempotent | Android/appdimens_dynamic/src/main/java/com/appdimens/dynamic/core/shared/Extensions.kt:145-151 | clamping twice equals clamping once, and clamping is the identity exactly on `isInRange` values |
| Extensions.MapRange | Android/appdimens_dynamic/src/main/java/com/appdimens/dynamic/core/shared/Extensions.kt:204-213 | mapping is undefined (0/0, NaN) exactly when the source range is empty and the value sits on it; otherwise the result lies in the target range and the endpoints map to the endpoints |
| Extensions.Pow10 | Android/appdimens_dynamic/src/main/java/com/appdimens/dynamic/core/shared/Extensions.kt:264-267 | the rounding multiplier `10^decimals` is positive |
| Extensions.RoundHalfEven | Android/appdimens_dynamic/src/main/java/com/appdimens/dynamic/core/shared/Extensions.kt:264-267 | `kotlin.math.round`: within 0.5 of the input, and ties go to the even integer |
| Extensions.RoundAt | Android/appdimens_dynamic/src/main/java/com/appdimens/dynamic/core/shared/Extensions.kt:264-267 | the rounded value times the multiplier is the half-even rounding of the scaled input, within 0.5 of it |
| Extensions.RoundTo | Android/appdimens_dynamic/src/main/java/com/appdimens/dynamic/core/shared/Extensions.kt:264-267 | with no decimals `roundTo` is plain half-even rounding |
| Extensions.SafeDivide | Android/appdimens_dynamic/src/main/java/com/appdimens/dynamic/core/shared/Extensions.kt:415-417 | a zero divisor gives the default, otherwise the true quotient |
| Extensions.SafeDivideInt | Android/appdimens_dynamic/src/main/java/com/appdimens/dynamic/core/shared/Extensions.kt:423-425 | a zero divisor gives the default; `Int.MIN_VALUE / -1` wraps to `Int.MIN_VALUE`; otherwise the quotient truncated toward zero (remainder smaller than the divisor, with the sign of the dividend) |
| GameModels.AspectRatio | Android/appdimens_games/src/main/java/com/appdimens/games/core/models/GameModels.kt:215-220 | the game screen aspect ratio is at least 1, and 1.78 when a side is not positive |
| GameModels.AspectRatioRelatesSides | Android/appdimens_games/src/main/java/com/appdimens/games/core/models/GameModels.kt:215-220 | on positive sides, the ratio times the smaller side is the larger side |
| GameModels.AspectRatioRotationInvariant | Android/appdimens_games/src/main/java/com/appdimens/games/core/models/GameModels.kt:215-220 | rotating the screen leaves the aspect ratio unchanged |
| GameModels.DensityScale | Android/appdimens_games/src/main/java/com/appdimens/games/core/models/GameModels.kt:225-226 | the density scale times 160 is the dpi |
| GameModels.IsPortrait | Android/appdimens_games/src/main/java/com/appdimens/games/core/models/GameModels.kt:231-238 | a portrait screen is strictly narrower than tall |
| GameModels.IsLandscape | Android/appdimens_games/src/main/java/com/appdimens/games/core/models/GameModels.kt:231-238 | landscape is portrait with the sides swapped, and never holds together with portrait |
| GameModels.OrientationExclusive | Android/appdimens_games/src/main/java/com/appdimens/games/core/models/GameModels.kt:231-238 | a screen is never both portrait and landscape, and is neither exactly when it is square |
| GameElements.Ordinal | Android/appdimens_games/src/main/java/com/appdimens/games/core/strategy/GameElementType.kt:28-243 | each of the 61 element types has an ordinal in 0..60 that maps back to it |
| GameElements.OrdinalInjective | Android/appdimens_games/src/main/java/com/appdimens/games/core/strategy/GameElementType.kt:28-243 | distinct element types have distinct ordinals, so the element word of the cache key separates them |
| GameElements.GetRecommendedStrategy | Android/appdimens_games/src/main/java/com/appdimens/games/core/strategy/GameElementType.kt:249-291 | every element is recommended one of DEFAULT, PERCENTAGE, BALANCED, FLUID, FILL or NONE |
| GameElements.GetCategory | Android/appdimens_games/src/main/java/com/appdimens/games/core/strategy/GameElementType.kt:312-330 | every element falls into one of the eight named categories, and HUD text belongs to "UI & HUD" |
| GameElements.FillOnlyForBackgrounds | Android/appdimens_games/src/main/java/com/appdimens/games/core/strategy/GameElementType.kt:249-291 | FILL is recommended exactly for backgrounds and parallax layers |
| GameElements.NoneOnlyForDividerAndDebug | Android/appdimens_games/src/main/java/com/appdimens/games/core/strategy/GameElementType.kt:249-291 | NONE is recommended exactly for dividers and debug elements |
| GameElements.TextElementsAreFluid | Android/appdimens_games/src/main/java/com/appdimens/games/core/strategy/GameElementType.kt:249-330 | every element in the text category is recommended FLUID |
| GameElements.CharactersObjectsEffectsAreBalanced | Android/appdimens_games/src/main/java/com/appdimens/games/core/strategy/GameElementType.kt:249-330 | characters, game objects, effects/particles and GENERIC are recommended BALANCED |
| GameElements.WorldElementsFillOrBalance | Android/appdimens_games/src/main/java/com/appdimens/games/core/strategy/GameElementType.kt:249-330 | world elements are recommended FILL or BALANCED |
| GameElements.IsGameSpecific | Android/appdimens_games/src/main/java/com/appdimens/games/core/strategy/GameElementType.kt:297-310 | `isGameSpecific` holds exactly outside the standard-UI category and the six listed UI types |
| GameCache.FoldHashAppend | Android/appdimens_games/src/main/java/com/appdimens/games/core/cache/GameCacheFast.kt:181-208 | folding FNV-1a over two word lists in turn equals folding over their concatenation |
| GameCache.FnvStep | Android/appdimens_games/src/main/java/com/appdimens/games/core/cache/GameCacheFast.kt:188-205 | one FNV-1a round with 32-bit wrap-around: mixing in a word equal to the running hash resets it to 0, and the low bit of the result is the low bit of the xor |
| GameCache.FoldHash | Android/appdimens_games/src/main/java/com/appdimens/games/core/cache/GameCacheFast.kt:181-208 | folding a non-empty word list is one more round on the fold of all but its last word |
| GameCache.ComputeHash | Android/appdimens_games/src/main/java/com/appdimens/games/core/cache/GameCacheFast.kt:181-208 | `computeHash` is a round of the strategy ordinal on the fold of the base bits and the three truncated screen dimensions from the offset basis |
| GameCache.ComputeGameHash | Android/appdimens_games/src/main/java/com/appdimens/games/core/cache/GameCacheFast.kt:226-248 | `computeGameHash` is one more round, of the element ordinal, on `computeHash` |
| GameCache.GameHashFoldsSixWords | Android/appdimens_games/src/main/java/com/appdimens/games/core/cache/GameCacheFast.kt:226-248 | `computeGameHash` is FNV-1a over exactly six 32-bit words: the base bits, the three truncated screen dimensions, the strategy ordinal and the element ordinal |
| GameCache.GameHashSeesWholeDp | Android/appdimens_games/src/main/java/com/appdimens/games/core/cache/GameCacheFast.kt:226-248 | screens that agree after `toInt()` truncation of width, height and smallest width hash alike |
| GameCache.SlotIndex | Android/appdimens_games/src/main/java/com/appdimens/games/core/cache/GameCacheFast.kt:129 | `hash and (FAST_CACHE_SIZE - 1)` always selects one of the 1024 slots |
| GameCache.Remember | Android/appdimens_games/src/main/java/com/appdimens/games/core/cache/GameCacheFast.kt:124-159 | `rememberFast` touches only the key's slot; on a hit it returns the stored value (with the hit count bumped); on a miss it stores and returns the computed value; afterwards the slot holds the key and the returned value |
| GameCache.RememberThenHit | Android/appdimens_games/src/main/java/com/appdimens/games/core/cache/GameCacheFast.kt:124-159 | right after remembering a key, asking again hits and returns the first value, whatever is computed the second time |
| GameCache.OtherSlotKeepsHit | Android/appdimens_games/src/main/java/com/appdimens/games/core/cache/GameCacheFast.kt:124-159 | remembering a key in another slot neither evicts nor creates a hit for this key |
| GameCache.MismatchNeverHits | Android/appdimens_games/src/main/java/com/appdimens/games/core/cache/GameCacheFast.kt:135-156 | a slot holding a different key is overwritten with a fresh entry for the new key |
| GameCache.RememberIsTransparent | Android/appdimens_games/src/main/java/com/appdimens/games/core/cache/GameCacheFast.kt:124-159 | when every cached entry holds the value the computation gives for its key, the cache returns exactly the computed value and keeps that property |
| GameCache.Pruned | Android/appdimens_games/src/main/java/com/appdimens/games/core/cache/GameCacheFast.kt:379-395 | pruning clears exactly the stale slots and leaves the others in place |
| GameCache.CountStale | Android/appdimens_games/src/main/java/com/appdimens/games/core/cache/GameCacheFast.kt:379-395 | the number of pruned entries is at most the number of slots |
| GameCache.CountOccupied | Android/appdimens_games/src/main/java/com/appdimens/games/core/cache/GameCacheFast.kt:317-340 | the number of entries is at most the number of slots |
| GameCache.OldestAge | Android/appdimens_games/src/main/java/com/appdimens/games/core/cache/GameCacheFast.kt:317-340 | the reported oldest age is non-negative, bounds every entry's age and is the age of some entry unless 0 |
| GameCache.PrunedIsFresh | Android/appdimens_games/src/main/java/com/appdimens/games/core/cache/GameCacheFast.kt:379-395 | after pruning no slot is stale, and every surviving entry is unchanged |
| GameCache.PruneAccounting | Android/appdimens_games/src/main/java/com/appdimens/games/core/cache/GameCacheFast.kt:379-395 | entries before pruning equal the pruned count plus the entries left |
| GameCache.EmptyHasNoEntries | Android/appdimens_games/src/main/java/com/appdimens/games/core/cache/GameCacheFast.kt:260-264 | a cleared cache reports no entries and no key hits |
| GameCache.IsNearlyFull | Android/appdimens_games/src/main/java/com/appdimens/games/core/cache/GameCacheFast.kt:368 | nearly full exactly when entries reach 80% of capacity |
| GameCache.StatsOf | Android/appdimens_games/src/main/java/com/appdimens/games/core/cache/GameCacheFast.kt:317-340 | the statistics report capacity 1024 and an entry count between 0 and the number of slots |
| GameCache.PerformingWellOf | Android/appdimens_games/src/main/java/com/appdimens/games/core/cache/GameCacheFast.kt:363 | `isPerformingWell` holds exactly when ten times the hits reach seven times the entry count (at least 1) |
| GameCache.RateAtLeastSeventyPercent | Android/appdimens_games/src/main/java/com/appdimens/games/core/cache/GameCacheFast.kt:317-340 | the hit rate as computed by the statistics is at least 0.7 exactly when 10 * hits >= 7 * entries |
| GameCache.RotationKeepsCache | Android/appdimens_games/src/main/java/com/appdimens/games/core/cache/GameCacheFast.kt:279-307 | a change in which only the orientation flag differs (same density, width and height) keeps the cache |
| GameCache.GameCacheFast.constructor | Android/appdimens_games/src/main/java/com/appdimens/games/core/cache/GameCacheFast.kt:62-102 | a new cache has 1024 empty slots and the default maximum age |
| GameCache.GameCacheFast.RememberFast | Android/appdimens_games/src/main/java/com/appdimens/games/core/cache/GameCacheFast.kt:124-159 | the slot array becomes, and the method returns, what `Remember` specifies |
| GameCache.GameCacheFast.ClearFastCache | Android/appdimens_games/src/main/java/com/appdimens/games/core/cache/GameCacheFast.kt:260-264 | every slot is emptied |
| GameCache.GameCacheFast.ClearAll | Android/appdimens_games/src/main/java/com/appdimens/games/core/cache/GameCacheFast.kt:269-271 | every slot is emptied |
| GameCache.GameCacheFast.InvalidateOnConfigurationChange | Android/appdimens_games/src/main/java/com/appdimens/games/core/cache/GameCacheFast.kt:279-307 | a change of density or screen size (or a first configuration) empties the cache; otherwise the slots are untouched |
| GameCache.InvalidatesCache | Android/appdimens_games/src/main/java/com/appdimens/games/core/cache/GameCacheFast.kt:279-307 | the first configuration seen always clears the cache and an unchanged one never does |
| GameCache.GameCacheFast.PruneOldEntries | Android/appdimens_games/src/main/java/com/appdimens/games/core/cache/GameCacheFast.kt:379-395 | the slots become `Pruned` of the old slots and the returned count is the number of stale entries removed |
| GameCache.GameCacheFast.GetFastCacheStats | Android/appdimens_games/src/main/java/com/appdimens/games/core/cache/GameCacheFast.kt:317-340 | the statistics are `StatsOf` the current slots and never report more entries than capacity |
| GameAutoSize.LinearPresets | Android/appdimens_games/src/main/java/com/appdimens/games/helpers/GameAutoSize.kt:136-149 | the generated table has the requested length and entry `i` is `min + i * granularity` |
| GameAutoSize.GeneratePresets | Android/appdimens_games/src/main/java/com/appdimens/games/helpers/GameAutoSize.kt:136-149 | an empty or inverted range gives `[min]`; a zero granularity fails with a negative array size; otherwise the table starts at min, steps by the granularity, stays within [min, max] and has `trunc((max - min) / granularity) + 1` entries |
| GameAutoSize.StepsStayInRange | Android/appdimens_games/src/main/java/com/appdimens/games/helpers/GameAutoSize.kt:136-149 | each generated step lies in [min, max] and the count matches the truncated quotient plus one |
| GameAutoSize.GeneratedPresetsAscending | Android/appdimens_games/src/main/java/com/appdimens/games/helpers/GameAutoSize.kt:136-149 | generated tables are ascending, as the binary search requires |
| GameAutoSize.ConfigGeneratePresetsAsWritten | Android/appdimens_games/src/main/java/com/appdimens/games/core/models/GameModels.kt:277-282 | for a proper range `AutoSizeConfig.generatePresets` matches the guarded helper |
| GameAutoSize.UnguardedPresetsForInvertedRange | Android/appdimens_games/src/main/java/com/appdimens/games/core/models/GameModels.kt:277-282 | with min 16 and max 11 the config produces an empty table, and with max 10 and min 20 a negative array size, where the guarded helper returns `[min]` |
| GameAutoSize.GetOrGeneratePresetsAsWritten | Android/appdimens_games/src/main/java/com/appdimens/games/core/models/GameModels.kt:270-272 | the explicit presets win, otherwise the unguarded config generation |
| GameAutoSize.GetOrGeneratePresets | Android/appdimens_games/src/main/java/com/appdimens/games/core/models/GameModels.kt:270-282 | the explicit presets win, otherwise the guarded generation, which never yields an empty table for a non-negative granularity |
| GameAutoSize.PositiveStepCount | Android/appdimens_games/src/main/java/com/appdimens/games/helpers/GameAutoSize.kt:136-149 | for a proper range and positive granularity the 32-bit count is at least 1 unless it overflowed negative |
| GameAutoSize.CalculateAutoSize | Android/appdimens_games/src/main/java/com/appdimens/games/helpers/GameAutoSize.kt:54-65 | auto-sizing as written, over the presets of `AutoSizeConfig.getOrGeneratePresets` (an error there propagates): the container's smaller side for no presets, else the largest fitting preset of an ascending table, the first one when none fits |
| GameAutoSize.CalculateAutoSizeCorrected | Android/appdimens_games/src/main/java/com/appdimens/games/helpers/GameAutoSize.kt:54-65 | auto-sizing over the guarded presets: the same choice, and a generated table's answer is one of its presets |
| GameAutoSize.PickForContainer | Android/appdimens_games/src/main/java/com/appdimens/games/helpers/GameAutoSize.kt:54-65 | the preset picked for the container's smaller side is the best fitting one of the table |
| GameAutoSize.GenerateLogPresetsAsWritten | Android/appdimens_games/src/main/java/com/appdimens/games/helpers/GameAutoSize.kt:168-184 | an empty range or non-positive count gives `[min]`, and a count of exactly 1 divides by zero (NaN) |
| GameAutoSize.LogSpaced | Android/appdimens_games/src/main/java/com/appdimens/games/helpers/GameAutoSize.kt:168-184 | the log-spaced table has `count` entries running from `exp(ln min)` to `exp(ln max)` |
| GameAutoSize.EvenStepsReachEnd | Android/appdimens_games/src/main/java/com/appdimens/games/helpers/GameAutoSize.kt:168-184 | `n` equal log steps from the low end reach the high end exactly |
| GameAutoSize.GenerateLogPresets | Android/appdimens_games/src/main/java/com/appdimens/games/helpers/GameAutoSize.kt:168-184 | a count of at most 1 or an empty range gives `[min]`; it fails exactly when the range is proper but min is not positive; otherwise it is log-spaced |
| GameAutoSize.LogPresetsAgreeExceptSingle | Android/appdimens_games/src/main/java/com/appdimens/games/helpers/GameAutoSize.kt:168-184 | the guarded generator agrees with the original on every count except 1, where it returns `[min]` instead of NaN |
| GameAutoSize.CalculateHudTextSize | Android/appdimens_games/src/main/java/com/appdimens/games/helpers/GameAutoSize.kt:261-290 | it fails exactly when `minSize > maxSize` (`coerceIn`'s exception); a result lies in [min, max]; a positive base never grows beyond the larger of base and min |
| GameAutoSize.CoerceIn | Android/appdimens_games/src/main/java/com/appdimens/games/helpers/GameAutoSize.kt:261-290 | `coerceIn` returns a value in range, the value itself if in range, otherwise a bound |
| GameAutoSize.HudTextFitsKeepsBase | Android/appdimens_games/src/main/java/com/appdimens/games/helpers/GameAutoSize.kt:261-290 | text that fits the available width and height keeps its base size, clamped to [min, max] |
| GamesCalculator.AspectRatioAgrees | Android/appdimens_games/src/main/java/com/appdimens/games/core/calculation/GamesCalculator.kt:306-327 | the games screen's aspect ratio is the dynamic calculator's aspect ratio of the same screen |
| GamesCalculator.ArAdjustment | Android/appdimens_games/src/main/java/com/appdimens/games/core/calculation/GamesCalculator.kt:306-327 | the games aspect-ratio factor is 1 with zero sensitivity, and 1 at the 1.78 reference ratio when the logarithm vanishes near 1 |
| GamesCalculator.ScaledTwice | Android/appdimens_games/src/main/java/com/appdimens/games/core/calculation/GamesCalculator.kt:349-375 | multiplying the strategy scale by the aspect-ratio factor equals scaling the unadjusted value by it |
| GamesCalculator.CalculateDefault | Android/appdimens_games/src/main/java/com/appdimens/games/core/calculation/GamesCalculator.kt:306-327 | games DEFAULT is the dynamic DEFAULT: neutral at 300 dp and, without aspect ratio, growing exactly above it |
| GamesCalculator.CalculateBalanced | Android/appdimens_games/src/main/java/com/appdimens/games/core/calculation/GamesCalculator.kt:349-375 | games BALANCED is the dynamic BALANCED value times the games aspect-ratio factor |
| GamesCalculator.CalculateLogarithmic | Android/appdimens_games/src/main/java/com/appdimens/games/core/calculation/GamesCalculator.kt:382-406 | games LOGARITHMIC is the dynamic value times the aspect-ratio factor, so on the reference dimension it is just the base times that factor |
| GamesCalculator.CalculatePower | Android/appdimens_games/src/main/java/com/appdimens/games/core/calculation/GamesCalculator.kt:412-432 | games POWER is the dynamic value times the aspect-ratio factor, so on the reference dimension it is just the base times that factor |
| GamesCalculator.CalculateFluid | Android/appdimens_games/src/main/java/com/appdimens/games/core/calculation/GamesCalculator.kt:438-465 | games FLUID is the min value (times the factor) at or below `minWidth`, the max value from `maxWidth` up, and stays between min and max when no aspect correction applies |
| GamesCalculator.CalculateInterpolated | Android/appdimens_games/src/main/java/com/appdimens/games/core/calculation/GamesCalculator.kt:471-491 | games INTERPOLATED is the dynamic value times the factor; without aspect ratio it is the midpoint of base and PERCENTAGE |
| GamesCalculator.InferStrategy | Android/appdimens_games/src/main/java/com/appdimens/games/core/calculation/GamesCalculator.kt:668-683 | an element type gets its recommended strategy; without one, BALANCED exactly for known device types and DEFAULT for OTHER |
| GamesCalculator.SharedStrategies | Android/appdimens_games/src/main/java/com/appdimens/games/core/calculation/GamesCalculator.kt:334-342 | games PERCENTAGE and PERIMETER are the dynamic formulas |
| GamesCalculator.GamesFitAtMostFill | Android/appdimens_games/src/main/java/com/appdimens/games/core/calculation/GamesCalculator.kt:526-550 | for a non-negative base FIT never exceeds FILL |
| GamesCalculator.FluidWithoutParams | Android/appdimens_games/src/main/java/com/appdimens/games/core/calculation/GamesCalculator.kt:438-465 | FLUID without parameters stays between 0.8 and 1.2 times the base |
| GamesCalculator.CalculateUncached | Android/appdimens_games/src/main/java/com/appdimens/games/core/calculation/GamesCalculator.kt:233-295 | a qualifier override returns the constrained override; AUTOSIZE and NONE return the constrained base; ordered min/max bounds always hold |
| GamesCalculator.ElementTypeDecides | Android/appdimens_games/src/main/java/com/appdimens/games/core/calculation/GamesCalculator.kt:233-295 | without explicit strategy or override, the element type's recommended strategy computes the value |
| GamesCalculator.HashIgnoresScreenTypeAndOrientation | Android/appdimens_games/src/main/java/com/appdimens/games/core/calculation/GamesCalculator.kt:211-218 | the cache key is the same whatever the screen type and base orientation |
| GamesCalculator.RequestHash | Android/appdimens_games/src/main/java/com/appdimens/games/core/calculation/GamesCalculator.kt:211-218 | without an element type the cache key is one round of the all-ones word on `computeHash` of the base, the three screen sizes and the strategy ordinal (-1 for none) |
| GamesCalculator.Calculate | Android/appdimens_games/src/main/java/com/appdimens/games/core/calculation/GamesCalculator.kt:191-228 | as written: NONE bypasses the cache and returns the constrained base; every other request goes through `rememberFast` under the six-word key |
| GamesCalculator.CorrectedCacheIsTransparent | Android/appdimens_games/src/main/java/com/appdimens/games/core/calculation/GamesCalculator.kt:191-228 | with screen type and orientation folded into the key and the full request compared on a hit, the cache returns exactly the uncached value and stays consistent |
| GamesCalculator.CalculateCorrected | Android/appdimens_games/src/main/java/com/appdimens/games/core/calculation/GamesCalculator.kt:191-228 | the corrected entry point always returns the uncached result and keeps the cache consistent |
| GamesCalculator.ExampleValues | Android/appdimens_games/src/main/java/com/appdimens/games/core/calculation/GamesCalculator.kt:334-342 | on a 400 x 800 dp screen, PERCENTAGE of 100 dp gives 133.33332 for LOWEST and 266.66664 for HIGHEST |
| GamesCalculator.StaleScreenTypeHit | Android/appdimens_games/src/main/java/com/appdimens/games/core/calculation/GamesCalculator.kt:211-227 | on that screen, asking for LOWEST then HIGHEST hits the same key and returns 133.33332 instead of 266.66664 |
| GamesCalculator.StaleHitUnderKey | Android/appdimens_games/src/main/java/com/appdimens/games/core/calculation/GamesCalculator.kt:211-227 | under any one key, remembering the LOWEST result and then asking for HIGHEST returns the stale 133.33332 while the uncached HIGHEST is 266.66664 |
| GamesCalculator.CorrectedScreenTypeMiss | Android/appdimens_games/src/main/java/com/appdimens/games/core/calculation/GamesCalculator.kt:211-227 | with the corrected key the same two requests return 133.33332 and then 266.66664 |
| NativeCalculator.ResolveScreenType | Android/appdimens_games/src/main/cpp/src/GameCalculator.cpp:266-296 | the native screen-type resolution is the shared orientation rule |
| NativeCalculator.GetDimensionForType | Android/appdimens_games/src/main/cpp/src/GameCalculator.cpp:249-264 | the native dimension is the oriented dimension of the resolved screen type |
| NativeCalculator.DimensionAgrees | Android/appdimens_games/src/main/cpp/src/GameCalculator.cpp:249-264 | on the same screen the native dimension equals the Kotlin dimension |
| NativeCalculator.CalculateDefault | Android/appdimens_games/src/main/cpp/src/GameCalculator.cpp:82-105 | native DEFAULT is neutral at 300 dp and, without aspect ratio, grows a positive base exactly above it |
| NativeCalculator.DefaultFactor | Android/appdimens_games/src/main/cpp/src/GameCalculator.cpp:82-105 | the native factor is 1 at zero difference and `1 + difference * 0.00333` without aspect ratio |
| NativeCalculator.DefaultFactorAgrees | Android/appdimens_games/src/main/cpp/src/GameCalculator.cpp:82-105 | the native DEFAULT factor equals the Kotlin one on the same screen |
| NativeCalculator.CalculatePercentage | Android/appdimens_games/src/main/cpp/src/GameCalculator.cpp:107-115 | native PERCENTAGE is 0 on a zero dimension, and for a positive base exceeds the base exactly when the dimension exceeds the 300 dp reference |
| NativeCalculator.PercentageAgrees | Android/appdimens_games/src/main/cpp/src/GameCalculator.cpp:107-115 | native PERCENTAGE equals Kotlin PERCENTAGE on the same screen |
| NativeCalculator.CalculateBalanced | Android/appdimens_games/src/main/cpp/src/GameCalculator.cpp:117-137 | up to the transition point native BALANCED is PERCENTAGE |
| NativeCalculator.BalancedAgrees | Android/appdimens_games/src/main/cpp/src/GameCalculator.cpp:117-137 | native BALANCED equals the Kotlin BALANCED on the same screen |
| NativeCalculator.CalculateLogarithmic | Android/appdimens_games/src/main/cpp/src/GameCalculator.cpp:139-156 | native LOGARITHMIC is neutral on the reference dimension when the logarithm vanishes near 1 |
| NativeCalculator.LogarithmicAgrees | Android/appdimens_games/src/main/cpp/src/GameCalculator.cpp:139-156 | native LOGARITHMIC equals the Kotlin LOGARITHMIC on the same valid screen |
| NativeCalculator.CalculatePower | Android/appdimens_games/src/main/cpp/src/GameCalculator.cpp:158-169 | native POWER is neutral on the reference dimension when `pow(1, e) = 1` |
| NativeCalculator.PowerAgrees | Android/appdimens_games/src/main/cpp/src/GameCalculator.cpp:158-169 | native POWER equals the Kotlin POWER on the same screen |
| NativeCalculator.CalculateFluid | Android/appdimens_games/src/main/cpp/src/GameCalculator.cpp:171-191 | native FLUID is the clamped interpolation of the dimension: min at or below `minWidth`, max from `maxWidth`, always between |
| NativeCalculator.CalculateInterpolated | Android/appdimens_games/src/main/cpp/src/GameCalculator.cpp:193-202 | native INTERPOLATED is the midpoint of base and its PERCENTAGE value |
| NativeCalculator.CalculateDiagonal | Android/appdimens_games/src/main/cpp/src/GameCalculator.cpp:204-212 | native DIAGONAL scales by the diagonal over 611.6305 dp, whichever way the device is held; a positive base grows exactly when the diagonal exceeds the reference |
| NativeCalculator.CalculatePerimeter | Android/appdimens_games/src/main/cpp/src/GameCalculator.cpp:214-221 | native PERIMETER scales by width plus height over 833 dp; a positive base grows exactly when the sides add up to more than the reference |
| NativeCalculator.CalculateFit | Android/appdimens_games/src/main/cpp/src/GameCalculator.cpp:223-232 | native FIT takes the smaller of the two reference ratios for a non-negative base |
| NativeCalculator.CalculateFill | Android/appdimens_games/src/main/cpp/src/GameCalculator.cpp:234-243 | native FILL takes the larger of the two reference ratios for a non-negative base |
| NativeCalculator.Calculate | Android/appdimens_games/src/main/cpp/src/GameCalculator.cpp:26-76 | NONE, FLUID (no parameters natively) and AUTOSIZE return the base; each strategy that is neutral at 300 dp returns the base there |
| NativeCalculator.FitAtMostFill | Android/appdimens_games/src/main/cpp/src/GameCalculator.cpp:223-243 | for a non-negative base native FIT never exceeds native FILL |
| NativeCalculator.InferStrategy | Android/appdimens_games/src/main/cpp/src/GameCalculator.cpp:302-376 | FILL exactly for backgrounds and parallax layers, NONE exactly for dividers, DEFAULT exactly for the four HUD controls; only the six usual strategies come out |
| NativeCalculator.InferenceMatchesKotlin | Android/appdimens_games/src/main/cpp/src/GameCalculator.cpp:302-376 | on every element the native switch lists, native inference equals the Kotlin recommendation |
| NativeCalculator.UnlistedAreBalanced | Android/appdimens_games/src/main/cpp/src/GameCalculator.cpp:302-376 | the twelve element types missing from the native switch fall back to BALANCED |
| NativeCalculator.KotlinUnlistedNotBalanced | Android/appdimens_games/src/main/java/com/appdimens/games/core/strategy/GameElementType.kt:249-291 | Kotlin recommends something other than BALANCED for each of those twelve, so the two ports disagree there |
| WebCalculator.OrDefault | Web/src/core/Calculator.ts:429-459 | `params.x \|\| default`: a present non-zero parameter is used, an absent or zero one falls back to the default |
| WebCalculator.WebLnVanishesNearOne | Web/src/core/Calculator.ts:164-167 | the Web `fastLn` is exactly 0 within tolerance of 1 when `Math.log(1)` is 0 |
| WebCalculator.AspectRatio | Web/src/core/Calculator.ts:758-772 | the Web aspect ratio is largest over smallest, at least 1 on a positive screen |
| WebCalculator.CalculationCache.constructor | Web/src/core/Calculator.ts:207-213 | `calculate` starts from an empty memo record |
| WebCalculator.CalculationCache.ResolveScreenType | Web/src/core/Calculator.ts:665-701 | a memoised effective type is returned as is; otherwise the shared orientation rule decides, and the result is memoised |
| WebCalculator.CalculationCache.GetSmallestDimension | Web/src/core/Calculator.ts:726-737 | returns the smaller side and memoises it |
| WebCalculator.CalculationCache.GetLargestDimension | Web/src/core/Calculator.ts:742-753 | returns the larger side and memoises it |
| WebCalculator.CalculationCache.GetDimensionForType | Web/src/core/Calculator.ts:706-721 | a truthy memoised dimension is returned and the side memos are left alone; otherwise the larger side for HIGHEST and the smaller for LOWEST, with both side memos filled; the dimension memo holds the result afterwards |
| WebCalculator.CalculationCache.GetAspectRatio | Web/src/core/Calculator.ts:758-772 | the result is the Web aspect ratio and is memoised; the side memos are filled exactly when the ratio memo was not truthy |
| WebCalculator.CalculationCache.SmallestOrMin | Web/src/core/Calculator.ts:726-737 | a faithful memo's smallest dimension is the screen's smaller side |
| WebCalculator.CalculationCache.LargestOrMax | Web/src/core/Calculator.ts:742-753 | a faithful memo's largest dimension is the screen's larger side |
| WebCalculator.ResolvedDimension | Web/src/core/Calculator.ts:404-420 | on a fresh memo, resolving the type then the dimension gives the oriented dimension |
| WebCalculator.CalculatePercentage | Web/src/core/Calculator.ts:404-420 | Web PERCENTAGE times 300 is the base times the dimension |
| WebCalculator.ArAdjustment | Web/src/core/Calculator.ts:370-398 | the Web aspect-ratio factor is 1 when aspect ratio is off, and at the reference ratio (within tolerance) when the logarithm vanishes near 1 |
| WebCalculator.CalculateDefault | Web/src/core/Calculator.ts:370-398 | Web DEFAULT is PERCENTAGE when the aspect-ratio factor is neutral, and the base times that factor on the 300 dp dimension |
| WebCalculator.CalculateBalanced | Web/src/core/Calculator.ts:429-459 | below the transition point Web BALANCED is PERCENTAGE, and so it is at the transition point too when the logarithm vanishes near 1 |
| WebCalculator.CalculateLogarithmic | Web/src/core/Calculator.ts:465-489 | Web LOGARITHMIC is neutral at 300 dp when the logarithm vanishes near 1 |
| WebCalculator.LogarithmicOrderedAroundReference | Web/src/core/Calculator.ts:465-489 | for a positive base and sensitivity and a logarithm non-negative from 1, LOGARITHMIC is at least the base above 300 dp and at most it below |
| WebCalculator.CalculatePower | Web/src/core/Calculator.ts:495-516 | Web POWER is the base times the shared power scale, neutral at 300 dp |
| WebCalculator.CalculateFluid | Web/src/core/Calculator.ts:522-550 | Web FLUID is the clamped interpolation with the default widths standing in for absent or zero ones, and stays between min and max |
| WebCalculator.CalculateInterpolated | Web/src/core/Calculator.ts:556-573 | Web INTERPOLATED is the midpoint of the base and its PERCENTAGE value |
| WebCalculator.CalculateFit | Web/src/core/Calculator.ts:618-634 | Web FIT takes one of the two reference ratios, the smaller for a non-negative base |
| WebCalculator.CalculateFill | Web/src/core/Calculator.ts:640-656 | Web FILL takes one of the two reference ratios, the larger for a non-negative base |
| WebCalculator.CalculateDiagonal | Web/src/core/Calculator.ts:579-597 | DIAGONAL exceeds a positive base exactly when the screen diagonal exceeds the reference diagonal |
| WebCalculator.CalculatePerimeter | Web/src/core/Calculator.ts:599-612 | PERIMETER exceeds a positive base exactly when the sum of the sides exceeds the reference perimeter |
| WebCalculator.ScreenWideStrategiesIgnoreRotation | Web/src/core/Calculator.ts:579-612 | Web DIAGONAL and PERIMETER depend only on the two sides, not on which is width |
| WebCalculator.ApplyConstraints | Web/src/core/Calculator.ts:346-357 | bounds hold as in Kotlin: at most max and the physical cap, in [min, max] when ordered without a cap, and the identity without constraints |
| WebCalculator.ConstraintsAgreeWithKotlin | Web/src/core/Calculator.ts:346-357 | the Web constraint step equals the Kotlin `applyConstraints` for the same density |
| WebCalculator.Calculate | Web/src/core/Calculator.ts:222-360 | FLUID without parameters throws, and it is the only error; ordered bounds hold on success; NONE and AUTOSIZE return the constrained base |
| WebCalculator.CalculateCached | Web/src/core/Calculator.ts:222-360 | the memoising implementation returns exactly `Calculate` |
| WebCalculator.ConstrainStepwise | Web/src/core/Calculator.ts:346-357 | the sequential min, max and physical-cap updates compute `ApplyConstraints` |
| WebCalculator.UnconstrainedCached | Web/src/core/Calculator.ts:233-343 | the strategy switch through the memo computes the unconstrained value |
| WebCalculator.ReferenceDimensionKeepsBase | Web/src/core/Calculator.ts:222-360 | on the 300 dp dimension, PERCENTAGE, INTERPOLATED, BALANCED (transition at or above 300), LOGARITHMIC, POWER and uncorrected DEFAULT all return the base |
| WebCalculator.FitAtMostFill | Web/src/core/Calculator.ts:618-656 | for a non-negative base FIT never exceeds FILL, even after constraints |
| WebCalculator.ConstraintsMonotone | Web/src/core/Calculator.ts:346-357 | constraining preserves order |
| WebCalculator.ZeroParametersAreDefaults | Web/src/core/Calculator.ts:429-459 | zero sensitivity and transition point behave exactly like absent ones |
| WebCalculator.InferStrategy | Web/src/core/Calculator.ts:781-813 | DEFAULT exactly for icons and badges, PERCENTAGE exactly for images, containers and cards, NONE exactly for dividers, FIT exactly for game UI, BALANCED otherwise |
| WebCalculator.InferredStrategyNeverThrows | Web/src/core/Calculator.ts:781-813 | an inferred strategy never requires fluid parameters, so `calculate` with it succeeds |
| PerceptualCore.DefaultConfig | Android/appdimens_dynamic/src/main/java/com/appdimens/dynamic/core/optimization/PerceptualCore.kt:125-136 | the default configuration uses the given base, the BALANCED model and the 480 dp transition point |
| PerceptualCore.CalculateWeberFechnerScale | Android/appdimens_dynamic/src/main/java/com/appdimens/dynamic/core/optimization/PerceptualCore.kt:306-317 | the Weber-Fechner scale is 1 at 300 dp when `ln(1) = 0`, and 1 at zero sensitivity |
| PerceptualCore.WeberFechnerReciprocal | Android/appdimens_dynamic/src/main/java/com/appdimens/dynamic/core/optimization/PerceptualCore.kt:306-317 | the scales at `300 * x` and `300 / x` dp sum to 2: the curve is symmetric around the reference |
| PerceptualCore.WeberFechnerOrdered | Android/appdimens_dynamic/src/main/java/com/appdimens/dynamic/core/optimization/PerceptualCore.kt:306-317 | for a non-negative sensitivity and a logarithm increasing from 1, the scale never decreases with the dimension, is at least 1 from 300 dp and at most 1 below it |
| PerceptualCore.WeberFechnerBelow | Android/appdimens_dynamic/src/main/java/com/appdimens/dynamic/core/optimization/PerceptualCore.kt:306-317 | below 300 dp the scale is ordered and at most 1 |
| PerceptualCore.WeberFechnerAbove | Android/appdimens_dynamic/src/main/java/com/appdimens/dynamic/core/optimization/PerceptualCore.kt:306-317 | above 300 dp the scale is ordered and at least 1 |
| PerceptualCore.MonotoneStep | Android/appdimens_dynamic/src/main/java/com/appdimens/dynamic/core/optimization/PerceptualCore.kt:306-317 | scaling a logarithm increasing from 1 by a non-negative sensitivity keeps order and sign |
| PerceptualCore.CalculateStevensScale | Android/appdimens_dynamic/src/main/java/com/appdimens/dynamic/core/optimization/PerceptualCore.kt:346-352 | the Stevens scale is the shared power scale, 1 at 300 dp |
| PerceptualCore.CalculateHybridScale | Android/appdimens_dynamic/src/main/java/com/appdimens/dynamic/core/optimization/PerceptualCore.kt:388-405 | the hybrid scale is linear (scale times 300 is the dimension) up to the transition and logarithmic above it |
| PerceptualCore.HybridContinuousAtTransition | Android/appdimens_dynamic/src/main/java/com/appdimens/dynamic/core/optimization/PerceptualCore.kt:388-405 | the logarithmic branch equals the linear one at the transition point |
| PerceptualCore.HybridMonotone | Android/appdimens_dynamic/src/main/java/com/appdimens/dynamic/core/optimization/PerceptualCore.kt:388-405 | the hybrid scale never decreases with the dimension and above the transition is at least the transition's linear scale |
| PerceptualCore.CalculatePerceptualScale | Android/appdimens_dynamic/src/main/java/com/appdimens/dynamic/core/optimization/PerceptualCore.kt:260-273 | every model is neutral at 300 dp (BALANCED when its transition is at or above 300 dp), and BALANCED is linear up to its transition |
| PerceptualCore.CalculateAspectRatioFactor | Android/appdimens_dynamic/src/main/java/com/appdimens/dynamic/core/optimization/PerceptualCore.kt:436-444 | the factor is `1 + arSensitivity * ln(ratio / 1.78)`, and 1 at zero sensitivity |
| PerceptualCore.AspectRatioFactorAtReference | Android/appdimens_dynamic/src/main/java/com/appdimens/dynamic/core/optimization/PerceptualCore.kt:436-444 | at the 1.78 reference ratio the factor is 1 |
| PerceptualCore.AspectRatioFactorSwapSymmetric | Android/appdimens_dynamic/src/main/java/com/appdimens/dynamic/core/optimization/PerceptualCore.kt:436-444 | rotating the screen leaves the factor unchanged |
| PerceptualCore.ResolveFinalBaseDp | Android/appdimens_dynamic/src/main/java/com/appdimens/dynamic/core/optimization/PerceptualCore.kt:481-522 | a matching intersection qualifier with the largest threshold wins, the first such entry in order on a tie; else the UI-mode entry; else the adjustment factors' dp-qualifier resolution of the base |
| PerceptualCore.NoQualifiersKeepBase | Android/appdimens_dynamic/src/main/java/com/appdimens/dynamic/core/optimization/PerceptualCore.kt:481-522 | without qualifiers the base value is kept |
| PerceptualCore.DimensionToUse | Android/appdimens_dynamic/src/main/java/com/appdimens/dynamic/core/optimization/PerceptualCore.kt:213-216 | the dimension is the smallest width or the larger side; under AUTO it is the larger side for HIGHEST and the smallest width for LOWEST |
| PerceptualCore.WholeDpOrientation | Android/appdimens_dynamic/src/main/java/com/appdimens/dynamic/core/optimization/PerceptualCore.kt:577-583 | building an Android configuration from whole-dp sides does not change the resolved screen type |
| PerceptualCore.WholeTruncates | Android/appdimens_dynamic/src/main/java/com/appdimens/dynamic/core/optimization/PerceptualCore.kt:577-583 | `toInt()` is exact on whole numbers in the 32-bit range |
| PerceptualCore.ArFactor | Android/appdimens_dynamic/src/main/java/com/appdimens/dynamic/core/optimization/PerceptualCore.kt:198-234 | the aspect-ratio factor is 1 when aspect-ratio correction is off |
| PerceptualCore.CalculateScaledValue | Android/appdimens_dynamic/src/main/java/com/appdimens/dynamic/core/optimization/PerceptualCore.kt:198-234 | on the 300 dp dimension with a neutral aspect-ratio factor the result is the resolved base |
| PerceptualCore.ReferenceScreenKeepsBase | Android/appdimens_dynamic/src/main/java/com/appdimens/dynamic/core/optimization/PerceptualCore.kt:198-234 | with the default configuration a 300 dp screen at the 1.78 reference ratio keeps the base |
| PerceptualCore.AutoWithoutQualifiersIgnoresRotation | Android/appdimens_dynamic/src/main/java/com/appdimens/dynamic/core/optimization/PerceptualCore.kt:198-234 | under AUTO without qualifiers, rotating the screen does not change the scaled value |

## Left out

- Floating point: all arithmetic is on `real`. Kotlin `Float`, C++ `float` and JavaScript `number` rounding is not modelled, so the results are exact where the programs round. The constants keep the literal values the source writes, e.g. `0.003333333` and `0.5617978`.
- `ln`, `exp`, `sqrt` and `pow` are uninterpreted parameters. Only the laws the lemmas name are assumed of them, as hypotheses (`ln(1) = 0`, `pow(1, e) = 1`, monotonicity from 1).
- Screens with a zero side: the aspect-ratio and logarithm strategies divide by a side. Their preconditions exclude a zero divisor, where the programs yield infinity or NaN.
- The dynamic `CalculationCache` and the Kotlin memoisation of the effective screen type, the dimension and the aspect ratio. They only avoid recomputation, so the functions recompute instead. The Web memo is modelled as a class, and `WebCalculator.CalculateCached` proves that it changes nothing.
- `buildInferenceContext` and `DeviceType.from` / `GameDeviceType.from`: the device type is an input of the inference functions rather than derived from the screen.
- `GameCacheFast` concurrency: the atomic hit counters and the cross-thread visibility of slot writes are not modelled. The hit counter is kept as an integer that wraps at 32 bits.
- The clock: the current time is a parameter (`now`) of the cache operations.
- GameCache.StatsOf: the hit rate is described only through `isPerformingWell` (`GameCache.PerformingWellOf`). That member follows the code's `hitRate >= 0.7f`, not the doc comment's "more than 70%".
- GameCache.ComputeHash: the quality of the hash is not stated (which distinct inputs collide). The model states only its round structure and the 32-bit wrap-around.
- `GameElementType.getDescription` and the enum display strings: free text with no behaviour.
- The View and TextView auto-size helpers (`applyAutoSizeToTextView`, `createAutoSizer`) and the remaining UI glue in `GameAutoSize`: they act on Android views that are not part of this model.
- `BoundedLRUCache` and the other optimisation caches outside `GameCacheFast`: they are not part of this model.
- The Compose and View entry points, `Configuration` plumbing and `LocalConfiguration`: they only feed the screen values that the model takes as inputs.
- The C++ JNI bridge and native memory management: the native calculator is modelled through its `calculate` and strategy functions only.
- Presets.FindBestPreset: "largest fitting preset" is promised only for ascending tables, as the binary search requires; on an unsorted table only membership and the bound are stated.
- GamesCalculator.CalculateFluid: the bound between min and max is stated only when the aspect-ratio factor is neutral, because the factor may legitimately push the value outside that range.
- PerceptualCore.CalculateScaledValue: the full value on every screen is not restated; the contract covers the reference screen, and the lemmas beside it cover rotation and the base resolution.

## Findings

| source | as written | input that shows it | evidently intended | confidence | as-written member | corrected member |
|---|---|---|---|---|---|---|
| Android/appdimens_dynamic/src/main/java/com/appdimens/dynamic/core/calculation/Calculator.kt:174-187 | the fast-ln key table, documented as sorted ascending, lists 2.25 before 2.243, so the binary search can step past a matching key | `fastLn(2.24)`: the search probes 2.56, 1.667, 2.17, 2.3, 2.25, 2.2 and 2.223 and never reaches 2.243, which is within 0.005, so it falls back to `ln` | the table sorted, with 2.243 before 2.25, so every key within tolerance is found | high (not executed) | LnTables.DynamicLookupMissesAsWritten | LnTables.DynamicLookupMisses |
| Android/appdimens_games/src/main/java/com/appdimens/games/core/calculation/GamesCalculator.kt:211-218 | the cache key hashes base, width, height, smallest width, strategy and element type, but not screen type or base orientation | on a 400 x 800 dp screen, PERCENTAGE of 100 dp with LOWEST (133.33332) and then HIGHEST returns 133.33332 instead of 266.66664 | screen type and orientation folded into the key, so that different requests never share an entry | high (not executed) | GamesCalculator.StaleScreenTypeHit | GamesCalculator.CorrectedScreenTypeMiss |
| Android/appdimens_games/src/main/java/com/appdimens/games/core/models/GameModels.kt:277-282 | `AutoSizeConfig.generatePresets` omits the `minValue >= maxValue` guard that `GameAutoSize.generatePresets` has | `AutoSizeConfig(16, 11, 10, …, granularity 1)` yields an empty preset table; with min 20 and max 10 the array size is negative and construction throws | the same guard as the helper: an inverted or empty range gives `[min]` | high (not executed) | GameAutoSize.UnguardedPresetsForInvertedRange | GameAutoSize.GetOrGeneratePresets |
| Android/appdimens_games/src/main/java/com/appdimens/games/helpers/GameAutoSize.kt:168-184 | `generateLogPresets` divides the log range by `count - 1` | `generateLogPresets(10, 20, 1)`: the step `(ln 20 - ln 10) / 0` is infinite and `0 * step` is NaN, so the single preset is NaN | a single preset is just `minValue` | high (not executed) | GameAutoSize.GenerateLogPresetsAsWritten | GameAutoSize.LogPresetsAgreeExceptSingle |
