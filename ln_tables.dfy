/**
 * The tolerance-based logarithm lookup tables of the three calculators
 * (`LnLookupOptimized` in the dynamic and games Kotlin calculators,
 * `LnLookupTable` in the Web calculator) and the `fastLn` wrapper that falls
 * back to the platform logarithm on a miss.
 *
 * The lookup is a binary search over the keys that returns as soon as a
 * probed key lies within 0.005 of the value, and after the search checks the
 * two neighbours of the final window.  `Search` is that search written as a
 * recursive function; `Lookup` completes it with the neighbour checks, and
 * `LookupLoop` is the loop itself, proved equal to `Lookup`.
 */
module LnTables {
  import opened Numerics

  /** `TOLERANCE`: a key matches a value at most this far from it. */
  const Tolerance: real := 0.005

  /** A key array and the logarithm stored for each key. */
  datatype LnTable = LnTable(keys: seq<real>, values: seq<real>)

  /** The two arrays are parallel. */
  predicate WellFormed(t: LnTable)
  {
    |t.keys| == |t.values|
  }

  /** Outcome of the search loop: an early return, or the final window. */
  datatype Probe = Hit(index: int) | Miss(low: int, high: int)

  /**
   * The `while (low <= high)` loop: probe the middle key, return on a match,
   * otherwise keep the half on the value's side.
   */
  function Search(keys: seq<real>, v: real, low: int, high: int): (p: Probe)
    requires 0 <= low <= high + 1 <= |keys|
    ensures p.Hit? ==> 0 <= p.index < |keys| && Abs(v - keys[p.index]) <= Tolerance
    ensures p.Miss? ==> 0 <= p.low == p.high + 1 <= |keys|
    decreases high - low + 1
  {
    if low > high then Miss(low, high)
    else
      var mid := (low + high) / 2;
      if Abs(v - keys[mid]) <= Tolerance then Hit(mid)
      else if keys[mid] < v then Search(keys, v, mid + 1, high)
      else Search(keys, v, low, mid - 1)
  }

  /** The index `lookup` reads its answer from: search, then the neighbours `high` and `low`. */
  function LookupIndex(keys: seq<real>, v: real): (r: Option<int>)
    ensures r.Some? ==> 0 <= r.value < |keys| && Abs(v - keys[r.value]) <= Tolerance
  {
    match Search(keys, v, 0, |keys| - 1)
    case Hit(i) => Some(i)
    case Miss(low, high) =>
      if high >= 0 && Abs(v - keys[high]) <= Tolerance then Some(high)
      else if low < |keys| && Abs(v - keys[low]) <= Tolerance then Some(low)
      else None
  }

  /** `lookup(value)`: the stored logarithm of a key within tolerance, or null. */
  function Lookup(t: LnTable, v: real): (r: Option<real>)
    requires WellFormed(t)
    ensures r.Some? ==>
      exists i :: 0 <= i < |t.keys| && Abs(v - t.keys[i]) <= Tolerance && r.value == t.values[i]
  {
    match LookupIndex(t.keys, v)
    case Some(i) => Some(t.values[i])
    case None => None
  }

  /** The binary-search loop of the lookup, returning where it stopped. */
  method SearchLoop(keys: seq<real>, value: real) returns (p: Probe)
    ensures p == Search(keys, value, 0, |keys| - 1)
  {
    var low := 0;
    var high := |keys| - 1;
    while low <= high
      invariant 0 <= low <= high + 1 <= |keys|
      invariant Search(keys, value, low, high) == Search(keys, value, 0, |keys| - 1)
      decreases high - low
    {
      var mid := (low + high) / 2;
      if Abs(value - keys[mid]) <= Tolerance {
        return Hit(mid);
      }
      if keys[mid] < value {
        low := mid + 1;
      } else {
        high := mid - 1;
      }
    }
    return Miss(low, high);
  }

  /** The lookup loop as the calculators run it, then the neighbour checks. */
  method LookupLoop(t: LnTable, value: real) returns (r: Option<real>)
    requires WellFormed(t)
    ensures r == Lookup(t, value)
  {
    var p := SearchLoop(t.keys, value);
    if p.Hit? {
      return Some(t.values[p.index]);
    }
    if p.high >= 0 && Abs(value - t.keys[p.high]) <= Tolerance {
      return Some(t.values[p.high]);
    }
    if p.low < |t.keys| && Abs(value - t.keys[p.low]) <= Tolerance {
      return Some(t.values[p.low]);
    }
    return None;
  }

  /** `fastLn(value)`: the table's logarithm on a hit, the platform `ln` on a miss. */
  function FastLn(t: LnTable, m: MathLib, v: real): (r: real)
    requires WellFormed(t)
    ensures || (Lookup(t, v).None? && r == m.ln(v))
            || (exists i :: 0 <= i < |t.keys| && Abs(v - t.keys[i]) <= Tolerance && r == t.values[i])
  {
    match Lookup(t, v)
    case Some(x) => x
    case None => m.ln(v)
  }

  // ---------------------------------------------------------------------
  // Sortedness and completeness
  // ---------------------------------------------------------------------

  /** The keys are strictly ascending, which the binary search relies on. */
  ghost predicate Ascending(s: seq<real>)
  {
    forall i, j :: 0 <= i < j < |s| ==> s[i] < s[j]
  }

  /** Neighbour-by-neighbour ascent from index `i` on, a form literal tables can be checked in. */
  predicate SortedFrom(s: seq<real>, i: nat)
    decreases |s| - i
  {
    i + 1 >= |s| || (s[i] < s[i + 1] && SortedFrom(s, i + 1))
  }

  lemma {:induction false} SortedFromAscending(s: seq<real>, i: nat)
    requires SortedFrom(s, i)
    ensures forall a, b :: i <= a < b < |s| ==> s[a] < s[b]
    decreases |s| - i
  {
    if i + 1 < |s| {
      SortedFromAscending(s, i + 1);
    }
  }

  /**
   * On ascending keys the search only gives up when every key is out of
   * tolerance: keys left of the window are too small, keys right of it too
   * large.
   */
  lemma {:induction false} SearchMissesOnlyFarKeys(keys: seq<real>, v: real, low: int, high: int)
    requires Ascending(keys)
    requires 0 <= low <= high + 1 <= |keys|
    requires forall i :: 0 <= i < low ==> keys[i] < v - Tolerance
    requires forall i :: high < i < |keys| ==> keys[i] > v + Tolerance
    ensures Search(keys, v, low, high).Miss? ==>
      forall i :: 0 <= i < |keys| ==> Abs(v - keys[i]) > Tolerance
    decreases high - low + 1
  {
    if low <= high {
      var mid := (low + high) / 2;
      if Abs(v - keys[mid]) <= Tolerance {
      } else if keys[mid] < v {
        SearchMissesOnlyFarKeys(keys, v, mid + 1, high);
      } else {
        SearchMissesOnlyFarKeys(keys, v, low, mid - 1);
      }
    }
  }

  /** On ascending keys a lookup hits exactly when some key lies within tolerance. */
  lemma LookupComplete(keys: seq<real>, v: real)
    requires Ascending(keys)
    ensures LookupIndex(keys, v).Some? <==>
      exists i :: 0 <= i < |keys| && Abs(v - keys[i]) <= Tolerance
  {
    SearchMissesOnlyFarKeys(keys, v, 0, |keys| - 1);
  }

  /**
   * On ascending keys, a value within tolerance of key `i` and clear of both
   * neighbours of `i` is answered with the logarithm stored for `i`.
   */
  lemma LookupBracketed(t: LnTable, i: int, v: real)
    requires WellFormed(t) && Ascending(t.keys)
    requires 0 <= i < |t.keys| && Abs(v - t.keys[i]) <= Tolerance
    requires i == 0 || t.keys[i - 1] < v - Tolerance
    requires i == |t.keys| - 1 || t.keys[i + 1] > v + Tolerance
    ensures Lookup(t, v) == Some(t.values[i])
  {
    LookupComplete(t.keys, v);
    OnlyKeyNear(t.keys, v, i);
  }

  /** Under the same conditions, `i` is the only key within tolerance of `v`. */
  lemma OnlyKeyNear(keys: seq<real>, v: real, i: int)
    requires Ascending(keys)
    requires 0 <= i < |keys| && Abs(v - keys[i]) <= Tolerance
    requires i == 0 || keys[i - 1] < v - Tolerance
    requires i == |keys| - 1 || keys[i + 1] > v + Tolerance
    ensures forall j :: 0 <= j < |keys| && Abs(v - keys[j]) <= Tolerance ==> j == i
  {
  }

  // ---------------------------------------------------------------------
  // The three tables
  // ---------------------------------------------------------------------

  /** Keys of the dynamic calculator's table, in the order the source lists them. */
  const DynamicKeys: seq<real> :=
    [0.4, 0.5, 0.6, 0.7, 0.8, 0.9]
    + [1.0, 1.1, 1.2, 1.25, 1.28, 1.3, 1.31, 1.33, 1.333, 1.367, 1.37, 1.373]
    + [1.4, 1.414, 1.423, 1.44, 1.467, 1.5, 1.6, 1.667, 1.7, 1.75, 1.777, 1.78]
    + [1.8, 1.85, 1.9, 2.0, 2.05, 2.1, 2.133, 2.16, 2.17, 2.2, 2.223, 2.25]
    + [2.243, 2.283, 2.3, 2.33, 2.35, 2.37, 2.39, 2.4, 2.5, 2.56, 2.6, 2.667]
    + [2.7, 2.733, 2.76, 2.8, 2.9, 3.0, 3.1, 3.2, 3.3, 3.4, 3.413, 3.5, 3.6]
    + [3.7, 3.8, 3.9, 4.0, 4.1, 4.2, 4.267, 4.3, 4.4, 4.5, 4.6, 4.7, 4.8]
    + [4.9, 5.0, 5.1, 5.2, 5.3, 5.4, 5.5, 5.6, 5.7, 5.8, 5.9, 6.0, 6.1]
    + [6.2, 6.3, 6.4, 6.5, 6.6, 6.7, 6.8, 6.9, 7.0, 7.1, 7.2]

  const DynamicValues: seq<real> :=
    [-0.91629076, -0.6931472, -0.51082563, -0.35667494, -0.22314355, -0.10536052]
    + [0.0, 0.09531018, 0.18232156, 0.22314355, 0.24686007, 0.26236426, 0.26982924]
    + [0.28518318, 0.28728026, 0.31244648, 0.31471074, 0.31694544, 0.33647224]
    + [0.34610766, 0.35271856, 0.36464311, 0.38322207, 0.4054651, 0.47000363]
    + [0.51082563, 0.5306282, 0.5596158, 0.57472223, 0.57660466, 0.58778667]
    + [0.61518564, 0.64185388, 0.6931472, 0.7178398, 0.74193734, 0.75750062]
    + [0.77014756, 0.77473146, 0.78845736, 0.79850769, 0.81093025, 0.80777537]
    + [0.82556623, 0.83290912, 0.84587455, 0.85442304, 0.86289894, 0.87129204]
    + [0.8754687, 0.91629076, 0.94002015, 0.95551145, 0.98082924, 0.99325174]
    + [1.00533091, 1.01520574, 1.02961942, 1.06471074, 1.09861229, 1.13140211]
    + [1.16315081, 1.19392247, 1.22377543, 1.22759724, 1.25276297, 1.28093385]
    + [1.30833282, 1.33500107, 1.36097655, 1.38629436, 1.41099206, 1.43508453]
    + [1.45074999, 1.4586150, 1.48160454, 1.50407739, 1.52605630, 1.54756250]
    + [1.56861592, 1.58923548, 1.60943791, 1.62924054, 1.64865863, 1.66770682]
    + [1.68639895, 1.70474809, 1.72276660, 1.74046617, 1.75785792, 1.77495235]
    + [1.79175947, 1.80828877, 1.82454929, 1.84054963, 1.85629799, 1.87180218]
    + [1.88706965, 1.90210753, 1.91692261, 1.93152141, 1.94591015, 1.96009476]
    + [1.97408103]

  const DynamicTable: LnTable := LnTable(DynamicKeys, DynamicValues)

  /** The dynamic table with the entries for 2.243 and 2.25 in ascending order. */
  const DynamicKeysCorrected: seq<real> :=
    [0.4, 0.5, 0.6, 0.7, 0.8, 0.9]
    + [1.0, 1.1, 1.2, 1.25, 1.28, 1.3, 1.31, 1.33, 1.333, 1.367, 1.37, 1.373]
    + [1.4, 1.414, 1.423, 1.44, 1.467, 1.5, 1.6, 1.667, 1.7, 1.75, 1.777, 1.78]
    + [1.8, 1.85, 1.9, 2.0, 2.05, 2.1, 2.133, 2.16, 2.17, 2.2, 2.223, 2.243]
    + [2.25, 2.283, 2.3, 2.33, 2.35, 2.37, 2.39, 2.4, 2.5, 2.56, 2.6, 2.667]
    + [2.7, 2.733, 2.76, 2.8, 2.9, 3.0, 3.1, 3.2, 3.3, 3.4, 3.413, 3.5, 3.6]
    + [3.7, 3.8, 3.9, 4.0, 4.1, 4.2, 4.267, 4.3, 4.4, 4.5, 4.6, 4.7, 4.8]
    + [4.9, 5.0, 5.1, 5.2, 5.3, 5.4, 5.5, 5.6, 5.7, 5.8, 5.9, 6.0, 6.1]
    + [6.2, 6.3, 6.4, 6.5, 6.6, 6.7, 6.8, 6.9, 7.0, 7.1, 7.2]

  const DynamicValuesCorrected: seq<real> :=
    [-0.91629076, -0.6931472, -0.51082563, -0.35667494, -0.22314355, -0.10536052]
    + [0.0, 0.09531018, 0.18232156, 0.22314355, 0.24686007, 0.26236426, 0.26982924]
    + [0.28518318, 0.28728026, 0.31244648, 0.31471074, 0.31694544, 0.33647224]
    + [0.34610766, 0.35271856, 0.36464311, 0.38322207, 0.4054651, 0.47000363]
    + [0.51082563, 0.5306282, 0.5596158, 0.57472223, 0.57660466, 0.58778667]
    + [0.61518564, 0.64185388, 0.6931472, 0.7178398, 0.74193734, 0.75750062]
    + [0.77014756, 0.77473146, 0.78845736, 0.79850769, 0.80777537, 0.81093025]
    + [0.82556623, 0.83290912, 0.84587455, 0.85442304, 0.86289894, 0.87129204]
    + [0.8754687, 0.91629076, 0.94002015, 0.95551145, 0.98082924, 0.99325174]
    + [1.00533091, 1.01520574, 1.02961942, 1.06471074, 1.09861229, 1.13140211]
    + [1.16315081, 1.19392247, 1.22377543, 1.22759724, 1.25276297, 1.28093385]
    + [1.30833282, 1.33500107, 1.36097655, 1.38629436, 1.41099206, 1.43508453]
    + [1.45074999, 1.4586150, 1.48160454, 1.50407739, 1.52605630, 1.54756250]
    + [1.56861592, 1.58923548, 1.60943791, 1.62924054, 1.64865863, 1.66770682]
    + [1.68639895, 1.70474809, 1.72276660, 1.74046617, 1.75785792, 1.77495235]
    + [1.79175947, 1.80828877, 1.82454929, 1.84054963, 1.85629799, 1.87180218]
    + [1.88706965, 1.90210753, 1.91692261, 1.93152141, 1.94591015, 1.96009476]
    + [1.97408103]

  const DynamicTableCorrected: LnTable := LnTable(DynamicKeysCorrected, DynamicValuesCorrected)

  /** Keys of the games calculator's table. */
  const GamesKeys: seq<real> :=
    [0.4, 0.5, 0.6, 0.7, 0.8, 0.9]
    + [1.0, 1.1, 1.2, 1.25, 1.28, 1.3, 1.33, 1.367, 1.414, 1.5]
    + [1.6, 1.667, 1.7, 1.75, 1.78, 1.8, 1.9, 2.0, 2.1, 2.133]
    + [2.16, 2.2, 2.25, 2.3, 2.33, 2.4, 2.5, 2.6, 2.7, 2.8]
    + [2.9, 3.0, 3.5, 4.0, 4.5, 5.0, 6.0, 7.0, 7.2]

  const GamesValues: seq<real> :=
    [-0.91629076, -0.6931472, -0.51082563, -0.35667494, -0.22314355, -0.10536052]
    + [0.0, 0.09531018, 0.18232156, 0.22314355, 0.24686007, 0.26236426]
    + [0.28728026, 0.31244648, 0.34610766, 0.4054651, 0.47000363, 0.51082563]
    + [0.5306282, 0.5596158, 0.57660466, 0.58778667, 0.64185388, 0.6931472]
    + [0.74193734, 0.75750062, 0.77014756, 0.78845736, 0.81093025, 0.83290912]
    + [0.84587455, 0.8754687, 0.91629076, 0.95551145, 0.99325174, 1.02961942]
    + [1.06471074, 1.09861229, 1.25276297, 1.38629436, 1.50407739, 1.60943791]
    + [1.79175947, 1.94591015, 1.97408103]

  const GamesTable: LnTable := LnTable(GamesKeys, GamesValues)

  /** Keys of the Web calculator's table. */
  const WebKeys: seq<real> :=
    [0.4, 0.5, 0.6, 0.7, 0.8, 0.9, 1.0, 1.1, 1.2, 1.25, 1.28, 1.3, 1.33, 1.333]
    + [1.367, 1.4, 1.414, 1.5, 1.6, 1.667, 1.7, 1.75, 1.777, 1.78, 1.8, 1.85, 1.9]
    + [2.0, 2.05, 2.1, 2.133, 2.16, 2.2, 2.223, 2.25, 2.3, 2.33, 2.4, 2.5, 2.56]
    + [2.6, 2.667, 2.7, 2.8, 2.9, 3.0, 3.2, 3.4, 3.5, 4.0, 4.5, 5.0, 6.0]
    + [7.0, 7.2]

  const WebValues: seq<real> :=
    [-0.91629076, -0.6931472, -0.51082563, -0.35667494, -0.22314355]
    + [-0.10536052, 0.0, 0.09531018, 0.18232156, 0.22314355, 0.24686007]
    + [0.26236426, 0.28518318, 0.28728026, 0.31244648, 0.33647224]
    + [0.34610766, 0.4054651, 0.47000363, 0.51082563, 0.5306282]
    + [0.5596158, 0.57472223, 0.57660466, 0.58778667, 0.61518564]
    + [0.64185388, 0.6931472, 0.7178398, 0.74193734, 0.75750062]
    + [0.77014756, 0.78845736, 0.79850769, 0.81093025, 0.83290912]
    + [0.84587455, 0.8754687, 0.91629076, 0.94002015, 0.95551145]
    + [0.98082924, 0.99325174, 1.02961942, 1.06471074, 1.09861229]
    + [1.16315081, 1.22377543, 1.25276297, 1.38629436, 1.50407739]
    + [1.60943791, 1.79175947, 1.94591015, 1.97408103]

  const WebTable: LnTable := LnTable(WebKeys, WebValues)

  lemma GamesTableAscending()
    ensures WellFormed(GamesTable) && Ascending(GamesKeys)
  {
    GamesSortedFrom22();
    assert SortedFrom(GamesKeys, 20);
    assert SortedFrom(GamesKeys, 18); assert SortedFrom(GamesKeys, 16); assert SortedFrom(GamesKeys, 14); assert SortedFrom(GamesKeys, 12);
    assert SortedFrom(GamesKeys, 10); assert SortedFrom(GamesKeys, 8); assert SortedFrom(GamesKeys, 6); assert SortedFrom(GamesKeys, 4);
    assert SortedFrom(GamesKeys, 2); assert SortedFrom(GamesKeys, 0);
    SortedFromAscending(GamesKeys, 0);
  }

  lemma GamesSortedFrom22()
    ensures SortedFrom(GamesKeys, 22)
  {
    assert SortedFrom(GamesKeys, 42); assert SortedFrom(GamesKeys, 40); assert SortedFrom(GamesKeys, 38); assert SortedFrom(GamesKeys, 36);
    assert SortedFrom(GamesKeys, 34); assert SortedFrom(GamesKeys, 32); assert SortedFrom(GamesKeys, 30); assert SortedFrom(GamesKeys, 28);
    assert SortedFrom(GamesKeys, 26); assert SortedFrom(GamesKeys, 24); assert SortedFrom(GamesKeys, 22);
  }

  lemma WebTableAscending()
    ensures WellFormed(WebTable) && Ascending(WebKeys)
  {
    WebSortedFrom26();
    assert SortedFrom(WebKeys, 24); assert SortedFrom(WebKeys, 22);
    assert SortedFrom(WebKeys, 20); assert SortedFrom(WebKeys, 18); assert SortedFrom(WebKeys, 16); assert SortedFrom(WebKeys, 14);
    assert SortedFrom(WebKeys, 12); assert SortedFrom(WebKeys, 10); assert SortedFrom(WebKeys, 8); assert SortedFrom(WebKeys, 6);
    assert SortedFrom(WebKeys, 4); assert SortedFrom(WebKeys, 2); assert SortedFrom(WebKeys, 0);
    SortedFromAscending(WebKeys, 0);
  }

  lemma WebSortedFrom26()
    ensures SortedFrom(WebKeys, 26)
  {
    assert SortedFrom(WebKeys, 52); assert SortedFrom(WebKeys, 50); assert SortedFrom(WebKeys, 48); assert SortedFrom(WebKeys, 46);
    assert SortedFrom(WebKeys, 44); assert SortedFrom(WebKeys, 42); assert SortedFrom(WebKeys, 40); assert SortedFrom(WebKeys, 38);
    assert SortedFrom(WebKeys, 36); assert SortedFrom(WebKeys, 34); assert SortedFrom(WebKeys, 32); assert SortedFrom(WebKeys, 30);
    assert SortedFrom(WebKeys, 28); assert SortedFrom(WebKeys, 26);
  }

  lemma DynamicTableCorrectedAscending()
    ensures WellFormed(DynamicTableCorrected) && Ascending(DynamicKeysCorrected)
  {
    DynamicCorrectedSortedFrom0();
    SortedFromAscending(DynamicKeysCorrected, 0);
  }

  lemma DynamicCorrectedSortedFrom0()
    ensures SortedFrom(DynamicKeysCorrected, 0)
  {
    DynamicCorrectedSortedFrom26();
    assert SortedFrom(DynamicKeysCorrected, 24); assert SortedFrom(DynamicKeysCorrected, 22); assert SortedFrom(DynamicKeysCorrected, 20); assert SortedFrom(DynamicKeysCorrected, 18);
    assert SortedFrom(DynamicKeysCorrected, 16); assert SortedFrom(DynamicKeysCorrected, 14); assert SortedFrom(DynamicKeysCorrected, 12); assert SortedFrom(DynamicKeysCorrected, 10);
    assert SortedFrom(DynamicKeysCorrected, 8); assert SortedFrom(DynamicKeysCorrected, 6); assert SortedFrom(DynamicKeysCorrected, 4); assert SortedFrom(DynamicKeysCorrected, 2);
    assert SortedFrom(DynamicKeysCorrected, 0);
  }

  lemma DynamicCorrectedSortedFrom26()
    ensures SortedFrom(DynamicKeysCorrected, 26)
  {
    DynamicCorrectedSortedFrom52();
    assert SortedFrom(DynamicKeysCorrected, 50); assert SortedFrom(DynamicKeysCorrected, 48); assert SortedFrom(DynamicKeysCorrected, 46); assert SortedFrom(DynamicKeysCorrected, 44);
    assert SortedFrom(DynamicKeysCorrected, 42); assert SortedFrom(DynamicKeysCorrected, 40); assert SortedFrom(DynamicKeysCorrected, 38); assert SortedFrom(DynamicKeysCorrected, 36);
    assert SortedFrom(DynamicKeysCorrected, 34); assert SortedFrom(DynamicKeysCorrected, 32); assert SortedFrom(DynamicKeysCorrected, 30); assert SortedFrom(DynamicKeysCorrected, 28);
    assert SortedFrom(DynamicKeysCorrected, 26);
  }

  lemma DynamicCorrectedSortedFrom52()
    ensures SortedFrom(DynamicKeysCorrected, 52)
  {
    DynamicCorrectedSortedFrom78();
    assert SortedFrom(DynamicKeysCorrected, 76); assert SortedFrom(DynamicKeysCorrected, 74); assert SortedFrom(DynamicKeysCorrected, 72); assert SortedFrom(DynamicKeysCorrected, 70);
    assert SortedFrom(DynamicKeysCorrected, 68); assert SortedFrom(DynamicKeysCorrected, 66); assert SortedFrom(DynamicKeysCorrected, 64); assert SortedFrom(DynamicKeysCorrected, 62);
    assert SortedFrom(DynamicKeysCorrected, 60); assert SortedFrom(DynamicKeysCorrected, 58); assert SortedFrom(DynamicKeysCorrected, 56); assert SortedFrom(DynamicKeysCorrected, 54);
    assert SortedFrom(DynamicKeysCorrected, 52);
  }

  lemma DynamicCorrectedSortedFrom78()
    ensures SortedFrom(DynamicKeysCorrected, 78)
  {
    assert SortedFrom(DynamicKeysCorrected, 102); assert SortedFrom(DynamicKeysCorrected, 100); assert SortedFrom(DynamicKeysCorrected, 98); assert SortedFrom(DynamicKeysCorrected, 96);
    assert SortedFrom(DynamicKeysCorrected, 94); assert SortedFrom(DynamicKeysCorrected, 92); assert SortedFrom(DynamicKeysCorrected, 90); assert SortedFrom(DynamicKeysCorrected, 88);
    assert SortedFrom(DynamicKeysCorrected, 86); assert SortedFrom(DynamicKeysCorrected, 84); assert SortedFrom(DynamicKeysCorrected, 82); assert SortedFrom(DynamicKeysCorrected, 80);
    assert SortedFrom(DynamicKeysCorrected, 78);
  }

  /** The dynamic table as written is not ascending: 2.25 is listed before 2.243. */
  lemma DynamicTableNotAscending()
    ensures WellFormed(DynamicTable)
    ensures DynamicKeys[41] == 2.25 && DynamicKeys[42] == 2.243
    ensures !Ascending(DynamicKeys)
  {
  }

  /**
   * Because of that, looking up 2.24 misses although the key 2.243 lies
   * 0.003 away: the search narrows to the window between 2.223 and 2.25 and
   * never probes 2.243.  The corrected table finds it.
   */
  lemma DynamicLookupMisses()
    ensures Abs(2.24 - DynamicKeys[42]) <= Tolerance
    ensures LookupIndex(DynamicKeys, 2.24) == None
    ensures LookupIndex(DynamicKeysCorrected, 2.24).Some?
  {
    DynamicLookupMissesAsWritten();
    DynamicTableCorrectedAscending();
    DynamicCorrectedKey();
    FindsNearbyKey(DynamicKeysCorrected, 2.24, 41);
  }

  /** In the corrected table 2.243 sits at position 41. */
  lemma DynamicCorrectedKey()
    ensures |DynamicKeysCorrected| == 104 && DynamicKeysCorrected[41] == 2.243
  {
  }

  /** On an ascending table, a key within tolerance is always found. */
  lemma FindsNearbyKey(keys: seq<real>, v: real, i: int)
    requires Ascending(keys) && 0 <= i < |keys| && Abs(v - keys[i]) <= Tolerance
    ensures LookupIndex(keys, v).Some?
  {
    LookupComplete(keys, v);
  }

  lemma DynamicLookupMissesAsWritten()
    ensures Abs(2.24 - DynamicKeys[42]) <= Tolerance
    ensures LookupIndex(DynamicKeys, 2.24) == None
  {
    DynamicKeysProbed();
    SearchFor224Misses(DynamicKeys);
  }

  /** The keys the search for 2.24 visits in the table as written, and the misplaced 2.243. */
  lemma DynamicKeysProbed()
    ensures |DynamicKeys| == 104
    ensures DynamicKeys[51] == 2.56 && DynamicKeys[25] == 1.667
    ensures DynamicKeys[38] == 2.17 && DynamicKeys[44] == 2.3
    ensures DynamicKeys[39] == 2.2 && DynamicKeys[40] == 2.223
    ensures DynamicKeys[41] == 2.25 && DynamicKeys[42] == 2.243
  {
  }

  /** One step of the search when the probed key is below the value: the window moves up. */
  lemma SearchMovesUp(keys: seq<real>, v: real, low: int, high: int)
    requires 0 <= low <= high < |keys|
    requires Abs(v - keys[(low + high) / 2]) > Tolerance && keys[(low + high) / 2] < v
    ensures Search(keys, v, low, high) == Search(keys, v, (low + high) / 2 + 1, high)
  {
  }

  /** One step of the search when the probed key is above the value: the window moves down. */
  lemma SearchMovesDown(keys: seq<real>, v: real, low: int, high: int)
    requires 0 <= low <= high < |keys|
    requires Abs(v - keys[(low + high) / 2]) > Tolerance && keys[(low + high) / 2] > v
    ensures Search(keys, v, low, high) == Search(keys, v, low, (low + high) / 2 - 1)
  {
  }

  /**
   * Any 104 keys that agree with the dynamic table at the probed positions
   * send the search for 2.24 through 2.56, 1.667, 2.17, 2.3, 2.25, 2.2 and
   * 2.223 to an empty window between positions 40 and 41, with the key
   * 2.243 at position 42 never probed.
   */
  lemma SearchFor224Misses(k: seq<real>)
    requires |k| == 104
    requires k[51] == 2.56 && k[25] == 1.667 && k[38] == 2.17 && k[44] == 2.3
    requires k[39] == 2.2 && k[40] == 2.223 && k[41] == 2.25
    ensures Search(k, 2.24, 0, |k| - 1) == Miss(41, 40)
    ensures LookupIndex(k, 2.24) == None
  {
    SearchMovesDown(k, 2.24, 0, 103);
    SearchMovesUp(k, 2.24, 0, 50);
    SearchMovesUp(k, 2.24, 26, 50);
    SearchMovesDown(k, 2.24, 39, 50);
    SearchMovesDown(k, 2.24, 39, 43);
    SearchMovesUp(k, 2.24, 39, 40);
    SearchMovesUp(k, 2.24, 40, 40);
  }

  /**
   * Every table stores ln(1) = 0 for the key 1.0, so any value within
   * tolerance of 1 (such as 1.78 times the rounded reciprocal of 1.78) has
   * logarithm exactly 0: on the sorted tables because they are sorted, and on
   * the dynamic table as written because the search for such a value never
   * reaches the misordered pair.
   */
  lemma FastLnNearOne(m: MathLib, v: real)
    requires Abs(v - 1.0) <= Tolerance
    ensures FastLn(GamesTable, m, v) == 0.0
    ensures FastLn(WebTable, m, v) == 0.0
    ensures FastLn(DynamicTable, m, v) == 0.0
  {
    GamesLookupNearOne(v);
    WebLookupNearOne(v);
    DynamicLookupNearOne(v);
  }

  lemma GamesLookupNearOne(v: real)
    requires Abs(v - 1.0) <= Tolerance
    ensures WellFormed(GamesTable) && Lookup(GamesTable, v) == Some(0.0)
  {
    GamesTableAscending();
    assert GamesKeys[5] == 0.9 && GamesKeys[6] == 1.0 && GamesKeys[7] == 1.1;
    assert GamesValues[6] == 0.0;
    LookupBracketed(GamesTable, 6, v);
  }

  lemma WebLookupNearOne(v: real)
    requires Abs(v - 1.0) <= Tolerance
    ensures WellFormed(WebTable) && Lookup(WebTable, v) == Some(0.0)
  {
    WebTableAscending();
    assert WebKeys[5] == 0.9 && WebKeys[6] == 1.0 && WebKeys[7] == 1.1;
    assert WebValues[6] == 0.0;
    LookupBracketed(WebTable, 6, v);
  }

  lemma DynamicLookupNearOne(v: real)
    requires Abs(v - 1.0) <= Tolerance
    ensures WellFormed(DynamicTable) && Lookup(DynamicTable, v) == Some(0.0)
  {
    DynamicKeysNearOne();
    SearchNearOneHits(DynamicKeys, v);
  }

  /** The keys the search for a value near 1 visits in the dynamic table as written, and the stored ln(1). */
  lemma DynamicKeysNearOne()
    ensures WellFormed(DynamicTable) && |DynamicKeys| == 104
    ensures DynamicKeys[51] == 2.56 && DynamicKeys[25] == 1.667 && DynamicKeys[12] == 1.31
    ensures DynamicKeys[5] == 0.9 && DynamicKeys[8] == 1.2 && DynamicKeys[6] == 1.0
    ensures DynamicValues[6] == 0.0
  {
  }

  /**
   * Any 104 keys that agree with the dynamic table at the probed positions
   * send the search for a value within tolerance of 1 through 2.56, 1.667,
   * 1.31, 0.9 and 1.2 to the key 1.0 at position 6, all before position 41
   * where the table leaves ascending order.
   */
  lemma SearchNearOneHits(k: seq<real>, v: real)
    requires Abs(v - 1.0) <= Tolerance && |k| == 104
    requires k[51] == 2.56 && k[25] == 1.667 && k[12] == 1.31
    requires k[5] == 0.9 && k[8] == 1.2 && k[6] == 1.0
    ensures Search(k, v, 0, |k| - 1) == Hit(6)
  {
    SearchMovesDown(k, v, 0, 103);
    SearchMovesDown(k, v, 0, 50);
    SearchMovesDown(k, v, 0, 24);
    SearchMovesUp(k, v, 0, 11);
    SearchMovesDown(k, v, 6, 11);
  }

  /**
   * `fastLn` over a table, as the function value the calculators' strategies
   * take: they see the logarithm only through it.
   */
  function FastLnOf(t: LnTable, m: MathLib): real -> real
    requires WellFormed(t)
  {
    (v: real) => FastLn(t, m, v)
  }

  /**
   * A logarithm that is exactly 0 within tolerance of 1: what the strategies
   * need to return the base value at the reference size.
   */
  ghost predicate VanishesNearOne(ln: real -> real)
  {
    forall v :: Abs(v - 1.0) <= Tolerance ==> ln(v) == 0.0
  }

  lemma CalculatorTablesZeroNearOne(m: MathLib)
    ensures WellFormed(GamesTable) && VanishesNearOne(FastLnOf(GamesTable, m))
    ensures WellFormed(WebTable) && VanishesNearOne(FastLnOf(WebTable, m))
    ensures WellFormed(DynamicTable) && VanishesNearOne(FastLnOf(DynamicTable, m))
  {
    GamesLookupNearOne(1.0);
    WebLookupNearOne(1.0);
    DynamicLookupNearOne(1.0);
    forall v | Abs(v - 1.0) <= Tolerance
      ensures FastLnOf(GamesTable, m)(v) == 0.0
      ensures FastLnOf(WebTable, m)(v) == 0.0
      ensures FastLnOf(DynamicTable, m)(v) == 0.0
    {
      FastLnNearOne(m, v);
    }
  }
}
