/**
 * The games module's direct-mapped result cache (`GameCacheFast`): 1024
 * slots indexed by the low ten bits of a 32-bit FNV-style hash, a hit only
 * when the stored hash matches exactly, overwrite on a miss, clearing,
 * age-based pruning and statistics.
 *
 * The cache is modelled sequentially: the atomic array is an `array`, the
 * computation a miss would run is the value it produces (`computed`), and
 * the clock is a parameter (`now`, in milliseconds).  The specification
 * functions work on the slot contents as a sequence; each method is proved
 * against them.
 */
module GameCache {
  import opened Numerics
  import Extensions

  /** `FAST_CACHE_SIZE` and `FAST_CACHE_MASK`. */
  const FastCacheSize: int := 1024
  const FastCacheMask: bv32 := 1023

  /** `DEFAULT_MAX_AGE_MS`: thirty minutes. */
  const DefaultMaxAgeMs: int := 30 * 60 * 1000

  // ------------------------------------------------------------------
  // Hashing
  // ------------------------------------------------------------------

  const FnvOffsetBasis: bv32 := 0x811c9dc5

  /** The bits of a 32-bit signed integer (two's complement). */
  function Int32Bits(n: int): (r: bv32)
    requires Int32Min <= n <= Int32Max
  {
    if n >= 0 then n as bv32 else (n + 0x1_0000_0000) as bv32
  }

  /**
   * One round of the fold: exclusive-or the word in, multiply by the FNV
   * prime 0x01000193 (wrapping).  A word equal to the running hash resets
   * it to 0, and, the prime being odd, the low bit of a round is the low bit
   * of the exclusive-or.
   */
  function FnvStep(h: bv32, x: bv32): (r: bv32)
    ensures x == h ==> r == 0
    ensures r & 1 == (h ^ x) & 1
  {
    (h ^ x) * 0x01000193
  }

  /** The fold itself: the words mixed in one after the other, starting from `h`; the last word is the last round. */
  function FoldHash(h: bv32, words: seq<bv32>): (r: bv32)
    ensures |words| > 0 ==> r == FnvStep(FoldHash(h, words[..|words| - 1]), words[|words| - 1])
    decreases |words|
  {
    if |words| == 0 then h
    else
      assert |words| > 1 ==> words[..|words| - 1][1..] == words[1..][..|words| - 2];
      FoldHash(FnvStep(h, words[0]), words[1..])
  }

  /** Folding two word lists one after the other is folding their concatenation. */
  lemma {:induction false} FoldHashAppend(h: bv32, a: seq<bv32>, b: seq<bv32>)
    ensures FoldHash(FoldHash(h, a), b) == FoldHash(h, a + b)
    decreases |a|
  {
    if |a| > 0 {
      assert (a + b)[0] == a[0];
      assert (a + b)[1..] == a[1..] + b;
      FoldHashAppend(FnvStep(h, a[0]), a[1..], b);
    } else {
      assert a + b == b;
    }
  }

  /**
   * `computeHash`: folds the raw bits of the base value, the truncated
   * width, height and smallest width, and the strategy ordinal, which is the
   * last round.
   */
  function ComputeHash(baseBits: bv32, screenWidthDp: real, screenHeightDp: real, smallestWidthDp: real,
                       strategyOrdinal: int): (r: bv32)
    requires Int32Min <= strategyOrdinal <= Int32Max
    ensures r == FnvStep(FoldHash(FnvOffsetBasis, [baseBits, Int32Bits(FloatToInt(screenWidthDp)),
      Int32Bits(FloatToInt(screenHeightDp)), Int32Bits(FloatToInt(smallestWidthDp))]), Int32Bits(strategyOrdinal))
  {
    var words := [baseBits, Int32Bits(FloatToInt(screenWidthDp)), Int32Bits(FloatToInt(screenHeightDp)),
                  Int32Bits(FloatToInt(smallestWidthDp)), Int32Bits(strategyOrdinal)];
    assert words[..4] == [baseBits, Int32Bits(FloatToInt(screenWidthDp)), Int32Bits(FloatToInt(screenHeightDp)),
                          Int32Bits(FloatToInt(smallestWidthDp))];
    FoldHash(FnvOffsetBasis, words)
  }

  /** `computeGameHash`: `computeHash` with the element-type ordinal folded in as the last round. */
  function ComputeGameHash(baseBits: bv32, screenWidthDp: real, screenHeightDp: real, smallestWidthDp: real,
                           strategyOrdinal: int, elementTypeOrdinal: int): (r: bv32)
    requires Int32Min <= strategyOrdinal <= Int32Max && Int32Min <= elementTypeOrdinal <= Int32Max
    ensures r == FnvStep(ComputeHash(baseBits, screenWidthDp, screenHeightDp, smallestWidthDp, strategyOrdinal),
                         Int32Bits(elementTypeOrdinal))
  {
    FoldHash(ComputeHash(baseBits, screenWidthDp, screenHeightDp, smallestWidthDp, strategyOrdinal),
             [Int32Bits(elementTypeOrdinal)])
  }

  /** The game hash is one fold over the six words, the element ordinal last. */
  lemma GameHashFoldsSixWords(baseBits: bv32, screenWidthDp: real, screenHeightDp: real, smallestWidthDp: real,
                              strategyOrdinal: int, elementTypeOrdinal: int)
    requires Int32Min <= strategyOrdinal <= Int32Max && Int32Min <= elementTypeOrdinal <= Int32Max
    ensures ComputeGameHash(baseBits, screenWidthDp, screenHeightDp, smallestWidthDp, strategyOrdinal, elementTypeOrdinal) ==
      FoldHash(FnvOffsetBasis, [baseBits, Int32Bits(FloatToInt(screenWidthDp)), Int32Bits(FloatToInt(screenHeightDp)),
                                Int32Bits(FloatToInt(smallestWidthDp)), Int32Bits(strategyOrdinal), Int32Bits(elementTypeOrdinal)])
  {
    var five := [baseBits, Int32Bits(FloatToInt(screenWidthDp)), Int32Bits(FloatToInt(screenHeightDp)),
                 Int32Bits(FloatToInt(smallestWidthDp)), Int32Bits(strategyOrdinal)];
    var six := five + [Int32Bits(elementTypeOrdinal)];
    assert six[..5] == five;
    assert six == [baseBits, Int32Bits(FloatToInt(screenWidthDp)), Int32Bits(FloatToInt(screenHeightDp)),
                   Int32Bits(FloatToInt(smallestWidthDp)), Int32Bits(strategyOrdinal), Int32Bits(elementTypeOrdinal)];
  }

  /** The screens that agree on the truncated width, height and smallest width share a game hash. */
  lemma GameHashSeesWholeDp(baseBits: bv32, w1: real, h1: real, sw1: real, w2: real, h2: real, sw2: real,
                            strategyOrdinal: int, elementTypeOrdinal: int)
    requires Int32Min <= strategyOrdinal <= Int32Max && Int32Min <= elementTypeOrdinal <= Int32Max
    requires FloatToInt(w1) == FloatToInt(w2) && FloatToInt(h1) == FloatToInt(h2) && FloatToInt(sw1) == FloatToInt(sw2)
    ensures ComputeGameHash(baseBits, w1, h1, sw1, strategyOrdinal, elementTypeOrdinal) ==
            ComputeGameHash(baseBits, w2, h2, sw2, strategyOrdinal, elementTypeOrdinal)
  {
  }

  // ------------------------------------------------------------------
  // Slots
  // ------------------------------------------------------------------

  /**
   * `FastEntry`: the key the entry was stored under, the cached value, its
   * write time and its hit counter.  The source's key is the 32-bit hash
   * itself (`K` = `bv32`); a cache keyed by the whole request uses the
   * request as `K` and the hash only to pick the slot.
   */
  datatype FastEntry<K> = FastEntry(key: K, value: real, timestamp: int, hitCount: int)

  type Slots<K> = seq<Option<FastEntry<K>>>

  /** `hash and FAST_CACHE_MASK`: the low ten bits of the hash. */
  function SlotIndex(hash: bv32): (i: int)
    ensures 0 <= i < FastCacheSize
  {
    ((hash & FastCacheMask) as bv10) as int
  }

  /** A lookup hits when the slot the hash selects holds an entry with exactly this key. */
  predicate Hits<K(==)>(s: Slots<K>, hash: bv32, key: K)
    requires |s| == FastCacheSize
  {
    var e := s[SlotIndex(hash)];
    e.Some? && e.value.key == key
  }

  /** The slots after a `rememberFast` call and the value it returns. */
  datatype Remembered<K> = Remembered(slots: Slots<K>, value: real)

  /**
   * `rememberFast`: on a hit, the stored value, with the entry's hit counter
   * incremented (32-bit); on a miss, the computed value, stored with the
   * current time and no hits in the slot the hash selects.
   */
  function Remember<K(==)>(s: Slots<K>, hash: bv32, key: K, computed: real, now: int): (r: Remembered<K>)
    requires |s| == FastCacheSize
    ensures |r.slots| == FastCacheSize
    ensures forall j :: 0 <= j < FastCacheSize && j != SlotIndex(hash) ==> r.slots[j] == s[j]
    ensures Hits(s, hash, key) ==> r.value == s[SlotIndex(hash)].value.value
    ensures !Hits(s, hash, key) ==> r.value == computed
    ensures r.slots[SlotIndex(hash)].Some?
    ensures r.slots[SlotIndex(hash)].value.key == key && r.slots[SlotIndex(hash)].value.value == r.value
  {
    var index := SlotIndex(hash);
    var entry := s[index];
    if entry.Some? && entry.value.key == key then
      var e := entry.value;
      Remembered(s[index := Some(e.(hitCount := WrapInt32(e.hitCount + 1)))], e.value)
    else
      Remembered(s[index := Some(FastEntry(key, computed, now, 0))], computed)
  }

  /** A value stored under a key is returned by the next call with that key, whatever it would compute. */
  lemma RememberThenHit<K>(s: Slots<K>, hash: bv32, key: K, computed: real, now: int, computed2: real, now2: int)
    requires |s| == FastCacheSize
    ensures var r1 := Remember(s, hash, key, computed, now);
      Hits(r1.slots, hash, key) && Remember(r1.slots, hash, key, computed2, now2).value == r1.value
  {
  }

  /** A call whose hash selects another slot leaves this slot, and so its hits, as they were. */
  lemma OtherSlotKeepsHit<K>(s: Slots<K>, hash: bv32, key: K, otherHash: bv32, otherKey: K, computed: real, now: int)
    requires |s| == FastCacheSize
    requires SlotIndex(otherHash) != SlotIndex(hash)
    ensures Remember(s, otherHash, otherKey, computed, now).slots[SlotIndex(hash)] == s[SlotIndex(hash)]
    ensures Hits(Remember(s, otherHash, otherKey, computed, now).slots, hash, key) == Hits(s, hash, key)
  {
  }

  /** An occupant stored under a different key never answers: the call computes and takes over the slot. */
  lemma MismatchNeverHits<K>(s: Slots<K>, hash: bv32, key: K, computed: real, now: int)
    requires |s| == FastCacheSize
    requires s[SlotIndex(hash)].Some? && s[SlotIndex(hash)].value.key != key
    ensures Remember(s, hash, key, computed, now) ==
      Remembered(s[SlotIndex(hash) := Some(FastEntry(key, computed, now, 0))], computed)
  {
  }

  /** Every occupied slot holds the value `f` gives for its key. */
  ghost predicate Consistent<K>(s: Slots<K>, f: K --> real)
  {
    forall i :: 0 <= i < |s| && s[i].Some? ==> f.requires(s[i].value.key) && s[i].value.value == f(s[i].value.key)
  }

  /**
   * When the table is consistent with `f` and a miss computes `f(key)`, the
   * call returns exactly `f(key)` and the table stays consistent: a cache
   * that compares whole keys is invisible to its callers.
   */
  lemma RememberIsTransparent<K>(s: Slots<K>, f: K --> real, hash: bv32, key: K, now: int)
    requires |s| == FastCacheSize && Consistent(s, f) && f.requires(key)
    ensures Remember(s, hash, key, f(key), now).value == f(key)
    ensures Consistent(Remember(s, hash, key, f(key), now).slots, f)
  {
    var r := Remember(s, hash, key, f(key), now);
    forall i | 0 <= i < |r.slots| && r.slots[i].Some?
      ensures f.requires(r.slots[i].value.key) && r.slots[i].value.value == f(r.slots[i].value.key)
    {
      if i != SlotIndex(hash) {
        assert r.slots[i] == s[i];
      }
    }
  }

  /** An entry is stale when it is older than the maximum age. */
  predicate Stale<K>(e: Option<FastEntry<K>>, now: int, maxAgeMs: int)
  {
    e.Some? && now - e.value.timestamp > maxAgeMs
  }

  /** One slot after pruning. */
  function PruneSlot<K>(e: Option<FastEntry<K>>, now: int, maxAgeMs: int): Option<FastEntry<K>>
  {
    if Stale(e, now, maxAgeMs) then None else e
  }

  /** The slots after `pruneOldEntries`: stale entries emptied, everything else kept. */
  function Pruned<K>(s: Slots<K>, now: int, maxAgeMs: int): (r: Slots<K>)
    ensures |r| == |s|
    ensures forall i :: 0 <= i < |s| ==> r[i] == PruneSlot(s[i], now, maxAgeMs)
  {
    if |s| == 0 then [] else Pruned(s[..|s| - 1], now, maxAgeMs) + [PruneSlot(s[|s| - 1], now, maxAgeMs)]
  }

  /** The number of stale entries. */
  function CountStale<K>(s: Slots<K>, now: int, maxAgeMs: int): (n: nat)
    ensures n <= |s|
  {
    if |s| == 0 then 0
    else CountStale(s[..|s| - 1], now, maxAgeMs) + (if Stale(s[|s| - 1], now, maxAgeMs) then 1 else 0)
  }

  /** The number of occupied slots. */
  function CountOccupied<K>(s: Slots<K>): (n: nat)
    ensures n <= |s|
  {
    if |s| == 0 then 0
    else CountOccupied(s[..|s| - 1]) + (if s[|s| - 1].Some? then 1 else 0)
  }

  /** The sum of the hit counters of the occupied slots. */
  function SumHits<K>(s: Slots<K>): int
  {
    if |s| == 0 then 0
    else SumHits(s[..|s| - 1]) + (if s[|s| - 1].Some? then s[|s| - 1].value.hitCount else 0)
  }

  /** The age of the oldest entry, and 0 when there is none older than that. */
  function OldestAge<K>(s: Slots<K>, now: int): (a: int)
    ensures a >= 0
    ensures forall i :: 0 <= i < |s| && s[i].Some? ==> now - s[i].value.timestamp <= a
    ensures a == 0 || exists i :: 0 <= i < |s| && s[i].Some? && a == now - s[i].value.timestamp
  {
    if |s| == 0 then 0
    else
      var previous := OldestAge(s[..|s| - 1], now);
      var last := s[|s| - 1];
      if last.Some? && now - last.value.timestamp > previous then now - last.value.timestamp else previous
  }

  /** After pruning no entry is stale, and every entry kept is one that was there. */
  lemma PrunedIsFresh<K>(s: Slots<K>, now: int, maxAgeMs: int)
    ensures forall i :: 0 <= i < |s| ==> !Stale(Pruned(s, now, maxAgeMs)[i], now, maxAgeMs)
    ensures forall i :: 0 <= i < |s| && Pruned(s, now, maxAgeMs)[i].Some? ==> Pruned(s, now, maxAgeMs)[i] == s[i]
  {
  }

  /** Every occupied slot is either pruned (and counted) or still occupied afterwards. */
  lemma {:induction false} PruneAccounting<K>(s: Slots<K>, now: int, maxAgeMs: int)
    ensures CountOccupied(s) == CountStale(s, now, maxAgeMs) + CountOccupied(Pruned(s, now, maxAgeMs))
  {
    if |s| > 0 {
      var init := s[..|s| - 1];
      PruneAccounting(init, now, maxAgeMs);
      var p := Pruned(s, now, maxAgeMs);
      assert p[..|s| - 1] == Pruned(init, now, maxAgeMs);
    }
  }

  /** A table with every slot empty. */
  predicate AllEmpty<K>(s: Slots<K>)
  {
    forall i :: 0 <= i < |s| ==> s[i].None?
  }

  /** An empty table holds no entries and hits for no hash. */
  lemma {:induction false} EmptyHasNoEntries<K>(s: Slots<K>)
    requires AllEmpty(s)
    ensures CountOccupied(s) == 0
    ensures |s| == FastCacheSize ==> forall hash, key :: !Hits(s, hash, key)
  {
    if |s| > 0 {
      EmptyHasNoEntries(s[..|s| - 1]);
    }
  }

  /** `FastCacheStats`. */
  datatype FastCacheStats = FastCacheStats(
    totalEntries: int,
    totalHits: int,
    hitRate: real,
    oldestEntryAgeMs: int,
    capacity: int)

  /** `isPerformingWell`: a hit rate of at least 70%. */
  predicate IsPerformingWell(st: FastCacheStats)
  {
    st.hitRate >= 0.7
  }

  /**
   * The statistics of a table perform well exactly when the hits reach 70%
   * of the entries (of one entry when there are none).
   */
  lemma PerformingWellOf<K>(s: Slots<K>, now: int)
    ensures IsPerformingWell(StatsOf(s, now)) <==>
      10 * SumHits(s) >= 7 * (if CountOccupied(s) > 1 then CountOccupied(s) else 1)
  {
    var entries := if CountOccupied(s) > 1 then CountOccupied(s) else 1;
    var hits := SumHits(s);
    assert StatsOf(s, now).hitRate == if hits > 0 then hits as real / entries as real else 0.0;
    RateAtLeastSeventyPercent(hits, entries);
  }

  /** A hit rate `hits / entries` (0 without hits) reaches 0.7 exactly when ten hits reach seven entries. */
  lemma RateAtLeastSeventyPercent(hits: int, entries: int)
    requires entries >= 1
    ensures (if hits > 0 then hits as real / entries as real else 0.0) >= 0.7 <==> 10 * hits >= 7 * entries
  {
    if hits > 0 {
      var e := entries as real;
      var rate := hits as real / e;
      assert rate * e == hits as real;
      assert (rate - 0.7) * e == hits as real - 0.7 * e;
      if rate >= 0.7 {
        Extensions.MulNonNeg(rate - 0.7, e);
      } else {
        Extensions.MulNonNeg(0.7 - rate, e);
        assert (0.7 - rate) * e != 0.0;
      }
    }
  }

  /** `isNearlyFull`: at least 80% of the capacity in use. */
  function IsNearlyFull(st: FastCacheStats): (b: bool)
    requires st.capacity > 0
    ensures b <==> 5 * st.totalEntries >= 4 * st.capacity
  {
    var fill := st.totalEntries as real / st.capacity as real;
    assert fill * st.capacity as real == st.totalEntries as real;
    fill >= 0.8
  }

  /** The statistics of a table at a given time. */
  function StatsOf<K>(s: Slots<K>, now: int): (st: FastCacheStats)
    ensures st.capacity == FastCacheSize
    ensures 0 <= st.totalEntries <= |s|
  {
    var entries := CountOccupied(s);
    var hits := SumHits(s);
    FastCacheStats(entries, hits,
      if hits > 0 then hits as real / (if entries > 1 then entries else 1) as real else 0.0,
      OldestAge(s, now), FastCacheSize)
  }

  /** An Android configuration, reduced to the fields the invalidation compares. */
  datatype Configuration = Configuration(densityDpi: int, screenWidthDp: int, screenHeightDp: int, orientation: int)

  /**
   * `invalidateOnConfigurationChange` clears when there is no previous
   * configuration, or when the density or a side changed; a rotation alone
   * keeps the cache.
   */
  function InvalidatesCache(previous: Option<Configuration>, current: Configuration): (b: bool)
    ensures previous.None? ==> b
    ensures previous == Some(current) ==> !b
  {
    || previous.None?
    || previous.value.densityDpi != current.densityDpi
    || previous.value.screenWidthDp != current.screenWidthDp
    || previous.value.screenHeightDp != current.screenHeightDp
  }

  /** A change of orientation alone never clears the cache. */
  lemma RotationKeepsCache(previous: Configuration, current: Configuration)
    requires previous.densityDpi == current.densityDpi
    requires previous.screenWidthDp == current.screenWidthDp && previous.screenHeightDp == current.screenHeightDp
    ensures !InvalidatesCache(Some(previous), current)
  {
  }

  /** The cache object: its slot array and the configurable maximum age. */
  class GameCacheFast<K(==)> {
    const slots: array<Option<FastEntry<K>>>
    var maxEntryAgeMs: int

    ghost predicate Valid()
    {
      slots.Length == FastCacheSize
    }

    constructor()
      ensures Valid() && fresh(slots)
      ensures AllEmpty(slots[..])
      ensures maxEntryAgeMs == DefaultMaxAgeMs
    {
      slots := new Option<FastEntry<K>>[FastCacheSize](_ => None);
      maxEntryAgeMs := DefaultMaxAgeMs;
    }

    /** `rememberFast`: the slot array becomes the specification's slots and the call returns its value. */
    method RememberFast(hash: bv32, key: K, computed: real, now: int) returns (r: real)
      requires Valid()
      modifies slots
      ensures slots[..] == Remember(old(slots[..]), hash, key, computed, now).slots
      ensures r == Remember(old(slots[..]), hash, key, computed, now).value
    {
      var index := SlotIndex(hash);
      var entry := slots[index];
      if entry.Some? && entry.value.key == key {
        var e := entry.value;
        slots[index] := Some(e.(hitCount := WrapInt32(e.hitCount + 1)));
        return e.value;
      }
      slots[index] := Some(FastEntry(key, computed, now, 0));
      return computed;
    }

    /** `clearFastCache`: every slot emptied. */
    method ClearFastCache()
      requires Valid()
      modifies slots
      ensures AllEmpty(slots[..])
    {
      for i := 0 to FastCacheSize
        invariant forall j :: 0 <= j < i ==> slots[j].None?
      {
        slots[i] := None;
      }
    }

    /** `clearAll`: the fast cache is the only cache. */
    method ClearAll()
      requires Valid()
      modifies slots
      ensures AllEmpty(slots[..])
    {
      ClearFastCache();
    }

    /** `invalidateOnConfigurationChange`. */
    method InvalidateOnConfigurationChange(previous: Option<Configuration>, current: Configuration)
      requires Valid()
      modifies slots
      ensures InvalidatesCache(previous, current) ==> AllEmpty(slots[..])
      ensures !InvalidatesCache(previous, current) ==> slots[..] == old(slots[..])
    {
      if previous.None? {
        ClearAll();
        return;
      }
      var densityChanged := previous.value.densityDpi != current.densityDpi;
      var screenSizeChanged := previous.value.screenWidthDp != current.screenWidthDp ||
                               previous.value.screenHeightDp != current.screenHeightDp;
      if densityChanged || screenSizeChanged {
        ClearAll();
      }
    }

    /**
     * `pruneOldEntries`: empties exactly the stale slots and returns how many
     * it emptied.
     */
    method PruneOldEntries(now: int) returns (prunedCount: int)
      requires Valid()
      modifies slots
      ensures slots[..] == Pruned(old(slots[..]), now, maxEntryAgeMs)
      ensures prunedCount == CountStale(old(slots[..]), now, maxEntryAgeMs)
    {
      ghost var before := slots[..];
      prunedCount := 0;
      for i := 0 to FastCacheSize
        invariant slots[..i] == Pruned(before[..i], now, maxEntryAgeMs)
        invariant forall j :: i <= j < FastCacheSize ==> slots[j] == before[j]
        invariant prunedCount == CountStale(before[..i], now, maxEntryAgeMs)
      {
        assert before[..i + 1][..i] == before[..i];
        ghost var done := slots[..i];
        var entry := slots[i];
        if entry.Some? {
          var age := now - entry.value.timestamp;
          if age > maxEntryAgeMs {
            slots[i] := None;
            prunedCount := prunedCount + 1;
          }
        }
        assert slots[i] == PruneSlot(before[i], now, maxEntryAgeMs);
        assert slots[..i] == done;
        assert slots[..i + 1] == done + [slots[i]];
      }
      assert before[..FastCacheSize] == before;
    }

    /** `getFastCacheStats`: the statistics of the current slots; reads the array only. */
    method GetFastCacheStats(now: int) returns (st: FastCacheStats)
      requires Valid()
      ensures st == StatsOf(slots[..], now)
      ensures st.totalEntries <= st.capacity
    {
      var totalEntries := 0;
      var totalHits := 0;
      var oldestAge := 0;
      for i := 0 to FastCacheSize
        invariant totalEntries == CountOccupied(slots[..i])
        invariant totalHits == SumHits(slots[..i])
        invariant oldestAge == OldestAge(slots[..i], now)
      {
        assert slots[..i + 1][..i] == slots[..i];
        var entry := slots[i];
        if entry.Some? {
          totalEntries := totalEntries + 1;
          totalHits := totalHits + entry.value.hitCount;
          var age := now - entry.value.timestamp;
          if age > oldestAge {
            oldestAge := age;
          }
        }
      }
      assert slots[..FastCacheSize] == slots[..];
      var hitRate := if totalHits > 0 then totalHits as real / (if totalEntries > 1 then totalEntries else 1) as real else 0.0;
      st := FastCacheStats(totalEntries, totalHits, hitRate, oldestAge, FastCacheSize);
    }
  }
}
