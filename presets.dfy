/**
 * `findBestPreset`, the binary search the auto-size strategy uses to pick a
 * size from a preset table.  The dynamic and games Kotlin calculators and the
 * native games calculator carry the same algorithm.
 */
module Presets {

  /** Non-decreasing order, the order the search expects its presets in. */
  ghost predicate NonDecreasing(s: seq<real>)
  {
    forall i, j :: 0 <= i <= j < |s| ==> s[i] <= s[j]
  }

  /** Some preset fits into `size`. */
  ghost predicate SomeFits(s: seq<real>, size: real)
  {
    exists i :: 0 <= i < |s| && s[i] <= size
  }

  /**
   * The largest preset among the first `count` not exceeding
   * `availableSize` (for ascending presets), the first preset when none
   * fits, and `availableSize` itself when there are none.  The Kotlin
   * versions search the whole array (`count == presets.Length`); the native
   * one takes the count as an argument.
   */
  method FindBestPreset(presets: array<real>, count: int, availableSize: real) returns (r: real)
    requires 0 <= count <= presets.Length
    ensures count == 0 ==> r == availableSize
    ensures count > 0 ==> r in presets[..count]
    ensures count > 0 ==> r <= availableSize || r == presets[0]
    ensures count > 0 && availableSize >= presets[count - 1] ==> r == presets[count - 1]
    ensures NonDecreasing(presets[..count]) && SomeFits(presets[..count], availableSize) ==>
      r <= availableSize &&
      forall i :: 0 <= i < count && presets[i] <= availableSize ==> presets[i] <= r
    ensures count > 0 && !SomeFits(presets[..count], availableSize) ==> r == presets[0]
  {
    if count == 0 {
      return availableSize;
    }
    if count == 1 {
      return presets[0];
    }
    if availableSize >= presets[count - 1] {
      return presets[count - 1];
    }
    if availableSize < presets[0] {
      return presets[0];
    }
    ghost var sorted := NonDecreasing(presets[..count]);
    var left := 0;
    var right := count - 1;
    r := presets[0];
    while left <= right
      invariant 0 <= left <= right + 1 <= count
      invariant left == 0 ==> r == presets[0]
      invariant left > 0 ==> r == presets[left - 1] && r <= availableSize
      invariant sorted ==> forall i :: right < i < count ==> presets[i] > availableSize
      decreases right - left
    {
      var mid := (left + right) / 2;
      var midValue := presets[mid];
      if midValue <= availableSize {
        r := midValue;
        left := mid + 1;
      } else {
        right := mid - 1;
      }
    }
    assert r == presets[0] || r == presets[left - 1];
  }
}
