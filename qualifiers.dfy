/**
 * Custom qualifiers: per-screen-size and per-UI-mode overrides of the base
 * value, and the "first entry with the largest score" selection the
 * calculators use to choose among the overrides that apply.
 *
 * Kotlin maps built with `mapOf`/`mutableMapOf` iterate in insertion order,
 * and `maxByOrNull` keeps the FIRST of several equal maxima, so a qualifier
 * map is modelled as the sequence of its entries in iteration order.
 */
module Qualifiers {
  import opened Numerics

  /** `DpQualifier`: which screen measure a qualifier compares against. */
  datatype DpQualifier = SMALL_WIDTH | WIDTH | HEIGHT

  /** `DpQualifierEntry(type, value)`: "this measure is at least `value` dp". */
  datatype DpQualifierEntry = DpQualifierEntry(kind: DpQualifier, value: int)

  /** `UiModeType`: the Android UI mode (normal, car, television, watch, …), identified by its code. */
  datatype UiModeType = UiModeType(code: int)

  /** `UiModeQualifierEntry`: a UI mode combined with a size qualifier. */
  datatype UiModeQualifierEntry = UiModeQualifierEntry(uiModeType: UiModeType, dpQualifierEntry: DpQualifierEntry)

  /** `CustomQualifiers(intersectionMap, uiModeMap, dpMap)`. */
  datatype CustomQualifiers = CustomQualifiers(
    intersectionMap: seq<(UiModeQualifierEntry, real)>,
    uiModeMap: map<UiModeType, real>,
    dpMap: seq<(DpQualifierEntry, real)>)

  const NoQualifiers: CustomQualifiers := CustomQualifiers([], map[], [])

  /**
   * `filter { ok }.maxByOrNull { score }` (and equally the stable
   * `sortedByDescending { score }.firstOrNull { ok }`): the index of the first
   * entry that passes `ok` and has the largest score among those that pass.
   */
  function FirstMaxIndex<T>(s: seq<T>, ok: T -> bool, score: T -> real): (r: Option<nat>)
    ensures r.None? <==> forall i :: 0 <= i < |s| ==> !ok(s[i])
    ensures r.Some? ==> r.value < |s| && ok(s[r.value])
    ensures r.Some? ==> forall i :: 0 <= i < |s| && ok(s[i]) ==> score(s[i]) <= score(s[r.value])
    ensures r.Some? ==> forall i :: 0 <= i < r.value && ok(s[i]) ==> score(s[i]) < score(s[r.value])
  {
    if |s| == 0 then None
    else
      var rest := FirstMaxIndex(s[..|s| - 1], ok, score);
      var last := |s| - 1;
      if !ok(s[last]) then rest
      else if rest.None? || score(s[rest.value]) < score(s[last]) then Some(last)
      else rest
  }

  /** One more entry: the selection over a prefix extended by the entry at `i`. */
  lemma FirstMaxIndexStep<T>(s: seq<T>, i: nat, ok: T -> bool, score: T -> real)
    requires i < |s|
    ensures var rest := FirstMaxIndex(s[..i], ok, score);
      FirstMaxIndex(s[..i + 1], ok, score) ==
        if !ok(s[i]) then rest
        else if rest.None? || score(s[rest.value]) < score(s[i]) then Some(i)
        else rest
  {
    assert s[..i + 1][..i] == s[..i];
  }

  /** The value stored with the selected entry. */
  function SelectValue<K>(entries: seq<(K, real)>, ok: K -> bool, score: K -> real): (r: Option<real>)
    ensures r.None? <==> forall i :: 0 <= i < |entries| ==> !ok(entries[i].0)
    ensures r.Some? ==>
      exists i :: (0 <= i < |entries| && ok(entries[i].0) && r.value == entries[i].1 &&
        (forall j :: 0 <= j < |entries| && ok(entries[j].0) ==> score(entries[j].0) <= score(entries[i].0)) &&
        forall j :: 0 <= j < i && ok(entries[j].0) ==> score(entries[j].0) < score(entries[i].0))
  {
    var k := FirstMaxIndex(entries, (e: (K, real)) => ok(e.0), (e: (K, real)) => score(e.0));
    if k.None? then None else Some(entries[k.value].1)
  }

  /** The threshold of an intersection entry, the score `maxByOrNull` compares. */
  function IntersectionThreshold(e: UiModeQualifierEntry): real
  {
    e.dpQualifierEntry.value as real
  }

  /** The threshold of a size entry. */
  function DpThreshold(e: DpQualifierEntry): real
  {
    e.value as real
  }
}
