/** A JavaScript `Map` filled from a list of `[key, value]` entries, as
    `new Map(entries)` or a loop of `map.set(k, v)` builds it: a later entry
    for the same key replaces an earlier one. */
module Entries {

  function ToMap<K, V>(entries: seq<(K, V)>): (m: map<K, V>)
    ensures forall j :: 0 <= j < |entries| ==> entries[j].0 in m
    ensures forall k :: k in m ==> exists j :: 0 <= j < |entries| && entries[j].0 == k
  {
    if entries == [] then map[]
    else
      var init := entries[..|entries| - 1];
      assert forall j :: 0 <= j < |init| ==> init[j] == entries[j];
      ToMap(init)[entries[|entries| - 1].0 := entries[|entries| - 1].1]
  }

  /** A key no entry mentions is not in the map. */
  lemma AbsentKeyHasNoValue<K, V>(entries: seq<(K, V)>, k: K)
    requires forall j :: 0 <= j < |entries| ==> entries[j].0 != k
    ensures k !in ToMap(entries)
  {
  }

  /** A key maps to the value of the last entry that mentions it. */
  lemma {:induction false} LastEntryWins<K, V>(entries: seq<(K, V)>, j: int)
    requires 0 <= j < |entries|
    requires forall i :: j < i < |entries| ==> entries[i].0 != entries[j].0
    ensures ToMap(entries)[entries[j].0] == entries[j].1
  {
    if j < |entries| - 1 {
      var init := entries[..|entries| - 1];
      assert forall i :: 0 <= i < |init| ==> init[i] == entries[i];
      LastEntryWins(init, j);
    }
  }

  /** `for (const [k, v] of entries) map.set(k, v)` on an empty map. */
  method SetAll<K, V>(entries: seq<(K, V)>) returns (m: map<K, V>)
    ensures m == ToMap(entries)
  {
    m := map[];
    for i := 0 to |entries|
      invariant m == ToMap(entries[..i])
    {
      assert entries[..i + 1][..i] == entries[..i];
      m := m[entries[i].0 := entries[i].1];
    }
    assert entries[..|entries|] == entries;
  }
}
