/** Rows added to a table under new keys, one after the other, and taken away again. */
module Keyed {

  // The keys are different from each other and not in use.
  ghost predicate Free<K, V>(base: map<K, V>, keys: seq<K>) {
    && (forall i, j | 0 <= i < j < |keys| :: keys[i] != keys[j])
    && (forall i | 0 <= i < |keys| :: keys[i] !in base)
  }

  // The table after the values were added under their keys, the last one last.
  function With<K, V>(base: map<K, V>, keys: seq<K>, values: seq<V>): map<K, V>
    requires |keys| == |values|
  {
    if keys == [] then base
    else With(base, keys[..|keys| - 1], values[..|keys| - 1])[keys[|keys| - 1] := values[|keys| - 1]]
  }

  lemma {:induction false} WithKeys<K, V>(base: map<K, V>, keys: seq<K>, values: seq<V>)
    requires |keys| == |values|
    ensures With(base, keys, values).Keys == base.Keys + (set k | k in keys)
  {
    if keys != [] {
      var last := |keys| - 1;
      WithKeys(base, keys[..last], values[..last]);
      assert keys == keys[..last] + [keys[last]];
    }
  }

  // One more key is free when nobody has it, neither the table nor the keys before.
  lemma FreeWithOneMore<K, V>(base: map<K, V>, keys: seq<K>, key: K)
    requires Free(base, keys)
    ensures Free(base, keys + [key]) <==> key !in base && key !in keys
  {
    var more := keys + [key];
    assert more[|keys|] == key && forall i | 0 <= i < |keys| :: more[i] == keys[i];
    if key in keys {
      var i :| 0 <= i < |keys| && keys[i] == key;
      assert more[i] == more[|keys|];
      assert !Free(base, more);
    } else {
      assert forall i, j | 0 <= i < j < |more| :: more[i] != more[j];
    }
  }

  /** One more key is free exactly when the table with the others does not have it. */
  lemma OneMore<K, V>(base: map<K, V>, keys: seq<K>, values: seq<V>, key: K, value: V)
    requires |keys| == |values| && Free(base, keys)
    ensures Free(base, keys + [key]) <==> key !in With(base, keys, values)
    ensures With(base, keys + [key], values + [value]) == With(base, keys, values)[key := value]
  {
    WithKeys(base, keys, values);
    FreeWithOneMore(base, keys, key);
    assert key in With(base, keys, values).Keys <==> key in base || key in keys;
    assert (keys + [key])[..|keys|] == keys && (values + [value])[..|keys|] == values;
  }

  lemma FreePrefix<K, V>(base: map<K, V>, keys: seq<K>, more: seq<K>)
    requires Free(base, more) && keys <= more
    ensures Free(base, keys)
  {
    assert forall i | 0 <= i < |keys| :: keys[i] == more[i];
  }

  // The last of free keys is not among the others.
  lemma LastIsNew<K, V>(base: map<K, V>, keys: seq<K>, values: seq<V>)
    requires |keys| == |values| && keys != [] && Free(base, keys)
    ensures var last := |keys| - 1;
            Free(base, keys[..last]) && keys[last] !in With(base, keys[..last], values[..last])
  {
    var last := |keys| - 1;
    FreePrefix(base, keys[..last], keys);
    WithKeys(base, keys[..last], values[..last]);
    assert keys[last] !in keys[..last];
  }

  /** Under free keys, there are as many rows more as there are keys, and none that was there changed. */
  lemma {:induction false} WithKeepsOthers<K, V>(base: map<K, V>, keys: seq<K>, values: seq<V>)
    requires |keys| == |values| && Free(base, keys)
    ensures |With(base, keys, values)| == |base| + |keys|
    ensures forall k | k in base :: k in With(base, keys, values) && With(base, keys, values)[k] == base[k]
  {
    if keys != [] {
      var last := |keys| - 1;
      LastIsNew(base, keys, values);
      WithKeepsOthers(base, keys[..last], values[..last]);
    }
  }

  /** Under free keys, every value is found under its key. */
  lemma {:induction false} WithHolds<K, V>(base: map<K, V>, keys: seq<K>, values: seq<V>, i: nat)
    requires |keys| == |values| && Free(base, keys) && i < |keys|
    ensures keys[i] in With(base, keys, values) && With(base, keys, values)[keys[i]] == values[i]
  {
    var last := |keys| - 1;
    if i < last {
      LastIsNew(base, keys, values);
      WithHolds(base, keys[..last], values[..last], i);
    }
  }

  /** Taking the new keys away restores the table. */
  lemma Undo<K, V>(base: map<K, V>, keys: seq<K>, values: seq<V>)
    requires |keys| == |values| && Free(base, keys)
    ensures With(base, keys, values) - (set k | k in keys) == base
  {
    WithKeys(base, keys, values);
    WithKeepsOthers(base, keys, values);
  }
}
