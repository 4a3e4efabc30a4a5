/** Keyed stores as the managed backends and the FAISS side file keep them:
    an upsert of a batch of (key, value) pairs, and a delete by predicate. */
module Maps {
  /** The map after writing `vals[i]` under `keys[i]` for each `i` in order;
      a later equal key overwrites an earlier one. */
  function Upserted<K, V>(m: map<K, V>, keys: seq<K>, vals: seq<V>): map<K, V>
    requires |keys| == |vals|
  {
    if keys == [] then m
    else Upserted(m, keys[..|keys| - 1], vals[..|keys| - 1])[keys[|keys| - 1] := vals[|keys| - 1]]
  }

  /** One more write extends the upsert by one map update. */
  lemma UpsertedStep<K, V>(m: map<K, V>, keys: seq<K>, vals: seq<V>, k: K, v: V)
    requires |keys| == |vals|
    ensures Upserted(m, keys + [k], vals + [v]) == Upserted(m, keys, vals)[k := v]
  {
    assert (keys + [k])[..|keys|] == keys;
    assert (vals + [v])[..|keys|] == vals;
  }

  /** With distinct keys, each key holds its own value, every other old entry
      is kept, and no other key appears. */
  lemma {:induction false} UpsertedContents<K, V>(m: map<K, V>, keys: seq<K>, vals: seq<V>)
    requires |keys| == |vals|
    requires forall i, j :: 0 <= i < j < |keys| ==> keys[i] != keys[j]
    ensures forall k :: k in Upserted(m, keys, vals) <==> k in m || k in keys
    ensures forall i :: 0 <= i < |keys| ==> Upserted(m, keys, vals)[keys[i]] == vals[i]
    ensures forall k :: k in m && k !in keys ==> Upserted(m, keys, vals)[k] == m[k]
  {
    if keys != [] {
      var n := |keys| - 1;
      var p := Upserted(m, keys[..n], vals[..n]);
      UpsertedContents(m, keys[..n], vals[..n]);
      assert keys == keys[..n] + [keys[n]];
      var r := Upserted(m, keys, vals);
      assert r == p[keys[n] := vals[n]];
      forall i | 0 <= i < |keys|
        ensures r[keys[i]] == vals[i]
      {
        if i < n {
          assert keys[..n][i] == keys[i] && vals[..n][i] == vals[i];
        }
      }
    }
  }

  /** The entries whose value `drop` rejects. */
  function Without<K(!new), V>(m: map<K, V>, drop: V -> bool): (r: map<K, V>)
    ensures forall k :: k in r <==> k in m && !drop(m[k])
    ensures forall k :: k in r ==> r[k] == m[k]
  {
    map k | k in m && !drop(m[k]) :: m[k]
  }

  /** Deleting twice by the same predicate deletes nothing more. */
  lemma WithoutIdempotent<K(!new), V>(m: map<K, V>, drop: V -> bool)
    ensures Without(Without(m, drop), drop) == Without(m, drop)
  {
  }
}
