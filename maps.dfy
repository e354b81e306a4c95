/**
 * Building a Rust `HashMap` from a sequence of key-value pairs, by
 * `collect()` or by `insert` in a loop: a later pair replaces an earlier one
 * with the same key.
 */
module Maps {

  /** The map built from `pairs` in order: a key is present exactly when some pair carries it. */
  function Collect<K(!new), V>(pairs: seq<(K, V)>): (m: map<K, V>)
    ensures forall k :: k in m <==> exists i :: 0 <= i < |pairs| && pairs[i].0 == k
  {
    if pairs == [] then map[]
    else
      var n := |pairs| - 1;
      Collect(pairs[..n])[pairs[n].0 := pairs[n].1]
  }

  /** The last pair with a given key wins. */
  lemma {:induction false} CollectLastWins<K(!new), V>(pairs: seq<(K, V)>, i: nat)
    requires i < |pairs|
    requires forall j :: i < j < |pairs| ==> pairs[j].0 != pairs[i].0
    ensures pairs[i].0 in Collect(pairs) && Collect(pairs)[pairs[i].0] == pairs[i].1
  {
    var n := |pairs| - 1;
    if i < n {
      CollectLastWins(pairs[..n], i);
    }
  }

  /** The map has at most one entry per pair. */
  lemma {:induction false} CollectSize<K(!new), V>(pairs: seq<(K, V)>)
    ensures |Collect(pairs)| <= |pairs|
  {
    if pairs != [] {
      CollectSize(pairs[..|pairs| - 1]);
    }
  }
}
