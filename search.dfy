/**
 * The linear "first element whose key equals k" search that every `get...` / lookup
 * loop of the program performs (getTvShow, getMovie, getEpisodeByName,
 * getSeasonByNumber, getSeasonByName, the TMDB episode searches).
 */
module Search {
  import opened Wrappers

  /** Index of the first key equal to `k`, if any. */
  function IndexOf<K(==)>(keys: seq<K>, k: K): (r: Option<nat>)
    ensures r.Some? ==> r.value < |keys| && keys[r.value] == k
                        && forall j :: 0 <= j < r.value ==> keys[j] != k
    ensures r.None? <==> k !in keys
  {
    if keys == [] then None
    else if keys[0] == k then Some(0)
    else match IndexOf(keys[1..], k)
      case None => None
      case Some(i) => Some(i + 1)
  }

  /** The key sequence has no repetition. */
  predicate Distinct<K(==)>(keys: seq<K>) {
    forall i, j :: 0 <= i < j < |keys| ==> keys[i] != keys[j]
  }

  /** Appending a key that is not yet present keeps the keys distinct. */
  lemma DistinctAppend<K>(keys: seq<K>, k: K)
    requires Distinct(keys) && k !in keys
    ensures Distinct(keys + [k])
  {
  }

  /** In a distinct key sequence, the first match is the only match. */
  lemma DistinctIndexOf<K>(keys: seq<K>, i: nat)
    requires Distinct(keys) && i < |keys|
    ensures IndexOf(keys, keys[i]) == Some(i)
  {
  }

  /** The loop of the source's lookups: scan from the front, stop at the first hit. */
  method FindIndex<K(==)>(keys: seq<K>, k: K) returns (r: Option<nat>)
    ensures r == IndexOf(keys, k)
  {
    var i := 0;
    while i < |keys|
      invariant 0 <= i <= |keys|
      invariant forall j :: 0 <= j < i ==> keys[j] != k
    {
      if keys[i] == k {
        return Some(i);
      }
      i := i + 1;
    }
    return None;
  }
}
