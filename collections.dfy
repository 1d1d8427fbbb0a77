/**
 * Shared shapes of the source's collections: an object literal read by key,
 * and the order-preserving subsequences that `filter` produces.
 */
module Collections {
  import opened Optional

  /** `obj[key]` on an object literal held as its entries in source order: the first entry under `key`. */
  function Lookup<V>(t: seq<(string, V)>, key: string): (r: Option<V>)
    ensures r.Some? ==> (key, r.value) in t
    ensures r.None? <==> forall i :: 0 <= i < |t| ==> t[i].0 != key
  {
    if |t| == 0 then None
    else if t[0].0 == key then Some(t[0].1)
    else
      assert forall i :: 1 <= i < |t| ==> t[i] == t[1..][i - 1];
      Lookup(t[1..], key)
  }

  /** `a` can be obtained from `b` by deleting elements. */
  ghost predicate SubsequenceOf<T>(a: seq<T>, b: seq<T>)
    decreases |b|
  {
    |a| == 0 ||
    (|b| > 0 &&
     ((a[|a| - 1] == b[|b| - 1] && SubsequenceOf(a[..|a| - 1], b[..|b| - 1]))
      || SubsequenceOf(a, b[..|b| - 1])))
  }

  lemma {:induction false} SubsequenceRefl<T>(s: seq<T>)
    ensures SubsequenceOf(s, s)
    decreases |s|
  {
    if |s| > 0 {
      SubsequenceRefl(s[..|s| - 1]);
    }
  }
}
