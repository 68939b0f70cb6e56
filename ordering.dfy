/** `ORDER BY id` over the positive integer primary keys of a table. */
module Ordering {

  /** `a` comes before `b` in the requested direction. */
  predicate Before(a: int, b: int, descending: bool) {
    if descending then a > b else a < b
  }

  /** The keys of `keys` that lie in 1..n, each listed once, in strictly
      ascending or strictly descending order. */
  function OrderBy(keys: set<int>, n: int, descending: bool): (ks: seq<int>)
    ensures forall k :: k in ks <==> k in keys && 1 <= k <= n
    ensures forall i, j :: 0 <= i < j < |ks| ==> Before(ks[i], ks[j], descending)
    decreases n
  {
    if n < 1 then []
    else
      var rest := OrderBy(keys, n - 1, descending);
      var here := if n in keys then [n] else [];
      assert forall i :: 0 <= i < |rest| ==> rest[i] < n by {
        forall i | 0 <= i < |rest| ensures rest[i] < n {
          assert rest[i] in rest;
        }
      }
      if descending then here + rest else rest + here
  }
}
