/**
 * What sort.Sort promises under a Less method: the result is a permutation of its input in which
 * no element is less than one before it. The algorithm sort.Sort uses is not part of this model;
 * `Sort` is an insertion sort that keeps the same promise.
 */
module Sorting {

  ghost predicate StrictOrder<T(!new)>(less: (T, T) -> bool) {
    && (forall a :: !less(a, a))
    && (forall a, b, c :: less(a, b) && less(b, c) ==> less(a, c))
  }

  predicate Sorted<T>(s: seq<T>, less: (T, T) -> bool) {
    forall i, j :: 0 <= i < j < |s| ==> !less(s[j], s[i])
  }

  function Insert<T(!new)>(x: T, s: seq<T>, less: (T, T) -> bool): (r: seq<T>)
    requires StrictOrder(less) && Sorted(s, less)
    ensures multiset(r) == multiset(s) + multiset{x}
    ensures Sorted(r, less)
    decreases |s|
  {
    if s == [] then [x]
    else if less(x, s[0]) then
      assert forall j :: 0 <= j < |s| ==> !less(s[j], x);
      [x] + s
    else
      var t := Insert(x, s[1..], less);
      assert s == [s[0]] + s[1..];
      assert forall j :: 0 <= j < |t| ==> !less(t[j], s[0]) by {
        forall j | 0 <= j < |t|
          ensures !less(t[j], s[0])
        {
          assert t[j] in multiset(t);
          if t[j] != x {
            assert t[j] in multiset(s[1..]);
            var k :| 0 <= k < |s[1..]| && s[1..][k] == t[j];
            assert s[k + 1] == t[j];
          }
        }
      }
      [s[0]] + t
  }

  /** A sorted permutation of `s`. */
  function Sort<T(!new)>(s: seq<T>, less: (T, T) -> bool): (r: seq<T>)
    requires StrictOrder(less)
    ensures multiset(r) == multiset(s)
    ensures Sorted(r, less)
    decreases |s|
  {
    if s == [] then []
    else
      assert s == s[..|s| - 1] + [s[|s| - 1]];
      Insert(s[|s| - 1], Sort(s[..|s| - 1], less), less)
  }
}
