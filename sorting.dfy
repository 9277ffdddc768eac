/**
 * What `sort.Slice(s, less)` guarantees with `less(i, j)` comparing a key:
 * the result is a reordering of `s` in which no element's key is smaller than
 * an earlier one's. The order among equal keys is unspecified (the sort is not
 * stable), so callers may rely only on these two facts.
 */
module Sorting {

  predicate SortedBy<T>(s: seq<T>, key: T -> real)
  {
    forall i, j | 0 <= i < j < |s| :: key(s[i]) <= key(s[j])
  }

  /** `x` put in front of the first element of `sorted` whose key exceeds its own. */
  function Insert<T>(sorted: seq<T>, x: T, key: T -> real): (r: seq<T>)
    requires SortedBy(sorted, key)
    ensures multiset(r) == multiset(sorted) + multiset{x}
    ensures SortedBy(r, key)
    ensures |r| > 0 && (r[0] == x || (|sorted| > 0 && r[0] == sorted[0]))
  {
    if |sorted| == 0 then [x]
    else if key(x) <= key(sorted[0]) then [x] + sorted
    else
      var rest := Insert(sorted[1..], x, key);
      assert sorted == [sorted[0]] + sorted[1..];
      assert key(sorted[0]) <= key(rest[0]);
      [sorted[0]] + rest
  }

  /** A sort by `key`: the elements of `s`, reordered by ascending key. */
  method SortByKey<T>(s: seq<T>, key: T -> real) returns (r: seq<T>)
    ensures multiset(r) == multiset(s)
    ensures SortedBy(r, key)
  {
    r := [];
    for i := 0 to |s|
      invariant multiset(r) == multiset(s[..i])
      invariant SortedBy(r, key)
    {
      assert s[..i + 1] == s[..i] + [s[i]];
      r := Insert(r, s[i], key);
    }
    assert s[..|s|] == s;
  }
}
