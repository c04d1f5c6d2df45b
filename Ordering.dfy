/** The `.sort({ createdAt: -1 })` applied by the listing queries: documents ordered
    by a timestamp key, newest first. */
module Ordering {

  /** `s` is ordered by `key`, largest key first. */
  ghost predicate NewestFirst<T>(s: seq<T>, key: T -> int) {
    forall i, j :: 0 <= i < j < |s| ==> key(s[i]) >= key(s[j])
  }

  /** Places `x` into a newest-first sequence, after every element whose key is larger. */
  function Insert<T>(x: T, s: seq<T>, key: T -> int): (r: seq<T>)
    requires NewestFirst(s, key)
    ensures NewestFirst(r, key)
    ensures multiset(r) == multiset(s) + multiset{x}
    ensures |r| == |s| + 1
    // the new head is `x` or the old head
    ensures r[0] == x || (s != [] && r[0] == s[0])
  {
    if s == [] || key(x) >= key(s[0]) then
      [x] + s
    else
      var rest := Insert(x, s[1..], key);
      assert s == [s[0]] + s[1..];
      assert key(rest[0]) <= key(s[0]);
      [s[0]] + rest
  }

  /** A newest-first permutation of `s`. */
  function SortNewestFirst<T>(s: seq<T>, key: T -> int): (r: seq<T>)
    ensures NewestFirst(r, key)
    ensures multiset(r) == multiset(s)
    ensures |r| == |s|
  {
    if s == [] then [] else
      assert s == [s[0]] + s[1..];
      Insert(s[0], SortNewestFirst(s[1..], key), key)
  }
}
