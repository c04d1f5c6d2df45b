/** `countDocuments(filter)` over a collection held as a sequence of documents. */
module Counting {

  /** The number of documents in `docs` that `filter` matches. */
  function Count<T>(docs: seq<T>, filter: T -> bool): (n: nat)
    ensures n <= |docs|
    ensures n == 0 <==> forall i :: 0 <= i < |docs| ==> !filter(docs[i])
  {
    if docs == [] then 0 else (if filter(docs[0]) then 1 else 0) + Count(docs[1..], filter)
  }

  /** A document added to the collection adds one to the count of a filter it
      matches and nothing to the count of any other filter. */
  lemma {:induction false} CountAppend<T>(docs: seq<T>, d: T, filter: T -> bool)
    ensures Count(docs + [d], filter) == Count(docs, filter) + (if filter(d) then 1 else 0)
  {
    if docs != [] {
      assert (docs + [d])[1..] == docs[1..] + [d];
      CountAppend(docs[1..], d, filter);
    }
  }
}
