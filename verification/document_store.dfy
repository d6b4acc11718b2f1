/**
 * The part of the document store both backend services use: the query
 * `find({ userId })` over a collection, which keeps exactly the documents of
 * one owner in collection order.
 */
module DocumentStore {
  /** The documents of `s` whose owner is `user`, in the order of `s`. */
  function OwnedBy<D(==,!new)>(s: seq<D>, owner: D -> string, user: string): (r: seq<D>)
    ensures forall d :: d in r <==> d in s && owner(d) == user
    ensures forall d :: multiset(r)[d] == if owner(d) == user then multiset(s)[d] else 0
    ensures |r| <= |s|
  {
    if |s| == 0 then []
    else
      var rest := OwnedBy(s[..|s| - 1], owner, user);
      assert s == s[..|s| - 1] + [s[|s| - 1]];
      if owner(s[|s| - 1]) == user then rest + [s[|s| - 1]] else rest
  }

  /** Adding a document adds it to its owner's query and to no other. */
  lemma {:induction false} OwnedByAppend<D(!new)>(s: seq<D>, d: D, owner: D -> string, user: string)
    ensures OwnedBy(s + [d], owner, user) == OwnedBy(s, owner, user) + (if owner(d) == user then [d] else [])
  {
    assert (s + [d])[..|s + [d]| - 1] == s;
  }
}
