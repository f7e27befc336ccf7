/**
 * What a repository call returns. A collection is its documents in storage order;
 * when the database cannot be reached every query throws.
 */
module Storage {
  import opened Wrappers

  datatype Collection<T> = Collection(documents: seq<T>, reachable: bool)

  /** The first document satisfying `p` (`FirstOrDefault` on a filtered query). */
  function FirstWhere<T>(docs: seq<T>, p: T -> bool): (r: Option<T>)
    ensures r.None? <==> forall i :: 0 <= i < |docs| ==> !p(docs[i])
    ensures r.Some? ==> exists i :: 0 <= i < |docs| && docs[i] == r.value && p(docs[i]) &&
                                  forall j :: 0 <= j < i ==> !p(docs[j])
  {
    if docs == [] then None
    else if p(docs[0]) then Some(docs[0])
    else
      var r := FirstWhere(docs[1..], p);
      assert r.Some? ==> exists i :: 0 <= i < |docs[1..]| && docs[1..][i] == r.value && p(docs[1..][i]) &&
                                    forall j :: 0 <= j < i ==> !p(docs[1..][j]);
      assert forall i :: 0 < i < |docs| ==> docs[i] == docs[1..][i - 1];
      r
  }

  /** The documents satisfying `p`, in storage order (`Find(filter).ToList()`). */
  function Where<T(!new)>(docs: seq<T>, p: T -> bool): (r: seq<T>)
    ensures |r| <= |docs|
    ensures r == [] <==> forall i :: 0 <= i < |docs| ==> !p(docs[i])
    ensures forall x :: x in r ==> p(x)
    ensures forall x :: multiset(r)[x] == if p(x) then multiset(docs)[x] else 0
  {
    if docs == [] then []
    else
      var rest := Where(docs[1..], p);
      assert docs == [docs[0]] + docs[1..];
      if p(docs[0]) then [docs[0]] + rest else rest
  }

  /** `GetAsync(filter)` followed by `FirstOrDefault()`. */
  function FindFirst<T>(c: Collection<T>, p: T -> bool): (r: Fallible<Option<T>>)
    ensures r.Faulted? <==> !c.reachable
  {
    if c.reachable then Completed(FirstWhere(c.documents, p)) else Faulted
  }

  /** `GetAsync(filter)`: every matching document. */
  function Query<T(!new)>(c: Collection<T>, p: T -> bool): (r: Fallible<seq<T>>)
    ensures r.Faulted? <==> !c.reachable
  {
    if c.reachable then Completed(Where(c.documents, p)) else Faulted
  }
}
