/** The JavaScript array built-ins the core relies on, as functions on sequences. */
module JsArray {
  import opened Wrappers

  /** `a.slice(0, k)`: the first `k` elements, or all of them when there are fewer. */
  function Take<T>(a: seq<T>, k: nat): (r: seq<T>)
    ensures |a| <= k ==> r == a
    ensures k < |a| ==> |r| == k
    ensures r <= a
  {
    if |a| <= k then a else a[..k]
  }

  /** `a.findIndex(p)` as an option: the least index whose element satisfies `p`,
      or None when no element does. `a.find(p)` is the element at that index. */
  function FirstIndex<T>(a: seq<T>, p: T -> bool): (r: Option<nat>)
    ensures r.Some? ==> r.value < |a| && p(a[r.value])
    ensures r.Some? ==> forall j :: 0 <= j < r.value ==> !p(a[j])
    ensures r.None? <==> forall j :: 0 <= j < |a| ==> !p(a[j])
  {
    if |a| == 0 then None
    else if p(a[0]) then Some(0)
    else match FirstIndex(a[1..], p)
      case None => None
      case Some(j) => Some(j + 1)
  }

  /** Searching behind a new first element: it is found there if it matches, otherwise the
      search continues in the old array, one position further on. */
  lemma FirstIndexCons<T>(x: T, a: seq<T>, p: T -> bool)
    ensures FirstIndex([x] + a, p) ==
      if p(x) then Some(0)
      else match FirstIndex(a, p)
        case None => None
        case Some(j) => Some(j + 1)
  {
    assert ([x] + a)[1..] == a;
  }
}
