/** `Array.prototype.find` on sequences, returning the position of the hit. */
module Seqs {
  import opened Wrappers

  /** `s[i]` is the first element of `s` that satisfies `p`. */
  ghost predicate IsFirst<T>(s: seq<T>, p: T -> bool, i: int) {
    0 <= i < |s| && p(s[i]) && forall j :: 0 <= j < i ==> !p(s[j])
  }

  /** The index of the first element satisfying `p`, or `None` when no element does. */
  function Find<T>(s: seq<T>, p: T -> bool): (r: Option<nat>)
    ensures r.Some? ==> IsFirst(s, p, r.value)
    ensures r.None? <==> forall j :: 0 <= j < |s| ==> !p(s[j])
  {
    if s == [] then None
    else if p(s[0]) then Some(0)
    else match Find(s[1..], p)
      case None => None
      case Some(i) => Some(i + 1)
  }
}
