/** The first-match search that the services write as
    `next((e for e in s if cond(e)), None)`. */
module Search {
  import opened Wrappers

  /** The index of the first element of `s` that `matches`, or None when no
      element does: exactly what Python's `next` over a filtered generator
      picks, reported as a position so that callers can update it in place. */
  function Find<T>(s: seq<T>, matches: T -> bool): (r: Option<nat>)
    ensures r.Some? ==> r.value < |s| && matches(s[r.value])
    ensures r.Some? ==> forall k :: 0 <= k < r.value ==> !matches(s[k])
    ensures r.None? <==> forall k :: 0 <= k < |s| ==> !matches(s[k])
  {
    if s == [] then None
    else if matches(s[0]) then Some(0)
    else match Find(s[1..], matches)
      case None => None
      case Some(k) => Some(k + 1)
  }

  /** The first match is unique: any index that matches and has no match
      before it is the one `Find` reports. */
  lemma FindIsFirst<T>(s: seq<T>, matches: T -> bool, i: nat)
    requires i < |s| && matches(s[i])
    requires forall k :: 0 <= k < i ==> !matches(s[k])
    ensures Find(s, matches) == Some(i)
  {
  }
}
