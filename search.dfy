/** The first-match search the game runs over its lists: levels by name,
    layers by name, neighbour links by direction. Each stops at the first
    element that matches. */
module Search {
  import opened Options

  /** Index of the first element satisfying the test, if any. */
  function FirstWhere<T>(xs: seq<T>, matches: T -> bool): (r: Option<nat>)
    ensures r.Some? ==> r.value < |xs| && matches(xs[r.value]) &&
                        forall j :: 0 <= j < r.value ==> !matches(xs[j])
    ensures r.None? ==> forall j :: 0 <= j < |xs| ==> !matches(xs[j])
  {
    if |xs| == 0 then None
    else if matches(xs[0]) then Some(0)
    else match FirstWhere(xs[1..], matches)
      case None => None
      case Some(k) => Some(k + 1)
  }
}
