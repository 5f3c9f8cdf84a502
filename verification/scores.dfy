/**
 * The best-score record: best time and best roll count. Before any run has
 * been recorded the game holds positive infinity in both; here that is `None`.
 */
module Scores {

  datatype Option<T> = None | Some(value: T)

  /** `v` is strictly below the record `best` (everything is below infinity). */
  predicate Below(v: int, best: Option<int>)
  {
    best.None? || v < best.value
  }

  /** Record `a` is at most record `b`, with `None` as infinity. */
  predicate AtMost(a: Option<int>, b: Option<int>)
  {
    b.None? || (a.Some? && a.value <= b.value)
  }

  /** The record after offering it `candidate`, which is only taken when the
      run is `eligible` and strictly beats the record: the minimum of the two
      for an eligible run, the old record otherwise. */
  function Improved(best: Option<int>, candidate: int, eligible: bool): (r: Option<int>)
    ensures AtMost(r, best)
    ensures eligible ==> AtMost(r, Some(candidate))
    ensures r == best || (eligible && r == Some(candidate))
    ensures !eligible ==> r == best
  {
    if eligible && Below(candidate, best) then Some(candidate) else best
  }
}
