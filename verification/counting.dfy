/** Counting the elements of a queue that have a property. */
module Counting {
  function Count<T>(p: T -> bool, s: seq<T>): (n: nat)
    ensures n <= |s|
  {
    if s == [] then 0 else Count(p, s[..|s| - 1]) + if p(s[|s| - 1]) then 1 else 0
  }

  /** A queue whose elements with the property all come before `limit` has at most `limit` of them. */
  lemma {:induction false} CountBound<T>(p: T -> bool, s: seq<T>, limit: nat)
    requires forall i :: limit <= i < |s| ==> !p(s[i])
    ensures Count(p, s) <= limit
  {
    if |s| > limit {
      CountBound(p, s[..|s| - 1], limit);
    }
  }
}
