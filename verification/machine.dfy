/** Step machines: a thread program is a partial step function over a shared state, and a
    run is any sequence of enabled actions from the initial state. */
module Machine {
  import opened Optional

  /** The state reached by executing `actions` in order, or None as soon as one is not enabled. */
  ghost function Run<S, A>(init: S, next: (S, A) -> Option<S>, actions: seq<A>): Option<S>
  {
    if actions == [] then Some(init) else
      match Run(init, next, actions[..|actions| - 1])
      case None => None
      case Some(s) => next(s, actions[|actions| - 1])
  }

  /** Some run reaches the state. */
  ghost predicate Reaches<S(!new), A(!new)>(init: S, next: (S, A) -> Option<S>, s: S)
  {
    exists actions: seq<A> :: Run(init, next, actions) == Some(s)
  }

  /** An invariant that holds initially and is kept by each single step holds in every state reached. */
  lemma Invariant<S(!new), A(!new)>(init: S, next: (S, A) -> Option<S>, inv: S -> bool, s: S)
    requires inv(init)
    requires forall s, a :: inv(s) && next(s, a).Some? ==> inv(next(s, a).value)
    requires Reaches(init, next, s)
    ensures inv(s)
  {
    var actions: seq<A> :| Run(init, next, actions) == Some(s);
    RunKeeps(init, next, inv, actions);
  }

  lemma {:induction false} RunKeeps<S(!new), A(!new)>(init: S, next: (S, A) -> Option<S>,
                                                      inv: S -> bool, actions: seq<A>)
    requires inv(init)
    requires forall s, a :: inv(s) && next(s, a).Some? ==> inv(next(s, a).value)
    requires Run(init, next, actions).Some?
    ensures inv(Run(init, next, actions).value)
  {
    if actions != [] {
      RunKeeps(init, next, inv, actions[..|actions| - 1]);
    }
  }

  lemma ReachesInit<S(!new), A(!new)>(init: S, next: (S, A) -> Option<S>)
    ensures Reaches(init, next, init)
  {
    var none: seq<A> := [];
    assert Run(init, next, none) == Some(init);
  }

  /** One more step from a state reached. */
  lemma ReachesNext<S(!new), A(!new)>(init: S, next: (S, A) -> Option<S>, s: S, a: A)
    requires Reaches(init, next, s) && next(s, a).Some?
    ensures Reaches(init, next, next(s, a).value)
  {
    var actions: seq<A> :| Run(init, next, actions) == Some(s);
    var more := actions + [a];
    assert more[..|actions|] == actions;
    assert Run(init, next, more) == next(s, a);
  }
}
