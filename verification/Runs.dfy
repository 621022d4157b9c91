/** Runs of a system given by its step function. */
module Runs {
  import opened Options

  ghost function Run<S, A>(next: (S, A) -> Option<S>, s: S, steps: seq<A>): Option<S> {
    if steps == [] then Some(s)
    else match Run(next, s, steps[..|steps| - 1])
         case None => None
         case Some(t) => next(t, steps[|steps| - 1])
  }

  /** What holds at the start and is kept by every step holds throughout; and so for the steps taken. */
  lemma {:induction false} Induction<S(!new), A(!new)>(next: (S, A) -> Option<S>, inv: S -> bool, ok: A -> bool, s: S,
                                                       steps: seq<A>, t: S)
    requires inv(s) && Run(next, s, steps) == Some(t)
    requires forall x, a :: inv(x) && next(x, a).Some? ==> inv(next(x, a).value) && ok(a)
    ensures inv(t) && forall i :: 0 <= i < |steps| ==> ok(steps[i])
  {
    if steps == [] {
    } else {
      var init := steps[..|steps| - 1];
      Induction(next, inv, ok, s, init, Run(next, s, init).value);
      assert forall i :: 0 <= i < |init| ==> init[i] == steps[i];
    }
  }

  lemma Extended<S, A>(next: (S, A) -> Option<S>, s: S, steps: seq<A>, t: S, a: A)
    requires Run(next, s, steps) == Some(t)
    ensures Run(next, s, steps + [a]) == next(t, a)
  {
    assert (steps + [a])[..|steps|] == steps;
  }

  lemma {:induction false} Concatenated<S, A>(next: (S, A) -> Option<S>, s: S, first: seq<A>, t: S, second: seq<A>)
    requires Run(next, s, first) == Some(t)
    ensures Run(next, s, first + second) == Run(next, t, second)
  {
    if second == [] {
      assert first + second == first;
    } else {
      var init := second[..|second| - 1];
      Concatenated(next, s, first, t, init);
      assert (first + second)[..|first + second| - 1] == first + init;
    }
  }
}
