/** Runs of a machine given by its partial step function. */
module Runs {
  import opened Options

  /** Where `events` lead from `s`; None when one of them cannot happen. */
  function Run<S, E>(step: (S, E) -> Option<S>, s: S, events: seq<E>): Option<S> {
    if events == [] then Some(s)
    else
      match Run(step, s, events[..|events| - 1])
      case None => None
      case Some(mid) => step(mid, events[|events| - 1])
  }

  /** A run goes on by an event that can happen. */
  lemma Logged<S, E>(step: (S, E) -> Option<S>, start: S, events: seq<E>, mid: S, e: E) returns (log: seq<E>)
    requires Run(step, start, events) == Some(mid) && step(mid, e).Some?
    ensures log == events + [e] && Run(step, start, log) == step(mid, e)
  {
    log := events + [e];
    assert log[..|events|] == events;
  }

  /** One run after another is a run. */
  lemma {:induction false} Joined<S, E>(step: (S, E) -> Option<S>, start: S, events: seq<E>, mid: S, more: seq<E>)
    requires Run(step, start, events) == Some(mid)
    ensures Run(step, start, events + more) == Run(step, mid, more)
    decreases |more|
  {
    if more == [] {
      assert events + more == events;
    } else {
      Joined(step, start, events, mid, more[..|more| - 1]);
      assert (events + more)[..|events + more| - 1] == events + more[..|more| - 1];
    }
  }

  /** No step leaves `inv`. */
  ghost predicate Keeps<S(!new), E(!new)>(step: (S, E) -> Option<S>, inv: S -> bool) {
    forall s, e :: inv(s) && step(s, e).Some? ==> inv(step(s, e).value)
  }

  /** What no step leaves, no run leaves. */
  lemma {:induction false} Always<S(!new), E(!new)>(step: (S, E) -> Option<S>, inv: S -> bool, s: S, events: seq<E>, s': S)
    requires Keeps(step, inv) && inv(s) && Run(step, s, events) == Some(s')
    ensures inv(s')
    decreases |events|
  {
    if events != [] {
      Always(step, inv, s, events[..|events| - 1], Run(step, s, events[..|events| - 1]).value);
    }
  }
}
