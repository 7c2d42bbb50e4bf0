/** Runs of a transition system: when an event can happen, and what it leads to. */
module Runs {

  ghost predicate Fits<S(!new), E(!new)>(enabled: (S, E) -> bool, after: (S, E) --> S) {
    forall s, e :: enabled(s, e) ==> after.requires(s, e)
  }

  /** Taking the events in order leads from one state to the other. */
  ghost predicate Reaches<S(!new), E(!new)>(enabled: (S, E) -> bool, after: (S, E) --> S, s: S, events: seq<E>, t: S)
    requires Fits(enabled, after)
    decreases |events|
  {
    if events == [] then s == t
    else enabled(s, events[0]) && Reaches(enabled, after, after(s, events[0]), events[1..], t)
  }

  lemma Nothing<S(!new), E(!new)>(enabled: (S, E) -> bool, after: (S, E) --> S, s: S)
    requires Fits(enabled, after)
    ensures Reaches(enabled, after, s, [], s)
  {
  }

  lemma One<S(!new), E(!new)>(enabled: (S, E) -> bool, after: (S, E) --> S, s: S, event: E)
    requires Fits(enabled, after)
    requires enabled(s, event)
    ensures Reaches(enabled, after, s, [event], after(s, event))
  {
    assert [event][1..] == [];
  }

  lemma {:induction false} Continue<S(!new), E(!new)>(enabled: (S, E) -> bool, after: (S, E) --> S,
                                                      s: S, events: seq<E>, t: S, more: seq<E>, u: S)
    requires Fits(enabled, after)
    requires Reaches(enabled, after, s, events, t) && Reaches(enabled, after, t, more, u)
    ensures Reaches(enabled, after, s, events + more, u)
    decreases |events|
  {
    if events == [] {
      assert events + more == more;
    } else {
      Continue(enabled, after, after(s, events[0]), events[1..], t, more, u);
      assert (events + more)[1..] == events[1..] + more;
    }
  }

  /** One event more at the end. */
  lemma OneMore<S(!new), E(!new)>(enabled: (S, E) -> bool, after: (S, E) --> S, s: S, events: seq<E>, t: S, event: E)
    requires Fits(enabled, after)
    requires Reaches(enabled, after, s, events, t) && enabled(t, event)
    ensures Reaches(enabled, after, s, events + [event], after(t, event))
  {
    One(enabled, after, t, event);
    Continue(enabled, after, s, events, t, [event], after(t, event));
  }
}
