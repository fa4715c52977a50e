// Runs of a state machine that is given by its steps.
module Runs {
  // Event k takes the k-th state of a run to the next.
  predicate Turn<S, E>(step: (S, E, S) -> bool, states: seq<S>, events: seq<E>, k: nat)
    requires k < |events| && k + 1 < |states|
  {
    step(states[k], events[k], states[k + 1])
  }

  ghost predicate Trace<S, E>(step: (S, E, S) -> bool, states: seq<S>, events: seq<E>)
  {
    |states| == |events| + 1
    && forall k {:trigger Turn(step, states, events, k)} | 0 <= k < |events| :: Turn(step, states, events, k)
  }

  // The events, one after another, lead from one state to another.
  ghost predicate Leads<S(!new), E>(step: (S, E, S) -> bool, s: S, events: seq<E>, after: S)
  {
    exists states :: Trace(step, states, events) && states[0] == s && states[|events|] == after
  }

  lemma Stay<S(!new), E>(step: (S, E, S) -> bool, s: S)
    ensures Leads(step, s, [], s)
  {
    assert Trace<S, E>(step, [s], []);
  }

  lemma GoOn<S(!new), E>(step: (S, E, S) -> bool, s: S, events: seq<E>, mid: S, event: E, after: S)
    requires Leads(step, s, events, mid) && step(mid, event, after)
    ensures Leads(step, s, events + [event], after)
  {
    var states :| Trace(step, states, events) && states[0] == s && states[|events|] == mid;
    var longer, more := states + [after], events + [event];
    forall k | 0 <= k < |more| ensures Turn(step, longer, more, k) {
      if k < |events| { assert Turn(step, states, events, k); }
    }
    assert Trace(step, longer, more);
  }

  // The state before the last event.
  lemma GoBack<S(!new), E>(step: (S, E, S) -> bool, s: S, events: seq<E>, after: S) returns (mid: S)
    requires Leads(step, s, events, after) && events != []
    ensures Leads(step, s, events[..|events| - 1], mid) && step(mid, events[|events| - 1], after)
  {
    var states :| Trace(step, states, events) && states[0] == s && states[|events|] == after;
    var n := |events| - 1;
    mid := states[n];
    assert Turn(step, states, events, n);
    var fewer, earlier := states[..n + 1], events[..n];
    forall k | 0 <= k < n ensures Turn(step, fewer, earlier, k) {
      assert Turn(step, states, events, k);
    }
    assert Trace(step, fewer, earlier);
  }

  lemma Nowhere<S(!new), E>(step: (S, E, S) -> bool, s: S, events: seq<E>, after: S)
    requires Leads(step, s, events, after) && events == []
    ensures after == s
  {
  }

  lemma {:induction false} Join<S(!new), E>(step: (S, E, S) -> bool, s: S, first: seq<E>, mid: S, second: seq<E>,
      after: S)
    requires Leads(step, s, first, mid) && Leads(step, mid, second, after)
    ensures Leads(step, s, first + second, after)
    decreases |second|
  {
    hide Leads;
    if second == [] {
      Nowhere(step, mid, second, after);
      assert first + second == first;
    } else {
      var n := |second| - 1;
      var last := GoBack(step, mid, second, after);
      Join(step, s, first, mid, second[..n], last);
      GoOn(step, s, first + second[..n], last, second[n], after);
      assert first + second[..n] + [second[n]] == first + second;
    }
  }
}
