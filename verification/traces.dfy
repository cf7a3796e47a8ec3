/**
 Runs of a deterministic event-driven machine: a step function maps a state
 and one event to the next state and the effects issued, and a run applies a
 sequence of events in order, concatenating the effects.
 */
module Traces {

  /** The state reached and the effects issued, in issue order. */
  datatype Trace<S, X> = Trace(final: S, effects: seq<X>)

  /** `evs` applied to `s` one event at a time. */
  function Run<S, E, X>(step: (S, E) -> Trace<S, X>, s: S, evs: seq<E>): Trace<S, X>
    decreases |evs|
  {
    if |evs| == 0 then Trace(s, [])
    else
      var o := step(s, evs[0]);
      var rest := Run(step, o.final, evs[1..]);
      Trace(rest.final, o.effects + rest.effects)
  }

  /** Running `a + b` is running `a`, then `b` from where `a` stopped: a run
      carries no state beyond the machine's own. */
  lemma {:induction false} RunAppend<S, E, X>(step: (S, E) -> Trace<S, X>, s: S, a: seq<E>, b: seq<E>)
    ensures Run(step, s, a + b).final == Run(step, Run(step, s, a).final, b).final
    ensures Run(step, s, a + b).effects == Run(step, s, a).effects + Run(step, Run(step, s, a).final, b).effects
    decreases |a|
  {
    if |a| == 0 {
      assert a + b == b;
    } else {
      var o := step(s, a[0]);
      assert (a + b)[0] == a[0];
      assert (a + b)[1..] == a[1..] + b;
      RunAppend(step, o.final, a[1..], b);
    }
  }

  /** A non-empty run is its first step followed by the run of the rest. */
  lemma RunCons<S, E, X>(step: (S, E) -> Trace<S, X>, s: S, evs: seq<E>)
    requires |evs| > 0
    ensures Run(step, s, evs).final == Run(step, step(s, evs[0]).final, evs[1..]).final
    ensures Run(step, s, evs).effects == step(s, evs[0]).effects + Run(step, step(s, evs[0]).final, evs[1..]).effects
  {
  }

  /** A run of one event is that event's step. */
  lemma RunSingle<S, E, X>(step: (S, E) -> Trace<S, X>, s: S, e: E)
    ensures Run(step, s, [e]) == step(s, e)
  {
    assert [e][1..] == [];
    assert step(s, e).effects + [] == step(s, e).effects;
  }

  /** A run of two events is the second step after the first. */
  lemma RunPair<S, E, X>(step: (S, E) -> Trace<S, X>, s: S, e1: E, e2: E)
    ensures Run(step, s, [e1, e2]).final == step(step(s, e1).final, e2).final
    ensures Run(step, s, [e1, e2]).effects == step(s, e1).effects + step(step(s, e1).final, e2).effects
  {
    assert [e1, e2][1..] == [e2];
    RunSingle(step, step(s, e1).final, e2);
  }
}
