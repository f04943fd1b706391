/** Runs of a state machine whose step function says which events are enabled. */
module Runs {
  import opened Prelude

  /** The state after the events `es`, or None when one of them is not enabled in its turn. */
  function Exec<S, E>(step: (S, E) -> Option<S>, s: S, es: seq<E>): Option<S>
    decreases |es|
  {
    if es == [] then Some(s)
    else
      match step(s, es[0])
      case None => None
      case Some(next) => Exec(step, next, es[1..])
  }

  /** A predicate every enabled event keeps holds at the end of every run. */
  lemma {:induction false} Invariant<S(!new), E(!new)>(step: (S, E) -> Option<S>, inv: S -> bool, s: S, es: seq<E>)
    requires inv(s)
    requires forall p, e :: inv(p) && step(p, e).Some? ==> inv(step(p, e).value)
    requires Exec(step, s, es).Some?
    ensures inv(Exec(step, s, es).value)
    decreases |es|
  {
    if es != [] {
      Invariant(step, inv, step(s, es[0]).value, es[1..]);
    }
  }

  /** Running `es` and then `more` is running their concatenation. */
  lemma {:induction false} ExecAppend<S, E>(step: (S, E) -> Option<S>, s: S, es: seq<E>, more: seq<E>)
    requires Exec(step, s, es).Some?
    ensures Exec(step, s, es + more) == Exec(step, Exec(step, s, es).value, more)
    decreases |es|
  {
    if es == [] {
      assert es + more == more;
    } else {
      ExecAppend(step, step(s, es[0]).value, es[1..], more);
      assert (es + more)[1..] == es[1..] + more;
    }
  }

  /**
   What other threads do between two actions of one thread: those of `es` that are not `mine`, each if
   it is enabled in its turn.
   */
  function Interleave<S, E>(step: (S, E) -> Option<S>, mine: E -> bool, s: S, es: seq<E>): S
    decreases |es|
  {
    if es == [] then s
    else if !mine(es[0]) && step(s, es[0]).Some? then Interleave(step, mine, step(s, es[0]).value, es[1..])
    else Interleave(step, mine, s, es[1..])
  }

  /** Nobody else gets in at any point. */
  ghost predicate Undisturbed<E(!new)>(others: int -> seq<E>) { forall i :: others(i) == [] }

  /** Interference is itself a run. */
  lemma {:induction false} InterleaveRun<S, E>(step: (S, E) -> Option<S>, mine: E -> bool, s: S, es: seq<E>) returns (run: seq<E>)
    ensures Exec(step, s, run) == Some(Interleave(step, mine, s, es))
    ensures es == [] ==> run == []
    ensures forall e :: e in run ==> !mine(e)
    decreases |es|
  {
    if es == [] {
      run := [];
    } else if !mine(es[0]) && step(s, es[0]).Some? {
      var rest := InterleaveRun(step, mine, step(s, es[0]).value, es[1..]);
      run := [es[0]] + rest;
      assert run[0] == es[0] && run[1..] == rest;
    } else {
      run := InterleaveRun(step, mine, s, es[1..]);
    }
  }

  /** What the events that are not `mine` keep, interference keeps. */
  lemma {:induction false} InterleaveKeeps<S(!new), E(!new)>(step: (S, E) -> Option<S>, mine: E -> bool, inv: S -> bool, s: S, es: seq<E>)
    requires inv(s)
    requires forall p, e :: inv(p) && !mine(e) && step(p, e).Some? ==> inv(step(p, e).value)
    ensures inv(Interleave(step, mine, s, es))
    decreases |es|
  {
    if es == [] {
    } else if !mine(es[0]) && step(s, es[0]).Some? {
      InterleaveKeeps(step, mine, inv, step(s, es[0]).value, es[1..]);
    } else {
      InterleaveKeeps(step, mine, inv, s, es[1..]);
    }
  }

  /** A run followed by one more event. */
  lemma Extended<S, E>(step: (S, E) -> Option<S>, s0: S, run: seq<E>, s: S, e: E, s': S) returns (longer: seq<E>)
    requires Exec(step, s0, run) == Some(s) && step(s, e) == Some(s')
    ensures longer == run + [e] && Exec(step, s0, longer) == Some(s')
  {
    ExecAppend(step, s0, run, [e]);
    longer := run + [e];
  }

  /** Consecutive states linked by enabled events make a run. */
  lemma {:induction false} Sequence<S, E>(step: (S, E) -> Option<S>, s: S, es: seq<E>, states: seq<S>)
    requires |states| == |es| + 1 && states[0] == s
    requires forall i :: 0 <= i < |es| ==> step(states[i], es[i]) == Some(states[i + 1])
    ensures Exec(step, s, es) == Some(states[|es|])
    decreases |es|
  {
    if es != [] {
      Sequence(step, states[1], es[1..], states[1..]);
    }
  }
}
