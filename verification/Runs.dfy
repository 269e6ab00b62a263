/** Runs, under a step function or a step relation: adding a call, what leads where, and what a
    run can gain at most when every step pays for what it gains. */
module Runs {
  import opened Collections

  /** Where actions lead, each of which must be possible when its turn comes. */
  function After<S, A>(next: (S, A) -> Option<S>, s: S, actions: seq<A>): Option<S>
    decreases |actions|
  {
    if actions == [] then Some(s)
    else
      match next(s, actions[0])
      case None => None
      case Some(t) => After(next, t, actions[1..])
  }

  lemma {:induction false} AfterOneMore<S, A>(next: (S, A) -> Option<S>, s: S, first: seq<A>, a: A)
    requires After(next, s, first).Some?
    ensures After(next, s, first + [a]) == next(After(next, s, first).value, a)
    decreases |first|
  {
    var all := first + [a];
    if first == [] {
      assert all[0] == a && all[1..] == [];
    } else {
      assert all[0] == first[0] && all[1..] == first[1..] + [a];
      AfterOneMore(next, next(s, first[0]).value, first[1..], a);
    }
  }

  ghost predicate IsRun<S(!new), C>(step: (S, C, S) -> bool, calls: seq<C>, states: seq<S>) {
    && |states| == |calls| + 1
    && forall i: nat {:trigger StepAt(step, calls, states, i)} :: i < |calls| ==> StepAt(step, calls, states, i)
  }

  ghost predicate StepAt<S, C>(step: (S, C, S) -> bool, calls: seq<C>, states: seq<S>, i: nat)
    requires |states| == |calls| + 1 && i < |calls|
  {
    step(states[i], calls[i], states[i + 1])
  }

  /** Every call of the run is one of these. */
  ghost predicate Only<C>(allowed: C -> bool, calls: seq<C>) {
    forall i {:trigger calls[i]} :: 0 <= i < |calls| ==> allowed(calls[i])
  }

  lemma RunPlus<S(!new), C>(step: (S, C, S) -> bool, calls: seq<C>, states: seq<S>, call: C, next: S)
    requires IsRun(step, calls, states) && step(states[|calls|], call, next)
    ensures IsRun(step, calls + [call], states + [next])
  {
    var more, later := calls + [call], states + [next];
    forall i: nat | i < |more| ensures StepAt(step, more, later, i) {
      if i < |calls| {
        assert StepAt(step, calls, states, i);
      }
    }
  }

  /** State q can be reached from p by allowed calls. */
  ghost predicate Leads<S(!new), C(!new)>(step: (S, C, S) -> bool, allowed: C -> bool, p: S, q: S) {
    exists calls, states ::
      IsRun(step, calls, states) && Only(allowed, calls) && states[0] == p && states[|calls|] == q
  }

  lemma LeadsNowhere<S(!new), C(!new)>(step: (S, C, S) -> bool, allowed: C -> bool, p: S)
    ensures Leads(step, allowed, p, p)
  {
    var calls: seq<C> := [];
    assert IsRun(step, calls, [p]) && Only(allowed, calls) && [p][0] == p;
  }

  lemma LeadsOn<S(!new), C(!new)>(step: (S, C, S) -> bool, allowed: C -> bool, p: S, q: S, call: C, next: S)
    requires Leads(step, allowed, p, q) && step(q, call, next) && allowed(call)
    ensures Leads(step, allowed, p, next)
  {
    var calls, states :|
      IsRun(step, calls, states) && Only(allowed, calls) && states[0] == p && states[|calls|] == q;
    RunPlus(step, calls, states, call, next);
    assert (states + [next])[|calls + [call]|] == next && (states + [next])[0] == p;
    assert Only(allowed, calls + [call]);
  }

  /** Every allowed step from a good state ends in one, and pays for its gain out of what is left. */
  ghost predicate Pays<S(!new), C(!new)>(step: (S, C, S) -> bool, allowed: C -> bool, good: S -> bool,
      gain: S -> int, left: S -> int)
  {
    forall s, c, t :: step(s, c, t) && allowed(c) && good(s) ==> good(t) && gain(t) - gain(s) <= left(s) - left(t)
  }

  lemma {:induction false} RunPays<S(!new), C(!new)>(step: (S, C, S) -> bool, allowed: C -> bool, good: S -> bool,
      gain: S -> int, left: S -> int, calls: seq<C>, states: seq<S>, k: nat)
    requires Pays(step, allowed, good, gain, left)
    requires IsRun(step, calls, states) && Only(allowed, calls) && k < |states| && good(states[0])
    ensures good(states[k]) && gain(states[k]) - gain(states[0]) <= left(states[0]) - left(states[k])
  {
    if k > 0 {
      RunPays(step, allowed, good, gain, left, calls, states, k - 1);
      assert StepAt(step, calls, states, k - 1) && allowed(calls[k - 1]);
    }
  }

  ghost predicate NoneOf<S, C>(ends: (S, C) -> bool, calls: seq<C>, states: seq<S>, from: nat, to: nat)
    requires to <= |calls| <= |states|
  {
    forall i {:trigger calls[i]} :: from <= i < to ==> !ends(states[i], calls[i])
  }

  /** Some call before the k-th started it, and none since then ended it. */
  ghost predicate Since<S, C>(starts: (S, C) -> bool, ends: (S, C) -> bool, calls: seq<C>, states: seq<S>, k: nat)
    requires k <= |calls| <= |states|
  {
    exists j: nat {:trigger calls[j]} :: j < k && starts(states[j], calls[j]) && NoneOf(ends, calls, states, j + 1, k)
  }

  /** What every step starts, ends or leaves holds exactly since it was started. */
  lemma {:induction false} HoldsSince<S, C>(holds: S -> bool, starts: (S, C) -> bool, ends: (S, C) -> bool,
      calls: seq<C>, states: seq<S>, k: nat)
    requires k <= |calls| && |states| == |calls| + 1 && !holds(states[0])
    requires forall i: nat {:trigger calls[i]} :: i < k ==>
      (holds(states[i + 1]) <==> starts(states[i], calls[i]) || (holds(states[i]) && !ends(states[i], calls[i])))
    ensures holds(states[k]) <==> Since(starts, ends, calls, states, k)
  {
    if k > 0 {
      HoldsSince(holds, starts, ends, calls, states, k - 1);
      assert holds(states[k]) <==>
        starts(states[k - 1], calls[k - 1]) || (holds(states[k - 1]) && !ends(states[k - 1], calls[k - 1]));
      if starts(states[k - 1], calls[k - 1]) {
        assert NoneOf(ends, calls, states, k, k);
      } else if !ends(states[k - 1], calls[k - 1]) && Since(starts, ends, calls, states, k - 1) {
        var j: nat :| j < k - 1 && starts(states[j], calls[j]) && NoneOf(ends, calls, states, j + 1, k - 1);
        assert NoneOf(ends, calls, states, j + 1, k);
      }
    }
  }
}
