/**
 Erasing actions from a run. When every erased action keeps a relation between two
 machines, and every other action can be followed by the second one, then the second
 machine has a run of the remaining actions that ends in a related state.
 */
module Erasure {
  ghost predicate IsChain<S, A>(step: (S, A, S) -> bool, states: seq<S>, actions: seq<A>) {
    && |states| == |actions| + 1
    && forall i :: 0 <= i < |actions| ==> step(states[i], actions[i], states[i + 1])
  }

  /** The actions that are left; whether one is erased may depend on the state before it. */
  ghost function Remaining<S, A>(erased: (S, A) -> bool, states: seq<S>, actions: seq<A>): seq<A>
    requires |states| == |actions| + 1
    decreases |actions|
  {
    if actions == [] then []
    else
      var n := |actions| - 1;
      Remaining(erased, states[..n + 1], actions[..n]) + if erased(states[n], actions[n]) then [] else [actions[n]]
  }

  ghost predicate Answers<S, T, A>(
    next: (T, A, T) -> bool, rel: (S, T) -> bool, erased: bool, a: A, s': S, t: T, t': T)
  {
    rel(s', t') && if erased then t' == t else next(t, a, t')
  }

  ghost predicate Simulates<S(!new), T(!new), A(!new)>(
    step: (S, A, S) -> bool, next: (T, A, T) -> bool, rel: (S, T) -> bool, erased: (S, A) -> bool)
  {
    forall s, a, s', t ::
      step(s, a, s') && rel(s, t) ==> exists t' :: Answers(next, rel, erased(s, a), a, s', t, t')
  }

  lemma ChainPrefix<S, A>(step: (S, A, S) -> bool, states: seq<S>, actions: seq<A>)
    requires IsChain(step, states, actions) && actions != []
    ensures IsChain(step, states[..|actions|], actions[..|actions| - 1])
  {
    forall i | 0 <= i < |actions| - 1 ensures step(states[i], actions[i], states[i + 1]) {
    }
  }

  lemma ChainExtends<S, A>(step: (S, A, S) -> bool, states: seq<S>, actions: seq<A>, a: A, last: S)
    requires IsChain(step, states, actions) && step(states[|actions|], a, last)
    ensures IsChain(step, states + [last], actions + [a])
  {
    var more, acts := states + [last], actions + [a];
    forall i | 0 <= i < |acts| ensures step(more[i], acts[i], more[i + 1]) {
      if i < |actions| {
        assert more[i] == states[i] && more[i + 1] == states[i + 1] && acts[i] == actions[i];
      }
    }
  }

  // A run of the second machine from `start` to a state that is related to `end`.
  ghost predicate IsShadow<S, T, A>(
    next: (T, A, T) -> bool, rel: (S, T) -> bool, start: T, end: S, shadow: seq<T>, actions: seq<A>)
  {
    IsChain(next, shadow, actions) && shadow[0] == start && rel(end, shadow[|actions|])
  }

  lemma {:induction false} ErasedRun<S(!new), T(!new), A(!new)>(
    step: (S, A, S) -> bool, next: (T, A, T) -> bool, rel: (S, T) -> bool, erased: (S, A) -> bool,
    states: seq<S>, actions: seq<A>, start: T)
    requires IsChain(step, states, actions) && Simulates(step, next, rel, erased) && rel(states[0], start)
    ensures exists shadow ::
      IsShadow(next, rel, start, states[|actions|], shadow, Remaining(erased, states, actions))
    decreases |actions|
  {
    var n := |actions|;
    var left := Remaining(erased, states, actions);
    if n == 0 {
      assert IsShadow(next, rel, start, states[0], [start], left);
    } else {
      ChainPrefix(step, states, actions);
      ErasedRun(step, next, rel, erased, states[..n], actions[..n - 1], start);
      var before := Remaining(erased, states[..n], actions[..n - 1]);
      var shadow :| IsShadow(next, rel, start, states[n - 1], shadow, before);
      var s, a, t := states[n - 1], actions[n - 1], shadow[|before|];
      assert step(s, a, states[n]) && rel(s, t);
      var t' :| Answers(next, rel, erased(s, a), a, states[n], t, t');
      if erased(s, a) {
        assert left == before;
        assert IsShadow(next, rel, start, states[n], shadow, left);
      } else {
        assert left == before + [a];
        ChainExtends(next, shadow, before, a, t');
        assert IsShadow(next, rel, start, states[n], shadow + [t'], left);
      }
    }
  }

  /** What every action that is not erased satisfies, the remaining ones satisfy. */
  lemma {:induction false} RemainingSatisfy<S, A>(
    erased: (S, A) -> bool, p: A -> bool, states: seq<S>, actions: seq<A>)
    requires |states| == |actions| + 1
    requires forall i :: 0 <= i < |actions| && !erased(states[i], actions[i]) ==> p(actions[i])
    ensures forall k :: 0 <= k < |Remaining(erased, states, actions)| ==> p(Remaining(erased, states, actions)[k])
    decreases |actions|
  {
    if actions != [] {
      var n := |actions| - 1;
      forall i | 0 <= i < n && !erased(states[..n + 1][i], actions[..n][i]) ensures p(actions[..n][i]) {
        assert states[..n + 1][i] == states[i] && actions[..n][i] == actions[i];
      }
      RemainingSatisfy(erased, p, states[..n + 1], actions[..n]);
    }
  }
}
