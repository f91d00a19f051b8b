/** Runs of a machine given by its step function: the states it goes through, one action each. */
module Runs {

  /** Action `i` leads from state `i` to the next. */
  ghost predicate Goes<S, A>(step: (S, A) -> S, trace: seq<S>, run: seq<A>, i: nat) {
    i < |run| && i + 1 < |trace| && trace[i + 1] == step(trace[i], run[i])
  }

  /** `trace` lists the states `run` goes through. */
  ghost predicate Traces<S, A>(step: (S, A) -> S, trace: seq<S>, run: seq<A>) {
    |trace| == |run| + 1 && forall i | 0 <= i < |run| :: Goes(step, trace, run, i)
  }

  lemma Advance<S, A>(step: (S, A) -> S, trace: seq<S>, run: seq<A>, i: nat)
    requires Traces(step, trace, run) && i < |run|
    ensures trace[i + 1] == step(trace[i], run[i])
  {
    assert Goes(step, trace, run, i);
  }

  /** A run can always go on. */
  lemma TraceGrows<S, A>(step: (S, A) -> S, trace: seq<S>, run: seq<A>, a: A)
    requires Traces(step, trace, run)
    ensures Traces(step, trace + [step(trace[|run|], a)], run + [a])
  {
    var trace', run' := trace + [step(trace[|run|], a)], run + [a];
    forall i | 0 <= i < |run'|
      ensures Goes(step, trace', run', i)
    {
      if i < |run| { assert Goes(step, trace, run, i); }
    }
  }

  /** Every list of actions is a run from every state. */
  lemma {:induction false} EveryRunHasATrace<S, A>(step: (S, A) -> S, s: S, run: seq<A>) returns (trace: seq<S>)
    ensures Traces(step, trace, run) && trace[0] == s
  {
    if |run| == 0 {
      trace := [s];
    } else {
      var k := |run| - 1;
      var before := EveryRunHasATrace(step, s, run[..k]);
      TraceGrows(step, before, run[..k], run[k]);
      trace := before + [step(before[k], run[k])];
      assert run[..k] + [run[k]] == run;
    }
  }

  /** And it goes through the same states whenever it starts in the same. */
  lemma {:induction false} TracesAgree<S, A>(step: (S, A) -> S, trace: seq<S>, trace': seq<S>, run: seq<A>, i: nat)
    requires Traces(step, trace, run) && Traces(step, trace', run) && trace[0] == trace'[0] && i <= |run|
    ensures trace[i] == trace'[i]
  {
    if i > 0 {
      TracesAgree(step, trace, trace', run, i - 1);
      assert Goes(step, trace, run, i - 1) && Goes(step, trace', run, i - 1);
    }
  }
}
