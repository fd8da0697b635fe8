/** The shape of the sample loops of the outbound mixer: walk a sequence in order,
    carry a state from element to element, and produce one output per input. */
module Scan {
  /** `step` is defined on every state that satisfies `ok` and keeps `ok`. */
  ghost predicate Closed<S(!new), X(!new), Y>(step: (S, X) --> (Y, S), ok: S -> bool)
  {
    forall s, x :: ok(s) ==> step.requires(s, x) && ok(step(s, x).1)
  }

  /** The outputs of a pass over xs from state s, and the state it leaves. */
  function Run<S(!new), X(!new), Y>(step: (S, X) --> (Y, S), ok: S -> bool, s: S, xs: seq<X>): (r: (seq<Y>, S))
    requires Closed(step, ok) && ok(s)
    ensures |r.0| == |xs| && ok(r.1)
    decreases |xs|
  {
    if xs == [] then ([], s)
    else
      var last := Run(step, ok, s, xs[..|xs| - 1]);
      var y := step(last.1, xs[|xs| - 1]);
      (last.0 + [y.0], y.1)
  }

  /** A pass over p + q is a pass over p and then a pass over q from the state p leaves. */
  lemma {:induction false} RunSplit<S(!new), X(!new), Y>(step: (S, X) --> (Y, S), ok: S -> bool, s: S, p: seq<X>, q: seq<X>)
    requires Closed(step, ok) && ok(s)
    ensures Run(step, ok, s, p + q).0 == Run(step, ok, s, p).0 + Run(step, ok, Run(step, ok, s, p).1, q).0
    ensures Run(step, ok, s, p + q).1 == Run(step, ok, Run(step, ok, s, p).1, q).1
    decreases |q|
  {
    var mid := Run(step, ok, s, p).1;
    if q == [] {
      assert p + q == p;
    } else {
      var init := q[..|q| - 1];
      RunSplit(step, ok, s, p, init);
      var pq := p + q;
      assert pq[..|pq| - 1] == p + init;
      assert pq[|pq| - 1] == q[|q| - 1];
      var whole := Run(step, ok, s, p + init);
      var part := Run(step, ok, mid, init);
      var y := step(part.1, q[|q| - 1]);
      assert Run(step, ok, s, pq) == (whole.0 + [y.0], y.1);
      assert Run(step, ok, mid, q) == (part.0 + [y.0], y.1);
      assert whole.0 + [y.0] == Run(step, ok, s, p).0 + (part.0 + [y.0]);
    }
  }

  /** Element i of a pass: the step applied to the state left by the first i elements;
      the state after i + 1 elements is the state that step leaves. */
  lemma RunNext<S(!new), X(!new), Y>(step: (S, X) --> (Y, S), ok: S -> bool, s: S, xs: seq<X>, i: nat)
    requires Closed(step, ok) && ok(s) && i < |xs|
    ensures Run(step, ok, s, xs).0[i] == step(Run(step, ok, s, xs[..i]).1, xs[i]).0
    ensures Run(step, ok, s, xs[..i + 1]).1 == step(Run(step, ok, s, xs[..i]).1, xs[i]).1
  {
    assert xs[..i + 1][..i] == xs[..i];
    RunSplit(step, ok, s, xs[..i + 1], xs[i + 1..]);
    assert xs[..i + 1] + xs[i + 1..] == xs;
  }
}
