/** What it means to keep some elements of a list, in order and with their repetitions. */
module Selections {

  /** Every position of an element that satisfies `p` is among `at`. */
  ghost predicate Covers<A(!new)>(xs: seq<A>, at: seq<nat>, p: A -> bool) {
    forall k: nat :: k < |xs| && p(xs[k]) ==> k in at
  }

  /**
   `ys` is `f` of the elements of `xs` at the positions `at`, which are, in order, those of the
   elements that satisfy `p`.
   */
  ghost predicate Selects<A(!new), B(!new)>(ys: seq<B>, xs: seq<A>, at: seq<nat>, p: A -> bool, f: A -> B) {
    && |at| == |ys|
    && (forall i, j :: 0 <= i < j < |at| ==> at[i] < at[j])
    && (forall i :: 0 <= i < |at| ==> at[i] < |xs| && p(xs[at[i]]) && ys[i] == f(xs[at[i]]))
    && Covers(xs, at, p)
  }

  lemma CoversMore<A(!new)>(xs: seq<A>, at: seq<nat>, p: A -> bool, x: A)
    requires Covers(xs, at, p)
    ensures Covers(xs + [x], if p(x) then at + [|xs|] else at, p)
  {
    forall k: nat | k < |xs + [x]| && p((xs + [x])[k]) ensures k in if p(x) then at + [|xs|] else at {
      if k < |xs| { assert p(xs[k]) && k in at; }
    }
  }

  lemma SelectsMore<A(!new), B(!new)>(ys: seq<B>, xs: seq<A>, at: seq<nat>, p: A -> bool, f: A -> B, x: A)
    returns (at': seq<nat>)
    requires Selects(ys, xs, at, p, f)
    ensures Selects(if p(x) then ys + [f(x)] else ys, xs + [x], at', p, f)
  {
    CoversMore(xs, at, p, x);
    at' := if p(x) then at + [|xs|] else at;
  }
}
