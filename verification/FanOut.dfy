/**
 The fan-outs of internal/server/tools.go and internal/embed/fanout.go: one goroutine per
 target, each writing its own slot of a results slice, then a scan for a failed entry.
 */
module FanOut {
  import opened Outcomes
  import opened Targets
  import opened ResolvePatterns

  /** An order in which `n` goroutines complete: each once, none left out. */
  ghost predicate CompletionOrder(order: seq<nat>, n: nat) {
    && (forall j :: 0 <= j < |order| ==> order[j] < n)
    && (forall i: nat :: i < n ==> i in order)
    && (forall i, j :: 0 <= i < j < |order| ==> order[i] != order[j])
  }

  /** The sequential answer: `call` applied to each target, by position. */
  function Answers<R>(targets: seq<string>, call: string -> R): seq<R> {
    seq(|targets|, i requires 0 <= i < |targets| => call(targets[i]))
  }

  /**
   Goroutine `i` comes up with `answer(i)`, whatever it shares with the others on the way. In
   whatever order they complete, slot `i` ends up with the answer of goroutine `i`, and the call
   is an error if and only if some entry failed. Where the answers are those of a function of the
   target, that is the function applied to the targets one by one.
   */
  method RunFanOut<R>(targets: seq<string>, answer: nat -> R, failed: R -> bool, zero: R, order: seq<nat>)
    returns (results: array<R>, isError: bool)
    requires CompletionOrder(order, |targets|)
    ensures results.Length == |targets| && forall i: nat :: i < |targets| ==> results[i] == answer(i)
    ensures isError <==> exists i: nat :: i < |targets| && failed(answer(i))
    ensures forall call: string -> R :: (forall i: nat :: i < |targets| ==> answer(i) == call(targets[i])) ==>
              results[..] == Answers(targets, call) && (isError <==> exists t :: t in targets && failed(call(t)))
  {
    results := new R[|targets|](_ => zero);
    for done := 0 to |order|
      invariant results.Length == |targets|
      invariant forall j :: 0 <= j < done ==> results[order[j]] == answer(order[j])
    {
      results[order[done]] := answer(order[done]);
    }
    forall i: nat | i < |targets| ensures results[i] == answer(i) {
      assert i in order;
    }
    isError := false;
    for i := 0 to results.Length
      invariant !isError && forall j :: 0 <= j < i ==> !failed(results[j])
    {
      if failed(results[i]) {
        isError := true;
        break;
      }
    }
    forall call: string -> R | forall i: nat :: i < |targets| ==> answer(i) == call(targets[i])
      ensures results[..] == Answers(targets, call) && (isError <==> exists t :: t in targets && failed(call(t)))
    {
      if t :| t in targets && failed(call(t)) {
        var i: nat :| i < |targets| && targets[i] == t;
        assert failed(answer(i));
      }
    }
  }

  lemma {:induction false} DistinctCount(xs: seq<string>, t: string)
    requires NoDuplicates(xs)
    ensures multiset(xs)[t] == if t in xs then 1 else 0
  {
    if xs != [] {
      DistinctCount(xs[1..], t);
      assert xs == [xs[0]] + xs[1..];
    }
  }

  /** Resolved targets are distinct, so a fan-out over them handles each target exactly once. */
  lemma ResolvedHandledOnce(patterns: seq<string>, known: Result<seq<Cluster>>, strict: bool, t: string)
    requires Resolved(patterns, known, strict).Some?
    ensures var targets := Resolved(patterns, known, strict).value;
            multiset(targets)[t] == if t in targets then 1 else 0
  {
    var expanded := if strict then patterns
                    else Concatenation(patterns, if AllExact(patterns) then [] else known.value);
    DedupIsFirstSeen(expanded);
    DistinctCount(Dedup(expanded), t);
  }
}
