/**
 Turning a list of target patterns into exact targets (internal/capi/resolve_patterns.go): the
 loops that parse, expand and deduplicate, and what their result means.
 */
module ResolvePatterns {
  import opened Outcomes
  import opened Text
  import opened Targets

  // ---------------------------------------------------------------- first-seen deduplication

  function Dedup(xs: seq<string>): seq<string> {
    if xs == [] then [] else
      var front := Dedup(xs[..|xs| - 1]);
      if xs[|xs| - 1] in front then front else front + [xs[|xs| - 1]]
  }

  ghost predicate NoDuplicates(xs: seq<string>) {
    forall i, j :: 0 <= i < j < |xs| ==> xs[i] != xs[j]
  }

  function FirstIndex(xs: seq<string>, x: string): nat
    requires x in xs
  {
    if xs[0] == x then 0 else 1 + FirstIndex(xs[1..], x)
  }

  /** `r` holds the elements of `xs`, each once, in the order in which `xs` first shows them. */
  ghost predicate FirstSeen(r: seq<string>, xs: seq<string>) {
    && NoDuplicates(r)
    && (forall x :: x in r <==> x in xs)
    && (forall i, j :: 0 <= i < j < |r| && r[i] in xs && r[j] in xs ==> FirstIndex(xs, r[i]) < FirstIndex(xs, r[j]))
  }

  lemma {:induction false} FirstIndexIn(xs: seq<string>, x: string)
    requires x in xs
    ensures FirstIndex(xs, x) < |xs| && xs[FirstIndex(xs, x)] == x
  {
    if xs[0] != x { FirstIndexIn(xs[1..], x); }
  }

  lemma {:induction false} FirstIndexOfConcat(xs: seq<string>, ys: seq<string>, x: string)
    requires x in xs || x in ys
    ensures x in xs + ys
    ensures FirstIndex(xs + ys, x) == if x in xs then FirstIndex(xs, x) else |xs| + FirstIndex(ys, x)
  {
    assert x in xs + ys;
    if xs == [] {
      assert xs + ys == ys;
    } else if xs[0] != x {
      assert (xs + ys)[1..] == xs[1..] + ys;
      FirstIndexOfConcat(xs[1..], ys, x);
    }
  }

  lemma {:induction false} DedupMembers(xs: seq<string>, x: string)
    ensures x in Dedup(xs) <==> x in xs
  {
    if xs != [] {
      DedupMembers(xs[..|xs| - 1], x);
      assert xs == xs[..|xs| - 1] + [xs[|xs| - 1]];
    }
  }

  lemma {:induction false} DedupIsFirstSeen(xs: seq<string>)
    ensures FirstSeen(Dedup(xs), xs)
  {
    forall x ensures x in Dedup(xs) <==> x in xs { DedupMembers(xs, x); }
    if xs != [] {
      var front, last := xs[..|xs| - 1], xs[|xs| - 1];
      assert xs == front + [last];
      DedupIsFirstSeen(front);
      forall i, j | 0 <= i < j < |Dedup(xs)| ensures FirstIndex(xs, Dedup(xs)[i]) < FirstIndex(xs, Dedup(xs)[j]) {
        DedupMembers(front, Dedup(xs)[i]);
        DedupMembers(front, Dedup(xs)[j]);
        FirstIndexOfConcat(front, [last], Dedup(xs)[i]);
        FirstIndexOfConcat(front, [last], Dedup(xs)[j]);
        if Dedup(xs)[i] in front { FirstIndexIn(front, Dedup(xs)[i]); }
      }
    }
  }

  lemma {:induction false} DedupPrefix(xs: seq<string>, ys: seq<string>)
    ensures Dedup(xs) <= Dedup(xs + ys)
  {
    if ys == [] {
      assert xs + ys == xs;
    } else {
      assert (xs + ys)[..|xs + ys| - 1] == xs + ys[..|ys| - 1];
      DedupPrefix(xs, ys[..|ys| - 1]);
    }
  }

  /** dedupePreserveOrder. */
  method DedupePreserveOrder(xs: seq<string>) returns (out: seq<string>)
    ensures out == Dedup(xs)
  {
    var seen: set<string> := {};
    out := [];
    for i := 0 to |xs|
      invariant out == Dedup(xs[..i]) && forall x :: x in seen <==> x in out
    {
      assert xs[..i + 1][..i] == xs[..i];
      if xs[i] !in seen {
        seen := seen + {xs[i]};
        out := out + [xs[i]];
      }
    }
    assert xs[..|xs|] == xs;
  }

  // ---------------------------------------------------------------- what a pattern list denotes

  predicate AllParse(patterns: seq<string>) {
    forall p | p in patterns :: ParseTargetPattern(p).Ok?
  }

  predicate IsExactPattern(p: string) {
    ParseTargetPattern(p).Ok? && ParseTargetPattern(p).value.IsExact()
  }

  predicate AllExact(patterns: seq<string>) {
    forall p | p in patterns :: IsExactPattern(p)
  }

  /** An exact pattern stands for itself, a partial one for every known cluster it matches. */
  function Denotation(p: string, known: seq<Cluster>): seq<string>
    requires ParseTargetPattern(p).Ok?
  {
    if IsExactPattern(p) then [p] else Expansion(ParseTargetPattern(p).value, known)
  }

  function Concatenation(patterns: seq<string>, known: seq<Cluster>): seq<string>
    requires AllParse(patterns)
  {
    if patterns == [] then [] else
      Concatenation(patterns[..|patterns| - 1], known) + Denotation(patterns[|patterns| - 1], known)
  }

  predicate AllTargets(patterns: seq<string>) {
    forall p | p in patterns :: ParseTarget(p).Ok?
  }

  /** The answer of ResolveClusterPatterns; None where it returns an error. */
  function Resolved(patterns: seq<string>, known: Result<seq<Cluster>>, strict: bool): Option<seq<string>> {
    if strict then
      if AllTargets(patterns) then Some(Dedup(patterns)) else None
    else if !AllParse(patterns) then None
    else if AllExact(patterns) then Some(Dedup(Concatenation(patterns, [])))
    else if known.Err? then None
    else Some(Dedup(Concatenation(patterns, known.value)))
  }

  /** Lines 57-67: the targets one parsed pattern stands for. */
  method TargetsOf(p: string, pattern: TargetPattern, known: seq<Cluster>) returns (matches: seq<string>)
    requires ParseTargetPattern(p) == Ok(pattern)
    ensures matches == Denotation(p, known)
  {
    if pattern.IsExact() {
      ExactFormatsBack(p);
      matches := [FormatTarget(AsCluster(pattern))];
    } else {
      matches := ExpandTargetPattern(pattern, known);
    }
  }

  /** Lines 68-73: keeps what has not been seen, where `before` is all that has come by so far. */
  method AddUnseen(out: seq<string>, seen: set<string>, matches: seq<string>, ghost before: seq<string>)
    returns (out': seq<string>, seen': set<string>)
    requires out == Dedup(before) && forall x :: x in seen <==> x in out
    ensures out' == Dedup(before + matches) && forall x :: x in seen' <==> x in out'
  {
    out', seen' := out, seen;
    assert before + matches[..0] == before;
    for j := 0 to |matches|
      invariant out' == Dedup(before + matches[..j]) && forall x :: x in seen' <==> x in out'
    {
      assert (before + matches[..j + 1])[..|before| + j] == before + matches[..j];
      if matches[j] !in seen' {
        seen' := seen' + {matches[j]};
        out' := out' + [matches[j]];
      }
    }
    assert matches[..|matches|] == matches;
  }

  /** Lines 54-75: the two loops that expand and deduplicate. */
  method Collect(patterns: seq<string>, parsed: seq<TargetPattern>, known: seq<Cluster>) returns (out: seq<string>)
    requires |parsed| == |patterns| && AllParse(patterns)
    requires forall j :: 0 <= j < |patterns| ==> ParseTargetPattern(patterns[j]) == Ok(parsed[j])
    ensures out == Dedup(Concatenation(patterns, known))
  {
    var seen: set<string> := {};
    out := [];
    for i := 0 to |patterns|
      invariant out == Dedup(Concatenation(patterns[..i], known)) && forall x :: x in seen <==> x in out
    {
      assert patterns[..i + 1][..i] == patterns[..i];
      var matches := TargetsOf(patterns[i], parsed[i], known);
      out, seen := AddUnseen(out, seen, matches, Concatenation(patterns[..i], known));
    }
    assert patterns[..|patterns|] == patterns;
  }

  /** The loops of lines 22-76; `calls` counts the calls of listKnown. */
  method ResolveClusterPatterns(patterns: seq<string>, listKnown: () -> Result<seq<Cluster>>, strict: bool)
    returns (r: Result<seq<string>>, calls: nat)
    ensures r.Ok? <==> Resolved(patterns, listKnown(), strict).Some?
    ensures r.Ok? ==> Resolved(patterns, listKnown(), strict) == Some(r.value)
    ensures calls == if !strict && AllParse(patterns) && !AllExact(patterns) then 1 else 0
    ensures calls == 1 && listKnown().Err? ==> r == Err(listKnown().error)
  {
    calls := 0;
    if strict {
      for i := 0 to |patterns|
        invariant AllTargets(patterns[..i])
      {
        if ParseTarget(patterns[i]).Err? {
          return Err("cluster entry must be a full kubeconfig/context/namespace/name path"), calls;
        }
      }
      assert patterns[..|patterns|] == patterns;
      var unique := DedupePreserveOrder(patterns);
      return Ok(unique), calls;
    }

    var parsed: seq<TargetPattern> := [];
    var needsExpansion := false;
    for i := 0 to |patterns|
      invariant |parsed| == i
      invariant forall j :: 0 <= j < i ==> ParseTargetPattern(patterns[j]) == Ok(parsed[j])
      invariant needsExpansion <==> exists j :: 0 <= j < i && !IsExactPattern(patterns[j])
    {
      var pattern := ParseTargetPattern(patterns[i]);
      if pattern.Err? {
        return Err(pattern.error), calls;
      }
      parsed := parsed + [pattern.value];
      if !pattern.value.IsExact() {
        needsExpansion := true;
      }
    }
    assert AllParse(patterns) && (needsExpansion <==> !AllExact(patterns));

    var known: seq<Cluster> := [];
    if needsExpansion {
      var k := listKnown();
      calls := 1;
      if k.Err? {
        return Err(k.error), calls;
      }
      known := k.value;
    }

    var out := Collect(patterns, parsed, known);
    r := Ok(out);
  }

  // ---------------------------------------------------------------- what the answer means

  lemma {:induction false} ConcatenationMembers(patterns: seq<string>, known: seq<Cluster>, t: string)
    requires AllParse(patterns)
    ensures t in Concatenation(patterns, known) <==> exists p :: p in patterns && t in Denotation(p, known)
  {
    if patterns != [] {
      var front, last := patterns[..|patterns| - 1], patterns[|patterns| - 1];
      assert patterns == front + [last];
      ConcatenationMembers(front, known, t);
    }
  }

  lemma ParseOfConcat(ps: seq<string>, qs: seq<string>)
    ensures AllParse(ps + qs) <==> AllParse(ps) && AllParse(qs)
  {
    assert forall p :: p in ps + qs <==> p in ps || p in qs;
  }

  lemma OneMore(ps: seq<string>, q: string, known: seq<Cluster>)
    requires AllParse(ps) && ParseTargetPattern(q).Ok?
    ensures AllParse(ps + [q]) && Concatenation(ps + [q], known) == Concatenation(ps, known) + Denotation(q, known)
  {
    assert (ps + [q])[..|ps|] == ps;
  }

  lemma {:induction false} ConcatenationOfConcat(ps: seq<string>, qs: seq<string>, known: seq<Cluster>)
    requires AllParse(ps) && AllParse(qs)
    ensures AllParse(ps + qs) && Concatenation(ps + qs, known) == Concatenation(ps, known) + Concatenation(qs, known)
  {
    ParseOfConcat(ps, qs);
    if qs == [] {
      assert ps + qs == ps;
    } else {
      var front, last := qs[..|qs| - 1], qs[|qs| - 1];
      assert qs == front + [last];
      Regroup(ps, front, [last]);
      ConcatenationOfConcat(ps, front, known);
      OneMore(ps + front, last, known);
      Regroup(Concatenation(ps, known), Concatenation(front, known), Denotation(last, known));
    }
  }

  lemma {:induction false} ExactConcatenation(patterns: seq<string>, known: seq<Cluster>)
    requires AllExact(patterns)
    ensures AllParse(patterns) && Concatenation(patterns, known) == patterns
  {
    if patterns != [] {
      var front, last := patterns[..|patterns| - 1], patterns[|patterns| - 1];
      assert patterns == front + [last];
      ExactConcatenation(front, known);
    }
  }

  /**
   Whenever lenient resolution succeeds, its answer is the first-seen listing of the denotations
   in pattern order, whether or not the known clusters were looked up.
   */
  lemma LenientIsDenotation(patterns: seq<string>, known: seq<Cluster>)
    requires AllParse(patterns)
    ensures Resolved(patterns, Ok(known), false).Some?
    ensures FirstSeen(Resolved(patterns, Ok(known), false).value, Concatenation(patterns, known))
    ensures forall t :: t in Resolved(patterns, Ok(known), false).value <==>
                          exists p :: p in patterns && t in Denotation(p, known)
  {
    if AllExact(patterns) {
      ExactConcatenation(patterns, []);
      ExactConcatenation(patterns, known);
    }
    DedupIsFirstSeen(Concatenation(patterns, known));
    forall t ensures t in Concatenation(patterns, known) <==> exists p :: p in patterns && t in Denotation(p, known) {
      ConcatenationMembers(patterns, known, t);
    }
  }

  /**
   Where the known clusters cannot be listed, lenient resolution succeeds exactly on lists of exact
   patterns, and then with those: it never takes a failure for an empty list.
   */
  lemma LenientWithoutKnownIff(patterns: seq<string>, error: string)
    ensures Resolved(patterns, Err(error), false).Some? <==> AllExact(patterns)
    ensures AllExact(patterns) ==> FirstSeen(Resolved(patterns, Err(error), false).value, patterns)
  {
    if AllExact(patterns) {
      ExactConcatenation(patterns, []);
      DedupIsFirstSeen(patterns);
    }
  }

  /** Appending patterns only extends the answer. */
  lemma AppendingExtends(ps: seq<string>, qs: seq<string>, known: seq<Cluster>)
    requires AllParse(ps + qs)
    ensures AllParse(ps)
    ensures Resolved(ps, Ok(known), false).value <= Resolved(ps + qs, Ok(known), false).value
  {
    ParseOfConcat(ps, qs);
    ConcatenationOfConcat(ps, qs, known);
    DedupPrefix(Concatenation(ps, known), Concatenation(qs, known));
    if AllExact(ps) {
      ExactConcatenation(ps, []);
      ExactConcatenation(ps, known);
    }
    if AllExact(ps + qs) {
      ExactConcatenation(ps + qs, []);
      ExactConcatenation(ps + qs, known);
    }
  }

  /**
   On pattern lists that strict resolution accepts, lenient resolution gives the same answer,
   whatever it is told of the known clusters, if and only if no entry has an empty segment.
   Strict resolution accepts "prod//ns/x"; lenient resolution refuses it.
   */
  lemma StrictAgreesWithLenientIff(patterns: seq<string>, known: Result<seq<Cluster>>)
    requires AllTargets(patterns)
    ensures Resolved(patterns, known, false) == Resolved(patterns, known, true)
            <==> forall p :: p in patterns ==> "" !in Split(p, '/')
  {
    if forall p :: p in patterns ==> "" !in Split(p, '/') {
      forall p | p in patterns ensures IsExactPattern(p) {
        JoinOfSplit(p, '/');
        ExactIffFourSegments(p);
      }
      ExactConcatenation(patterns, []);
    } else {
      var p :| p in patterns && "" in Split(p, '/');
      assert ParseTargetPattern(p).Err?;
    }
  }

  /**
   Strict resolution, used where the command is opaque, never widens a request: its answer
   consists of the caller's own entries, each a full path, and listKnown plays no part.
   */
  lemma StrictNeverWidens(patterns: seq<string>, known: Result<seq<Cluster>>, known': Result<seq<Cluster>>)
    ensures Resolved(patterns, known, true) == Resolved(patterns, known', true)
    ensures var r := Resolved(patterns, known, true);
            r.Some? ==> FirstSeen(r.value, patterns) && forall t :: t in r.value ==> ParseTarget(t).Ok?
  {
    if AllTargets(patterns) { DedupIsFirstSeen(patterns); }
  }
}
