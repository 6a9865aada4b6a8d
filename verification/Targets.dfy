/**
 Composite targets "kubeconfig/context/namespace/name" (internal/capi/target.go) and the
 patterns that select them (internal/capi/target_pattern.go). Fields are arbitrary strings:
 nothing in the code keeps a slash, or the empty string, out of a context or a kubeconfig name.
 */
module Targets {
  import opened Outcomes
  import opened Text
  import opened Selections

  /** CustomFields are opaque here; only their presence is carried. */
  datatype Cluster = Cluster(
    kubeconfig: string, context: string, ns: string, name: string, customFields: map<string, string>)

  function Fields(c: Cluster): seq<string> {
    [c.kubeconfig, c.context, c.ns, c.name]
  }

  predicate SlashFree(c: Cluster) {
    AllFree(Fields(c), '/')
  }

  function Bare(c: Cluster): Cluster {
    c.(customFields := map[])
  }

  function FormatTarget(c: Cluster): string {
    Join(Fields(c), '/')
  }

  function ParseTarget(target: string): Result<Cluster> {
    var parts := Split(target, '/');
    if |parts| != 4 then Err("invalid target") else Ok(Cluster(parts[0], parts[1], parts[2], parts[3], map[]))
  }

  /** A target is the path kubeconfig, context, namespace, name. */
  lemma TargetIsPath(c: Cluster)
    ensures FormatTarget(c) == c.kubeconfig + "/" + c.context + "/" + c.ns + "/" + c.name
  {
    var a, b, d, e := c.kubeconfig, c.context, c.ns, c.name;
    assert Fields(c)[1..] == [b, d, e] && [b, d, e][1..] == [d, e] && [d, e][1..] == [e];
    assert Join([d, e], '/') == d + "/" + e;
    assert Join([b, d, e], '/') == b + "/" + (d + "/" + e);
    assert FormatTarget(c) == a + "/" + (b + "/" + (d + "/" + e));
  }

  lemma SplitOfTarget(c: Cluster)
    ensures Split(FormatTarget(c), '/') == Fields(c) <==> SlashFree(c)
  {
    SplitOfJoin(Fields(c), '/');
  }

  lemma OnePieceIff(s: string)
    ensures |Split(s, '/')| == 1 <==> Free(s, '/')
  {
    if Free(s, '/') {
      SplitOfFree(s, '/');
    } else if |Split(s, '/')| == 1 {
      SplitPiecesFree(s, '/');
      JoinOfSplit(s, '/');
    }
  }

  /** A target string has four pieces or more, and exactly four when no field holds a slash. */
  lemma {:induction false} TargetPieces(c: Cluster)
    ensures |Split(FormatTarget(c), '/')| == 4 <==> SlashFree(c)
  {
    var a, b, d, e := c.kubeconfig, c.context, c.ns, c.name;
    assert Fields(c)[1..] == [b, d, e] && [b, d, e][1..] == [d, e] && [d, e][1..] == [e];
    SplitAtSeparator(d, e, '/');
    SplitAtSeparator(b, d + ['/'] + e, '/');
    SplitAtSeparator(a, b + ['/'] + (d + ['/'] + e), '/');
    assert Join([d, e], '/') == d + ['/'] + e;
    assert Join([b, d, e], '/') == b + ['/'] + (d + ['/'] + e);
    assert FormatTarget(c) == a + ['/'] + (b + ['/'] + (d + ['/'] + e));
    OnePieceIff(a); OnePieceIff(b); OnePieceIff(d); OnePieceIff(e);
  }

  /** Parsing recovers a formatted cluster exactly when its fields are free of slashes, and errs otherwise. */
  lemma ParseOfFormat(c: Cluster)
    ensures ParseTarget(FormatTarget(c)) == Ok(Bare(c)) <==> SlashFree(c)
    ensures ParseTarget(FormatTarget(c)).Err? <==> !SlashFree(c)
  {
    TargetPieces(c);
    SplitOfTarget(c);
  }

  lemma FormatOfParse(target: string)
    ensures ParseTarget(target).Ok? ==>
              FormatTarget(ParseTarget(target).value) == target && SlashFree(ParseTarget(target).value)
  {
    if ParseTarget(target).Ok? {
      assert Fields(ParseTarget(target).value) == Split(target, '/');
      JoinOfSplit(target, '/');
      SplitPiecesFree(target, '/');
    }
  }

  lemma FormatInjective(c: Cluster, d: Cluster)
    requires SlashFree(c) && SlashFree(d)
    ensures FormatTarget(c) == FormatTarget(d) <==> Bare(c) == Bare(d)
  {
    ParseOfFormat(c);
    ParseOfFormat(d);
    assert Fields(Bare(c)) == Fields(c) && Fields(Bare(d)) == Fields(d);
  }

  // ---------------------------------------------------------------- patterns

  /** An empty field is a wildcard. */
  datatype TargetPattern = TargetPattern(kubeconfig: string, context: string, ns: string, name: string) {
    predicate IsExact() {
      context != "" && ns != "" && name != ""
    }

    predicate Matches(c: Cluster) {
      if c.kubeconfig != kubeconfig then false
      else if context != "" && c.context != context then false
      else if ns != "" && c.ns != ns then false
      else if name != "" && c.name != name then false
      else true
    }
  }

  function ParseTargetPattern(target: string): Result<TargetPattern> {
    if target == "" then Err("must not be empty") else
      var parts := Split(target, '/');
      if |parts| > 4 then Err("want 1 to 4 slash-separated segments")
      else if "" in parts then Err("empty segment")
      else Ok(TargetPattern(
                parts[0],
                if |parts| > 1 then parts[1] else "",
                if |parts| > 2 then parts[2] else "",
                if |parts| > 3 then parts[3] else ""))
  }

  lemma ExactIffFourSegments(target: string)
    requires ParseTargetPattern(target).Ok?
    ensures ParseTargetPattern(target).value.IsExact() <==> |Split(target, '/')| == 4
  {}

  function AsCluster(p: TargetPattern): Cluster {
    Cluster(p.kubeconfig, p.context, p.ns, p.name, map[])
  }

  /** An exact pattern names itself: formatting its fields gives the string it was parsed from. */
  lemma ExactFormatsBack(target: string)
    requires ParseTargetPattern(target).Ok? && ParseTargetPattern(target).value.IsExact()
    ensures FormatTarget(AsCluster(ParseTargetPattern(target).value)) == target
  {
    JoinOfSplit(target, '/');
    assert Fields(AsCluster(ParseTargetPattern(target).value)) == Split(target, '/');
  }

  /** The pattern selects the clusters whose first fields are its segments. */
  lemma MatchesIffFieldPrefix(target: string, c: Cluster)
    requires ParseTargetPattern(target).Ok?
    ensures ParseTargetPattern(target).value.Matches(c) <==> Split(target, '/') <= Fields(c)
  {
    var parts, fields := Split(target, '/'), Fields(c);
    assert forall i :: 0 <= i < |parts| ==> parts[i] in parts;
    assert parts <= fields <==> |parts| <= 4 && forall i :: 0 <= i < |parts| ==> parts[i] == fields[i];
  }

  // ---------------------------------------------------------------- segment prefixes and slashes in fields

  /** A field that no pattern segment can be read across: it is empty, or begins with a slash. */
  predicate Stops(field: string) {
    field == "" || field[0] == '/'
  }

  /** Every field that holds a slash begins with it, or has a field before it at which every pattern stops. */
  ghost predicate SlashesOutOfReach(fields: seq<string>) {
    forall i :: 0 <= i < |fields| && !Free(fields[i], '/') ==> exists j :: 0 <= j <= i && Stops(fields[j])
  }

  predicate NonEmptySegments(parts: seq<string>) {
    AllFree(parts, '/') && "" !in parts
  }

  /** The segments of the joined fields: those of the first field, then those of the others. */
  lemma SplitOfFields(fields: seq<string>)
    requires |fields| > 0
    ensures Split(Join(fields, '/'), '/') ==
              Split(fields[0], '/') + if |fields| == 1 then [] else Split(Join(fields[1..], '/'), '/')
  {
    if |fields| > 1 { SplitAtSeparator(fields[0], Join(fields[1..], '/'), '/'); }
  }

  /** A field free of slashes is its own only segment; any other begins with a segment of its own. */
  lemma FirstSegment(field: string)
    ensures Free(field, '/') ==> Split(field, '/') == [field]
    ensures !Free(field, '/') ==> Split(field, '/')[0] != field && Free(Split(field, '/')[0], '/')
    ensures !Free(field, '/') && field[0] != '/' ==> Split(field, '/')[0] != ""
    ensures Stops(field) ==> Split(field, '/')[0] == ""
  {
    if Free(field, '/') { SplitOfFree(field, '/'); }
    SplitPiecesFree(field, '/');
    assert Split(field, '/')[0] in Split(field, '/');
  }

  /** Segments that are the first fields are the first segments of the joined string. */
  lemma {:induction false} FieldsAreSegments(fields: seq<string>, parts: seq<string>)
    requires |fields| > 0 && NonEmptySegments(parts) && parts <= fields
    ensures parts <= Split(Join(fields, '/'), '/')
  {
    if parts != [] {
      SplitOfFields(fields);
      assert parts[0] in parts;
      FirstSegment(fields[0]);
      if |parts| > 1 { FieldsAreSegments(fields[1..], parts[1..]); }
    }
  }

  lemma OutOfReachBeyond(fields: seq<string>)
    requires |fields| > 0 && SlashesOutOfReach(fields) && !Stops(fields[0])
    ensures SlashesOutOfReach(fields[1..])
  {
    var rest := fields[1..];
    forall i | 0 <= i < |rest| && !Free(rest[i], '/') ensures exists j :: 0 <= j <= i && Stops(rest[j]) {
      assert fields[i + 1] == rest[i];
      var j :| 0 <= j <= i + 1 && Stops(fields[j]);
      assert Stops(rest[j - 1]);
    }
  }

  /** The converse holds where no slash is in reach. */
  lemma {:induction false} SegmentsAreFields(fields: seq<string>, parts: seq<string>)
    requires 0 < |fields| && |parts| <= |fields| && NonEmptySegments(parts)
    requires SlashesOutOfReach(fields) && parts <= Split(Join(fields, '/'), '/')
    ensures parts <= fields
  {
    if parts != [] {
      SplitOfFields(fields);
      FirstSegment(fields[0]);
      assert parts[0] in parts && parts[0] == Split(fields[0], '/')[0];
      assert !Stops(fields[0]) && Free(fields[0], '/');
      if |parts| > 1 {
        OutOfReachBeyond(fields);
        SegmentsAreFields(fields[1..], parts[1..]);
      }
    }
  }

  lemma InReachBeyond(fields: seq<string>)
    requires !SlashesOutOfReach(fields) && |fields| > 0 && Free(fields[0], '/')
    ensures !SlashesOutOfReach(fields[1..])
  {
    var rest := fields[1..];
    var i :| 0 <= i < |fields| && !Free(fields[i], '/') && forall j :: 0 <= j <= i ==> !Stops(fields[j]);
    assert !Free(rest[i - 1], '/');
    assert forall j :: 0 <= j <= i - 1 ==> rest[j] == fields[j + 1];
  }

  /** Where a slash is in reach, a pattern can end inside the field that holds it. */
  lemma {:induction false} PatternInsideField(fields: seq<string>) returns (parts: seq<string>)
    requires !SlashesOutOfReach(fields)
    ensures 0 < |parts| <= |fields| && NonEmptySegments(parts)
    ensures parts <= Split(Join(fields, '/'), '/') && !(parts <= fields)
  {
    SplitOfFields(fields);
    FirstSegment(fields[0]);
    assert Stops(fields[0]) ==> SlashesOutOfReach(fields);
    var first := Split(fields[0], '/')[0];
    if !Free(fields[0], '/') {
      parts := [first];
    } else {
      InReachBeyond(fields);
      var rest := PatternInsideField(fields[1..]);
      parts := [first] + rest;
      assert parts[1..] == rest;
    }
  }

  /** The target is the pattern, or continues it after a slash. */
  predicate SegmentPrefix(pattern: string, target: string) {
    pattern == target || pattern + "/" <= target
  }

  lemma SegmentPrefixIffPieces(pattern: string, target: string)
    ensures SegmentPrefix(pattern, target) <==> Split(pattern, '/') <= Split(target, '/')
  {
    PrefixAtSeparator(pattern, target, '/');
    assert pattern + "/" == pattern + ['/'];
    if Split(pattern, '/') == Split(target, '/') { SplitInjective(pattern, target, '/'); }
  }

  /**
   For a cluster with any fields at all, field matching is segment-boundary string prefix for
   every pattern if and only if no pattern can reach a slash in a field: each field that holds
   one is, or comes after, a field that is empty or begins with a slash.
   */
  lemma SegmentPrefixIffOutOfReach(c: Cluster)
    ensures (forall p :: ParseTargetPattern(p).Ok? ==>
               (ParseTargetPattern(p).value.Matches(c) <==> SegmentPrefix(p, FormatTarget(c))))
            <==> SlashesOutOfReach(Fields(c))
  {
    if SlashesOutOfReach(Fields(c)) {
      forall p | ParseTargetPattern(p).Ok?
        ensures ParseTargetPattern(p).value.Matches(c) <==> SegmentPrefix(p, FormatTarget(c))
      {
        MatchesIffFieldPrefix(p, c);
        SegmentPrefixIffPieces(p, FormatTarget(c));
        SplitPiecesFree(p, '/');
        if Split(p, '/') <= Fields(c) {
          FieldsAreSegments(Fields(c), Split(p, '/'));
        } else if Split(p, '/') <= Split(FormatTarget(c), '/') {
          SegmentsAreFields(Fields(c), Split(p, '/'));
        }
      }
    } else {
      var parts := PatternInsideField(Fields(c));
      var p := Join(parts, '/');
      SplitOfJoin(parts, '/');
      assert p != "" && ParseTargetPattern(p).Ok?;
      MatchesIffFieldPrefix(p, c);
      SegmentPrefixIffPieces(p, FormatTarget(c));
      assert !(ParseTargetPattern(p).value.Matches(c) <==> SegmentPrefix(p, FormatTarget(c)));
    }
  }

  /** On clusters without slashes, field matching is string prefix at a segment boundary. */
  lemma MatchesIffSegmentPrefix(target: string, c: Cluster)
    requires ParseTargetPattern(target).Ok? && SlashFree(c)
    ensures ParseTargetPattern(target).value.Matches(c) <==>
              target == FormatTarget(c) || target + "/" <= FormatTarget(c)
  {
    assert SlashesOutOfReach(Fields(c)) by {
      forall i | 0 <= i < |Fields(c)| ensures Free(Fields(c)[i], '/') { assert Fields(c)[i] in Fields(c); }
    }
    SegmentPrefixIffOutOfReach(c);
    assert SegmentPrefix(target, FormatTarget(c)) <==> target == FormatTarget(c) || target + "/" <= FormatTarget(c);
  }

  /** A pattern that ends inside a field: the string continues the pattern, the fields do not match. */
  lemma SlashBreaksSegmentPrefix()
    ensures var c := Cluster("p", "a/b", "n", "x", map[]);
            ParseTargetPattern("p/a").Ok? && SegmentPrefix("p/a", FormatTarget(c))
              && !ParseTargetPattern("p/a").value.Matches(c)
  {
    var c := Cluster("p", "a/b", "n", "x", map[]);
    JoinOfConcat(["p"], ["a/b", "n", "x"], '/');
    JoinOfConcat(["a/b"], ["n", "x"], '/');
    assert Fields(c) == ["p"] + (["a/b"] + ["n", "x"]);
    SplitOfFree("p", '/'); SplitOfFree("a", '/');
    SplitAtSeparator("p", "a", '/');
  }

  // ---------------------------------------------------------------- expansion

  /** The formatted clusters of `all` that `pattern` matches, in order, repetitions kept. */
  function Expansion(pattern: TargetPattern, all: seq<Cluster>): seq<string> {
    if all == [] then [] else
      var front := Expansion(pattern, all[..|all| - 1]);
      if pattern.Matches(all[|all| - 1]) then front + [FormatTarget(all[|all| - 1])] else front
  }

  method ExpandTargetPattern(pattern: TargetPattern, all: seq<Cluster>) returns (out: seq<string>)
    ensures out == Expansion(pattern, all)
  {
    out := [];
    for i := 0 to |all|
      invariant out == Expansion(pattern, all[..i])
    {
      assert all[..i + 1][..i] == all[..i];
      if pattern.Matches(all[i]) {
        out := out + [FormatTarget(all[i])];
      }
    }
    assert all[..|all|] == all;
  }

  /** An expansion is the target strings of the matching clusters, in listing order and with repetitions. */
  lemma {:induction false} ExpansionSelects(pattern: TargetPattern, all: seq<Cluster>) returns (at: seq<nat>)
    ensures Selects(Expansion(pattern, all), all, at, c => pattern.Matches(c), FormatTarget)
  {
    at := [];
    if all != [] {
      var front, c := all[..|all| - 1], all[|all| - 1];
      assert all == front + [c];
      at := ExpansionSelects(pattern, front);
      at := SelectsMore(Expansion(pattern, front), front, at, c => pattern.Matches(c), FormatTarget, c);
    }
  }

  lemma {:induction false} ExpansionMembers(pattern: TargetPattern, all: seq<Cluster>, t: string)
    ensures t in Expansion(pattern, all) <==> exists c :: c in all && pattern.Matches(c) && FormatTarget(c) == t
  {
    if all != [] {
      ExpansionMembers(pattern, all[..|all| - 1], t);
      assert all == all[..|all| - 1] + [all[|all| - 1]];
    }
  }
}
