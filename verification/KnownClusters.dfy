/**
 The two ways the known clusters reach pattern resolution: the server hands its own list over
 (internal/server/target.go), the embedded tools format that list into target strings and parse
 them back (internal/embed/fanout.go). Also list_clusters, which filters by a set of target
 strings (internal/server/tools.go), and the target selection of the embedded tools.
 */
module KnownClusters {
  import opened Outcomes
  import opened Text
  import opened Selections
  import opened Targets
  import opened ResolvePatterns

  // ---------------------------------------------------------------- formatting and parsing back

  function TargetStrings(all: seq<Cluster>): seq<string> {
    seq(|all|, i requires 0 <= i < |all| => FormatTarget(all[i]))
  }

  method ListTargets(resolved: seq<Cluster>) returns (targets: array<string>)
    ensures targets[..] == TargetStrings(resolved)
  {
    targets := new string[|resolved|](_ => "");
    for i := 0 to |resolved|
      invariant targets[..i] == TargetStrings(resolved)[..i]
    {
      targets[i] := FormatTarget(resolved[i]);
    }
  }

  /** The targets that parse, as clusters. */
  function Reparsed(targets: seq<string>): seq<Cluster> {
    if targets == [] then [] else
      var front := Reparsed(targets[..|targets| - 1]);
      match ParseTarget(targets[|targets| - 1])
      case Ok(c) => front + [c]
      case Err(_) => front
  }

  method ListKnownClusters(targets: seq<string>) returns (known: seq<Cluster>)
    ensures known == Reparsed(targets)
  {
    known := [];
    for i := 0 to |targets|
      invariant known == Reparsed(targets[..i])
    {
      assert targets[..i + 1][..i] == targets[..i];
      var c := ParseTarget(targets[i]);
      if c.Err? {
        continue;
      }
      known := known + [c.value];
    }
    assert targets[..|targets|] == targets;
  }

  /** The clusters none of whose fields holds a slash, in order, without their custom fields. */
  function SlashFreeOnes(all: seq<Cluster>): seq<Cluster> {
    if all == [] then [] else
      var front, c := SlashFreeOnes(all[..|all| - 1]), all[|all| - 1];
      if SlashFree(c) then front + [Bare(c)] else front
  }

  lemma {:induction false} EmbeddedListIsSlashFreeOnes(all: seq<Cluster>)
    ensures Reparsed(TargetStrings(all)) == SlashFreeOnes(all)
  {
    if all != [] {
      var front, c := all[..|all| - 1], all[|all| - 1];
      assert TargetStrings(all)[..|all| - 1] == TargetStrings(front);
      EmbeddedListIsSlashFreeOnes(front);
      ParseOfFormat(c);
    }
  }

  /** In listing order and with repetitions, the slash-free clusters without their custom fields. */
  lemma {:induction false} SlashFreeOnesSelect(all: seq<Cluster>) returns (at: seq<nat>)
    ensures Selects(SlashFreeOnes(all), all, at, SlashFree,
                    (c: Cluster) => Cluster(c.kubeconfig, c.context, c.ns, c.name, map[]))
  {
    at := [];
    if all != [] {
      var front, c := all[..|all| - 1], all[|all| - 1];
      assert all == front + [c];
      at := SlashFreeOnesSelect(front);
      at := SelectsMore(SlashFreeOnes(front), front, at, SlashFree,
                        (c: Cluster) => Cluster(c.kubeconfig, c.context, c.ns, c.name, map[]), c);
    }
  }

  // ---------------------------------------------------------------- both lists resolve alike

  /** No pattern can select the cluster: its kubeconfig name is not a pattern segment. */
  predicate Unselectable(c: Cluster) {
    c.kubeconfig == "" || !Free(c.kubeconfig, '/')
  }

  lemma UnselectableNeverMatches(p: string, c: Cluster)
    requires ParseTargetPattern(p).Ok? && Unselectable(c)
    ensures !ParseTargetPattern(p).value.Matches(c)
  {
    SplitPiecesFree(p, '/');
    assert Split(p, '/')[0] in Split(p, '/');
  }

  lemma {:induction false} SameExpansion(p: string, all: seq<Cluster>)
    requires ParseTargetPattern(p).Ok? && forall c :: c in all ==> SlashFree(c) || Unselectable(c)
    ensures Expansion(ParseTargetPattern(p).value, SlashFreeOnes(all)) == Expansion(ParseTargetPattern(p).value, all)
  {
    if all != [] {
      var front, c := all[..|all| - 1], all[|all| - 1];
      SameExpansion(p, front);
      if SlashFree(c) {
        var kept := SlashFreeOnes(all);
        assert kept[..|kept| - 1] == SlashFreeOnes(front) && Fields(Bare(c)) == Fields(c);
      } else {
        UnselectableNeverMatches(p, c);
      }
    }
  }

  lemma {:induction false} SameConcatenation(patterns: seq<string>, all: seq<Cluster>)
    requires AllParse(patterns) && forall c :: c in all ==> SlashFree(c) || Unselectable(c)
    ensures Concatenation(patterns, SlashFreeOnes(all)) == Concatenation(patterns, all)
  {
    if patterns != [] {
      SameConcatenation(patterns[..|patterns| - 1], all);
      SameExpansion(patterns[|patterns| - 1], all);
    }
  }

  lemma {:induction false} SlashFreeOnesAreSlashFree(all: seq<Cluster>, d: Cluster)
    requires d in SlashFreeOnes(all)
    ensures SlashFree(d)
  {
    var front, c := all[..|all| - 1], all[|all| - 1];
    if d in SlashFreeOnes(front) {
      SlashFreeOnesAreSlashFree(front, d);
    } else {
      assert Fields(Bare(c)) == Fields(c);
    }
  }

  /** A cluster with a slash in a field is missing from what the embedded tools resolve. */
  lemma SlashedClusterIsMissed(all: seq<Cluster>, c: Cluster)
    requires c in all && !SlashFree(c) && !Unselectable(c)
    ensures Resolved([c.kubeconfig], Ok(SlashFreeOnes(all)), false) != Resolved([c.kubeconfig], Ok(all), false)
  {
    var p, t := c.kubeconfig, FormatTarget(c);
    SplitOfFree(p, '/');
    assert [p][0] == p && AllParse([p]) && p in [p];
    LenientIsDenotation([p], all);
    LenientIsDenotation([p], SlashFreeOnes(all));
    ExpansionMembers(ParseTargetPattern(p).value, all, t);
    ExpansionMembers(ParseTargetPattern(p).value, SlashFreeOnes(all), t);
    assert t in Denotation(p, all);
    forall d | d in SlashFreeOnes(all) ensures FormatTarget(d) != t {
      SlashFreeOnesAreSlashFree(all, d);
      ParseOfFormat(c);
      ParseOfFormat(d);
    }
    assert t !in Denotation(p, SlashFreeOnes(all));
    assert t in Resolved([p], Ok(all), false).value;
    assert t !in Resolved([p], Ok(SlashFreeOnes(all)), false).value;
  }

  /**
   The embedded tools and the server resolve every pattern list alike if and only if every
   cluster with a slash in a field is one no pattern can select anyway.
   */
  lemma PathsAgreeIff(all: seq<Cluster>)
    ensures (forall patterns, strict ::
               Resolved(patterns, Ok(Reparsed(TargetStrings(all))), strict) == Resolved(patterns, Ok(all), strict))
            <==> forall c :: c in all ==> SlashFree(c) || Unselectable(c)
  {
    EmbeddedListIsSlashFreeOnes(all);
    if forall c :: c in all ==> SlashFree(c) || Unselectable(c) {
      forall patterns, strict
        ensures Resolved(patterns, Ok(SlashFreeOnes(all)), strict) == Resolved(patterns, Ok(all), strict)
      {
        if AllParse(patterns) { SameConcatenation(patterns, all); }
      }
    } else {
      var c :| c in all && !(SlashFree(c) || Unselectable(c));
      SlashedClusterIsMissed(all, c);
    }
  }

  // ---------------------------------------------------------------- list_clusters

  /** Some pattern of the list matches the cluster, field by field. */
  ghost predicate MatchedBySome(patterns: seq<string>, c: Cluster) {
    exists p :: p in patterns && ParseTargetPattern(p).Ok? && ParseTargetPattern(p).value.Matches(c)
  }

  ghost function MatchedOnes(patterns: seq<string>, all: seq<Cluster>): seq<Cluster> {
    if all == [] then [] else
      var front, c := MatchedOnes(patterns, all[..|all| - 1]), all[|all| - 1];
      if MatchedBySome(patterns, c) then front + [c] else front
  }

  /** Membership in the set of resolved strings, for clusters with any fields at all. */
  lemma ListedIff(patterns: seq<string>, all: seq<Cluster>, t: string)
    requires AllParse(patterns)
    ensures t in Resolved(patterns, Ok(all), false).value <==>
              exists p :: p in patterns &&
                if IsExactPattern(p) then p == t
                else exists d :: d in all && ParseTargetPattern(p).value.Matches(d) && FormatTarget(d) == t
  {
    LenientIsDenotation(patterns, all);
    forall p | p in patterns
      ensures t in Denotation(p, all) <==>
                if IsExactPattern(p) then p == t
                else exists d :: d in all && ParseTargetPattern(p).value.Matches(d) && FormatTarget(d) == t
    {
      ExpansionMembers(ParseTargetPattern(p).value, all, t);
    }
  }

  /** An exact pattern matches exactly the clusters whose target string it is, slashes or not. */
  lemma ExactMatchesIffEqual(p: string, c: Cluster)
    requires IsExactPattern(p)
    ensures ParseTargetPattern(p).value.Matches(c) <==> p == FormatTarget(c)
  {
    MatchesIffFieldPrefix(p, c);
    ExactIffFourSegments(p);
    TargetPieces(c);
    SplitOfTarget(c);
    JoinOfSplit(p, '/');
    if Split(p, '/') <= Fields(c) { assert Split(p, '/') == Fields(c); }
  }

  /** A cluster is listed when a cluster with its target string, perhaps another one, is matched. */
  lemma ListedIffTwinMatched(patterns: seq<string>, all: seq<Cluster>, c: Cluster)
    requires AllParse(patterns) && c in all
    ensures FormatTarget(c) in Resolved(patterns, Ok(all), false).value <==>
              exists d :: d in all && FormatTarget(d) == FormatTarget(c) && MatchedBySome(patterns, d)
  {
    var t := FormatTarget(c);
    ListedIff(patterns, all, t);
    forall p, d | p in patterns && IsExactPattern(p) && d in all && FormatTarget(d) == t
      ensures ParseTargetPattern(p).value.Matches(d) <==> p == t
    {
      ExactMatchesIffEqual(p, d);
    }
    if t in Resolved(patterns, Ok(all), false).value {
      var p :| p in patterns &&
        if IsExactPattern(p) then p == t
        else exists d :: d in all && ParseTargetPattern(p).value.Matches(d) && FormatTarget(d) == t;
      if IsExactPattern(p) { assert MatchedBySome(patterns, c); }
    }
  }

  /** What ListClusters keeps: the clusters whose target string is among the resolved ones. */
  ghost function ListedOnes(all: seq<Cluster>, targets: seq<string>): seq<Cluster> {
    if all == [] then [] else
      var front, c := ListedOnes(all[..|all| - 1], targets), all[|all| - 1];
      if FormatTarget(c) in targets then front + [c] else front
  }

  /** Both keep listing order and repetitions. */
  lemma {:induction false} ListedOnesSelect(all: seq<Cluster>, targets: seq<string>) returns (at: seq<nat>)
    ensures Selects(ListedOnes(all, targets), all, at, (c: Cluster) => FormatTarget(c) in targets, (c: Cluster) => c)
  {
    at := [];
    if all != [] {
      var front, c := all[..|all| - 1], all[|all| - 1];
      assert all == front + [c];
      at := ListedOnesSelect(front, targets);
      at := SelectsMore(ListedOnes(front, targets), front, at, (c: Cluster) => FormatTarget(c) in targets,
                        (c: Cluster) => c, c);
    }
  }

  lemma {:induction false} MatchedOnesSelect(patterns: seq<string>, all: seq<Cluster>) returns (at: seq<nat>)
    ensures Selects(MatchedOnes(patterns, all), all, at, (c: Cluster) => MatchedBySome(patterns, c), (c: Cluster) => c)
  {
    at := [];
    if all != [] {
      var front, c := all[..|all| - 1], all[|all| - 1];
      assert all == front + [c];
      at := MatchedOnesSelect(patterns, front);
      at := SelectsMore(MatchedOnes(patterns, front), front, at, (c: Cluster) => MatchedBySome(patterns, c),
                        (c: Cluster) => c, c);
    }
  }

  /** An unmatched cluster has the target string of a matched one. */
  ghost predicate TwinsDiffer(patterns: seq<string>, all: seq<Cluster>) {
    exists c, d :: c in all && d in all && FormatTarget(c) == FormatTarget(d)
      && MatchedBySome(patterns, d) && !MatchedBySome(patterns, c)
  }

  lemma TwinsAgree(patterns: seq<string>, all: seq<Cluster>, c: Cluster)
    requires AllParse(patterns) && !TwinsDiffer(patterns, all) && c in all
    ensures FormatTarget(c) in Resolved(patterns, Ok(all), false).value <==> MatchedBySome(patterns, c)
  {
    ListedIffTwinMatched(patterns, all, c);
  }

  lemma {:induction false} ListedPrefix(patterns: seq<string>, all: seq<Cluster>, n: nat)
    requires AllParse(patterns) && n <= |all|
    ensures !TwinsDiffer(patterns, all) ==>
              ListedOnes(all[..n], Resolved(patterns, Ok(all), false).value) == MatchedOnes(patterns, all[..n])
  {
    if n > 0 {
      ListedPrefix(patterns, all, n - 1);
      assert all[..n][..n - 1] == all[..n - 1];
      if !TwinsDiffer(patterns, all) { TwinsAgree(patterns, all, all[n - 1]); }
    }
  }

  lemma {:induction false} SelectedMembers(patterns: seq<string>, all: seq<Cluster>, targets: seq<string>, c: Cluster)
    ensures c in ListedOnes(all, targets) <==> c in all && FormatTarget(c) in targets
    ensures c in MatchedOnes(patterns, all) <==> c in all && MatchedBySome(patterns, c)
  {
    if all != [] {
      SelectedMembers(patterns, all[..|all| - 1], targets, c);
      assert all == all[..|all| - 1] + [all[|all| - 1]];
    }
  }

  /**
   Filtering through the set of target strings keeps exactly the matched clusters, in listing
   order and with their multiplicity, if and only if no unmatched cluster shares its target
   string with a matched one.
   */
  lemma ListingIsExactIff(patterns: seq<string>, all: seq<Cluster>)
    requires AllParse(patterns)
    ensures ListedOnes(all, Resolved(patterns, Ok(all), false).value) == MatchedOnes(patterns, all)
            <==> !TwinsDiffer(patterns, all)
  {
    assert all[..|all|] == all;
    ListedPrefix(patterns, all, |all|);
    if TwinsDiffer(patterns, all) {
      var c, d :| c in all && d in all && FormatTarget(c) == FormatTarget(d)
        && MatchedBySome(patterns, d) && !MatchedBySome(patterns, c);
      ListedIffTwinMatched(patterns, all, c);
      SelectedMembers(patterns, all, Resolved(patterns, Ok(all), false).value, c);
    }
  }

  /** So it does whenever the known clusters are free of slashes. */
  lemma SlashFreeListingIsExact(patterns: seq<string>, all: seq<Cluster>)
    requires AllParse(patterns) && forall c :: c in all ==> SlashFree(c)
    ensures ListedOnes(all, Resolved(patterns, Ok(all), false).value) == MatchedOnes(patterns, all)
  {
    forall c, d | c in all && d in all && FormatTarget(c) == FormatTarget(d) && MatchedBySome(patterns, d)
      ensures MatchedBySome(patterns, c)
    {
      FormatInjective(c, d);
      var p :| p in patterns && ParseTargetPattern(p).Ok? && ParseTargetPattern(p).value.Matches(d);
      assert ParseTargetPattern(p).value.Matches(c);
    }
    ListingIsExactIff(patterns, all);
  }

  /** ListClusters up to its JSON rendering. */
  method ListClusters(resolved: seq<Cluster>, clusters: seq<string>) returns (listed: Result<seq<Cluster>>)
    ensures listed.Ok? <==> AllParse(clusters)
    ensures clusters == [] ==> listed == Ok(resolved)
    ensures clusters != [] && listed.Ok? ==>
              listed.value == ListedOnes(resolved, Resolved(clusters, Ok(resolved), false).value)
    ensures clusters != [] && listed.Ok? && (forall c :: c in resolved ==> SlashFree(c)) ==>
              listed.value == MatchedOnes(clusters, resolved)
  {
    if |clusters| == 0 {
      return Ok(resolved);
    }
    var matched, _ := ResolveClusterPatterns(clusters, () => Ok(resolved), false);
    if matched.Err? {
      return Err(matched.error);
    }
    var matchSet := set t | t in matched.value;
    var kept: seq<Cluster> := [];
    for i := 0 to |resolved|
      invariant kept == ListedOnes(resolved[..i], matched.value)
    {
      assert resolved[..i + 1][..i] == resolved[..i];
      if FormatTarget(resolved[i]) in matchSet {
        kept := kept + [resolved[i]];
      }
    }
    assert resolved[..|resolved|] == resolved;
    if forall c :: c in resolved ==> SlashFree(c) {
      SlashFreeListingIsExact(clusters, resolved);
    }
    return Ok(kept);
  }

  lemma SameTargetString(c: Cluster, d: Cluster)
    requires c == Cluster("a", "b/c", "d", "e", map[]) && d == Cluster("a", "b", "c/d", "e", map[])
    ensures FormatTarget(c) == FormatTarget(d)
  {
    JoinOfConcat(["a", "b/c"], ["d", "e"], '/');
    JoinOfConcat(["a", "b"], ["c/d", "e"], '/');
    JoinOfConcat(["a"], ["b/c"], '/');
    JoinOfConcat(["a"], ["b"], '/');
    JoinOfConcat(["d"], ["e"], '/');
    JoinOfConcat(["c/d"], ["e"], '/');
    assert Fields(c) == (["a"] + ["b/c"]) + (["d"] + ["e"]);
    assert Fields(d) == (["a"] + ["b"]) + (["c/d"] + ["e"]);
  }

  /** Two clusters that format alike are listed together, though the pattern matches only one. */
  lemma SlashesListTooMuch()
    ensures var c, d := Cluster("a", "b/c", "d", "e", map[]), Cluster("a", "b", "c/d", "e", map[]);
            && AllParse(["a/b"]) && FormatTarget(c) in Resolved(["a/b"], Ok([c, d]), false).value
            && !MatchedBySome(["a/b"], c)
  {
    var c, d := Cluster("a", "b/c", "d", "e", map[]), Cluster("a", "b", "c/d", "e", map[]);
    var p := "a/b";
    SplitOfFree("a", '/'); SplitOfFree("b", '/');
    SplitAtSeparator("a", "b", '/');
    assert p == "a" + ['/'] + "b" && Split(p, '/') == ["a", "b"];
    assert ParseTargetPattern(p) == Ok(TargetPattern("a", "b", "", ""));
    assert [p][0] == p && p in [p] && d in [c, d];
    SameTargetString(c, d);
    ListedIff([p], [c, d], FormatTarget(c));
  }

  // ---------------------------------------------------------------- selecting targets for an embedded tool

  datatype ClustersArg = Absent | NotStrings | Patterns(patterns: seq<string>)

  datatype Selection = RunOn(targets: seq<string>) | Refused(message: string) | Failed(error: string)

  /** What listKnownClusters makes of the resolver's answer. */
  function KnownFrom(targets: Result<seq<string>>): (known: Result<seq<Cluster>>)
    ensures targets.Err? ==> known == Err(targets.error)
    ensures targets.Ok? ==> known.Ok?
  {
    match targets
    case Ok(ts) => Ok(Reparsed(ts))
    case Err(e) => Err(e)
  }

  /**
   The wrapped handler of wrapFanOut. A tool that is not read-only runs on nothing but the
   caller's own full paths: there is no implicit "all" and no expansion.
   */
  method SelectTargets(readOnly: bool, clusters: ClustersArg, listTargets: () -> Result<seq<string>>)
    returns (selection: Selection)
    ensures !readOnly && selection.RunOn? ==>
              clusters.Patterns? && FirstSeen(selection.targets, clusters.patterns)
              && forall t :: t in selection.targets ==> ParseTarget(t).Ok?
    ensures selection.RunOn? && clusters.Absent? ==> readOnly && listTargets() == Ok(selection.targets)
    ensures clusters.Patterns? && clusters.patterns == [] ==> selection == RunOn([])
    ensures clusters.Patterns? && clusters.patterns != [] ==>
              var resolved := Resolved(clusters.patterns, KnownFrom(listTargets()), !readOnly);
              && (selection.RunOn? <==> "" !in clusters.patterns && resolved.Some?)
              && (selection.RunOn? ==> resolved == Some(selection.targets))
    ensures readOnly && clusters.Patterns? && clusters.patterns != [] && listTargets().Err? && selection.RunOn? ==>
              AllExact(clusters.patterns) && FirstSeen(selection.targets, clusters.patterns)
    ensures clusters.Absent? ==> (if !readOnly then selection.Refused? else listTargets().Ok? <==> selection.RunOn?)
    ensures clusters.NotStrings? ==> selection.Refused?
    ensures selection.Failed? ==> clusters.Absent? && listTargets() == Err(selection.error)
    ensures readOnly && clusters.Patterns? && AllParse(clusters.patterns) && listTargets().Ok? ==>
              selection.RunOn?
              && FirstSeen(selection.targets, Concatenation(clusters.patterns, Reparsed(listTargets().value)))
  {
    match clusters
    case Absent =>
      if !readOnly {
        return Refused("clusters is required");
      }
      var all := listTargets();
      return if all.Err? then Failed(all.error) else RunOn(all.value);
    case NotStrings =>
      return Refused("clusters must be an array of strings");
    case Patterns(patterns) =>
      if |patterns| == 0 {
        return RunOn([]);
      }
      if "" in patterns {
        return Refused("clusters entries must be non-empty strings");
      }
      var listKnown := () => KnownFrom(listTargets());
      var targets, _ := ResolveClusterPatterns(patterns, listKnown, !readOnly);
      if readOnly && AllParse(patterns) && listTargets().Ok? {
        LenientIsDenotation(patterns, Reparsed(listTargets().value));
      }
      if listTargets().Err? { LenientWithoutKnownIff(patterns, listTargets().error); }
      StrictNeverWidens(patterns, listKnown(), listKnown());
      return if targets.Err? then Refused(targets.error) else RunOn(targets.value);
  }
}
