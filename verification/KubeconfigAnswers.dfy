/**
 Whose kubeconfig a call of cachedKubeconfig (internal/server/kubeconfig.go) returns, in any
 interleaved run of `KubeconfigPipeline`: that of the cluster asked for, whatever is asked and
 whatever happens, if and only if no two of the clusters asked for share a cache key.
 */
module KubeconfigAnswers {
  import opened Outcomes
  import opened CacheKeys
  import opened KubeconfigPipeline
  import Cache = TtlCache
  import Tunnels = TunnelTimed

  // ---------------------------------------------------------------- the origins are steps of the run

  /** A step of a run, with the clock at it. */
  datatype Logged = Logged(step: Step, at: int)

  ghost function Log(cfg: Config, s: State, run: seq<Step>): seq<Logged>
    requires ValidRun(cfg, s, run)
    decreases |run|
  {
    if run == [] then [] else [Logged(run[0], s.tunnels.now)] + Log(cfg, Apply(cfg, s, run[0]), run[1..])
  }

  ghost predicate FetchAt(log: seq<Logged>, f: Fetch, i: nat) {
    i < |log| && log[i].step == Fetches(f.call, f.raw, f.server)
  }

  ghost predicate StoreAt(log: seq<Logged>, f: Fetch, at: int, i: nat, j: nat) {
    FetchAt(log, f, i) && i < j < |log| && log[j] == Logged(Return(f.call), at)
  }

  ghost predicate ReadAt(log: seq<Logged>, f: Fetch, storedAt: int, c: nat, readAt: int, i: nat, j: nat, l: nat) {
    StoreAt(log, f, storedAt, i, j) && j < l < |log| && log[l] == Logged(Look(c), readAt)
  }

  ghost predicate FetchLogged(s: State, log: seq<Logged>, f: nat)
    requires f < |s.fetches|
  {
    exists i: nat :: FetchAt(log, s.fetches[f], i)
  }

  ghost predicate EntryLogged(s: State, log: seq<Logged>, key: string) {
    && key in s.stored && s.stored[key].fetch < |s.fetches|
    && exists i: nat, j: nat :: StoreAt(log, s.fetches[s.stored[key].fetch], s.stored[key].at, i, j)
  }

  ghost predicate CallLogged(s: State, log: seq<Logged>, c: nat)
    requires c < |s.calls|
  {
    var pc := s.calls[c].pc;
    HasValue(pc) && pc.origin.FromCache? ==>
      && pc.origin.fetch < |s.fetches|
      && exists i: nat, j: nat, l: nat ::
           ReadAt(log, s.fetches[pc.origin.fetch], pc.origin.storedAt, c, pc.origin.readAt, i, j, l)
  }

  ghost predicate LogInv(cfg: Config, s: State, log: seq<Logged>) {
    && ValueInv(cfg, s)
    && (forall f :: 0 <= f < |s.fetches| ==> FetchLogged(s, log, f))
    && (forall key :: key in s.cache ==> EntryLogged(s, log, key))
    && (forall c :: 0 <= c < |s.calls| ==> CallLogged(s, log, c))
  }

  lemma StepLogsFetch(cfg: Config, s: State, step: Step, log: seq<Logged>, f: nat)
    requires LogInv(cfg, s, log) && Enabled(s, step) && f < |Apply(cfg, s, step).fetches|
    ensures FetchLogged(Apply(cfg, s, step), log + [Logged(step, s.tunnels.now)], f)
  {
    var s', log' := Apply(cfg, s, step), log + [Logged(step, s.tunnels.now)];
    TimePasses(cfg, s, step);
    if f < |s.fetches| {
      assert FetchLogged(s, log, f);
      var i: nat :| FetchAt(log, s.fetches[f], i);
      assert FetchAt(log', s'.fetches[f], i);
    } else {
      assert FetchAt(log', s'.fetches[f], |log|);
    }
  }

  lemma StepLogsEntry(cfg: Config, s: State, step: Step, log: seq<Logged>, key: string)
    requires LogInv(cfg, s, log) && Enabled(s, step) && key in Apply(cfg, s, step).cache
    ensures EntryLogged(Apply(cfg, s, step), log + [Logged(step, s.tunnels.now)], key)
  {
    var s', log' := Apply(cfg, s, step), log + [Logged(step, s.tunnels.now)];
    CacheChangesOnReturn(cfg, s, step, key);
    TimePasses(cfg, s, step);
    if key in s.cache && key in s.stored && key in s'.stored && s'.stored[key] == s.stored[key] {
      assert EntryLogged(s, log, key);
      var i: nat, j: nat :| StoreAt(log, s.fetches[s.stored[key].fetch], s.stored[key].at, i, j);
      assert StoreAt(log', s'.fetches[s'.stored[key].fetch], s'.stored[key].at, i, j);
    } else {
      assert key in s.cache ==> EntryLogged(s, log, key);
      assert CallInv(cfg, s, step.c) && FetchLogged(s, log, s.calls[step.c].pc.origin.fetch);
      var i: nat :| FetchAt(log, s.fetches[s.calls[step.c].pc.origin.fetch], i);
      assert StoreAt(log', s'.fetches[s'.stored[key].fetch], s'.stored[key].at, i, |log|);
    }
  }

  lemma LookIsLogged(cfg: Config, s: State, log: seq<Logged>, c: nat)
    requires LogInv(cfg, s, log) && Enabled(s, Look(c)) && HasValue(ApplyLook(cfg, s, c).calls[c].pc)
    ensures CallLogged(ApplyLook(cfg, s, c), log + [Logged(Look(c), s.tunnels.now)], c)
  {
    var key, log' := KubeconfigKey(s.calls[c].cluster), log + [Logged(Look(c), s.tunnels.now)];
    assert EntryLogged(s, log, key);
    var i: nat, j: nat :| StoreAt(log, s.fetches[s.stored[key].fetch], s.stored[key].at, i, j);
    assert ReadAt(log', s.fetches[s.stored[key].fetch], s.stored[key].at, c, s.tunnels.now, i, j, |log|);
  }

  /** A call that keeps its origin keeps it in the log. */
  lemma KeptIsLogged(s: State, s': State, log: seq<Logged>, last: Logged, c: nat)
    requires c < |s.calls| && CallLogged(s, log, c) && KeptCall(s, s', c)
    ensures CallLogged(s', log + [last], c)
  {
    if HasValue(s'.calls[c].pc) && s'.calls[c].pc.origin.FromCache? {
      var o := s.calls[c].pc.origin;
      var i: nat, j: nat, l: nat :| ReadAt(log, s.fetches[o.fetch], o.storedAt, c, o.readAt, i, j, l);
      assert ReadAt(log + [last], s'.fetches[o.fetch], o.storedAt, c, o.readAt, i, j, l);
    }
  }

  lemma StepLogsCall(cfg: Config, s: State, step: Step, log: seq<Logged>, c: nat)
    requires LogInv(cfg, s, log) && Enabled(s, step) && c < |Apply(cfg, s, step).calls|
    ensures CallLogged(Apply(cfg, s, step), log + [Logged(step, s.tunnels.now)], c)
  {
    if c >= |s.calls| {
      assert step.Begin?;
    } else if step == Look(c) {
      if HasValue(ApplyLook(cfg, s, c).calls[c].pc) { LookIsLogged(cfg, s, log, c); }
    } else if !(step.Fetches? && step.c == c) {
      StepKeepsCall(cfg, s, step, c);
      assert CallLogged(s, log, c);
      KeptIsLogged(s, Apply(cfg, s, step), log, Logged(step, s.tunnels.now), c);
    }
  }

  lemma {:induction false} RunKeepsLog(cfg: Config, s: State, run: seq<Step>, log: seq<Logged>)
    requires LogInv(cfg, s, log) && ValidRun(cfg, s, run)
    ensures LogInv(cfg, Final(cfg, s, run), log + Log(cfg, s, run))
    decreases |run|
  {
    if run == [] {
      assert log + [] == log;
    } else {
      var s', log' := Apply(cfg, s, run[0]), log + [Logged(run[0], s.tunnels.now)];
      StepKeepsValues(cfg, s, run[0]);
      forall f | 0 <= f < |s'.fetches| ensures FetchLogged(s', log', f) { StepLogsFetch(cfg, s, run[0], log, f); }
      forall key | key in s'.cache ensures EntryLogged(s', log', key) { StepLogsEntry(cfg, s, run[0], log, key); }
      forall c | 0 <= c < |s'.calls| ensures CallLogged(s', log', c) { StepLogsCall(cfg, s, run[0], log, c); }
      RunKeepsLog(cfg, s', run[1..], log');
      assert log' + Log(cfg, s', run[1..]) == log + Log(cfg, s, run);
    }
  }

  // ---------------------------------------------------------------- whose Secret a call answers with

  /**
   Step `i` reads a Secret and the API server, by a call for the cluster of call `c`; the transform
   is what `c` returns, and the tunnel is the one `c` has ensured.
   */
  ghost predicate ReadFor(cfg: Config, s: State, log: seq<Logged>, c: nat, i: nat)
    requires c < |s.calls| && HasValue(s.calls[c].pc)
  {
    && i < |log| && log[i].step.Fetches? && log[i].step.c < |s.calls|
    && s.calls[log[i].step.c].cluster == s.calls[c].cluster
    && cfg.transform(log[i].step.raw) == Ok(s.calls[c].pc.value.kubeconfig)
    && Leads(s.calls[c].pc.value.target, s.calls[log[i].step.c].host, log[i].step.server)
  }

  /** The call reads the Secret itself, in step `i`. */
  ghost predicate ReadItself(cfg: Config, s: State, log: seq<Logged>, c: nat, i: nat)
    requires c < |s.calls| && HasValue(s.calls[c].pc)
  {
    ReadFor(cfg, s, log, c, i) && log[i].step.c == c
  }

  /** Another call reads it in step `i` and returns in step `j`, at most a ttl before this one looks in step `l`. */
  ghost predicate ReadBefore(cfg: Config, s: State, log: seq<Logged>, c: nat, i: nat, j: nat, l: nat)
    requires c < |s.calls| && HasValue(s.calls[c].pc)
  {
    && ReadFor(cfg, s, log, c, i) && i < j < l < |log|
    && log[j].step == Return(log[i].step.c) && log[l].step == Look(c)
    && log[j].at <= log[l].at <= log[j].at + cfg.ttl
  }

  ghost predicate AnswersARead(cfg: Config, s: State, log: seq<Logged>, c: nat)
    requires c < |s.calls| && HasValue(s.calls[c].pc)
  {
    || (exists i: nat :: ReadItself(cfg, s, log, c, i))
    || (exists i: nat, j: nat, l: nat :: ReadBefore(cfg, s, log, c, i, j, l))
  }

  /** Call `c` has returned by the end of the run. */
  ghost predicate Returns(cfg: Config, run: seq<Step>, c: nat)
    requires ValidRun(cfg, INIT, run)
  {
    c < |Final(cfg, INIT, run).calls| && Final(cfg, INIT, run).calls[c].pc.Returned?
  }

  /** Every call of the run is for one of these clusters. */
  ghost predicate Asks(run: seq<Step>, asked: iset<ClusterRef>) {
    forall i :: 0 <= i < |run| && run[i].Begin? ==> run[i].cluster in asked
  }

  /** No two of these clusters share a cache key. */
  ghost predicate KeysDiffer(asked: iset<ClusterRef>) {
    forall x, y :: x in asked && y in asked && KubeconfigKey(x) == KubeconfigKey(y) ==> x == y
  }

  ghost predicate CallsIn(s: State, asked: iset<ClusterRef>) {
    forall c :: 0 <= c < |s.calls| ==> s.calls[c].cluster in asked
  }

  lemma StepAsks(cfg: Config, s: State, step: Step, asked: iset<ClusterRef>)
    requires Enabled(s, step) && CallsIn(s, asked) && (step.Begin? ==> step.cluster in asked)
    ensures CallsIn(Apply(cfg, s, step), asked)
  {
    var s' := Apply(cfg, s, step);
    forall c | 0 <= c < |s'.calls| ensures s'.calls[c].cluster in asked {
      if c < |s.calls| { CallsStay(cfg, s, step, c); }
    }
  }

  lemma {:induction false} RunAsks(cfg: Config, s: State, run: seq<Step>, asked: iset<ClusterRef>)
    requires ValidRun(cfg, s, run) && CallsIn(s, asked) && Asks(run, asked)
    ensures CallsIn(Final(cfg, s, run), asked)
    decreases |run|
  {
    if run != [] {
      StepAsks(cfg, s, run[0], asked);
      RunAsks(cfg, Apply(cfg, s, run[0]), run[1..], asked);
    }
  }

  /** The call answers with a Secret of its own cluster unless it found one of another cluster in the cache. */
  lemma AnswersItsOrigin(cfg: Config, run: seq<Step>, c: nat)
    requires ValidRun(cfg, INIT, run) && Returns(cfg, run, c)
    ensures var s := Final(cfg, INIT, run);
            var o := s.calls[c].pc.origin;
            && o.fetch < |s.fetches| && s.fetches[o.fetch].call < |s.calls|
            && FetchInv(s, o.fetch)
            && KubeconfigKey(s.fetches[o.fetch].cluster) == KubeconfigKey(s.calls[c].cluster)
            && IsOf(cfg, s.calls[c].pc.value, s.fetches[o.fetch])
            && (match o
                case Fresh(f) => s.fetches[f].call == c
                case FromCache(_, storedAt, readAt) => storedAt <= readAt <= storedAt + cfg.ttl)
            && (s.fetches[o.fetch].cluster == s.calls[c].cluster ==> AnswersARead(cfg, s, Log(cfg, INIT, run), c))
  {
    var s, log := Final(cfg, INIT, run), Log(cfg, INIT, run);
    RunKeepsLog(cfg, INIT, run, []);
    assert [] + log == log;
    assert CallInv(cfg, s, c) && CallLogged(s, log, c);
    var o := s.calls[c].pc.origin;
    assert FetchInv(s, o.fetch) && FetchedFor(cfg, s, o.fetch, s.calls[c].cluster, s.calls[c].pc.value);
    if s.fetches[o.fetch].cluster == s.calls[c].cluster {
      if o.Fresh? {
        assert FetchLogged(s, log, o.fetch);
        var i: nat :| FetchAt(log, s.fetches[o.fetch], i);
        assert ReadItself(cfg, s, log, c, i);
      } else {
        var i: nat, j: nat, l: nat :| ReadAt(log, s.fetches[o.fetch], o.storedAt, c, o.readAt, i, j, l);
        assert ReadBefore(cfg, s, log, c, i, j, l);
      }
    }
  }

  // ---------------------------------------------------------------- two clusters with one key

  lemma PrecedeLogged(cfg: Config, s: State, step: Step, rest: seq<Step>)
    requires Enabled(s, step) && ValidRun(cfg, Apply(cfg, s, step), rest)
    ensures ValidRun(cfg, s, [step] + rest) && Final(cfg, s, [step] + rest) == Final(cfg, Apply(cfg, s, step), rest)
    ensures Log(cfg, s, [step] + rest) == [Logged(step, s.tunnels.now)] + Log(cfg, Apply(cfg, s, step), rest)
  {
    assert ([step] + rest)[1..] == rest;
  }

  /** A first call, for `x`, that has returned and stored the transform of `raw`. */
  function FirstReturned(cfg: Config, x: ClusterRef, raw: string, kc: string): State {
    var value := CachedKubeconfig(kc, None);
    State(Tunnels.INIT, map[KubeconfigKey(x) := Cache.Entry(value, cfg.ttl)],
          [Call(x, cfg.sshuttleHost, Returned(value, Fresh(0)))], [Fetch(0, x, cfg.sshuttleHost, raw, None)],
          map[KubeconfigKey(x) := Stored(0, 0)], {})
  }

  lemma FirstRun(cfg: Config, x: ClusterRef, raw: string, kc: string, rest: seq<Step>) returns (run: seq<Step>)
    requires cfg.transform(raw) == Ok(kc) && ValidRun(cfg, FirstReturned(cfg, x, raw, kc), rest)
    ensures run == [Begin(x, ""), Look(0), Fetches(0, raw, None), Return(0)] + rest
    ensures ValidRun(cfg, INIT, run) && Final(cfg, INIT, run) == Final(cfg, FirstReturned(cfg, x, raw, kc), rest)
    ensures forall i :: 0 <= i < |Log(cfg, INIT, run)| && Log(cfg, INIT, run)[i].step.Fetches? ==>
              Log(cfg, INIT, run)[i].step.c == 0
                || Log(cfg, INIT, run)[i] in Log(cfg, FirstReturned(cfg, x, raw, kc), rest)
  {
    var s1 := Apply(cfg, INIT, Begin(x, ""));
    var s2 := Apply(cfg, s1, Look(0));
    var s3 := Apply(cfg, s2, Fetches(0, raw, None));
    assert Apply(cfg, s3, Return(0)) == FirstReturned(cfg, x, raw, kc);
    PrecedeLogged(cfg, s3, Return(0), rest);
    run := [Return(0)] + rest;
    PrecedeLogged(cfg, s2, Fetches(0, raw, None), run);
    run := [Fetches(0, raw, None)] + run;
    PrecedeLogged(cfg, s1, Look(0), run);
    run := [Look(0)] + run;
    PrecedeLogged(cfg, INIT, Begin(x, ""), run);
    run := [Begin(x, "")] + run;
  }

  lemma SecondRun(cfg: Config, x: ClusterRef, y: ClusterRef, raw: string, kc: string) returns (run: seq<Step>)
    requires KubeconfigKey(x) == KubeconfigKey(y) && cfg.ttl >= 0
    ensures run == [Begin(y, ""), Look(1), Return(1)]
    ensures var s := FirstReturned(cfg, x, raw, kc);
            && ValidRun(cfg, s, run) && |Final(cfg, s, run).calls| == 2
            && Final(cfg, s, run).calls[0].cluster == x && Final(cfg, s, run).calls[1].cluster == y
            && Final(cfg, s, run).calls[1].pc.Returned?
            && forall l :: l in Log(cfg, s, run) ==> !l.step.Fetches?
  {
    var s := FirstReturned(cfg, x, raw, kc);
    var s1 := Apply(cfg, s, Begin(y, ""));
    var s2 := Apply(cfg, s1, Look(1));
    PrecedeLogged(cfg, s2, Return(1), []);
    run := [Return(1)] + [];
    PrecedeLogged(cfg, s1, Look(1), run);
    run := [Look(1)] + run;
    PrecedeLogged(cfg, s, Begin(y, ""), run);
    run := [Begin(y, "")] + run;
  }

  /** The second of two calls, for clusters that share a key, answers with the Secret of the first. */
  lemma SharedKeyAnswersForAnother(cfg: Config, x: ClusterRef, y: ClusterRef, raw: string) returns (run: seq<Step>)
    requires x != y && KubeconfigKey(x) == KubeconfigKey(y) && cfg.ttl >= 0 && cfg.transform(raw).Ok?
    ensures ValidRun(cfg, INIT, run) && Asks(run, iset{x, y}) && Returns(cfg, run, 1)
    ensures Final(cfg, INIT, run).calls[1].cluster == y
    ensures !AnswersARead(cfg, Final(cfg, INIT, run), Log(cfg, INIT, run), 1)
  {
    var kc := cfg.transform(raw).value;
    var rest := SecondRun(cfg, x, y, raw, kc);
    run := FirstRun(cfg, x, raw, kc, rest);
    var s, log := Final(cfg, INIT, run), Log(cfg, INIT, run);
    forall i: nat ensures !ReadFor(cfg, s, log, 1, i) {
      if i < |log| && log[i].step.Fetches? { assert log[i].step.c == 0; }
    }
  }

  // ---------------------------------------------------------------- the exact condition

  /** In every run whose calls are for these clusters, every call that returns answers for its own. */
  ghost predicate AllAnswer(cfg: Config, asked: iset<ClusterRef>) {
    forall run, c: nat | ValidRun(cfg, INIT, run) && Asks(run, asked) && Returns(cfg, run, c) ::
      AnswersARead(cfg, Final(cfg, INIT, run), Log(cfg, INIT, run), c)
  }

  lemma DifferentKeysAnswer(cfg: Config, asked: iset<ClusterRef>, run: seq<Step>, c: nat)
    requires KeysDiffer(asked) || cfg.ttl < 0
    requires ValidRun(cfg, INIT, run) && Asks(run, asked) && Returns(cfg, run, c)
    ensures var s := Final(cfg, INIT, run);
            var f := s.calls[c].pc.origin.fetch;
            f < |s.fetches| && s.fetches[f].cluster == s.calls[c].cluster
    ensures AnswersARead(cfg, Final(cfg, INIT, run), Log(cfg, INIT, run), c)
  {
    AnswersItsOrigin(cfg, run, c);
    RunAsks(cfg, INIT, run, asked);
  }

  /**
   The cached pipeline refines the uncached one: whatever interleaves, each call that returns
   answers with the transform of a Secret read for exactly its cluster, by itself or by a call
   that stored it at most a ttl before, if and only if no two of the clusters asked for share a
   cache key; or nothing stays cached, or nothing can be answered at all.
   */
  lemma AllAnswerIff(cfg: Config, asked: iset<ClusterRef>)
    ensures AllAnswer(cfg, asked) <==> KeysDiffer(asked) || cfg.ttl < 0 || forall raw :: cfg.transform(raw).Err?
  {
    if KeysDiffer(asked) || cfg.ttl < 0 || forall raw :: cfg.transform(raw).Err? {
      forall run, c: nat | ValidRun(cfg, INIT, run) && Asks(run, asked) && Returns(cfg, run, c)
        ensures AnswersARead(cfg, Final(cfg, INIT, run), Log(cfg, INIT, run), c)
      {
        if KeysDiffer(asked) || cfg.ttl < 0 {
          DifferentKeysAnswer(cfg, asked, run, c);
        } else {
          AnswersItsOrigin(cfg, run, c);
        }
      }
    } else {
      var x, y :| x in asked && y in asked && KubeconfigKey(x) == KubeconfigKey(y) && x != y;
      var raw :| cfg.transform(raw).Ok?;
      var run := SharedKeyAnswersForAnother(cfg, x, y, raw);
      assert Asks(run, asked);
    }
  }

  ghost predicate AsksFor(run: seq<Step>, x: ClusterRef) {
    exists i :: 0 <= i < |run| && run[i].Begin? && run[i].cluster == x
  }

  /** The clusters a run asks for. */
  ghost function AskedIn(run: seq<Step>): iset<ClusterRef> {
    iset x: ClusterRef | AsksFor(run, x)
  }

  /** So in a run that asks for no two clusters with one key, a call that returns answers for its own. */
  lemma ReturnsAFetchOfItsCluster(cfg: Config, run: seq<Step>, c: nat)
    requires ValidRun(cfg, INIT, run) && KeysDiffer(AskedIn(run)) && Returns(cfg, run, c)
    ensures AnswersARead(cfg, Final(cfg, INIT, run), Log(cfg, INIT, run), c)
    ensures var s := Final(cfg, INIT, run);
            var pc := s.calls[c].pc;
            && pc.origin.fetch < |s.fetches|
            && s.fetches[pc.origin.fetch].cluster == s.calls[c].cluster
            && IsOf(cfg, pc.value, s.fetches[pc.origin.fetch])
            && match pc.origin
               case Fresh(f) => s.fetches[f].call == c
               case FromCache(_, storedAt, readAt) => storedAt <= readAt <= storedAt + cfg.ttl
  {
    AllAnswerIff(cfg, AskedIn(run));
    AnswersItsOrigin(cfg, run, c);
    DifferentKeysAnswer(cfg, AskedIn(run), run, c);
  }
}
