/**
 cachedKubeconfig of internal/server/kubeconfig.go as a method on the server's own objects: the
 shared TTL cache and the tunnel manager. It runs until it returns, fails, or blocks inside
 EnsureProxy on the startup window of a tunnel; `Finish` is what is left to do after that.

 The methods state what they answer, store and do to the tunnels; `CallIsARun` shows that this is
 a run of `KubeconfigPipeline`, whatever state the other calls are in, so what is proved there
 about interleaved runs holds of these objects.
 */
module ToolServer {
  import opened Outcomes
  import opened CacheKeys
  import opened Targets
  import opened Text
  import opened KubeconfigPipeline
  import opened KubeconfigAnswers
  import opened TtlCache
  import opened TunnelManager
  import Tunnels = TunnelTimed

  /**
   What the management cluster answers during one call: the Secret, and the API server's address if
   it is restricted.
   */
  datatype Upstream = Upstream(secret: Result<string>, server: Result<Option<Endpoint>>)

  datatype Outcome = Answered(kubeconfig: string) | Refused | Blocked(value: CachedKubeconfig, fetched: bool)

  type Store = map<string, Entry<CachedKubeconfig>>

  // ---------------------------------------------------------------- specification

  /** What the call would answer, and store, if there were no cache. */
  function Uncached(cfg: Config, host: string, u: Upstream): Result<CachedKubeconfig> {
    if u.secret.Err? then Err(u.secret.error) else
      var kc := cfg.transform(u.secret.value);
      if kc.Err? then Err(kc.error)
      else if host == "" then Ok(CachedKubeconfig(kc.value, None))
      else match u.server
        case Err(e) => Err(e)
        case Ok(None) => Ok(CachedKubeconfig(kc.value, None))
        case Ok(Some(at)) => Ok(CachedKubeconfig(kc.value, Some(ProxyTarget(host, at.ip, at.port))))
  }

  /**
   Without a cache a call succeeds if and only if it reads the Secret, the transform accepts it and,
   where a host is configured, it learns the API server; and that is all its answer depends on.
   */
  lemma UncachedIff(cfg: Config, host: string, u: Upstream, value: CachedKubeconfig)
    ensures Uncached(cfg, host, u).Ok? <==>
              u.secret.Ok? && cfg.transform(u.secret.value).Ok? && (host == "" || u.server.Ok?)
    ensures Uncached(cfg, host, u) == Ok(value) <==>
              && u.secret.Ok? && cfg.transform(u.secret.value) == Ok(value.kubeconfig)
              && (if u.server.Ok? then Leads(value.target, host, u.server.value)
                  else host == "" && value.target == None)
  {}

  /** The kubeconfig the call is about: the visible entry if there is one, else what is fetched now. */
  function Known(cfg: Config, store: Store, now: int, cluster: ClusterRef, sourceHost: string,
                 u: Upstream): Result<CachedKubeconfig> {
    var hit := Visible(store, KubeconfigKey(cluster), now);
    if hit.Some? then Ok(hit.value) else Uncached(cfg, HostFor(cfg, sourceHost), u)
  }

  /** What EnsureProxy does at once, in a given state of the tunnels. */
  function AtOnce(t: Tunnels.State, key: string, spawns: bool): EnsureOutcome {
    if key in t.starting then AwaitingStartup
    else if key in t.entries then Refreshed
    else if spawns then AwaitingStartup
    else SpawnError
  }

  /** How a call ends that knows its kubeconfig. */
  function Ends(t: Tunnels.State, value: CachedKubeconfig, fetched: bool, spawns: bool): Outcome {
    if value.target.None? then Answered(value.kubeconfig)
    else match AtOnce(t, KeyOf(value.target.value), spawns)
      case Refreshed => Answered(value.kubeconfig)
      case AwaitingStartup => Blocked(value, fetched)
      case SpawnError => Refused
  }

  function AfterEnsure(t: Tunnels.State, key: string, ttl: int, spawns: bool): Tunnels.State {
    if key in t.starting then t
    else if key in t.entries then Tunnels.RefreshTunnel(t, key, ttl)
    else if spawns then Tunnels.StartTunnel(t, key, ttl)
    else t
  }

  /** The tunnels once a call is through with `value`. */
  function TunnelsFor(t: Tunnels.State, value: CachedKubeconfig, ttl: int, spawns: bool): Tunnels.State {
    if value.target.None? then t else AfterEnsure(t, KeyOf(value.target.value), ttl, spawns)
  }

  function Keeps(store: Store, cluster: ClusterRef, value: CachedKubeconfig, outcome: Outcome, fetched: bool,
                 expiresAt: int): Store {
    if fetched && outcome.Answered? then store[KubeconfigKey(cluster) := Entry(value, expiresAt)] else store
  }

  /**
   What one call answers and leaves behind: an expired entry goes, a kubeconfig that had to be
   fetched is stored if the call succeeds at once, and a tunnel is ensured if one is needed.
   */
  ghost predicate Does(cfg: Config, store: Store, t: Tunnels.State, cluster: ClusterRef, sourceHost: string,
                       u: Upstream, spawns: bool,
                       outcome: Outcome, store': Store, t': Tunnels.State)
  {
    var fetched := Visible(store, KubeconfigKey(cluster), t.now).None?;
    var left := Evicted(store, KubeconfigKey(cluster), t.now);
    match Known(cfg, store, t.now, cluster, sourceHost, u)
    case Err(_) => outcome == Refused && store' == left && t' == t
    case Ok(value) =>
      && outcome == Ends(t, value, fetched, spawns)
      && store' == Keeps(left, cluster, value, outcome, fetched, t.now + cfg.ttl)
      && t' == TunnelsFor(t, value, cfg.ttl, spawns)
  }

  /** A configured kubeconfig; the configuration names each by its own key. */
  datatype KubeconfigSource = KubeconfigSource(name: string, sshuttleHost: string)

  /** The cluster a target string leads to, if its kubeconfig is configured. */
  function Addressed(sources: map<string, KubeconfigSource>, target: string): Option<ClusterRef> {
    match ParseTarget(target)
    case Err(_) => None
    case Ok(c) =>
      if c.kubeconfig !in sources then None
      else Some(ClusterRef(sources[c.kubeconfig].name, c.context, c.ns, c.name))
  }

  function Listed(r: ClusterRef): Cluster {
    Cluster(r.kubeconfig, r.context, r.ns, r.name, map[])
  }

  /** A target leads to the one cluster it formats, provided no field holds a slash; with a slash it leads nowhere. */
  lemma TargetsLeadToTheirClusters(sources: map<string, KubeconfigSource>, target: string, r: ClusterRef)
    requires forall k :: k in sources ==> sources[k].name == k
    ensures Addressed(sources, target) == Some(r) <==>
              r.kubeconfig in sources && SlashFree(Listed(r)) && target == FormatTarget(Listed(r))
    ensures !SlashFree(Listed(r)) ==> Addressed(sources, FormatTarget(Listed(r))) == None
  {
    ParseOfFormat(Listed(r));
    FormatOfParse(target);
  }

  /** The call has got as far as its outcome says. */
  ghost predicate Reached(s: State, c: nat, outcome: Outcome) {
    c < |s.calls| && match outcome
      case Answered(kc) => s.calls[c].pc.Returned? && s.calls[c].pc.value.kubeconfig == kc
      case Refused => s.calls[c].pc.Failed?
      case Blocked(value, fetched) =>
        s.calls[c].pc.Waiting? && s.calls[c].pc.value == value && s.calls[c].pc.origin.Fresh? == fetched
  }

  // ---------------------------------------------------------------- the objects

  class ToolServer {
    const cfg: Config
    const kubeconfigs: TTLCache<string, CachedKubeconfig>
    const proxyMgr: Manager

    ghost predicate Valid()
      reads this, kubeconfigs, proxyMgr, proxyMgr.clock
    {
      && kubeconfigs.Valid() && proxyMgr.Valid() && kubeconfigs.ttl == cfg.ttl
      && kubeconfigs.clock <= proxyMgr.clock.now
    }

    constructor (cfg: Config, kubeconfigs: TTLCache<string, CachedKubeconfig>, proxyMgr: Manager)
      requires kubeconfigs.Valid() && proxyMgr.Valid()
      requires kubeconfigs.ttl == cfg.ttl && kubeconfigs.clock <= proxyMgr.clock.now
      ensures Valid() && this.cfg == cfg && this.kubeconfigs == kubeconfigs && this.proxyMgr == proxyMgr
    {
      this.cfg, this.kubeconfigs, this.proxyMgr := cfg, kubeconfigs, proxyMgr;
    }

    /** EnsureProxy joins a running attempt for the same key, or else runs one (manager.go 94-102). */
    method EnsureProxy(target: ProxyTarget, spawns: bool) returns (outcome: EnsureOutcome)
      requires Valid()
      modifies proxyMgr, proxyMgr.clock, proxyMgr.processEntries.Values
      ensures Valid() && outcome == AtOnce(old(proxyMgr.Model()), KeyOf(target), spawns)
      ensures proxyMgr.Model() == AfterEnsure(old(proxyMgr.Model()), KeyOf(target), cfg.ttl, spawns)
    {
      var key := KeyOf(target);
      if key in proxyMgr.starting {
        outcome := AwaitingStartup;
      } else {
        outcome := proxyMgr.EnsureProcessProxy(key, cfg.ttl, spawns);
      }
    }

    /** Lines 37 and 70-71: a fetched kubeconfig is stored, and either kind is returned. */
    method Finish(cluster: ClusterRef, value: CachedKubeconfig, fetched: bool) returns (outcome: Outcome)
      requires Valid()
      modifies kubeconfigs
      ensures Valid() && outcome == Answered(value.kubeconfig)
      ensures kubeconfigs.store
              == Keeps(old(kubeconfigs.store), cluster, value, outcome, fetched, proxyMgr.clock.now + cfg.ttl)
    {
      if fetched {
        kubeconfigs.Set(KubeconfigKey(cluster), value, proxyMgr.clock.now);
      }
      outcome := Answered(value.kubeconfig);
    }

    /** From where the kubeconfig is known: lines 32-37 on a hit, 57-71 on a miss. */
    method EnsureAndFinish(cluster: ClusterRef, value: CachedKubeconfig, fetched: bool, spawns: bool)
      returns (outcome: Outcome)
      requires Valid()
      modifies kubeconfigs, proxyMgr, proxyMgr.clock, proxyMgr.processEntries.Values
      ensures Valid() && outcome == Ends(old(proxyMgr.Model()), value, fetched, spawns)
      ensures proxyMgr.Model() == TunnelsFor(old(proxyMgr.Model()), value, cfg.ttl, spawns)
      ensures kubeconfigs.store
           == Keeps(old(kubeconfigs.store), cluster, value, outcome, fetched, old(proxyMgr.clock.now) + cfg.ttl)
    {
      if value.target.Some? {
        var ensured := EnsureProxy(value.target.value, spawns);
        if ensured.SpawnError? {
          return Refused;
        }
        if ensured.AwaitingStartup? {
          return Blocked(value, fetched);
        }
      }
      outcome := Finish(cluster, value, fetched);
    }

    /** Lines 23-72. */
    method CachedKubeconfigFor(cluster: ClusterRef, sourceHost: string, u: Upstream, spawns: bool)
      returns (outcome: Outcome)
      requires Valid()
      modifies kubeconfigs, proxyMgr, proxyMgr.clock, proxyMgr.processEntries.Values
      ensures Valid()
      ensures Does(cfg, old(kubeconfigs.store), old(proxyMgr.Model()), cluster, sourceHost, u, spawns,
                   outcome, kubeconfigs.store, proxyMgr.Model())
    {
      var host := sourceHost;
      if host == "" {
        host := cfg.sshuttleHost;
      }
      var cached := kubeconfigs.Get(KubeconfigKey(cluster), proxyMgr.clock.now);
      if cached.Some? {
        outcome := EnsureAndFinish(cluster, cached.value, false, spawns);
        return;
      }
      if u.secret.Err? {
        return Refused;
      }
      var kc := cfg.transform(u.secret.value);
      if kc.Err? {
        return Refused;
      }
      var target := None;
      if host != "" {
        if u.server.Err? {
          return Refused;
        }
        if u.server.value.Some? {
          target := Some(ProxyTarget(host, u.server.value.value.ip, u.server.value.value.port));
        }
      }
      outcome := EnsureAndFinish(cluster, CachedKubeconfig(kc.value, target), true, spawns);
    }

    /** ResolveTarget of internal/server/target.go. */
    method ResolveTarget(sources: map<string, KubeconfigSource>, target: string, u: Upstream, spawns: bool)
      returns (outcome: Outcome)
      requires Valid()
      modifies kubeconfigs, proxyMgr, proxyMgr.clock, proxyMgr.processEntries.Values
      ensures Valid()
      ensures match Addressed(sources, target)
              case None => outcome == Refused && kubeconfigs.store == old(kubeconfigs.store)
                && proxyMgr.Model() == old(proxyMgr.Model())
              case Some(cluster) =>
                Does(cfg, old(kubeconfigs.store), old(proxyMgr.Model()), cluster,
                     sources[ParseTarget(target).value.kubeconfig].sshuttleHost,
                     u, spawns, outcome, kubeconfigs.store, proxyMgr.Model())
    {
      var parsed := ParseTarget(target);
      if parsed.Err? {
        return Refused;
      }
      var c := parsed.value;
      if c.kubeconfig !in sources {
        return Refused;
      }
      var src := sources[c.kubeconfig];
      outcome := CachedKubeconfigFor(ClusterRef(src.name, c.context, c.ns, c.name), src.sshuttleHost, u, spawns);
    }
  }

  // ---------------------------------------------------------------- each call is a run of the pipeline

  lemma LookFirst(cfg: Config, s: State, cluster: ClusterRef, sourceHost: string) returns (looked: State)
    ensures var c := |s.calls|;
            && Enabled(s, Begin(cluster, sourceHost)) && Enabled(Apply(cfg, s, Begin(cluster, sourceHost)), Look(c))
            && looked == Apply(cfg, Apply(cfg, s, Begin(cluster, sourceHost)), Look(c))
    ensures looked.tunnels == s.tunnels && looked.cache == Evicted(s.cache, KubeconfigKey(cluster), s.tunnels.now)
    ensures |looked.calls| == |s.calls| + 1 && looked.calls[|s.calls|].cluster == cluster
    ensures looked.calls[|s.calls|].host == HostFor(cfg, sourceHost)
    ensures var hit, pc := Visible(s.cache, KubeconfigKey(cluster), s.tunnels.now), looked.calls[|s.calls|].pc;
            if hit.None? then pc.Fetching? else
              (if hit.value.target.Some? then pc.Ensuring? else pc.Ensured?) && pc.value == hit.value
                && pc.origin.FromCache?
  {
    var begun := Apply(cfg, s, Begin(cluster, sourceHost));
    looked := Apply(cfg, begun, Look(|s.calls|));
  }

  /** The step by which a call that missed the cache comes to know its kubeconfig, or fails to. */
  function FetchStep(cfg: Config, host: string, u: Upstream, c: nat): Step {
    if u.secret.Err? then FetchFails(c)
    else if cfg.transform(u.secret.value).Err? || host == "" then Fetches(c, u.secret.value, None)
    else if u.server.Err? then FetchFails(c)
    else Fetches(c, u.secret.value, u.server.value)
  }

  lemma FetchThen(cfg: Config, s: State, u: Upstream, c: nat)
    requires c < |s.calls| && s.calls[c].pc.Fetching?
    ensures var step := FetchStep(cfg, s.calls[c].host, u, c);
            Enabled(s, step) &&
            var s', known := Apply(cfg, s, step), Uncached(cfg, s.calls[c].host, u);
            && s'.tunnels == s.tunnels && s'.cache == s.cache && |s'.calls| == |s.calls|
            && s'.calls[c].cluster == s.calls[c].cluster
            && var pc := s'.calls[c].pc;
               if known.Err? then pc.Failed? else
                 (if known.value.target.Some? then pc.Ensuring? else pc.Ensured?) && pc.value == known.value
                   && pc.origin.Fresh?
  {}

  lemma ReturnThen(cfg: Config, s: State, c: nat)
    requires Enabled(s, Return(c))
    ensures var s', pc := Apply(cfg, s, Return(c)), s.calls[c].pc;
            && Reached(s', c, Answered(pc.value.kubeconfig)) && s'.tunnels == s.tunnels
            && s'.cache == Keeps(s.cache, s.calls[c].cluster, pc.value, Answered(pc.value.kubeconfig), pc.origin.Fresh?,
                                 s.tunnels.now + cfg.ttl)
  {}

  lemma EnsureThen(cfg: Config, s: State, c: nat, spawns: bool)
    requires c < |s.calls| && s.calls[c].pc.Ensuring? && s.calls[c].pc.value.target.Some?
    ensures var pc := s.calls[c].pc;
            var outcome := Ends(s.tunnels, pc.value, pc.origin.Fresh?, spawns);
            var step := if outcome.Refused? then SpawnFails(c) else Ensure(c);
            Enabled(s, step) &&
            var s' := Apply(cfg, s, step);
            && s'.tunnels == TunnelsFor(s.tunnels, pc.value, cfg.ttl, spawns) && s'.tunnels.now == s.tunnels.now
            && s'.cache == s.cache && c < |s'.calls| && s'.calls[c].cluster == s.calls[c].cluster
            && (if outcome.Answered? then s'.calls[c].pc == Ensured(pc.value, pc.origin) else Reached(s', c, outcome))
  {}

  /** The state of call `c` as it would be if it had run to its end from `s`. */
  ghost predicate Ended(cfg: Config, s: State, c: nat, spawns: bool, s': State)
    requires c < |s.calls| && HasValue(s.calls[c].pc)
  {
    var pc := s.calls[c].pc;
    var outcome := Ends(s.tunnels, pc.value, pc.origin.Fresh?, spawns);
    && Reached(s', c, outcome) && s'.tunnels == TunnelsFor(s.tunnels, pc.value, cfg.ttl, spawns)
    && s'.cache == Keeps(s.cache, s.calls[c].cluster, pc.value, outcome, pc.origin.Fresh?, s.tunnels.now + cfg.ttl)
  }

  lemma ReturnRun(cfg: Config, s: State, c: nat) returns (run: seq<Step>)
    requires Enabled(s, Return(c))
    ensures ValidRun(cfg, s, run) && Final(cfg, s, run) == Apply(cfg, s, Return(c))
  {
    Precede(cfg, s, Return(c), []);
    run := [Return(c)] + [];
  }

  lemma EnsureRun(cfg: Config, s: State, c: nat, spawns: bool) returns (run: seq<Step>)
    requires c < |s.calls| && s.calls[c].pc.Ensuring? && s.calls[c].pc.value.target.Some?
    ensures ValidRun(cfg, s, run) && Ended(cfg, s, c, spawns, Final(cfg, s, run))
  {
    var outcome := Ends(s.tunnels, s.calls[c].pc.value, s.calls[c].pc.origin.Fresh?, spawns);
    var step := if outcome.Refused? then SpawnFails(c) else Ensure(c);
    EnsureThen(cfg, s, c, spawns);
    var s' := Apply(cfg, s, step);
    run := [];
    if outcome.Answered? {
      ReturnThen(cfg, s', c);
      run := ReturnRun(cfg, s', c);
    }
    Precede(cfg, s, step, run);
    run := [step] + run;
  }

  lemma EndRun(cfg: Config, s: State, c: nat, spawns: bool) returns (run: seq<Step>)
    requires c < |s.calls| && (s.calls[c].pc.Ensuring? || s.calls[c].pc.Ensured?)
    requires s.calls[c].pc.Ensuring? == s.calls[c].pc.value.target.Some?
    ensures ValidRun(cfg, s, run) && Ended(cfg, s, c, spawns, Final(cfg, s, run))
  {
    if s.calls[c].pc.Ensured? {
      ReturnThen(cfg, s, c);
      run := ReturnRun(cfg, s, c);
    } else {
      run := EnsureRun(cfg, s, c, spawns);
    }
  }

  /** What a call has done when it knows its kubeconfig, or has failed to learn it. */
  ghost predicate Informed(cfg: Config, s: State, s': State, cluster: ClusterRef, known: Result<CachedKubeconfig>) {
    var c := |s.calls|;
    && s'.tunnels == s.tunnels && s'.cache == Evicted(s.cache, KubeconfigKey(cluster), s.tunnels.now)
    && |s'.calls| == c + 1 && s'.calls[c].cluster == cluster
    && match known
       case Err(_) => s'.calls[c].pc.Failed?
       case Ok(value) =>
         && (if value.target.Some? then s'.calls[c].pc.Ensuring? else s'.calls[c].pc.Ensured?)
         && s'.calls[c].pc.value == value
         && s'.calls[c].pc.origin.Fresh? == Visible(s.cache, KubeconfigKey(cluster), s.tunnels.now).None?
  }

  lemma LookedRun(cfg: Config, s: State, a: Step, b: Step, rest: seq<Step>)
    requires Enabled(s, a) && Enabled(Apply(cfg, s, a), b) && ValidRun(cfg, Apply(cfg, Apply(cfg, s, a), b), rest)
    ensures ValidRun(cfg, s, [a] + ([b] + rest))
    ensures Final(cfg, s, [a] + ([b] + rest)) == Final(cfg, Apply(cfg, Apply(cfg, s, a), b), rest)
  {
    Precede(cfg, Apply(cfg, s, a), b, rest);
    Precede(cfg, s, a, [b] + rest);
  }

  /** The steps from the start of a call to that point. */
  lemma StartRun(cfg: Config, s: State, cluster: ClusterRef, sourceHost: string, u: Upstream)
    returns (informed: State, start: seq<Step>)
    ensures Informed(cfg, s, informed, cluster, Known(cfg, s.cache, s.tunnels.now, cluster, sourceHost, u))
    ensures forall rest :: ValidRun(cfg, informed, rest) ==>
              ValidRun(cfg, s, start + rest) && Final(cfg, s, start + rest) == Final(cfg, informed, rest)
  {
    var c, host := |s.calls|, HostFor(cfg, sourceHost);
    var begin, step := Begin(cluster, sourceHost), FetchStep(cfg, host, u, c);
    var missed := Visible(s.cache, KubeconfigKey(cluster), s.tunnels.now).None?;
    var looked := LookFirst(cfg, s, cluster, sourceHost);
    if missed { FetchThen(cfg, looked, u, c); }
    informed := if missed then Apply(cfg, looked, step) else looked;
    start := [begin, Look(c)] + if missed then [step] else [];
    forall rest | ValidRun(cfg, informed, rest)
      ensures ValidRun(cfg, s, start + rest) && Final(cfg, s, start + rest) == Final(cfg, informed, rest)
    {
      var tail := if missed then [step] + rest else rest;
      if missed { Precede(cfg, looked, step, rest); }
      LookedRun(cfg, s, begin, Look(c), tail);
      assert start + rest == [begin] + ([Look(c)] + tail);
    }
  }

  /**
   What CachedKubeconfigFor does to the objects is what a run of the pipeline does to its state,
   from any state the other calls may have left; the new call gets as far in both.
   */
  lemma CallIsARun(cfg: Config, s: State, cluster: ClusterRef, sourceHost: string, u: Upstream, spawns: bool)
    returns (run: seq<Step>)
    ensures ValidRun(cfg, s, run)
    ensures var s', c := Final(cfg, s, run), |s.calls|;
            forall outcome, store', t' ::
              Does(cfg, s.cache, s.tunnels, cluster, sourceHost, u, spawns, outcome, store', t') ==>
                Reached(s', c, outcome) && s'.cache == store' && s'.tunnels == t'
  {
    var informed, start := StartRun(cfg, s, cluster, sourceHost, u);
    run := [];
    if Known(cfg, s.cache, s.tunnels.now, cluster, sourceHost, u).Ok? {
      run := EndRun(cfg, informed, |s.calls|, spawns);
    }
    run := start + run;
  }

  /** Four slash-free fields, written as a target, lead to the cluster of those fields. */
  lemma WrittenTargetLeads(sources: map<string, KubeconfigSource>, k: string, x: string, ns: string, n: string)
    requires k in sources && sources[k].name == k && Free(k, '/') && Free(x, '/') && Free(ns, '/') && Free(n, '/')
    ensures Addressed(sources, FormatTarget(Cluster(k, x, ns, n, map[]))) == Some(ClusterRef(k, x, ns, n))
  {
    var c := Cluster(k, x, ns, n, map[]);
    assert SlashFree(c) && Bare(c) == c;
    ParseOfFormat(c);
  }

  /**
   With "prod", "a", "b", "n" and "x": the target "prod/a/b:n/x" leads to a cluster that has the
   cache key of "prod/a:b/n/x", though no cluster can be in a namespace "b:n".
   */
  lemma ColonTargetsShareAKey(sources: map<string, KubeconfigSource>, k: string, x: string, y: string, ns: string,
                              n: string)
    requires k in sources && sources[k].name == k
    requires Free(k, '/') && Free(x, '/') && Free(y, '/') && Free(ns, '/') && Free(n, '/')
    ensures var c, d := ClusterRef(k, x + ":" + y, ns, n), ClusterRef(k, x, y + ":" + ns, n);
            && Addressed(sources, FormatTarget(Listed(c))) == Some(c)
            && Addressed(sources, FormatTarget(Listed(d))) == Some(d)
            && c != d && KubeconfigKey(c) == KubeconfigKey(d)
  {
    WrittenTargetLeads(sources, k, x + ":" + y, ns, n);
    WrittenTargetLeads(sources, k, x, y + ":" + ns, n);
    ColonsMoveBetweenFields(k, x, y, ns, n);
  }

  /** So, once the first is cached, the second is answered with the kubeconfig of the first. */
  lemma ColonTargetGetsAnothers(cfg: Config, sources: map<string, KubeconfigSource>, k: string, x: string, y: string,
                                ns: string,
                                n: string, raw: string)
    returns (run: seq<Step>)
    requires k in sources && sources[k].name == k
    requires Free(k, '/') && Free(x, '/') && Free(y, '/') && Free(ns, '/') && Free(n, '/')
    requires cfg.ttl >= 0 && cfg.transform(raw).Ok?
    ensures ValidRun(cfg, INIT, run) && Returns(cfg, run, 1)
    ensures var d := ClusterRef(k, x, y + ":" + ns, n);
            && Addressed(sources, FormatTarget(Listed(d))) == Some(d) && Final(cfg, INIT, run).calls[1].cluster == d
            && !AnswersARead(cfg, Final(cfg, INIT, run), Log(cfg, INIT, run), 1)
  {
    ColonTargetsShareAKey(sources, k, x, y, ns, n);
    run := SharedKeyAnswersForAnother(cfg, ClusterRef(k, x + ":" + y, ns, n), ClusterRef(k, x, y + ":" + ns, n), raw);
  }

  /**
   The fan-out of get_cluster_kubeconfig over the pipeline: its calls share the cache and the
   tunnels, with each other and with everyone else. If no two of the clusters asked for share a
   cache key, the entry of each target that succeeds answers for that target's own cluster.
   */
  lemma EachTargetGetsItsOwn(cfg: Config, run: seq<Step>, sources: map<string, KubeconfigSource>, targets: seq<string>,
                             calls: seq<nat>, i: nat)
    requires ValidRun(cfg, INIT, run) && KeysDiffer(AskedIn(run))
    requires forall k :: k in sources ==> sources[k].name == k
    requires i < |targets| == |calls| && forall j :: 0 <= j < |calls| ==> calls[j] < |Final(cfg, INIT, run).calls|
    requires forall j :: 0 <= j < |calls| ==>
               Addressed(sources, targets[j]) == Some(Final(cfg, INIT, run).calls[calls[j]].cluster)
    ensures var s := Final(cfg, INIT, run);
            && targets[i] == FormatTarget(Listed(s.calls[calls[i]].cluster))
            && (s.calls[calls[i]].pc.Returned? ==> AnswersARead(cfg, s, Log(cfg, INIT, run), calls[i]))
  {
    var s := Final(cfg, INIT, run);
    TargetsLeadToTheirClusters(sources, targets[i], s.calls[calls[i]].cluster);
    if s.calls[calls[i]].pc.Returned? { ReturnsAFetchOfItsCluster(cfg, run, calls[i]); }
  }

  /** The clusters that targets lead to. */
  ghost function Reachable(sources: map<string, KubeconfigSource>, targets: iset<string>): iset<ClusterRef> {
    iset x: ClusterRef | exists t :: t in targets && Addressed(sources, t) == Some(x)
  }

  /**
   For a set of targets, in whatever runs they are asked for: every one that succeeds answers for
   its own cluster if and only if no two of their clusters share a cache key; or nothing stays
   cached, or nothing can be answered at all.
   */
  lemma TargetsGetTheirOwnIff(cfg: Config, sources: map<string, KubeconfigSource>, targets: iset<string>)
    ensures AllAnswer(cfg, Reachable(sources, targets)) <==>
              KeysDiffer(Reachable(sources, targets)) || cfg.ttl < 0 || forall raw :: cfg.transform(raw).Err?
  {
    AllAnswerIff(cfg, Reachable(sources, targets));
  }
}
