/**
 cachedKubeconfig (internal/server/kubeconfig.go) over the shared cache and the tunnel manager:
 any number of calls interleave, step by step, with each other, with tunnels that exit or reach
 their TTL, with KillAll and with the clock. What the management cluster answers, and the jq
 transform, are arbitrary.
 */
module KubeconfigPipeline {
  import opened Outcomes
  import opened CacheKeys
  import Cache = TtlCache
  import Tunnels = TunnelTimed

  datatype ProxyTarget = ProxyTarget(sshuttleHost: string, ip: string, port: string)
  datatype CachedKubeconfig = CachedKubeconfig(kubeconfig: string, target: Option<ProxyTarget>)
  datatype Endpoint = Endpoint(ip: string, port: string)

  datatype Config = Config(ttl: int, sshuttleHost: string, transform: string -> Result<string>)

  /** The source's own host, else the global one (lines 24-27). */
  function HostFor(cfg: Config, sourceHost: string): string {
    if sourceHost == "" then cfg.sshuttleHost else sourceHost
  }

  /** What was read from the management cluster, by which call, for which cluster and with which host. Auxiliary. */
  datatype Fetch = Fetch(call: nat, cluster: ClusterRef, host: string, raw: string, server: Option<Endpoint>)

  /** Where a value comes from: a fetch of this call, or a fetch stored earlier. Auxiliary. */
  datatype Origin = Fresh(fetch: nat) | FromCache(fetch: nat, storedAt: int, readAt: int)

  datatype Pc =
    | Looking                                                 // 31
    | Fetching                                                // 40-61
    | Ensuring(value: CachedKubeconfig, origin: Origin)       // 33, 63: calling EnsureProxy
    | Waiting(value: CachedKubeconfig, origin: Origin)        // inside EnsureProxy, startup window
    | Ensured(value: CachedKubeconfig, origin: Origin)        // 37, 70
    | Returned(value: CachedKubeconfig, origin: Origin)
    | Failed

  datatype Call = Call(cluster: ClusterRef, host: string, pc: Pc)

  /** Which fetch a cache entry was stored from, and when. Auxiliary. */
  datatype Stored = Stored(fetch: nat, at: int)

  datatype State = State(
    tunnels: Tunnels.State, cache: map<string, Cache.Entry<CachedKubeconfig>>, calls: seq<Call>,
    fetches: seq<Fetch>, stored: map<string, Stored>,
    excused: set<string>)  // tunnels that exited or were killed by KillAll since last ensured

  const INIT := State(Tunnels.INIT, map[], [], [], map[], {})

  datatype Step =
    | Begin(cluster: ClusterRef, sourceHost: string)
    | Look(c: nat)
    | FetchFails(c: nat)
    | Fetches(c: nat, raw: string, server: Option<Endpoint>)
    | Ensure(c: nat)
    | SpawnFails(c: nat)
    | Return(c: nat)
    | StartupElapses(key: string)
    | StartupExits(key: string)
    | TunnelExits(key: string)
    | KillsOne(key: string)
    | TtlFires(timer: nat)
    | Advance(d: int)

  function KeyOf(t: ProxyTarget): string {
    TargetKey(t.ip, t.port)
  }

  predicate HasValue(pc: Pc) {
    pc.Ensuring? || pc.Waiting? || pc.Ensured? || pc.Returned?
  }

  /** The tunnel a call in this state depends on. */
  function NeedsTunnel(pc: Pc): Option<string> {
    if HasValue(pc) && pc.value.target.Some? then Some(KeyOf(pc.value.target.value)) else None
  }

  predicate WaitsFor(pc: Pc, key: string) {
    pc.Waiting? && NeedsTunnel(pc) == Some(key)
  }

  predicate Enabled(s: State, step: Step) {
    match step
    case Begin(_, _) => true
    case Look(c) => c < |s.calls| && s.calls[c].pc.Looking?
    case FetchFails(c) => c < |s.calls| && s.calls[c].pc.Fetching?
    case Fetches(c, _, _) => c < |s.calls| && s.calls[c].pc.Fetching?
    case Ensure(c) => c < |s.calls| && s.calls[c].pc.Ensuring? && s.calls[c].pc.value.target.Some?
    case SpawnFails(c) =>
      && c < |s.calls| && s.calls[c].pc.Ensuring? && s.calls[c].pc.value.target.Some?
      && var key := KeyOf(s.calls[c].pc.value.target.value);
         key !in s.tunnels.entries && key !in s.tunnels.starting
    case Return(c) => c < |s.calls| && s.calls[c].pc.Ensured?
    case StartupElapses(key) => key in s.tunnels.starting && s.tunnels.starting[key].due <= s.tunnels.now
    case StartupExits(key) => key in s.tunnels.starting
    case TunnelExits(key) => key in s.tunnels.entries
    case KillsOne(_) => true
    case TtlFires(t) => t in s.tunnels.alarms && s.tunnels.alarms[t].due <= s.tunnels.now
    case Advance(d) => Tunnels.Enabled(s.tunnels, Tunnels.Advance(d))
  }

  function Goto(s: State, c: nat, pc: Pc): State
    requires c < |s.calls|
  {
    s.(calls := s.calls[c := s.calls[c].(pc := pc)])
  }

  /** Every call that shares the attempt for `key` gets its outcome. */
  function Wake(calls: seq<Call>, key: string, ok: bool): seq<Call> {
    seq(|calls|, c requires 0 <= c < |calls| =>
      if !WaitsFor(calls[c].pc, key) then calls[c]
      else calls[c].(pc := if ok then Ensured(calls[c].pc.value, calls[c].pc.origin) else Failed))
  }

  function ApplyLook(cfg: Config, s: State, c: nat): State
    requires Enabled(s, Look(c))
  {
    var key := KubeconfigKey(s.calls[c].cluster);
    var s1 := s.(cache := Cache.Evicted(s.cache, key, s.tunnels.now));
    match Cache.Visible(s.cache, key, s.tunnels.now)
    case None => Goto(s1, c, Fetching)
    case Some(v) =>
      var note := if key in s.stored then s.stored[key] else Stored(0, 0);
      var origin := FromCache(note.fetch, note.at, s.tunnels.now);
      Goto(s1, c, if v.target.Some? then Ensuring(v, origin) else Ensured(v, origin))
  }

  function ApplyFetch(cfg: Config, s: State, c: nat, raw: string, server: Option<Endpoint>): State
    requires Enabled(s, Fetches(c, raw, server))
  {
    var s1 := s.(fetches := s.fetches + [Fetch(c, s.calls[c].cluster, s.calls[c].host, raw, server)]);
    var host := s.calls[c].host;
    match cfg.transform(raw)
    case Err(_) => Goto(s1, c, Failed)
    case Ok(kc) =>
      if host != "" && server.Some? then
        Goto(s1, c, Ensuring(CachedKubeconfig(kc, Some(ProxyTarget(host, server.value.ip, server.value.port))),
                             Fresh(|s.fetches|)))
      else
        Goto(s1, c, Ensured(CachedKubeconfig(kc, None), Fresh(|s.fetches|)))
  }

  function ApplyEnsure(cfg: Config, s: State, c: nat): State
    requires Enabled(s, Ensure(c))
  {
    var pc := s.calls[c].pc;
    var key := KeyOf(pc.value.target.value);
    if key in s.tunnels.starting then
      Goto(s, c, Waiting(pc.value, pc.origin))
    else if key in s.tunnels.entries then
      Goto(s.(tunnels := Tunnels.RefreshTunnel(s.tunnels, key, cfg.ttl), excused := s.excused - {key}),
           c, Ensured(pc.value, pc.origin))
    else
      Goto(s.(tunnels := Tunnels.StartTunnel(s.tunnels, key, cfg.ttl)), c, Waiting(pc.value, pc.origin))
  }

  function ApplyReturn(cfg: Config, s: State, c: nat): State
    requires Enabled(s, Return(c))
  {
    var pc := s.calls[c].pc;
    var key := KubeconfigKey(s.calls[c].cluster);
    var s1 := if pc.origin.FromCache? then s else
      s.(cache := s.cache[key := Cache.Entry(pc.value, s.tunnels.now + cfg.ttl)],
         stored := s.stored[key := Stored(pc.origin.fetch, s.tunnels.now)]);
    Goto(s1, c, Returned(pc.value, pc.origin))
  }

  function Apply(cfg: Config, s: State, step: Step): State
    requires Enabled(s, step)
  {
    match step
    case Begin(cluster, sourceHost) => s.(calls := s.calls + [Call(cluster, HostFor(cfg, sourceHost), Looking)])
    case Look(c) => ApplyLook(cfg, s, c)
    case FetchFails(c) => Goto(s, c, Failed)
    case Fetches(c, raw, server) => ApplyFetch(cfg, s, c, raw, server)
    case Ensure(c) => ApplyEnsure(cfg, s, c)
    case SpawnFails(c) => Goto(s, c, Failed)
    case Return(c) => ApplyReturn(cfg, s, c)
    case StartupElapses(key) =>
      s.(tunnels := Tunnels.RegisterTunnel(s.tunnels, key), calls := Wake(s.calls, key, true),
         excused := s.excused - {key})
    case StartupExits(key) =>
      s.(tunnels := Tunnels.Apply(s.tunnels, Tunnels.ExitEarly(key)), calls := Wake(s.calls, key, false))
    case TunnelExits(key) => s.(tunnels := Tunnels.Untrack(s.tunnels, key), excused := s.excused + {key})
    case KillsOne(key) => s.(tunnels := Tunnels.KillEntry(s.tunnels, key), excused := s.excused + {key})
    case TtlFires(t) => s.(tunnels := Tunnels.Apply(s.tunnels, Tunnels.Fire(t)))
    case Advance(d) => s.(tunnels := Tunnels.Apply(s.tunnels, Tunnels.Advance(d)))
  }

  ghost predicate ValidRun(cfg: Config, s: State, run: seq<Step>)
    decreases |run|
  {
    run == [] || (Enabled(s, run[0]) && ValidRun(cfg, Apply(cfg, s, run[0]), run[1..]))
  }

  ghost function Final(cfg: Config, s: State, run: seq<Step>): State
    requires ValidRun(cfg, s, run)
    decreases |run|
  {
    if run == [] then s else Final(cfg, Apply(cfg, s, run[0]), run[1..])
  }

  lemma Precede(cfg: Config, s: State, step: Step, rest: seq<Step>)
    requires Enabled(s, step) && ValidRun(cfg, Apply(cfg, s, step), rest)
    ensures ValidRun(cfg, s, [step] + rest) && Final(cfg, s, [step] + rest) == Final(cfg, Apply(cfg, s, step), rest)
  {
    assert ([step] + rest)[1..] == rest;
  }

  // ---------------------------------------------------------------- where values come from

  /**
   A tunnel is needed if and only if a host is configured and the API server is restricted; it leads
   to that server, through that host.
   */
  predicate Leads(target: Option<ProxyTarget>, host: string, server: Option<Endpoint>) {
    && (target.Some? <==> host != "" && server.Some?)
    && (target.Some? ==>
          target.value.sshuttleHost == host && target.value.ip == server.value.ip
          && target.value.port == server.value.port)
  }

  /** `value` is what `fetch` read: the transform of the Secret, and the tunnel to the API server. */
  ghost predicate IsOf(cfg: Config, value: CachedKubeconfig, fetch: Fetch) {
    cfg.transform(fetch.raw) == Ok(value.kubeconfig) && Leads(value.target, fetch.host, fetch.server)
  }

  /** `value` is what was read in `fetch`, for a cluster with the cache key of `cluster`. */
  ghost predicate FetchedFor(cfg: Config, s: State, fetch: nat, cluster: ClusterRef, value: CachedKubeconfig) {
    && fetch < |s.fetches|
    && KubeconfigKey(s.fetches[fetch].cluster) == KubeconfigKey(cluster)
    && IsOf(cfg, value, s.fetches[fetch])
  }

  ghost predicate CallInv(cfg: Config, s: State, c: nat)
    requires c < |s.calls|
  {
    var call := s.calls[c];
    HasValue(call.pc) ==>
      && FetchedFor(cfg, s, call.pc.origin.fetch, call.cluster, call.pc.value)
      && (call.pc.origin.Fresh? ==>
            s.fetches[call.pc.origin.fetch].call == c && s.fetches[call.pc.origin.fetch].cluster == call.cluster)
      && (call.pc.origin.FromCache? ==>
            call.pc.origin.storedAt <= call.pc.origin.readAt <= call.pc.origin.storedAt + cfg.ttl)
  }

  ghost predicate EntryInv(cfg: Config, s: State, key: string)
    requires key in s.cache
  {
    && key in s.stored && s.stored[key].fetch < |s.fetches|
    && KubeconfigKey(s.fetches[s.stored[key].fetch].cluster) == key
    && IsOf(cfg, s.cache[key].value, s.fetches[s.stored[key].fetch])
    && s.cache[key].expiresAt == s.stored[key].at + cfg.ttl && s.stored[key].at <= s.tunnels.now
  }

  ghost predicate FetchInv(s: State, f: nat)
    requires f < |s.fetches|
  {
    var fetch := s.fetches[f];
    fetch.call < |s.calls| && fetch.cluster == s.calls[fetch.call].cluster && fetch.host == s.calls[fetch.call].host
  }

  ghost predicate ValueInv(cfg: Config, s: State) {
    && (forall c :: 0 <= c < |s.calls| ==> CallInv(cfg, s, c))
    && (forall key :: key in s.cache ==> EntryInv(cfg, s, key))
    && (forall f :: 0 <= f < |s.fetches| ==> FetchInv(s, f))
  }

  /** The call has kept its value and origin, or dropped them; past fetches stand. */
  ghost predicate KeptCall(s: State, s': State, c: nat)
    requires c < |s.calls|
  {
    && s.fetches <= s'.fetches && c < |s'.calls| && s'.calls[c].cluster == s.calls[c].cluster
    && (HasValue(s'.calls[c].pc) ==>
          HasValue(s.calls[c].pc)
          && s'.calls[c].pc.value == s.calls[c].pc.value && s'.calls[c].pc.origin == s.calls[c].pc.origin)
  }

  lemma StepKeepsCall(cfg: Config, s: State, step: Step, c: nat)
    requires Enabled(s, step) && c < |s.calls| && step != Look(c) && !(step.Fetches? && step.c == c)
    ensures KeptCall(s, Apply(cfg, s, step), c)
  {}

  lemma LookGivesOrigin(cfg: Config, s: State, c: nat)
    requires ValueInv(cfg, s) && Enabled(s, Look(c))
    ensures CallInv(cfg, ApplyLook(cfg, s, c), c)
  {
    var key := KubeconfigKey(s.calls[c].cluster);
    if key in s.cache { assert EntryInv(cfg, s, key); }
  }

  lemma FetchGivesOrigin(cfg: Config, s: State, c: nat, raw: string, server: Option<Endpoint>)
    requires ValueInv(cfg, s) && Enabled(s, Fetches(c, raw, server))
    ensures CallInv(cfg, ApplyFetch(cfg, s, c, raw, server), c)
  {}

  lemma KeptKeepsInv(cfg: Config, s: State, s': State, c: nat)
    requires c < |s.calls| && CallInv(cfg, s, c) && KeptCall(s, s', c)
    ensures CallInv(cfg, s', c)
  {}

  lemma StepKeepsCalls(cfg: Config, s: State, step: Step, c: nat)
    requires ValueInv(cfg, s) && Enabled(s, step) && c < |Apply(cfg, s, step).calls|
    ensures CallInv(cfg, Apply(cfg, s, step), c)
  {
    if c >= |s.calls| {
      assert step.Begin?;
    } else if step == Look(c) {
      LookGivesOrigin(cfg, s, c);
    } else if step.Fetches? && step.c == c {
      FetchGivesOrigin(cfg, s, c, step.raw, step.server);
    } else {
      StepKeepsCall(cfg, s, step, c);
      assert CallInv(cfg, s, c);
      KeptKeepsInv(cfg, s, Apply(cfg, s, step), c);
    }
  }

  /** Only a returning call changes the cache, and only by adding its own entry; a look may evict. */
  lemma CacheChangesOnReturn(cfg: Config, s: State, step: Step, key: string)
    requires Enabled(s, step) && key in Apply(cfg, s, step).cache
    ensures var s' := Apply(cfg, s, step);
            || (key in s.cache && s'.cache[key] == s.cache[key]
                && (key in s.stored ==> key in s'.stored && s'.stored[key] == s.stored[key]))
            || (step.Return? && KubeconfigKey(s.calls[step.c].cluster) == key && s.calls[step.c].pc.origin.Fresh?
                && s'.calls[step.c].pc.Returned?)
  {}

  lemma TimePasses(cfg: Config, s: State, step: Step)
    requires Enabled(s, step)
    ensures s.tunnels.now <= Apply(cfg, s, step).tunnels.now && s.fetches <= Apply(cfg, s, step).fetches
    ensures !step.Advance? ==> Apply(cfg, s, step).tunnels.now == s.tunnels.now
  {}

  lemma StepKeepsEntries(cfg: Config, s: State, step: Step, key: string)
    requires ValueInv(cfg, s) && Enabled(s, step) && key in Apply(cfg, s, step).cache
    ensures EntryInv(cfg, Apply(cfg, s, step), key)
  {
    CacheChangesOnReturn(cfg, s, step, key);
    TimePasses(cfg, s, step);
    if key in s.cache { assert EntryInv(cfg, s, key); }
    if step.Return? { assert CallInv(cfg, s, step.c); }
  }

  /** Calls are never dropped, and stay calls for the same cluster, through the same host. */
  lemma CallsStay(cfg: Config, s: State, step: Step, c: nat)
    requires Enabled(s, step) && c < |s.calls|
    ensures c < |Apply(cfg, s, step).calls| && Apply(cfg, s, step).calls[c].cluster == s.calls[c].cluster
    ensures Apply(cfg, s, step).calls[c].host == s.calls[c].host
  {}

  lemma StepKeepsFetches(cfg: Config, s: State, step: Step, f: nat)
    requires ValueInv(cfg, s) && Enabled(s, step) && f < |Apply(cfg, s, step).fetches|
    ensures FetchInv(Apply(cfg, s, step), f)
  {
    TimePasses(cfg, s, step);
    if f < |s.fetches| {
      assert FetchInv(s, f);
      CallsStay(cfg, s, step, s.fetches[f].call);
    } else {
      assert step.Fetches? && Apply(cfg, s, step).fetches[f].call == step.c;
      CallsStay(cfg, s, step, step.c);
    }
  }

  lemma StepKeepsValues(cfg: Config, s: State, step: Step)
    requires ValueInv(cfg, s) && Enabled(s, step)
    ensures ValueInv(cfg, Apply(cfg, s, step))
  {
    var s' := Apply(cfg, s, step);
    forall c | 0 <= c < |s'.calls| ensures CallInv(cfg, s', c) { StepKeepsCalls(cfg, s, step, c); }
    forall key | key in s'.cache ensures EntryInv(cfg, s', key) { StepKeepsEntries(cfg, s, step, key); }
    forall f | 0 <= f < |s'.fetches| ensures FetchInv(s', f) { StepKeepsFetches(cfg, s, step, f); }
  }

  lemma {:induction false} RunKeepsValues(cfg: Config, s: State, run: seq<Step>)
    requires ValueInv(cfg, s) && ValidRun(cfg, s, run)
    ensures ValueInv(cfg, Final(cfg, s, run))
    decreases |run|
  {
    if run != [] {
      StepKeepsValues(cfg, s, run[0]);
      RunKeepsValues(cfg, Apply(cfg, s, run[0]), run[1..]);
    }
  }

  /** The entry is what the call that made its fetch returned. */
  ghost predicate ReturnedFirst(s: State, key: string)
    requires key in s.cache
  {
    && key in s.stored && s.stored[key].fetch < |s.fetches|
    && var c := s.fetches[s.stored[key].fetch].call;
       c < |s.calls| && s.calls[c].pc == Returned(s.cache[key].value, Fresh(s.stored[key].fetch))
  }

  lemma ReturnedStays(cfg: Config, s: State, step: Step, c: nat)
    requires Enabled(s, step) && c < |s.calls| && s.calls[c].pc.Returned?
    ensures c < |Apply(cfg, s, step).calls| && Apply(cfg, s, step).calls[c].pc == s.calls[c].pc
  {}

  lemma StepKeepsReturned(cfg: Config, s: State, step: Step, key: string)
    requires ValueInv(cfg, s) && Enabled(s, step) && key in Apply(cfg, s, step).cache
    requires key in s.cache ==> ReturnedFirst(s, key)
    ensures ReturnedFirst(Apply(cfg, s, step), key)
  {
    var s' := Apply(cfg, s, step);
    CacheChangesOnReturn(cfg, s, step, key);
    TimePasses(cfg, s, step);
    if key in s.cache && s'.cache[key] == s.cache[key] && s'.stored[key] == s.stored[key] {
      ReturnedStays(cfg, s, step, s.fetches[s.stored[key].fetch].call);
    } else {
      assert CallInv(cfg, s, step.c);
    }
  }

  lemma {:induction false} RunKeepsReturned(cfg: Config, s: State, run: seq<Step>)
    requires ValueInv(cfg, s) && ValidRun(cfg, s, run) && forall key :: key in s.cache ==> ReturnedFirst(s, key)
    ensures forall key :: key in Final(cfg, s, run).cache ==> ReturnedFirst(Final(cfg, s, run), key)
    decreases |run|
  {
    if run != [] {
      var s' := Apply(cfg, s, run[0]);
      StepKeepsValues(cfg, s, run[0]);
      forall key | key in s'.cache ensures ReturnedFirst(s', key) { StepKeepsReturned(cfg, s, run[0], key); }
      RunKeepsReturned(cfg, s', run[1..]);
    }
  }

  /** Failed calls never store: whatever is cached after any run was returned by the call that fetched it. */
  lemma FailedCallsNeverStore(cfg: Config, run: seq<Step>, key: string)
    requires ValidRun(cfg, INIT, run) && key in Final(cfg, INIT, run).cache
    ensures var s := Final(cfg, INIT, run);
            exists c :: 0 <= c < |s.calls| && s.calls[c].pc.Returned? && s.calls[c].pc.origin.Fresh?
              && s.calls[c].pc.value == s.cache[key].value && KubeconfigKey(s.calls[c].cluster) == key
  {
    RunKeepsValues(cfg, INIT, run);
    RunKeepsReturned(cfg, INIT, run);
    var s := Final(cfg, INIT, run);
    assert ReturnedFirst(s, key) && EntryInv(cfg, s, key);
    var f := s.stored[key].fetch;
    assert FetchInv(s, f);
  }

  // ---------------------------------------------------------------- every return is backed by EnsureProxy

  /** The step is the success of an EnsureProxy made by call `c`: a refresh of its own, or the attempt it waits for. */
  ghost predicate EnsuresFor(s: State, step: Step, c: nat)
    requires Enabled(s, step)
  {
    c < |s.calls| && NeedsTunnel(s.calls[c].pc).Some? &&
    (var key := NeedsTunnel(s.calls[c].pc).value;
     || (step == Ensure(c) && key in s.tunnels.entries && key !in s.tunnels.starting)
     || (step == StartupElapses(key) && s.calls[c].pc.Waiting?))
  }

  ghost predicate EnsuredDuring(cfg: Config, s: State, run: seq<Step>, c: nat)
    requires ValidRun(cfg, s, run)
    decreases |run|
  {
    run != [] && (EnsuresFor(s, run[0], c) || EnsuredDuring(cfg, Apply(cfg, s, run[0]), run[1..], c))
  }

  ghost predicate PastEnsure(s: State, c: nat) {
    c < |s.calls| && (s.calls[c].pc.Ensured? || s.calls[c].pc.Returned?) && NeedsTunnel(s.calls[c].pc).Some?
  }

  lemma PastEnsureStep(cfg: Config, s: State, step: Step, c: nat)
    requires Enabled(s, step) && PastEnsure(Apply(cfg, s, step), c)
    ensures PastEnsure(s, c) || EnsuresFor(s, step, c)
  {}

  lemma {:induction false} EnsuredBefore(cfg: Config, s: State, run: seq<Step>, c: nat)
    requires ValidRun(cfg, s, run) && !PastEnsure(s, c) && PastEnsure(Final(cfg, s, run), c)
    ensures EnsuredDuring(cfg, s, run, c)
    decreases |run|
  {
    if PastEnsure(Apply(cfg, s, run[0]), c) {
      PastEnsureStep(cfg, s, run[0], c);
    } else {
      EnsuredBefore(cfg, Apply(cfg, s, run[0]), run[1..], c);
    }
  }

  /**
   A kubeconfig that needs a tunnel is returned, from the cache or not, only after an EnsureProxy of
   the same call succeeded.
   */
  lemma ReturnFollowsEnsure(cfg: Config, run: seq<Step>, c: nat)
    requires ValidRun(cfg, INIT, run) && c < |Final(cfg, INIT, run).calls|
    requires Final(cfg, INIT, run).calls[c].pc.Returned? && Final(cfg, INIT, run).calls[c].pc.value.target.Some?
    ensures EnsuredDuring(cfg, INIT, run, c)
  {
    EnsuredBefore(cfg, INIT, run, c);
  }
}
