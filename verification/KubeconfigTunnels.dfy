/**
 Cached kubeconfigs and the tunnels they depend on: what a run of the pipeline keeps between the
 cache of internal/server/kubeconfig.go and the tunnel manager of internal/proxy/manager.go. A
 cached kubeconfig keeps its tunnel exactly when the tunnel was ensured no earlier than the
 kubeconfig was stored, which is so whenever calls take no time between the two.
 */
module KubeconfigTunnels {
  import opened Outcomes
  import opened CacheKeys
  import opened KubeconfigPipeline
  import Cache = TtlCache
  import Tunnels = TunnelTimed

  /** The tunnel is tracked and its TTL timer not due before `until`. */
  ghost predicate UpUntil(t: Tunnels.State, key: string, until: int) {
    key in t.entries && t.entries[key].timer in t.alarms && until <= t.alarms[t.entries[key].timer].due
  }

  // ---------------------------------------------------------------- the manager inside the pipeline

  /** What a step asks of the tunnel manager, if anything. */
  function TunnelStep(cfg: Config, s: State, step: Step): Option<Tunnels.Step>
    requires Enabled(s, step)
  {
    match step
    case Ensure(c) =>
      var key := KeyOf(s.calls[c].pc.value.target.value);
      if key in s.tunnels.starting then None
      else if key in s.tunnels.entries then Some(Tunnels.Refresh(key, cfg.ttl))
      else Some(Tunnels.Spawn(key, cfg.ttl))
    case StartupElapses(key) => Some(Tunnels.Register(key))
    case StartupExits(key) => Some(Tunnels.ExitEarly(key))
    case TunnelExits(key) => Some(Tunnels.Exit(key))
    case KillsOne(key) => Some(Tunnels.Kill(key))
    case TtlFires(t) => Some(Tunnels.Fire(t))
    case Advance(d) => Some(Tunnels.Advance(d))
    case _ => None
  }

  /** So a run of the pipeline is, for the tunnels, a run of the tunnel manager. */
  lemma TunnelsStepAlong(cfg: Config, s: State, step: Step)
    requires Enabled(s, step)
    ensures match TunnelStep(cfg, s, step)
            case None => Apply(cfg, s, step).tunnels == s.tunnels
            case Some(t) => Tunnels.Enabled(s.tunnels, t) && Apply(cfg, s, step).tunnels == Tunnels.Apply(s.tunnels, t)
  {}

  /** The tunnel manager inside a pipeline run has made a run of its own, so the promises of TunnelTimed hold of it. */
  lemma {:induction false} PipelineRunsTheManager(cfg: Config, s: State, run: seq<Step>)
    returns (trace: seq<Tunnels.Step>)
    requires ValidRun(cfg, s, run)
    ensures Tunnels.ValidRun(s.tunnels, trace) && Tunnels.Final(s.tunnels, trace) == Final(cfg, s, run).tunnels
    decreases |run|
  {
    if run == [] { return []; }
    TunnelsStepAlong(cfg, s, run[0]);
    trace := PipelineRunsTheManager(cfg, Apply(cfg, s, run[0]), run[1..]);
    var t := TunnelStep(cfg, s, run[0]);
    if t.Some? { trace := [t.value] + trace; }
  }

  // ---------------------------------------------------------------- what the steps of a run tell of a tunnel

  /** An EnsureProxy for the tunnel succeeds in this step. */
  predicate EnsuresTunnel(cfg: Config, s: State, step: Step, tunnel: string)
    requires Enabled(s, step)
  {
    TunnelStep(cfg, s, step) == Some(Tunnels.Refresh(tunnel, cfg.ttl)) || step == StartupElapses(tunnel)
  }

  /** The tunnel's process exits, or KillAll visits the tunnel. */
  predicate Disturbs(step: Step, tunnel: string) {
    step == TunnelExits(tunnel) || step == KillsOne(tunnel)
  }

  predicate Expires(s: State, step: Step, tunnel: string)
    requires Enabled(s, step)
  {
    step.TtlFires? && s.tunnels.alarms[step.timer].key == tunnel
  }

  predicate Stores(s: State, step: Step, key: string)
    requires Enabled(s, step)
  {
    step.Return? && s.calls[step.c].pc.origin.Fresh? && KubeconfigKey(s.calls[step.c].cluster) == key
  }

  predicate DisturbedBy(cfg: Config, s: State, step: Step, tunnel: string, earlier: bool)
    requires Enabled(s, step)
  {
    if Disturbs(step, tunnel) then true else if EnsuresTunnel(cfg, s, step, tunnel) then false else earlier
  }

  /** The tunnel exited, or KillAll visited it, after it was last ensured. */
  ghost predicate Disturbed(cfg: Config, s: State, run: seq<Step>, tunnel: string, earlier: bool)
    requires ValidRun(cfg, s, run)
    decreases |run|
  {
    if run == [] then earlier
    else Disturbed(cfg, Apply(cfg, s, run[0]), run[1..], tunnel, DisturbedBy(cfg, s, run[0], tunnel, earlier))
  }

  /** When an EnsureProxy for the tunnel last succeeded. */
  ghost function LastEnsured(cfg: Config, s: State, run: seq<Step>, tunnel: string, earlier: Option<int>): Option<int>
    requires ValidRun(cfg, s, run)
    decreases |run|
  {
    if run == [] then earlier else
      var latest := if EnsuresTunnel(cfg, s, run[0], tunnel) then Some(s.tunnels.now) else earlier;
      LastEnsured(cfg, Apply(cfg, s, run[0]), run[1..], tunnel, latest)
  }

  /** When a TTL timer of the tunnel last fired. */
  ghost function LastExpired(cfg: Config, s: State, run: seq<Step>, tunnel: string, earlier: Option<int>): Option<int>
    requires ValidRun(cfg, s, run)
    decreases |run|
  {
    if run == [] then earlier else
      var latest := if Expires(s, run[0], tunnel) then Some(s.tunnels.now) else earlier;
      LastExpired(cfg, Apply(cfg, s, run[0]), run[1..], tunnel, latest)
  }

  /** When a call last stored a kubeconfig under the key. */
  ghost function LastStored(cfg: Config, s: State, run: seq<Step>, key: string, earlier: Option<int>): Option<int>
    requires ValidRun(cfg, s, run)
    decreases |run|
  {
    if run == [] then earlier else
      var latest := if Stores(s, run[0], key) then Some(s.tunnels.now) else earlier;
      LastStored(cfg, Apply(cfg, s, run[0]), run[1..], key, latest)
  }

  function EnsuredAt(s: State, tunnel: string): Option<int> {
    if tunnel in s.tunnels.lastUse then Some(s.tunnels.lastUse[tunnel].at) else None
  }

  function StoredAt(s: State, key: string): Option<int> {
    if key in s.stored then Some(s.stored[key].at) else None
  }

  /** What the step asks of the manager, in the manager's own terms. */
  lemma TunnelStepAbout(cfg: Config, s: State, step: Step, tunnel: string)
    requires Enabled(s, step) && forall k :: k in s.tunnels.starting ==> s.tunnels.starting[k].ttl == cfg.ttl
    ensures var t := TunnelStep(cfg, s, step);
            && (t.Some? ==> Tunnels.Enabled(s.tunnels, t.value))
            && (EnsuresTunnel(cfg, s, step, tunnel) <==>
              t.Some? && Tunnels.Ensures(s.tunnels, t.value, tunnel) == Some(Tunnels.Use(s.tunnels.now, cfg.ttl)))
            && (!EnsuresTunnel(cfg, s, step, tunnel) ==> t.None? || Tunnels.Ensures(s.tunnels, t.value, tunnel) == None)
            && (Disturbs(step, tunnel) <==> t == Some(Tunnels.Exit(tunnel)) || t == Some(Tunnels.Kill(tunnel)))
            && (Expires(s, step, tunnel) <==> t.Some? && t.value.Fire? && s.tunnels.alarms[t.value.timer].key == tunnel)
  {
    match step
    case Ensure(_) =>
    case _ =>
  }

  lemma StepUses(cfg: Config, s: State, step: Step, tunnel: string)
    requires Enabled(s, step) && forall k :: k in s.tunnels.starting ==> s.tunnels.starting[k].ttl == cfg.ttl
    ensures var t, t' := s.tunnels, Apply(cfg, s, step).tunnels;
            if EnsuresTunnel(cfg, s, step, tunnel) then tunnel in t'.lastUse
              && t'.lastUse[tunnel] == Tunnels.Use(t.now, cfg.ttl)
            else if tunnel in t.lastUse then tunnel in t'.lastUse && t'.lastUse[tunnel] == t.lastUse[tunnel]
            else tunnel !in t'.lastUse
    ensures tunnel in Apply(cfg, s, step).tunnels.entries <==>
              EnsuresTunnel(cfg, s, step, tunnel)
              || (tunnel in s.tunnels.entries && !Disturbs(step, tunnel) && !Expires(s, step, tunnel))
  {
    TunnelsStepAlong(cfg, s, step);
    TunnelStepAbout(cfg, s, step, tunnel);
    var t := TunnelStep(cfg, s, step);
    if t.Some? { Tunnels.StepTracks(s.tunnels, t.value, tunnel); }
  }

  lemma StepExcuses(cfg: Config, s: State, step: Step, tunnel: string)
    requires Enabled(s, step)
    ensures tunnel in Apply(cfg, s, step).excused <==> DisturbedBy(cfg, s, step, tunnel, tunnel in s.excused)
  {}

  lemma StepStores(cfg: Config, s: State, step: Step, key: string)
    requires Enabled(s, step)
    ensures StoredAt(Apply(cfg, s, step), key) == if Stores(s, step, key) then Some(s.tunnels.now) else StoredAt(s, key)
  {}

  lemma {:induction false} ExcusedIffDisturbed(cfg: Config, s: State, run: seq<Step>, tunnel: string)
    requires ValidRun(cfg, s, run)
    ensures tunnel in Final(cfg, s, run).excused <==> Disturbed(cfg, s, run, tunnel, tunnel in s.excused)
    decreases |run|
  {
    if run != [] {
      StepExcuses(cfg, s, run[0], tunnel);
      ExcusedIffDisturbed(cfg, Apply(cfg, s, run[0]), run[1..], tunnel);
    }
  }

  lemma {:induction false} StoredAtIsLastStored(cfg: Config, s: State, run: seq<Step>, key: string)
    requires ValidRun(cfg, s, run)
    ensures StoredAt(Final(cfg, s, run), key) == LastStored(cfg, s, run, key, StoredAt(s, key))
    decreases |run|
  {
    if run != [] {
      StepStores(cfg, s, run[0], key);
      StoredAtIsLastStored(cfg, Apply(cfg, s, run[0]), run[1..], key);
    }
  }

  // ---------------------------------------------------------------- the fate of an undisturbed tunnel

  ghost predicate ManagerInv(cfg: Config, s: State) {
    Tunnels.Inv(s.tunnels) && forall k :: k in s.tunnels.starting ==> s.tunnels.starting[k].ttl == cfg.ttl
  }

  /** Once ensured and not disturbed, a tunnel is tracked until its TTL timer fires, at its deadline. */
  ghost predicate Fate(cfg: Config, s: State, tunnel: string, expired: Option<int>) {
    && (expired.Some? ==> expired.value <= s.tunnels.now)
    && (tunnel in s.tunnels.lastUse ==>
          var use := s.tunnels.lastUse[tunnel];
          && use.ttl == cfg.ttl && use.at <= s.tunnels.now
          && (tunnel in s.excused || tunnel in s.tunnels.entries || expired == Some(Tunnels.Due(use.at, use.ttl)))
          && (expired.Some? ==> expired.value <= use.at || expired.value == Tunnels.Due(use.at, use.ttl)))
  }

  lemma StepKeepsManager(cfg: Config, s: State, step: Step)
    requires ManagerInv(cfg, s) && Enabled(s, step)
    ensures ManagerInv(cfg, Apply(cfg, s, step))
  {
    TunnelsStepAlong(cfg, s, step);
    var t := TunnelStep(cfg, s, step);
    if t.Some? { Tunnels.StepKeepsInv(s.tunnels, t.value); }
  }

  lemma StepKeepsFate(cfg: Config, s: State, step: Step, tunnel: string, expired: Option<int>)
    requires ManagerInv(cfg, s) && Enabled(s, step) && Fate(cfg, s, tunnel, expired)
    ensures Fate(cfg, Apply(cfg, s, step), tunnel, if Expires(s, step, tunnel) then Some(s.tunnels.now) else expired)
  {
    TimePasses(cfg, s, step);
    StepUses(cfg, s, step, tunnel);
    StepExcuses(cfg, s, step, tunnel);
    if step.TtlFires? { Tunnels.FireIsKill(s.tunnels, step.timer); }
  }

  lemma {:induction false} RunKeepsFate(cfg: Config, s: State, run: seq<Step>, tunnel: string, expired: Option<int>)
    requires ManagerInv(cfg, s) && ValidRun(cfg, s, run) && Fate(cfg, s, tunnel, expired)
    ensures ManagerInv(cfg, Final(cfg, s, run))
    ensures Fate(cfg, Final(cfg, s, run), tunnel, LastExpired(cfg, s, run, tunnel, expired))
    ensures EnsuredAt(Final(cfg, s, run), tunnel) == LastEnsured(cfg, s, run, tunnel, EnsuredAt(s, tunnel))
    decreases |run|
  {
    if run != [] {
      StepKeepsManager(cfg, s, run[0]);
      StepUses(cfg, s, run[0], tunnel);
      StepKeepsFate(cfg, s, run[0], tunnel, expired);
      RunKeepsFate(cfg, Apply(cfg, s, run[0]), run[1..], tunnel,
                   if Expires(s, run[0], tunnel) then Some(s.tunnels.now) else expired);
    }
  }

  /**
   After any run, an ensured and undisturbed tunnel is up until a given moment, or has been ended
   by its TTL at that very moment, if and only if it was last ensured less than a ttl before it.
   */
  lemma UpUntilIffEnsuredSince(cfg: Config, run: seq<Step>, tunnel: string, until: int)
    requires ValidRun(cfg, INIT, run) && !Disturbed(cfg, INIT, run, tunnel, false)
    requires LastEnsured(cfg, INIT, run, tunnel, None).Some? && Final(cfg, INIT, run).tunnels.now <= until
    ensures UpUntil(Final(cfg, INIT, run).tunnels, tunnel, until)
              || LastExpired(cfg, INIT, run, tunnel, None) == Some(until)
            <==> until <= Tunnels.Due(LastEnsured(cfg, INIT, run, tunnel, None).value, cfg.ttl)
  {
    RunKeepsFate(cfg, INIT, run, tunnel, None);
    ExcusedIffDisturbed(cfg, INIT, run, tunnel);
  }

  // ---------------------------------------------------------------- cached kubeconfigs and their tunnels

  /** Calls past their EnsureProxy, and the entries they leave, have had their tunnel ensured. */
  ghost predicate CallLinked(s: State, c: nat) {
    PastEnsure(s, c) ==> NeedsTunnel(s.calls[c].pc).value in s.tunnels.lastUse
  }

  ghost predicate EntryLinked(s: State, key: string)
    requires key in s.cache
  {
    s.cache[key].value.target.Some? ==> KeyOf(s.cache[key].value.target.value) in s.tunnels.lastUse
  }

  ghost predicate Linked(cfg: Config, s: State) {
    && ManagerInv(cfg, s)
    && (forall c: nat :: CallLinked(s, c))
    && (forall key :: key in s.cache ==> EntryLinked(s, key))
  }

  /** A call gets past its EnsureProxy by the success of that EnsureProxy. */
  lemma GetsPastEnsure(cfg: Config, s: State, step: Step, c: nat)
    requires Enabled(s, step) && PastEnsure(Apply(cfg, s, step), c)
    ensures c < |s.calls| && NeedsTunnel(s.calls[c].pc) == NeedsTunnel(Apply(cfg, s, step).calls[c].pc)
    ensures PastEnsure(s, c) || EnsuresTunnel(cfg, s, step, NeedsTunnel(s.calls[c].pc).value)
    ensures Apply(cfg, s, step).calls[c].pc.Ensured? && PastEnsure(s, c) ==> s.calls[c].pc.Ensured?
  {
    PastEnsureStep(cfg, s, step, c);
    if step != Look(c) && !(step.Fetches? && step.c == c) {
      StepKeepsCall(cfg, s, step, c);
    }
    if s.calls[c].pc.Returned? { ReturnedStays(cfg, s, step, c); }
  }

  lemma StepKeepsLinks(cfg: Config, s: State, step: Step)
    requires Linked(cfg, s) && Enabled(s, step)
    ensures Linked(cfg, Apply(cfg, s, step))
  {
    var s' := Apply(cfg, s, step);
    StepKeepsManager(cfg, s, step);
    forall c: nat ensures CallLinked(s', c) {
      if PastEnsure(s', c) {
        GetsPastEnsure(cfg, s, step, c);
        assert CallLinked(s, c);
        StepUses(cfg, s, step, NeedsTunnel(s'.calls[c].pc).value);
      }
    }
    forall key | key in s'.cache ensures EntryLinked(s', key) {
      CacheChangesOnReturn(cfg, s, step, key);
      if s'.cache[key].value.target.Some? {
        StepUses(cfg, s, step, KeyOf(s'.cache[key].value.target.value));
        if key in s.cache && s'.cache[key] == s.cache[key] {
          assert EntryLinked(s, key);
        } else {
          assert CallLinked(s, step.c);
        }
      }
    }
  }

  lemma {:induction false} RunKeepsLinks(cfg: Config, s: State, run: seq<Step>)
    requires Linked(cfg, s) && ValidRun(cfg, s, run)
    ensures Linked(cfg, Final(cfg, s, run))
    decreases |run|
  {
    if run != [] {
      StepKeepsLinks(cfg, s, run[0]);
      RunKeepsLinks(cfg, Apply(cfg, s, run[0]), run[1..]);
    }
  }

  /**
   Whenever the cache would answer with a kubeconfig that needs a tunnel, and the tunnel is not
   disturbed: the tunnel is up until the entry expires, or its TTL has fired at the very instant
   of that expiry, if and only if it was last ensured no earlier than the entry was stored.
   */
  lemma CachedKubeconfigHasTunnelIff(cfg: Config, run: seq<Step>, key: string)
    requires ValidRun(cfg, INIT, run)
    requires var s := Final(cfg, INIT, run);
             && Cache.Visible(s.cache, key, s.tunnels.now).Some? && s.cache[key].value.target.Some?
             && !Disturbed(cfg, INIT, run, KeyOf(s.cache[key].value.target.value), false)
    ensures var s := Final(cfg, INIT, run);
            var tunnel, until := KeyOf(s.cache[key].value.target.value), s.cache[key].expiresAt;
            var stored, ensured := LastStored(cfg, INIT, run, key, None), LastEnsured(cfg, INIT, run, tunnel, None);
            && stored.Some? && ensured.Some? && until == stored.value + cfg.ttl
            && (UpUntil(s.tunnels, tunnel, until) || LastExpired(cfg, INIT, run, tunnel, None) == Some(until)
                <==> stored.value <= ensured.value)
  {
    var s := Final(cfg, INIT, run);
    var tunnel := KeyOf(s.cache[key].value.target.value);
    RunKeepsValues(cfg, INIT, run);
    RunKeepsLinks(cfg, INIT, run);
    assert EntryInv(cfg, s, key) && EntryLinked(s, key);
    StoredAtIsLastStored(cfg, INIT, run, key);
    RunKeepsFate(cfg, INIT, run, tunnel, None);
    UpUntilIffEnsuredSince(cfg, run, tunnel, s.cache[key].expiresAt);
  }

  /**
   A call about to return such a kubeconfig has its tunnel up for a full ttl if and only if the
   tunnel was ensured just now.
   */
  lemma ReturnsWithTunnelUpIff(cfg: Config, run: seq<Step>, c: nat)
    requires ValidRun(cfg, INIT, run)
    requires Enabled(Final(cfg, INIT, run), Return(c)) && Final(cfg, INIT, run).calls[c].pc.value.target.Some?
    requires !Disturbed(cfg, INIT, run, KeyOf(Final(cfg, INIT, run).calls[c].pc.value.target.value), false)
    ensures var s := Final(cfg, INIT, run);
            var tunnel := KeyOf(s.calls[c].pc.value.target.value);
            var until, ensured := Tunnels.Due(s.tunnels.now, cfg.ttl), LastEnsured(cfg, INIT, run, tunnel, None);
            && ensured.Some?
            && (UpUntil(s.tunnels, tunnel, until)
                || (cfg.ttl <= 0 && LastExpired(cfg, INIT, run, tunnel, None) == Some(until))
                <==> ensured.value == s.tunnels.now)
  {
    var s := Final(cfg, INIT, run);
    var tunnel := KeyOf(s.calls[c].pc.value.target.value);
    RunKeepsLinks(cfg, INIT, run);
    assert CallLinked(s, c);
    RunKeepsFate(cfg, INIT, run, tunnel, None);
    UpUntilIffEnsuredSince(cfg, run, tunnel, Tunnels.Due(s.tunnels.now, cfg.ttl));
  }

  // ---------------------------------------------------------------- prompt calls

  /** Calls take no time between the success of their EnsureProxy and their return. */
  ghost predicate Prompt(s: State, step: Step) {
    step.Advance? ==> forall c :: 0 <= c < |s.calls| ==> !s.calls[c].pc.Ensured?
  }

  ghost predicate PromptRun(cfg: Config, s: State, run: seq<Step>)
    requires ValidRun(cfg, s, run)
    decreases |run|
  {
    run == [] || (Prompt(s, run[0]) && PromptRun(cfg, Apply(cfg, s, run[0]), run[1..]))
  }

  ghost predicate CallJustEnsured(s: State, c: nat) {
    c < |s.calls| && s.calls[c].pc.Ensured? && NeedsTunnel(s.calls[c].pc).Some? ==>
      EnsuredAt(s, NeedsTunnel(s.calls[c].pc).value) == Some(s.tunnels.now)
  }

  ghost predicate EntryEnsuredSince(s: State, key: string)
    requires key in s.cache
  {
    s.cache[key].value.target.Some? ==>
      var ensured := EnsuredAt(s, KeyOf(s.cache[key].value.target.value));
      key in s.stored && ensured.Some? && s.stored[key].at <= ensured.value <= s.tunnels.now
  }

  ghost predicate PromptInv(cfg: Config, s: State) {
    && ManagerInv(cfg, s)
    && (forall c: nat :: CallJustEnsured(s, c))
    && (forall key :: key in s.cache ==> EntryEnsuredSince(s, key))
  }

  lemma StepKeepsCallEnsured(cfg: Config, s: State, step: Step, c: nat)
    requires PromptInv(cfg, s) && Enabled(s, step) && Prompt(s, step)
    ensures CallJustEnsured(Apply(cfg, s, step), c)
  {
    var s' := Apply(cfg, s, step);
    if PastEnsure(s', c) && s'.calls[c].pc.Ensured? {
      TimePasses(cfg, s, step);
      GetsPastEnsure(cfg, s, step, c);
      assert CallJustEnsured(s, c);
      StepUses(cfg, s, step, NeedsTunnel(s'.calls[c].pc).value);
    }
  }

  lemma StepKeepsEntryEnsured(cfg: Config, s: State, step: Step, key: string)
    requires PromptInv(cfg, s) && Enabled(s, step) && key in Apply(cfg, s, step).cache
    ensures EntryEnsuredSince(Apply(cfg, s, step), key)
  {
    var s' := Apply(cfg, s, step);
    CacheChangesOnReturn(cfg, s, step, key);
    StepStores(cfg, s, step, key);
    TimePasses(cfg, s, step);
    if s'.cache[key].value.target.Some? {
      StepUses(cfg, s, step, KeyOf(s'.cache[key].value.target.value));
      if key in s.cache && s'.cache[key] == s.cache[key] && !Stores(s, step, key) {
        assert EntryEnsuredSince(s, key);
      } else {
        assert CallJustEnsured(s, step.c);
      }
    }
  }

  lemma StepKeepsPrompt(cfg: Config, s: State, step: Step)
    requires PromptInv(cfg, s) && Enabled(s, step) && Prompt(s, step)
    ensures PromptInv(cfg, Apply(cfg, s, step))
  {
    var s' := Apply(cfg, s, step);
    StepKeepsManager(cfg, s, step);
    forall c: nat ensures CallJustEnsured(s', c) { StepKeepsCallEnsured(cfg, s, step, c); }
    forall key | key in s'.cache ensures EntryEnsuredSince(s', key) { StepKeepsEntryEnsured(cfg, s, step, key); }
  }

  lemma {:induction false} RunKeepsPrompt(cfg: Config, s: State, run: seq<Step>)
    requires PromptInv(cfg, s) && ValidRun(cfg, s, run) && PromptRun(cfg, s, run)
    ensures PromptInv(cfg, Final(cfg, s, run))
    decreases |run|
  {
    if run != [] {
      StepKeepsPrompt(cfg, s, run[0]);
      RunKeepsPrompt(cfg, Apply(cfg, s, run[0]), run[1..]);
    }
  }

  /**
   With prompt calls a cached kubeconfig that needs a tunnel has one for as long as it is cached,
   unless the process exited or KillAll ended it and nothing has ensured it since. At the very
   instant of expiry, at which the cache still answers, the tunnel's TTL may just have fired.
   */
  lemma CachedKubeconfigsHaveTunnels(cfg: Config, run: seq<Step>, key: string)
    requires ValidRun(cfg, INIT, run) && PromptRun(cfg, INIT, run)
    requires var s := Final(cfg, INIT, run);
             Cache.Visible(s.cache, key, s.tunnels.now).Some? && s.cache[key].value.target.Some?
    ensures var s := Final(cfg, INIT, run);
            var tunnel, until := KeyOf(s.cache[key].value.target.value), s.cache[key].expiresAt;
            || Disturbed(cfg, INIT, run, tunnel, false) || UpUntil(s.tunnels, tunnel, until)
            || (s.tunnels.now == until && LastExpired(cfg, INIT, run, tunnel, None) == Some(until))
  {
    var s := Final(cfg, INIT, run);
    var tunnel := KeyOf(s.cache[key].value.target.value);
    if !Disturbed(cfg, INIT, run, tunnel, false) {
      CachedKubeconfigHasTunnelIff(cfg, run, key);
      RunKeepsPrompt(cfg, INIT, run);
      assert EntryEnsuredSince(s, key);
      StoredAtIsLastStored(cfg, INIT, run, key);
      RunKeepsFate(cfg, INIT, run, tunnel, None);
    }
  }

  /**
   With prompt calls, a call about to return a kubeconfig that needs a tunnel has it up for a full
   ttl, cached or not.
   */
  lemma ReturnsWithTunnelUp(cfg: Config, run: seq<Step>, c: nat)
    requires ValidRun(cfg, INIT, run) && PromptRun(cfg, INIT, run)
    requires Enabled(Final(cfg, INIT, run), Return(c)) && Final(cfg, INIT, run).calls[c].pc.value.target.Some?
    ensures var s := Final(cfg, INIT, run);
            var tunnel, until := KeyOf(s.calls[c].pc.value.target.value), Tunnels.Due(s.tunnels.now, cfg.ttl);
            || Disturbed(cfg, INIT, run, tunnel, false) || UpUntil(s.tunnels, tunnel, until)
            || (cfg.ttl <= 0 && LastExpired(cfg, INIT, run, tunnel, None) == Some(until))
  {
    var s := Final(cfg, INIT, run);
    var tunnel := KeyOf(s.calls[c].pc.value.target.value);
    if !Disturbed(cfg, INIT, run, tunnel, false) {
      ReturnsWithTunnelUpIff(cfg, run, c);
      RunKeepsPrompt(cfg, INIT, run);
      assert CallJustEnsured(s, c);
      RunKeepsFate(cfg, INIT, run, tunnel, None);
    }
  }

  // ---------------------------------------------------------------- a run that is not prompt

  /** The states of a run that starts with `step`. */
  lemma StepFirst(cfg: Config, s: State, step: Step, rest: seq<Step>)
    requires Enabled(s, step) && ValidRun(cfg, Apply(cfg, s, step), rest)
    ensures ValidRun(cfg, s, [step] + rest) && Final(cfg, s, [step] + rest) == Final(cfg, Apply(cfg, s, step), rest)
    ensures forall key, earlier :: Disturbed(cfg, s, [step] + rest, key, earlier) ==
              Disturbed(cfg, Apply(cfg, s, step), rest, key, DisturbedBy(cfg, s, step, key, earlier))
  {
    assert ([step] + rest)[1..] == rest;
  }

  /** A first call for a cluster behind a tunnel, as far as the startup window. */
  function Blocked(cfg: Config, raw: string, kc: string, cluster: ClusterRef): State {
    var value := CachedKubeconfig(kc, Some(ProxyTarget("host", "ip", "port")));
    State(Tunnels.StartTunnel(Tunnels.INIT, TargetKey("ip", "port"), cfg.ttl), map[],
          [Call(cluster, "host", Waiting(value, Fresh(0)))],
          [Fetch(0, cluster, "host", raw, Some(Endpoint("ip", "port")))], map[], {})
  }

  lemma GetsBlocked(cfg: Config, raw: string, kc: string, cluster: ClusterRef, rest: seq<Step>, key: string)
    returns (run: seq<Step>)
    requires cfg.transform(raw) == Ok(kc) && ValidRun(cfg, Blocked(cfg, raw, kc, cluster), rest)
    ensures ValidRun(cfg, INIT, run) && Final(cfg, INIT, run) == Final(cfg, Blocked(cfg, raw, kc, cluster), rest)
    ensures Disturbed(cfg, INIT, run, key, false) == Disturbed(cfg, Blocked(cfg, raw, kc, cluster), rest, key, false)
  {
    var begun := State(Tunnels.INIT, map[], [Call(cluster, "host", Looking)], [], map[], {});
    var fetched := Fetches(0, raw, Some(Endpoint("ip", "port")));
    var looked := Apply(cfg, begun, Look(0));
    var ensuring := Apply(cfg, looked, fetched);
    assert Apply(cfg, INIT, Begin(cluster, "host")) == begun;
    assert Apply(cfg, ensuring, Ensure(0)) == Blocked(cfg, raw, kc, cluster);
    StepFirst(cfg, ensuring, Ensure(0), rest); run := [Ensure(0)] + rest;
    StepFirst(cfg, looked, fetched, run); run := [fetched] + run;
    StepFirst(cfg, begun, Look(0), run); run := [Look(0)] + run;
    StepFirst(cfg, INIT, Begin(cluster, "host"), run); run := [Begin(cluster, "host")] + run;
  }

  /** The same call after it was let wait past its EnsureProxy. */
  function Dawdling(cfg: Config, raw: string, kc: string, cluster: ClusterRef): State {
    var value := CachedKubeconfig(kc, Some(ProxyTarget("host", "ip", "port")));
    var t := Tunnels.StartTunnel(Tunnels.INIT, TargetKey("ip", "port"), cfg.ttl).(now := Tunnels.STARTUP_WINDOW);
    State(Tunnels.RegisterTunnel(t, TargetKey("ip", "port")).(now := Tunnels.STARTUP_WINDOW + 1), map[],
          [Call(cluster, "host", Ensured(value, Fresh(0)))],
          [Fetch(0, cluster, "host", raw, Some(Endpoint("ip", "port")))], map[], {})
  }

  lemma Dawdles(cfg: Config, raw: string, kc: string, cluster: ClusterRef, rest: seq<Step>) returns (run: seq<Step>)
    requires cfg.ttl > 0 && ValidRun(cfg, Dawdling(cfg, raw, kc, cluster), rest)
    ensures var s := Blocked(cfg, raw, kc, cluster);
            && ValidRun(cfg, s, run) && Final(cfg, s, run) == Final(cfg, Dawdling(cfg, raw, kc, cluster), rest)
            && forall key :: Disturbed(cfg, s, run, key, false) ==>
              Disturbed(cfg, Dawdling(cfg, raw, kc, cluster), rest, key, false)
  {
    var tunnel := TargetKey("ip", "port");
    var s0 := Blocked(cfg, raw, kc, cluster);
    var s1 := Apply(cfg, s0, Advance(Tunnels.STARTUP_WINDOW));
    var s2 := Apply(cfg, s1, StartupElapses(tunnel));
    assert s2.tunnels.alarms == map[0 := Tunnels.Alarm(tunnel, Tunnels.STARTUP_WINDOW + cfg.ttl)]
      && s2.tunnels.starting == map[];
    assert s2.calls == Dawdling(cfg, raw, kc, cluster).calls;
    assert Apply(cfg, s2, Advance(1)) == Dawdling(cfg, raw, kc, cluster);
    StepFirst(cfg, s2, Advance(1), rest); run := [Advance(1)] + rest;
    StepFirst(cfg, s1, StartupElapses(tunnel), run); run := [StartupElapses(tunnel)] + run;
    StepFirst(cfg, s0, Advance(Tunnels.STARTUP_WINDOW), run); run := [Advance(Tunnels.STARTUP_WINDOW)] + run;
  }

  lemma ReturnsLate(cfg: Config, raw: string, kc: string, cluster: ClusterRef) returns (run: seq<Step>)
    requires cfg.ttl > 0
    ensures ValidRun(cfg, Blocked(cfg, raw, kc, cluster), run)
    ensures var s := Final(cfg, Blocked(cfg, raw, kc, cluster), run);
            var tunnel, key := TargetKey("ip", "port"), KubeconfigKey(cluster);
            && key in s.cache && s.tunnels.now < s.cache[key].expiresAt
            && s.cache[key].value.target == Some(ProxyTarget("host", "ip", "port"))
            && !Disturbed(cfg, Blocked(cfg, raw, kc, cluster), run, tunnel, false)
            && !UpUntil(s.tunnels, tunnel, s.cache[key].expiresAt)
  {
    var s := Dawdling(cfg, raw, kc, cluster);
    StepFirst(cfg, s, Return(0), []);
    run := Dawdles(cfg, raw, kc, cluster, [Return(0)] + []);
  }

  /** Promptness is needed: a call that stores its kubeconfig late gives it a longer life than the tunnel it ensured. */
  lemma LateReturnOutlivesItsTunnel(cfg: Config, raw: string) returns (run: seq<Step>, key: string)
    requires cfg.ttl > 0 && cfg.transform(raw).Ok?
    ensures ValidRun(cfg, INIT, run)
    ensures var s := Final(cfg, INIT, run);
            && key in s.cache && s.tunnels.now < s.cache[key].expiresAt && s.cache[key].value.target.Some?
            && var tunnel := KeyOf(s.cache[key].value.target.value);
               !Disturbed(cfg, INIT, run, tunnel, false) && !UpUntil(s.tunnels, tunnel, s.cache[key].expiresAt)
  {
    var cluster := ClusterRef("k", "ctx", "ns", "name");
    var kc := cfg.transform(raw).value;
    key := KubeconfigKey(cluster);
    run := ReturnsLate(cfg, raw, kc, cluster);
    run := GetsBlocked(cfg, raw, kc, cluster, run, TargetKey("ip", "port"));
  }
}
