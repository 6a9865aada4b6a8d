/**
 The order in which a call of cachedKubeconfig (internal/server/kubeconfig.go) does things, over
 every interleaved run of `KubeconfigPipeline`: it looks into the cache once, reads from the
 management cluster only if it found nothing there, ensures its tunnel once, and always has a next
 step or an attempt to wait for. What is cached stays visible until it expires.
 */
module KubeconfigProgress {
  import opened Outcomes
  import opened CacheKeys
  import opened KubeconfigPipeline
  import opened KubeconfigOutcomes
  import Cache = TtlCache
  import Tunnels = TunnelTimed

  // ---------------------------------------------------------------- in program order

  /** What a call did last. */
  datatype Did = Nothing | LookedUp(hit: bool) | Read | Proxied | Done

  /** What call `c` has done last once `step` is taken. */
  function DoneBy(s: State, step: Step, c: nat, earlier: Did): Did
    requires Enabled(s, step)
  {
    match step
    case Look(d) =>
      if d != c then earlier
      else LookedUp(Cache.Visible(s.cache, KubeconfigKey(s.calls[c].cluster), s.tunnels.now).Some?)
    case FetchFails(d) => if d == c then Read else earlier
    case Fetches(d, _, _) => if d == c then Read else earlier
    case Ensure(d) => if d == c then Proxied else earlier
    case SpawnFails(d) => if d == c then Proxied else earlier
    case Return(d) => if d == c then Done else earlier
    case _ => earlier
  }

  ghost function DidLast(cfg: Config, s: State, run: seq<Step>, c: nat, earlier: Did): Did
    requires ValidRun(cfg, s, run)
    decreases |run|
  {
    if run == [] then earlier
    else DidLast(cfg, Apply(cfg, s, run[0]), run[1..], c, DoneBy(s, run[0], c, earlier))
  }

  /** How far the call is and what it did last go together. */
  ghost predicate GoTogether(s: State, c: nat, did: Did) {
    if c >= |s.calls| then did == Nothing else
      match s.calls[c].pc
      case Looking => did == Nothing
      case Fetching => did == LookedUp(false)
      case Ensuring(value, _) => value.target.Some? && (did == LookedUp(true) || did == Read)
      case Waiting(value, _) => value.target.Some? && did == Proxied
      case Ensured(_, _) => did == LookedUp(true) || did == Read || did == Proxied
      case Returned(_, _) => did == Done
      case Failed => did == Read || did == Proxied
  }

  /** The steps that calls take, as opposed to those of the tunnels and the clock. */
  predicate IsCallStep(step: Step) {
    step.Begin? || step.Look? || step.FetchFails? || step.Fetches? || step.Ensure? || step.SpawnFails? || step.Return?
  }

  lemma CallStepKeepsOrder(cfg: Config, s: State, step: Step, c: nat, did: Did)
    requires GoTogether(s, c, did) && Enabled(s, step) && IsCallStep(step)
    ensures GoTogether(Apply(cfg, s, step), c, DoneBy(s, step, c, did))
  {}

  lemma StepKeepsOrder(cfg: Config, s: State, step: Step, c: nat, did: Did)
    requires GoTogether(s, c, did) && Enabled(s, step)
    ensures GoTogether(Apply(cfg, s, step), c, DoneBy(s, step, c, did))
  {
    if IsCallStep(step) { CallStepKeepsOrder(cfg, s, step, c, did); }
  }

  lemma {:induction false} RunKeepsOrder(cfg: Config, s: State, run: seq<Step>, c: nat, did: Did)
    requires GoTogether(s, c, did) && ValidRun(cfg, s, run)
    ensures GoTogether(Final(cfg, s, run), c, DidLast(cfg, s, run, c, did))
    decreases |run|
  {
    if run != [] {
      StepKeepsOrder(cfg, s, run[0], c, did);
      RunKeepsOrder(cfg, Apply(cfg, s, run[0]), run[1..], c, DoneBy(s, run[0], c, did));
    }
  }

  /**
   A call looks into the cache first of all, and once; it reads from the management cluster, once,
   only after it found nothing; it ensures its tunnel, once, after a hit or a read; and it returns
   after one of these.
   */
  lemma InProgramOrder(cfg: Config, run: seq<Step>, step: Step, c: nat)
    requires ValidRun(cfg, INIT, run) && Enabled(Final(cfg, INIT, run), step)
    ensures var did := DidLast(cfg, INIT, run, c, Nothing);
            && (step == Look(c) ==> did == Nothing)
            && (step == FetchFails(c) || (step.Fetches? && step.c == c) ==> did == LookedUp(false))
            && (step == Ensure(c) || step == SpawnFails(c) ==> did == LookedUp(true) || did == Read)
            && (step == Return(c) ==> did == LookedUp(true) || did == Read || did == Proxied)
  {
    RunKeepsOrder(cfg, INIT, run, c, Nothing);
  }

  // ---------------------------------------------------------------- always a next step

  /**
   A call that has neither returned nor failed has a step to take, or waits for an attempt that
   has; what it reads can be anything, and reading can fail.
   */
  lemma CallsAdvance(cfg: Config, run: seq<Step>, c: nat)
    requires ValidRun(cfg, INIT, run) && c < |Final(cfg, INIT, run).calls|
    ensures var s := Final(cfg, INIT, run);
            match s.calls[c].pc
            case Looking => Enabled(s, Look(c))
            case Fetching =>
              Enabled(s, FetchFails(c)) && forall raw, server :: Enabled(s, Fetches(c, raw, server))
            case Ensuring(value, _) =>
              && value.target.Some? && Enabled(s, Ensure(c))
              && (Enabled(s, SpawnFails(c)) <==>
                    KeyOf(value.target.value) !in s.tunnels.entries && KeyOf(value.target.value) !in s.tunnels.starting)
            case Waiting(value, _) =>
              value.target.Some? && Enabled(s, StartupExits(KeyOf(value.target.value)))
            case Ensured(_, _) => Enabled(s, Return(c))
            case Returned(_, _) => true
            case Failed => true
  {
    RunKeepsOrder(cfg, INIT, run, c, Nothing);
    var s := Final(cfg, INIT, run);
    if s.calls[c].pc.Waiting? { WaitersHaveAnAttempt(cfg, run, c, KeyOf(s.calls[c].pc.value.target.value)); }
  }

  /** Whatever the tunnels and the clock can do by themselves they can do here too. */
  lemma TunnelsGoOn(cfg: Config, s: State, key: string, t: nat, d: int)
    ensures Enabled(s, StartupElapses(key)) <==> Tunnels.Enabled(s.tunnels, Tunnels.Register(key))
    ensures Enabled(s, StartupExits(key)) <==> Tunnels.Enabled(s.tunnels, Tunnels.ExitEarly(key))
    ensures Enabled(s, TunnelExits(key)) <==> Tunnels.Enabled(s.tunnels, Tunnels.Exit(key))
    ensures Enabled(s, KillsOne(key)) <==> Tunnels.Enabled(s.tunnels, Tunnels.Kill(key))
    ensures Enabled(s, TtlFires(t)) <==> Tunnels.Enabled(s.tunnels, Tunnels.Fire(t))
    ensures Enabled(s, Advance(d)) <==> Tunnels.Enabled(s.tunnels, Tunnels.Advance(d))
  {}

  // ---------------------------------------------------------------- cached until it expires

  lemma StepKeepsVisible(cfg: Config, s: State, step: Step, key: string, until: int)
    requires ValueInv(cfg, s) && Enabled(s, step) && key in s.cache && until <= s.cache[key].expiresAt
    requires s.tunnels.now <= until
    ensures key in Apply(cfg, s, step).cache && until <= Apply(cfg, s, step).cache[key].expiresAt
  {
    assert EntryInv(cfg, s, key);
  }

  lemma {:induction false} ClockOnlyMovesOn(cfg: Config, s: State, run: seq<Step>)
    requires ValidRun(cfg, s, run)
    ensures s.tunnels.now <= Final(cfg, s, run).tunnels.now
    decreases |run|
  {
    if run != [] {
      TimePasses(cfg, s, run[0]);
      ClockOnlyMovesOn(cfg, Apply(cfg, s, run[0]), run[1..]);
    }
  }

  lemma {:induction false} VisibleUntil(cfg: Config, s: State, run: seq<Step>, key: string, until: int)
    requires ValueInv(cfg, s) && ValidRun(cfg, s, run) && key in s.cache && until <= s.cache[key].expiresAt
    requires Final(cfg, s, run).tunnels.now <= until
    ensures Cache.Visible(Final(cfg, s, run).cache, key, Final(cfg, s, run).tunnels.now).Some?
    decreases |run|
  {
    if run != [] {
      ClockOnlyMovesOn(cfg, s, run);
      StepKeepsValues(cfg, s, run[0]);
      StepKeepsVisible(cfg, s, run[0], key, until);
      VisibleUntil(cfg, Apply(cfg, s, run[0]), run[1..], key, until);
    }
  }

  /** Whatever happens, a kubeconfig that is cached, or a later one for its key, is visible until it expires. */
  lemma CachedUntilExpiry(cfg: Config, before: seq<Step>, after: seq<Step>, key: string)
    requires ValidRun(cfg, INIT, before) && ValidRun(cfg, Final(cfg, INIT, before), after)
    requires key in Final(cfg, INIT, before).cache
    requires Final(cfg, Final(cfg, INIT, before), after).tunnels.now <= Final(cfg, INIT, before).cache[key].expiresAt
    ensures var s' := Final(cfg, Final(cfg, INIT, before), after);
            Cache.Visible(s'.cache, key, s'.tunnels.now).Some?
  {
    RunKeepsValues(cfg, INIT, before);
    var s := Final(cfg, INIT, before);
    VisibleUntil(cfg, s, after, key, s.cache[key].expiresAt);
  }
}
