/**
 How calls of cachedKubeconfig (internal/server/kubeconfig.go) come out that wait for a tunnel:
 all that share an attempt share its outcome, an error is final, and a call that waits always has
 an attempt to wait for.
 */
module KubeconfigOutcomes {
  import opened Outcomes
  import opened Text
  import opened CacheKeys
  import opened KubeconfigPipeline
  import Tunnels = TunnelTimed

  /** The source's own host, and only without one the global one. */
  lemma HostIsOwnOrGlobal(cfg: Config, sourceHost: string)
    ensures sourceHost != "" ==> HostFor(cfg, sourceHost) == sourceHost
    ensures HostFor(cfg, "") == cfg.sshuttleHost
  {}

  /**
   Calls share a tunnel if and only if their kubeconfigs have the same API server; through which
   host plays no part.
   */
  lemma TunnelsAreForServers(t: ProxyTarget, t': ProxyTarget)
    requires Free(t.port, ':') && Free(t'.port, ':')
    ensures KeyOf(t) == KeyOf(t') <==> t.ip == t'.ip && t.port == t'.port
  {
    if KeyOf(t) == KeyOf(t') { TargetKeyInjective(t.ip, t.port, t'.ip, t'.port); }
  }

  ghost predicate WaitsOn(s: State, c: nat, key: string) {
    c < |s.calls| && s.calls[c].pc.Waiting? && NeedsTunnel(s.calls[c].pc) == Some(key)
  }

  /** When the attempt for `key` fails, every call that waits for it has failed, and no other call is affected. */
  lemma SharedAttemptFails(cfg: Config, s: State, key: string, c: nat)
    requires Enabled(s, StartupExits(key)) && c < |s.calls|
    ensures var s' := Apply(cfg, s, StartupExits(key));
            && |s'.calls| == |s.calls|
            && s'.calls[c] == (if WaitsOn(s, c, key) then s.calls[c].(pc := Failed) else s.calls[c])
            && s'.cache == s.cache && s'.stored == s.stored
  {}

  /** When it succeeds, every call that waits for it goes on with its own kubeconfig. */
  lemma SharedAttemptSucceeds(cfg: Config, s: State, key: string, c: nat)
    requires Enabled(s, StartupElapses(key)) && c < |s.calls|
    ensures var s', pc := Apply(cfg, s, StartupElapses(key)), s.calls[c].pc;
            && |s'.calls| == |s.calls|
            && (WaitsOn(s, c, key) ==> s'.calls[c] == s.calls[c].(pc := Ensured(pc.value, pc.origin)))
            && (!WaitsOn(s, c, key) ==> s'.calls[c] == s.calls[c])
            && s'.cache == s.cache && s'.stored == s.stored
  {}

  lemma FailedStep(cfg: Config, s: State, step: Step, c: nat)
    requires Enabled(s, step) && c < |s.calls| && s.calls[c].pc.Failed?
    ensures c < |Apply(cfg, s, step).calls| && Apply(cfg, s, step).calls[c] == s.calls[c]
  {}

  /** An error is final. */
  lemma {:induction false} FailedStays(cfg: Config, s: State, run: seq<Step>, c: nat)
    requires ValidRun(cfg, s, run) && c < |s.calls| && s.calls[c].pc.Failed?
    ensures c < |Final(cfg, s, run).calls| && Final(cfg, s, run).calls[c] == s.calls[c]
    decreases |run|
  {
    if run != [] {
      FailedStep(cfg, s, run[0], c);
      FailedStays(cfg, Apply(cfg, s, run[0]), run[1..], c);
    }
  }

  /**
   A process that dies inside its startup window fails for good every call that waits for it,
   whatever comes after.
   */
  lemma EarlyExitFailsItsCalls(cfg: Config, s: State, key: string, after: seq<Step>, c: nat)
    requires Enabled(s, StartupExits(key)) && WaitsOn(s, c, key)
    requires ValidRun(cfg, Apply(cfg, s, StartupExits(key)), after)
    ensures var s' := Final(cfg, Apply(cfg, s, StartupExits(key)), after);
            c < |s'.calls| && s'.calls[c].pc.Failed? && s'.calls[c].cluster == s.calls[c].cluster
  {
    SharedAttemptFails(cfg, s, key, c);
    FailedStays(cfg, Apply(cfg, s, StartupExits(key)), after, c);
  }

  /**
   Any other error of a call is final too: no client or Secret, a transform that errs, a process
   that cannot be spawned.
   */
  lemma ErrorsFailTheirCall(cfg: Config, s: State, step: Step, after: seq<Step>, c: nat)
    requires Enabled(s, step) && ValidRun(cfg, Apply(cfg, s, step), after)
    requires step == FetchFails(c) || step == SpawnFails(c)
               || (step.Fetches? && step.c == c && cfg.transform(step.raw).Err?)
    ensures var s' := Final(cfg, Apply(cfg, s, step), after);
            c < |s'.calls| && s'.calls[c].pc.Failed?
  {
    FailedStays(cfg, Apply(cfg, s, step), after, c);
  }

  // ---------------------------------------------------------------- whoever waits has an attempt to wait for

  ghost predicate WaitInv(s: State) {
    forall c, key :: WaitsOn(s, c, key) ==> key in s.tunnels.starting
  }

  lemma StepKeepsWaits(cfg: Config, s: State, step: Step, c: nat, key: string)
    requires WaitInv(s) && Enabled(s, step) && WaitsOn(Apply(cfg, s, step), c, key)
    ensures key in Apply(cfg, s, step).tunnels.starting
  {
    if c < |s.calls| && s.calls[c].pc.Waiting? { assert WaitsOn(s, c, key) || NeedsTunnel(s.calls[c].pc) != Some(key); }
  }

  lemma {:induction false} RunKeepsWaits(cfg: Config, s: State, run: seq<Step>)
    requires WaitInv(s) && ValidRun(cfg, s, run)
    ensures WaitInv(Final(cfg, s, run))
    decreases |run|
  {
    if run != [] {
      var s' := Apply(cfg, s, run[0]);
      forall c, key | WaitsOn(s', c, key) ensures key in s'.tunnels.starting { StepKeepsWaits(cfg, s, run[0], c, key); }
      RunKeepsWaits(cfg, s', run[1..]);
    }
  }

  /**
   Whoever waits has an attempt to wait for, which can fail at any moment and succeeds once its
   window has elapsed.
   */
  lemma WaitersHaveAnAttempt(cfg: Config, run: seq<Step>, c: nat, key: string)
    requires ValidRun(cfg, INIT, run) && WaitsOn(Final(cfg, INIT, run), c, key)
    ensures var s := Final(cfg, INIT, run);
            && key in s.tunnels.starting && Enabled(s, StartupExits(key))
            && (s.tunnels.starting[key].due <= s.tunnels.now ==> Enabled(s, StartupElapses(key)))
  {
    RunKeepsWaits(cfg, INIT, run);
  }

  // ---------------------------------------------------------------- read off a whole run

  lemma {:induction false} Split(cfg: Config, s: State, run: seq<Step>, n: nat)
    requires ValidRun(cfg, s, run) && n <= |run|
    ensures ValidRun(cfg, s, run[..n]) && ValidRun(cfg, Final(cfg, s, run[..n]), run[n..])
    ensures Final(cfg, Final(cfg, s, run[..n]), run[n..]) == Final(cfg, s, run)
    decreases |run|
  {
    if n == 0 {
      assert run[..0] == [] && run[0..] == run;
    } else {
      Split(cfg, Apply(cfg, s, run[0]), run[1..], n - 1);
      assert run[..n][1..] == run[1..][..n - 1] && run[n..] == run[1..][n - 1..];
    }
  }

  /** A call that returns has waited through no early exit of its tunnel's process. */
  lemma ReturnedWaitedThroughNoExit(cfg: Config, run: seq<Step>, n: nat, key: string, c: nat)
    requires ValidRun(cfg, INIT, run) && n < |run| && run[n] == StartupExits(key)
    requires c < |Final(cfg, INIT, run).calls| && Final(cfg, INIT, run).calls[c].pc.Returned?
    ensures ValidRun(cfg, INIT, run[..n]) && !WaitsOn(Final(cfg, INIT, run[..n]), c, key)
  {
    Split(cfg, INIT, run, n);
    var s := Final(cfg, INIT, run[..n]);
    assert run[n..][0] == run[n] && run[n..][1..] == run[n + 1..];
    if WaitsOn(s, c, key) { EarlyExitFailsItsCalls(cfg, s, key, run[n + 1..], c); }
  }
}
