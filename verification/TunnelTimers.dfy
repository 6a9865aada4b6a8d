/**
 What the timers of internal/proxy/manager.go are there for, over every run of `TunnelSteps`: a
 tunnel is registered only after the startup timer of its own process has fired, an armed startup
 timer has an attempt that waits for it, and an armed TTL timer is the current timer of a process,
 so that a timer that has been replaced never fires.
 */
module TunnelTimers {
  import opened Outcomes
  import opened TunnelSteps
  import opened TunnelOwnership
  import opened TunnelEnding

  // ---------------------------------------------------------------- how an attempt ends

  /**
   An attempt that fails to spawn, or whose process dies inside the startup window, is over and
   has registered nothing; one that succeeds is over with its tunnel as it was, or registered.
   */
  lemma AttemptsEnd(s: State, k: Key, step: AttemptStep)
    requires Inv(s) && Enabled(s, ByAttempt(k, step))
    ensures var s' := Apply(s, ByAttempt(k, step));
            && (k !in s'.attempts <==> step.Rearm? || step.SpawnFails? || step.ExitsEarly? || step.LaunchWaiter?)
            && (forall k' :: k' != k ==> (k' in s'.attempts <==> k' in s.attempts))
            && (step.SpawnFails? ==> s'.procs == s.procs && s'.timers == s.timers && s'.entries == s.entries)
            && (step.ExitsEarly? ==> k !in s'.entries && s'.entries == s.entries)
            && (step.Rearm? || step.LaunchWaiter? ==> s'.entries == s.entries)
  {
    assert k in s.attempts ==> AttemptInv(s, k);
  }

  // ---------------------------------------------------------------- startup timers

  ghost predicate StartupFired(s: State, p: nat) {
    exists t: nat :: t < |s.timers| && s.timers[t] == Timer(EndStartup(p), Fired)
  }

  ghost predicate Settling(a: Attempt, p: nat) {
    a == Creating(p) || a == Storing(p) || a == Launching(p)
  }

  ghost predicate EntriesStarted(s: State) {
    forall k :: k in s.entries ==> StartupFired(s, s.entries[k])
  }

  ghost predicate AttemptStarted(s: State, k: Key) {
    forall p: nat :: k in s.attempts && Settling(s.attempts[k], p) ==> StartupFired(s, p)
  }

  /** An armed startup timer has its attempt waiting for it. */
  ghost predicate StartupAwaited(s: State, t: nat)
    requires t < |s.timers|
  {
    var x := s.timers[t];
    x.job.EndStartup? ==>
      x.job.pid < |s.procs| && (x.state == Armed ==> At(s, s.procs[x.job.pid].key, Racing(x.job.pid, t)))
  }

  ghost predicate StartupInv(s: State) {
    && EntriesStarted(s)
    && (forall k :: AttemptStarted(s, k))
    && (forall t :: 0 <= t < |s.timers| ==> StartupAwaited(s, t))
  }

  /**
   What the steps of exit waiters, timers and kills leave of attempts, processes and timers: timers
   only stop being armed.
   */
  ghost predicate OnlyDisarms(s: State, s': State) {
    && s'.attempts == s.attempts && |s'.procs| == |s.procs| && |s'.timers| == |s.timers|
    && (forall p :: 0 <= p < |s.procs| ==> s'.procs[p].key == s.procs[p].key && s'.procs[p].timer == s.procs[p].timer)
    && (forall t :: 0 <= t < |s.timers| ==>
          s'.timers[t] == s.timers[t] || (s.timers[t].state == Armed && s'.timers[t].job == s.timers[t].job
                                          && s'.timers[t].state != Armed))
  }

  lemma ExitsOnlyDisarm(s: State, p: nat, act: ExitStep)
    requires ExitEnabled(s, p, act)
    ensures OnlyDisarms(s, ApplyExit(s, p, act))
  {}

  lemma KillsOnlyDisarm(s: State, i: nat, act: KillStep)
    requires KillEnabled(s, i, act)
    ensures OnlyDisarms(s, ApplyKill(s, i, act))
  {}

  lemma OthersOnlyDisarm(s: State, step: Step)
    requires Enabled(s, step) && !step.ByAttempt?
    ensures OnlyDisarms(s, Apply(s, step))
  {
    match step
    case ByProcess(p, act) => ExitsOnlyDisarm(s, p, act);
    case TimerFires(_) =>
    case KillAll(_) =>
    case ByKiller(i, act) => KillsOnlyDisarm(s, i, act);
  }

  /** A timer that has fired stays as it is. */
  lemma FiredStays(s: State, step: Step, t: nat)
    requires Enabled(s, step) && t < |s.timers| && s.timers[t].state == Fired
    ensures t < |Apply(s, step).timers| && Apply(s, step).timers[t] == s.timers[t]
  {
    if !step.ByAttempt? { OthersOnlyDisarm(s, step); }
  }

  lemma StartupFiredStays(s: State, step: Step, p: nat)
    requires Enabled(s, step) && StartupFired(s, p)
    ensures StartupFired(Apply(s, step), p)
  {
    var t: nat :| t < |s.timers| && s.timers[t] == Timer(EndStartup(p), Fired);
    FiredStays(s, step, t);
  }

  lemma AttemptSettles(s: State, k: Key, act: AttemptStep, k': Key, p: nat)
    requires Inv(s) && AttemptEnabled(s, k, act)
    requires k' in ApplyAttempt(s, k, act).attempts && Settling(ApplyAttempt(s, k, act).attempts[k'], p)
    requires !(k' in s.attempts && Settling(s.attempts[k'], p))
    ensures StartupFired(s, p)
  {
    assert k' == k && act.StartupOver?;
    assert AttemptInv(s, k);
  }

  lemma SettlesAfterFiring(s: State, step: Step, k: Key, p: nat)
    requires Inv(s) && Enabled(s, step) && k in Apply(s, step).attempts && Settling(Apply(s, step).attempts[k], p)
    requires !(k in s.attempts && Settling(s.attempts[k], p))
    ensures StartupFired(s, p)
  {
    if step.ByAttempt? {
      AttemptSettles(s, step.k, step.attempt, k, p);
    } else {
      OthersOnlyDisarm(s, step);
    }
  }

  lemma StepKeepsAttemptStarted(s: State, step: Step, k: Key)
    requires Inv(s) && StartupInv(s) && Enabled(s, step)
    ensures AttemptStarted(Apply(s, step), k)
  {
    var s' := Apply(s, step);
    forall p: nat | k in s'.attempts && Settling(s'.attempts[k], p) ensures StartupFired(s', p) {
      if k in s.attempts && Settling(s.attempts[k], p) {
        assert AttemptStarted(s, k);
      } else {
        SettlesAfterFiring(s, step, k, p);
      }
      StartupFiredStays(s, step, p);
    }
  }

  lemma StepKeepsEntriesStarted(s: State, step: Step)
    requires Inv(s) && StartupInv(s) && Enabled(s, step)
    ensures EntriesStarted(Apply(s, step))
  {
    var s' := Apply(s, step);
    forall k | k in s'.entries ensures StartupFired(s', s'.entries[k]) {
      EntryFrom(s, step, k);
      if step == ByAttempt(k, Store) {
        assert AttemptStarted(s, k) && Settling(s.attempts[k], s.attempts[k].pid);
      }
      StartupFiredStays(s, step, s'.entries[k]);
    }
  }

  lemma AttemptKeepsAwaited(s: State, k: Key, act: AttemptStep, t: nat)
    requires Inv(s) && StartupInv(s) && AttemptEnabled(s, k, act) && t < |ApplyAttempt(s, k, act).timers|
    ensures StartupAwaited(ApplyAttempt(s, k, act), t)
  {
    if t < |s.timers| { assert StartupAwaited(s, t); }
    if k in s.attempts { assert AttemptInv(s, k); }
  }

  lemma DisarmedAwaited(s: State, s': State, t: nat)
    requires OnlyDisarms(s, s') && t < |s.timers| && StartupAwaited(s, t)
    ensures StartupAwaited(s', t)
  {}

  lemma StepKeepsAwaited(s: State, step: Step, t: nat)
    requires Inv(s) && StartupInv(s) && Enabled(s, step) && t < |Apply(s, step).timers|
    ensures StartupAwaited(Apply(s, step), t)
  {
    if step.ByAttempt? {
      AttemptKeepsAwaited(s, step.k, step.attempt, t);
    } else {
      OthersOnlyDisarm(s, step);
      DisarmedAwaited(s, Apply(s, step), t);
    }
  }

  lemma {:induction false} RunKeepsStartup(s: State, run: seq<Step>)
    requires Inv(s) && StartupInv(s) && ValidRun(s, run)
    ensures Inv(Final(s, run)) && StartupInv(Final(s, run))
    decreases |run|
  {
    if run != [] {
      var s' := Apply(s, run[0]);
      StepKeepsInv(s, run[0]);
      StepKeepsEntriesStarted(s, run[0]);
      forall k ensures AttemptStarted(s', k) { StepKeepsAttemptStarted(s, run[0], k); }
      forall t | 0 <= t < |s'.timers| ensures StartupAwaited(s', t) { StepKeepsAwaited(s, run[0], t); }
      RunKeepsStartup(s', run[1..]);
    }
  }

  /** A tunnel is tracked only after the startup timer of its own process has fired. */
  lemma TrackedAfterStartup(run: seq<Step>, k: Key)
    requires ValidRun(INIT, run) && k in Final(INIT, run).entries
    ensures var s := Final(INIT, run);
            exists t: nat :: t < |s.timers| && s.timers[t] == Timer(EndStartup(s.entries[k]), Fired)
  {
    RunKeepsStartup(INIT, run);
    assert StartupFired(Final(INIT, run), Final(INIT, run).entries[k]);
  }

  /** An armed startup timer is that of a process whose attempt waits for it. */
  lemma StartupTimersAreAwaited(run: seq<Step>, t: nat, p: nat)
    requires ValidRun(INIT, run) && t < |Final(INIT, run).timers|
    requires Final(INIT, run).timers[t] == Timer(EndStartup(p), Armed)
    ensures var s := Final(INIT, run);
            p < |s.procs| && At(s, s.procs[p].key, Racing(p, t))
  {
    RunKeepsStartup(INIT, run);
    assert StartupAwaited(Final(INIT, run), t);
  }

  // ---------------------------------------------------------------- the same, read off the steps

  /** The run up to its step `n`. */
  lemma {:induction false} Prefix(s: State, run: seq<Step>, n: nat)
    requires ValidRun(s, run) && n < |run|
    ensures ValidRun(s, run[..n]) && Enabled(Final(s, run[..n]), run[n])
    ensures ValidRun(s, run[..n + 1]) && Final(s, run[..n + 1]) == Apply(Final(s, run[..n]), run[n])
    decreases |run|
  {
    if n > 0 {
      Prefix(Apply(s, run[0]), run[1..], n - 1);
      assert run[..n][1..] == run[1..][..n - 1] && run[..n + 1][1..] == run[1..][..n];
    } else {
      assert run[..1] == [run[0]] && run[..1][1..] == [] && run[..0] == [];
    }
  }

  /** Step `i` of the run spawns process `p`, for an attempt of `k`. */
  ghost predicate SpawnsAt(run: seq<Step>, i: nat, k: Key, p: nat)
    requires ValidRun(INIT, run)
  {
    i < |run| && run[i] == ByAttempt(k, Spawns) && ValidRun(INIT, run[..i]) && |Final(INIT, run[..i]).procs| == p
  }

  /** Step `i` of the run is the firing of the startup timer of process `p`. */
  ghost predicate StartupFiresAt(run: seq<Step>, i: nat, p: nat)
    requires ValidRun(INIT, run)
  {
    && i < |run| && run[i].TimerFires? && ValidRun(INIT, run[..i])
    && run[i].t < |Final(INIT, run[..i]).timers|
    && Final(INIT, run[..i]).timers[run[i].t] == Timer(EndStartup(p), Armed)
  }

  lemma StepSpawns(s: State, step: Step, p: nat)
    requires Enabled(s, step) && p < |Apply(s, step).procs|
    ensures p < |s.procs| ==> Apply(s, step).procs[p].key == s.procs[p].key
    ensures p >= |s.procs| ==> p == |s.procs| && step == ByAttempt(Apply(s, step).procs[p].key, Spawns)
  {
    if !step.ByAttempt? { OthersOnlyDisarm(s, step); }
  }

  lemma {:induction false} SpawnedBefore(run: seq<Step>, n: nat, p: nat)
    requires ValidRun(INIT, run) && n <= |run| && ValidRun(INIT, run[..n]) && p < |Final(INIT, run[..n]).procs|
    ensures exists i: nat :: i < n && SpawnsAt(run, i, Final(INIT, run[..n]).procs[p].key, p)
  {
    if n > 0 {
      Prefix(INIT, run, n - 1);
      var s := Final(INIT, run[..n - 1]);
      StepSpawns(s, run[n - 1], p);
      if p < |s.procs| {
        SpawnedBefore(run, n - 1, p);
        var i: nat :| i < n - 1 && SpawnsAt(run, i, s.procs[p].key, p);
        assert SpawnsAt(run, i, Final(INIT, run[..n]).procs[p].key, p);
      } else {
        assert SpawnsAt(run, n - 1, Final(INIT, run[..n]).procs[p].key, p);
      }
    }
  }

  lemma AttemptsFireNone(s: State, k: Key, act: AttemptStep, t: nat)
    requires AttemptEnabled(s, k, act) && t < |ApplyAttempt(s, k, act).timers|
    ensures ApplyAttempt(s, k, act).timers[t].state == Fired ==> t < |s.timers|
    ensures t < |s.timers| && ApplyAttempt(s, k, act).timers[t] != s.timers[t] ==>
              ApplyAttempt(s, k, act).timers[t].state == Stopped
  {}

  lemma ExitsFireNone(s: State, p: nat, act: ExitStep, t: nat)
    requires ExitEnabled(s, p, act) && t < |s.timers|
    ensures ApplyExit(s, p, act).timers[t] != s.timers[t] ==> ApplyExit(s, p, act).timers[t].state == Stopped
  {}

  lemma KillsFireNone(s: State, i: nat, act: KillStep, t: nat)
    requires KillEnabled(s, i, act) && t < |s.timers|
    ensures ApplyKill(s, i, act).timers[t] != s.timers[t] ==> ApplyKill(s, i, act).timers[t].state == Stopped
  {}

  lemma StepFires(s: State, step: Step, t: nat)
    requires Enabled(s, step) && t < |Apply(s, step).timers| && Apply(s, step).timers[t].state == Fired
    requires !(t < |s.timers| && s.timers[t] == Apply(s, step).timers[t])
    ensures step == TimerFires(t) && s.timers[t] == Apply(s, step).timers[t].(state := Armed)
  {
    if !step.ByAttempt? { OthersOnlyDisarm(s, step); }
    match step
    case ByAttempt(k, act) => AttemptsFireNone(s, k, act, t);
    case ByProcess(p, act) => ExitsFireNone(s, p, act, t);
    case TimerFires(_) =>
    case KillAll(_) =>
    case ByKiller(i, act) => KillsFireNone(s, i, act, t);
  }

  lemma {:induction false} FiredBefore(run: seq<Step>, n: nat, t: nat, p: nat)
    requires ValidRun(INIT, run) && n <= |run| && ValidRun(INIT, run[..n])
    requires t < |Final(INIT, run[..n]).timers| && Final(INIT, run[..n]).timers[t] == Timer(EndStartup(p), Fired)
    ensures exists i: nat :: i < n && StartupFiresAt(run, i, p)
  {
    if n > 0 {
      Prefix(INIT, run, n - 1);
      var s := Final(INIT, run[..n - 1]);
      if t < |s.timers| && s.timers[t] == Timer(EndStartup(p), Fired) {
        FiredBefore(run, n - 1, t, p);
        var i: nat :| i < n - 1 && StartupFiresAt(run, i, p);
        assert i < n && StartupFiresAt(run, i, p);
      } else {
        StepFires(s, run[n - 1], t);
        assert StartupFiresAt(run, n - 1, p);
      }
    }
  }

  lemma {:induction false} KeysStay(run: seq<Step>, m: nat, n: nat, p: nat)
    requires ValidRun(INIT, run) && m <= n <= |run| && ValidRun(INIT, run[..m]) && ValidRun(INIT, run[..n])
    requires p < |Final(INIT, run[..m]).procs|
    ensures p < |Final(INIT, run[..n]).procs|
    ensures Final(INIT, run[..n]).procs[p].key == Final(INIT, run[..m]).procs[p].key
  {
    if m < n {
      Prefix(INIT, run, n - 1);
      KeysStay(run, m, n - 1, p);
      SigtermStep(Final(INIT, run[..n - 1]), run[n - 1], p);
      StepSpawns(Final(INIT, run[..n - 1]), run[n - 1], p);
    }
  }

  /** Steps `i` and `j`, in this order, spawn `p` for `k` and let its startup window elapse. */
  ghost predicate StartsUp(run: seq<Step>, i: nat, j: nat, k: Key, p: nat)
    requires ValidRun(INIT, run)
  {
    i < j && SpawnsAt(run, i, k, p) && StartupFiresAt(run, j, p)
  }

  lemma FiredAfterSpawn(run: seq<Step>, n: nat, t: nat, p: nat)
    requires ValidRun(INIT, run) && n <= |run| && ValidRun(INIT, run[..n]) && p < |Final(INIT, run[..n]).procs|
    requires t < |Final(INIT, run[..n]).timers| && Final(INIT, run[..n]).timers[t] == Timer(EndStartup(p), Fired)
    ensures exists i: nat, j: nat :: j < n && StartsUp(run, i, j, Final(INIT, run[..n]).procs[p].key, p)
  {
    FiredBefore(run, n, t, p);
    var j: nat :| j < n && StartupFiresAt(run, j, p);
    var fires := Final(INIT, run[..j]);
    RunKeepsStartup(INIT, run[..j]);
    assert StartupAwaited(fires, run[j].t);
    SpawnedBefore(run, j, p);
    var i: nat :| i < j && SpawnsAt(run, i, fires.procs[p].key, p);
    KeysStay(run, j, n, p);
    assert StartsUp(run, i, j, Final(INIT, run[..n]).procs[p].key, p);
  }

  lemma StoresStarted(s: State, k: Key)
    requires Inv(s) && StartupInv(s) && Enabled(s, ByAttempt(k, Store))
    ensures var s' := Apply(s, ByAttempt(k, Store));
            && k in s'.entries && s'.entries[k] < |s.procs| && s.procs[s'.entries[k]].key == k
            && StartupFired(s, s'.entries[k])
  {
    assert AttemptStarted(s, k) && Settling(s.attempts[k], s.attempts[k].pid) && AttemptInv(s, k);
  }

  /**
   Before the step that registers a tunnel come, in this order, the step that spawned its process
   and the firing of that process's startup timer.
   */
  lemma RegisteredAfterStartup(run: seq<Step>, n: nat, k: Key)
    requires ValidRun(INIT, run) && n < |run| && run[n] == ByAttempt(k, Store)
    ensures ValidRun(INIT, run[..n + 1]) && k in Final(INIT, run[..n + 1]).entries
    ensures var p := Final(INIT, run[..n + 1]).entries[k];
            exists i: nat, j: nat :: j < n && StartsUp(run, i, j, k, p)
  {
    Prefix(INIT, run, n);
    var s := Final(INIT, run[..n]);
    RunKeepsStartup(INIT, run[..n]);
    StoresStarted(s, k);
    var p := Final(INIT, run[..n + 1]).entries[k];
    var t: nat :| t < |s.timers| && s.timers[t] == Timer(EndStartup(p), Fired);
    FiredAfterSpawn(run, n, t, p);
  }

  // ---------------------------------------------------------------- TTL timers

  /** The timer is the current one of a process of its key. */
  ghost predicate Current(s: State, t: nat, k: Key) {
    exists p: nat :: p < |s.procs| && s.procs[p].key == k && s.procs[p].timer == Some(t)
  }

  ghost predicate TtlTimerInv(s: State, t: nat)
    requires t < |s.timers|
  {
    s.timers[t].job.KillKey? && s.timers[t].state == Armed ==> Current(s, t, s.timers[t].job.key)
  }

  /** What an attempt is about to arm anew is no longer armed. */
  ghost predicate RearmingInv(s: State, k: Key) {
    forall p: nat :: At(s, k, Rearming(p)) ==> p < |s.procs| && !TimerArmed(s, p)
  }

  ghost predicate TtlInv(s: State) {
    && (forall t :: 0 <= t < |s.timers| ==> TtlTimerInv(s, t))
    && (forall k :: RearmingInv(s, k))
  }

  lemma AttemptKeepsRearming(s: State, k': Key, act: AttemptStep, k: Key, p: nat)
    requires Inv(s) && TtlInv(s) && AttemptEnabled(s, k', act) && At(ApplyAttempt(s, k', act), k, Rearming(p))
    ensures p < |ApplyAttempt(s, k', act).procs| && !TimerArmed(ApplyAttempt(s, k', act), p)
  {
    if k' in s.attempts { assert AttemptInv(s, k'); }
    if k in s.attempts { assert AttemptInv(s, k); }
    if At(s, k, Rearming(p)) { assert RearmingInv(s, k) && ProcInv(s, p); }
  }

  lemma StepKeepsRearming(s: State, step: Step, k: Key)
    requires Inv(s) && TtlInv(s) && Enabled(s, step)
    ensures RearmingInv(Apply(s, step), k)
  {
    var s' := Apply(s, step);
    forall p: nat | At(s', k, Rearming(p)) ensures p < |s'.procs| && !TimerArmed(s', p) {
      if step.ByAttempt? {
        AttemptKeepsRearming(s, step.k, step.attempt, k, p);
      } else {
        OthersOnlyDisarm(s, step);
        assert RearmingInv(s, k);
      }
    }
  }

  lemma AttemptKeepsTtlTimer(s: State, k: Key, act: AttemptStep, t: nat)
    requires Inv(s) && TtlInv(s) && AttemptEnabled(s, k, act) && t < |ApplyAttempt(s, k, act).timers|
    ensures TtlTimerInv(ApplyAttempt(s, k, act), t)
  {
    var s' := ApplyAttempt(s, k, act);
    if k in s.attempts { assert AttemptInv(s, k) && RearmingInv(s, k); }
    if t < |s.timers| {
      assert TtlTimerInv(s, t);
      if s'.timers[t].job.KillKey? && s'.timers[t].state == Armed {
        var p: nat :| p < |s.procs| && s.procs[p].key == s.timers[t].job.key && s.procs[p].timer == Some(t);
        assert s'.procs[p].key == s.procs[p].key && s'.procs[p].timer == Some(t);
      }
    } else if act.Rearm? || act.CreateEntry? {
      var p := s.attempts[k].pid;
      assert s'.procs[p].key == k && s'.procs[p].timer == Some(t);
    }
  }

  lemma DisarmedTtlTimer(s: State, s': State, t: nat)
    requires OnlyDisarms(s, s') && t < |s.timers| && TtlTimerInv(s, t)
    ensures TtlTimerInv(s', t)
  {
    if s'.timers[t].job.KillKey? && s'.timers[t].state == Armed {
      var p: nat :| p < |s.procs| && s.procs[p].key == s.timers[t].job.key && s.procs[p].timer == Some(t);
      assert s'.procs[p].key == s.procs[p].key && s'.procs[p].timer == Some(t);
    }
  }

  lemma StepKeepsTtlTimer(s: State, step: Step, t: nat)
    requires Inv(s) && TtlInv(s) && Enabled(s, step) && t < |Apply(s, step).timers|
    ensures TtlTimerInv(Apply(s, step), t)
  {
    if step.ByAttempt? {
      AttemptKeepsTtlTimer(s, step.k, step.attempt, t);
    } else {
      OthersOnlyDisarm(s, step);
      DisarmedTtlTimer(s, Apply(s, step), t);
    }
  }

  lemma {:induction false} RunKeepsTtl(s: State, run: seq<Step>)
    requires Inv(s) && TtlInv(s) && ValidRun(s, run)
    ensures TtlInv(Final(s, run))
    decreases |run|
  {
    if run != [] {
      var s' := Apply(s, run[0]);
      StepKeepsInv(s, run[0]);
      forall t | 0 <= t < |s'.timers| ensures TtlTimerInv(s', t) { StepKeepsTtlTimer(s, run[0], t); }
      forall k ensures RearmingInv(s', k) { StepKeepsRearming(s, run[0], k); }
      RunKeepsTtl(s', run[1..]);
    }
  }

  /** An armed TTL timer is the current timer of a process of its key: one that has been replaced can no longer fire. */
  lemma ArmedTimersAreCurrent(run: seq<Step>, t: nat, k: Key)
    requires ValidRun(INIT, run) && t < |Final(INIT, run).timers|
    requires Final(INIT, run).timers[t] == Timer(KillKey(k), Armed)
    ensures var s := Final(INIT, run);
            exists p: nat :: p < |s.procs| && s.procs[p].key == k && s.procs[p].timer == Some(t)
  {
    RunKeepsTtl(INIT, run);
    assert TtlTimerInv(Final(INIT, run), t);
  }

  /** Taking a tunnel down stops its timer: when its waiter has cleaned up, and before it is signalled. */
  lemma TakingDownStopsTimer(run: seq<Step>, step: Step, p: nat)
    requires ValidRun(INIT, run) && Enabled(Final(INIT, run), step) && p < |Final(INIT, run).procs|
    requires var s := Final(INIT, run);
             || (step == ByProcess(p, WaiterCleans) && IsTracked(s, p))
             || (step.ByKiller? && step.kill.Stop? && s.killers[step.i].pc == StoppingTimer(p))
    ensures p < |Apply(Final(INIT, run), step).procs| && !TimerArmed(Apply(Final(INIT, run), step), p)
  {
    RunKeepsInv(INIT, run);
    assert ProcInv(Final(INIT, run), p);
  }
}
