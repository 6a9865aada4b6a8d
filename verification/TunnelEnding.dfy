/**
 Does every registered tunnel have an end? A tracked tunnel should always have an armed TTL
 timer, or a kill already on its way, or an attempt about to arm its next timer. The steps of
 `TunnelSteps` do not keep this: a TTL timer can fire and its callback take the lock between the
 creation of the entry (line 190) and its registration (lines 191-193). That callback finds
 nothing to kill, and the tunnel is then registered with its only timer spent. This is the one way
 in which a tunnel comes to have no end, and the next refresh or kill of its key repairs it.
 */
module TunnelEnding {
  import opened Outcomes
  import opened TunnelSteps
  import opened TunnelOwnership

  /** Some killer is about to take the lock and kill whatever is tracked under `k`. */
  ghost predicate KillPending(s: State, k: Key) {
    exists i :: 0 <= i < |s.killers| && s.killers[i].pc == Locking(k)
  }

  ghost predicate TimerArmed(s: State, p: nat)
    requires p < |s.procs|
  {
    var t := s.procs[p].timer;
    t.Some? && t.value < |s.timers| && s.timers[t.value].state == Armed
  }

  ghost predicate EndInSight(s: State, k: Key, p: nat)
    requires p < |s.procs|
  {
    TimerArmed(s, p) || KillPending(s, k) || At(s, k, Rearming(p))
  }

  // ---------------------------------------------------------------- tunnels registered with a spent timer

  /** The tunnel registered in this step has no timer left, and no kill of `k` is on its way. */
  ghost predicate RegistersSpent(s: State, step: Step, k: Key)
    requires Enabled(s, step)
  {
    step == ByAttempt(k, Store) && !TimerArmed(s, s.attempts[k].pid) && !KillPending(s, k)
  }

  /**
   A refresh of `k` is about to arm a new timer, or a new kill of `k` starts: a timer fires, or
   KillAll gets to `k`.
   */
  ghost predicate Repairs(s: State, step: Step, k: Key)
    requires Enabled(s, step)
  {
    || step == ByAttempt(k, StopOld)
    || (step.TimerFires? && s.timers[step.t].job == KillKey(k))
    || (step.ByKiller? && step.kill.Next? && s.killers[step.i].todo[0] == k)
  }

  ghost predicate SpentBy(s: State, step: Step, k: Key, earlier: bool)
    requires Enabled(s, step)
  {
    if step == ByAttempt(k, Store) then RegistersSpent(s, step, k) else earlier && !Repairs(s, step, k)
  }

  /** The last tunnel registered under `k` was registered spent, and nothing has repaired that since. */
  ghost predicate Spent(s: State, run: seq<Step>, k: Key, earlier: bool)
    requires ValidRun(s, run)
    decreases |run|
  {
    if run == [] then earlier else Spent(Apply(s, run[0]), run[1..], k, SpentBy(s, run[0], k, earlier))
  }

  // ---------------------------------------------------------------- timers belong to one process each

  ghost predicate DistinctTimers(s: State) {
    forall p, q :: 0 <= p < q < |s.procs| && s.procs[p].timer.Some? ==> s.procs[p].timer != s.procs[q].timer
  }

  lemma ArmingKeepsDistinct(s: State, k: Key, p: nat)
    requires Inv(s) && DistinctTimers(s) && p < |s.procs|
    ensures DistinctTimers(ArmKillTimer(s, k, p))
  {
    forall q | 0 <= q < |s.procs| ensures s.procs[q].timer != Some(|s.timers|) { assert ProcInv(s, q); }
  }

  lemma SpawnKeepsDistinct(s: State, x: Process)
    requires DistinctTimers(s) && x.timer.None?
    ensures DistinctTimers(s.(procs := s.procs + [x]))
  {}

  /** A process that keeps its timer may change in every other way. */
  lemma SameTimersKeepDistinct(s: State, s': State)
    requires DistinctTimers(s) && |s'.procs| == |s.procs|
    requires forall p :: 0 <= p < |s.procs| ==> s'.procs[p].timer == s.procs[p].timer
    ensures DistinctTimers(s')
  {}

  lemma AttemptKeepsDistinct(s: State, k: Key, step: AttemptStep)
    requires Inv(s) && DistinctTimers(s) && AttemptEnabled(s, k, step)
    ensures DistinctTimers(ApplyAttempt(s, k, step))
  {
    match step
    case Begin =>
    case Lookup =>
    case StopOld =>
    case Rearm => ArmingKeepsDistinct(s, k, s.attempts[k].pid);
    case SpawnFails =>
    case Spawns => SpawnKeepsDistinct(s, Process(k, true, NotSent, NotStarted, None, 0, Attempting));
    case ArmStartup =>
    case ExitsEarly => SameTimersKeepDistinct(s, ApplyAttempt(s, k, step));
    case StartupOver =>
    case CreateEntry => ArmingKeepsDistinct(s, k, s.attempts[k].pid);
    case Store => SameTimersKeepDistinct(s, ApplyAttempt(s, k, step));
    case LaunchWaiter => SameTimersKeepDistinct(s, ApplyAttempt(s, k, step));
  }

  lemma TimersStayDistinct(s: State, step: Step)
    requires Inv(s) && Enabled(s, step) && DistinctTimers(s)
    ensures DistinctTimers(Apply(s, step))
  {
    match step
    case ByAttempt(k, act) => AttemptKeepsDistinct(s, k, act);
    case ByProcess(_, _) => SameTimersKeepDistinct(s, Apply(s, step));
    case TimerFires(_) => SameTimersKeepDistinct(s, Apply(s, step));
    case KillAll(_) => SameTimersKeepDistinct(s, Apply(s, step));
    case ByKiller(_, _) => SameTimersKeepDistinct(s, Apply(s, step));
  }

  // ---------------------------------------------------------------- an end in sight stays in sight

  ghost predicate TrackedAs(s: State, k: Key, p: nat) {
    p < |s.procs| && k in s.entries && s.entries[k] == p
  }

  /** `p` is tracked, or about to be, under its own key `k`. */
  ghost predicate Watched(s: State, k: Key, p: nat) {
    p < |s.procs| && (At(s, k, Storing(p)) || TrackedAs(s, k, p))
  }

  lemma AttemptLeavesArmed(s: State, k': Key, step: AttemptStep, k: Key, p: nat)
    requires Inv(s) && DistinctTimers(s) && AttemptEnabled(s, k', step) && Watched(s, k, p) && TimerArmed(s, p)
    ensures TimerArmed(ApplyAttempt(s, k', step), p) || At(ApplyAttempt(s, k', step), k, Rearming(p))
  {
    assert ProcInv(s, p);
    if k' in s.attempts { assert AttemptInv(s, k'); }
    if k in s.attempts { assert AttemptInv(s, k); }
  }

  lemma ExitLeavesArmed(s: State, q: nat, step: ExitStep, k: Key, p: nat)
    requires Inv(s) && DistinctTimers(s) && ExitEnabled(s, q, step) && Watched(s, k, p) && TimerArmed(s, p)
    requires Watched(ApplyExit(s, q, step), k, p)
    ensures TimerArmed(ApplyExit(s, q, step), p)
  {
    assert ProcInv(s, p) && ProcInv(s, q);
    if k in s.attempts { assert AttemptInv(s, k); }
  }

  lemma KillLeavesArmed(s: State, i: nat, step: KillStep, k: Key, p: nat)
    requires Inv(s) && DistinctTimers(s) && KillEnabled(s, i, step) && Watched(s, k, p) && TimerArmed(s, p)
    ensures TimerArmed(ApplyKill(s, i, step), p)
  {
    assert ProcInv(s, p) && KillerInv(s, i);
    if k in s.attempts { assert AttemptInv(s, k); }
  }

  lemma FireLeavesEnd(s: State, t: nat, k: Key, p: nat)
    requires Inv(s) && Enabled(s, TimerFires(t)) && Watched(s, k, p) && TimerArmed(s, p)
    ensures TimerArmed(ApplyFire(s, t), p) || KillPending(ApplyFire(s, t), k)
  {
    assert ProcInv(s, p);
    if k in s.attempts { assert AttemptInv(s, k); }
    if s.procs[p].timer == Some(t) { assert ApplyFire(s, t).killers[|s.killers|].pc == Locking(k); }
  }

  lemma ArmedKeepsEnd(s: State, step: Step, k: Key, p: nat)
    requires Inv(s) && DistinctTimers(s) && Enabled(s, step)
    requires Watched(s, k, p) && TimerArmed(s, p) && Watched(Apply(s, step), k, p)
    ensures EndInSight(Apply(s, step), k, p)
  {
    match step
    case ByAttempt(k', act) => AttemptLeavesArmed(s, k', act, k, p);
    case ByProcess(q, act) => ExitLeavesArmed(s, q, act, k, p);
    case TimerFires(t) => FireLeavesEnd(s, t, k, p);
    case KillAll(_) =>
    case ByKiller(i, act) => KillLeavesArmed(s, i, act, k, p);
  }

  lemma RearmingMovesOn(s: State, k': Key, step: AttemptStep, k: Key, p: nat)
    requires Inv(s) && AttemptEnabled(s, k', step) && At(s, k, Rearming(p)) && p < |s.procs|
    ensures At(ApplyAttempt(s, k', step), k, Rearming(p)) || TimerArmed(ApplyAttempt(s, k', step), p)
  {
    if k' == k { assert step == Rearm; }
  }

  lemma RearmingKeepsEnd(s: State, step: Step, k: Key, p: nat)
    requires Inv(s) && Enabled(s, step) && At(s, k, Rearming(p)) && p < |s.procs| && p < |Apply(s, step).procs|
    ensures At(Apply(s, step), k, Rearming(p)) || TimerArmed(Apply(s, step), p)
  {
    match step
    case ByAttempt(k', act) => RearmingMovesOn(s, k', act, k, p);
    case ByProcess(_, _) =>
    case TimerFires(_) =>
    case KillAll(_) =>
    case ByKiller(_, _) =>
  }

  /** A pending kill stays pending until it takes the lock, and then nothing is tracked under `k`. */
  lemma PendingKeepsEnd(s: State, step: Step, k: Key)
    requires Enabled(s, step) && KillPending(s, k) && k in s.entries && k in Apply(s, step).entries
    ensures KillPending(Apply(s, step), k)
  {
    var i :| 0 <= i < |s.killers| && s.killers[i].pc == Locking(k);
    if !(step.ByKiller? && step.i == i) { OthersLeaveKiller(s, step, i); }
  }

  // ---------------------------------------------------------------- and out of sight it stays out of sight

  lemma AttemptArmsNone(s: State, k': Key, step: AttemptStep, k: Key, p: nat)
    requires Inv(s) && AttemptEnabled(s, k', step) && TrackedAs(s, k, p)
    requires !TimerArmed(s, p) && !At(s, k, Rearming(p)) && !(k' == k && step.StopOld?)
    ensures p < |ApplyAttempt(s, k', step).procs|
    ensures !TimerArmed(ApplyAttempt(s, k', step), p) && !At(ApplyAttempt(s, k', step), k, Rearming(p))
  {
    assert ProcInv(s, p);
    if k' in s.attempts { assert AttemptInv(s, k'); }
  }

  lemma ExitArmsNone(s: State, q: nat, step: ExitStep, k: Key, p: nat)
    requires Inv(s) && ExitEnabled(s, q, step) && TrackedAs(s, k, p) && !TimerArmed(s, p)
    ensures p < |ApplyExit(s, q, step).procs| && !TimerArmed(ApplyExit(s, q, step), p)
  {
    assert ProcInv(s, p);
  }

  lemma KillArmsNone(s: State, i: nat, step: KillStep, k: Key, p: nat)
    requires Inv(s) && KillEnabled(s, i, step) && TrackedAs(s, k, p) && !TimerArmed(s, p)
    ensures p < |ApplyKill(s, i, step).procs| && !TimerArmed(ApplyKill(s, i, step), p)
  {
    assert ProcInv(s, p);
  }

  lemma OthersArmNone(s: State, step: Step, k: Key, p: nat)
    requires Inv(s) && Enabled(s, step) && TrackedAs(s, k, p) && !step.ByAttempt?
    requires !TimerArmed(s, p) && !At(s, k, Rearming(p))
    ensures p < |Apply(s, step).procs| && !TimerArmed(Apply(s, step), p) && !At(Apply(s, step), k, Rearming(p))
  {
    match step
    case ByProcess(q, act) => ExitArmsNone(s, q, act, k, p);
    case TimerFires(_) =>
    case KillAll(_) =>
    case ByKiller(i, act) => KillArmsNone(s, i, act, k, p);
  }

  lemma NoNewKill(s: State, step: Step, k: Key)
    requires Enabled(s, step) && !KillPending(s, k) && !Repairs(s, step, k)
    ensures !KillPending(Apply(s, step), k)
  {
    var s' := Apply(s, step);
    forall i | 0 <= i < |s'.killers| ensures s'.killers[i].pc != Locking(k) {
      if i < |s.killers| {
        assert s.killers[i].pc != Locking(k);
        if !(step.ByKiller? && step.i == i) { OthersLeaveKiller(s, step, i); }
      }
    }
  }

  // ---------------------------------------------------------------- the exact condition

  ghost predicate EndIffUnspent(s: State, k: Key, spent: bool) {
    k in s.entries && s.entries[k] < |s.procs| ==> (EndInSight(s, k, s.entries[k]) <==> !spent)
  }

  /** An entry appears by registration alone, and a registered process stays until it is removed. */
  lemma EntryFrom(s: State, step: Step, k: Key)
    requires Inv(s) && Enabled(s, step) && k in Apply(s, step).entries
    ensures if step == ByAttempt(k, Store) then Apply(s, step).entries[k] == s.attempts[k].pid
            else k in s.entries && s.entries[k] < |s.procs| && Apply(s, step).entries[k] == s.entries[k]
  {
    match step
    case ByAttempt(_, _) =>
    case ByProcess(_, _) =>
    case TimerFires(_) =>
    case KillAll(_) =>
    case ByKiller(_, _) =>
  }

  lemma StoreDecides(s: State, k: Key, earlier: bool)
    requires Inv(s) && AttemptEnabled(s, k, Store)
    ensures EndIffUnspent(ApplyAttempt(s, k, Store), k, RegistersSpent(s, ByAttempt(k, Store), k))
  {
    assert AttemptInv(s, k);
    var s' := ApplyAttempt(s, k, Store);
    assert s'.killers == s.killers && s'.timers == s.timers;
  }

  lemma RepairEnds(s: State, step: Step, k: Key, p: nat)
    requires Inv(s) && Enabled(s, step) && Repairs(s, step, k) && TrackedAs(s, k, p) && p < |Apply(s, step).procs|
    ensures EndInSight(Apply(s, step), k, p)
  {
    match step
    case ByAttempt(_, _) => assert AttemptInv(s, k);
    case TimerFires(t) => assert ApplyFire(s, t).killers[|s.killers|].pc == Locking(k);
    case ByKiller(i, act) => assert ApplyKill(s, i, act).killers[i].pc == Locking(k);
  }

  lemma StepKeepsEnd(s: State, step: Step, k: Key, spent: bool)
    requires Inv(s) && DistinctTimers(s) && Enabled(s, step) && EndIffUnspent(s, k, spent)
    ensures EndIffUnspent(Apply(s, step), k, SpentBy(s, step, k, spent))
  {
    var s' := Apply(s, step);
    StepKeepsInv(s, step);
    if k in s'.entries {
      EntryFrom(s, step, k);
      var p := s'.entries[k];
      if step == ByAttempt(k, Store) {
        StoreDecides(s, k, spent);
      } else if Repairs(s, step, k) {
        RepairEnds(s, step, k, p);
      } else if spent {
        NoNewKill(s, step, k);
        if step.ByAttempt? { AttemptArmsNone(s, step.k, step.attempt, k, p); } else { OthersArmNone(s, step, k, p); }
      } else if TimerArmed(s, p) {
        ArmedKeepsEnd(s, step, k, p);
      } else if KillPending(s, k) {
        PendingKeepsEnd(s, step, k);
      } else {
        RearmingKeepsEnd(s, step, k, p);
      }
    }
  }

  lemma {:induction false} RunKeepsEnd(s: State, run: seq<Step>, k: Key, spent: bool)
    requires Inv(s) && DistinctTimers(s) && ValidRun(s, run) && EndIffUnspent(s, k, spent)
    ensures EndIffUnspent(Final(s, run), k, Spent(s, run, k, spent))
    decreases |run|
  {
    if run != [] {
      StepKeepsInv(s, run[0]);
      TimersStayDistinct(s, run[0]);
      StepKeepsEnd(s, run[0], k, spent);
      RunKeepsEnd(Apply(s, run[0]), run[1..], k, SpentBy(s, run[0], k, spent));
    }
  }

  /**
   After any run, a tracked tunnel has an end in sight if and only if it was not registered with
   its timer spent and no kill on its way, or that has been repaired since.
   */
  lemma TrackedTunnelsHaveAnEnd(run: seq<Step>, k: Key)
    requires ValidRun(INIT, run) && k in Final(INIT, run).entries
    ensures var s := Final(INIT, run);
            s.entries[k] < |s.procs| && (EndInSight(s, k, s.entries[k]) <==> !Spent(INIT, run, k, false))
  {
    RunKeepsInv(INIT, run);
    RunKeepsEnd(INIT, run, k, false);
  }

  // ---------------------------------------------------------------- without wasted kills

  /** A kill of `k` takes the lock while the entry for `k` is created but not yet registered. */
  ghost predicate WastesKill(s: State, step: Step) {
    && step.ByKiller? && step.kill.Lock? && step.i < |s.killers| && s.killers[step.i].pc.Locking?
    && var k := s.killers[step.i].pc.key;
       k in s.attempts && s.attempts[k].Storing?
  }

  /** No step of the run wastes a kill. */
  ghost predicate NoKillWasted(s: State, run: seq<Step>)
    requires ValidRun(s, run)
    decreases |run|
  {
    run == [] || (!WastesKill(s, run[0]) && NoKillWasted(Apply(s, run[0]), run[1..]))
  }

  /** What is about to be registered under `k` has its timer armed, or a kill on its way. */
  ghost predicate StoresLive(s: State, k: Key) {
    k in s.attempts && s.attempts[k].Storing? ==>
      s.attempts[k].pid < |s.procs| && (TimerArmed(s, s.attempts[k].pid) || KillPending(s, k))
  }

  lemma StoringFromAttempt(s: State, k': Key, act: AttemptStep, k: Key)
    requires Inv(s) && AttemptEnabled(s, k', act) && !(k' == k && act.CreateEntry?)
    requires k in ApplyAttempt(s, k', act).attempts && ApplyAttempt(s, k', act).attempts[k].Storing?
    ensures At(s, k, ApplyAttempt(s, k', act).attempts[k])
    ensures s.attempts[k].pid < |s.procs| <= |ApplyAttempt(s, k', act).procs|
  {
    assert k in s.attempts && s.attempts[k] == ApplyAttempt(s, k', act).attempts[k];
    assert AttemptInv(s, k);
  }

  lemma StoringFrom(s: State, step: Step, k: Key)
    requires Inv(s) && Enabled(s, step) && step != ByAttempt(k, CreateEntry)
    requires k in Apply(s, step).attempts && Apply(s, step).attempts[k].Storing?
    ensures At(s, k, Apply(s, step).attempts[k]) && s.attempts[k].pid < |s.procs| <= |Apply(s, step).procs|
  {
    match step
    case ByAttempt(k', act) => StoringFromAttempt(s, k', act, k);
    case ByProcess(_, _) => assert AttemptInv(s, k);
    case TimerFires(_) => assert AttemptInv(s, k);
    case KillAll(_) => assert AttemptInv(s, k);
    case ByKiller(_, _) => assert AttemptInv(s, k);
  }

  lemma PendingStays(s: State, step: Step, k: Key)
    requires Enabled(s, step) && KillPending(s, k) && !WastesKill(s, step) && k in s.attempts && s.attempts[k].Storing?
    ensures KillPending(Apply(s, step), k)
  {
    var i :| 0 <= i < |s.killers| && s.killers[i].pc == Locking(k);
    if !(step.ByKiller? && step.i == i) { OthersLeaveKiller(s, step, i); }
  }

  lemma StepKeepsStoresLive(s: State, step: Step, k: Key)
    requires Inv(s) && DistinctTimers(s) && Enabled(s, step) && !WastesKill(s, step) && StoresLive(s, k)
    ensures StoresLive(Apply(s, step), k)
  {
    var s' := Apply(s, step);
    if k in s'.attempts && s'.attempts[k].Storing? {
      if step == ByAttempt(k, CreateEntry) {
        assert AttemptInv(s, k);
      } else {
        StoringFrom(s, step, k);
        var p := s.attempts[k].pid;
        if TimerArmed(s, p) {
          ArmedKeepsEnd(s, step, k, p);
        } else {
          PendingStays(s, step, k);
        }
      }
    }
  }

  lemma {:induction false} NoWasteNoneSpent(s: State, run: seq<Step>, k: Key)
    requires Inv(s) && DistinctTimers(s) && StoresLive(s, k) && ValidRun(s, run) && NoKillWasted(s, run)
    ensures !Spent(s, run, k, false)
    decreases |run|
  {
    if run != [] {
      StepKeepsInv(s, run[0]);
      TimersStayDistinct(s, run[0]);
      StepKeepsStoresLive(s, run[0], k);
      NoWasteNoneSpent(Apply(s, run[0]), run[1..], k);
    }
  }

  /** So every tracked tunnel of a run that wastes no kill has an end in sight. */
  lemma WithoutWasteAllHaveAnEnd(run: seq<Step>, k: Key)
    requires ValidRun(INIT, run) && NoKillWasted(INIT, run) && k in Final(INIT, run).entries
    ensures var s := Final(INIT, run);
            s.entries[k] < |s.procs| && EndInSight(s, k, s.entries[k])
  {
    NoWasteNoneSpent(INIT, run, k);
    TrackedTunnelsHaveAnEnd(run, k);
  }

  /**
   With the wasted kill the promise fails: EnsureProxy has returned success, the process is
   alive and tracked, no goroutine is left to act and no timer is armed, so nothing but another
   EnsureProxy or KillAll will ever end it.
   */
  lemma WastedKillLeavesTunnelEndless(k: Key) returns (run: seq<Step>)
    ensures ValidRun(INIT, run)
    ensures var s := Final(INIT, run);
            && s.entries == map[k := 0] && |s.procs| == 1 && s.procs[0].alive && s.attempts == map[]
            && (forall t :: 0 <= t < |s.timers| ==> s.timers[t].state != Armed)
            && (forall i :: 0 <= i < |s.killers| ==> KillerDone(s.killers[i]))
  {
    run := EntryCreated(k);
    run := Extend(run, TimerFires(1));
    run := Extend(run, ByKiller(0, Lock));
    assert Final(INIT, run).timers == [Timer(EndStartup(0), Fired), Timer(KillKey(k), Fired)];
    assert Final(INIT, run).killers == [Killer(Idle, [])];
    run := Extend(run, ByAttempt(k, Store));
    run := Extend(run, ByAttempt(k, LaunchWaiter));
  }
}
