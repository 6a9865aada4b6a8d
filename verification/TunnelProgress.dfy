/**
 That the goroutines of internal/proxy/manager.go never wait in vain, over every run of
 `TunnelSteps`: an attempt always has a step to take or a timer to wait for, the exit of a tracked
 process is always on its way to the table, and a timer that fired or was stopped is done with.
 */
module TunnelProgress {
  import opened TunnelSteps
  import opened TunnelTimers

  /** A timer is armed once: fired or stopped, it stays so. */
  lemma {:induction false} SettledTimersStay(s: State, run: seq<Step>, t: nat)
    requires ValidRun(s, run) && t < |s.timers| && s.timers[t].state != Armed
    ensures t < |Final(s, run).timers| && Final(s, run).timers[t] == s.timers[t]
    decreases |run|
  {
    if run != [] {
      if !run[0].ByAttempt? { OthersOnlyDisarm(s, run[0]); }
      SettledTimersStay(Apply(s, run[0]), run[1..], t);
    }
  }

  // ---------------------------------------------------------------- attempts

  ghost predicate RacingInv(s: State) {
    forall k, p: nat, t: nat :: At(s, k, Racing(p, t)) ==> t < |s.timers| && s.timers[t].state != Stopped
  }

  lemma AttemptKeepsRacing(s: State, k': Key, act: AttemptStep, k: Key, p: nat, t: nat)
    requires Inv(s) && RacingInv(s) && AttemptEnabled(s, k', act) && At(ApplyAttempt(s, k', act), k, Racing(p, t))
    ensures t < |ApplyAttempt(s, k', act).timers| && ApplyAttempt(s, k', act).timers[t].state != Stopped
  {
    if k' in s.attempts { assert AttemptInv(s, k'); }
    if k in s.attempts { assert AttemptInv(s, k); }
    if act.StopOld? { assert ProcInv(s, s.attempts[k'].pid); }
    assert At(s, k, Racing(p, t)) || (act.ArmStartup? && k' == k && t == |s.timers|);
  }

  lemma ExitKeepsRacing(s: State, q: nat, act: ExitStep, k: Key, p: nat, t: nat)
    requires Inv(s) && RacingInv(s) && ExitEnabled(s, q, act) && At(s, k, Racing(p, t))
    ensures t < |ApplyExit(s, q, act).timers| && ApplyExit(s, q, act).timers[t].state != Stopped
  {
    assert AttemptInv(s, k) && ProcInv(s, q);
  }

  lemma KillKeepsRacing(s: State, i: nat, act: KillStep, k: Key, p: nat, t: nat)
    requires Inv(s) && RacingInv(s) && KillEnabled(s, i, act) && At(s, k, Racing(p, t))
    ensures t < |ApplyKill(s, i, act).timers| && ApplyKill(s, i, act).timers[t].state != Stopped
  {
    assert AttemptInv(s, k);
    if act.Stop? { assert ProcInv(s, s.killers[i].pc.pid); }
  }

  lemma StepKeepsRacing(s: State, step: Step)
    requires Inv(s) && RacingInv(s) && Enabled(s, step)
    ensures RacingInv(Apply(s, step))
  {
    var s' := Apply(s, step);
    forall k, p: nat, t: nat | At(s', k, Racing(p, t)) ensures t < |s'.timers| && s'.timers[t].state != Stopped {
      if !step.ByAttempt? {
        OthersOnlyDisarm(s, step);
        assert At(s, k, Racing(p, t));
      }
      match step
      case ByAttempt(k', act) => AttemptKeepsRacing(s, k', act, k, p, t);
      case ByProcess(q, act) => ExitKeepsRacing(s, q, act, k, p, t);
      case TimerFires(_) =>
      case KillAll(_) =>
      case ByKiller(i, act) => KillKeepsRacing(s, i, act, k, p, t);
    }
  }

  lemma {:induction false} RunKeepsRacing(s: State, run: seq<Step>)
    requires Inv(s) && RacingInv(s) && ValidRun(s, run)
    ensures Inv(Final(s, run)) && RacingInv(Final(s, run))
    decreases |run|
  {
    if run != [] {
      StepKeepsInv(s, run[0]);
      StepKeepsRacing(s, run[0]);
      RunKeepsRacing(Apply(s, run[0]), run[1..]);
    }
  }

  /** An attempt that does not race its startup timer always has a step to take; a spawn can fail or not. */
  lemma AttemptsAdvance(run: seq<Step>, k: Key)
    requires ValidRun(INIT, run) && k in Final(INIT, run).attempts && !Final(INIT, run).attempts[k].Racing?
    ensures var s := Final(INIT, run);
            match s.attempts[k]
            case Looking => AttemptEnabled(s, k, Lookup)
            case StoppingOld(_) => AttemptEnabled(s, k, StopOld)
            case Rearming(_) => AttemptEnabled(s, k, Rearm)
            case Spawning => AttemptEnabled(s, k, Spawns) && AttemptEnabled(s, k, SpawnFails)
            case Preparing(_) => AttemptEnabled(s, k, ArmStartup)
            case Racing(_, _) => true
            case Creating(_) => AttemptEnabled(s, k, CreateEntry)
            case Storing(_) => AttemptEnabled(s, k, Store)
            case Launching(_) => AttemptEnabled(s, k, LaunchWaiter)
  {
    RunKeepsInv(INIT, run);
    assert AttemptInv(Final(INIT, run), k);
  }

  /**
   An attempt that races its startup timer gives up exactly if the exit of its process has been
   reported and goes on exactly if the timer has fired; until then the timer is armed.
   */
  lemma RacesAdvance(run: seq<Step>, k: Key, p: nat, t: nat)
    requires ValidRun(INIT, run) && At(Final(INIT, run), k, Racing(p, t))
    ensures var s := Final(INIT, run);
            && p < |s.procs| && t < |s.timers| && s.timers[t].job == EndStartup(p)
            && (AttemptEnabled(s, k, ExitsEarly) <==> s.procs[p].exited == Sent)
            && (AttemptEnabled(s, k, StartupOver) <==> s.timers[t].state == Fired)
            && (Enabled(s, TimerFires(t)) <==> s.timers[t].state != Fired)
  {
    RunKeepsRacing(INIT, run);
    assert AttemptInv(Final(INIT, run), k);
  }

  /** How far an attempt is; the last step of each of its two ways returns. */
  function HowFar(a: Attempt): nat {
    match a
    case Looking => 0
    case StoppingOld(_) => 1
    case Rearming(_) => 2
    case Spawning => 1
    case Preparing(_) => 2
    case Racing(_, _) => 3
    case Creating(_) => 4
    case Storing(_) => 5
    case Launching(_) => 6
  }

  /** Every step of an attempt brings it further, or to its end; nobody else moves it. So it takes at most seven. */
  lemma AttemptsMoveOn(s: State, step: Step, k: Key)
    requires Enabled(s, step) && k in s.attempts
    ensures var s' := Apply(s, step);
            if step.ByAttempt? && step.k == k
            then k in s'.attempts ==> HowFar(s.attempts[k]) < HowFar(s'.attempts[k])
            else At(s', k, s.attempts[k])
  {
    if !step.ByAttempt? { OthersOnlyDisarm(s, step); }
  }

  // ---------------------------------------------------------------- exits

  /**
   When a tracked process has exited, its way out of the table is clear: the report is still to be
   sent, or its waiter is about to be launched, to wake or to clean up.
   */
  lemma ExitsAdvance(run: seq<Step>, k: Key)
    requires ValidRun(INIT, run) && k in Final(INIT, run).entries
    ensures var s := Final(INIT, run);
            var p := s.entries[k];
            p < |s.procs| && (s.procs[p].alive <==> Enabled(s, ByProcess(p, Exits))) &&
            (!s.procs[p].alive ==>
               || Enabled(s, ByProcess(p, WaitReturns))
               || (Enabled(s, ByAttempt(k, LaunchWaiter)) && At(s, k, Launching(p)))
               || Enabled(s, ByProcess(p, WaiterWakes))
               || Enabled(s, ByProcess(p, WaiterCleans)))
  {
    RunKeepsInv(INIT, run);
    var s := Final(INIT, run);
    var p := s.entries[k];
    assert ProcInv(s, p);
    if At(s, k, Launching(p)) { assert AttemptInv(s, k); }
  }
}
