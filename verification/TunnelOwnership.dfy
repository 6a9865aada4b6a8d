/**
 What the table of tunnels guarantees over every run of `TunnelSteps`: no process is lost,
 none is owned twice, none is signalled twice, and KillAll empties the table. The last part
 states the one promise the fine steps do not keep, and exactly when they do.
 */
module TunnelOwnership {
  import opened Outcomes
  import opened TunnelSteps

  // ---------------------------------------------------------------- every process has one owner

  datatype Situation = HeldByAttempt | Tracked | AboutToBeSignalled | SigtermSent | ExitedUntracked

  ghost predicate IsHeld(s: State, p: nat)
    requires p < |s.procs|
  {
    s.procs[p].key in s.attempts && Carries(s.attempts[s.procs[p].key], p)
  }

  ghost predicate IsTracked(s: State, p: nat)
    requires p < |s.procs|
  {
    s.procs[p].key in s.entries && s.entries[s.procs[p].key] == p
  }

  ghost predicate IsDoomed(s: State, p: nat) {
    exists i :: 0 <= i < |s.killers| && KillerHolds(s.killers[i], p)
  }

  /** The shared state alone decides the situation: `owner` does not occur here. */
  ghost predicate InSituation(s: State, p: nat, x: Situation)
    requires p < |s.procs|
  {
    match x
    case HeldByAttempt => IsHeld(s, p)
    case Tracked => IsTracked(s, p)
    case AboutToBeSignalled => IsDoomed(s, p)
    case SigtermSent => s.procs[p].signals == 1
    case ExitedUntracked =>
      && !s.procs[p].alive && s.procs[p].exited == Taken && s.procs[p].signals == 0
      && !IsHeld(s, p) && !IsTracked(s, p) && !IsDoomed(s, p)
  }

  function SituationOf(s: State, p: nat): Situation
    requires p < |s.procs|
  {
    match s.procs[p].owner
    case Attempting => HeldByAttempt
    case Tracking => Tracked
    case Killing(_) => AboutToBeSignalled
    case Signalled => SigtermSent
    case Reaped => ExitedUntracked
  }

  lemma DoomedIffKilling(s: State, p: nat)
    requires Inv(s) && p < |s.procs|
    ensures IsDoomed(s, p) <==> s.procs[p].owner.Killing?
    ensures forall i :: 0 <= i < |s.killers| && KillerHolds(s.killers[i], p) ==> s.procs[p].owner == Killing(i)
  {
    assert ProcInv(s, p);
    forall i | 0 <= i < |s.killers| && KillerHolds(s.killers[i], p) ensures s.procs[p].owner == Killing(i) {
      assert KillerInv(s, i);
    }
  }

  lemma NoTunnelLost(run: seq<Step>, p: nat)
    requires ValidRun(INIT, run) && p < |Final(INIT, run).procs|
    ensures var s := Final(INIT, run);
            exists x :: InSituation(s, p, x) && forall y :: InSituation(s, p, y) ==> y == x
    ensures var s := Final(INIT, run);
            forall i, j | 0 <= i < |s.killers| && 0 <= j < |s.killers| ::
              (KillerHolds(s.killers[i], p) && KillerHolds(s.killers[j], p)) ==> i == j
  {
    RunKeepsInv(INIT, run);
    var s := Final(INIT, run);
    assert ProcInv(s, p);
    DoomedIffKilling(s, p);
    assert InSituation(s, p, SituationOf(s, p));
  }

  /** A live process is never unowned, and the exit of a tracked one is always still to be handled. */
  lemma LiveTunnelsOwned(run: seq<Step>, p: nat)
    requires ValidRun(INIT, run) && p < |Final(INIT, run).procs|
    ensures var s := Final(INIT, run);
            s.procs[p].alive ==> IsHeld(s, p) || IsTracked(s, p) || IsDoomed(s, p) || s.procs[p].signals == 1
    ensures var s := Final(INIT, run);
            IsTracked(s, p) ==>
              s.procs[p].waiter in {Blocked, Woken} || At(s, s.procs[p].key, Launching(p))
  {
    RunKeepsInv(INIT, run);
    var s := Final(INIT, run);
    assert ProcInv(s, p);
    DoomedIffKilling(s, p);
  }

  lemma OnePerKey(run: seq<Step>, p: nat, q: nat)
    requires ValidRun(INIT, run) && p < |Final(INIT, run).procs| && q < |Final(INIT, run).procs|
    requires var s := Final(INIT, run);
             && s.procs[p].key == s.procs[q].key
             && (IsHeld(s, p) || IsTracked(s, p)) && (IsHeld(s, q) || IsTracked(s, q))
    ensures p == q
  {
    RunKeepsInv(INIT, run);
    var s := Final(INIT, run);
    assert ProcInv(s, p) && ProcInv(s, q);
    if s.procs[p].key in s.attempts { assert AttemptInv(s, s.procs[p].key); }
  }

  /** Neither spawning nor registering ever meets another tunnel for the key. */
  lemma NeverOverwrites(run: seq<Step>, k: Key)
    requires ValidRun(INIT, run)
    requires AttemptEnabled(Final(INIT, run), k, Spawns) || AttemptEnabled(Final(INIT, run), k, Store)
    ensures k !in Final(INIT, run).entries
    ensures var s := Final(INIT, run);
            forall p :: 0 <= p < |s.procs| && s.procs[p].key == k && IsHeld(s, p) ==> s.attempts[k] == Storing(p)
  {
    RunKeepsInv(INIT, run);
    assert AttemptInv(Final(INIT, run), k);
  }

  /** The exit waiter of `p` removes `p` or nothing, whatever is registered under the key by then. */
  lemma WaiterRemovesOnlyItsOwn(run: seq<Step>, p: nat)
    requires ValidRun(INIT, run) && ExitEnabled(Final(INIT, run), p, WaiterCleans)
    ensures var s := Final(INIT, run);
            var s' := ApplyExit(s, p, WaiterCleans);
            && !s.procs[p].alive
            && s'.entries.Keys == (set k | k in s.entries && s.entries[k] != p)
            && (forall k :: k in s'.entries ==> s'.entries[k] == s.entries[k])
  {
    RunKeepsInv(INIT, run);
    assert ProcInv(Final(INIT, run), p);
  }

  // ---------------------------------------------------------------- one SIGTERM each

  ghost predicate Sends(s: State, step: Step, p: nat) {
    step.ByKiller? && step.kill.Signal? && step.i < |s.killers| && s.killers[step.i].pc == Signalling(p)
  }

  /** How many steps of the run send a SIGTERM to `p`. */
  ghost function Sigterms(s: State, run: seq<Step>, p: nat): nat
    requires ValidRun(s, run)
    decreases |run|
  {
    if run == [] then 0 else (if Sends(s, run[0], p) then 1 else 0) + Sigterms(Apply(s, run[0]), run[1..], p)
  }

  function SignalsTo(s: State, p: nat): nat {
    if p < |s.procs| then s.procs[p].signals else 0
  }

  lemma AttemptSendsNone(s: State, k: Key, step: AttemptStep, p: nat)
    requires AttemptEnabled(s, k, step)
    ensures SignalsTo(ApplyAttempt(s, k, step), p) == SignalsTo(s, p) && |s.procs| <= |ApplyAttempt(s, k, step).procs|
  {}

  lemma ExitSendsNone(s: State, q: nat, step: ExitStep, p: nat)
    requires ExitEnabled(s, q, step)
    ensures SignalsTo(ApplyExit(s, q, step), p) == SignalsTo(s, p) && |s.procs| == |ApplyExit(s, q, step).procs|
  {}

  lemma KillSends(s: State, i: nat, step: KillStep, p: nat)
    requires KillEnabled(s, i, step)
    ensures SignalsTo(ApplyKill(s, i, step), p) == SignalsTo(s, p) + if Sends(s, ByKiller(i, step), p) then 1 else 0
    ensures |s.procs| == |ApplyKill(s, i, step).procs|
  {}

  lemma SigtermStep(s: State, step: Step, p: nat)
    requires Enabled(s, step)
    ensures SignalsTo(Apply(s, step), p) == SignalsTo(s, p) + if Sends(s, step, p) then 1 else 0
    ensures |s.procs| <= |Apply(s, step).procs|
  {
    match step
    case ByAttempt(k, act) => AttemptSendsNone(s, k, act, p);
    case ByProcess(q, act) => ExitSendsNone(s, q, act, p);
    case TimerFires(_) =>
    case KillAll(_) =>
    case ByKiller(i, act) => KillSends(s, i, act, p);
  }

  lemma {:induction false} SigtermsCounted(s: State, run: seq<Step>, p: nat)
    requires ValidRun(s, run)
    ensures SignalsTo(Final(s, run), p) == SignalsTo(s, p) + Sigterms(s, run, p)
    decreases |run|
  {
    if run != [] {
      SigtermStep(s, run[0], p);
      SigtermsCounted(Apply(s, run[0]), run[1..], p);
    }
  }

  lemma AtMostOneSigterm(run: seq<Step>, p: nat)
    requires ValidRun(INIT, run) && p < |Final(INIT, run).procs|
    ensures Sigterms(INIT, run, p) <= 1
  {
    RunKeepsInv(INIT, run);
    assert ProcInv(Final(INIT, run), p);
    SigtermsCounted(INIT, run, p);
  }

  // ---------------------------------------------------------------- KillAllProcessProxies

  ghost predicate NoEnsure(run: seq<Step>) {
    forall i :: 0 <= i < |run| ==> !run[i].ByAttempt?
  }

  /** Killer `i` runs the KillAll loop started in `s0`; what it has not visited yet it still will. */
  ghost predicate Draining(s0: State, s: State, i: nat) {
    && Inv(s) && s.attempts == map[] && |s.procs| == |s0.procs| && i < |s.killers|
    && (forall k :: k in s.entries ==> k in s0.entries)
    && (forall k :: k in s.entries ==> k in s.killers[i].todo || s.killers[i].pc == Locking(k))
  }

  lemma ExitDrains(s0: State, s: State, i: nat, p: nat, step: ExitStep)
    requires Draining(s0, s, i) && ExitEnabled(s, p, step)
    ensures var s' := ApplyExit(s, p, step);
            s'.attempts == s.attempts && |s'.procs| == |s.procs| && s'.killers == s.killers
              && s'.entries.Keys <= s.entries.Keys
  {}

  lemma KillDrains(s0: State, s: State, i: nat, j: nat, step: KillStep)
    requires Draining(s0, s, i) && KillEnabled(s, j, step)
    ensures var s' := ApplyKill(s, j, step);
            && s'.attempts == s.attempts && |s'.procs| == |s.procs| && i < |s'.killers|
            && s'.entries.Keys <= s.entries.Keys
            && forall k :: k in s'.entries ==> k in s'.killers[i].todo || s'.killers[i].pc == Locking(k)
  {
    match step
    case Next => assert s.killers[j].todo == [s.killers[j].todo[0]] + s.killers[j].todo[1..];
    case Lock =>
    case Stop =>
    case Signal =>
  }

  lemma DrainStep(s0: State, s: State, i: nat, step: Step)
    requires Draining(s0, s, i) && Enabled(s, step) && !step.ByAttempt?
    ensures Draining(s0, Apply(s, step), i)
  {
    StepKeepsInv(s, step);
    match step
    case ByProcess(p, act) => ExitDrains(s0, s, i, p, act);
    case TimerFires(_) =>
    case KillAll(_) =>
    case ByKiller(j, act) => KillDrains(s0, s, i, j, act);
  }

  lemma {:induction false} DrainRun(s0: State, s: State, i: nat, run: seq<Step>)
    requires Draining(s0, s, i) && ValidRun(s, run) && NoEnsure(run)
    ensures Draining(s0, Final(s, run), i)
    decreases |run|
  {
    if run != [] {
      DrainStep(s0, s, i, run[0]);
      DrainRun(s0, Apply(s, run[0]), i, run[1..]);
    }
  }

  /**
   Killer `i` has still to visit `k` if process `p` is still tracked under it. A process that was
   registered never becomes an attempt's again, so no EnsureProxy can track `p` once more.
   */
  ghost predicate Reaching(s: State, i: nat, k: Key, p: nat) {
    && Inv(s) && i < |s.killers| && p < |s.procs| && s.procs[p].key == k && s.procs[p].owner != Attempting
    && (k in s.entries && s.entries[k] == p ==> k in s.killers[i].todo || s.killers[i].pc == Locking(k))
  }

  lemma AttemptInReach(s: State, k': Key, act: AttemptStep, i: nat, k: Key, p: nat)
    requires Reaching(s, i, k, p) && AttemptEnabled(s, k', act)
    ensures var s' := ApplyAttempt(s, k', act);
            && s'.killers == s.killers && p < |s'.procs| && s'.procs[p].key == k && s'.procs[p].owner != Attempting
            && (k in s'.entries && s'.entries[k] == p ==> k in s.entries && s.entries[k] == p)
  {
    assert ProcInv(s, p);
    if k' in s.attempts { assert AttemptInv(s, k'); }
  }

  lemma ExitInReach(s: State, q: nat, act: ExitStep, i: nat, k: Key, p: nat)
    requires Reaching(s, i, k, p) && ExitEnabled(s, q, act)
    ensures var s' := ApplyExit(s, q, act);
            && s'.killers == s.killers && p < |s'.procs| && s'.procs[p].key == k && s'.procs[p].owner != Attempting
            && (k in s'.entries && s'.entries[k] == p ==> k in s.entries && s.entries[k] == p)
  {}

  lemma KillInReach(s: State, j: nat, act: KillStep, i: nat, k: Key, p: nat)
    requires Reaching(s, i, k, p) && KillEnabled(s, j, act)
    ensures var s' := ApplyKill(s, j, act);
            && i < |s'.killers| && p < |s'.procs| && s'.procs[p].key == k && s'.procs[p].owner != Attempting
            && (k in s'.entries && s'.entries[k] == p ==> k in s'.killers[i].todo || s'.killers[i].pc == Locking(k))
  {
    if act.Next? { assert s.killers[j].todo == [s.killers[j].todo[0]] + s.killers[j].todo[1..]; }
  }

  lemma ReachStep(s: State, step: Step, i: nat, k: Key, p: nat)
    requires Reaching(s, i, k, p) && Enabled(s, step)
    ensures Reaching(Apply(s, step), i, k, p)
  {
    StepKeepsInv(s, step);
    match step
    case ByAttempt(k', act) => AttemptInReach(s, k', act, i, k, p);
    case ByProcess(q, act) => ExitInReach(s, q, act, i, k, p);
    case TimerFires(_) =>
    case KillAll(_) =>
    case ByKiller(j, act) => KillInReach(s, j, act, i, k, p);
  }

  lemma {:induction false} ReachRun(s: State, run: seq<Step>, i: nat, k: Key, p: nat)
    requires Reaching(s, i, k, p) && ValidRun(s, run)
    ensures Reaching(Final(s, run), i, k, p)
    decreases |run|
  {
    if run != [] {
      ReachStep(s, run[0], i, k, p);
      ReachRun(Apply(s, run[0]), run[1..], i, k, p);
    }
  }

  /** The process is no longer tracked, and has been, or is about to be, signalled, or has exited. */
  ghost predicate TakenDown(s: State, k: Key, p: nat) {
    && p < |s.procs| && !(k in s.entries && s.entries[k] == p)
    && (IsDoomed(s, p) || s.procs[p].signals == 1 || !s.procs[p].alive)
  }

  /**
   KillAll has returned at the end of `after`, in which timers, exits, other kills and EnsureProxy
   attempts interleave. Every process tracked at its start has been taken down; and if no
   EnsureProxy was or came in flight, the table is empty.
   */
  lemma KillAllDrains(before: seq<Step>, order: seq<Key>, after: seq<Step>)
    requires ValidRun(INIT, before) && Enabled(Final(INIT, before), KillAll(order))
    requires ValidRun(Apply(Final(INIT, before), KillAll(order)), after)
    requires var s := Final(INIT, before);
             var s' := Final(Apply(s, KillAll(order)), after);
             |s.killers| < |s'.killers| ==> KillerDone(s'.killers[|s.killers|])
    ensures var s := Final(INIT, before);
            var s' := Final(Apply(s, KillAll(order)), after);
            && (forall k :: k in s.entries ==> TakenDown(s', k, s.entries[k]))
            && (s.attempts == map[] && NoEnsure(after) ==> s'.entries == map[])
  {
    var s := Final(INIT, before);
    RunKeepsInv(INIT, before);
    var s1 := Apply(s, KillAll(order));
    StepKeepsInv(s, KillAll(order));
    var s' := Final(s1, after);
    if s.attempts == map[] && NoEnsure(after) { DrainRun(s, s1, |s.killers|, after); }
    forall k | k in s.entries ensures TakenDown(s', k, s.entries[k]) {
      assert ProcInv(s1, s.entries[k]);
      ReachRun(s1, after, |s.killers|, k, s.entries[k]);
      assert ProcInv(s', s.entries[k]);
      DoomedIffKilling(s', s.entries[k]);
    }
  }

  function KillerRank(x: Killer): nat {
    4 * |x.todo| + match x.pc case Idle => 0 case Signalling(_) => 1 case StoppingTimer(_) => 2 case Locking(_) => 3
  }

  function NextKillStep(x: Killer): KillStep {
    match x.pc
    case Idle => Next
    case Locking(_) => Lock
    case StoppingTimer(_) => Stop
    case Signalling(_) => Signal
  }

  lemma OthersLeaveKiller(s: State, step: Step, i: nat)
    requires Enabled(s, step) && i < |s.killers| && !(step.ByKiller? && step.i == i)
    ensures i < |Apply(s, step).killers| && Apply(s, step).killers[i] == s.killers[i]
  {
    match step
    case ByAttempt(_, _) =>
    case ByProcess(_, _) =>
    case TimerFires(_) =>
    case KillAll(_) =>
    case ByKiller(_, _) =>
  }

  lemma KillStepDescends(s: State, i: nat)
    requires Inv(s) && i < |s.killers| && !KillerDone(s.killers[i])
    ensures var step := NextKillStep(s.killers[i]);
            KillEnabled(s, i, step) && KillerRank(ApplyKill(s, i, step).killers[i]) < KillerRank(s.killers[i])
  {
    assert KillerInv(s, i);
  }

  /**
   No killer is ever stuck: whatever has happened around it, its next step can be taken and
   brings it nearer its return, and nobody else's step moves it. So KillAll returns.
   */
  lemma KillersAdvance(run: seq<Step>, i: nat)
    requires ValidRun(INIT, run) && i < |Final(INIT, run).killers|
    ensures var s := Final(INIT, run);
            var step := NextKillStep(s.killers[i]);
            !KillerDone(s.killers[i]) ==>
              KillEnabled(s, i, step) && KillerRank(ApplyKill(s, i, step).killers[i]) < KillerRank(s.killers[i])
    ensures var s := Final(INIT, run);
            forall step :: Enabled(s, step) && !(step.ByKiller? && step.i == i) ==>
              i < |Apply(s, step).killers| && Apply(s, step).killers[i] == s.killers[i]
  {
    RunKeepsInv(INIT, run);
    var s := Final(INIT, run);
    if !KillerDone(s.killers[i]) { KillStepDescends(s, i); }
    forall step | Enabled(s, step) && !(step.ByKiller? && step.i == i)
      ensures i < |Apply(s, step).killers| && Apply(s, step).killers[i] == s.killers[i]
    {
      OthersLeaveKiller(s, step, i);
    }
  }

  // ---------------------------------------------------------------- refreshing a tunnel

  /** The step takes `p` out of the table: a killer for `k` takes the lock, or the exit waiter of `p` cleans up. */
  ghost predicate TakesOut(s: State, step: Step, k: Key, p: nat) {
    || (step.ByKiller? && step.kill.Lock? && step.i < |s.killers| && s.killers[step.i].pc == Locking(k))
    || step == ByProcess(p, WaiterCleans)
  }

  ghost predicate TakenOut(s: State, run: seq<Step>, k: Key, p: nat)
    requires ValidRun(s, run)
    decreases |run|
  {
    run != [] && (TakesOut(s, run[0], k, p) || TakenOut(Apply(s, run[0]), run[1..], k, p))
  }

  ghost predicate OnlyStops(run: seq<Step>, k: Key) {
    forall i :: 0 <= i < |run| && run[i].ByAttempt? && run[i].k == k ==> run[i].attempt.StopOld?
  }

  ghost predicate Refreshing(s: State, k: Key, p: nat) {
    At(s, k, StoppingOld(p)) || At(s, k, Rearming(p))
  }

  lemma AttemptInRefresh(s: State, k': Key, act: AttemptStep, k: Key, p: nat)
    requires Inv(s) && AttemptEnabled(s, k', act) && (k' == k ==> act.StopOld?) && Refreshing(s, k, p)
    ensures Refreshing(ApplyAttempt(s, k', act), k, p)
    ensures k in ApplyAttempt(s, k', act).entries <==> k in s.entries
  {
    match act
    case Begin =>
    case Lookup =>
    case StopOld =>
    case Rearm =>
    case SpawnFails =>
    case Spawns =>
    case ArmStartup =>
    case ExitsEarly =>
    case StartupOver =>
    case CreateEntry =>
    case Store =>
    case LaunchWaiter =>
  }

  lemma ExitInRefresh(s: State, q: nat, act: ExitStep, k: Key, p: nat)
    requires Inv(s) && ExitEnabled(s, q, act) && Refreshing(s, k, p)
    ensures k in ApplyExit(s, q, act).entries <==> k in s.entries && !TakesOut(s, ByProcess(q, act), k, p)
  {
    assert AttemptInv(s, k) && ProcInv(s, q);
  }

  lemma KillInRefresh(s: State, i: nat, act: KillStep, k: Key, p: nat)
    requires KillEnabled(s, i, act)
    ensures k in ApplyKill(s, i, act).entries <==> k in s.entries && !TakesOut(s, ByKiller(i, act), k, p)
  {}

  lemma RefreshStep(s: State, step: Step, k: Key, p: nat)
    requires Inv(s) && Enabled(s, step) && OnlyStops([step], k) && Refreshing(s, k, p)
    ensures Refreshing(Apply(s, step), k, p)
    ensures k in Apply(s, step).entries <==> k in s.entries && !TakesOut(s, step, k, p)
  {
    assert [step][0] == step;
    match step
    case ByAttempt(k', act) => AttemptInRefresh(s, k', act, k, p);
    case ByProcess(q, act) => ExitInRefresh(s, q, act, k, p);
    case TimerFires(_) =>
    case KillAll(_) =>
    case ByKiller(i, act) => KillInRefresh(s, i, act, k, p);
  }

  lemma {:induction false} RefreshWindow(s: State, run: seq<Step>, k: Key, p: nat)
    requires Inv(s) && ValidRun(s, run) && OnlyStops(run, k) && Refreshing(s, k, p)
    ensures Inv(Final(s, run)) && Refreshing(Final(s, run), k, p)
    ensures k in Final(s, run).entries <==> k in s.entries && !TakenOut(s, run, k, p)
    decreases |run|
  {
    if run != [] {
      StepKeepsInv(s, run[0]);
      RefreshStep(s, run[0], k, p);
      RefreshWindow(Apply(s, run[0]), run[1..], k, p);
    }
  }

  /**
   An EnsureProxy that found a tunnel and refreshed it (lines 155-161) returns success with that
   tunnel still tracked if and only if, between its lookup and its return, no kill of the key
   took the lock and the exit waiter of the tunnel did not clean up.
   */
  lemma RefreshedTunnelTrackedIff(before: seq<Step>, k: Key, between: seq<Step>)
    requires ValidRun(INIT, before) && AttemptEnabled(Final(INIT, before), k, Lookup)
    requires k in Final(INIT, before).entries
    requires var looked := ApplyAttempt(Final(INIT, before), k, Lookup);
             && ValidRun(looked, between) && OnlyStops(between, k)
             && AttemptEnabled(Final(looked, between), k, Rearm)
    ensures var s := Final(INIT, before);
            var looked := ApplyAttempt(s, k, Lookup);
            var returned := ApplyAttempt(Final(looked, between), k, Rearm);
            && k !in returned.attempts
            && (k in returned.entries <==> !TakenOut(looked, between, k, s.entries[k]))
            && (k in returned.entries ==> returned.entries[k] == s.entries[k])
  {
    RunKeepsInv(INIT, before);
    var s := Final(INIT, before);
    AttemptKeepsInv(s, k, Lookup);
    var looked := ApplyAttempt(s, k, Lookup);
    RefreshWindow(looked, between, k, s.entries[k]);
    assert AttemptInv(Final(looked, between), k);
  }

  // ---------------------------------------------------------------- a run that loses the refresh

  lemma {:induction false} ExtendFrom(s: State, run: seq<Step>, step: Step)
    requires ValidRun(s, run) && Enabled(Final(s, run), step)
    ensures ValidRun(s, run + [step]) && Final(s, run + [step]) == Apply(Final(s, run), step)
    decreases |run|
  {
    if run != [] {
      ExtendFrom(Apply(s, run[0]), run[1..], step);
      assert (run + [step])[1..] == run[1..] + [step];
    }
  }

  lemma Extend(run: seq<Step>, step: Step) returns (longer: seq<Step>)
    requires ValidRun(INIT, run) && Enabled(Final(INIT, run), step)
    ensures longer == run + [step] && ValidRun(INIT, longer)
    ensures Final(INIT, longer) == Apply(Final(INIT, run), step)
  {
    longer := run + [step];
    ExtendFrom(INIT, run, step);
  }

  /** The first attempt for `k`, up to the select of line 178. */
  lemma FirstSpawn(k: Key) returns (run: seq<Step>)
    ensures ValidRun(INIT, run)
    ensures Final(INIT, run) ==
      State([Process(k, true, NotSent, NotStarted, None, 0, Attempting)], [Timer(EndStartup(0), Armed)], map[],
            map[k := Racing(0, 0)], [])
  {
    run := Extend([], ByAttempt(k, Begin));
    run := Extend(run, ByAttempt(k, Lookup));
    run := Extend(run, ByAttempt(k, Spawns));
    run := Extend(run, ByAttempt(k, ArmStartup));
  }

  /** The same up to line 190: the process is past its startup window, not yet registered. */
  lemma EntryCreated(k: Key) returns (run: seq<Step>)
    ensures ValidRun(INIT, run)
    ensures Final(INIT, run) ==
      State([Process(k, true, NotSent, NotStarted, Some(1), 0, Attempting)],
            [Timer(EndStartup(0), Fired), Timer(KillKey(k), Armed)],
            map[], map[k := Storing(0)], [])
  {
    run := FirstSpawn(k);
    run := Extend(run, TimerFires(0));
    run := Extend(run, ByAttempt(k, StartupOver));
    run := Extend(run, ByAttempt(k, CreateEntry));
    assert Final(INIT, run).timers == [Timer(EndStartup(0), Fired), Timer(KillKey(k), Armed)];
    assert Final(INIT, run).procs == [Process(k, true, NotSent, NotStarted, Some(1), 0, Attempting)];
  }

  /** A first EnsureProxy for `k` that succeeds: one process, tracked, its TTL timer armed. */
  lemma FirstEnsure(k: Key) returns (run: seq<Step>)
    ensures ValidRun(INIT, run)
    ensures Final(INIT, run) ==
      State([Process(k, true, NotSent, Blocked, Some(1), 0, Tracking)],
            [Timer(EndStartup(0), Fired), Timer(KillKey(k), Armed)],
            map[k := 0], map[], [])
  {
    run := EntryCreated(k);
    run := Extend(run, ByAttempt(k, Store));
    run := Extend(run, ByAttempt(k, LaunchWaiter));
    assert Final(INIT, run).procs == [Process(k, true, NotSent, Blocked, Some(1), 0, Tracking)];
  }

  /**
   A second EnsureProxy looks the tunnel up just before its TTL timer fires. It returns success,
   yet the tunnel is untracked and has had its SIGTERM; and it leaves behind an armed timer that
   will kill whatever is registered under the key by then.
   */
  lemma RefreshCanLoseTheTunnel(k: Key) returns (run: seq<Step>)
    ensures ValidRun(INIT, run) && run != [] && run[|run| - 1] == ByAttempt(k, Rearm)
    ensures var s := Final(INIT, run);
            && k !in s.entries && |s.procs| == 1 && s.procs[0].signals == 1
            && exists t :: 0 <= t < |s.timers| && s.timers[t] == Timer(KillKey(k), Armed)
  {
    run := FirstEnsure(k);
    run := Extend(run, ByAttempt(k, Begin));
    run := Extend(run, ByAttempt(k, Lookup));
    run := Extend(run, TimerFires(1));
    run := Extend(run, ByKiller(0, Lock));
    run := Extend(run, ByKiller(0, Stop));
    run := Extend(run, ByKiller(0, Signal));
    run := Extend(run, ByAttempt(k, StopOld));
    run := Extend(run, ByAttempt(k, Rearm));
    assert Final(INIT, run).timers[2] == Timer(KillKey(k), Armed);
  }
}
