/**
 The tunnel manager of internal/proxy/manager.go as a step system, at the granularity of
 its mutex: every section under `mu` and every statement outside it is one step, and the
 steps of all goroutines interleave in any order.

 Four kinds of goroutine share the table `entries`:
   - attempts: one run of ensureProcessProxy per key at a time, which is what singleflight
     guarantees (callers that join a running attempt take no step of their own);
   - exit waiters: one per registered process;
   - killers: a killProcessEntry run, started by a TTL timer or by the loop of
     KillAllProcessProxies;
   - the `cmd.Wait` goroutine of each process, which reports the exit on a channel.

 There is no clock here: an armed timer may fire at any moment.
 */
module TunnelSteps {
  import opened Outcomes

  type Key = string

  datatype Job = KillKey(key: Key) | EndStartup(pid: nat)
  datatype TimerState = Armed | Fired | Stopped
  datatype Timer = Timer(job: Job, state: TimerState)

  /** The one-slot channel `exited`. */
  datatype ExitNotice = NotSent | Sent | Taken

  /** The goroutine that follows registration (lines 195-203). */
  datatype Waiter = NotStarted | Blocked | Woken | Finished

  /** Who answers for a process. Auxiliary: `Inv` ties every case to the shared state. */
  datatype Owner = Attempting | Tracking | Killing(thread: nat) | Signalled | Reaped

  /** A spawned process together with its processEntry, whose `timer` exists from line 190 on. */
  datatype Process = Process(
    key: Key, alive: bool, exited: ExitNotice, waiter: Waiter,
    timer: Option<nat>, signals: nat, owner: Owner)

  /** Program counter of one attempt; each case is about to run the lines given. */
  datatype Attempt =
    | Looking                               // 155-157
    | StoppingOld(pid: nat)                 // 159
    | Rearming(pid: nat)                    // 160-161
    | Spawning                              // 164-173
    | Preparing(pid: nat)                   // 175-176
    | Racing(pid: nat, startup: nat)        // 178-187
    | Creating(pid: nat)                    // 189-190
    | Storing(pid: nat)                     // 191-193
    | Launching(pid: nat)                   // 195-204

  datatype KillPc = Idle | Locking(key: Key) | StoppingTimer(pid: nat) | Signalling(pid: nat)

  /** A killProcessEntry run, and the keys the enclosing KillAll loop has still to visit. */
  datatype Killer = Killer(pc: KillPc, todo: seq<Key>)

  datatype State = State(
    procs: seq<Process>, timers: seq<Timer>, entries: map<Key, nat>,
    attempts: map<Key, Attempt>, killers: seq<Killer>)

  datatype AttemptStep =
    | Begin | Lookup | StopOld | Rearm | SpawnFails | Spawns | ArmStartup
    | ExitsEarly | StartupOver | CreateEntry | Store | LaunchWaiter

  datatype ExitStep = Exits | WaitReturns | WaiterWakes | WaiterCleans

  datatype KillStep = Next | Lock | Stop | Signal

  datatype Step =
    | ByAttempt(k: Key, attempt: AttemptStep)
    | ByProcess(p: nat, exit: ExitStep)
    | TimerFires(t: nat)
    | KillAll(order: seq<Key>)
    | ByKiller(i: nat, kill: KillStep)

  const INIT := State([], [], map[], map[], [])

  /** The attempt has spawned `p` and not registered it yet. */
  predicate Carries(a: Attempt, p: nat) {
    match a
    case Preparing(q) => p == q
    case Racing(q, _) => p == q
    case Creating(q) => p == q
    case Storing(q) => p == q
    case _ => false
  }

  predicate KillerHolds(x: Killer, p: nat) {
    x.pc == StoppingTimer(p) || x.pc == Signalling(p)
  }

  /** A killProcessEntry run, or the KillAll loop around it, that has returned. */
  predicate KillerDone(x: Killer) {
    x.pc == Idle && x.todo == []
  }

  /** `order` lists every tracked key once, in whatever order Go's map iteration picks. */
  ghost predicate Lists(order: seq<Key>, keys: set<Key>) {
    && (forall i, j :: 0 <= i < j < |order| ==> order[i] != order[j])
    && (forall k :: k in order <==> k in keys)
  }

  predicate At(s: State, k: Key, a: Attempt) {
    k in s.attempts && s.attempts[k] == a
  }

  predicate AttemptEnabled(s: State, k: Key, step: AttemptStep) {
    if step.Begin? then k !in s.attempts else
      k in s.attempts && var a := s.attempts[k];
      match step
      case Lookup => a.Looking?
      case StopOld => a.StoppingOld? && a.pid < |s.procs|
      case Rearm => a.Rearming? && a.pid < |s.procs|
      case SpawnFails => a.Spawning?
      case Spawns => a.Spawning?
      case ArmStartup => a.Preparing?
      case ExitsEarly => a.Racing? && a.pid < |s.procs| && s.procs[a.pid].exited == Sent
      case StartupOver => a.Racing? && a.startup < |s.timers| && s.timers[a.startup].state == Fired
      case CreateEntry => a.Creating? && a.pid < |s.procs|
      case Store => a.Storing? && a.pid < |s.procs|
      case LaunchWaiter => a.Launching? && a.pid < |s.procs|
  }

  predicate ExitEnabled(s: State, p: nat, step: ExitStep) {
    p < |s.procs| && var x := s.procs[p];
    match step
    case Exits => x.alive
    case WaitReturns => !x.alive && x.exited == NotSent
    case WaiterWakes => x.waiter == Blocked && x.exited == Sent
    case WaiterCleans => x.waiter == Woken
  }

  predicate KillEnabled(s: State, i: nat, step: KillStep) {
    i < |s.killers| && var x := s.killers[i];
    match step
    case Next => x.pc == Idle && x.todo != []
    case Lock => x.pc.Locking? && (x.pc.key in s.entries ==> s.entries[x.pc.key] < |s.procs|)
    case Stop => x.pc.StoppingTimer? && x.pc.pid < |s.procs|
    case Signal => x.pc.Signalling? && x.pc.pid < |s.procs|
  }

  ghost predicate Enabled(s: State, step: Step) {
    match step
    case ByAttempt(k, act) => AttemptEnabled(s, k, act)
    case ByProcess(p, act) => ExitEnabled(s, p, act)
    case TimerFires(t) => t < |s.timers| && s.timers[t].state == Armed
    case KillAll(order) => Lists(order, s.entries.Keys)
    case ByKiller(i, act) => KillEnabled(s, i, act)
  }

  /** timer.Stop(): no effect on a timer that has fired, and the result is ignored. */
  function StopTimer(timers: seq<Timer>, t: Option<nat>): seq<Timer> {
    if t.Some? && t.value < |timers| && timers[t.value].state == Armed
    then timers[t.value := timers[t.value].(state := Stopped)]
    else timers
  }

  function Goto(s: State, k: Key, a: Attempt): State {
    s.(attempts := s.attempts[k := a])
  }

  function Return(s: State, k: Key): State {
    s.(attempts := s.attempts - {k})
  }

  function SetProc(s: State, p: nat, x: Process): State
    requires p < |s.procs|
  {
    s.(procs := s.procs[p := x])
  }

  /** Lines 160 and 190: a fresh TTL timer in the entry's `timer` field. */
  function ArmKillTimer(s: State, k: Key, p: nat): State
    requires p < |s.procs|
  {
    SetProc(s.(timers := s.timers + [Timer(KillKey(k), Armed)]), p, s.procs[p].(timer := Some(|s.timers|)))
  }

  function SetKiller(s: State, i: nat, pc: KillPc): State
    requires i < |s.killers|
  {
    s.(killers := s.killers[i := s.killers[i].(pc := pc)])
  }

  function ApplyAttempt(s: State, k: Key, step: AttemptStep): State
    requires AttemptEnabled(s, k, step)
  {
    match step
    case Begin => Goto(s, k, Looking)
    case Lookup => Goto(s, k, if k in s.entries then StoppingOld(s.entries[k]) else Spawning)
    case StopOld =>
      var p := s.attempts[k].pid;
      Goto(s.(timers := StopTimer(s.timers, s.procs[p].timer)), k, Rearming(p))
    case Rearm =>
      var p := s.attempts[k].pid;
      Return(ArmKillTimer(s, k, p), k)
    case SpawnFails => Return(s, k)
    case Spawns =>
      var x := Process(k, true, NotSent, NotStarted, None, 0, Attempting);
      Goto(s.(procs := s.procs + [x]), k, Preparing(|s.procs|))
    case ArmStartup =>
      var p := s.attempts[k].pid;
      Goto(s.(timers := s.timers + [Timer(EndStartup(p), Armed)]), k, Racing(p, |s.timers|))
    case ExitsEarly =>
      var p := s.attempts[k].pid;
      Return(SetProc(s.(timers := StopTimer(s.timers, Some(s.attempts[k].startup))),
                     p, s.procs[p].(exited := Taken, owner := Reaped)), k)
    case StartupOver => Goto(s, k, Creating(s.attempts[k].pid))
    case CreateEntry =>
      var p := s.attempts[k].pid;
      Goto(ArmKillTimer(s, k, p), k, Storing(p))
    case Store =>
      var p := s.attempts[k].pid;
      Goto(SetProc(s.(entries := s.entries[k := p]), p, s.procs[p].(owner := Tracking)), k, Launching(p))
    case LaunchWaiter =>
      var p := s.attempts[k].pid;
      Return(SetProc(s, p, s.procs[p].(waiter := Blocked)), k)
  }

  function ApplyExit(s: State, p: nat, step: ExitStep): State
    requires ExitEnabled(s, p, step)
  {
    var x := s.procs[p];
    match step
    case Exits => SetProc(s, p, x.(alive := false))
    case WaitReturns => SetProc(s, p, x.(exited := Sent))
    case WaiterWakes => SetProc(s, p, x.(exited := Taken, waiter := Woken))
    case WaiterCleans =>
      if x.key in s.entries && s.entries[x.key] == p then
        SetProc(s.(timers := StopTimer(s.timers, x.timer), entries := s.entries - {x.key}),
                p, x.(waiter := Finished, owner := Reaped))
      else
        SetProc(s, p, x.(waiter := Finished))
  }

  function ApplyFire(s: State, t: nat): State
    requires t < |s.timers|
  {
    var timer := s.timers[t];
    var fired := s.(timers := s.timers[t := timer.(state := Fired)]);
    if timer.job.KillKey? then fired.(killers := s.killers + [Killer(Locking(timer.job.key), [])]) else fired
  }

  function ApplyKill(s: State, i: nat, step: KillStep): State
    requires KillEnabled(s, i, step)
  {
    var x := s.killers[i];
    match step
    case Next => s.(killers := s.killers[i := Killer(Locking(x.todo[0]), x.todo[1..])])
    case Lock =>
      var k := x.pc.key;
      if k in s.entries then
        var p := s.entries[k];
        SetKiller(SetProc(s.(entries := s.entries - {k}), p, s.procs[p].(owner := Killing(i))),
                  i, StoppingTimer(p))
      else
        SetKiller(s, i, Idle)
    case Stop =>
      SetKiller(s.(timers := StopTimer(s.timers, s.procs[x.pc.pid].timer)), i, Signalling(x.pc.pid))
    case Signal =>
      var p := x.pc.pid;
      SetKiller(SetProc(s, p, s.procs[p].(signals := s.procs[p].signals + 1, owner := Signalled)), i, Idle)
  }

  function Apply(s: State, step: Step): State
    requires Enabled(s, step)
  {
    match step
    case ByAttempt(k, act) => ApplyAttempt(s, k, act)
    case ByProcess(p, act) => ApplyExit(s, p, act)
    case TimerFires(t) => ApplyFire(s, t)
    case KillAll(order) => s.(killers := s.killers + [Killer(Idle, order)])
    case ByKiller(i, act) => ApplyKill(s, i, act)
  }

  // ---------------------------------------------------------------- runs

  ghost predicate ValidRun(s: State, run: seq<Step>)
    decreases |run|
  {
    run == [] || (Enabled(s, run[0]) && ValidRun(Apply(s, run[0]), run[1..]))
  }

  function Final(s: State, run: seq<Step>): State
    requires ValidRun(s, run)
    decreases |run|
  {
    if run == [] then s else Final(Apply(s, run[0]), run[1..])
  }

  // ---------------------------------------------------------------- invariant

  ghost predicate EntriesInv(s: State) {
    forall k :: k in s.entries ==> s.entries[k] < |s.procs| && s.procs[s.entries[k]].key == k
  }

  /** The attempt has looked up `p`, which is still tracked, or else nothing is. */
  ghost predicate Found(s: State, k: Key, p: nat) {
    p < |s.procs| && s.procs[p].key == k && s.procs[p].timer.Some? && (k in s.entries ==> s.entries[k] == p)
  }

  ghost predicate Held(s: State, k: Key, p: nat) {
    k !in s.entries && p < |s.procs| && s.procs[p].key == k && s.procs[p].owner == Attempting
  }

  ghost predicate AttemptInv(s: State, k: Key)
    requires k in s.attempts
  {
    match s.attempts[k]
    case Looking => true
    case StoppingOld(p) => Found(s, k, p)
    case Rearming(p) => Found(s, k, p)
    case Spawning => k !in s.entries
    case Preparing(p) => Held(s, k, p) && s.procs[p].timer.None?
    case Racing(p, t) =>
      && Held(s, k, p) && s.procs[p].timer.None?
      && t < |s.timers| && s.timers[t].job == EndStartup(p)
    case Creating(p) => Held(s, k, p) && s.procs[p].timer.None?
    case Storing(p) => Held(s, k, p) && s.procs[p].timer.Some?
    case Launching(p) =>
      && p < |s.procs| && s.procs[p].key == k
      && s.procs[p].waiter == NotStarted && s.procs[p].exited != Taken
      && s.procs[p].owner !in {Attempting, Reaped} && s.procs[p].timer.Some?
  }

  ghost predicate ProcInv(s: State, p: nat)
    requires p < |s.procs|
  {
    var x := s.procs[p];
    && (x.owner == Attempting <==> x.key in s.attempts && Carries(s.attempts[x.key], p))
    && (x.owner == Tracking <==> x.key in s.entries && s.entries[x.key] == p)
    && (x.owner == Signalled <==> x.signals == 1) && x.signals <= 1
    && (x.owner == Reaped ==> x.exited == Taken)
    && (x.owner.Killing? ==> x.owner.thread < |s.killers| && KillerHolds(s.killers[x.owner.thread], p))
    && (x.exited != NotSent ==> !x.alive)
    && (x.waiter == Blocked ==> x.exited != Taken)
    && (x.waiter in {Woken, Finished} ==> x.exited == Taken)
    && (x.owner == Attempting ==> x.waiter == NotStarted && x.exited != Taken)
    && (x.owner == Tracking ==> x.waiter != Finished)
    && (x.waiter == NotStarted && x.owner !in {Attempting, Reaped} ==> At(s, x.key, Launching(p)))
    && (x.owner !in {Attempting, Reaped} ==> x.timer.Some?)
    && (x.timer.Some? ==> x.timer.value < |s.timers| && s.timers[x.timer.value].job == KillKey(x.key))
  }

  ghost predicate KillerInv(s: State, i: nat)
    requires i < |s.killers|
  {
    var pc := s.killers[i].pc;
    (pc.StoppingTimer? || pc.Signalling?) ==> pc.pid < |s.procs| && s.procs[pc.pid].owner == Killing(i)
  }

  ghost predicate Inv(s: State) {
    && EntriesInv(s)
    && (forall k :: k in s.attempts ==> AttemptInv(s, k))
    && (forall p :: 0 <= p < |s.procs| ==> ProcInv(s, p))
    && (forall i :: 0 <= i < |s.killers| ==> KillerInv(s, i))
  }

  /** Steps before the process is awaited, as opposed to those that settle and register it. */
  predicate IsOpening(step: AttemptStep) {
    step.Begin? || step.Lookup? || step.StopOld? || step.Rearm? || step.SpawnFails? || step.Spawns?
  }

  lemma OpeningKeepsProcs(s: State, k: Key, step: AttemptStep, p: nat)
    requires Inv(s) && AttemptEnabled(s, k, step) && p < |ApplyAttempt(s, k, step).procs|
    requires IsOpening(step)
    ensures ProcInv(ApplyAttempt(s, k, step), p)
  {
    if k in s.attempts { assert AttemptInv(s, k); }
    if p < |s.procs| { assert ProcInv(s, p); }
  }

  /** Steps in which the attempt waits for its process to survive the startup window. */
  predicate IsWaiting(step: AttemptStep) {
    step.ArmStartup? || step.ExitsEarly? || step.StartupOver?
  }

  lemma WaitingKeepsProcs(s: State, k: Key, step: AttemptStep, p: nat)
    requires Inv(s) && AttemptEnabled(s, k, step) && p < |s.procs| && IsWaiting(step)
    ensures ProcInv(ApplyAttempt(s, k, step), p)
  {
    assert AttemptInv(s, k) && ProcInv(s, p);
  }

  lemma CreatingKeepsProcs(s: State, k: Key, p: nat)
    requires Inv(s) && AttemptEnabled(s, k, CreateEntry) && p < |s.procs|
    ensures ProcInv(ApplyAttempt(s, k, CreateEntry), p)
  {
    assert AttemptInv(s, k) && ProcInv(s, p);
  }

  lemma StoringKeepsProcs(s: State, k: Key, p: nat)
    requires Inv(s) && AttemptEnabled(s, k, Store) && p < |s.procs|
    ensures ProcInv(ApplyAttempt(s, k, Store), p)
  {
    assert AttemptInv(s, k) && ProcInv(s, p);
  }

  lemma LaunchingKeepsProcs(s: State, k: Key, p: nat)
    requires Inv(s) && AttemptEnabled(s, k, LaunchWaiter) && p < |s.procs|
    ensures ProcInv(ApplyAttempt(s, k, LaunchWaiter), p)
  {
    assert AttemptInv(s, k) && ProcInv(s, p);
  }

  lemma ClosingKeepsProcs(s: State, k: Key, step: AttemptStep, p: nat)
    requires Inv(s) && AttemptEnabled(s, k, step) && p < |s.procs|
    requires !IsOpening(step)
    ensures ProcInv(ApplyAttempt(s, k, step), p)
  {
    match step
    case CreateEntry => CreatingKeepsProcs(s, k, p);
    case Store => StoringKeepsProcs(s, k, p);
    case LaunchWaiter => LaunchingKeepsProcs(s, k, p);
    case _ => WaitingKeepsProcs(s, k, step, p);
  }

  lemma AttemptKeepsItself(s: State, k: Key, step: AttemptStep)
    requires Inv(s) && AttemptEnabled(s, k, step) && k in ApplyAttempt(s, k, step).attempts
    ensures AttemptInv(ApplyAttempt(s, k, step), k)
  {
    if k in s.attempts { assert AttemptInv(s, k); }
    if k in s.entries { assert ProcInv(s, s.entries[k]); }
    if step.Store? { assert ProcInv(s, s.attempts[k].pid); }
  }

  lemma OpeningKeepsOthers(s: State, k: Key, step: AttemptStep, k': Key)
    requires Inv(s) && AttemptEnabled(s, k, step) && IsOpening(step) && k' != k && k' in s.attempts
    ensures AttemptInv(ApplyAttempt(s, k, step), k')
  {
    if k in s.attempts { assert AttemptInv(s, k); }
    assert AttemptInv(s, k');
  }

  lemma WaitingKeepsOthers(s: State, k: Key, step: AttemptStep, k': Key)
    requires Inv(s) && AttemptEnabled(s, k, step) && IsWaiting(step) && k' != k && k' in s.attempts
    ensures AttemptInv(ApplyAttempt(s, k, step), k')
  {
    assert AttemptInv(s, k) && AttemptInv(s, k');
  }

  lemma ClosingKeepsOthers(s: State, k: Key, step: AttemptStep, k': Key)
    requires Inv(s) && AttemptEnabled(s, k, step) && !IsOpening(step) && !IsWaiting(step) && k' != k && k' in s.attempts
    ensures AttemptInv(ApplyAttempt(s, k, step), k')
  {
    assert AttemptInv(s, k) && AttemptInv(s, k');
  }

  lemma AttemptKeepsAttempts(s: State, k: Key, step: AttemptStep, k': Key)
    requires Inv(s) && AttemptEnabled(s, k, step) && k' in ApplyAttempt(s, k, step).attempts
    ensures AttemptInv(ApplyAttempt(s, k, step), k')
  {
    if k' == k {
      AttemptKeepsItself(s, k, step);
    } else if IsOpening(step) {
      OpeningKeepsOthers(s, k, step, k');
    } else if IsWaiting(step) {
      WaitingKeepsOthers(s, k, step, k');
    } else {
      ClosingKeepsOthers(s, k, step, k');
    }
  }

  lemma AttemptKeepsKillers(s: State, k: Key, step: AttemptStep, i: nat)
    requires Inv(s) && AttemptEnabled(s, k, step) && i < |s.killers|
    ensures KillerInv(ApplyAttempt(s, k, step), i)
  {
    if k in s.attempts { assert AttemptInv(s, k); }
    assert KillerInv(s, i);
  }

  lemma AttemptKeepsInv(s: State, k: Key, step: AttemptStep)
    requires Inv(s) && AttemptEnabled(s, k, step)
    ensures Inv(ApplyAttempt(s, k, step))
  {
    var s' := ApplyAttempt(s, k, step);
    assert EntriesInv(s') by { if k in s.attempts { assert AttemptInv(s, k); } }
    forall p | 0 <= p < |s'.procs| ensures ProcInv(s', p) {
      if IsOpening(step) { OpeningKeepsProcs(s, k, step, p); } else { ClosingKeepsProcs(s, k, step, p); }
    }
    forall k' | k' in s'.attempts ensures AttemptInv(s', k') { AttemptKeepsAttempts(s, k, step, k'); }
    forall i | 0 <= i < |s'.killers| ensures KillerInv(s', i) { AttemptKeepsKillers(s, k, step, i); }
  }

  lemma ExitKeepsProcs(s: State, p: nat, step: ExitStep, q: nat)
    requires Inv(s) && ExitEnabled(s, p, step) && q < |s.procs|
    ensures ProcInv(ApplyExit(s, p, step), q)
  {
    assert ProcInv(s, p) && ProcInv(s, q);
  }

  lemma ExitKeepsAttempts(s: State, p: nat, step: ExitStep, k: Key)
    requires Inv(s) && ExitEnabled(s, p, step) && k in s.attempts
    ensures AttemptInv(ApplyExit(s, p, step), k)
  {
    assert ProcInv(s, p) && AttemptInv(s, k);
  }

  lemma ExitKeepsInv(s: State, p: nat, step: ExitStep)
    requires Inv(s) && ExitEnabled(s, p, step)
    ensures Inv(ApplyExit(s, p, step))
  {
    var s' := ApplyExit(s, p, step);
    assert ProcInv(s, p);
    forall q | 0 <= q < |s'.procs| ensures ProcInv(s', q) { ExitKeepsProcs(s, p, step, q); }
    forall k | k in s'.attempts ensures AttemptInv(s', k) { ExitKeepsAttempts(s, p, step, k); }
    forall i | 0 <= i < |s'.killers| ensures KillerInv(s', i) { assert KillerInv(s, i); }
  }

  lemma LockKeepsProcs(s: State, i: nat, q: nat)
    requires Inv(s) && KillEnabled(s, i, Lock) && q < |s.procs|
    ensures ProcInv(ApplyKill(s, i, Lock), q)
  {
    assert KillerInv(s, i) && ProcInv(s, q);
  }

  lemma SignalKeepsProcs(s: State, i: nat, step: KillStep, q: nat)
    requires Inv(s) && KillEnabled(s, i, step) && q < |s.procs| && !step.Lock?
    ensures ProcInv(ApplyKill(s, i, step), q)
  {
    assert KillerInv(s, i) && ProcInv(s, q);
  }

  lemma KillKeepsProcs(s: State, i: nat, step: KillStep, q: nat)
    requires Inv(s) && KillEnabled(s, i, step) && q < |s.procs|
    ensures ProcInv(ApplyKill(s, i, step), q)
  {
    if step.Lock? { LockKeepsProcs(s, i, q); } else { SignalKeepsProcs(s, i, step, q); }
  }

  lemma KillKeepsAttempts(s: State, i: nat, step: KillStep, k: Key)
    requires Inv(s) && KillEnabled(s, i, step) && k in s.attempts
    ensures AttemptInv(ApplyKill(s, i, step), k)
  {
    assert KillerInv(s, i) && AttemptInv(s, k);
    if step.Lock? && s.killers[i].pc.key in s.entries { assert ProcInv(s, s.entries[s.killers[i].pc.key]); }
  }

  lemma KillKeepsKillers(s: State, i: nat, step: KillStep, j: nat)
    requires Inv(s) && KillEnabled(s, i, step) && j < |s.killers|
    ensures KillerInv(ApplyKill(s, i, step), j)
  {
    assert KillerInv(s, i) && KillerInv(s, j);
    if step.Lock? && s.killers[i].pc.key in s.entries { assert ProcInv(s, s.entries[s.killers[i].pc.key]); }
  }

  lemma KillKeepsInv(s: State, i: nat, step: KillStep)
    requires Inv(s) && KillEnabled(s, i, step)
    ensures Inv(ApplyKill(s, i, step))
  {
    var s' := ApplyKill(s, i, step);
    forall q | 0 <= q < |s'.procs| ensures ProcInv(s', q) { KillKeepsProcs(s, i, step, q); }
    forall k | k in s'.attempts ensures AttemptInv(s', k) { KillKeepsAttempts(s, i, step, k); }
    forall j | 0 <= j < |s'.killers| ensures KillerInv(s', j) { KillKeepsKillers(s, i, step, j); }
  }

  /** A firing timer and a starting KillAll only add a killer that holds nothing. */
  lemma NewKillerKeepsInv(s: State, s': State)
    requires Inv(s)
    requires s' == s.(timers := s'.timers, killers := s'.killers)
    requires |s.timers| == |s'.timers| && forall t :: 0 <= t < |s.timers| ==> s'.timers[t].job == s.timers[t].job
    requires s'.killers == s.killers
               || (exists x: Killer :: s'.killers == s.killers + [x] && !x.pc.StoppingTimer? && !x.pc.Signalling?)
    ensures Inv(s')
  {
    forall q | 0 <= q < |s'.procs| ensures ProcInv(s', q) { assert ProcInv(s, q); }
    forall k | k in s'.attempts ensures AttemptInv(s', k) { assert AttemptInv(s, k); }
    forall j | 0 <= j < |s'.killers| ensures KillerInv(s', j) { if j < |s.killers| { assert KillerInv(s, j); } }
  }

  lemma StepKeepsInv(s: State, step: Step)
    requires Inv(s) && Enabled(s, step)
    ensures Inv(Apply(s, step))
  {
    match step
    case ByAttempt(k, act) => AttemptKeepsInv(s, k, act);
    case ByProcess(p, act) => ExitKeepsInv(s, p, act);
    case ByKiller(i, act) => KillKeepsInv(s, i, act);
    case TimerFires(t) => NewKillerKeepsInv(s, Apply(s, step));
    case KillAll(order) => NewKillerKeepsInv(s, Apply(s, step));
  }

  lemma {:induction false} RunKeepsInv(s: State, run: seq<Step>)
    requires Inv(s) && ValidRun(s, run)
    ensures Inv(Final(s, run))
    decreases |run|
  {
    if run != [] {
      StepKeepsInv(s, run[0]);
      RunKeepsInv(Apply(s, run[0]), run[1..]);
    }
  }
}
