/**
 The tunnel manager with a clock, at the granularity at which a test drives it: looking up a
 tunnel and refreshing it (lines 155-161) is one step, arming the TTL timer and registering
 (lines 189-193) is one step, and a timer that fires runs killProcessEntry (lines 207-221) in
 the same step. Timers are punctual: the clock does not pass a deadline that is still armed.

 At this granularity the TTL promises hold that `TunnelOwnership.RefreshCanLoseTheTunnel` and
 `TunnelEnding.WastedKillLeavesTunnelEndless` refute for the finer steps.
 */
module TunnelTimed {
  import opened Outcomes

  type Key = string

  const STARTUP_WINDOW: int := 1_000_000_000  // one second, in nanoseconds

  datatype Entry = Entry(pid: nat, timer: nat)
  datatype Alarm = Alarm(key: Key, due: int)
  datatype Start = Start(pid: nat, due: int, ttl: int)

  /** When a tunnel was last ensured successfully, and for how long. Auxiliary. */
  datatype Use = Use(at: int, ttl: int)

  datatype State = State(
    now: int, entries: map<Key, Entry>, alarms: map<nat, Alarm>, starting: map<Key, Start>,
    spawned: seq<Key>, timers: nat, signalled: seq<nat>, lastUse: map<Key, Use>)

  const INIT := State(0, map[], map[], map[], [], 0, [], map[])

  datatype Step =
    | Refresh(k: Key, ttl: int)     // an EnsureProxy that finds the tunnel
    | Spawn(k: Key, ttl: int)       // an EnsureProxy that finds none and starts one
    | ExitEarly(k: Key)             // the process dies inside its startup window
    | Register(k: Key)              // the startup window elapses
    | Exit(k: Key)                  // a tracked process exits and its waiter cleans up
    | Fire(timer: nat)              // a TTL timer fires
    | Kill(k: Key)                  // one iteration of the KillAll loop
    | Advance(d: int)               // time passes

  predicate Enabled(s: State, step: Step) {
    match step
    case Refresh(k, ttl) => k in s.entries && k !in s.starting
    case Spawn(k, ttl) => k !in s.entries && k !in s.starting
    case ExitEarly(k) => k in s.starting
    case Register(k) => k in s.starting && s.starting[k].due <= s.now
    case Exit(k) => k in s.entries
    case Fire(t) => t in s.alarms && s.alarms[t].due <= s.now
    case Kill(k) => true
    case Advance(d) =>
      && 0 < d
      && (forall t | t in s.alarms :: s.now + d <= s.alarms[t].due)
      && (forall k | k in s.starting :: s.now + d <= s.starting[k].due)
  }

  /** When a timer armed at `at` is due. Go fires a timer of zero or negative duration at once. */
  function Due(at: int, ttl: int): int {
    at + if ttl > 0 then ttl else 0
  }

  /** AfterFunc(ttl, kill key), for a tunnel ensured now. */
  function Track(s: State, k: Key, pid: nat, ttl: int): State {
    s.(entries := s.entries[k := Entry(pid, s.timers)],
       alarms := s.alarms[s.timers := Alarm(k, Due(s.now, ttl))],
       timers := s.timers + 1,
       lastUse := s.lastUse[k := Use(s.now, ttl)])
  }

  /** Stops the timer of `k` and takes the entry out, without a signal. */
  function Untrack(s: State, k: Key): State
    requires k in s.entries
  {
    s.(entries := s.entries - {k}, alarms := s.alarms - {s.entries[k].timer})
  }

  function RefreshTunnel(s: State, k: Key, ttl: int): State
    requires k in s.entries
  {
    Track(Untrack(s, k), k, s.entries[k].pid, ttl)
  }

  function StartTunnel(s: State, k: Key, ttl: int): State {
    s.(starting := s.starting[k := Start(|s.spawned|, s.now + STARTUP_WINDOW, ttl)], spawned := s.spawned + [k])
  }

  function RegisterTunnel(s: State, k: Key): State
    requires k in s.starting
  {
    Track(s.(starting := s.starting - {k}), k, s.starting[k].pid, s.starting[k].ttl)
  }

  /** killProcessEntry. */
  function KillEntry(s: State, k: Key): State {
    if k in s.entries then Untrack(s, k).(signalled := s.signalled + [s.entries[k].pid]) else s
  }

  function Apply(s: State, step: Step): State
    requires Enabled(s, step)
  {
    match step
    case Refresh(k, ttl) => RefreshTunnel(s, k, ttl)
    case Spawn(k, ttl) => StartTunnel(s, k, ttl)
    case ExitEarly(k) => s.(starting := s.starting - {k})
    case Register(k) => RegisterTunnel(s, k)
    case Exit(k) => Untrack(s, k)
    case Fire(t) => KillEntry(s.(alarms := s.alarms - {t}), s.alarms[t].key)
    case Kill(k) => KillEntry(s, k)
    case Advance(d) => s.(now := s.now + d)
  }

  ghost predicate ValidRun(s: State, run: seq<Step>)
    decreases |run|
  {
    run == [] || (Enabled(s, run[0]) && ValidRun(Apply(s, run[0]), run[1..]))
  }

  ghost function Final(s: State, run: seq<Step>): State
    requires ValidRun(s, run)
    decreases |run|
  {
    if run == [] then s else Final(Apply(s, run[0]), run[1..])
  }

  // ---------------------------------------------------------------- invariant

  /** Tracked entries and armed timers pair up, and every deadline is the last use plus its ttl. */
  ghost predicate TimersMatch(s: State) {
    && (forall k :: k in s.entries ==>
          && s.entries[k].timer in s.alarms && s.alarms[s.entries[k].timer].key == k
          && k in s.lastUse && s.alarms[s.entries[k].timer].due == Due(s.lastUse[k].at, s.lastUse[k].ttl))
    && (forall t :: t in s.alarms ==>
          && s.alarms[t].key in s.entries && s.entries[s.alarms[t].key].timer == t
          && t < s.timers && s.now <= s.alarms[t].due)
  }

  /** `pid` was spawned for `k` and has not been signalled. */
  ghost predicate Unsignalled(s: State, pid: nat, k: Key) {
    pid < |s.spawned| && s.spawned[pid] == k && pid !in s.signalled
  }

  ghost predicate OwnedOnce(s: State) {
    && (forall k :: k in s.entries ==> k !in s.starting && Unsignalled(s, s.entries[k].pid, k))
    && (forall k :: k in s.starting ==>
          Unsignalled(s, s.starting[k].pid, k) && s.now <= s.starting[k].due)
    && (forall p :: p in s.signalled ==> p < |s.spawned|)
    && (forall i, j :: 0 <= i < j < |s.signalled| ==> s.signalled[i] != s.signalled[j])
  }

  ghost predicate Inv(s: State) {
    TimersMatch(s) && OwnedOnce(s)
  }

  lemma UntrackKeepsTimers(s: State, k: Key)
    requires TimersMatch(s) && k in s.entries
    ensures TimersMatch(Untrack(s, k))
  {}

  lemma UntrackKeepsInv(s: State, k: Key)
    requires Inv(s) && k in s.entries
    ensures Inv(Untrack(s, k)) && Unsignalled(s, s.entries[k].pid, k)
    ensures forall k' :: k' in s.entries && k' != k ==> s.entries[k'].pid != s.entries[k].pid
    ensures forall k' :: k' in s.starting ==> s.starting[k'].pid != s.entries[k].pid
  {
    UntrackKeepsTimers(s, k);
  }

  lemma KillKeepsInv(s: State, k: Key)
    requires Inv(s)
    ensures Inv(KillEntry(s, k))
  {
    if k in s.entries { UntrackKeepsInv(s, k); }
  }

  lemma TrackKeepsTimers(s: State, k: Key, pid: nat, ttl: int)
    requires TimersMatch(s) && k !in s.entries
    ensures TimersMatch(Track(s, k, pid, ttl))
  {}

  lemma TrackKeepsInv(s: State, k: Key, pid: nat, ttl: int)
    requires Inv(s) && k !in s.entries && k !in s.starting && Unsignalled(s, pid, k)
    ensures Inv(Track(s, k, pid, ttl))
  {
    TrackKeepsTimers(s, k, pid, ttl);
  }

  /** `k` is tracked in both states or in neither, by the same process with the same timer. */
  ghost predicate SameTunnel(s: State, s': State, k: Key) {
    if k in s.entries then
      && k in s'.entries && s'.entries[k] == s.entries[k]
      && s.entries[k].timer in s.alarms && s.entries[k].timer in s'.alarms
      && s'.alarms[s.entries[k].timer] == s.alarms[s.entries[k].timer]
    else k !in s'.entries
  }

  lemma OthersStay(s: State, k: Key, pid: nat, ttl: int, k': Key)
    requires TimersMatch(s) && k' != k
    ensures k in s.entries ==> SameTunnel(s, Untrack(s, k), k')
    ensures SameTunnel(s, KillEntry(s, k), k')
    ensures k !in s.entries ==> SameTunnel(s, Track(s, k, pid, ttl), k')
  {}

  lemma RefreshLeavesOthers(s: State, k: Key, ttl: int, k': Key)
    requires Inv(s) && k in s.entries && k' != k
    ensures SameTunnel(s, RefreshTunnel(s, k, ttl), k')
  {
    UntrackKeepsInv(s, k);
    OthersStay(s, k, s.entries[k].pid, ttl, k');
    OthersStay(Untrack(s, k), k, s.entries[k].pid, ttl, k');
  }

  lemma RegisterLeavesOthers(s: State, k: Key, k': Key)
    requires Inv(s) && k in s.starting && k' != k
    ensures SameTunnel(s, RegisterTunnel(s, k), k')
  {
    OthersStay(s.(starting := s.starting - {k}), k, s.starting[k].pid, s.starting[k].ttl, k');
  }

  /** Firing the timer of a tracked entry is killing that entry: the timer it stops is itself. */
  lemma FireIsKill(s: State, t: nat)
    requires Inv(s) && Enabled(s, Fire(t))
    ensures s.alarms[t].key in s.entries && s.entries[s.alarms[t].key].timer == t
    ensures Apply(s, Fire(t)) == KillEntry(s, s.alarms[t].key)
  {}

  /** The tunnel a step refreshes, registers, or ends. */
  function Touched(s: State, step: Step): Option<Key>
    requires Enabled(s, step)
  {
    match step
    case Refresh(k, _) => Some(k)
    case Register(k) => Some(k)
    case Exit(k) => Some(k)
    case Kill(k) => Some(k)
    case Fire(t) => Some(s.alarms[t].key)
    case _ => None
  }

  lemma StepLeavesOthers(s: State, step: Step, k: Key)
    requires Inv(s) && Enabled(s, step) && Touched(s, step) != Some(k)
    ensures SameTunnel(s, Apply(s, step), k)
  {
    match step
    case Refresh(k', ttl) => RefreshLeavesOthers(s, k', ttl, k);
    case Register(k') => RegisterLeavesOthers(s, k', k);
    case Exit(k') => OthersStay(s, k', 0, 0, k);
    case Kill(k') => OthersStay(s, k', 0, 0, k);
    case Fire(t) =>
      FireIsKill(s, t);
      OthersStay(s, s.alarms[t].key, 0, 0, k);
    case _ => assert TimersMatch(s);
  }

  /** The use of `k` that the step makes by ensuring it. */
  function Ensures(s: State, step: Step, k: Key): Option<Use>
    requires Enabled(s, step)
  {
    match step
    case Refresh(k', ttl) => if k' == k then Some(Use(s.now, ttl)) else None
    case Register(k') => if k' == k then Some(Use(s.now, s.starting[k].ttl)) else None
    case _ => None
  }

  /** A tunnel is tracked after a step that ensures it, and else if it was before and the step does not end it. */
  lemma StepTracks(s: State, step: Step, k: Key)
    requires Enabled(s, step)
    ensures k in Apply(s, step).entries <==>
              Ensures(s, step, k).Some?
              || (k in s.entries && step != Exit(k) && step != Kill(k)
                  && !(step.Fire? && s.alarms[step.timer].key == k))
    ensures k in Apply(s, step).lastUse <==> Ensures(s, step, k).Some? || k in s.lastUse
    ensures k in Apply(s, step).lastUse ==>
              Apply(s, step).lastUse[k] == if Ensures(s, step, k).Some? then Ensures(s, step, k).value else s.lastUse[k]
  {}

  lemma EnsureKeepsInv(s: State, step: Step)
    requires Inv(s) && Enabled(s, step) && (step.Refresh? || step.Register?)
    ensures Inv(Apply(s, step))
  {
    match step
    case Refresh(k, ttl) =>
      UntrackKeepsInv(s, k);
      TrackKeepsInv(Untrack(s, k), k, s.entries[k].pid, ttl);
    case Register(k) =>
      TrackKeepsInv(s.(starting := s.starting - {k}), k, s.starting[k].pid, s.starting[k].ttl);
  }

  lemma SpawnKeepsInv(s: State, k: Key, ttl: int)
    requires Inv(s) && k !in s.entries && k !in s.starting
    ensures Inv(StartTunnel(s, k, ttl))
  {}

  lemma AdvanceKeepsInv(s: State, d: int)
    requires Inv(s) && Enabled(s, Advance(d))
    ensures Inv(Apply(s, Advance(d)))
  {}

  lemma StepKeepsInv(s: State, step: Step)
    requires Inv(s) && Enabled(s, step)
    ensures Inv(Apply(s, step))
  {
    match step
    case Refresh(_, _) => EnsureKeepsInv(s, step);
    case Spawn(k, ttl) => SpawnKeepsInv(s, k, ttl);
    case ExitEarly(_) =>
    case Register(_) => EnsureKeepsInv(s, step);
    case Exit(k) => UntrackKeepsInv(s, k);
    case Fire(t) => FireIsKill(s, t); KillKeepsInv(s, s.alarms[t].key);
    case Kill(k) => KillKeepsInv(s, k);
    case Advance(d) => AdvanceKeepsInv(s, d);
  }

  lemma {:induction false} RunKeepsInv(s: State, run: seq<Step>)
    requires Inv(s) && ValidRun(s, run)
    ensures Inv(Final(s, run))
    decreases |run|
  {
    if run != [] {
      StepKeepsInv(s, run[0]);
      RunKeepsInv(Apply(s, run[0]), run[1..]);
    }
  }

  // ---------------------------------------------------------------- the TTL promises

  /** The last step of the run that ensured `k`, read off the steps alone. */
  ghost function LastEnsure(s: State, run: seq<Step>, k: Key, earlier: Option<Use>): Option<Use>
    requires ValidRun(s, run)
    decreases |run|
  {
    if run == [] then earlier else
      var use := Ensures(s, run[0], k);
      var latest := if use.Some? then use else earlier;
      LastEnsure(Apply(s, run[0]), run[1..], k, latest)
  }

  lemma {:induction false} LastUseIsLastEnsure(s: State, run: seq<Step>, k: Key)
    requires ValidRun(s, run)
    ensures (if k in Final(s, run).lastUse then Some(Final(s, run).lastUse[k]) else None)
         == LastEnsure(s, run, k, if k in s.lastUse then Some(s.lastUse[k]) else None)
    decreases |run|
  {
    if run != [] {
      StepTracks(s, run[0], k);
      LastUseIsLastEnsure(Apply(s, run[0]), run[1..], k);
    }
  }

  /** Armed timers correspond one to one with tracked entries, each due at the last use plus its ttl. */
  lemma TimersPairWithTunnels(run: seq<Step>)
    requires ValidRun(INIT, run)
    ensures var s := Final(INIT, run);
            && (forall k, t :: (k in s.entries && s.entries[k].timer == t) <==> (t in s.alarms && s.alarms[t].key == k))
            && (forall k :: k in s.entries ==>
                  var last := LastEnsure(INIT, run, k, None);
                  && last.Some? && s.entries[k].timer in s.alarms
                  && s.alarms[s.entries[k].timer].due == Due(last.value.at, last.value.ttl))
  {
    RunKeepsInv(INIT, run);
    forall k ensures k in Final(INIT, run).lastUse ==>
      LastEnsure(INIT, run, k, None) == Some(Final(INIT, run).lastUse[k]) {
      LastUseIsLastEnsure(INIT, run, k);
    }
  }

  /** A tunnel is never tracked past its last use plus its ttl. */
  lemma NoneOutlivesItsUse(run: seq<Step>, k: Key)
    requires ValidRun(INIT, run) && k in Final(INIT, run).entries
    ensures var s := Final(INIT, run);
            var last := LastEnsure(INIT, run, k, None);
            last.Some? && s.now <= Due(last.value.at, last.value.ttl)
  {
    RunKeepsInv(INIT, run);
    LastUseIsLastEnsure(INIT, run, k);
  }

  /** A TTL kill happens at exactly the last use plus its ttl, to the tunnel then tracked. */
  lemma TtlKillIsDue(run: seq<Step>, t: nat)
    requires ValidRun(INIT, run) && Enabled(Final(INIT, run), Fire(t))
    ensures var s := Final(INIT, run);
            var k := s.alarms[t].key;
            var last := LastEnsure(INIT, run, k, None);
            && k in s.entries && last.Some? && s.now == Due(last.value.at, last.value.ttl)
            && Apply(s, Fire(t)).signalled == s.signalled + [s.entries[k].pid]
            && Apply(s, Fire(t)).entries == s.entries - {k}
            && Apply(s, Fire(t)).alarms == s.alarms - {t}
  {
    RunKeepsInv(INIT, run);
    LastUseIsLastEnsure(INIT, run, Final(INIT, run).alarms[t].key);
  }

  /**
   At every moment of the run the last use of `k` is less than its ttl ago, and `k` neither exits
   nor is killed by KillAll.
   */
  ghost predicate KeptInUse(s: State, run: seq<Step>, k: Key)
    requires ValidRun(s, run)
    decreases |run|
  {
    && k in s.lastUse && s.now < Due(s.lastUse[k].at, s.lastUse[k].ttl)
    && (run != [] ==> run[0] != Exit(k) && run[0] != Kill(k) && KeptInUse(Apply(s, run[0]), run[1..], k))
  }

  lemma UsedTunnelStep(s: State, step: Step, k: Key)
    requires Inv(s) && Enabled(s, step) && k in s.entries && s.now < Due(s.lastUse[k].at, s.lastUse[k].ttl)
    requires step != Exit(k) && step != Kill(k)
    ensures k in Apply(s, step).entries && Apply(s, step).entries[k].pid == s.entries[k].pid
  {
    if Touched(s, step) != Some(k) { StepLeavesOthers(s, step, k); }
  }

  lemma {:induction false} UsedTunnelStays(s: State, run: seq<Step>, k: Key)
    requires Inv(s) && ValidRun(s, run) && k in s.entries && KeptInUse(s, run, k)
    ensures k in Final(s, run).entries && Final(s, run).entries[k].pid == s.entries[k].pid
    decreases |run|
  {
    if run != [] {
      StepKeepsInv(s, run[0]);
      UsedTunnelStep(s, run[0], k);
      UsedTunnelStays(Apply(s, run[0]), run[1..], k);
    }
  }

  /** A tunnel whose uses are closer together than its ttl is never killed by its TTL. */
  lemma UsedTunnelNeverExpires(before: seq<Step>, k: Key, after: seq<Step>)
    requires ValidRun(INIT, before) && k in Final(INIT, before).entries
    requires ValidRun(Final(INIT, before), after) && KeptInUse(Final(INIT, before), after, k)
    ensures var s := Final(INIT, before);
            k in Final(s, after).entries && Final(s, after).entries[k].pid == s.entries[k].pid
  {
    RunKeepsInv(INIT, before);
    UsedTunnelStays(Final(INIT, before), after, k);
  }

  /** A successful EnsureProxy leaves the tunnel tracked for its full ttl, and touches no other. */
  lemma EnsureGivesFullTtl(run: seq<Step>, step: Step)
    requires ValidRun(INIT, run) && Enabled(Final(INIT, run), step) && (step.Refresh? || step.Register?)
    ensures var s := Final(INIT, run);
            var s' := Apply(s, step);
            var k := step.k;
            && k in s'.entries && s'.entries[k].timer in s'.alarms
            && s'.alarms[s'.entries[k].timer].due == Due(s.now, if step.Refresh? then step.ttl else s.starting[k].ttl)
            && s'.entries[k].pid == (if step.Refresh? then s.entries[k].pid else s.starting[k].pid)
            && s'.signalled == s.signalled
            && (forall k' :: k' != k ==> SameTunnel(s, s', k'))
  {
    RunKeepsInv(INIT, run);
    var s, k := Final(INIT, run), step.k;
    forall k' | k' != k ensures SameTunnel(s, Apply(s, step), k') {
      if step.Refresh? { RefreshLeavesOthers(s, k, step.ttl, k'); } else { RegisterLeavesOthers(s, k, k'); }
    }
  }

  // ---------------------------------------------------------------- the startup window

  /** When the attempt that runs for `k` spawned its process, read off the steps alone. */
  ghost function LastSpawn(s: State, run: seq<Step>, k: Key, earlier: Option<Use>): Option<Use>
    requires ValidRun(s, run)
    decreases |run|
  {
    if run == [] then earlier else
      var latest := if run[0].Spawn? && run[0].k == k then Some(Use(s.now, run[0].ttl)) else earlier;
      LastSpawn(Apply(s, run[0]), run[1..], k, latest)
  }

  ghost predicate SpawnedAsRecorded(s: State, k: Key, spawn: Option<Use>) {
    k in s.starting ==> spawn == Some(Use(s.starting[k].due - STARTUP_WINDOW, s.starting[k].ttl))
  }

  lemma {:induction false} RunKeepsSpawn(s: State, run: seq<Step>, k: Key, spawn: Option<Use>)
    requires ValidRun(s, run) && SpawnedAsRecorded(s, k, spawn)
    ensures SpawnedAsRecorded(Final(s, run), k, LastSpawn(s, run, k, spawn))
    decreases |run|
  {
    if run != [] {
      var latest := if run[0].Spawn? && run[0].k == k then Some(Use(s.now, run[0].ttl)) else spawn;
      RunKeepsSpawn(Apply(s, run[0]), run[1..], k, latest);
    }
  }

  /** A tunnel is registered exactly one second after its process was spawned, with the ttl asked for then. */
  lemma RegisteredAfterWindow(run: seq<Step>, k: Key)
    requires ValidRun(INIT, run) && Enabled(Final(INIT, run), Register(k))
    ensures var s, s' := Final(INIT, run), Apply(Final(INIT, run), Register(k));
            var spawn := LastSpawn(INIT, run, k, None);
            && spawn.Some? && s.now == spawn.value.at + 1_000_000_000
            && k in s'.entries && k in s'.lastUse && s'.lastUse[k] == Use(s.now, spawn.value.ttl)
  {
    RunKeepsInv(INIT, run);
    RunKeepsSpawn(INIT, run, k, None);
  }

  // ---------------------------------------------------------------- nothing holds the clock up

  /**
   Whenever time cannot pass, a TTL timer or a startup window is due; and each tunnel that is
   starting, and each that is tracked, can still come to its end in either way.
   */
  lemma ClockNeverBlocks(run: seq<Step>)
    requires ValidRun(INIT, run)
    ensures var s := Final(INIT, run);
            && (Enabled(s, Advance(1)) || (exists t :: Enabled(s, Fire(t))) || (exists k :: Enabled(s, Register(k))))
            && (forall k :: k in s.starting ==> Enabled(s, ExitEarly(k)))
            && (forall k :: k in s.entries ==> Enabled(s, Exit(k)) && Enabled(s, Kill(k)))
  {
    var s := Final(INIT, run);
    if !Enabled(s, Advance(1)) {
      if t :| t in s.alarms && !(s.now + 1 <= s.alarms[t].due) {
        assert Enabled(s, Fire(t));
      } else {
        var k :| k in s.starting && !(s.now + 1 <= s.starting[k].due);
        assert Enabled(s, Register(k));
      }
    }
  }

  // ---------------------------------------------------------------- the KillAll loop

  /** killProcessEntry for each key in turn. */
  function KillKeys(s: State, keys: seq<Key>): State {
    if keys == [] then s else KillEntry(KillKeys(s, keys[..|keys| - 1]), keys[|keys| - 1])
  }

  lemma {:induction false} KillKeysKeepsInv(s: State, keys: seq<Key>)
    requires Inv(s)
    ensures var s' := KillKeys(s, keys);
            Inv(s') && s'.starting == s.starting && s'.spawned == s.spawned && s'.now == s.now
  {
    if keys != [] {
      KillKeysKeepsInv(s, keys[..|keys| - 1]);
      KillKeepsInv(KillKeys(s, keys[..|keys| - 1]), keys[|keys| - 1]);
    }
  }

  /** What is left after the loop, and who has been signalled: exactly the processes of `keys`. */
  lemma {:induction false} KillKeysRemoves(s: State, keys: seq<Key>)
    ensures var s' := KillKeys(s, keys);
            && s'.entries == s.entries - (set k | k in keys)
            && (forall p :: p in s'.signalled <==>
                  p in s.signalled || exists k :: k in keys && k in s.entries && s.entries[k].pid == p)
  {
    if keys != [] {
      var front, last := keys[..|keys| - 1], keys[|keys| - 1];
      assert keys == front + [last];
      KillKeysRemoves(s, front);
    }
  }

  /**
   Over any listing of the tracked keys the loop empties the table, leaves no timer armed, and
   signals exactly the tracked processes; that it signals none twice is part of `Inv`.
   */
  lemma KillKeysEmptiesTable(s: State, keys: seq<Key>)
    requires Inv(s) && forall k :: k in s.entries ==> k in keys
    ensures var s' := KillKeys(s, keys);
            && Inv(s') && s'.entries == map[] && s'.alarms == map[]
            && s'.starting == s.starting && s'.spawned == s.spawned && s'.now == s.now
            && (forall p :: p in s'.signalled <==>
              p in s.signalled || exists k :: k in s.entries && s.entries[k].pid == p)
  {
    KillKeysKeepsInv(s, keys);
    KillKeysRemoves(s, keys);
    assert TimersMatch(KillKeys(s, keys));
  }
}
