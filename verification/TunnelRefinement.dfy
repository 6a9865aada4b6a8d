/**
 The two models of internal/proxy/manager.go agree: whatever the clocked manager of `TunnelTimed`
 does in one step, the goroutines of `TunnelSteps` can do in a few, without other goroutines
 coming in between. So every run with the clock is also a run of the finer system, and what is
 proved there of all runs holds of it.
 */
module TunnelRefinement {
  import opened Outcomes
  import opened TunnelSteps
  import Timed = TunnelTimed

  // ---------------------------------------------------------------- the relation

  ghost predicate Tracked(f: State, k: Key, p: nat) {
    && p < |f.procs| && f.procs[p].key == k && f.procs[p].alive && f.procs[p].exited == NotSent
    && f.procs[p].waiter == Blocked && f.procs[p].timer.Some? && f.procs[p].timer.value < |f.timers|
    && f.timers[f.procs[p].timer.value] == Timer(KillKey(k), Armed)
  }

  /** `k` is tracked in both by the same process, which runs, is awaited, and has its TTL timer armed. */
  ghost predicate TunnelMatches(t: Timed.State, f: State, k: Key) {
    && (k in t.entries <==> k in f.entries)
    && (k in t.entries ==> f.entries[k] == t.entries[k].pid && Tracked(f, k, t.entries[k].pid))
  }

  ghost predicate Waits(f: State, k: Key, p: nat, x: nat) {
    && p < |f.procs| && f.procs[p].key == k && f.procs[p].alive && f.procs[p].exited == NotSent
    && f.procs[p].waiter == NotStarted && x < |f.timers| && f.timers[x] == Timer(EndStartup(p), Armed)
  }

  /** An attempt for `k` waits in both for the same process, inside its startup window. */
  ghost predicate AttemptMatches(t: Timed.State, f: State, k: Key) {
    && (k in t.starting <==> k in f.attempts)
    && (k in t.starting ==> f.attempts[k].Racing? && f.attempts[k].pid == t.starting[k].pid
                            && Waits(f, k, t.starting[k].pid, f.attempts[k].startup))
  }

  ghost predicate SignalsMatch(t: Timed.State, f: State) {
    && |f.procs| == |t.spawned|
    && forall p :: 0 <= p < |f.procs| ==>
      f.procs[p].key == t.spawned[p] && f.procs[p].signals == if p in t.signalled then 1 else 0
  }

  /** No killProcessEntry is under way; a KillAll loop may still have keys to visit. */
  ghost predicate Quiet(f: State) {
    forall i :: 0 <= i < |f.killers| ==> f.killers[i].pc == Idle
  }

  ghost predicate Matches(t: Timed.State, f: State) {
    && (forall k :: TunnelMatches(t, f, k) && AttemptMatches(t, f, k))
    && SignalsMatch(t, f) && Quiet(f)
  }

  // ---------------------------------------------------------------- what a step leaves alone

  ghost predicate About(f: State, x: nat, k: Key)
    requires x < |f.timers|
  {
    match f.timers[x].job
    case KillKey(k') => k' == k
    case EndStartup(p) => p < |f.procs| ==> f.procs[p].key == k
  }

  ghost predicate OnlyTouches(f: State, f': State, k: Key) {
    && |f.procs| <= |f'.procs| && |f.timers| <= |f'.timers|
    && (forall p :: 0 <= p < |f.procs| && f.procs[p].key != k ==> f'.procs[p] == f.procs[p])
    && (forall x :: 0 <= x < |f.timers| && !About(f, x, k) ==> f'.timers[x] == f.timers[x])
    && f'.entries - {k} == f.entries - {k} && f'.attempts - {k} == f.attempts - {k}
  }

  /** Timed states that treat `k` alike, whichever timer stands for its deadline. */
  ghost predicate Alike(t: Timed.State, t': Timed.State, k: Key) {
    && (k in t.entries <==> k in t'.entries) && (k in t.entries ==> t'.entries[k].pid == t.entries[k].pid)
    && (k in t.starting <==> k in t'.starting) && (k in t.starting ==> t'.starting[k].pid == t.starting[k].pid)
  }

  lemma OthersMatch(t: Timed.State, t': Timed.State, f: State, f': State, k: Key, other: Key)
    requires TunnelMatches(t, f, other) && AttemptMatches(t, f, other) && other != k
    requires Alike(t, t', other) && OnlyTouches(f, f', k)
    ensures TunnelMatches(t', f', other) && AttemptMatches(t', f', other)
  {
    assert other in f.entries <==> other in f.entries - {k};
    assert other in f'.entries <==> other in f'.entries - {k};
    assert other in f.attempts <==> other in f.attempts - {k};
    assert other in f'.attempts <==> other in f'.attempts - {k};
    if other in f.entries { assert f'.entries[other] == (f'.entries - {k})[other] == (f.entries - {k})[other]; }
    if other in f.attempts { assert f'.attempts[other] == (f'.attempts - {k})[other] == (f.attempts - {k})[other]; }
  }

  lemma Match(t: Timed.State, t': Timed.State, f: State, f': State, k: Key)
    requires Matches(t, f) && OnlyTouches(f, f', k)
    requires forall other :: other != k ==> Alike(t, t', other)
    requires TunnelMatches(t', f', k) && AttemptMatches(t', f', k) && SignalsMatch(t', f') && Quiet(f')
    ensures Matches(t', f')
  {
    forall other ensures TunnelMatches(t', f', other) && AttemptMatches(t', f', other) {
      assert TunnelMatches(t, f, other) && AttemptMatches(t, f, other);
      if other != k {
        assert Alike(t, t', other);
        OthersMatch(t, t', f, f', k, other);
      }
    }
  }

  lemma Precede(s: State, step: Step, rest: seq<Step>)
    requires Enabled(s, step) && ValidRun(Apply(s, step), rest)
    ensures ValidRun(s, [step] + rest) && Final(s, [step] + rest) == Final(Apply(s, step), rest)
  {
    assert ([step] + rest)[1..] == rest;
  }

  /** Up to four steps in a row. */
  lemma InARow(s: State, a: Step, b: Step, c: Step, d: Step)
    requires Enabled(s, a)
    requires Enabled(Apply(s, a), b)
    requires Enabled(Apply(Apply(s, a), b), c)
    requires Enabled(Apply(Apply(Apply(s, a), b), c), d)
    ensures ValidRun(s, [a, b, c, d])
    ensures Final(s, [a, b, c, d]) == Apply(Apply(Apply(Apply(s, a), b), c), d)
  {
    var s1 := Apply(s, a);
    var s2 := Apply(s1, b);
    var s3 := Apply(s2, c);
    Precede(s3, d, []);
    Precede(s2, c, [d] + []);
    Precede(s1, b, [c] + ([d] + []));
    Precede(s, a, [b] + ([c] + ([d] + [])));
    assert [a] + ([b] + ([c] + ([d] + []))) == [a, b, c, d];
  }

  // ---------------------------------------------------------------- the refinement, step by step

  function Rearmed(f: State, k: Key, p: nat, x: nat): State
    requires p < |f.procs| && x < |f.timers|
  {
    f.(timers := f.timers[x := Timer(KillKey(k), Stopped)] + [Timer(KillKey(k), Armed)],
       procs := f.procs[p := f.procs[p].(timer := Some(|f.timers|))])
  }

  lemma RefreshRun(f: State, k: Key, p: nat) returns (run: seq<Step>)
    requires k !in f.attempts && k in f.entries && f.entries[k] == p && Tracked(f, k, p)
    ensures ValidRun(f, run) && Final(f, run) == Rearmed(f, k, p, f.procs[p].timer.value)
  {
    run := [ByAttempt(k, Begin), ByAttempt(k, Lookup), ByAttempt(k, StopOld), ByAttempt(k, Rearm)];
    InARow(f, run[0], run[1], run[2], run[3]);
    assert f.attempts[k := Looking][k := StoppingOld(p)][k := Rearming(p)] - {k} == f.attempts;
  }

  function SpawnedBy(f: State, k: Key): State {
    f.(procs := f.procs + [Process(k, true, NotSent, NotStarted, None, 0, Attempting)],
       timers := f.timers + [Timer(EndStartup(|f.procs|), Armed)],
       attempts := f.attempts[k := Racing(|f.procs|, |f.timers|)])
  }

  lemma SpawnRun(f: State, k: Key) returns (run: seq<Step>)
    requires k !in f.attempts && k !in f.entries
    ensures ValidRun(f, run) && Final(f, run) == SpawnedBy(f, k)
  {
    run := [ByAttempt(k, Begin), ByAttempt(k, Lookup), ByAttempt(k, Spawns), ByAttempt(k, ArmStartup)];
    InARow(f, run[0], run[1], run[2], run[3]);
  }

  function GaveUp(f: State, k: Key, p: nat, x: nat): State
    requires p < |f.procs| && x < |f.timers|
  {
    f.(procs := f.procs[p := f.procs[p].(alive := false, exited := Taken, owner := Reaped)],
       timers := f.timers[x := Timer(EndStartup(p), Stopped)], attempts := f.attempts - {k})
  }

  lemma ExitEarlyRun(f: State, k: Key, p: nat, x: nat) returns (run: seq<Step>)
    requires k in f.attempts && f.attempts[k] == Racing(p, x) && Waits(f, k, p, x)
    ensures ValidRun(f, run) && Final(f, run) == GaveUp(f, k, p, x)
  {
    var f1 := Apply(f, ByProcess(p, Exits));
    var f2 := Apply(f1, ByProcess(p, WaitReturns));
    Precede(f2, ByAttempt(k, ExitsEarly), []);
    Precede(f1, ByProcess(p, WaitReturns), [ByAttempt(k, ExitsEarly)] + []);
    Precede(f, ByProcess(p, Exits), [ByProcess(p, WaitReturns)] + ([ByAttempt(k, ExitsEarly)] + []));
    run := [ByProcess(p, Exits)] + ([ByProcess(p, WaitReturns)] + ([ByAttempt(k, ExitsEarly)] + []));
    assert Apply(f2, ByAttempt(k, ExitsEarly)).procs == GaveUp(f, k, p, x).procs;
  }

  function Registered(f: State, k: Key, p: nat, x: nat): State
    requires p < |f.procs| && x < |f.timers|
  {
    f.(procs := f.procs[p := f.procs[p].(timer := Some(|f.timers|), owner := Tracking, waiter := Blocked)],
       timers := f.timers[x := Timer(EndStartup(p), Fired)] + [Timer(KillKey(k), Armed)],
       entries := f.entries[k := p], attempts := f.attempts - {k})
  }

  lemma SettleRun(f: State, k: Key, p: nat, x: nat) returns (run: seq<Step>)
    requires k in f.attempts && f.attempts[k] == Racing(p, x) && p < |f.procs|
    requires x < |f.timers| && f.timers[x] == Timer(EndStartup(p), Fired)
    ensures ValidRun(f, run) && Final(f, run) == Registered(f, k, p, x)
  {
    run := [ByAttempt(k, StartupOver), ByAttempt(k, CreateEntry), ByAttempt(k, Store), ByAttempt(k, LaunchWaiter)];
    InARow(f, run[0], run[1], run[2], run[3]);
    assert Final(f, run).procs == Registered(f, k, p, x).procs;
    assert Final(f, run).attempts == f.attempts - {k};
    assert f.timers[x := Timer(EndStartup(p), Fired)] == f.timers;
  }

  lemma RegisterRun(f: State, k: Key, p: nat, x: nat) returns (run: seq<Step>)
    requires k in f.attempts && f.attempts[k] == Racing(p, x) && Waits(f, k, p, x)
    ensures ValidRun(f, run) && Final(f, run) == Registered(f, k, p, x)
  {
    var f1 := f.(timers := f.timers[x := Timer(EndStartup(p), Fired)]);
    assert Apply(f, TimerFires(x)) == f1;
    run := SettleRun(f1, k, p, x);
    Precede(f, TimerFires(x), run);
    run := [TimerFires(x)] + run;
  }

  function Gone(f: State, k: Key, p: nat, x: nat): State
    requires p < |f.procs| && x < |f.timers|
  {
    f.(procs := f.procs[p := f.procs[p].(alive := false, exited := Taken, waiter := Finished, owner := Reaped)],
       timers := f.timers[x := Timer(KillKey(k), Stopped)], entries := f.entries - {k})
  }

  lemma ExitRun(f: State, k: Key, p: nat) returns (run: seq<Step>)
    requires k in f.entries && f.entries[k] == p && Tracked(f, k, p)
    ensures ValidRun(f, run) && Final(f, run) == Gone(f, k, p, f.procs[p].timer.value)
  {
    run := [ByProcess(p, Exits), ByProcess(p, WaitReturns), ByProcess(p, WaiterWakes), ByProcess(p, WaiterCleans)];
    InARow(f, run[0], run[1], run[2], run[3]);
    assert Final(f, run).procs == Gone(f, k, p, f.procs[p].timer.value).procs;
  }

  function Killed(f: State, k: Key, p: nat, x: nat, end: TimerState, todo: seq<Key>): State
    requires p < |f.procs| && x < |f.timers|
  {
    f.(procs := f.procs[p := f.procs[p].(signals := f.procs[p].signals + 1, owner := Signalled)],
       timers := f.timers[x := Timer(KillKey(k), end)], entries := f.entries - {k},
       killers := f.killers + [Killer(Idle, todo)])
  }

  lemma FireRun(f: State, k: Key, p: nat) returns (run: seq<Step>)
    requires k in f.entries && f.entries[k] == p && Tracked(f, k, p)
    ensures ValidRun(f, run) && Final(f, run) == Killed(f, k, p, f.procs[p].timer.value, Fired, [])
  {
    var i := |f.killers|;
    run := [TimerFires(f.procs[p].timer.value), ByKiller(i, Lock), ByKiller(i, Stop), ByKiller(i, Signal)];
    InARow(f, run[0], run[1], run[2], run[3]);
    var f' := Killed(f, k, p, f.procs[p].timer.value, Fired, []);
    assert Final(f, run).procs == f'.procs && Final(f, run).killers == f'.killers;
  }

  /** The keys other than `k`, in some order. */
  lemma {:induction false} OtherKeys(keys: set<Key>) returns (order: seq<Key>)
    ensures Lists(order, keys)
  {
    if keys == {} { return []; }
    var k :| k in keys;
    var rest := OtherKeys(keys - {k});
    order := [k] + rest;
    assert forall k' :: k' in order <==> k' in keys;
  }

  /** One iteration of a KillAll loop: killer `i` visits `k`. */
  lemma VisitRun(f: State, i: nat, k: Key, p: nat, todo: seq<Key>) returns (run: seq<Step>)
    requires k in f.entries && f.entries[k] == p && Tracked(f, k, p)
    requires i < |f.killers| && f.killers[i] == Killer(Idle, [k] + todo)
    ensures var f' := Killed(f, k, p, f.procs[p].timer.value, Stopped, todo);
            ValidRun(f, run) && Final(f, run) == f'.(killers := f.killers[i := Killer(Idle, todo)])
  {
    run := [ByKiller(i, Next), ByKiller(i, Lock), ByKiller(i, Stop), ByKiller(i, Signal)];
    assert ([k] + todo)[1..] == todo;
    InARow(f, run[0], run[1], run[2], run[3]);
    var f' := Killed(f, k, p, f.procs[p].timer.value, Stopped, todo);
    assert Final(f, run).procs == f'.procs;
  }

  lemma KillRun(f: State, k: Key, p: nat) returns (run: seq<Step>, todo: seq<Key>)
    requires k in f.entries && f.entries[k] == p && Tracked(f, k, p)
    ensures ValidRun(f, run) && Final(f, run) == Killed(f, k, p, f.procs[p].timer.value, Stopped, todo)
  {
    todo := OtherKeys(f.entries.Keys - {k});
    var order, i := [k] + todo, |f.killers|;
    var f1 := f.(killers := f.killers + [Killer(Idle, order)]);
    assert Enabled(f, KillAll(order)) && Apply(f, KillAll(order)) == f1;
    run := VisitRun(f1, i, k, p, todo);
    assert f1.killers[i := Killer(Idle, todo)] == f.killers + [Killer(Idle, todo)];
    Precede(f, KillAll(order), run);
    run := [KillAll(order)] + run;
  }

  lemma EnsuresTouchOnly(f: State, k: Key, p: nat, x: nat)
    requires p < |f.procs| && f.procs[p].key == k && x < |f.timers|
    ensures f.timers[x].job == KillKey(k) ==> OnlyTouches(f, Rearmed(f, k, p, x), k)
    ensures f.timers[x].job == EndStartup(p) ==> OnlyTouches(f, Registered(f, k, p, x), k)
  {}

  lemma GivingUpTouchesOnly(f: State, k: Key, p: nat, x: nat)
    requires p < |f.procs| && f.procs[p].key == k && x < |f.timers| && f.timers[x].job == EndStartup(p)
    ensures OnlyTouches(f, GaveUp(f, k, p, x), k)
  {}

  lemma EndsTouchOnly(f: State, k: Key, p: nat, x: nat, end: TimerState, todo: seq<Key>)
    requires p < |f.procs| && f.procs[p].key == k && x < |f.timers| && f.timers[x].job == KillKey(k)
    ensures OnlyTouches(f, Gone(f, k, p, x), k) && OnlyTouches(f, Killed(f, k, p, x, end, todo), k)
  {}

  lemma OthersAlike(t: Timed.State, k: Key, ttl: int)
    ensures k in t.entries ==> forall other :: other != k ==>
              Alike(t, Timed.RefreshTunnel(t, k, ttl), other) && Alike(t, Timed.Untrack(t, k), other)
    ensures forall other :: other != k ==> Alike(t, Timed.KillEntry(t, k), other)
    ensures k in t.starting ==> forall other :: other != k ==> Alike(t, Timed.RegisterTunnel(t, k), other)
  {}

  lemma RearmedTracked(t: Timed.State, f: State, k: Key, ttl: int)
    requires k in t.entries && TunnelMatches(t, f, k) && AttemptMatches(t, f, k) && SignalsMatch(t, f)
    requires k !in t.starting
    ensures var t', f' := Timed.RefreshTunnel(t, k, ttl),
              Rearmed(f, k, t.entries[k].pid, f.procs[t.entries[k].pid].timer.value);
            TunnelMatches(t', f', k) && AttemptMatches(t', f', k) && SignalsMatch(t', f')
  {}

  lemma RefreshMatches(t: Timed.State, f: State, k: Key, ttl: int)
    requires Timed.Inv(t) && Matches(t, f) && k in t.entries && k !in t.starting
    requires TunnelMatches(t, f, k) && AttemptMatches(t, f, k)
    ensures Matches(Timed.RefreshTunnel(t, k, ttl),
                    Rearmed(f, k, t.entries[k].pid, f.procs[t.entries[k].pid].timer.value))
  {
    var t' := Timed.RefreshTunnel(t, k, ttl);
    var f' := Rearmed(f, k, t.entries[k].pid, f.procs[t.entries[k].pid].timer.value);
    EnsuresTouchOnly(f, k, t.entries[k].pid, f.procs[t.entries[k].pid].timer.value);
    OthersAlike(t, k, ttl);
    RearmedTracked(t, f, k, ttl);
    Match(t, t', f, f', k);
  }

  lemma SpawnMatches(t: Timed.State, f: State, k: Key, ttl: int)
    requires Timed.Inv(t) && Matches(t, f) && k !in t.entries && k !in t.starting
    requires TunnelMatches(t, f, k) && AttemptMatches(t, f, k)
    ensures Matches(Timed.StartTunnel(t, k, ttl), SpawnedBy(f, k))
  {
    Match(t, Timed.StartTunnel(t, k, ttl), f, SpawnedBy(f, k), k);
  }

  lemma ExitEarlyMatches(t: Timed.State, f: State, k: Key)
    requires Timed.Inv(t) && Matches(t, f) && k in t.starting
    requires TunnelMatches(t, f, k) && AttemptMatches(t, f, k)
    ensures Matches(t.(starting := t.starting - {k}), GaveUp(f, k, t.starting[k].pid, f.attempts[k].startup))
  {
    GivingUpTouchesOnly(f, k, t.starting[k].pid, f.attempts[k].startup);
    Match(t, t.(starting := t.starting - {k}), f, GaveUp(f, k, t.starting[k].pid, f.attempts[k].startup), k);
  }

  lemma RegisterMatches(t: Timed.State, f: State, k: Key)
    requires Timed.Inv(t) && Matches(t, f) && k in t.starting
    requires TunnelMatches(t, f, k) && AttemptMatches(t, f, k)
    ensures Matches(Timed.RegisterTunnel(t, k), Registered(f, k, t.starting[k].pid, f.attempts[k].startup))
  {
    EnsuresTouchOnly(f, k, t.starting[k].pid, f.attempts[k].startup);
    OthersAlike(t, k, 0);
    Match(t, Timed.RegisterTunnel(t, k), f, Registered(f, k, t.starting[k].pid, f.attempts[k].startup), k);
  }

  lemma ExitMatches(t: Timed.State, f: State, k: Key)
    requires Timed.Inv(t) && Matches(t, f) && k in t.entries
    requires TunnelMatches(t, f, k) && AttemptMatches(t, f, k)
    ensures Matches(Timed.Untrack(t, k), Gone(f, k, t.entries[k].pid, f.procs[t.entries[k].pid].timer.value))
  {
    EndsTouchOnly(f, k, t.entries[k].pid, f.procs[t.entries[k].pid].timer.value, Fired, []);
    OthersAlike(t, k, 0);
    Match(t, Timed.Untrack(t, k), f, Gone(f, k, t.entries[k].pid, f.procs[t.entries[k].pid].timer.value), k);
  }

  lemma KilledSignals(t: Timed.State, f: State, k: Key, end: TimerState, todo: seq<Key>)
    requires Timed.Inv(t) && SignalsMatch(t, f) && k in t.entries && TunnelMatches(t, f, k) && Quiet(f)
    ensures var f' := Killed(f, k, t.entries[k].pid, f.procs[t.entries[k].pid].timer.value, end, todo);
            SignalsMatch(Timed.KillEntry(t, k), f') && Quiet(f')
  {
    assert Timed.Unsignalled(t, t.entries[k].pid, k);
  }

  lemma KillMatches(t: Timed.State, f: State, k: Key, end: TimerState, todo: seq<Key>)
    requires Timed.Inv(t) && Matches(t, f) && k in t.entries
    requires TunnelMatches(t, f, k) && AttemptMatches(t, f, k)
    ensures Matches(Timed.KillEntry(t, k),
                    Killed(f, k, t.entries[k].pid, f.procs[t.entries[k].pid].timer.value, end, todo))
  {
    var f' := Killed(f, k, t.entries[k].pid, f.procs[t.entries[k].pid].timer.value, end, todo);
    EndsTouchOnly(f, k, t.entries[k].pid, f.procs[t.entries[k].pid].timer.value, end, todo);
    OthersAlike(t, k, 0);
    KilledSignals(t, f, k, end, todo);
    Match(t, Timed.KillEntry(t, k), f, f', k);
  }

  lemma EnsureStep(t: Timed.State, f: State, step: Timed.Step) returns (run: seq<Step>)
    requires Timed.Inv(t) && Matches(t, f) && Timed.Enabled(t, step) && (step.Refresh? || step.Spawn?)
    ensures ValidRun(f, run) && Matches(Timed.Apply(t, step), Final(f, run))
  {
    var k := step.k;
    assert TunnelMatches(t, f, k) && AttemptMatches(t, f, k);
    if step.Refresh? {
      run := RefreshRun(f, k, t.entries[k].pid);
      RefreshMatches(t, f, k, step.ttl);
    } else {
      run := SpawnRun(f, k);
      SpawnMatches(t, f, k, step.ttl);
    }
  }

  lemma StartupStep(t: Timed.State, f: State, step: Timed.Step) returns (run: seq<Step>)
    requires Timed.Inv(t) && Matches(t, f) && Timed.Enabled(t, step) && (step.ExitEarly? || step.Register?)
    ensures ValidRun(f, run) && Matches(Timed.Apply(t, step), Final(f, run))
  {
    var k := step.k;
    assert TunnelMatches(t, f, k) && AttemptMatches(t, f, k);
    if step.ExitEarly? {
      run := ExitEarlyRun(f, k, t.starting[k].pid, f.attempts[k].startup);
      ExitEarlyMatches(t, f, k);
    } else {
      run := RegisterRun(f, k, t.starting[k].pid, f.attempts[k].startup);
      RegisterMatches(t, f, k);
    }
  }

  lemma EndStep(t: Timed.State, f: State, step: Timed.Step) returns (run: seq<Step>)
    requires Timed.Inv(t) && Matches(t, f) && Timed.Enabled(t, step) && (step.Exit? || step.Fire? || step.Kill?)
    ensures ValidRun(f, run) && Matches(Timed.Apply(t, step), Final(f, run))
  {
    var k := if step.Fire? then t.alarms[step.timer].key else step.k;
    assert TunnelMatches(t, f, k) && AttemptMatches(t, f, k);
    match step
    case Exit(_) =>
      run := ExitRun(f, k, t.entries[k].pid);
      ExitMatches(t, f, k);
    case Fire(x) =>
      Timed.FireIsKill(t, x);
      run := FireRun(f, k, t.entries[k].pid);
      KillMatches(t, f, k, Fired, []);
    case Kill(_) =>
      run := [];
      if k in t.entries {
        var todo;
        run, todo := KillRun(f, k, t.entries[k].pid);
        KillMatches(t, f, k, Stopped, todo);
      }
  }

  lemma StepRefines(t: Timed.State, f: State, step: Timed.Step) returns (run: seq<Step>)
    requires Timed.Inv(t) && Matches(t, f) && Timed.Enabled(t, step)
    ensures ValidRun(f, run) && Matches(Timed.Apply(t, step), Final(f, run))
  {
    match step
    case Refresh(_, _) => run := EnsureStep(t, f, step);
    case Spawn(_, _) => run := EnsureStep(t, f, step);
    case ExitEarly(_) => run := StartupStep(t, f, step);
    case Register(_) => run := StartupStep(t, f, step);
    case Exit(_) => run := EndStep(t, f, step);
    case Fire(_) => run := EndStep(t, f, step);
    case Kill(_) => run := EndStep(t, f, step);
    case Advance(_) =>
      run := [];
      forall k ensures TunnelMatches(Timed.Apply(t, step), f, k) && AttemptMatches(Timed.Apply(t, step), f, k) {
        assert TunnelMatches(t, f, k) && AttemptMatches(t, f, k);
      }
  }

  lemma {:induction false} Joins(s: State, run: seq<Step>, more: seq<Step>)
    requires ValidRun(s, run) && ValidRun(Final(s, run), more)
    ensures ValidRun(s, run + more) && Final(s, run + more) == Final(Final(s, run), more)
    decreases |run|
  {
    if run == [] {
      assert [] + more == more;
    } else {
      Joins(Apply(s, run[0]), run[1..], more);
      Precede(s, run[0], run[1..] + more);
      assert run + more == [run[0]] + (run[1..] + more);
    }
  }

  lemma {:induction false} RunRefines(t: Timed.State, timed: seq<Timed.Step>, f: State) returns (run: seq<Step>)
    requires Timed.Inv(t) && Timed.ValidRun(t, timed) && Matches(t, f)
    ensures ValidRun(f, run) && Matches(Timed.Final(t, timed), Final(f, run))
    decreases |timed|
  {
    if timed == [] { return []; }
    run := StepRefines(t, f, timed[0]);
    Timed.StepKeepsInv(t, timed[0]);
    var more := RunRefines(Timed.Apply(t, timed[0]), timed[1..], Final(f, run));
    Joins(f, run, more);
    run := run + more;
  }

  /** Every run of the clocked manager is, step for few steps, a run of the goroutines. */
  lemma TimedRunsAreFineRuns(timed: seq<Timed.Step>) returns (run: seq<Step>)
    requires Timed.ValidRun(Timed.INIT, timed)
    ensures ValidRun(INIT, run) && Matches(Timed.Final(Timed.INIT, timed), Final(INIT, run))
  {
    run := RunRefines(Timed.INIT, timed, INIT);
  }
}
