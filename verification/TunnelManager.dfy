/**
 The Manager of internal/proxy/manager.go as objects: the processEntries map, the entries whose
 `timer` field is replaced in place, and the clock that holds the armed timers. Every method is
 one atomic section of that file and is proved equal to one step of `TunnelTimed`, so its
 invariant `Inv` and the promises proved there carry over to these objects.
 */
module TunnelManager {
  import opened Outcomes
  import opened TunnelTimed

  class Clock {
    var now: int
    var alarms: map<nat, Alarm>
    var timers: nat

    constructor ()
      ensures now == 0 && alarms == map[] && timers == 0
    {
      now, alarms, timers := 0, map[], 0;
    }

    /** AfterFunc(ttl, func() { m.killProcessEntry(key) }). */
    method AfterFunc(ttl: int, key: Key) returns (timer: nat)
      modifies this
      ensures timer == old(timers) && timers == old(timers) + 1 && now == old(now)
      ensures alarms == old(alarms)[timer := Alarm(key, Due(now, ttl))]
    {
      timer := timers;
      alarms := alarms[timer := Alarm(key, Due(now, ttl))];
      timers := timers + 1;
    }

    method Stop(timer: nat)
      modifies this
      ensures alarms == old(alarms) - {timer} && timers == old(timers) && now == old(now)
    {
      alarms := alarms - {timer};
    }
  }

  class ProcessEntry {
    const process: nat
    var timer: nat

    constructor (process: nat, timer: nat)
      ensures this.process == process && this.timer == timer
    {
      this.process, this.timer := process, timer;
    }
  }

  datatype EnsureOutcome = Refreshed | SpawnError | AwaitingStartup

  class Manager {
    const clock: Clock
    var processEntries: map<Key, ProcessEntry>
    var starting: map<Key, Start>  // attempts blocked in the select of line 178
    var spawned: seq<Key>
    var signalled: seq<nat>
    ghost var lastUse: map<Key, Use>

    ghost function Entries(): map<Key, Entry>
      reads this, processEntries.Values
    {
      map k | k in processEntries :: Entry(processEntries[k].process, processEntries[k].timer)
    }

    ghost function Model(): State
      reads this, clock, processEntries.Values
    {
      State(clock.now, Entries(), clock.alarms, starting, spawned, clock.timers, signalled, lastUse)
    }

    /** No two keys share an entry object, so replacing one entry's timer leaves the others alone. */
    ghost predicate Valid()
      reads this
    {
      forall k, k' :: k in processEntries && k' in processEntries && processEntries[k] == processEntries[k'] ==> k == k'
    }

    constructor (clock: Clock)
      requires clock.now == 0 && clock.alarms == map[] && clock.timers == 0
      ensures Valid() && Model() == INIT && this.clock == clock
    {
      this.clock := clock;
      processEntries, starting, spawned, signalled, lastUse := map[], map[], [], [], map[];
      new;
      assert Model() == INIT;
    }

    /** Lines 154-176: up to the select that waits for the startup window. */
    method EnsureProcessProxy(key: Key, ttl: int, spawns: bool) returns (outcome: EnsureOutcome)
      requires Valid() && key !in starting
      modifies this, clock, processEntries.Values
      ensures Valid()
      ensures old(key in processEntries) ==>
                outcome == Refreshed && Model() == RefreshTunnel(old(Model()), key, ttl)
      ensures old(key !in processEntries) && spawns ==>
                outcome == AwaitingStartup && Model() == StartTunnel(old(Model()), key, ttl)
      ensures old(key !in processEntries) && !spawns ==> outcome == SpawnError && Model() == old(Model())
    {
      if key in processEntries {
        ghost var before := Model();
        var existing := processEntries[key];
        clock.Stop(existing.timer);
        existing.timer := clock.AfterFunc(ttl, key);
        lastUse := lastUse[key := Use(clock.now, ttl)];
        assert Entries() == (before.entries - {key})[key := Entry(existing.process, existing.timer)];
        return Refreshed;
      }
      if !spawns {
        return SpawnError;
      }
      starting := starting[key := Start(|spawned|, clock.now + STARTUP_WINDOW, ttl)];
      spawned := spawned + [key];
      return AwaitingStartup;
    }

    /** Lines 179-185: the process exits while its attempt waits. */
    method ExitedEarly(key: Key)
      requires Valid() && key in starting
      modifies this
      ensures Valid() && Model() == old(Model()).(starting := old(starting) - {key})
    {
      starting := starting - {key};
    }

    /** Lines 189-192: a new entry object, under its key. */
    method Insert(key: Key, process: nat, timer: nat)
      requires Valid()
      modifies this`processEntries
      ensures Valid() && Entries() == old(Entries())[key := Entry(process, timer)]
      ensures key in processEntries && fresh(processEntries[key])
    {
      var e := new ProcessEntry(process, timer);
      processEntries := processEntries[key := e];
    }

    /** Lines 186-193: the startup window elapses, and the tunnel is registered. */
    method StartupElapsed(key: Key)
      requires Valid() && key in starting && starting[key].due <= clock.now
      modifies this, clock
      ensures Valid() && Model() == RegisterTunnel(old(Model()), key)
      ensures key in processEntries && fresh(processEntries[key])
    {
      ghost var before := Model();
      var x := starting[key];
      var timer := clock.AfterFunc(x.ttl, key);
      starting := starting - {key};
      lastUse := lastUse[key := Use(clock.now, x.ttl)];
      assert Entries() == before.entries;
      Insert(key, x.pid, timer);
      assert Entries() == before.entries[key := Entry(x.pid, timer)];
      assert Model() == RegisterTunnel(before, key);
    }

    /** Lines 196-202: the exit waiter of entry `e`, which may no longer be the one registered. */
    method ProcessExited(key: Key, e: ProcessEntry)
      requires Valid()
      modifies this, clock
      ensures Valid()
      ensures Model() == if old(key in processEntries && processEntries[key] == e)
                         then Untrack(old(Model()), key) else old(Model())
    {
      if key in processEntries && processEntries[key] == e {
        ghost var before := Model();
        clock.Stop(e.timer);
        processEntries := processEntries - {key};
        assert Model() == Untrack(before, key);
      }
    }

    /** Lines 207-221. */
    method KillProcessEntry(key: Key)
      requires Valid()
      modifies this, clock
      ensures Valid() && Model() == KillEntry(old(Model()), key)
      ensures processEntries == old(processEntries) - {key}
    {
      if key in processEntries {
        ghost var before := Model();
        var e := processEntries[key];
        processEntries := processEntries - {key};
        clock.Stop(e.timer);
        signalled := signalled + [e.process];
        assert Model() == KillEntry(before, key);
      } else {
        assert processEntries - {key} == processEntries;
      }
    }

    /** A TTL timer whose deadline has come: its callback runs. */
    method TimerFires(timer: nat)
      requires Valid() && timer in clock.alarms && clock.alarms[timer].due <= clock.now
      modifies this, clock
      ensures Valid() && Model() == Apply(old(Model()), Fire(timer))
    {
      var key := clock.alarms[timer].key;
      clock.Stop(timer);
      KillProcessEntry(key);
    }

    /** Lines 229-239. Go visits the map in any order, so `keys` is any listing of it. */
    method KillAllProcessProxies()
      requires Valid() && Inv(Model())
      modifies this, clock
      ensures Valid() && Inv(Model()) && processEntries == map[] && clock.alarms == map[]
      ensures clock.now == old(clock.now) && starting == old(starting) && spawned == old(spawned)
      ensures forall p :: p in signalled <==>
                p in old(signalled) || exists k :: k in old(Entries()) && old(Entries())[k].pid == p
    {
      ghost var before := Model();
      var keys: seq<Key> := [];
      var rest := processEntries.Keys;
      while rest != {}
        invariant rest <= processEntries.Keys && forall k :: k in processEntries ==> k in rest || k in keys
        decreases |rest|
      {
        var k :| k in rest;
        keys := keys + [k];
        rest := rest - {k};
      }
      for i := 0 to |keys|
        invariant Valid() && Model() == KillKeys(before, keys[..i])
        invariant forall k :: k in processEntries ==>
                    k in old(processEntries) && processEntries[k] == old(processEntries[k])
      {
        KillProcessEntry(keys[i]);
        assert keys[..i + 1][..i] == keys[..i];
      }
      assert keys[..|keys|] == keys;
      KillKeysEmptiesTable(before, keys);
      assert forall k :: k in processEntries ==> k in Model().entries;
    }
  }
}
