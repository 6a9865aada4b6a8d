/**
 The in-memory cache of internal/cache/cache.go: entries expire `ttl` after being set, expiry is
 checked on read, and a read that finds an expired entry deletes it. What a read returns is
 stated against the list of operations the cache has seen, in which reads leave no trace.
 */
module TtlCache {
  import opened Outcomes

  datatype Entry<+V> = Entry(value: V, expiresAt: int)

  /** One call on the cache, with the clock reading it took. */
  datatype Op<+K, +V> = GetOp(key: K, at: int) | SetOp(key: K, value: V, at: int) | DeleteOp(key: K) | ClearOp

  /** What the table answers for `key` at time `now`. */
  function Visible<K, V>(store: map<K, Entry<V>>, key: K, now: int): Option<V> {
    if key in store && now <= store[key].expiresAt then Some(store[key].value) else None
  }

  /** The table after a Get of `key` at time `now`. */
  function Evicted<K, V>(store: map<K, Entry<V>>, key: K, now: int): map<K, Entry<V>> {
    if key in store && now > store[key].expiresAt then store - {key} else store
  }

  predicate Affects<K(==), V>(op: Op<K, V>, key: K) {
    match op
    case GetOp(_, _) => false
    case SetOp(k, _, _) => k == key
    case DeleteOp(k) => k == key
    case ClearOp => true
  }

  ghost predicate IsLast<K, V>(ops: seq<Op<K, V>>, key: K, i: nat)
    requires i < |ops|
  {
    Affects(ops[i], key) && forall j :: i < j < |ops| ==> !Affects(ops[j], key)
  }

  /** The last operation that affects `key` is the Set at `i`. */
  ghost predicate LastSet<K, V>(ops: seq<Op<K, V>>, key: K, i: nat) {
    i < |ops| && IsLast(ops, key, i) && ops[i].SetOp?
  }

  /** The answer the operations call for: the last one that affects `key` is a Set, not yet expired. */
  ghost predicate CallsFor<K, V>(ops: seq<Op<K, V>>, ttl: int, key: K, now: int, value: V) {
    exists i: nat :: LastSet(ops, key, i) && ops[i].value == value && now <= ops[i].at + ttl
  }

  /** From time `now` on the table answers exactly what the operations call for. */
  ghost predicate Agrees<K(!new), V(!new)>(store: map<K, Entry<V>>, ops: seq<Op<K, V>>, ttl: int, now: int) {
    forall key, later, value :: now <= later ==>
      (Visible(store, key, later) == Some(value) <==> CallsFor(ops, ttl, key, later, value))
  }

  lemma LastSetOfMore<K, V>(ops: seq<Op<K, V>>, op: Op<K, V>, key: K, i: nat)
    ensures LastSet(ops + [op], key, i) <==>
              if Affects(op, key) then op.SetOp? && i == |ops| else LastSet(ops, key, i)
  {
    var longer := ops + [op];
    assert forall j :: 0 <= j < |ops| ==> longer[j] == ops[j];
    if Affects(op, key) {
      assert longer[|ops|] == op;
    } else if LastSet(ops, key, i) {
      assert IsLast(longer, key, i);
    }
  }

  /** An operation appended after the last one that affects `key`, or becoming it. */
  lemma Append<K, V>(ops: seq<Op<K, V>>, op: Op<K, V>, ttl: int, key: K, now: int, value: V)
    ensures CallsFor(ops + [op], ttl, key, now, value) <==>
              if Affects(op, key) then op.SetOp? && op.value == value && now <= op.at + ttl
              else CallsFor(ops, ttl, key, now, value)
  {
    forall i: nat ensures LastSet(ops + [op], key, i) <==>
                            if Affects(op, key) then op.SetOp? && i == |ops| else LastSet(ops, key, i)
    {
      LastSetOfMore(ops, op, key, i);
    }
    assert (ops + [op])[|ops|] == op;
  }

  /** What one operation does to the table. */
  function After<K, V>(store: map<K, Entry<V>>, op: Op<K, V>, ttl: int): map<K, Entry<V>> {
    match op
    case GetOp(k, t) => Evicted(store, k, t)
    case SetOp(k, v, t) => store[k := Entry(v, t + ttl)]
    case DeleteOp(k) => store - {k}
    case ClearOp => map[]
  }

  lemma AgreesAfter<K(!new), V(!new)>(store: map<K, Entry<V>>, ops: seq<Op<K, V>>, ttl: int, now: int, op: Op<K, V>,
                                      store': map<K, Entry<V>>, now': int)
    requires Agrees(store, ops, ttl, now) && now <= now'
    requires op.GetOp? || op.SetOp? ==> op.at == now'
    requires store' == After(store, op, ttl)
    ensures Agrees(store', ops + [op], ttl, now')
  {
    forall key, later, value | now' <= later
      ensures Visible(store', key, later) == Some(value) <==> CallsFor(ops + [op], ttl, key, later, value)
    {
      Append(ops, op, ttl, key, later, value);
      assert Visible(store, key, later) == Some(value) <==> CallsFor(ops, ttl, key, later, value);
    }
  }

  class TTLCache<K(==, !new), V(==, !new)> {
    const ttl: int
    var store: map<K, Entry<V>>
    ghost var ops: seq<Op<K, V>>
    ghost var clock: int  // the latest reading

    ghost predicate Valid()
      reads this
    {
      Agrees(store, ops, ttl, clock)
    }

    constructor (ttl: int, ghost now: int)
      ensures Valid() && this.ttl == ttl && ops == [] && clock == now && store == map[]
    {
      this.ttl := ttl;
      store := map[];
      ops, clock := [], now;
    }

    method Get(key: K, now: int) returns (found: Option<V>)
      requires Valid() && clock <= now
      modifies this
      ensures Valid() && ops == old(ops) + [GetOp(key, now)] && clock == now
      ensures forall value :: found == Some(value) <==> CallsFor(old(ops), ttl, key, now, value)
      ensures store == Evicted(old(store), key, now) && found == Visible(old(store), key, now)
    {
      ghost var op: Op<K, V> := GetOp(key, now);
      AgreesAfter(store, ops, ttl, clock, op, Evicted(store, key, now), now);
      found := None;
      if key in store {
        var e := store[key];
        if now > e.expiresAt {
          store := store - {key};
        } else {
          found := Some(e.value);
        }
      }
      ops, clock := ops + [op], now;
    }

    method Set(key: K, value: V, now: int)
      requires Valid() && clock <= now
      modifies this
      ensures Valid() && ops == old(ops) + [SetOp(key, value, now)] && clock == now
      ensures store == old(store)[key := Entry(value, now + ttl)]
    {
      ghost var op: Op<K, V> := SetOp(key, value, now);
      AgreesAfter(store, ops, ttl, clock, op, store[key := Entry(value, now + ttl)], now);
      store := store[key := Entry(value, now + ttl)];
      ops, clock := ops + [op], now;
    }

    method Delete(key: K)
      requires Valid()
      modifies this
      ensures Valid() && ops == old(ops) + [DeleteOp(key)] && clock == old(clock)
      ensures store == old(store) - {key}
    {
      ghost var op: Op<K, V> := DeleteOp(key);
      AgreesAfter(store, ops, ttl, clock, op, store - {key}, clock);
      store := store - {key};
      ops := ops + [op];
    }

    method Clear()
      requires Valid()
      modifies this
      ensures Valid() && ops == old(ops) + [ClearOp] && clock == old(clock)
      ensures store == map[]
    {
      ghost var op: Op<K, V> := ClearOp;
      AgreesAfter(store, ops, ttl, clock, op, map[], clock);
      store := map[];
      ops := ops + [op];
    }
  }

  // ---------------------------------------------------------------- whole histories

  /** The table after a list of operations. */
  function Replay<K, V>(ops: seq<Op<K, V>>, ttl: int): map<K, Entry<V>> {
    if ops == [] then map[] else After(Replay(ops[..|ops| - 1], ttl), ops[|ops| - 1], ttl)
  }

  /** The clock never runs backwards over the list, and stands at `now` at its end. */
  ghost predicate InOrder<K, V>(ops: seq<Op<K, V>>, now: int) {
    && (forall i, j :: 0 <= i < j < |ops| && !ops[i].DeleteOp? && !ops[i].ClearOp? && !ops[j].DeleteOp?
                       && !ops[j].ClearOp?
          ==> ops[i].at <= ops[j].at)
    && (forall i :: 0 <= i < |ops| && !ops[i].DeleteOp? && !ops[i].ClearOp? ==> ops[i].at <= now)
  }

  /**
   With a monotone clock a Get returns `value` exactly when the last Set, Delete or Clear that
   affects the key is a Set of `value` no longer than `ttl` ago.
   */
  lemma {:induction false} ReplayAnswers<K(!new), V(!new)>(ops: seq<Op<K, V>>, ttl: int, now: int, key: K, value: V)
    requires InOrder(ops, now)
    ensures Visible(Replay(ops, ttl), key, now) == Some(value) <==> CallsFor(ops, ttl, key, now, value)
  {
    if ops != [] {
      var init, op := ops[..|ops| - 1], ops[|ops| - 1];
      assert ops == init + [op];
      Append(init, op, ttl, key, now, value);
      ReplayAnswers(init, ttl, now, key, value);
    }
  }

  function WithoutReads<K, V>(ops: seq<Op<K, V>>): seq<Op<K, V>> {
    if ops == [] then [] else
      var front := WithoutReads(ops[..|ops| - 1]);
      if ops[|ops| - 1].GetOp? then front else front + [ops[|ops| - 1]]
  }

  // ---------------------------------------------------------------- what a read leaves behind

  /** A read found the value set at `i` expired, and evicted it. */
  ghost predicate EvictedBy<K, V>(ops: seq<Op<K, V>>, ttl: int, key: K, i: nat, j: nat)
    requires i < |ops| && ops[i].SetOp?
  {
    i < j < |ops| && ops[j].GetOp? && ops[j].key == key && ops[j].at > ops[i].at + ttl
  }

  ghost predicate Dropped<K, V>(ops: seq<Op<K, V>>, ttl: int, key: K, i: nat)
    requires i < |ops| && ops[i].SetOp?
  {
    exists j: nat :: EvictedBy(ops, ttl, key, i, j)
  }

  /** What the table holds of `key`: the value set at `i`, or nothing. */
  ghost predicate HoldsSet<K, V>(store: map<K, Entry<V>>, ops: seq<Op<K, V>>, ttl: int, key: K, i: nat)
    requires i < |ops| && ops[i].SetOp?
  {
    key in store && store[key] == Entry(ops[i].value, ops[i].at + ttl)
  }

  lemma DroppedByMore<K, V>(ops: seq<Op<K, V>>, op: Op<K, V>, ttl: int, key: K, i: nat)
    requires i < |ops| && ops[i].SetOp?
    ensures Dropped(ops + [op], ttl, key, i) <==>
              Dropped(ops, ttl, key, i) || (op.GetOp? && op.key == key && op.at > ops[i].at + ttl)
  {
    var longer := ops + [op];
    if j: nat :| EvictedBy(ops, ttl, key, i, j) { assert EvictedBy(longer, ttl, key, i, j); }
    if op.GetOp? && op.key == key && op.at > ops[i].at + ttl { assert EvictedBy(longer, ttl, key, i, |ops|); }
    if j: nat :| EvictedBy(longer, ttl, key, i, j) && j < |ops| { assert EvictedBy(ops, ttl, key, i, j); }
  }

  /** With any clock, the table holds the last Set of `key` unless a read has evicted it. */
  ghost predicate Content<K(!new), V(!new)>(store: map<K, Entry<V>>, ops: seq<Op<K, V>>, ttl: int, key: K) {
    && (forall i: nat :: LastSet(ops, key, i) ==>
          if Dropped(ops, ttl, key, i) then key !in store else HoldsSet(store, ops, ttl, key, i))
    && (key in store ==> exists i: nat :: LastSet(ops, key, i))
  }

  lemma ContentAfter<K(!new), V(!new)>(store: map<K, Entry<V>>, ops: seq<Op<K, V>>, op: Op<K, V>, ttl: int, key: K)
    requires Content(store, ops, ttl, key)
    ensures Content(After(store, op, ttl), ops + [op], ttl, key)
  {
    var store', longer := After(store, op, ttl), ops + [op];
    forall i: nat | LastSet(longer, key, i)
      ensures if Dropped(longer, ttl, key, i) then key !in store' else HoldsSet(store', longer, ttl, key, i)
    {
      LastSetOfMore(ops, op, key, i);
      if i < |ops| { DroppedByMore(ops, op, ttl, key, i); }
    }
    if key in store' {
      if Affects(op, key) {
        LastSetOfMore(ops, op, key, |ops|);
      } else {
        var i: nat :| LastSet(ops, key, i);
        LastSetOfMore(ops, op, key, i);
      }
    }
  }

  lemma {:induction false} ReplayContent<K(!new), V(!new)>(ops: seq<Op<K, V>>, ttl: int, key: K)
    ensures Content(Replay(ops, ttl), ops, ttl, key)
  {
    if ops != [] {
      var init, op := ops[..|ops| - 1], ops[|ops| - 1];
      assert ops == init + [op];
      ReplayContent(init, ttl, key);
      ContentAfter(Replay(init, ttl), init, op, ttl, key);
    }
  }

  /** Without its reads a history leaves the last Set of every key in the table. */
  ghost predicate ContentUnread<K(!new), V(!new)>(store: map<K, Entry<V>>, ops: seq<Op<K, V>>, ttl: int, key: K) {
    && (forall i: nat :: LastSet(ops, key, i) ==> HoldsSet(store, ops, ttl, key, i))
    && (key in store ==> exists i: nat :: LastSet(ops, key, i))
  }

  lemma UnreadAfter<K(!new), V(!new)>(store: map<K, Entry<V>>, ops: seq<Op<K, V>>, op: Op<K, V>, ttl: int, key: K)
    requires ContentUnread(store, ops, ttl, key)
    ensures ContentUnread(if op.GetOp? then store else After(store, op, ttl), ops + [op], ttl, key)
  {
    var store', longer := if op.GetOp? then store else After(store, op, ttl), ops + [op];
    forall i: nat | LastSet(longer, key, i)
      ensures HoldsSet(store', longer, ttl, key, i) { LastSetOfMore(ops, op, key, i); }
    if key in store' {
      if Affects(op, key) {
        LastSetOfMore(ops, op, key, |ops|);
      } else {
        var i: nat :| LastSet(ops, key, i);
        LastSetOfMore(ops, op, key, i);
      }
    }
  }

  lemma {:induction false} ReplayUnread<K(!new), V(!new)>(ops: seq<Op<K, V>>, ttl: int, key: K)
    ensures ContentUnread(Replay(WithoutReads(ops), ttl), ops, ttl, key)
  {
    if ops != [] {
      var init, op := ops[..|ops| - 1], ops[|ops| - 1];
      assert ops == init + [op];
      ReplayUnread(init, ttl, key);
      UnreadAfter(Replay(WithoutReads(init), ttl), init, op, ttl, key);
      if !op.GetOp? {
        var kept := WithoutReads(ops);
        assert kept[..|kept| - 1] == WithoutReads(init) && kept[|kept| - 1] == op;
      }
    }
  }

  /**
   Over any history and with any clock, the reads change what is answered at `now` exactly when
   the last operation that affects the key is a Set that is unexpired at `now`, and a later read
   of the key had a clock reading past that expiry.
   */
  lemma ReadsObservableIff<K(!new), V(!new)>(ops: seq<Op<K, V>>, ttl: int, now: int, key: K)
    ensures Visible(Replay(ops, ttl), key, now) != Visible(Replay(WithoutReads(ops), ttl), key, now) <==>
              exists i: nat, j: nat :: LastSet(ops, key, i) && now <= ops[i].at + ttl && EvictedBy(ops, ttl, key, i, j)
  {
    ReplayContent(ops, ttl, key);
    ReplayUnread(ops, ttl, key);
    if i: nat :| LastSet(ops, key, i) {
      assert forall k: nat :: LastSet(ops, key, k) ==> k == i;
      if Dropped(ops, ttl, key, i) {
        var j: nat :| EvictedBy(ops, ttl, key, i, j);
      }
    }
  }

  /** While the clock has not passed `now` the condition cannot come about: lazy deletion is unobservable. */
  lemma {:induction false} ReadsLeaveNoTrace<K(!new), V(!new)>(ops: seq<Op<K, V>>, ttl: int, now: int, key: K)
    requires InOrder(ops, now)
    ensures Visible(Replay(ops, ttl), key, now) == Visible(Replay(WithoutReads(ops), ttl), key, now)
  {
    ReadsObservableIff(ops, ttl, now, key);
  }
}
