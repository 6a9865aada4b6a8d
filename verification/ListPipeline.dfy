/**
 Listings that run beside each other (internal/server/resolve.go): each goes through its contexts
 one by one, looks into the shared list cache and fetches and stores what is not there. Listings
 and the clock interleave step by step, and the management clusters answer anew each time.
 */
module ListPipeline {
  import opened Outcomes
  import opened CacheKeys
  import opened Targets
  import Cache = TtlCache

  datatype ContextRef = ContextRef(kubeconfig: string, context: string)

  datatype Pc = Turning | Fetching | Storing(list: seq<Cluster>) | Failed

  /** A listing of `contexts`, with the lists of those it is done with; it has returned when that is all of them. */
  datatype Listing = Listing(contexts: seq<ContextRef>, done: seq<seq<Cluster>>, pc: Pc)

  /** What has happened, and when. Auxiliary. */
  datatype Event =
    | Looked(c: nat, context: ContextRef, at: int)
    | Fetched(c: nat, context: ContextRef, list: seq<Cluster>, at: int)
    | Kept(c: nat, context: ContextRef, at: int)

  datatype State = State(now: int, cache: map<string, Cache.Entry<seq<Cluster>>>, listings: seq<Listing>,
                         log: seq<Event>)

  const INIT := State(0, map[], [], [])

  datatype Step =
    | Begin(contexts: seq<ContextRef>)
    | Look(c: nat)                            // 38
    | Fails(c: nat)                           // 20, 41, 45: contexts, clients or clusters cannot be had
    | Fetches(c: nat, list: seq<Cluster>)     // 41-48
    | Store(c: nat)                           // 50-51
    | Advance(d: nat)

  function KeyOf(x: ContextRef): string {
    ClusterListKey(x.kubeconfig, x.context)
  }

  /** The listing is at its context number `|done|`. */
  predicate AtWork(s: State, c: nat) {
    c < |s.listings| && |s.listings[c].done| < |s.listings[c].contexts|
  }

  function Context(s: State, c: nat): ContextRef
    requires AtWork(s, c)
  {
    s.listings[c].contexts[|s.listings[c].done|]
  }

  predicate Enabled(s: State, step: Step) {
    match step
    case Begin(_) => true
    case Look(c) => AtWork(s, c) && s.listings[c].pc.Turning?
    case Fails(c) => AtWork(s, c) && (s.listings[c].pc.Turning? || s.listings[c].pc.Fetching?)
    case Fetches(c, _) => AtWork(s, c) && s.listings[c].pc.Fetching?
    case Store(c) => AtWork(s, c) && s.listings[c].pc.Storing?
    case Advance(_) => true
  }

  function Goto(s: State, c: nat, pc: Pc): State
    requires c < |s.listings|
  {
    s.(listings := s.listings[c := s.listings[c].(pc := pc)])
  }

  /** The listing has the list of its current context, and turns to the next. */
  function Append(s: State, c: nat, list: seq<Cluster>): State
    requires c < |s.listings|
  {
    s.(listings := s.listings[c := s.listings[c].(done := s.listings[c].done + [list], pc := Turning)])
  }

  function Apply(ttl: int, s: State, step: Step): State
    requires Enabled(s, step)
  {
    match step
    case Begin(contexts) => s.(listings := s.listings + [Listing(contexts, [], Turning)])
    case Look(c) =>
      var key := KeyOf(Context(s, c));
      var s1 := s.(cache := Cache.Evicted(s.cache, key, s.now), log := s.log + [Looked(c, Context(s, c), s.now)]);
      var hit := Cache.Visible(s.cache, key, s.now);
      if hit.Some? then Append(s1, c, hit.value) else Goto(s1, c, Fetching)
    case Fails(c) => Goto(s, c, Failed)
    case Fetches(c, list) =>
      Goto(s.(log := s.log + [Fetched(c, Context(s, c), list, s.now)]), c, Storing(list))
    case Store(c) =>
      var list := s.listings[c].pc.list;
      Append(s.(cache := s.cache[KeyOf(Context(s, c)) := Cache.Entry(list, s.now + ttl)],
                log := s.log + [Kept(c, Context(s, c), s.now)]), c, list)
    case Advance(d) => s.(now := s.now + d)
  }

  ghost predicate ValidRun(ttl: int, s: State, run: seq<Step>)
    decreases |run|
  {
    run == [] || (Enabled(s, run[0]) && ValidRun(ttl, Apply(ttl, s, run[0]), run[1..]))
  }

  ghost function Final(ttl: int, s: State, run: seq<Step>): State
    requires ValidRun(ttl, s, run)
    decreases |run|
  {
    if run == [] then s else Final(ttl, Apply(ttl, s, run[0]), run[1..])
  }

  // ---------------------------------------------------------------- where lists come from

  /** Event `i` is a fetch of `list` for `x`. */
  ghost predicate FetchAt(log: seq<Event>, x: ContextRef, list: seq<Cluster>, i: nat) {
    i < |log| && log[i].Fetched? && log[i].context == x && log[i].list == list
  }

  /** And event `j` is where the same listing keeps it, for a ttl. */
  ghost predicate KeptAt(ttl: int, log: seq<Event>, x: ContextRef, list: seq<Cluster>, until: int, i: nat, j: nat) {
    && FetchAt(log, x, list, i) && i < j < |log|
    && log[j].Kept? && log[j].c == log[i].c && log[j].context == x && log[j].at + ttl == until
  }

  /** Listing `c` fetches the list for `x` itself. */
  ghost predicate FetchedItself(log: seq<Event>, c: nat, x: ContextRef, list: seq<Cluster>) {
    exists i: nat :: FetchAt(log, x, list, i) && log[i].c == c
  }

  /** Listing `c`, looking for `y` in event `l`, finds what was fetched for `x` in event `i` and kept in event `j`. */
  ghost predicate FoundAt(ttl: int, log: seq<Event>, c: nat, y: ContextRef, x: ContextRef, list: seq<Cluster>,
                          i: nat, j: nat, l: nat) {
    && i < j < l < |log| && log[j].Kept? && KeptAt(ttl, log, x, list, log[j].at + ttl, i, j)
    && log[l].Looked? && log[l].c == c && log[l].context == y && log[j].at <= log[l].at <= log[j].at + ttl
  }

  ghost predicate Found(ttl: int, log: seq<Event>, c: nat, y: ContextRef, x: ContextRef, list: seq<Cluster>) {
    exists i: nat, j: nat, l: nat :: FoundAt(ttl, log, c, y, x, list, i, j, l)
  }

  /** The list is what was fetched for `y` itself, or for `x` and found in the cache under `y`. */
  ghost predicate From(ttl: int, log: seq<Event>, c: nat, y: ContextRef, list: seq<Cluster>, x: ContextRef) {
    (x == y && FetchedItself(log, c, y, list)) || Found(ttl, log, c, y, x, list)
  }

  ghost predicate EntryFrom(ttl: int, s: State, key: string, x: ContextRef)
    requires key in s.cache
  {
    KeyOf(x) == key
    && exists i: nat, j: nat :: KeptAt(ttl, s.log, x, s.cache[key].value, s.cache[key].expiresAt, i, j)
  }

  ghost predicate EntryInv(ttl: int, s: State, key: string)
    requires key in s.cache
  {
    s.cache[key].expiresAt - ttl <= s.now && exists x :: EntryFrom(ttl, s, key, x)
  }

  ghost predicate ListInv(ttl: int, s: State, c: nat, m: nat)
    requires c < |s.listings| && m < |s.listings[c].done| <= |s.listings[c].contexts|
  {
    exists x :: KeyOf(x) == KeyOf(s.listings[c].contexts[m])
      && From(ttl, s.log, c, s.listings[c].contexts[m], s.listings[c].done[m], x)
  }

  ghost predicate ListingInv(ttl: int, s: State, c: nat)
    requires c < |s.listings|
  {
    && |s.listings[c].done| <= |s.listings[c].contexts|
    && (forall m :: 0 <= m < |s.listings[c].done| ==> ListInv(ttl, s, c, m))
    && (AtWork(s, c) && s.listings[c].pc.Storing? ==> FetchedItself(s.log, c, Context(s, c), s.listings[c].pc.list))
  }

  ghost predicate Inv(ttl: int, s: State) {
    && (forall key :: key in s.cache ==> EntryInv(ttl, s, key))
    && (forall c :: 0 <= c < |s.listings| ==> ListingInv(ttl, s, c))
  }

  /** What the log says it goes on saying. */
  lemma LogGrows(ttl: int, log: seq<Event>, more: seq<Event>, c: nat, y: ContextRef, list: seq<Cluster>, x: ContextRef)
    requires log <= more
    ensures FetchedItself(log, c, y, list) ==> FetchedItself(more, c, y, list)
    ensures From(ttl, log, c, y, list, x) ==> From(ttl, more, c, y, list, x)
  {
    if i: nat :| FetchAt(log, y, list, i) && log[i].c == c { assert FetchAt(more, y, list, i) && more[i].c == c; }
    if i: nat, j: nat, l: nat :| FoundAt(ttl, log, c, y, x, list, i, j, l) {
      assert FoundAt(ttl, more, c, y, x, list, i, j, l);
    }
  }

  lemma EntryStays(ttl: int, s: State, s': State, key: string)
    requires key in s.cache && key in s'.cache && s'.cache[key] == s.cache[key] && EntryInv(ttl, s, key)
    requires s.log <= s'.log && s.now <= s'.now
    ensures EntryInv(ttl, s', key)
  {
    var x :| EntryFrom(ttl, s, key, x);
    var i: nat, j: nat :| KeptAt(ttl, s.log, x, s.cache[key].value, s.cache[key].expiresAt, i, j);
    assert KeptAt(ttl, s'.log, x, s'.cache[key].value, s'.cache[key].expiresAt, i, j);
    assert EntryFrom(ttl, s', key, x);
  }

  lemma ListStays(ttl: int, s: State, s': State, c: nat, m: nat)
    requires c < |s.listings| && c < |s'.listings| && s.log <= s'.log
    requires m < |s.listings[c].done| <= |s.listings[c].contexts|
    requires m < |s'.listings[c].done| <= |s'.listings[c].contexts|
    requires s'.listings[c].done[m] == s.listings[c].done[m] && s'.listings[c].contexts == s.listings[c].contexts
    requires ListInv(ttl, s, c, m)
    ensures ListInv(ttl, s', c, m)
  {
    var y, list := s.listings[c].contexts[m], s.listings[c].done[m];
    var x :| KeyOf(x) == KeyOf(y) && From(ttl, s.log, c, y, list, x);
    LogGrows(ttl, s.log, s'.log, c, y, list, x);
  }

  /** A listing that the step leaves alone. */
  lemma ListingStays(ttl: int, s: State, s': State, c: nat)
    requires c < |s.listings| && c < |s'.listings| && s'.listings[c] == s.listings[c] && s.log <= s'.log
    requires ListingInv(ttl, s, c)
    ensures ListingInv(ttl, s', c)
  {
    forall m | 0 <= m < |s'.listings[c].done| ensures ListInv(ttl, s', c, m) { ListStays(ttl, s, s', c, m); }
    if AtWork(s, c) && s.listings[c].pc.Storing? {
      LogGrows(ttl, s.log, s'.log, c, Context(s, c), s.listings[c].pc.list, Context(s, c));
    }
  }

  /** A listing that has got one more list, which comes from somewhere. */
  lemma ListingGrows(ttl: int, s: State, s': State, c: nat, list: seq<Cluster>, x: ContextRef)
    requires AtWork(s, c) && ListingInv(ttl, s, c) && c < |s'.listings| && s.log <= s'.log
    requires s'.listings[c] == s.listings[c].(done := s.listings[c].done + [list], pc := Turning)
    requires KeyOf(x) == KeyOf(Context(s, c)) && From(ttl, s'.log, c, Context(s, c), list, x)
    ensures ListingInv(ttl, s', c)
  {
    forall m | 0 <= m < |s'.listings[c].done| ensures ListInv(ttl, s', c, m) {
      if m < |s.listings[c].done| { ListStays(ttl, s, s', c, m); }
    }
  }

  lemma LookKeepsListing(ttl: int, s: State, c: nat)
    requires Inv(ttl, s) && Enabled(s, Look(c))
    ensures ListingInv(ttl, Apply(ttl, s, Look(c)), c)
  {
    var s', y := Apply(ttl, s, Look(c)), Context(s, c);
    var hit := Cache.Visible(s.cache, KeyOf(y), s.now);
    assert ListingInv(ttl, s, c);
    if hit.Some? {
      assert EntryInv(ttl, s, KeyOf(y));
      var x :| EntryFrom(ttl, s, KeyOf(y), x);
      var e := s.cache[KeyOf(y)];
      var i: nat, j: nat :| KeptAt(ttl, s.log, x, e.value, e.expiresAt, i, j);
      assert FoundAt(ttl, s'.log, c, y, x, hit.value, i, j, |s.log|);
      ListingGrows(ttl, s, s', c, hit.value, x);
    } else {
      forall m | 0 <= m < |s'.listings[c].done| ensures ListInv(ttl, s', c, m) { ListStays(ttl, s, s', c, m); }
    }
  }

  lemma FetchKeepsListing(ttl: int, s: State, c: nat, list: seq<Cluster>)
    requires Inv(ttl, s) && Enabled(s, Fetches(c, list))
    ensures ListingInv(ttl, Apply(ttl, s, Fetches(c, list)), c)
  {
    var s' := Apply(ttl, s, Fetches(c, list));
    assert ListingInv(ttl, s, c);
    forall m | 0 <= m < |s'.listings[c].done| ensures ListInv(ttl, s', c, m) { ListStays(ttl, s, s', c, m); }
    assert FetchAt(s'.log, Context(s, c), list, |s.log|) && s'.log[|s.log|].c == c;
  }

  lemma StoreKeepsListing(ttl: int, s: State, c: nat)
    requires Inv(ttl, s) && Enabled(s, Store(c))
    ensures ListingInv(ttl, Apply(ttl, s, Store(c)), c)
    ensures EntryInv(ttl, Apply(ttl, s, Store(c)), KeyOf(Context(s, c)))
  {
    var s', x, list := Apply(ttl, s, Store(c)), Context(s, c), s.listings[c].pc.list;
    assert ListingInv(ttl, s, c);
    LogGrows(ttl, s.log, s'.log, c, x, list, x);
    ListingGrows(ttl, s, s', c, list, x);
    var i: nat :| FetchAt(s.log, x, list, i) && s.log[i].c == c;
    var e := s'.cache[KeyOf(x)];
    assert KeptAt(ttl, s'.log, x, e.value, e.expiresAt, i, |s.log|);
    assert EntryFrom(ttl, s', KeyOf(x), x);
  }

  lemma StepKeepsListing(ttl: int, s: State, step: Step, c: nat)
    requires Inv(ttl, s) && Enabled(s, step) && c < |Apply(ttl, s, step).listings|
    ensures ListingInv(ttl, Apply(ttl, s, step), c)
  {
    var s' := Apply(ttl, s, step);
    if step == Look(c) {
      LookKeepsListing(ttl, s, c);
    } else if step.Fetches? && step.c == c {
      FetchKeepsListing(ttl, s, c, step.list);
    } else if step == Store(c) {
      StoreKeepsListing(ttl, s, c);
    } else if c < |s.listings| {
      assert ListingInv(ttl, s, c);
      if step == Fails(c) {
        forall m | 0 <= m < |s'.listings[c].done| ensures ListInv(ttl, s', c, m) { ListStays(ttl, s, s', c, m); }
      } else {
        ListingStays(ttl, s, s', c);
      }
    }
  }

  lemma StepKeepsInv(ttl: int, s: State, step: Step)
    requires Inv(ttl, s) && Enabled(s, step)
    ensures Inv(ttl, Apply(ttl, s, step))
  {
    var s' := Apply(ttl, s, step);
    forall c | 0 <= c < |s'.listings| ensures ListingInv(ttl, s', c) { StepKeepsListing(ttl, s, step, c); }
    forall key | key in s'.cache ensures EntryInv(ttl, s', key) {
      if step.Store? && key == KeyOf(Context(s, step.c)) {
        StoreKeepsListing(ttl, s, step.c);
      } else {
        EntryStays(ttl, s, s', key);
      }
    }
  }

  lemma {:induction false} RunKeepsInv(ttl: int, s: State, run: seq<Step>)
    requires Inv(ttl, s) && ValidRun(ttl, s, run)
    ensures Inv(ttl, Final(ttl, s, run))
    decreases |run|
  {
    if run != [] {
      StepKeepsInv(ttl, s, run[0]);
      RunKeepsInv(ttl, Apply(ttl, s, run[0]), run[1..]);
    }
  }

  // ---------------------------------------------------------------- the exact condition

  /** The listing has gone through all its contexts. */
  ghost predicate Returned(s: State, c: nat) {
    c < |s.listings| && |s.listings[c].done| == |s.listings[c].contexts|
  }

  /** Each of its lists was fetched for the very context it stands for, by itself or at most a ttl before it looked. */
  ghost predicate IsRight(ttl: int, s: State, c: nat)
    requires Returned(s, c)
  {
    forall m :: 0 <= m < |s.listings[c].done| ==>
      From(ttl, s.log, c, s.listings[c].contexts[m], s.listings[c].done[m], s.listings[c].contexts[m])
  }

  lemma {:induction false} FailedStays(ttl: int, s: State, run: seq<Step>, c: nat)
    requires ValidRun(ttl, s, run) && AtWork(s, c) && s.listings[c].pc.Failed?
    ensures c < |Final(ttl, s, run).listings| && Final(ttl, s, run).listings[c] == s.listings[c]
    decreases |run|
  {
    if run != [] { FailedStays(ttl, Apply(ttl, s, run[0]), run[1..], c); }
  }

  /** One context that cannot be listed fails its whole listing, for good. */
  lemma ErrorsFailTheirListing(ttl: int, s: State, c: nat, after: seq<Step>)
    requires Enabled(s, Fails(c)) && ValidRun(ttl, Apply(ttl, s, Fails(c)), after)
    ensures !Returned(Final(ttl, Apply(ttl, s, Fails(c)), after), c)
    ensures Apply(ttl, s, Fails(c)).cache == s.cache
  {
    FailedStays(ttl, Apply(ttl, s, Fails(c)), after, c);
  }

  ghost predicate Asks(run: seq<Step>, asked: iset<ContextRef>) {
    forall i :: 0 <= i < |run| && run[i].Begin? ==> forall x :: x in run[i].contexts ==> x in asked
  }

  ghost predicate KeysDiffer(asked: iset<ContextRef>) {
    forall x, y :: x in asked && y in asked && KeyOf(x) == KeyOf(y) ==> x == y
  }

  ghost predicate OnlyOf(s: State, asked: iset<ContextRef>) {
    && (forall c, x :: 0 <= c < |s.listings| && x in s.listings[c].contexts ==> x in asked)
    && (forall i :: 0 <= i < |s.log| ==> s.log[i].context in asked)
  }

  lemma {:induction false} RunAsks(ttl: int, s: State, run: seq<Step>, asked: iset<ContextRef>)
    requires ValidRun(ttl, s, run) && OnlyOf(s, asked) && Asks(run, asked)
    ensures OnlyOf(Final(ttl, s, run), asked)
    decreases |run|
  {
    if run != [] {
      var s' := Apply(ttl, s, run[0]);
      forall c, x | 0 <= c < |s'.listings| && x in s'.listings[c].contexts ensures x in asked {
        if c < |s.listings| { assert s'.listings[c].contexts == s.listings[c].contexts; }
      }
      RunAsks(ttl, s', run[1..], asked);
    }
  }

  lemma DifferentKeysAreRight(ttl: int, asked: iset<ContextRef>, run: seq<Step>, c: nat)
    requires KeysDiffer(asked) || ttl < 0
    requires ValidRun(ttl, INIT, run) && Asks(run, asked) && Returned(Final(ttl, INIT, run), c)
    ensures IsRight(ttl, Final(ttl, INIT, run), c)
  {
    var s := Final(ttl, INIT, run);
    RunKeepsInv(ttl, INIT, run);
    RunAsks(ttl, INIT, run, asked);
    assert ListingInv(ttl, s, c);
    forall m | 0 <= m < |s.listings[c].done|
      ensures From(ttl, s.log, c, s.listings[c].contexts[m], s.listings[c].done[m], s.listings[c].contexts[m])
    {
      var y, list := s.listings[c].contexts[m], s.listings[c].done[m];
      assert ListInv(ttl, s, c, m);
      var x :| KeyOf(x) == KeyOf(y) && From(ttl, s.log, c, y, list, x);
      if Found(ttl, s.log, c, y, x, list) {
        var i: nat, j: nat, l: nat :| FoundAt(ttl, s.log, c, y, x, list, i, j, l);
        assert s.log[i].context == x && s.log[l].context == y;
      }
    }
  }

  lemma Precede(ttl: int, s: State, step: Step, rest: seq<Step>)
    requires Enabled(s, step) && ValidRun(ttl, Apply(ttl, s, step), rest)
    ensures ValidRun(ttl, s, [step] + rest) && Final(ttl, s, [step] + rest) == Final(ttl, Apply(ttl, s, step), rest)
  {
    assert ([step] + rest)[1..] == rest;
  }

  /** A first listing, of `x` alone, which has no clusters. */
  function ListedFirst(ttl: int, x: ContextRef): State {
    State(0, map[KeyOf(x) := Cache.Entry([], ttl)], [Listing([x], [[]], Turning)],
          [Looked(0, x, 0), Fetched(0, x, [], 0), Kept(0, x, 0)])
  }

  lemma FirstRun(ttl: int, x: ContextRef, rest: seq<Step>) returns (run: seq<Step>)
    requires ValidRun(ttl, ListedFirst(ttl, x), rest)
    ensures run == [Begin([x]), Look(0), Fetches(0, []), Store(0)] + rest
    ensures ValidRun(ttl, INIT, run) && Final(ttl, INIT, run) == Final(ttl, ListedFirst(ttl, x), rest)
  {
    var s1 := Apply(ttl, INIT, Begin([x]));
    var s2 := Apply(ttl, s1, Look(0));
    var s3 := Apply(ttl, s2, Fetches(0, []));
    var s4 := Apply(ttl, s3, Store(0));
    assert s4.log == ListedFirst(ttl, x).log;
    assert s4.listings[0].done == [] + [[]] == [[]] && s4.listings == ListedFirst(ttl, x).listings;
    assert s4.cache == map[KeyOf(x) := Cache.Entry([], ttl)];
    Precede(ttl, s3, Store(0), rest);
    run := [Store(0)] + rest;
    Precede(ttl, s2, Fetches(0, []), run);
    run := [Fetches(0, [])] + run;
    Precede(ttl, s1, Look(0), run);
    run := [Look(0)] + run;
    Precede(ttl, INIT, Begin([x]), run);
    run := [Begin([x])] + run;
  }

  lemma SecondRun(ttl: int, x: ContextRef, y: ContextRef) returns (run: seq<Step>)
    requires KeyOf(x) == KeyOf(y) && ttl >= 0
    ensures run == [Begin([y]), Look(1)] && ValidRun(ttl, ListedFirst(ttl, x), run)
    ensures var s := Final(ttl, ListedFirst(ttl, x), run);
            && s.log == ListedFirst(ttl, x).log + [Looked(1, y, 0)]
            && |s.listings| == 2 && s.listings[1] == Listing([y], [[]], Turning)
  {
    var s := ListedFirst(ttl, x);
    var s1 := Apply(ttl, s, Begin([y]));
    Precede(ttl, s1, Look(1), []);
    run := [Look(1)] + [];
    Precede(ttl, s, Begin([y]), run);
    run := [Begin([y])] + run;
  }

  /** A second listing, of another context with the same key, returns what was fetched for the first. */
  lemma SharedKeyListsAnother(ttl: int, x: ContextRef, y: ContextRef) returns (run: seq<Step>)
    requires x != y && KeyOf(x) == KeyOf(y) && ttl >= 0
    ensures ValidRun(ttl, INIT, run) && Asks(run, iset{x, y})
    ensures var s := Final(ttl, INIT, run);
            Returned(s, 1) && s.listings[1].contexts == [y] && !IsRight(ttl, s, 1)
  {
    var rest := SecondRun(ttl, x, y);
    run := FirstRun(ttl, x, rest);
    var s := Final(ttl, INIT, run);
    forall i | 0 <= i < |s.log| && s.log[i].context == y ensures !s.log[i].Fetched? {}
    assert !From(ttl, s.log, 1, s.listings[1].contexts[0], s.listings[1].done[0], s.listings[1].contexts[0]);
  }

  /** Whatever runs beside it and however often it is asked, every listing of these contexts that returns is right. */
  ghost predicate AllRight(ttl: int, asked: iset<ContextRef>) {
    forall run, c: nat | ValidRun(ttl, INIT, run) && Asks(run, asked) && Returned(Final(ttl, INIT, run), c) ::
      IsRight(ttl, Final(ttl, INIT, run), c)
  }

  /**
   Listings that share the cache are right if and only if no two of the contexts listed share a
   cache key, or nothing stays cached.
   */
  lemma AllRightIff(ttl: int, asked: iset<ContextRef>)
    ensures AllRight(ttl, asked) <==> KeysDiffer(asked) || ttl < 0
  {
    if KeysDiffer(asked) || ttl < 0 {
      forall run, c: nat | ValidRun(ttl, INIT, run) && Asks(run, asked) && Returned(Final(ttl, INIT, run), c)
        ensures IsRight(ttl, Final(ttl, INIT, run), c)
      {
        DifferentKeysAreRight(ttl, asked, run, c);
      }
    } else {
      var x, y :| x in asked && y in asked && KeyOf(x) == KeyOf(y) && x != y;
      var run := SharedKeyListsAnother(ttl, x, y);
      assert Asks(run, asked) && Returned(Final(ttl, INIT, run), 1);
    }
  }
}
