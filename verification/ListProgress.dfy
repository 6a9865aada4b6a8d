/**
 The order in which a listing (internal/server/resolve.go) does things, over every interleaved run
 of `ListPipeline`: for each context it looks into the cache, fetches only if it found nothing and
 stores what it fetched before it turns to the next; it always has a next step; and what is cached
 stays visible until it expires.
 */
module ListProgress {
  import opened Outcomes
  import opened Targets
  import opened ListPipeline
  import Cache = TtlCache

  /** A listing that has neither returned nor failed has a step to take, whatever it reads, or fails to. */
  lemma ListingsAdvance(ttl: int, run: seq<Step>, c: nat)
    requires ValidRun(ttl, INIT, run) && c < |Final(ttl, INIT, run).listings|
    ensures var s := Final(ttl, INIT, run);
            || Returned(s, c)
            || match s.listings[c].pc
               case Turning => Enabled(s, Look(c)) && Enabled(s, Fails(c))
               case Fetching => Enabled(s, Fails(c)) && forall list :: Enabled(s, Fetches(c, list))
               case Storing(_) => Enabled(s, Store(c))
               case Failed => true
  {
    RunKeepsInv(ttl, INIT, run);
    assert ListingInv(ttl, Final(ttl, INIT, run), c);
  }

  // ---------------------------------------------------------------- in program order

  /** What a listing did last; a context is done with after a hit or a store. */
  datatype Did = Nothing | LookedUp(hit: bool) | Read(list: seq<Cluster>) | Stored

  function DoneBy(s: State, step: Step, c: nat, earlier: Did): Did
    requires Enabled(s, step)
  {
    match step
    case Look(d) => if d == c then LookedUp(Cache.Visible(s.cache, KeyOf(Context(s, c)), s.now).Some?) else earlier
    case Fetches(d, list) => if d == c then Read(list) else earlier
    case Store(d) => if d == c then Stored else earlier
    case _ => earlier
  }

  ghost function DidLast(ttl: int, s: State, run: seq<Step>, c: nat, earlier: Did): Did
    requires ValidRun(ttl, s, run)
    decreases |run|
  {
    if run == [] then earlier
    else DidLast(ttl, Apply(ttl, s, run[0]), run[1..], c, DoneBy(s, run[0], c, earlier))
  }

  /** How far the listing is and what it did last go together. */
  ghost predicate GoTogether(s: State, c: nat, did: Did) {
    if c >= |s.listings| then did == Nothing else
      match s.listings[c].pc
      case Turning => did == Nothing || did == LookedUp(true) || did == Stored
      case Fetching => did == LookedUp(false)
      case Storing(list) => did == Read(list)
      case Failed => true
  }

  lemma {:induction false} RunKeepsOrder(ttl: int, s: State, run: seq<Step>, c: nat, did: Did)
    requires GoTogether(s, c, did) && ValidRun(ttl, s, run)
    ensures GoTogether(Final(ttl, s, run), c, DidLast(ttl, s, run, c, did))
    decreases |run|
  {
    if run != [] { RunKeepsOrder(ttl, Apply(ttl, s, run[0]), run[1..], c, DoneBy(s, run[0], c, did)); }
  }

  /**
   A context is looked up before anything else and once; it is fetched, once, only after nothing was
   found; and it is stored only then, with the list that was fetched.
   */
  lemma InProgramOrder(ttl: int, run: seq<Step>, step: Step, c: nat)
    requires ValidRun(ttl, INIT, run) && Enabled(Final(ttl, INIT, run), step)
    ensures var s, did := Final(ttl, INIT, run), DidLast(ttl, INIT, run, c, Nothing);
            && (step == Look(c) ==> did == Nothing || did == LookedUp(true) || did == Stored)
            && (step.Fetches? && step.c == c ==> did == LookedUp(false))
            && (step == Fails(c) ==> !did.Read?)
            && (step == Store(c) ==>
                  did.Read?
                  && Apply(ttl, s, step).cache
                     == s.cache[KeyOf(Context(s, c)) := Cache.Entry(did.list, s.now + ttl)])
  {
    RunKeepsOrder(ttl, INIT, run, c, Nothing);
  }

  // ---------------------------------------------------------------- cached until it expires

  lemma {:induction false} ClockOnlyMovesOn(ttl: int, s: State, run: seq<Step>)
    requires ValidRun(ttl, s, run)
    ensures s.now <= Final(ttl, s, run).now
    decreases |run|
  {
    if run != [] { ClockOnlyMovesOn(ttl, Apply(ttl, s, run[0]), run[1..]); }
  }

  lemma {:induction false} VisibleUntil(ttl: int, s: State, run: seq<Step>, key: string, until: int)
    requires ValidRun(ttl, s, run) && key in s.cache && until <= s.cache[key].expiresAt && until <= s.now + ttl
    requires Final(ttl, s, run).now <= until
    ensures Cache.Visible(Final(ttl, s, run).cache, key, Final(ttl, s, run).now).Some?
    decreases |run|
  {
    if run != [] {
      ClockOnlyMovesOn(ttl, s, run);
      VisibleUntil(ttl, Apply(ttl, s, run[0]), run[1..], key, until);
    }
  }

  /** Whatever happens, a list that is stored, or a later one for its key, is visible for a ttl. */
  lemma CachedForTtl(ttl: int, before: seq<Step>, c: nat, after: seq<Step>)
    requires ValidRun(ttl, INIT, before) && Enabled(Final(ttl, INIT, before), Store(c))
    requires ValidRun(ttl, Apply(ttl, Final(ttl, INIT, before), Store(c)), after)
    requires var s := Final(ttl, INIT, before);
             Final(ttl, Apply(ttl, s, Store(c)), after).now <= s.now + ttl
    ensures var s := Final(ttl, INIT, before);
            var s' := Final(ttl, Apply(ttl, s, Store(c)), after);
            Cache.Visible(s'.cache, KeyOf(Context(s, c)), s'.now).Some?
  {
    var s := Final(ttl, INIT, before);
    VisibleUntil(ttl, Apply(ttl, s, Store(c)), after, KeyOf(Context(s, c)), s.now + ttl);
  }
}
