/**
 allResolvedClusters and listClustersCached of internal/server/resolve.go: the clusters of every
 context of every configured kubeconfig, each list taken from the cache or fetched and cached,
 while the clock moves on. A listing is right for every cache and every answer of the management
 clusters if and only if no two different contexts share a cache key.
 */
module ClusterListing {
  import opened Outcomes
  import opened CacheKeys
  import opened Targets
  import opened TtlCache

  /** A configured kubeconfig; its contexts are configured too, or read from its file, which can fail. */
  datatype Source = Source(name: string, contexts: Result<seq<string>>)

  datatype ResolvedCluster = ResolvedCluster(cluster: Cluster, source: Source)

  type Store = map<string, Entry<seq<Cluster>>>

  /** What the management clusters answer, by kubeconfig name and context. */
  type Upstream = (string, string) -> Result<seq<Cluster>>

  /** The clock at each reading: item `n` is looked up at reading 2n, and stored at reading 2n + 1. */
  type Clock = seq<int>

  function Reading(clock: Clock, i: nat): int
    requires i < |clock|
  {
    clock[i]
  }

  ghost predicate Monotone(clock: Clock) {
    forall i, j :: 0 <= i <= j < |clock| ==> Reading(clock, i) <= Reading(clock, j)
  }

  /** Readings for `n` items, and one more. */
  ghost predicate LastsFor(clock: Clock, n: nat) {
    2 * n < |clock| && Monotone(clock)
  }

  // ---------------------------------------------------------------- what a listing does

  /** One context to list, or a source whose contexts cannot be read. */
  datatype Item = Item(source: Source, context: string) | Unreadable(error: string)

  function ItemsOf(source: Source): seq<Item> {
    match source.contexts
    case Err(e) => [Unreadable(e)]
    case Ok(xs) => seq(|xs|, i requires 0 <= i < |xs| => Item(source, xs[i]))
  }

  /** The items of the first `i` sources. */
  function ItemsUpTo(sources: seq<Source>, i: nat): seq<Item>
    requires i <= |sources|
  {
    if i == 0 then [] else ItemsUpTo(sources, i - 1) + ItemsOf(sources[i - 1])
  }

  function Items(sources: seq<Source>): seq<Item> {
    ItemsUpTo(sources, |sources|)
  }

  function KeyOf(item: Item): string
    requires item.Item?
  {
    ClusterListKey(item.source.name, item.context)
  }

  /** The list of one context: the visible cached one, else what its management cluster answers. */
  function Own(store: Store, now: int, upstream: Upstream, name: string, context: string): Result<seq<Cluster>> {
    var hit := Visible(store, ClusterListKey(name, context), now);
    if hit.Some? then Ok(hit.value) else upstream(name, context)
  }

  /** What ListClustersCached does to the table, looking at `now` and storing at `later`. */
  function Fetched(store: Store, key: string, list: Result<seq<Cluster>>, now: int, later: int, ttl: int): Store {
    var left := Evicted(store, key, now);
    if Visible(store, key, now).None? && list.Ok? then left[key := Entry(list.value, later + ttl)] else left
  }

  function Tagged(clusters: seq<Cluster>, source: Source): seq<ResolvedCluster> {
    seq(|clusters|, i requires 0 <= i < |clusters| => ResolvedCluster(clusters[i], source))
  }

  datatype Listing = Listing(result: Result<seq<ResolvedCluster>>, store: Store)

  function ListItem(before: Listing, item: Item, upstream: Upstream, now: int, later: int, ttl: int): Listing {
    if before.result.Err? then before else
      match item
      case Unreadable(e) => Listing(Err(e), before.store)
      case Item(source, x) =>
        var list := Own(before.store, now, upstream, source.name, x);
        Listing(if list.Err? then Err(list.error) else Ok(before.result.value + Tagged(list.value, source)),
                Fetched(before.store, KeyOf(item), list, now, later, ttl))
  }

  /** The first `n` items, one after the other, up to the first that cannot be listed. */
  function ListItems(first: Store, items: seq<Item>, n: nat, upstream: Upstream, clock: Clock, ttl: int): Listing
    requires n <= |items| && 2 * n <= |clock|
  {
    if n == 0 then Listing(Ok([]), first) else
      ListItem(ListItems(first, items, n - 1, upstream, clock, ttl), items[n - 1], upstream,
               clock[2 * (n - 1)], clock[2 * (n - 1) + 1], ttl)
  }

  /** A listing that has failed has ended. */
  lemma {:induction false} FailedStays(first: Store, items: seq<Item>, n: nat, m: nat, upstream: Upstream,
                                       clock: Clock, ttl: int)
    requires n <= m <= |items| && 2 * m <= |clock| && ListItems(first, items, n, upstream, clock, ttl).result.Err?
    ensures ListItems(first, items, m, upstream, clock, ttl) == ListItems(first, items, n, upstream, clock, ttl)
  {
    if n < m { FailedStays(first, items, n, m - 1, upstream, clock, ttl); }
  }

  /** The loop over contexts (lines 24-32): the first `j` contexts of a source whose first is item `tick`. */
  function AfterContexts(start: Listing, source: Source, j: nat, tick: nat, upstream: Upstream, clock: Clock,
                         ttl: int): Listing
    requires source.contexts.Ok? && j <= |source.contexts.value| && 2 * (tick + j) <= |clock|
  {
    if j == 0 then start else
      ListItem(AfterContexts(start, source, j - 1, tick, upstream, clock, ttl),
               Item(source, source.contexts.value[j - 1]), upstream,
               clock[2 * (tick + j - 1)], clock[2 * (tick + j - 1) + 1], ttl)
  }

  /** How many items a source makes. */
  function Count(source: Source): nat {
    if source.contexts.Ok? then |source.contexts.value| else 1
  }

  function AfterSource(start: Listing, source: Source, tick: nat, upstream: Upstream, clock: Clock, ttl: int): Listing
    requires 2 * (tick + Count(source)) <= |clock|
  {
    if start.result.Err? then start
    else if source.contexts.Err? then Listing(Err(source.contexts.error), start.store)
    else AfterContexts(start, source, Count(source), tick, upstream, clock, ttl)
  }

  /** Where the items of source `i` begin. */
  function Offset(sources: seq<Source>, i: nat): nat
    requires i <= |sources|
  {
    if i == 0 then 0 else Offset(sources, i - 1) + Count(sources[i - 1])
  }

  /** The loop over sources (lines 18-32): the first `i` of them. */
  function AfterSources(first: Store, sources: seq<Source>, i: nat, upstream: Upstream, clock: Clock, ttl: int): Listing
    requires i <= |sources| && 2 * Offset(sources, i) <= |clock|
  {
    if i == 0 then Listing(Ok([]), first)
    else AfterSource(AfterSources(first, sources, i - 1, upstream, clock, ttl), sources[i - 1],
                     Offset(sources, i - 1), upstream, clock, ttl)
  }

  lemma {:induction false} ContextsFail(start: Listing, source: Source, j: nat, k: nat, tick: nat, upstream: Upstream,
                                        clock: Clock, ttl: int)
    requires source.contexts.Ok? && j <= k <= |source.contexts.value| && 2 * (tick + k) <= |clock|
    requires AfterContexts(start, source, j, tick, upstream, clock, ttl).result.Err?
    ensures AfterContexts(start, source, k, tick, upstream, clock, ttl)
            == AfterContexts(start, source, j, tick, upstream, clock, ttl)
  {
    if j < k { ContextsFail(start, source, j, k - 1, tick, upstream, clock, ttl); }
  }

  lemma {:induction false} OffsetGrows(sources: seq<Source>, i: nat, k: nat)
    requires i <= k <= |sources|
    ensures Offset(sources, i) <= Offset(sources, k)
  {
    if i < k { OffsetGrows(sources, i, k - 1); }
  }

  lemma {:induction false} SourcesFail(first: Store, sources: seq<Source>, i: nat, k: nat, upstream: Upstream,
                                       clock: Clock, ttl: int)
    requires i <= k <= |sources| && 2 * Offset(sources, k) <= |clock| && Offset(sources, i) <= Offset(sources, k)
    requires AfterSources(first, sources, i, upstream, clock, ttl).result.Err?
    ensures AfterSources(first, sources, k, upstream, clock, ttl)
            == AfterSources(first, sources, i, upstream, clock, ttl)
  {
    if i < k {
      OffsetGrows(sources, i, k - 1);
      SourcesFail(first, sources, i, k - 1, upstream, clock, ttl);
    }
  }

  lemma {:induction false} ItemsPrefix(sources: seq<Source>, i: nat, j: nat)
    requires i <= j <= |sources|
    ensures ItemsUpTo(sources, i) <= ItemsUpTo(sources, j)
  {
    if i < j { ItemsPrefix(sources, i, j - 1); }
  }

  lemma Ticks(clock: Clock, n: nat, last: nat)
    requires LastsFor(clock, last) && n < last
    ensures clock[2 * n] <= clock[2 * n + 1] <= clock[2 * (n + 1)] <= clock[2 * last]
  {
    var a, b, c, d := 2 * n, 2 * n + 1, 2 * (n + 1), 2 * last;
    assert Reading(clock, a) <= Reading(clock, b) <= Reading(clock, c) <= Reading(clock, d);
  }

  /** The items of the source are there from item `n` on. */
  ghost predicate AreAt(items: seq<Item>, n: nat, source: Source) {
    match source.contexts
    case Err(e) => n < |items| && items[n] == Unreadable(e)
    case Ok(xs) => n + |xs| <= |items| && forall j :: 0 <= j < |xs| ==> items[n + j] == Item(source, xs[j])
  }

  // ---------------------------------------------------------------- the loops go through the items

  lemma {:induction false} OffsetIsCount(sources: seq<Source>, i: nat)
    requires i <= |sources|
    ensures Offset(sources, i) == |ItemsUpTo(sources, i)|
  {
    if i > 0 { OffsetIsCount(sources, i - 1); }
  }

  lemma Within(before: seq<Item>, more: seq<Item>, upTo: seq<Item>, items: seq<Item>, source: Source)
    requires more == ItemsOf(source) && upTo == before + more && upTo <= items
    ensures AreAt(items, |before|, source)
  {
    assert forall j :: 0 <= j < |more| ==> items[|before| + j] == upTo[|before| + j] == more[j];
    if source.contexts.Err? { assert items[|before| + 0] == more[0]; }
  }

  lemma SourceItems(sources: seq<Source>, i: nat)
    requires i < |sources|
    ensures AreAt(Items(sources), |ItemsUpTo(sources, i)|, sources[i])
  {
    ItemsPrefix(sources, i + 1, |sources|);
    Within(ItemsUpTo(sources, i), ItemsOf(sources[i]), ItemsUpTo(sources, i + 1), Items(sources), sources[i]);
  }

  lemma {:induction false} ContextsAreItems(first: Store, items: seq<Item>, source: Source, j: nat, tick: nat,
                                            upstream: Upstream, clock: Clock, ttl: int)
    requires source.contexts.Ok? && j <= |source.contexts.value| && AreAt(items, tick, source)
    requires 2 * (tick + j) <= |clock|
    ensures AfterContexts(ListItems(first, items, tick, upstream, clock, ttl), source, j, tick, upstream, clock, ttl)
         == ListItems(first, items, tick + j, upstream, clock, ttl)
  {
    if j > 0 {
      ContextsAreItems(first, items, source, j - 1, tick, upstream, clock, ttl);
      assert items[tick + (j - 1)] == Item(source, source.contexts.value[j - 1]);
    }
  }

  lemma SourceIsItems(first: Store, items: seq<Item>, source: Source, tick: nat, upstream: Upstream, clock: Clock,
                      ttl: int)
    requires AreAt(items, tick, source) && 2 * (tick + Count(source)) <= |clock|
    ensures AfterSource(ListItems(first, items, tick, upstream, clock, ttl), source, tick, upstream, clock, ttl)
         == ListItems(first, items, tick + Count(source), upstream, clock, ttl)
  {
    if ListItems(first, items, tick, upstream, clock, ttl).result.Err? {
      FailedStays(first, items, tick, tick + Count(source), upstream, clock, ttl);
    } else if source.contexts.Ok? {
      ContextsAreItems(first, items, source, Count(source), tick, upstream, clock, ttl);
    }
  }

  lemma SourceAtOffset(sources: seq<Source>, i: nat)
    requires i < |sources|
    ensures AreAt(Items(sources), Offset(sources, i), sources[i])
  {
    OffsetIsCount(sources, i);
    SourceItems(sources, i);
  }

  lemma {:induction false} SourcesAreItems(first: Store, sources: seq<Source>, i: nat, upstream: Upstream,
                                           clock: Clock, ttl: int)
    requires i <= |sources| && Offset(sources, i) <= |Items(sources)| && 2 * |Items(sources)| <= |clock|
    ensures AfterSources(first, sources, i, upstream, clock, ttl)
            == ListItems(first, Items(sources), Offset(sources, i), upstream, clock, ttl)
  {
    if i > 0 {
      SourcesAreItems(first, sources, i - 1, upstream, clock, ttl);
      SourceAtOffset(sources, i - 1);
      SourceIsItems(first, Items(sources), sources[i - 1], Offset(sources, i - 1), upstream, clock, ttl);
    }
  }

  lemma ListingGoesThroughItems(first: Store, sources: seq<Source>, upstream: Upstream, clock: Clock, ttl: int)
    requires 2 * |Items(sources)| <= |clock|
    ensures Offset(sources, |sources|) == |Items(sources)|
    ensures AfterSources(first, sources, |sources|, upstream, clock, ttl)
         == ListItems(first, Items(sources), |Items(sources)|, upstream, clock, ttl)
  {
    OffsetIsCount(sources, |sources|);
    SourcesAreItems(first, sources, |sources|, upstream, clock, ttl);
  }

  // ---------------------------------------------------------------- what a listing should be

  /** What item `n` should contribute: its list as the cache stood at first, when its turn comes. */
  function OwnList(first: Store, item: Item, n: nat, upstream: Upstream, clock: Clock): Result<seq<Cluster>>
    requires 2 * n < |clock|
  {
    match item
    case Unreadable(e) => Err(e)
    case Item(source, x) => Own(first, clock[2 * n], upstream, source.name, x)
  }

  function OwnTagged(first: Store, item: Item, n: nat, upstream: Upstream, clock: Clock): seq<ResolvedCluster>
    requires 2 * n < |clock|
  {
    var list := OwnList(first, item, n, upstream, clock);
    if item.Item? && list.Ok? then Tagged(list.value, item.source) else []
  }

  function OwnLists(first: Store, items: seq<Item>, n: nat, upstream: Upstream, clock: Clock): seq<ResolvedCluster>
    requires n <= |items| && 2 * n <= |clock|
  {
    if n == 0 then [] else
      OwnLists(first, items, n - 1, upstream, clock) + OwnTagged(first, items[n - 1], n - 1, upstream, clock)
  }

  ghost predicate AllListed(first: Store, items: seq<Item>, n: nat, upstream: Upstream, clock: Clock)
    requires n <= |items| && 2 * n <= |clock|
  {
    forall m :: 0 <= m < n ==> OwnList(first, items[m], m, upstream, clock).Ok?
  }

  /** The first `n` items are listed exactly when each of them can be, and then as their lists one after the other. */
  ghost predicate RightUpTo(result: Result<seq<ResolvedCluster>>, first: Store, items: seq<Item>, n: nat,
                            upstream: Upstream, clock: Clock)
    requires n <= |items| && 2 * n <= |clock|
  {
    && (result.Ok? <==> AllListed(first, items, n, upstream, clock))
    && (result.Ok? ==> result.value == OwnLists(first, items, n, upstream, clock))
  }

  ghost predicate IsRight(result: Result<seq<ResolvedCluster>>, first: Store, items: seq<Item>, upstream: Upstream,
                          clock: Clock)
    requires 2 * |items| <= |clock|
  {
    RightUpTo(result, first, items, |items|, upstream, clock)
  }

  predicate SameKey(x: Item, y: Item) {
    x.Item? && y.Item? && KeyOf(x) == KeyOf(y)
  }

  /** Contexts that share a key are the same context of the same kubeconfig. */
  ghost predicate KeysApart(items: seq<Item>) {
    forall i, j :: 0 <= i < |items| && 0 <= j < |items| && SameKey(items[i], items[j]) ==>
      items[i].source.name == items[j].source.name && items[i].context == items[j].context
  }

  // ---------------------------------------------------------------- apart, or never cached: right

  /** From `since` on the table still gives every item the list it had in the table at first. */
  ghost predicate Faithful(store: Store, first: Store, since: int, items: seq<Item>, upstream: Upstream) {
    forall m, t :: 0 <= m < |items| && items[m].Item? && since <= t ==>
      Own(store, t, upstream, items[m].source.name, items[m].context)
      == Own(first, t, upstream, items[m].source.name, items[m].context)
  }

  lemma FetchKeepsFaith(store: Store, first: Store, items: seq<Item>, n: nat, upstream: Upstream, now: int,
                        later: int, ttl: int)
    requires n < |items| && items[n].Item? && (KeysApart(items) || ttl < 0) && now <= later
    requires Faithful(store, first, now, items, upstream)
    ensures var list := Own(store, now, upstream, items[n].source.name, items[n].context);
            list.Ok? ==> Faithful(Fetched(store, KeyOf(items[n]), list, now, later, ttl), first, later, items, upstream)
  {
    var list := Own(store, now, upstream, items[n].source.name, items[n].context);
    var store' := Fetched(store, KeyOf(items[n]), list, now, later, ttl);
    if list.Ok? {
      forall m, t | 0 <= m < |items| && items[m].Item? && later <= t
        ensures Own(store', t, upstream, items[m].source.name, items[m].context)
             == Own(first, t, upstream, items[m].source.name, items[m].context)
      {
        var name, x := items[m].source.name, items[m].context;
        assert Own(store, t, upstream, name, x) == Own(first, t, upstream, name, x);
        assert Own(store, now, upstream, name, x) == Own(first, now, upstream, name, x);
      }
    }
  }

  lemma NextIsRight(first: Store, items: seq<Item>, n: nat, before: Listing, upstream: Upstream, now: int, later: int,
                    next: int, ttl: int)
    requires n < |items| && (KeysApart(items) || ttl < 0) && now <= later <= next
    requires before.result.Ok? && Faithful(before.store, first, now, items, upstream)
    ensures var so := ListItem(before, items[n], upstream, now, later, ttl);
            && (items[n].Unreadable? ==> so.result.Err?)
            && (items[n].Item? ==>
                  var own := Own(first, now, upstream, items[n].source.name, items[n].context);
                  && (so.result.Ok? <==> own.Ok?)
                  && (so.result.Ok? ==> so.result.value == before.result.value + Tagged(own.value, items[n].source)
                                        && Faithful(so.store, first, next, items, upstream)))
  {
    if items[n].Item? {
      FetchKeepsFaith(before.store, first, items, n, upstream, now, later, ttl);
      assert Own(before.store, now, upstream, items[n].source.name, items[n].context)
          == Own(first, now, upstream, items[n].source.name, items[n].context);
    }
  }

  lemma {:induction false} ApartIsRight(first: Store, items: seq<Item>, n: nat, upstream: Upstream, clock: Clock,
                                        ttl: int)
    requires n <= |items| && (KeysApart(items) || ttl < 0) && LastsFor(clock, n)
    ensures var so := ListItems(first, items, n, upstream, clock, ttl);
            && RightUpTo(so.result, first, items, n, upstream, clock)
            && (so.result.Ok? ==> Faithful(so.store, first, clock[2 * n], items, upstream))
  {
    if n > 0 {
      var m := n - 1;
      ApartIsRight(first, items, m, upstream, clock, ttl);
      var before := ListItems(first, items, m, upstream, clock, ttl);
      if before.result.Ok? {
        Ticks(clock, m, n);
        NextIsRight(first, items, m, before, upstream, clock[2 * m], clock[2 * m + 1], clock[2 * n], ttl);
      }
    }
  }

  ghost predicate Unreadables(items: seq<Item>) {
    exists i :: 0 <= i < |items| && items[i].Unreadable?
  }

  lemma UnreadableIsRight(first: Store, items: seq<Item>, upstream: Upstream, clock: Clock, ttl: int)
    requires Unreadables(items) && LastsFor(clock, |items|)
    ensures IsRight(ListItems(first, items, |items|, upstream, clock, ttl).result, first, items, upstream, clock)
  {
    var i :| 0 <= i < |items| && items[i].Unreadable?;
    FailedStays(first, items, i + 1, |items|, upstream, clock, ttl);
    assert OwnList(first, items[i], i, upstream, clock).Err?;
  }

  // ---------------------------------------------------------------- what is listed, place by place

  /** Every context of every source is an item, in order and at its own place, and so is every failure to read them. */
  lemma ItemsEnumerateContexts(sources: seq<Source>, i: nat)
    requires i < |sources|
    ensures Offset(sources, i) + Count(sources[i]) <= |Items(sources)| == Offset(sources, |sources|)
    ensures sources[i].contexts.Err? ==> Items(sources)[Offset(sources, i)] == Unreadable(sources[i].contexts.error)
    ensures forall j :: sources[i].contexts.Ok? && 0 <= j < |sources[i].contexts.value| ==>
              Items(sources)[Offset(sources, i) + j] == Item(sources[i], sources[i].contexts.value[j])
  {
    SourceAtOffset(sources, i);
    OffsetIsCount(sources, |sources|);
    OffsetGrows(sources, i + 1, |sources|);
  }

  /** The clusters of the first `m` lists. */
  function Before(lists: seq<seq<Cluster>>, m: nat): nat
    requires m <= |lists|
  {
    if m == 0 then 0 else Before(lists, m - 1) + |lists[m - 1]|
  }

  /** Cluster `k` of list `m` is listed under its source, after all earlier lists. */
  predicate ListedAt(listed: seq<ResolvedCluster>, items: seq<Item>, lists: seq<seq<Cluster>>, m: nat, k: nat)
    requires m < |lists| <= |items| && items[m].Item? && k < |lists[m]|
  {
    && Before(lists, m) + k < |listed|
    && listed[Before(lists, m) + k] == ResolvedCluster(lists[m][k], items[m].source)
  }

  /** `listed` is the lists one after the other. */
  ghost predicate InPlace(listed: seq<ResolvedCluster>, items: seq<Item>, lists: seq<seq<Cluster>>) {
    && |lists| <= |items| && |listed| == Before(lists, |lists|)
    && (forall m :: 0 <= m < |lists| ==> items[m].Item?)
    && (forall m, k :: 0 <= m < |lists| && 0 <= k < |lists[m]| ==> ListedAt(listed, items, lists, m, k))
  }

  lemma {:induction false} SameBefore(lists: seq<seq<Cluster>>, list: seq<Cluster>, m: nat)
    requires m <= |lists|
    ensures Before(lists + [list], m) == Before(lists, m)
  {
    if m > 0 { SameBefore(lists, list, m - 1); }
  }

  lemma OneMoreInPlace(listed: seq<ResolvedCluster>, items: seq<Item>, lists: seq<seq<Cluster>>, list: seq<Cluster>)
    requires |lists| < |items| && items[|lists|].Item? && InPlace(listed, items, lists)
    ensures InPlace(listed + Tagged(list, items[|lists|].source), items, lists + [list])
  {
    var n, longer := |lists|, lists + [list];
    var listed' := listed + Tagged(list, items[n].source);
    SameBefore(lists, list, n);
    forall m, k | 0 <= m < |longer| && 0 <= k < |longer[m]| ensures ListedAt(listed', items, longer, m, k) {
      if m < n {
        SameBefore(lists, list, m);
        assert longer[m] == lists[m] && ListedAt(listed, items, lists, m, k);
      }
    }
  }

  /** The first `n` items got `lists`, each from the table as it stood at its turn. */
  ghost predicate Got(lists: seq<seq<Cluster>>, first: Store, items: seq<Item>, n: nat, upstream: Upstream,
                      clock: Clock, ttl: int)
    requires n <= |items| && 2 * n <= |clock|
  {
    |lists| == n && forall m :: 0 <= m < n && items[m].Item? ==>
      Own(ListItems(first, items, m, upstream, clock, ttl).store, clock[2 * m], upstream, items[m].source.name,
          items[m].context) == Ok(lists[m])
  }

  /** What a listing lists, for every table, every answer and every clock, shared keys or not. */
  lemma {:induction false} ListsInPlace(first: Store, items: seq<Item>, n: nat, upstream: Upstream, clock: Clock,
                                        ttl: int) returns (lists: seq<seq<Cluster>>)
    requires n <= |items| && 2 * n <= |clock| && ListItems(first, items, n, upstream, clock, ttl).result.Ok?
    ensures Got(lists, first, items, n, upstream, clock, ttl)
    ensures InPlace(ListItems(first, items, n, upstream, clock, ttl).result.value, items, lists)
  {
    lists := [];
    if n > 0 {
      var before := ListItems(first, items, n - 1, upstream, clock, ttl);
      lists := ListsInPlace(first, items, n - 1, upstream, clock, ttl);
      assert items[n - 1].Item?;
      var list := Own(before.store, clock[2 * (n - 1)], upstream, items[n - 1].source.name, items[n - 1].context);
      OneMoreInPlace(before.result.value, items, lists, list.value);
      lists := lists + [list.value];
    }
  }

  /** Where keys are apart the lists are those of the table as it stood at first. */
  lemma ApartGotOwn(lists: seq<seq<Cluster>>, first: Store, items: seq<Item>, n: nat, m: nat, upstream: Upstream,
                    clock: Clock, ttl: int)
    requires m < n <= |items| && (KeysApart(items) || ttl < 0) && LastsFor(clock, n) && items[m].Item?
    requires Got(lists, first, items, n, upstream, clock, ttl)
    requires ListItems(first, items, n, upstream, clock, ttl).result.Ok?
    ensures Own(first, clock[2 * m], upstream, items[m].source.name, items[m].context) == Ok(lists[m])
  {
    if ListItems(first, items, m, upstream, clock, ttl).result.Err? {
      FailedStays(first, items, m, n, upstream, clock, ttl);
    }
    ApartIsRight(first, items, m, upstream, clock, ttl);
  }

  // ---------------------------------------------------------------- the loops, on the cache

  class Lister {
    const clusterList: TTLCache<string, seq<Cluster>>

    constructor (clusterList: TTLCache<string, seq<Cluster>>)
      ensures this.clusterList == clusterList
    {
      this.clusterList := clusterList;
    }

    method ListClustersCached(name: string, context: string, upstream: Upstream, now: int, later: int)
      returns (list: Result<seq<Cluster>>)
      requires clusterList.Valid() && clusterList.clock <= now <= later
      modifies clusterList
      ensures clusterList.Valid() && clusterList.clock <= later
      ensures list == Own(old(clusterList.store), now, upstream, name, context)
      // only a fetched list is stored
      ensures clusterList.store
              == Fetched(old(clusterList.store), ClusterListKey(name, context), list, now, later, clusterList.ttl)
    {
      var key := ClusterListKey(name, context);
      var cached := clusterList.Get(key, now);
      if cached.Some? {
        return Ok(cached.value);
      }
      list := upstream(name, context);
      if list.Ok? {
        clusterList.Set(key, list.value, later);
      }
    }

    /** One turn of the loop over contexts (lines 25-31), with the loop that appends the clusters. */
    method ListContext(source: Source, context: string, upstream: Upstream, now: int, later: int,
                       all: seq<ResolvedCluster>)
      returns (result: Result<seq<ResolvedCluster>>)
      requires clusterList.Valid() && clusterList.clock <= now <= later
      modifies clusterList
      ensures clusterList.Valid() && clusterList.clock <= later
      ensures Listing(result, clusterList.store)
           == ListItem(Listing(Ok(all), old(clusterList.store)), Item(source, context), upstream, now, later,
                       clusterList.ttl)
    {
      var clusters := ListClustersCached(source.name, context, upstream, now, later);
      if clusters.Err? {
        return Err(clusters.error);
      }
      var listed := all;
      for k := 0 to |clusters.value|
        invariant listed == all + Tagged(clusters.value, source)[..k]
      {
        listed := listed + [ResolvedCluster(clusters.value[k], source)];
      }
      assert Tagged(clusters.value, source)[..|clusters.value|] == Tagged(clusters.value, source);
      result := Ok(listed);
    }

    /** The loop over the contexts (lines 24-32), for one source, whose first context is item `tick`. */
    method ListContexts(source: Source, contexts: seq<string>, upstream: Upstream, clock: Clock,
                        all: seq<ResolvedCluster>, tick: nat)
      returns (result: Result<seq<ResolvedCluster>>)
      requires source.contexts == Ok(contexts) && LastsFor(clock, tick + |contexts|)
      requires clusterList.Valid() && clusterList.clock <= clock[2 * tick]
      modifies clusterList
      ensures clusterList.Valid() && clusterList.clock <= clock[2 * (tick + |contexts|)]
      ensures Listing(result, clusterList.store)
           == AfterContexts(Listing(Ok(all), old(clusterList.store)), source, |contexts|, tick, upstream, clock,
                            clusterList.ttl)
    {
      ghost var start := Listing(Ok(all), clusterList.store);
      var listed := all;
      for j := 0 to |contexts|
        invariant clusterList.Valid() && clusterList.clock <= clock[2 * (tick + j)]
        invariant Listing(Ok(listed), clusterList.store)
                  == AfterContexts(start, source, j, tick, upstream, clock, clusterList.ttl)
      {
        var n := tick + j;
        Ticks(clock, n, tick + |contexts|);
        var next := ListContext(source, contexts[j], upstream, clock[2 * n], clock[2 * n + 1], listed);
        if next.Err? {
          ContextsFail(start, source, j + 1, |contexts|, tick, upstream, clock, clusterList.ttl);
          return next;
        }
        listed := next.value;
      }
      result := Ok(listed);
    }

    /** One turn of the loop over sources (lines 18-32). */
    method ListSource(source: Source, upstream: Upstream, clock: Clock, all: seq<ResolvedCluster>, tick: nat)
      returns (result: Result<seq<ResolvedCluster>>)
      requires LastsFor(clock, tick + Count(source)) && clusterList.Valid() && clusterList.clock <= clock[2 * tick]
      modifies clusterList
      ensures clusterList.Valid() && (result.Ok? ==> clusterList.clock <= clock[2 * (tick + Count(source))])
      ensures Listing(result, clusterList.store)
           == AfterSource(Listing(Ok(all), old(clusterList.store)), source, tick, upstream, clock, clusterList.ttl)
    {
      if source.contexts.Err? {
        return Err(source.contexts.error);
      }
      result := ListContexts(source, source.contexts.value, upstream, clock, all, tick);
    }

    /** Lines 17-33. */
    method ListSources(sources: seq<Source>, upstream: Upstream, clock: Clock)
      returns (result: Result<seq<ResolvedCluster>>)
      requires LastsFor(clock, Offset(sources, |sources|)) && clusterList.Valid() && clusterList.clock <= clock[0]
      modifies clusterList
      ensures clusterList.Valid()
      ensures Listing(result, clusterList.store)
           == AfterSources(old(clusterList.store), sources, |sources|, upstream, clock, clusterList.ttl)
    {
      ghost var first := clusterList.store;
      var all: seq<ResolvedCluster> := [];
      var tick: nat := 0;
      for i := 0 to |sources|
        invariant tick == Offset(sources, i) <= Offset(sources, |sources|)
        invariant clusterList.Valid() && clusterList.clock <= clock[2 * tick]
        invariant Listing(Ok(all), clusterList.store)
                  == AfterSources(first, sources, i, upstream, clock, clusterList.ttl)
      {
        OffsetGrows(sources, i + 1, |sources|);
        var listed := ListSource(sources[i], upstream, clock, all, tick);
        if listed.Err? {
          SourcesFail(first, sources, i + 1, |sources|, upstream, clock, clusterList.ttl);
          return listed;
        }
        all := listed.value;
        tick := tick + Count(sources[i]);
      }
      result := Ok(all);
    }

    method AllResolvedClusters(sources: seq<Source>, upstream: Upstream, clock: Clock)
      returns (result: Result<seq<ResolvedCluster>>, ghost lists: seq<seq<Cluster>>)
      requires LastsFor(clock, |Items(sources)|) && clusterList.Valid() && clusterList.clock <= clock[0]
      modifies clusterList
      ensures clusterList.Valid()
      ensures Listing(result, clusterList.store)
           == ListItems(old(clusterList.store), Items(sources), |Items(sources)|, upstream, clock, clusterList.ttl)
      // which is the lists that the contexts got, cluster after cluster under its own source
      ensures result.Ok? ==>
                && Got(lists, old(clusterList.store), Items(sources), |Items(sources)|, upstream, clock,
                       clusterList.ttl)
                && InPlace(result.value, Items(sources), lists)
      // and these are the contexts' own lists, or it fails as one of them does, if no two contexts share a key
      ensures KeysApart(Items(sources)) ==>
                && IsRight(result, old(clusterList.store), Items(sources), upstream, clock)
                && (result.Ok? ==> forall m :: 0 <= m < |lists| ==>
                      Own(old(clusterList.store), clock[2 * m], upstream, Items(sources)[m].source.name,
                          Items(sources)[m].context) == Ok(lists[m]))
    {
      ghost var first, items := clusterList.store, Items(sources);
      ListingGoesThroughItems(first, sources, upstream, clock, clusterList.ttl);
      result := ListSources(sources, upstream, clock);
      lists := [];
      if result.Ok? { lists := ListsInPlace(first, items, |items|, upstream, clock, clusterList.ttl); }
      if KeysApart(items) {
        ApartIsRight(first, items, |items|, upstream, clock, clusterList.ttl);
        forall m | result.Ok? && 0 <= m < |lists|
          ensures Own(first, clock[2 * m], upstream, items[m].source.name, items[m].context) == Ok(lists[m])
        {
          ApartGotOwn(lists, first, items, |items|, m, upstream, clock, clusterList.ttl);
        }
      }
    }
  }

  // ---------------------------------------------------------------- a shared key: wrong

  function Still(now: int, n: nat): Clock {
    seq(2 * n + 1, _ => now)
  }

  /** Only context `context` of `name` has a cluster. */
  function OneCluster(name: string, context: string): Upstream {
    (n, x) => Ok(if n == name && x == context then [Cluster("", "", "", "", map[])] else [])
  }

  function HowMany(items: seq<Item>, n: nat, p: Item -> bool): nat
    requires n <= |items|
  {
    if n == 0 then 0 else HowMany(items, n - 1, p) + if p(items[n - 1]) then 1 else 0
  }

  function WithKey(key: string): Item -> bool {
    (item: Item) => item.Item? && KeyOf(item) == key
  }

  function SameContext(name: string, context: string): Item -> bool {
    (item: Item) => item.Item? && item.source.name == name && item.context == context
  }

  lemma {:induction false} FewerAreSame(items: seq<Item>, n: nat, name: string, context: string)
    requires n <= |items|
    ensures var key := ClusterListKey(name, context);
            && HowMany(items, n, SameContext(name, context)) <= HowMany(items, n, WithKey(key))
            && ((exists i :: 0 <= i < n && WithKey(key)(items[i]) && !SameContext(name, context)(items[i])) ==>
                  HowMany(items, n, SameContext(name, context)) < HowMany(items, n, WithKey(key)))
  {
    if n > 0 { FewerAreSame(items, n - 1, name, context); }
  }

  lemma {:induction false} OwnCount(items: seq<Item>, n: nat, name: string, context: string)
    requires n <= |items| && !Unreadables(items)
    ensures AllListed(map[], items, n, OneCluster(name, context), Still(0, |items|))
    ensures |OwnLists(map[], items, n, OneCluster(name, context), Still(0, |items|))|
            == HowMany(items, n, SameContext(name, context))
  {
    if n > 0 { OwnCount(items, n - 1, name, context); }
  }

  /** The table while the one cluster is listed under every item that shares the key. */
  ghost predicate Mixed(store: Store, key: string, seen: bool) {
    && (Visible(store, key, 0) == if seen then Some([Cluster("", "", "", "", map[])]) else None)
    && (forall k :: k != key && Visible(store, k, 0).Some? ==> Visible(store, k, 0) == Some([]))
  }

  lemma NextIsMixed(before: Listing, item: Item, first: Item, seen: bool, ttl: int)
    requires before.result.Ok? && item.Item? && first.Item? && ttl >= 0 && Mixed(before.store, KeyOf(first), seen)
    requires !seen && KeyOf(item) == KeyOf(first) ==> item == first
    ensures var so := ListItem(before, item, OneCluster(first.source.name, first.context), 0, 0, ttl);
            var same := KeyOf(item) == KeyOf(first);
            && so.result.Ok? && |so.result.value| == |before.result.value| + (if same then 1 else 0)
            && Mixed(so.store, KeyOf(first), seen || same)
  {
    var upstream, key := OneCluster(first.source.name, first.context), KeyOf(item);
    var list := Own(before.store, 0, upstream, item.source.name, item.context);
    var store' := Fetched(before.store, key, list, 0, 0, ttl);
    assert key == KeyOf(first) ==> list == Ok([Cluster("", "", "", "", map[])]);
    assert key != KeyOf(first) ==> list == Ok([]);
    assert Visible(store', key, 0) == Some(list.value);
    assert forall k :: k != key ==> Visible(store', k, 0) == Visible(before.store, k, 0);
  }

  lemma {:induction false} MixedCount(items: seq<Item>, n: nat, i: nat, ttl: int)
    requires n <= |items| && i < |items| && !Unreadables(items) && ttl >= 0
    requires forall j :: 0 <= j < i ==> KeyOf(items[j]) != KeyOf(items[i])
    ensures var key := KeyOf(items[i]);
            var so := ListItems(map[], items, n, OneCluster(items[i].source.name, items[i].context),
                                Still(0, |items|), ttl);
            && so.result.Ok? && |so.result.value| == HowMany(items, n, WithKey(key)) && Mixed(so.store, key, i < n)
  {
    if n > 0 {
      var upstream := OneCluster(items[i].source.name, items[i].context);
      MixedCount(items, n - 1, i, ttl);
      assert items[n - 1].Item? && items[i].Item?;
      NextIsMixed(ListItems(map[], items, n - 1, upstream, Still(0, |items|), ttl), items[n - 1], items[i], i < n - 1,
                  ttl);
    }
  }

  lemma {:induction false} FirstWithKey(items: seq<Item>, a: nat) returns (i: nat)
    requires a < |items| && !Unreadables(items)
    ensures i <= a && KeyOf(items[i]) == KeyOf(items[a])
    ensures forall j :: 0 <= j < i ==> KeyOf(items[j]) != KeyOf(items[i])
  {
    i := a;
    if j :| 0 <= j < a && KeyOf(items[j]) == KeyOf(items[a]) {
      i := FirstWithKey(items, j);
    }
  }

  lemma SharedKeyIsWrong(items: seq<Item>, ttl: int)
    requires !KeysApart(items) && !Unreadables(items) && ttl >= 0
    ensures exists first, upstream ::
              !IsRight(ListItems(first, items, |items|, upstream, Still(0, |items|), ttl).result, first, items,
                       upstream, Still(0, |items|))
  {
    var a, b :| 0 <= a < |items| && 0 <= b < |items| && SameKey(items[a], items[b])
      && !(items[a].source.name == items[b].source.name && items[a].context == items[b].context);
    var i := FirstWithKey(items, a);
    var name, context := items[i].source.name, items[i].context;
    MixedCount(items, |items|, i, ttl);
    OwnCount(items, |items|, name, context);
    assert WithKey(ClusterListKey(name, context))(items[a]) && WithKey(ClusterListKey(name, context))(items[b]);
    assert !SameContext(name, context)(items[a]) || !SameContext(name, context)(items[b]);
    FewerAreSame(items, |items|, name, context);
    assert !IsRight(ListItems(map[], items, |items|, OneCluster(name, context), Still(0, |items|), ttl).result,
                    map[], items, OneCluster(name, context), Still(0, |items|));
  }

  /**
   Listing is right for every state of the cache, every answer and every pace of the clock if and
   only if no two different contexts share a cache key; or nothing stays cached, or it fails anyway.
   */
  lemma ListingIsRightIff(items: seq<Item>, ttl: int)
    ensures (forall first: Store, upstream, clock | LastsFor(clock, |items|) ::
               IsRight(ListItems(first, items, |items|, upstream, clock, ttl).result, first, items, upstream, clock))
            <==> KeysApart(items) || ttl < 0 || Unreadables(items)
  {
    if KeysApart(items) || ttl < 0 {
      forall first: Store, upstream, clock | LastsFor(clock, |items|)
        ensures IsRight(ListItems(first, items, |items|, upstream, clock, ttl).result, first, items, upstream, clock)
      {
        ApartIsRight(first, items, |items|, upstream, clock, ttl);
      }
    } else if Unreadables(items) {
      forall first: Store, upstream, clock | LastsFor(clock, |items|)
        ensures IsRight(ListItems(first, items, |items|, upstream, clock, ttl).result, first, items, upstream, clock)
      {
        UnreadableIsRight(first, items, upstream, clock, ttl);
      }
    } else {
      SharedKeyIsWrong(items, ttl);
      assert LastsFor(Still(0, |items|), |items|);
    }
  }

  /** Of two sources with confusable names, one is shown the clusters of the other, whatever its own are. */
  lemma ConfusableSourcesMix(store: Store, m: string, rest: string, upstream: Upstream, now: int, later: int, ttl: int)
    requires now <= later && ttl >= 0 && Own(store, now, upstream, m, rest + ":ctx").Ok?
    ensures var key, list := ClusterListKey(m, rest + ":ctx"), Own(store, now, upstream, m, rest + ":ctx");
            && ((Visible(store, key, now).Some? ==> later <= store[key].expiresAt) ==>
                  Own(Fetched(store, key, list, now, later, ttl), later, upstream, m + ":" + rest, "ctx") == list)
            && Own(Fetched(store, key, list, now, now, ttl), now, upstream, m + ":" + rest, "ctx") == list
  {
    assert ClusterListKey(m, rest + ":ctx") == ClusterListKey(m + ":" + rest, "ctx");
  }

  // ---------------------------------------------------------------- names decide for all contexts

  /** No two sources can share a cache key, whatever contexts they have. */
  ghost predicate NamesApart(sources: seq<Source>) {
    forall i, j :: 0 <= i < |sources| && 0 <= j < |sources| ==> !Confusable(sources[i].name, sources[j].name)
  }

  lemma {:induction false} ItemsHaveSources(sources: seq<Source>, i: nat, item: Item)
    requires i <= |sources| && item in ItemsUpTo(sources, i) && item.Item?
    ensures item.source in sources
  {
    if item in ItemsUpTo(sources, i - 1) { ItemsHaveSources(sources, i - 1, item); }
  }

  lemma SharedMeansSame(m: string, x: string, n: string, y: string)
    requires ClusterListKey(m, x) == ClusterListKey(n, y) && !Confusable(m, n)
    ensures m == n && x == y
  {
    ListKeysCollideIff(m, if m != n then n else m + "!");
  }

  lemma NamesApartKeepKeysApart(sources: seq<Source>)
    requires NamesApart(sources)
    ensures KeysApart(Items(sources))
  {
    var items := Items(sources);
    forall i, j | 0 <= i < |items| && 0 <= j < |items| && SameKey(items[i], items[j])
      ensures items[i].source.name == items[j].source.name && items[i].context == items[j].context
    {
      var m, n := items[i].source.name, items[j].source.name;
      assert items[i] in items && items[j] in items;
      ItemsHaveSources(sources, |sources|, items[i]);
      ItemsHaveSources(sources, |sources|, items[j]);
      SharedMeansSame(m, items[i].context, n, items[j].context);
    }
  }

  // ---------------------------------------------------------------- listing again

  ghost predicate AllCached(store: Store, now: int, items: seq<Item>, n: nat)
    requires n <= |items|
  {
    forall i :: 0 <= i < n ==> items[i].Item? && Visible(store, KeyOf(items[i]), now).Some?
  }

  lemma NextIsCached(before: Listing, items: seq<Item>, n: nat, upstream: Upstream, now: int, ttl: int)
    requires n < |items| && ttl >= 0 && before.result.Ok? && AllCached(before.store, now, items, n)
    requires ListItem(before, items[n], upstream, now, now, ttl).result.Ok?
    ensures AllCached(ListItem(before, items[n], upstream, now, now, ttl).store, now, items, n + 1)
  {}

  /** After a listing that took no time, every list is cached. */
  lemma {:induction false} ListedAtOnceIsCached(first: Store, items: seq<Item>, n: nat, upstream: Upstream, now: int,
                                                ttl: int)
    requires n <= |items| && ttl >= 0 && ListItems(first, items, n, upstream, Still(now, |items|), ttl).result.Ok?
    ensures AllCached(ListItems(first, items, n, upstream, Still(now, |items|), ttl).store, now, items, n)
  {
    if n > 0 {
      ListedAtOnceIsCached(first, items, n - 1, upstream, now, ttl);
      NextIsCached(ListItems(first, items, n - 1, upstream, Still(now, |items|), ttl), items, n - 1, upstream, now,
                   ttl);
    }
  }

  /** Once every list is cached, a listing asks the management clusters nothing, and so repeats its answer. */
  lemma {:induction false} CachedListingAsksNothing(store: Store, now: int, items: seq<Item>, n: nat, u: Upstream,
                                                    v: Upstream, ttl: int)
    requires n <= |items| && AllCached(store, now, items, n)
    ensures ListItems(store, items, n, u, Still(now, |items|), ttl)
            == ListItems(store, items, n, v, Still(now, |items|), ttl)
    ensures ListItems(store, items, n, u, Still(now, |items|), ttl).result.Ok?
              && ListItems(store, items, n, u, Still(now, |items|), ttl).store == store
  {
    if n > 0 { CachedListingAsksNothing(store, now, items, n - 1, u, v, ttl); }
  }
}
