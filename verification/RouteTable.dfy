/**
 The proxy's shared state and the elementary changes to it: dropping a cached route,
 attaching a channel to a route, destroying a channel.

 Routes live in an explicit heap, so that `delete` is visible: a freed pointer is not in
 `heap`, and every dereference below has to show that its pointer still is.
 */
module RouteTable {
  import opened Seqs
  import opened Inet
  import opened Model

  datatype State = State(
    heap: map<RoutePtr, Route>,
    next: RoutePtr,
    cache: map<Addr, RoutePtr>,
    chktime: int,
    channels: seq<Channel>,
    nextChan: ChanPtr,
    servers: seq<Server>,
    clients: seq<Client>,
    open: set<Sock>)

  function OnRoute(r: RoutePtr): Channel -> bool { (c: Channel) => c.route == r }
  function OnServer(s: int): Channel -> bool { (c: Channel) => c.server == s }
  function OnClient(k: int): Channel -> bool { (c: Channel) => c.client == k }
  function ChosenServer(s: int): Channel -> bool { (c: Channel) => c.server == s && c.selected }
  function ChosenClient(k: int): Channel -> bool { (c: Channel) => c.client == k && c.selected }

  // ---- the invariant of routes, cache, channels and counters ----

  predicate RouteOK(st: State, r: RoutePtr)
    requires r in st.heap
  {
    var e := st.heap[r];
    && r < st.next
    && 0 <= e.server < |st.servers| && 0 <= e.client < |st.clients|
    && e.numSlots == Count(st.channels, OnRoute(r))
    && (e.cached ==> e.key in st.cache && st.cache[e.key] == r)
    && (!e.cached ==> e.numSlots == 1)
  }

  /** Each counter is the number of live channels; an uncached route has exactly one channel. */
  ghost predicate RoutesOK(st: State) {
    forall r :: r in st.heap ==> RouteOK(st, r)
  }

  /** What is in the cache is alive, marked as cached, and sits under its own source host. */
  ghost predicate CacheOK(st: State) {
    forall k :: k in st.cache ==>
      st.cache[k] in st.heap && st.heap[st.cache[k]].cached && st.heap[st.cache[k]].key == k
  }

  predicate ChannelOK(st: State, c: Channel) {
    && c.id < st.nextChan
    && c.route in st.heap
    && st.heap[c.route].server == c.server
    && st.heap[c.route].client == c.client
  }

  /** No channel refers to a freed route. */
  ghost predicate ChannelsOK(st: State) {
    forall i :: 0 <= i < |st.channels| ==> ChannelOK(st, st.channels[i])
  }

  /** Channels are distinct objects. */
  ghost predicate DistinctIds(chs: seq<Channel>) {
    forall i, j :: 0 <= i < j < |chs| ==> chs[i].id != chs[j].id
  }

  predicate ServerSlotsOK(st: State, s: nat)
    requires s < |st.servers|
  {
    && ServerOK(st.servers[s])
    && st.servers[s].numSlots == Count(st.channels, OnServer(s))
    && Count(st.channels, ChosenServer(s)) <= st.servers[s].confSlots
  }

  predicate ClientSlotsOK(st: State, k: nat)
    requires k < |st.clients|
  {
    && st.clients[k].numSlots == Count(st.channels, OnClient(k))
    && Count(st.channels, ChosenClient(k)) <= Max0(st.clients[k].maxSlots)
  }

  ghost predicate SlotsOK(st: State) {
    && (forall s :: 0 <= s < |st.servers| ==> ServerSlotsOK(st, s))
    && (forall k :: 0 <= k < |st.clients| ==> ClientSlotsOK(st, k))
  }

  ghost predicate Core(st: State) {
    RoutesOK(st) && CacheOK(st) && ChannelsOK(st) && DistinctIds(st.channels) && SlotsOK(st)
  }

  function Max0(n: int): int {
    if n < 0 then 0 else n
  }

  lemma CoreServersOK(st: State)
    requires Core(st)
    ensures ServersOK(st.servers)
  {
    forall s <- st.servers
      ensures ServerOK(s)
    {
      var i :| 0 <= i < |st.servers| && st.servers[i] == s;
      assert ServerSlotsOK(st, i);
    }
  }

  /** A route without active slots has no channel. */
  lemma IdleRouteUnused(st: State, r: RoutePtr)
    requires Core(st) && r in st.heap && st.heap[r].numSlots == 0
    ensures forall i :: 0 <= i < |st.channels| ==> st.channels[i].route != r
  {
    assert RouteOK(st, r);
    forall i | 0 <= i < |st.channels|
      ensures st.channels[i].route != r
    {
      if st.channels[i].route == r {
        CountMember(st.channels, i, OnRoute(r));
      }
    }
  }

  // ---- dropping idle cached routes ----

  ghost predicate Idle(st: State, k: Addr) {
    k in st.cache && st.cache[k] in st.heap && st.heap[st.cache[k]].numSlots == 0
  }

  /** Erases the keys and deletes their routes. */
  function DropAll(st: State, keys: set<Addr>): State {
    st.(cache := st.cache - keys,
        heap := st.heap - set k | k in keys && k in st.cache :: st.cache[k])
  }

  lemma DropAllKeepsCore(st: State, keys: set<Addr>)
    requires Core(st) && forall k <- keys :: Idle(st, k)
    ensures Core(DropAll(st, keys))
  {
    var st' := DropAll(st, keys);
    forall i | 0 <= i < |st.channels|
      ensures ChannelOK(st', st'.channels[i])
    {
      assert ChannelOK(st, st.channels[i]);
      forall k <- keys
        ensures st.cache[k] != st.channels[i].route
      {
        IdleRouteUnused(st, st.cache[k]);
      }
    }
    forall r | r in st'.heap
      ensures RouteOK(st', r)
    {
      assert RouteOK(st, r);
    }
    forall k | k in st'.cache
      ensures st'.cache[k] in st'.heap
    {
      assert forall j <- keys :: st.heap[st.cache[j]].key == j;
    }
    assert forall s :: 0 <= s < |st.servers| ==> ServerSlotsOK(st, s) ==> ServerSlotsOK(st', s);
    assert forall k :: 0 <= k < |st.clients| ==> ClientSlotsOK(st, k) ==> ClientSlotsOK(st', k);
  }

  // ---- the cache methods, as functions ----

  /** No active slots and silent for longer than the timeout. */
  predicate Stale(cfg: Config, e: Route, now: int) {
    e.numSlots == 0 && now > e.actTime + cfg.timeout
  }

  function StaleKeys(cfg: Config, st: State, now: int): set<Addr>
    requires CacheOK(st)
  {
    set k | k in st.cache && Stale(cfg, st.heap[st.cache[k]], now)
  }

  /** The sweep inside `find`: at most once an hour every stale route goes. */
  function Sweep(cfg: Config, st: State, now: int): State
    requires CacheOK(st)
  {
    if now > st.chktime then DropAll(st.(chktime := now + 3600), StaleKeys(cfg, st, now)) else st
  }

  /** `find`: after the sweep, a stale route that is looked for goes in any case. */
  function Find(cfg: Config, st: State, key: Addr, now: int): (r: (State, Option<RoutePtr>))
    requires CacheOK(st)
  {
    if !cfg.caching then (st, None)
    else
      var swept := Sweep(cfg, st, now);
      if key !in st.cache then (swept, None)
      else if Stale(cfg, st.heap[st.cache[key]], now) then (DropAll(swept, {key}), None)
      else (swept, Some(st.cache[key]))
  }

  /** `remove`: refuses while the route has active slots. */
  function Remove(st: State, key: Addr): State
    requires CacheOK(st)
  {
    if key in st.cache && st.heap[st.cache[key]].numSlots == 0 then DropAll(st, {key}) else st
  }

  /** `add`: refuses a key that is already there. */
  function Add(cfg: Config, st: State, key: Addr, r: RoutePtr, now: int): State
    requires r in st.heap
  {
    if !cfg.caching || key in st.cache then st
    else st.(cache := st.cache[key := r], heap := st.heap[r := st.heap[r].(actTime := now, cached := true)])
  }

  lemma FindKeepsCore(cfg: Config, st: State, key: Addr, now: int)
    requires Core(st)
    ensures Core(Find(cfg, st, key, now).0)
    ensures var (st', r) := Find(cfg, st, key, now);
            && (r.Some? <==> key in st'.cache && cfg.caching)
            && (r.Some? ==> r.value in st'.heap && st'.heap[r.value] == st.heap[r.value]
                            && st'.cache[key] == r.value && st'.heap[r.value].cached)
  {
    if cfg.caching {
      SweepKeepsCore(cfg, st, now);
      var swept := Sweep(cfg, st, now);
      if key in st.cache && Stale(cfg, st.heap[st.cache[key]], now) {
        if key in swept.cache {
          DropAllKeepsCore(swept, {key});
        } else {
          SameCore(swept, DropAll(swept, {key}));
        }
      }
    }
  }

  /** A sweep frees stale routes only, and no entry that is not stale leaves the cache. */
  lemma SweepKeepsCore(cfg: Config, st: State, now: int)
    requires Core(st)
    ensures var st' := Sweep(cfg, st, now);
            && Core(st')
            && forall k :: k in st'.cache <==> k in st.cache && (now > st.chktime ==> k !in StaleKeys(cfg, st, now))
    ensures var st' := Sweep(cfg, st, now);
            forall k :: k in st'.cache ==> st'.cache[k] == st.cache[k] && st'.cache[k] in st'.heap
                                           && st'.heap[st'.cache[k]] == st.heap[st.cache[k]]
  {
    var timed := st.(chktime := now + 3600);
    SameCore(st, timed);
    DropAllKeepsCore(timed, StaleKeys(cfg, st, now));
  }

  /**
   A sweep comes at most once an hour. It then frees exactly the cached routes without channels
   whose timeout is over, erases exactly their entries, and leaves all else.
   */
  lemma SweepIsExact(cfg: Config, st: State, now: int)
    requires Core(st)
    ensures now <= st.chktime ==> Sweep(cfg, st, now) == st
    ensures now > st.chktime ==>
              var st' := Sweep(cfg, st, now);
              && st' == st.(chktime := now + 3600, cache := st'.cache, heap := st'.heap)
              && (forall k :: k in st'.cache <==> k in st.cache && !TimedOut(cfg, st.heap[st.cache[k]], now))
              && (forall r :: r in st'.heap <==> r in st.heap && !TimedOut(cfg, st.heap[r], now))
              && (forall k :: k in st'.cache ==> st'.cache[k] == st.cache[k])
              && (forall r :: r in st'.heap ==> st'.heap[r] == st.heap[r])
  {
    forall r | r in st.heap
      ensures st.heap[r].cached ==> st.heap[r].key in st.cache && st.cache[st.heap[r].key] == r
    {
      assert RouteOK(st, r);
    }
  }

  predicate TimedOut(cfg: Config, e: Route, now: int) {
    e.cached && e.numSlots == 0 && e.actTime + cfg.timeout < now
  }

  lemma RemoveKeepsCore(st: State, key: Addr)
    requires Core(st)
    ensures Core(Remove(st, key))
  {
    if Idle(st, key) {
      DropAllKeepsCore(st, {key});
    }
  }

  /** The invariant does not read the sweep time or the open sockets. */
  lemma SameCore(st: State, st': State)
    requires Core(st)
    requires st'.heap == st.heap && st'.next >= st.next && st'.cache == st.cache && st'.channels == st.channels
    requires st'.nextChan >= st.nextChan && st'.servers == st.servers && st'.clients == st.clients
    ensures Core(st')
  {
    assert forall r :: r in st.heap ==> RouteOK(st, r) ==> RouteOK(st', r);
    assert forall i :: 0 <= i < |st.channels| ==> ChannelOK(st, st.channels[i]) ==> ChannelOK(st', st'.channels[i]);
    assert forall s :: 0 <= s < |st.servers| ==> ServerSlotsOK(st, s) ==> ServerSlotsOK(st', s);
    assert forall k :: 0 <= k < |st.clients| ==> ClientSlotsOK(st, k) ==> ClientSlotsOK(st', k);
  }

  lemma AddKeepsCore(cfg: Config, st: State, key: Addr, r: RoutePtr, now: int)
    requires Core(st) && r in st.heap && !st.heap[r].cached && st.heap[r].key == key
    ensures Core(Add(cfg, st, key, r, now))
  {
    var st' := Add(cfg, st, key, r, now);
    forall q | q in st'.heap
      ensures RouteOK(st', q)
    {
      assert RouteOK(st, q);
    }
    assert forall i :: 0 <= i < |st.channels| ==> ChannelOK(st, st.channels[i]) ==> ChannelOK(st', st'.channels[i]);
    assert forall s :: 0 <= s < |st.servers| ==> ServerSlotsOK(st, s) ==> ServerSlotsOK(st', s);
    assert forall k :: 0 <= k < |st.clients| ==> ClientSlotsOK(st, k) ==> ClientSlotsOK(st', k);
  }

  // ---- attaching and destroying channels ----

  function BumpServer(servers: seq<Server>, s: int, n: int): seq<Server>
    requires 0 <= s < |servers|
  {
    servers[s := servers[s].(numSlots := n)]
  }

  function BumpClient(clients: seq<Client>, k: int, n: int): seq<Client>
    requires 0 <= k < |clients|
  {
    clients[k := clients[k].(numSlots := n)]
  }

  /** The channel constructor, on route `e` stored at `r`, followed by `add_channel`. */
  function Attach(st: State, r: RoutePtr, e: Route, src: Sock, dst: Sock, connTime: int, t: int,
                  selected: bool): (st': State)
    requires 0 <= e.server < |st.servers| && 0 <= e.client < |st.clients|
    ensures |st'.servers| == |st.servers| && |st'.clients| == |st.clients|
    ensures |st'.channels| == |st.channels| + 1
  {
    st.(heap := st.heap[r := e.(actTime := t, numSlots := e.numSlots + 1)],
        servers := BumpServer(st.servers, e.server, st.servers[e.server].numSlots + 1),
        clients := BumpClient(st.clients, e.client, st.clients[e.client].numSlots + 1),
        channels := st.channels
                    + [Channel(st.nextChan, r, src, dst, connTime, false, e.server, e.client, selected)],
        nextChan := st.nextChan + 1)
  }

  ghost predicate CanAttach(st: State, r: RoutePtr, e: Route, selected: bool) {
    && 0 <= e.server < |st.servers| && 0 <= e.client < |st.clients|
    && r < st.next
    && (if r in st.heap then e == st.heap[r] && e.cached else !e.cached && e.numSlots == 0)
    && (selected ==> st.servers[e.server].numSlots < st.servers[e.server].maxSlots
                     && st.clients[e.client].numSlots < st.clients[e.client].maxSlots)
  }

  lemma ChosenAtMostAll(chs: seq<Channel>, s: int, k: int)
    ensures Count(chs, ChosenServer(s)) <= Count(chs, OnServer(s))
    ensures Count(chs, ChosenClient(k)) <= Count(chs, OnClient(k))
  {
    if chs != [] {
      ChosenAtMostAll(chs[..|chs| - 1], s, k);
    }
  }

  lemma NextIsFree(st: State)
    requires RoutesOK(st)
    ensures st.next !in st.heap
  {
    assert st.next in st.heap ==> RouteOK(st, st.next);
  }

  lemma NoChannelOnFreed(st: State, r: RoutePtr)
    requires Core(st) && r !in st.heap
    ensures Count(st.channels, OnRoute(r)) == 0
  {
    forall i | 0 <= i < |st.channels|
      ensures st.channels[i].route != r
    {
      assert ChannelOK(st, st.channels[i]);
    }
    if Count(st.channels, OnRoute(r)) > 0 {
      var i := CountWitness(st.channels, OnRoute(r));
      assert false;
    }
  }

  lemma AttachKeepsServer(st: State, r: RoutePtr, e: Route, src: Sock, dst: Sock, connTime: int, t: int, selected: bool,
                          s: nat)
    requires s < |st.servers| && ServerSlotsOK(st, s) && CanAttach(st, r, e, selected)
    ensures ServerSlotsOK(Attach(st, r, e, src, dst, connTime, t, selected), s)
  {
    var c := Attach(st, r, e, src, dst, connTime, t, selected).channels[|st.channels|];
    CountAppend(st.channels, c, OnServer(s));
    CountAppend(st.channels, c, ChosenServer(s));
    ChosenAtMostAll(st.channels, s, 0);
  }

  lemma AttachKeepsClient(st: State, r: RoutePtr, e: Route, src: Sock, dst: Sock, connTime: int, t: int, selected: bool,
                          k: nat)
    requires k < |st.clients| && ClientSlotsOK(st, k) && CanAttach(st, r, e, selected)
    ensures ClientSlotsOK(Attach(st, r, e, src, dst, connTime, t, selected), k)
  {
    var c := Attach(st, r, e, src, dst, connTime, t, selected).channels[|st.channels|];
    CountAppend(st.channels, c, OnClient(k));
    CountAppend(st.channels, c, ChosenClient(k));
    ChosenAtMostAll(st.channels, 0, k);
  }

  lemma AttachKeepsSlots(st: State, r: RoutePtr, e: Route, src: Sock, dst: Sock, connTime: int, t: int, selected: bool)
    requires SlotsOK(st) && CanAttach(st, r, e, selected)
    ensures SlotsOK(Attach(st, r, e, src, dst, connTime, t, selected))
  {
    forall s | 0 <= s < |st.servers|
      ensures ServerSlotsOK(Attach(st, r, e, src, dst, connTime, t, selected), s)
    {
      AttachKeepsServer(st, r, e, src, dst, connTime, t, selected, s);
    }
    forall k | 0 <= k < |st.clients|
      ensures ClientSlotsOK(Attach(st, r, e, src, dst, connTime, t, selected), k)
    {
      AttachKeepsClient(st, r, e, src, dst, connTime, t, selected, k);
    }
  }

  lemma AttachKeepsRoutes(st: State, r: RoutePtr, e: Route, src: Sock, dst: Sock, connTime: int, t: int, selected: bool)
    requires Core(st) && CanAttach(st, r, e, selected)
    ensures RoutesOK(Attach(st, r, e, src, dst, connTime, t, selected))
  {
    var st' := Attach(st, r, e, src, dst, connTime, t, selected);
    var c := st'.channels[|st.channels|];
    if r !in st.heap {
      NoChannelOnFreed(st, r);
    }
    forall q | q in st'.heap
      ensures RouteOK(st', q)
    {
      assert q in st.heap ==> RouteOK(st, q);
      CountAppend(st.channels, c, OnRoute(q));
    }
  }

  lemma AttachKeepsChannels(st: State, r: RoutePtr, e: Route, src: Sock, dst: Sock, connTime: int, t: int,
                            selected: bool)
    requires Core(st) && CanAttach(st, r, e, selected)
    ensures var st' := Attach(st, r, e, src, dst, connTime, t, selected);
            ChannelsOK(st') && DistinctIds(st'.channels) && CacheOK(st')
  {
    var st' := Attach(st, r, e, src, dst, connTime, t, selected);
    forall i | 0 <= i < |st'.channels|
      ensures ChannelOK(st', st'.channels[i])
    {
      assert i < |st.channels| ==> ChannelOK(st, st.channels[i]);
    }
    assert forall i :: 0 <= i < |st.channels| ==> ChannelOK(st, st.channels[i]);
  }

  lemma AttachKeepsCore(st: State, r: RoutePtr, e: Route, src: Sock, dst: Sock, connTime: int, t: int, selected: bool)
    requires Core(st) && CanAttach(st, r, e, selected)
    ensures Core(Attach(st, r, e, src, dst, connTime, t, selected))
  {
    AttachKeepsSlots(st, r, e, src, dst, connTime, t, selected);
    AttachKeepsRoutes(st, r, e, src, dst, connTime, t, selected);
    AttachKeepsChannels(st, r, e, src, dst, connTime, t, selected);
  }

  /** The channel destructor, of a channel that has left the list. */
  function Release(st: State, c: Channel, t: int): State
    requires c.route in st.heap
    requires 0 <= st.heap[c.route].server < |st.servers| && 0 <= st.heap[c.route].client < |st.clients|
  {
    var e := st.heap[c.route];
    st.(heap := if !e.cached then st.heap - {c.route}
                else st.heap[c.route := e.(actTime := t, numSlots := Max0(e.numSlots - 1))],
        servers := BumpServer(st.servers, e.server, Max0(st.servers[e.server].numSlots - 1)),
        clients := BumpClient(st.clients, e.client, Max0(st.clients[e.client].numSlots - 1)),
        open := st.open - {c.source, c.target})
  }

  /** `del_channel`: the channel leaves the list and is destroyed. */
  function Destroy(st: State, i: nat, t: int): State
    requires i < |st.channels| && Core(st)
  {
    var c := st.channels[i];
    assert ChannelOK(st, c) && RouteOK(st, c.route);
    Release(st.(channels := RemoveAt(st.channels, i)), c, t)
  }

  /** The clamps of the destructor never cut anything off. */
  lemma ClampsNeverFire(st: State, i: nat)
    requires i < |st.channels| && Core(st)
    ensures var c := st.channels[i];
            && c.route in st.heap && st.heap[c.route].numSlots >= 1
            && 0 <= c.server < |st.servers| && st.servers[c.server].numSlots >= 1
            && 0 <= c.client < |st.clients| && st.clients[c.client].numSlots >= 1
  {
    var c := st.channels[i];
    assert ChannelOK(st, c) && RouteOK(st, c.route);
    assert ServerSlotsOK(st, c.server) && ClientSlotsOK(st, c.client);
    CountMember(st.channels, i, OnRoute(c.route));
    CountMember(st.channels, i, OnServer(c.server));
    CountMember(st.channels, i, OnClient(c.client));
  }

  lemma DestroyKeepsSlots(st: State, i: nat, t: int)
    requires i < |st.channels| && Core(st)
    ensures SlotsOK(Destroy(st, i, t))
  {
    var st' := Destroy(st, i, t);
    var c := st.channels[i];
    ClampsNeverFire(st, i);
    assert ChannelOK(st, c);
    forall s | 0 <= s < |st.servers|
      ensures ServerSlotsOK(st', s)
    {
      assert ServerSlotsOK(st, s);
      CountRemove(st.channels, i, OnServer(s));
      CountRemove(st.channels, i, ChosenServer(s));
    }
    forall k | 0 <= k < |st.clients|
      ensures ClientSlotsOK(st', k)
    {
      assert ClientSlotsOK(st, k);
      CountRemove(st.channels, i, OnClient(k));
      CountRemove(st.channels, i, ChosenClient(k));
    }
  }

  /** Only the destroyed channel could refer to the route that its destructor frees. */
  lemma UncachedHasOneChannel(st: State, i: nat, j: nat)
    requires i < |st.channels| && j < |st.channels| && i != j && Core(st)
    requires st.channels[i].route == st.channels[j].route
    ensures st.channels[i].route in st.heap && st.heap[st.channels[i].route].cached
  {
    var r := st.channels[i].route;
    assert ChannelOK(st, st.channels[i]) && RouteOK(st, r);
    CountRemove(st.channels, i, OnRoute(r));
    var j' := if j < i then j else j - 1;
    assert RemoveAt(st.channels, i)[j'] == st.channels[j];
    CountMember(RemoveAt(st.channels, i), j', OnRoute(r));
  }

  lemma DestroyKeepsRoutes(st: State, i: nat, t: int)
    requires i < |st.channels| && Core(st)
    ensures RoutesOK(Destroy(st, i, t)) && CacheOK(Destroy(st, i, t))
  {
    var st' := Destroy(st, i, t);
    ClampsNeverFire(st, i);
    assert ChannelOK(st, st.channels[i]) && RouteOK(st, st.channels[i].route);
    forall q | q in st'.heap
      ensures RouteOK(st', q)
    {
      assert RouteOK(st, q);
      CountRemove(st.channels, i, OnRoute(q));
    }
  }

  lemma OtherChannelStaysOK(st: State, i: nat, j: nat, t: int)
    requires i < |st.channels| && j < |st.channels| && i != j && Core(st)
    ensures ChannelOK(Destroy(st, i, t), st.channels[j])
  {
    assert ChannelOK(st, st.channels[j]);
    if st.channels[j].route == st.channels[i].route {
      UncachedHasOneChannel(st, i, j);
    }
  }

  lemma RemoveKeepsDistinct(chs: seq<Channel>, i: nat)
    requires i < |chs| && DistinctIds(chs)
    ensures DistinctIds(RemoveAt(chs, i))
  {
  }

  lemma DestroyKeepsChannels(st: State, i: nat, t: int)
    requires i < |st.channels| && Core(st)
    ensures ChannelsOK(Destroy(st, i, t)) && DistinctIds(Destroy(st, i, t).channels)
  {
    var st' := Destroy(st, i, t);
    RemoveKeepsDistinct(st.channels, i);
    forall j | 0 <= j < |st'.channels|
      ensures ChannelOK(st', st'.channels[j])
    {
      OtherChannelStaysOK(st, i, if j < i then j else j + 1, t);
    }
  }

  lemma DestroyKeepsCore(st: State, i: nat, t: int)
    requires i < |st.channels| && Core(st)
    ensures Core(Destroy(st, i, t))
  {
    DestroyKeepsSlots(st, i, t);
    DestroyKeepsRoutes(st, i, t);
    DestroyKeepsChannels(st, i, t);
  }

  // ---- changes that leave every counter alone ----

  /** Same channel up to the flags that the invariant does not read. */
  predicate SameTie(c: Channel, d: Channel) {
    && c.id == d.id && c.route == d.route && c.server == d.server && c.client == d.client
    && c.selected == d.selected
  }

  lemma TouchChannelKeepsCore(st: State, i: nat, c: Channel)
    requires Core(st) && i < |st.channels| && SameTie(st.channels[i], c)
    ensures Core(st.(channels := st.channels[i := c]))
  {
    var st' := st.(channels := st.channels[i := c]);
    forall r | r in st.heap
      ensures RouteOK(st', r)
    {
      assert RouteOK(st, r);
      CountUpdate(st.channels, i, c, OnRoute(r));
    }
    forall s | 0 <= s < |st.servers|
      ensures ServerSlotsOK(st', s)
    {
      assert ServerSlotsOK(st, s);
      CountUpdate(st.channels, i, c, OnServer(s));
      CountUpdate(st.channels, i, c, ChosenServer(s));
    }
    forall k | 0 <= k < |st.clients|
      ensures ClientSlotsOK(st', k)
    {
      assert ClientSlotsOK(st, k);
      CountUpdate(st.channels, i, c, OnClient(k));
      CountUpdate(st.channels, i, c, ChosenClient(k));
    }
    assert forall j :: 0 <= j < |st.channels| ==> ChannelOK(st, st.channels[j]) ==> ChannelOK(st', st'.channels[j]);
  }

  /** A server record may change in everything but its counter, configured limit and sound ranges. */
  lemma TouchServerKeepsCore(st: State, s: nat, v: Server)
    requires Core(st) && s < |st.servers|
    requires v.numSlots == st.servers[s].numSlots && v.confSlots == st.servers[s].confSlots && ServerOK(v)
    ensures Core(st.(servers := st.servers[s := v]))
  {
    var st' := st.(servers := st.servers[s := v]);
    assert forall r :: r in st.heap ==> RouteOK(st, r) ==> RouteOK(st', r);
    assert forall i :: 0 <= i < |st.channels| ==> ChannelOK(st, st.channels[i]) ==> ChannelOK(st', st'.channels[i]);
    assert forall q :: 0 <= q < |st.servers| ==> ServerSlotsOK(st, q) ==> ServerSlotsOK(st', q);
    assert forall k :: 0 <= k < |st.clients| ==> ClientSlotsOK(st, k) ==> ClientSlotsOK(st', k);
  }
}
