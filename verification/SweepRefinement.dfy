/**
 The hourly sweep cannot be observed: the proxy behaves as if its cache were a plain map in
 which an entry is seen exactly while it has active slots or its timeout has not passed.
 */
module SweepRefinement {
  import opened Seqs
  import opened Inet
  import opened Model
  import opened Selector
  import opened RouteTable
  import opened Steps
  import opened Runs

  /** What the proxy's clients, servers and sockets can tell. */
  predicate SameFront(st: State, pl: State) {
    && pl.channels == st.channels && pl.servers == st.servers && pl.clients == st.clients
    && pl.open == st.open && pl.next == st.next && pl.nextChan == st.nextChan
  }

  ghost predicate SameRoutes(st: State, pl: State) {
    forall r :: r in st.heap ==> r in pl.heap && pl.heap[r] == st.heap[r]
  }

  ghost predicate SameEntries(st: State, pl: State) {
    forall k :: k in st.cache ==> k in pl.cache && pl.cache[k] == st.cache[k]
  }

  /** What only the plain map still holds is out of date and was freed by the sweep. */
  ghost predicate RestIsStale(cfg: Config, st: State, pl: State, now: int) {
    forall k :: k in pl.cache && k !in st.cache ==>
      pl.cache[k] in pl.heap && pl.cache[k] !in st.heap && Stale(cfg, pl.heap[pl.cache[k]], now)
  }

  ghost predicate Sim(cfg: Config, st: State, pl: State, now: int) {
    SameFront(st, pl) && SameRoutes(st, pl) && SameEntries(st, pl) && RestIsStale(cfg, st, pl, now)
  }

  /** Time only makes stale entries staler. */
  lemma SimLater(cfg: Config, st: State, pl: State, now: int, later: int)
    requires Sim(cfg, st, pl, now) && now <= later
    ensures Sim(cfg, st, pl, later)
  {
  }

  /** Forgetting stale entries on one side only cannot be seen. */
  lemma SimDropStale(cfg: Config, st: State, pl: State, keys: set<Addr>, now: int)
    requires CacheOK(st) && CacheOK(pl) && Sim(cfg, st, pl, now)
    requires forall k <- keys :: k in st.cache ==> Stale(cfg, st.heap[st.cache[k]], now)
    ensures Sim(cfg, DropAll(st, keys), pl, now)
  {
    var st' := DropAll(st, keys);
    forall k | k in pl.cache && k !in st'.cache
      ensures pl.cache[k] in pl.heap && pl.cache[k] !in st'.heap && Stale(cfg, pl.heap[pl.cache[k]], now)
    {
      if k in st.cache {
        assert st.cache[k] == pl.cache[k] && k in keys;
      }
    }
  }

  lemma SameSweep(cfg: Config, st: State, pl: State, now: int)
    requires CacheOK(st) && CacheOK(pl) && Sim(cfg, st, pl, now)
    ensures Sim(cfg, Sweep(cfg, st, now), pl, now)
  {
    SimDropStale(cfg, st.(chktime := now + 3600), pl, StaleKeys(cfg, st, now), now);
  }

  /** `find` returns the same route as the plain map, whatever the sweep time. */
  lemma SameFind(cfg: Config, st: State, pl: State, key: Addr, now: int)
    requires Core(st) && Core(pl) && Sim(cfg, st, pl, now)
    ensures Lookup(Swept, cfg, st, key, now).1 == Lookup(Plain, cfg, pl, key, now).1
    ensures Sim(cfg, Lookup(Swept, cfg, st, key, now).0, Lookup(Plain, cfg, pl, key, now).0, now)
  {
    if cfg.caching {
      SameSweep(cfg, st, pl, now);
      SweepKeepsCore(cfg, st, now);
      if key in st.cache && Stale(cfg, st.heap[st.cache[key]], now) {
        SimDropStale(cfg, Sweep(cfg, st, now), pl, {key}, now);
      }
    }
  }

  lemma SameRemove(cfg: Config, st: State, pl: State, key: Addr, now: int)
    requires Core(st) && Core(pl) && Sim(cfg, st, pl, now)
    ensures Sim(cfg, Remove(st, key), Remove(pl, key), now)
    ensures key in Remove(st, key).cache ==> st.heap[Remove(st, key).cache[key]].numSlots != 0
    ensures Remove(st, key).heap.Keys <= st.heap.Keys
  {
    var st', pl' := Remove(st, key), Remove(pl, key);
    forall r | r in st'.heap
      ensures r in pl'.heap && pl'.heap[r] == st'.heap[r]
    {
      assert RouteOK(st, r) && RouteOK(pl, r);
    }
    forall k | k in pl'.cache && k !in st'.cache
      ensures pl'.cache[k] in pl'.heap && pl'.cache[k] !in st'.heap && Stale(cfg, pl'.heap[pl'.cache[k]], now)
    {
      assert pl.heap[pl.cache[k]].key == k;
    }
  }

  /** The new channel and its route are the same on both sides. */
  lemma SameFreshChannel(cfg: Config, st: State, pl: State, key: Addr, src: Sock, ch: Choice, dst: Sock, how: Attempt,
                         now: int)
    requires Core(st) && Core(pl) && Sim(cfg, st, pl, now)
    requires ch.server < |st.servers| && ch.client < |st.clients|
    ensures Sim(cfg, FreshChannel(st, key, src, ch, dst, how), FreshChannel(pl, key, src, ch, dst, how), now)
  {
    NextIsFree(st);
    NextIsFree(pl);
  }

  /** After a lookup that found nothing to use, `add` succeeds on one side iff it does on the other. */
  lemma SameInsert(cfg: Config, st: State, pl: State, key: Addr, r: RoutePtr, now: int)
    requires Core(st) && Core(pl) && Sim(cfg, st, pl, now)
    requires r in st.heap && !st.heap[r].cached && st.heap[r].key == key
    requires cfg.caching && key in st.cache ==> st.heap[st.cache[key]].numSlots != 0
    ensures Sim(cfg, Insert(Swept, cfg, st, key, r, now), Insert(Plain, cfg, pl, key, r, now), now)
  {
    if cfg.caching && key !in st.cache {
      var pl' := Insert(Plain, cfg, pl, key, r, now);
      var st' := Insert(Swept, cfg, st, key, r, now);
      if key in pl.cache {
        assert pl.cache[key] !in st.heap;
        assert pl' == Add(cfg, DropAll(pl, {key}), key, r, now);
      }
      forall k | k in pl'.cache && k !in st'.cache
        ensures pl'.cache[k] in pl'.heap && pl'.cache[k] !in st'.heap && Stale(cfg, pl'.heap[pl'.cache[k]], now)
      {
        assert pl.heap[pl.cache[k]].key == k;
      }
    } else if cfg.caching {
      assert pl.cache[key] == st.cache[key];
    }
  }

  lemma SameFresh(cfg: Config, st: State, pl: State, key: Addr, src: Sock, ch: Choice, how: Attempt)
    requires Core(st) && Core(pl) && Sim(cfg, st, pl, how.times.add) && how.outcome.Started?
    requires ChoiceOK(st, key, NIL, Some(ch)) && ChoiceOK(pl, key, NIL, Some(ch))
    requires cfg.caching && key in st.cache ==> st.heap[st.cache[key]].numSlots != 0
    ensures Sim(cfg, UseFresh(Swept, cfg, st, key, src, Some(ch), how),
                UseFresh(Plain, cfg, pl, key, src, Some(ch), how), how.times.add)
  {
    var dst, t := how.outcome.target, how.times.add;
    NextIsFree(st);
    FreshAttached(st, key, src, ch, dst, how);
    FreshAttached(pl, key, src, ch, dst, how);
    SameFreshChannel(cfg, st, pl, key, src, ch, dst, how, t);
    SameInsert(cfg, FreshChannel(st, key, src, ch, dst, how), FreshChannel(pl, key, src, ch, dst, how),
               key, st.next, t);
  }

  lemma SameUseFresh(cfg: Config, st: State, pl: State, key: Addr, src: Sock, choice: Option<Choice>, how: Attempt,
                     now: int)
    requires Core(st) && Core(pl) && Sim(cfg, st, pl, now)
    requires ChoiceOK(st, key, NIL, choice) && ChoiceOK(pl, key, NIL, choice)
    requires now <= how.times.add
    requires cfg.caching && key in st.cache ==> st.heap[st.cache[key]].numSlots != 0
    ensures Sim(cfg, UseFresh(Swept, cfg, st, key, src, choice, how), UseFresh(Plain, cfg, pl, key, src, choice, how),
                how.times.add)
  {
    SimLater(cfg, st, pl, now, how.times.add);
    if choice.Some? && how.outcome.Started? {
      SameFresh(cfg, st, pl, key, src, choice.value, how);
    }
  }

  lemma SameAttach(cfg: Config, st: State, pl: State, r: RoutePtr, src: Sock, dst: Sock, how: Attempt, now: int)
    requires Core(st) && Core(pl) && Sim(cfg, st, pl, now) && r in st.heap
    ensures r in pl.heap && RouteOK(st, r) && RouteOK(pl, r)
    ensures Sim(cfg, Attach(OpenSock(st, dst), r, st.heap[r], src, dst, how.loopNow, how.times.ctor, false),
                Attach(OpenSock(pl, dst), r, pl.heap[r], src, dst, how.loopNow, how.times.ctor, false), now)
  {
  }

  lemma SameUseCached(cfg: Config, st: State, pl: State, key: Addr, r: RoutePtr, src: Sock, how: Attempt, now: int)
    requires Core(st) && Core(pl) && Sim(cfg, st, pl, now) && r in st.heap && r in pl.heap
    ensures Sim(cfg, UseCached(st, key, r, src, how), UseCached(pl, key, r, src, how), now)
  {
    match how.outcome
    case Refused => SameRemove(cfg, st, pl, key, now);
    case Started(dst) => SameAttach(cfg, st, pl, r, src, dst, how, now);
  }

  lemma SameCreate(cfg: Config, st: State, pl: State, src: Sock, avoid: int, how: Attempt, now: int)
    requires Ready(cfg, st) && Ready(cfg, pl) && Sim(cfg, st, pl, now)
    requires now <= how.times.find <= how.times.add
    ensures Sim(cfg, Create(Swept, cfg, st, src, avoid, how), Create(Plain, cfg, pl, src, avoid, how), how.times.add)
  {
    SimLater(cfg, st, pl, now, how.times.add);
    if how.peer.Some? && !how.peer.value.Unknown? {
      var key, t := how.peer.value, how.times.find;
      SimLater(cfg, st, pl, now, t);
      SameFind(cfg, st, pl, key, t);
      LookupKeepsCore(Swept, cfg, st, key, t);
      LookupKeepsCore(Plain, cfg, pl, key, t);
      FindKeepsCore(cfg, st, key, t);
      var (st1, found) := Lookup(Swept, cfg, st, key, t);
      var pl1 := Lookup(Plain, cfg, pl, key, t).0;
      if found.None? {
        SameUseFreshAny(cfg, st1, pl1, key, src, avoid, how, t);
      } else if st1.heap[found.value].server != avoid {
        SameUseCached(cfg, st1, pl1, key, found.value, src, how, t);
        SimLater(cfg, UseCached(st1, key, found.value, src, how), UseCached(pl1, key, found.value, src, how),
                 t, how.times.add);
      } else {
        RemoveKeepsCore(st1, key);
        RemoveKeepsCore(pl1, key);
        SameRemove(cfg, st1, pl1, key, t);
        SameUseFreshAny(cfg, Remove(st1, key), Remove(pl1, key), key, src, avoid, how, t);
      }
    }
  }

  lemma SameUseFreshAny(cfg: Config, st: State, pl: State, key: Addr, src: Sock, avoid: int, how: Attempt, now: int)
    requires Ready(cfg, st) && Ready(cfg, pl) && Sim(cfg, st, pl, now) && now <= how.times.add
    requires cfg.caching && key in st.cache ==> st.heap[st.cache[key]].numSlots != 0
    ensures Chosen(cfg, st, key, avoid) == Chosen(cfg, pl, key, avoid)
    ensures Sim(cfg, UseFresh(Swept, cfg, st, key, src, Chosen(cfg, st, key, avoid), how),
                UseFresh(Plain, cfg, pl, key, src, Chosen(cfg, pl, key, avoid), how), how.times.add)
  {
    SameUseFresh(cfg, st, pl, key, src, Chosen(cfg, st, key, avoid), how, now);
  }

  lemma SameDestroy(cfg: Config, st: State, pl: State, i: nat, now: int, t: int)
    requires Core(st) && Core(pl) && Sim(cfg, st, pl, now) && now <= t && i < |st.channels|
    ensures Sim(cfg, Destroy(st, i, t), Destroy(pl, i, t), t)
  {
    var c := st.channels[i];
    assert ChannelOK(st, c) && ChannelOK(pl, c);
    assert RouteOK(st, c.route) && RouteOK(pl, c.route);
  }

  lemma SameTouch(cfg: Config, st: State, pl: State, st': State, pl': State, now: int)
    requires Sim(cfg, st, pl, now) && SameFront(st', pl')
    requires st'.heap == st.heap && st'.cache == st.cache && pl'.heap == pl.heap && pl'.cache == pl.cache
    ensures Sim(cfg, st', pl', now)
  {
  }

  lemma SameFailover(cfg: Config, st: State, pl: State, i: nat, how: Attempt, gone: int, now: int)
    requires Ready(cfg, st) && Ready(cfg, pl) && Sim(cfg, st, pl, now) && i < |st.channels|
    requires now <= how.times.find <= how.times.add <= gone
    ensures Sim(cfg, FailoverAt(Swept, cfg, st, i, how, gone), FailoverAt(Plain, cfg, pl, i, how, gone), gone)
  {
    var c := st.channels[i];
    AfterFaultReady(cfg, st, i);
    AfterFaultReady(cfg, pl, i);
    var st1, pl1 := AfterFault(cfg, st, i), AfterFault(cfg, pl, i);
    SameTouch(cfg, st, pl, st1, pl1, now);
    SameCreate(cfg, st1, pl1, c.source, c.server, how, now);
    ReplacedKeepsCore(Swept, cfg, st, i, how);
    ReplacedKeepsCore(Plain, cfg, pl, i, how);
    var st3, pl3 := Replaced(Swept, cfg, st, i, how), Replaced(Plain, cfg, pl, i, how);
    CreateShape(Swept, cfg, st1, c.source, c.server, how);
    SameTouch(cfg, Create(Swept, cfg, st1, c.source, c.server, how), Create(Plain, cfg, pl1, c.source, c.server, how),
              st3, pl3, how.times.add);
    SameDestroy(cfg, st3, pl3, i, how.times.add, gone);
  }

  /** One step on both sides keeps the two proxies in step. */
  lemma SameStep(cfg: Config, st: State, pl: State, clock: int, ev: Event)
    requires Inv(cfg, st) && Inv(cfg, pl) && Sim(cfg, st, pl, clock) && Enabled(cfg, st, clock, ev)
    ensures Refers(pl, ev)
    ensures Sim(cfg, Step(Swept, cfg, st, ev), Step(Plain, cfg, pl, ev), EndTime(ev, clock))
  {
    match ev
    case Accept(src, how) =>
      SameCore(st, OpenSock(st, src));
      SameCore(pl, OpenSock(pl, src));
      SameTouch(cfg, st, pl, OpenSock(st, src), OpenSock(pl, src), clock);
      SameCreate(cfg, OpenSock(st, src), OpenSock(pl, src), src, NIL, how, clock);
    case Failover(id, how, gone) => SameFailover(cfg, st, pl, IndexOf(st.channels, id), how, gone, clock);
    case Close(id, gone) => SameDestroy(cfg, st, pl, IndexOf(st.channels, id), clock, gone);
    case Connect(id) =>
      var i := IndexOf(st.channels, id);
      ChannelServerInRange(st, i);
      SameTouch(cfg, st, pl, ConnectAt(st, i), ConnectAt(pl, i), clock);
    case Activate(s) => SameTouch(cfg, st, pl, Step(Swept, cfg, st, ev), Step(Plain, cfg, pl, ev), clock);
    case Deactivate(s) => SameTouch(cfg, st, pl, Step(Swept, cfg, st, ev), Step(Plain, cfg, pl, ev), clock);
    case Report(s, _, _, _, _, _, _) =>
      SameTouch(cfg, st, pl, Step(Swept, cfg, st, ev), Step(Plain, cfg, pl, ev), clock);
  }

  lemma SameEnabled(cfg: Config, st: State, pl: State, clock: int, ev: Event)
    requires Inv(cfg, st) && Inv(cfg, pl) && Sim(cfg, st, pl, clock)
    ensures Enabled(cfg, st, clock, ev) <==> Enabled(cfg, pl, clock, ev)
  {
    if ev.Failover? && Live(st, ev.chan) {
      var c := st.channels[IndexOf(st.channels, ev.chan)];
      assert ChannelOK(st, c) && ChannelOK(pl, c);
    }
  }

  lemma {:induction false} SameRuns(cfg: Config, st: State, pl: State, clock: int, evs: seq<Event>)
    requires Inv(cfg, st) && Inv(cfg, pl) && Sim(cfg, st, pl, clock)
    ensures IsRun(Swept, cfg, st, clock, evs) <==> IsRun(Plain, cfg, pl, clock, evs)
    decreases |evs|
  {
    if evs != [] {
      var ev := evs[0];
      SameEnabled(cfg, st, pl, clock, ev);
      if Enabled(cfg, st, clock, ev) {
        StepKeepsInv(Swept, cfg, st, clock, ev);
        StepKeepsInv(Plain, cfg, pl, clock, ev);
        SameStep(cfg, st, pl, clock, ev);
        SameRuns(cfg, Step(Swept, cfg, st, ev), Step(Plain, cfg, pl, ev), EndTime(ev, clock), evs[1..]);
      }
    }
  }

  lemma {:induction false} RunsInStep(cfg: Config, st: State, pl: State, clock: int, evs: seq<Event>)
    requires Inv(cfg, st) && Inv(cfg, pl) && Sim(cfg, st, pl, clock)
    requires IsRun(Swept, cfg, st, clock, evs) && IsRun(Plain, cfg, pl, clock, evs)
    ensures Sim(cfg, Exec(Swept, cfg, st, clock, evs), Exec(Plain, cfg, pl, clock, evs), EndClock(clock, evs))
    decreases |evs|
  {
    if evs != [] {
      var ev := evs[0];
      StepKeepsInv(Swept, cfg, st, clock, ev);
      StepKeepsInv(Plain, cfg, pl, clock, ev);
      SameStep(cfg, st, pl, clock, ev);
      RunsInStep(cfg, Step(Swept, cfg, st, ev), Step(Plain, cfg, pl, ev), EndTime(ev, clock), evs[1..]);
    }
  }

  /**
   From the same configuration, with any values in the sweep times, the proxy and its plain-map
   twin can make the same runs, and these end with the same channels over the same routes, the
   same counters, fault counts and open sockets.
   */
  lemma SweepIsUnobservable(cfg: Config, st: State, pl: State, clock: int, evs: seq<Event>)
    requires Initial(cfg, st) && pl == st.(chktime := pl.chktime) && Inv(cfg, st) && Inv(cfg, pl)
    ensures IsRun(Swept, cfg, st, clock, evs) <==> IsRun(Plain, cfg, pl, clock, evs)
    ensures IsRun(Swept, cfg, st, clock, evs) ==>
              var x, y := Exec(Swept, cfg, st, clock, evs), Exec(Plain, cfg, pl, clock, evs);
              && SameFront(x, y)
              && forall c <- x.channels :: c.route in x.heap && c.route in y.heap && x.heap[c.route] == y.heap[c.route]
  {
    SameRuns(cfg, st, pl, clock, evs);
    if IsRun(Swept, cfg, st, clock, evs) {
      RunsInStep(cfg, st, pl, clock, evs);
      RunKeepsInv(Swept, cfg, st, clock, evs);
      var x := Exec(Swept, cfg, st, clock, evs);
      forall c <- x.channels
        ensures c.route in x.heap
      {
        LiveChannelOK(x, c);
      }
    }
  }

  /**
   When the last channel on a cached route ends at time `t`, the route is found until `timeout`
   seconds later and not after that, whether or not a sweep comes in between.
   */
  lemma CachedRouteLifetime(cfg: Config, st: State, i: nat, t: int, now: int)
    requires Core(st) && cfg.caching && i < |st.channels|
    requires st.channels[i].route in st.heap && st.heap[st.channels[i].route].cached
    requires Count(st.channels, OnRoute(st.channels[i].route)) == 1
    ensures CacheOK(Destroy(st, i, t))
    ensures var r := st.channels[i].route;
            var found := Find(cfg, Destroy(st, i, t), st.heap[r].key, now).1;
            found == if now <= t + cfg.timeout then Some(r) else None
  {
    assert ChannelOK(st, st.channels[i]) && RouteOK(st, st.channels[i].route);
    DestroyKeepsCore(st, i, t);
  }

  /** While a channel on a cached route is live, the route is found at any time. */
  lemma BusyRouteIsFound(cfg: Config, st: State, i: nat, now: int)
    requires Core(st) && cfg.caching && i < |st.channels|
    requires st.channels[i].route in st.heap && st.heap[st.channels[i].route].cached
    ensures Find(cfg, st, st.heap[st.channels[i].route].key, now).1 == Some(st.channels[i].route)
  {
    assert RouteOK(st, st.channels[i].route);
    CountMember(st.channels, i, OnRoute(st.channels[i].route));
  }
}
