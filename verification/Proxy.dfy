/**
 The proxy object. Its fields are the source's global proxy and cache objects, with the heap
 of routes made explicit; its methods follow the source statement by statement and are proved
 to make exactly the steps of module Steps.
 */
module Proxy {
  import opened Seqs
  import opened Inet
  import opened Model
  import opened Selector
  import opened RouteTable
  import opened Steps
  import opened Runs
  import opened FailoverBound

  class ProxyServer {
    const cfg: Config
    var heap: map<RoutePtr, Route>
    var next: RoutePtr
    var cache: map<Addr, RoutePtr>
    var chktime: int
    var channels: seq<Channel>
    var nextChan: ChanPtr
    var servers: seq<Server>
    var clients: seq<Client>
    var open: set<Sock>

    function View(): State
      reads this
    {
      State(heap, next, cache, chktime, channels, nextChan, servers, clients, open)
    }

    constructor (cfg: Config, servers: seq<Server>, clients: seq<Client>, junk: int)
      requires ConfigOK(cfg, |servers|, |clients|)
      requires forall s <- servers :: ServerOK(s) && s.numSlots == 0 && s.faults == 0
      requires forall k <- clients :: k.numSlots == 0
      ensures this.cfg == cfg && this.servers == servers && this.clients == clients
      ensures Initial(cfg, View()) && Inv(cfg, View())
    {
      this.cfg, this.servers, this.clients := cfg, servers, clients;
      heap, next, cache, chktime := map[], 0, map[], junk;
      channels, nextChan, open := [], 1, {};
      new;
      InitialInv(cfg, View());
    }

    // ---- sockets and memory ----

    /** `nrdpx_socket_close`: a handle that is given must still be open. */
    method CloseSocket(h: Sock)
      requires h == NOSOCK || h in open
      modifies this`open
      ensures open == if h == NOSOCK then old(open) else old(open) - {h}
    {
      if h != NOSOCK {
        open := open - {h};
      }
    }

    /** `new nrdpx_route_t`. */
    method NewRoute(key: Addr) returns (r: RoutePtr)
      modifies this`heap, this`next
      ensures r == old(next) && next == old(next) + 1
      ensures heap == old(heap)[r := Route(key, NIL, NIL, NIL, false, 0, 0)]
    {
      r := next;
      next := next + 1;
      heap := heap[r := Route(key, NIL, NIL, NIL, false, 0, 0)];
    }

    /** `delete route`: only a live pointer may be deleted. */
    method DeleteRoute(r: RoutePtr)
      requires r in heap
      modifies this`heap
      ensures heap == old(heap) - {r}
    {
      heap := heap - {r};
    }

    // ---- the cache ----

    /** The first loop of the sweep: it deletes stale routes and notes their keys, which stay in the map. */
    method DeleteStale(now: int) returns (keys: seq<Addr>)
      requires Core(View())
      modifies this`heap
      ensures var gone := StaleKeys(cfg, old(View()), now);
              && (forall k :: k in keys <==> k in gone)
              && heap == old(heap) - set k | k in gone && k in cache :: cache[k]
    {
      keys := [];
      ghost var st := View();
      ghost var gone := StaleKeys(cfg, st, now);
      var todo := cache.Keys;
      while todo != {}
        invariant todo <= cache.Keys
        invariant forall k :: k in keys <==> k in gone && k !in todo
        invariant heap == old(heap) - set k | k in gone && k !in todo && k in cache :: cache[k]
        decreases todo
      {
        var k :| k in todo;
        assert st.heap[st.cache[k]].key == k;
        assert cache[k] in heap by {
          assert forall j :: j in cache ==> st.heap[st.cache[j]].key == j;
        }
        if heap[cache[k]].numSlots == 0 && now > heap[cache[k]].actTime + cfg.timeout {
          DeleteRoute(cache[k]);
          keys := keys + [k];
        }
        todo := todo - {k};
      }
    }

    /** The second loop of the sweep. */
    method EraseKeys(keys: seq<Addr>)
      modifies this`cache
      ensures cache == old(cache) - set k | k in keys
    {
      for i := 0 to |keys|
        invariant cache == old(cache) - set k | k in keys[..i]
      {
        cache := cache - {keys[i]};
      }
      assert keys[..|keys|] == keys;
    }

    /** The hourly sweep at the head of `find`. */
    method Sweep(now: int)
      requires Core(View())
      modifies this`heap, this`cache, this`chktime
      ensures View() == RouteTable.Sweep(cfg, old(View()), now)
    {
      ghost var st := View();
      if now > chktime {
        chktime := now + 3600;
        SameCore(st, View());
        var keys := DeleteStale(now);
        EraseKeys(keys);
        assert (set k | k in keys) == StaleKeys(cfg, st, now);
      }
    }

    /** `delete it->second` and `erase(it)`. */
    method DropEntry(key: Addr)
      requires key in cache && cache[key] in heap
      modifies this`heap, this`cache
      ensures View() == DropAll(old(View()), {key})
    {
      assert (set k | k in {key} && k in cache :: cache[k]) == {cache[key]};
      DeleteRoute(cache[key]);
      cache := cache - {key};
    }

    method Find(key: Addr, now: int) returns (r: Option<RoutePtr>)
      requires Core(View())
      modifies this`heap, this`cache, this`chktime
      ensures (View(), r) == RouteTable.Find(cfg, old(View()), key, now)
    {
      if !cfg.caching {
        return None;
      }
      SweepKeepsCore(cfg, View(), now);
      Sweep(now);
      ghost var swept := View();
      if key !in cache {
        assert DropAll(swept, {key}) == swept;
        return None;
      }
      if heap[cache[key]].numSlots == 0 && now > heap[cache[key]].actTime + cfg.timeout {
        DropEntry(key);
        return None;
      }
      r := Some(cache[key]);
    }

    method Add(key: Addr, r: RoutePtr, now: int) returns (ok: bool)
      requires r in heap
      modifies this`heap, this`cache
      ensures View() == RouteTable.Add(cfg, old(View()), key, r, now)
      ensures ok == (cfg.caching && key !in old(cache))
    {
      if !cfg.caching || key in cache {
        return false;
      }
      cache := cache[key := r];
      heap := heap[r := heap[r].(actTime := now)];
      heap := heap[r := heap[r].(cached := true)];
      return true;
    }

    method Remove(key: Addr)
      requires CacheOK(View())
      modifies this`heap, this`cache
      ensures View() == RouteTable.Remove(old(View()), key)
    {
      if key in cache && heap[cache[key]].numSlots == 0 {
        DropEntry(key);
      }
    }

    // ---- channels ----

    /** The channel constructor: it raises the three counters but does not enter the list. */
    method NewChannel(src: Sock, dst: Sock, r: RoutePtr, now: int, t: int, selected: bool) returns (c: Channel)
      requires r in heap && 0 <= heap[r].server < |servers| && 0 <= heap[r].client < |clients|
      modifies this`heap, this`nextChan, this`servers, this`clients
      ensures View().(channels := channels + [c])
              == Attach(old(View()), r, old(heap)[r], src, dst, now, t, selected)
      ensures channels == old(channels)
    {
      c := Channel(nextChan, r, src, dst, now, false, heap[r].server, heap[r].client, selected);
      nextChan := nextChan + 1;
      heap := heap[r := heap[r].(actTime := t)];
      heap := heap[r := heap[r].(numSlots := heap[r].numSlots + 1)];
      var k, s := heap[r].client, heap[r].server;
      clients := clients[k := clients[k].(numSlots := clients[k].numSlots + 1)];
      servers := servers[s := servers[s].(numSlots := servers[s].numSlots + 1)];
    }

    /** The channel destructor: close both sockets, lower the counters, free a route that nobody shares. */
    method DestroyChannel(c: Channel, t: int)
      requires c.route in heap && 0 <= heap[c.route].server < |servers| && 0 <= heap[c.route].client < |clients|
      requires NOSOCK !in open
      requires c.source == NOSOCK || c.source in open
      requires c.target == NOSOCK || (c.target in open && c.target != c.source)
      modifies this`heap, this`servers, this`clients, this`open
      ensures View() == Release(old(View()), c, t)
    {
      CloseSocket(c.source);
      CloseSocket(c.target);
      assert open == old(open) - {c.source, c.target};
      var k, s := heap[c.route].client, heap[c.route].server;
      clients := clients[k := clients[k].(numSlots := Max0(clients[k].numSlots - 1))];
      servers := servers[s := servers[s].(numSlots := Max0(servers[s].numSlots - 1))];
      if !heap[c.route].cached {
        DeleteRoute(c.route);
      } else {
        heap := heap[c.route := heap[c.route].(actTime := t)];
        heap := heap[c.route := heap[c.route].(numSlots := Max0(heap[c.route].numSlots - 1))];
      }
    }

    method SearchChannel(id: ChanPtr) returns (i: nat)
      ensures i == IndexOf(channels, id)
    {
      i := 0;
      while i < |channels| && channels[i].id != id
        invariant 0 <= i <= |channels|
        invariant forall j :: 0 <= j < i ==> channels[j].id != id
      {
        i := i + 1;
      }
    }

    /** `del_channel`: search by identity, erase, destroy. */
    method DeleteChannel(id: ChanPtr, t: int)
      requires Core(View()) && NOSOCK !in open
      requires Live(View(), id) ==>
                 var c := channels[IndexOf(channels, id)];
                 && (c.source == NOSOCK || c.source in open)
                 && (c.target == NOSOCK || (c.target in open && c.target != c.source))
      modifies this
      ensures View() == if old(Live(View(), id)) then Destroy(old(View()), old(IndexOf(channels, id)), t)
                        else old(View())
    {
      ghost var st := View();
      var i := SearchChannel(id);
      if i < |channels| {
        var c := channels[i];
        assert ChannelOK(st, c) && RouteOK(st, c.route);
        channels := RemoveAt(channels, i);
        DestroyChannel(c, t);
      }
    }

    /** The balancer walk fills in the new route, whose fields stay null when nothing fits. */
    method FillRoute(r: RoutePtr, avoid: int)
      requires r in heap
      requires heap[r].balancer == NIL && heap[r].client == NIL && heap[r].server == NIL
      requires ServersOK(servers) && ConfigOK(cfg, |servers|, |clients|)
      modifies this`heap
      ensures match Choose(cfg.balancers, servers, clients, old(heap)[r].key, avoid)
              case None =>
                && r in heap && heap - {r} == old(heap) - {r} && !heap[r].cached == !old(heap)[r].cached
                && (heap[r].balancer == NIL || heap[r].client == NIL || heap[r].server == NIL)
              case Some(ch) =>
                heap == old(heap)[r := old(heap)[r].(balancer := ch.balancer, client := ch.client, server := ch.server)]
    {
      var b, k, s := FindRoute(cfg.balancers, servers, clients, heap[r].key, avoid);
      heap := heap[r := heap[r].(balancer := b, client := k, server := s)];
    }

    /** A channel over a route that is not in the cache yet, which is then offered to the cache. */
    method OpenOnFresh(key: Addr, src: Sock, dst: Sock, r: RoutePtr, how: Attempt)
      requires r in heap && 0 <= heap[r].server < |servers| && 0 <= heap[r].client < |clients|
      requires !heap[r].cached
      modifies this
      ensures View() == RouteTable.Add(cfg,
                          Attach(OpenSock(old(View()), dst), r, old(heap)[r], src, dst, how.loopNow, how.times.ctor,
                                 true),
                          key, r, how.times.add)
    {
      open := open + {dst};
      var c := NewChannel(src, dst, r, how.loopNow, how.times.ctor, true);
      if !heap[r].cached {
        var _ := Add(key, r, how.times.add);
      }
      channels := channels + [c];
    }

    /** The same, on the route that was filled in for choice `ch` after state `st`. */
    method OpenChosen(ghost st: State, key: Addr, src: Sock, ghost ch: Choice, r: RoutePtr, how: Attempt)
      requires Core(st) && ChoiceOK(st, key, NIL, Some(ch)) && how.outcome.Started? && r == st.next
      requires View() == st.(next := st.next + 1, heap := st.heap[r := FreshRoute(key, ch)])
      modifies this
      ensures View() == UseFresh(Swept, cfg, st, key, src, Some(ch), how)
    {
      var dst := how.outcome.target;
      AttachIgnoresOld(OpenSock(st.(next := st.next + 1), dst), OpenSock(View(), dst), r, FreshRoute(key, ch), src,
                       how);
      FreshAttached(st, key, src, ch, dst, how);
      OpenOnFresh(key, src, dst, r, how);
    }

    /** The rest of creation on a route that is not in the cache. */
    method CreateOnFresh(key: Addr, src: Sock, avoid: int, how: Attempt) returns (made: bool)
      requires Ready(cfg, View()) && src in open
      requires src != NOSOCK
      modifies this
      ensures View() == UseFresh(Swept, cfg, old(View()), key, src, Chosen(cfg, old(View()), key, avoid), how)
    {
      ghost var st := View();
      CoreServersOK(st);
      NextIsFree(st);
      ghost var choice := Chosen(cfg, st, key, avoid);
      var r := NewRoute(key);
      FillRoute(r, avoid);
      if heap[r].balancer == NIL || heap[r].client == NIL || heap[r].server == NIL || how.outcome.Refused? {
        CloseSocket(src);
        DeleteRoute(r);
        AddedAndDeleted(st.heap, r, Route(key, NIL, NIL, NIL, false, 0, 0));
        made := false;
      } else {
        assert heap == st.heap[r := FreshRoute(key, choice.value)];
        OpenChosen(st, key, src, choice.value, r, how);
        made := true;
      }
    }

    /** `nrdpx_channel_create`. */
    method CreateChannel(src: Sock, avoid: int, how: Attempt) returns (made: bool)
      requires Ready(cfg, View()) && src in open && src != NOSOCK
      modifies this
      ensures View() == Create(Swept, cfg, old(View()), src, avoid, how)
    {
      ghost var st := View();
      if how.peer.None? || how.peer.value.Unknown? {
        CloseSocket(src);
        return false;
      }
      var key := how.peer.value;
      LookupKeepsCore(Swept, cfg, st, key, how.times.find);
      var route := Find(key, how.times.find);
      ghost var st1 := View();
      if route.Some? && heap[route.value].server == avoid {
        RemoveKeepsCore(st1, key);
        Remove(key);
        route := None;
      }
      if route.None? {
        made := CreateOnFresh(key, src, avoid, how);
      } else if how.outcome.Refused? {
        CloseSocket(src);
        Remove(key);
        made := false;
      } else {
        var dst := how.outcome.target;
        assert RouteOK(st1, route.value);
        open := open + {dst};
        var c := NewChannel(src, dst, route.value, how.loopNow, how.times.ctor, false);
        channels := channels + [c];
        made := true;
      }
    }

    /** A listener accepted `src`. */
    method Accept(src: Sock, how: Attempt, ghost clock: int) returns (made: bool)
      requires Inv(cfg, View()) && Enabled(cfg, View(), clock, Event.Accept(src, how))
      modifies this
      ensures View() == Step(Swept, cfg, old(View()), Event.Accept(src, how)) && Inv(cfg, View())
    {
      StepKeepsInv(Swept, cfg, View(), clock, Event.Accept(src, how));
      SameCore(View(), OpenSock(View(), src));
      open := open + {src};
      made := CreateChannel(src, NIL, how);
    }

    // ---- servers ----

    method DeactivateServer(s: int)
      requires 0 <= s < |servers|
      modifies this`servers
      ensures View() == SetServer(old(View()), s, Deactivated(old(servers)[s]))
    {
      servers := servers[s := servers[s].(active := false)];
      servers := servers[s := servers[s].(users := 0)];
      servers := servers[s := servers[s].(memFree := None)];
      servers := servers[s := servers[s].(cpuFree := None)];
      servers := servers[s := servers[s].(faults := 0)];
    }

    method ActivateServer(s: int)
      requires 0 <= s < |servers|
      modifies this`servers
      ensures View() == SetServer(old(View()), s, old(servers)[s].(active := true))
    {
      servers := servers[s := servers[s].(active := true)];
    }

    /** The tracker's update of one server from a report: its info is replaced, and SYNC may lower its limit. */
    method ReportServer(ev: Event)
      requires ev.Report? && ev.server < |servers|
      modifies this`servers
      ensures View() == SetServer(old(View()), ev.server, Reported(old(servers)[ev.server], ev))
    {
      var s := ev.server;
      servers := servers[s := servers[s].(active := ev.active)];
      servers := servers[s := servers[s].(users := ev.users)];
      servers := servers[s := servers[s].(userMax := ev.cmax)];
      servers := servers[s := servers[s].(memFree := ev.memFree)];
      servers := servers[s := servers[s].(cpuFree := ev.cpuFree)];
      if ev.sync && servers[s].userMax != 0 && servers[s].userMax < servers[s].maxSlots {
        servers := servers[s := servers[s].(maxSlots := servers[s].userMax)];
      }
    }

    /** A callback of the tracker, as one step of a run. */
    method TrackerStep(ev: Event, ghost clock: int)
      requires Inv(cfg, View()) && FromTracker(ev) && ev.server < |servers|
      modifies this`servers
      ensures Leads(cfg, old(View()), clock, [ev], View(), clock)
    {
      StepLeads(cfg, View(), clock, ev);
      match ev
      case Activate(s) => ActivateServer(s);
      case Deactivate(s) => DeactivateServer(s);
      case Report(_, _, _, _, _, _, _) => ReportServer(ev);
    }

    method SetConnected(i: nat)
      requires Core(View()) && i < |channels|
      modifies this`channels, this`servers
      ensures View() == if old(channels)[i].connected then old(View()) else ConnectAt(old(View()), i)
    {
      if channels[i].connected {
        return;
      }
      ChannelServerInRange(View(), i);
      channels := channels[i := channels[i].(connected := true)];
      var s := channels[i].server;
      servers := servers[s := servers[s].(faults := 0)];
    }

    // ---- the channel loop ----

    /** Counting the fault, and switching the server off at the limit. */
    method CountFault(i: nat)
      requires Ready(cfg, View()) && i < |channels|
      modifies this`servers
      ensures View() == AfterFault(cfg, old(View()), i)
    {
      ChannelServerInRange(View(), i);
      var s := channels[i].server;
      servers := servers[s := servers[s].(faults := servers[s].faults + 1)];
      if servers[s].faults >= cfg.maxFaults {
        DeactivateServer(s);
      }
    }

    /** The failure branch of the loop: count the fault, try another server, drop the failed channel. */
    method FailOver(i: nat, how: Attempt, gone: int)
      requires Ready(cfg, View()) && SocksOK(channels, open) && i < |channels|
      requires how.outcome.Started? ==> FreshHandle(View(), how.outcome.target)
      modifies this
      ensures View() == FailoverAt(Swept, cfg, old(View()), i, how, gone)
    {
      ghost var st := View();
      var chn := channels[i];
      RemoveSocks(channels, open, i);
      AfterFaultReady(cfg, st, i);
      CountFault(i);
      CreateShape(Swept, cfg, AfterFault(cfg, st, i), chn.source, chn.server, how);
      var _ := CreateChannel(chn.source, chn.server, how);
      channels := channels[i := chn.(source := NOSOCK)];
      ReplacedKeepsCore(Swept, cfg, st, i, how);
      assert View() == Replaced(Swept, cfg, st, i, how);
      IndexIsUnique(channels, i);
      DeleteChannel(chn.id, gone);
    }

    /** What the operating system says about an attempt to connect: anything that is possible; `now` is the loop's. */
    method AskSystem(i: nat, now: int, clock: int) returns (how: Attempt, gone: int)
      requires i < |channels| && channels[i].route in heap
      ensures AttemptOK(View(), clock, how) && how.times.add <= gone && how.loopNow == now
      ensures how.peer.Some? ==> how.peer.value == heap[channels[i].route].key
    {
      how, gone := *, *;
      if !(AttemptOK(View(), clock, how) && how.times.add <= gone && how.loopNow == now
           && (how.peer.Some? ==> how.peer.value == heap[channels[i].route].key)) {
        how, gone := Attempt(None, now, Times(clock, clock, clock), Refused), clock;
      }
    }

    /** The failure branch, as one step of a run. */
    method FailBranch(i: nat, now: int, clock: int) returns (time: int, ghost ev: Event)
      requires Inv(cfg, View()) && i < |channels| && !channels[i].connected
      modifies this
      ensures Leads(cfg, old(View()), clock, [ev], View(), time)
      ensures Advanced(cfg, old(View()), i, View(), i)
      ensures ev.Failover? && ev.chan == old(channels)[i].id && ev.how.loopNow == now
    {
      ghost var st := View();
      var chn := channels[i];
      assert ChannelOK(st, chn);
      var how, gone := AskSystem(i, now, clock);
      IndexIsUnique(channels, i);
      ev := Failover(chn.id, how, gone);
      StepLeads(cfg, st, clock, ev);
      FailoverProgress(Swept, cfg, st, i, how, gone);
      FailoverHasShape(Swept, cfg, st, i, how, gone);
      FailOver(i, how, gone);
      time := gone;
      FailoverIds(st, View(), i, how);
    }

    /** The target answered: the channel counts as connected. */
    method ConnectStep(i: nat, clock: int) returns (ghost ev: Event)
      requires Inv(cfg, View()) && i < |channels| && !channels[i].connected
      modifies this
      ensures Leads(cfg, old(View()), clock, [ev], View(), clock)
      ensures Advanced(cfg, old(View()), i, View(), i + 1)
      ensures nextChan == old(nextChan) && |channels| == |old(channels)|
      ensures channels[i + 1..] == old(channels)[i + 1..]
      ensures ev == Connect(old(channels)[i].id) && channels[i].id == old(channels)[i].id
    {
      ev := Connect(channels[i].id);
      IndexIsUnique(channels, i);
      StepLeads(cfg, View(), clock, ev);
      SetConnected(i);
      SameRest(cfg, old(View()), i, View(), i + 1);
    }

    /** The target of a channel that is not connected yet may answer. */
    method AnswerStep(i: nat, clock: int, answered: bool) returns (ghost evs: seq<Event>)
      requires Inv(cfg, View()) && i < |channels|
      modifies this
      ensures Leads(cfg, old(View()), clock, evs, View(), clock)
      ensures Advanced(cfg, old(View()), i, View(), i + 1)
      ensures nextChan == old(nextChan) && |channels| == |old(channels)|
      ensures channels[i + 1..] == old(channels)[i + 1..] && channels[i].id == old(channels)[i].id
      ensures evs == if answered && !old(channels)[i].connected then [Connect(channels[i].id)] else []
    {
      evs := [];
      SameRest(cfg, View(), i, View(), i + 1);
      if answered && !channels[i].connected {
        ghost var ev := ConnectStep(i, clock);
        evs := [ev];
      }
    }

    /** A fatal socket error ends the channel. */
    method CloseStep(i: nat, gone: int, clock: int) returns (ghost ev: Event)
      requires Inv(cfg, View()) && i < |channels| && clock <= gone
      modifies this
      ensures Leads(cfg, old(View()), clock, [ev], View(), gone)
      ensures nextChan == old(nextChan) && |channels| == |old(channels)| - 1
      ensures channels[i..] == old(channels)[i + 1..]
      ensures ev == Close(old(channels)[i].id, gone)
    {
      ev := Close(channels[i].id, gone);
      IndexIsUnique(channels, i);
      RemoveSocks(channels, open, i);
      StepLeads(cfg, View(), clock, ev);
      DeleteChannel(channels[i].id, gone);
    }

    /** Reading and writing: the channel may become connected, and it may end. `k` is the next position. */
    method TrafficBranch(i: nat, selected: bool, clock: int, said: Said)
      returns (k: nat, time: int, ghost evs: seq<Event>)
      requires Inv(cfg, View()) && i < |channels|
      modifies this
      ensures Leads(cfg, old(View()), clock, evs, View(), time)
      ensures Advanced(cfg, old(View()), i, View(), k)
      ensures var c := old(channels)[i];
              evs == (if selected && said.answered && !c.connected then [Connect(c.id)] else [])
                     + (if selected && said.fatal then [Close(c.id, time)] else [])
    {
      ghost var st := View();
      k, time := i + 1, clock;
      evs := AnswerStep(i, clock, selected && said.answered);
      if selected && said.fatal {
        time := if said.gone < clock then clock else said.gone;
        ghost var mid := View();
        ghost var ev := CloseStep(i, time, clock);
        LeadsOn(cfg, st, clock, evs, mid, clock, [ev], View(), time);
        evs := evs + [ev];
        k := i;
        SameRest(cfg, st, i, View(), k);
      }
    }

    /**
     The loop body at position `i`; `k` is the position at which the loop goes on. A channel that
     is not connected fails over when its time is up or its socket has an error; any other is
     served, if a socket was selected at all.
     */
    method Handle(i: nat, now: int, selected: bool, clock: int, said: Said)
      returns (k: nat, time: int, ghost evs: seq<Event>)
      requires Inv(cfg, View()) && i < |channels|
      modifies this
      ensures Leads(cfg, old(View()), clock, evs, View(), time)
      ensures Advanced(cfg, old(View()), i, View(), k)
      ensures var c := old(channels)[i];
              if !c.connected && (c.connTime + cfg.connTimeout < now || said.failed)
              then |evs| == 1 && evs[0].Failover? && evs[0].chan == c.id && evs[0].how.loopNow == now
              else evs == (if selected && said.answered && !c.connected then [Connect(c.id)] else [])
                          + (if selected && said.fatal then [Close(c.id, time)] else [])
    {
      var failed := false;
      if !channels[i].connected {
        if channels[i].connTime + cfg.connTimeout < now {
          failed := true;
        } else {
          failed := said.failed;
        }
      }
      if failed {
        ghost var ev: Event;
        time, ev := FailBranch(i, now, clock);
        k, evs := i, [ev];
      } else {
        k, time, evs := TrafficBranch(i, selected, clock, said);
      }
    }

    /** The loop body as one more piece of the pass that began in `st0`. */
    method PassStep(i: nat, now: int, selected: bool, noon: int,
                    ghost st0: State, ghost clock: int, ghost visited0: seq<ChanPtr>, ghost evs0: seq<Event>)
      returns (k: nat, time: int, ghost visited: seq<ChanPtr>, ghost evs: seq<Event>)
      requires Inv(cfg, st0) && Leads(cfg, st0, clock, evs0, View(), noon)
      requires i < |channels| && Covered(st0, View(), i, visited0) && InTime(cfg, st0, View(), i, now, evs0)
      modifies this
      ensures Leads(cfg, st0, clock, evs, View(), time)
      ensures Covered(st0, View(), k, visited) && InTime(cfg, st0, View(), k, now, evs)
      ensures |channels| - k < |old(channels)| - i || (k == i && Progress(cfg, old(View()), View(), i))
      ensures Budget(cfg, old(servers)) >= 0
    {
      ghost var st, es := View(), [];
      BudgetRange(cfg, servers);
      visited := visited0 + [channels[i].id];
      var said: Said := *;
      k, time, es := Handle(i, now, selected, noon, said);
      LeadsOn(cfg, st0, clock, evs0, st, noon, es, View(), time);
      CoveredOn(cfg, st0, st, i, View(), k, visited0);
      InTimeOn(cfg, st0, st, i, View(), k, now, evs0, es);
      evs := evs0 + es;
    }

    /** Any callback of the tracker, or none, as one more piece of the pass that began in `st0`. */
    method TrackerTurn(ghost noon: int, ghost st0: State, ghost clock: int, ghost evs0: seq<Event>,
                       ghost i: nat, ghost visited: seq<ChanPtr>, ghost now: int)
      returns (ghost evs: seq<Event>)
      requires Inv(cfg, st0) && Leads(cfg, st0, clock, evs0, View(), noon)
      requires Covered(st0, View(), i, visited) && InTime(cfg, st0, View(), i, now, evs0)
      modifies this`servers
      ensures Leads(cfg, st0, clock, evs, View(), noon)
      ensures Covered(st0, View(), i, visited) && InTime(cfg, st0, View(), i, now, evs)
    {
      evs := evs0;
      var ev: Event := *;
      if FromTracker(ev) && ev.server < |servers| {
        ghost var st := View();
        TrackerStep(ev, noon);
        LeadsOn(cfg, st0, clock, evs0, st, noon, [ev], View(), noon);
        InTimeLater(cfg, st0, st, View(), i, now, evs0, [ev]);
        evs := evs0 + [ev];
      }
    }

    /**
     One pass of the channel loop. Every channel present at the start, and every channel
     appended meanwhile, is handled exactly once and in list order, although the loop erases
     and appends, and although any finite number of tracker callbacks comes in between; and the
     pass ends. A channel that is not connected at the start and whose time is up fails over.
     Socket readiness and errors are arbitrary.
     */
    method Pass(now: int, selected: bool, clock: int, callbacks: nat)
      returns (time: int, ghost visited: seq<ChanPtr>, ghost evs: seq<Event>)
      requires Inv(cfg, View())
      modifies this
      ensures Leads(cfg, old(View()), clock, evs, View(), time)
      ensures nextChan >= old(nextChan)
      ensures visited == Ids(old(channels)) + Fresh(old(nextChan), nextChan - old(nextChan))
      ensures forall c <- old(channels) :: TimeIsUp(cfg, c, now) ==> FailedOver(evs, c.id)
    {
      ghost var st0 := View();
      visited, evs := [], [];
      time := clock;
      var i: nat, left := 0, callbacks;
      assert channels[0..] == channels;
      while i < |channels|
        invariant Leads(cfg, st0, clock, evs, View(), time)
        invariant Covered(st0, View(), i, visited)
        invariant InTime(cfg, st0, View(), i, now, evs)
        decreases left, |channels| - i, Budget(cfg, servers), RankSum(View(), channels[i..])
      {
        var called := *;
        if called && left > 0 {
          left := left - 1;
          evs := TrackerTurn(time, st0, clock, evs, i, visited, now);
        } else {
          i, time, visited, evs := PassStep(i, now, selected, time, st0, clock, visited, evs);
        }
      }
    }
  }

  /** What the tracker tells about a server. */
  predicate FromTracker(ev: Event) {
    ev.Activate? || ev.Deactivate? || ev.Report?
  }

  /**
   From position `i` of `st` the loop went on to position `k` of `st'`: what is left to handle
   are the later channels and the new ones, and there is less work than before.
   */
  ghost predicate Advanced(cfg: Config, st: State, i: nat, st': State, k: nat)
    requires i < |st.channels|
  {
    && k <= |st'.channels| && st'.nextChan >= st.nextChan
    && Ids(st'.channels[k..]) == Ids(st.channels[i + 1..]) + Fresh(st.nextChan, st'.nextChan - st.nextChan)
    && (forall j :: i < j < |st.channels| ==> st.channels[j] in st'.channels[k..])
    && (|st'.channels| - k < |st.channels| - i || (k == i && Progress(cfg, st, st', i)))
  }

  /** Handled so far, and still to handle, are the channels of the start and those made since. */
  ghost predicate Covered(st0: State, st: State, i: nat, visited: seq<ChanPtr>) {
    && i <= |st.channels| && st.nextChan >= st0.nextChan
    && visited + Ids(st.channels[i..]) == Ids(st0.channels) + Fresh(st0.nextChan, st.nextChan - st0.nextChan)
  }

  /** The channel is not connected, and the time to connect is over. */
  predicate TimeIsUp(cfg: Config, c: Channel, now: int) {
    !c.connected && c.connTime + cfg.connTimeout < now
  }

  ghost predicate FailedOver(evs: seq<Event>, id: ChanPtr) {
    exists ev :: ev in evs && ev.Failover? && ev.chan == id
  }

  /** A channel of the start is still to be handled, or it failed over if its time was up. */
  ghost predicate InTime(cfg: Config, st0: State, st: State, i: nat, now: int, evs: seq<Event>) {
    i <= |st.channels|
    && forall c <- st0.channels :: c in st.channels[i..] || (TimeIsUp(cfg, c, now) ==> FailedOver(evs, c.id))
  }

  lemma InTimeLater(cfg: Config, st0: State, st: State, st': State, i: nat, now: int, evs: seq<Event>, more: seq<Event>)
    requires InTime(cfg, st0, st, i, now, evs) && st'.channels == st.channels
    ensures InTime(cfg, st0, st', i, now, evs + more)
  {
    forall c <- st0.channels | FailedOver(evs, c.id)
      ensures FailedOver(evs + more, c.id)
    {
      var ev :| ev in evs && ev.Failover? && ev.chan == c.id;
      assert ev in evs + more;
    }
  }

  lemma InTimeOn(cfg: Config, st0: State, st: State, i: nat, st': State, k: nat, now: int,
                 evs: seq<Event>, more: seq<Event>)
    requires i < |st.channels| && InTime(cfg, st0, st, i, now, evs) && Advanced(cfg, st, i, st', k)
    requires TimeIsUp(cfg, st.channels[i], now) ==> FailedOver(more, st.channels[i].id)
    ensures InTime(cfg, st0, st', k, now, evs + more)
  {
    InTimeLater(cfg, st0, st, st, i, now, evs, more);
    forall c <- st0.channels
      ensures c in st'.channels[k..] || (TimeIsUp(cfg, c, now) ==> FailedOver(evs + more, c.id))
    {
      if c in st.channels[i..] {
        var j :| i <= j < |st.channels| && st.channels[j] == c;
        if j == i && FailedOver(more, c.id) {
          var ev :| ev in more && ev.Failover? && ev.chan == c.id;
          assert ev in evs + more;
        }
      }
    }
  }

  /** What the sockets of a channel say in a pass: an error, an answer of the target, a fatal error, and when. */
  datatype Said = Said(failed: bool, answered: bool, fatal: bool, gone: int)

  lemma SameRest(cfg: Config, st: State, i: nat, st': State, k: nat)
    requires i < |st.channels| && k <= |st'.channels| && st'.nextChan == st.nextChan
    requires st'.channels[k..] == st.channels[i + 1..]
    ensures Advanced(cfg, st, i, st', k)
  {
    NoFresh(Ids(st.channels[i + 1..]), st.nextChan);
    assert forall j :: i < j < |st.channels| ==> st.channels[j] == st'.channels[k..][j - i - 1];
  }

  lemma CoveredOn(cfg: Config, st0: State, st: State, i: nat, st': State, k: nat, visited: seq<ChanPtr>)
    requires i < |st.channels| && Covered(st0, st, i, visited) && Advanced(cfg, st, i, st', k)
    ensures Covered(st0, st', k, visited + [st.channels[i].id])
  {
    IdsHead(st.channels, i);
    FreshJoin(st0.nextChan, st.nextChan, st'.nextChan);
    Splice(visited, st.channels[i].id, Ids(st.channels[i + 1..]), Ids(st0.channels),
           Fresh(st0.nextChan, st.nextChan - st0.nextChan), Fresh(st.nextChan, st'.nextChan - st.nextChan));
  }

  function Ids(chs: seq<Channel>): seq<ChanPtr> {
    seq(|chs|, i requires 0 <= i < |chs| => chs[i].id)
  }

  function Fresh(from: ChanPtr, n: nat): seq<ChanPtr> {
    seq(n, i => from + i)
  }

  lemma IdsHead(chs: seq<Channel>, i: nat)
    requires i < |chs|
    ensures Ids(chs[i..]) == [chs[i].id] + Ids(chs[i + 1..])
  {
  }

  lemma FreshJoin(a: ChanPtr, b: ChanPtr, c: ChanPtr)
    requires a <= b <= c
    ensures Fresh(a, b - a) + Fresh(b, c - b) == Fresh(a, c - a)
  {
  }

  lemma NoFresh(ids: seq<ChanPtr>, from: ChanPtr)
    ensures ids + Fresh(from, 0) == ids
  {
  }

  lemma Splice(done: seq<ChanPtr>, id: ChanPtr, later: seq<ChanPtr>, start: seq<ChanPtr>, made: seq<ChanPtr>,
               more: seq<ChanPtr>)
    requires done + ([id] + later) == start + made
    ensures (done + [id]) + (later + more) == start + (made + more)
  {
    assert (done + [id]) + (later + more) == (done + ([id] + later)) + more;
    assert start + (made + more) == (start + made) + more;
  }

  /** What a failover leaves from position `i` on: the later channels, and the replacement if there is one. */
  lemma FailoverIds(st: State, st': State, i: nat, how: Attempt)
    requires i < |st.channels| && FailoverShape(st, st', i, how)
    ensures i <= |st'.channels| && st'.nextChan >= st.nextChan
    ensures Ids(st'.channels[i..]) == Ids(st.channels[i + 1..]) + Fresh(st.nextChan, st'.nextChan - st.nextChan)
    ensures forall j :: i < j < |st.channels| ==> st.channels[j] in st'.channels[i..]
  {
    var rest := RemoveAt(st.channels, i);
    assert rest[i..] == st.channels[i + 1..];
    if |st'.channels| == |rest| + 1 {
      assert st'.channels[i..] == rest[i..] + [st'.channels[|rest|]];
    }
    forall j | i < j < |st.channels|
      ensures st.channels[j] in st'.channels[i..]
    {
      assert st'.channels[i..][j - i - 1] == st.channels[j];
    }
  }

  lemma AddedAndDeleted(heap: map<RoutePtr, Route>, r: RoutePtr, e: Route)
    requires r !in heap
    ensures heap[r := e] - {r} == heap
  {
  }

  /** The constructor overwrites whatever the heap held for the route. */
  lemma AttachIgnoresOld(st: State, mid: State, r: RoutePtr, e: Route, src: Sock, how: Attempt)
    requires mid == st.(heap := st.heap[r := e]) && how.outcome.Started?
    requires 0 <= e.server < |st.servers| && 0 <= e.client < |st.clients|
    ensures Attach(mid, r, e, src, how.outcome.target, how.loopNow, how.times.ctor, true)
            == Attach(st, r, e, src, how.outcome.target, how.loopNow, how.times.ctor, true)
  {
  }

  /** With distinct identities the search finds the channel itself. */
  lemma IndexIsUnique(chs: seq<Channel>, i: nat)
    requires i < |chs| && DistinctIds(chs)
    ensures IndexOf(chs, chs[i].id) == i
  {
    var j := IndexOf(chs, chs[i].id);
    assert j <= i;
  }
}
