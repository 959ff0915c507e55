/**
 What the proxy does to the shared state in one step: accept a connection, fail a channel
 over to another server, close or connect a channel, and the tracker's updates of a server.

 Socket calls, the clock and the peer address are parameters of a step.
 */
module Steps {
  import opened Seqs
  import opened Inet
  import opened Model
  import opened Selector
  import opened RouteTable

  /** The cache of the source, or a plain map that never deletes anything by itself. */
  datatype Kind = Swept | Plain

  /** Readings of the clock during one channel creation, in the order in which they are taken. */
  datatype Times = Times(find: int, ctor: int, add: int)

  /** How the attempt to open a socket to the chosen server ended. */
  datatype Outcome = Refused | Started(target: Sock)

  datatype Attempt = Attempt(peer: Option<Addr>, loopNow: int, times: Times, outcome: Outcome)

  datatype Event =
    | Accept(src: Sock, how: Attempt)
    | Failover(chan: ChanPtr, how: Attempt, gone: int)
    | Close(chan: ChanPtr, gone: int)
    | Connect(chan: ChanPtr)
    | Activate(server: nat)
    | Deactivate(server: nat)
    | Report(server: nat, active: bool, users: nat, cmax: nat, memFree: Option<nat>, cpuFree: Option<nat>, sync: bool)

  // ---- the two kinds of cache ----

  predicate Visible(cfg: Config, st: State, key: Addr, now: int)
    requires CacheOK(st)
  {
    cfg.caching && key in st.cache && !Stale(cfg, st.heap[st.cache[key]], now)
  }

  function Lookup(kind: Kind, cfg: Config, st: State, key: Addr, now: int): (State, Option<RoutePtr>)
    requires CacheOK(st)
  {
    match kind
    case Swept => Find(cfg, st, key, now)
    case Plain => (st, if Visible(cfg, st, key, now) then Some(st.cache[key]) else None)
  }

  function Insert(kind: Kind, cfg: Config, st: State, key: Addr, r: RoutePtr, now: int): State
    requires CacheOK(st) && r in st.heap && !st.heap[r].cached
  {
    if kind == Plain && cfg.caching && key in st.cache && !Visible(cfg, st, key, now)
    then Add(cfg, DropAll(st, {key}), key, r, now)
    else Add(cfg, st, key, r, now)
  }

  lemma LookupKeepsCore(kind: Kind, cfg: Config, st: State, key: Addr, now: int)
    requires Core(st)
    ensures var (st', r) := Lookup(kind, cfg, st, key, now);
            && Core(st')
            && st'.servers == st.servers && st'.clients == st.clients && st'.channels == st.channels
            && st'.open == st.open && st'.next == st.next && st'.nextChan == st.nextChan
            && (r.Some? ==> && cfg.caching && key in st'.cache && st'.cache[key] == r.value
                            && r.value in st'.heap && st'.heap[r.value].cached
                            && r.value in st.heap && st'.heap[r.value] == st.heap[r.value])
  {
    FindKeepsCore(cfg, st, key, now);
  }

  lemma InsertKeepsCore(kind: Kind, cfg: Config, st: State, key: Addr, r: RoutePtr, now: int)
    requires Core(st) && r in st.heap && !st.heap[r].cached && st.heap[r].key == key
    ensures Core(Insert(kind, cfg, st, key, r, now))
  {
    AddKeepsCore(cfg, st, key, r, now);
    if kind == Plain && cfg.caching && key in st.cache && !Visible(cfg, st, key, now) {
      if cfg.caching {
        DropAllKeepsCore(st, {key});
        AddKeepsCore(cfg, DropAll(st, {key}), key, r, now);
      }
    }
  }

  // ---- channel creation ----

  function CloseSock(st: State, h: Sock): State {
    st.(open := st.open - {h})
  }

  function OpenSock(st: State, h: Sock): State {
    st.(open := st.open + {h})
  }

  /** Creation over a route that the cache supplied; nothing about its server is checked again. */
  function UseCached(st: State, key: Addr, r: RoutePtr, src: Sock, how: Attempt): State
    requires Core(st) && r in st.heap
  {
    assert RouteOK(st, r);
    match how.outcome
    case Refused => CloseSock(Remove(st, key), src)
    case Started(dst) =>
      Attach(OpenSock(st, dst), r, st.heap[r], src, dst, how.loopNow, how.times.ctor, false)
  }

  function FreshRoute(key: Addr, ch: Choice): Route {
    Route(key, ch.balancer, ch.client, ch.server, false, 0, 0)
  }

  /** A choice that may be attached to the next free route pointer. */
  ghost predicate ChoiceOK(st: State, key: Addr, avoid: int, choice: Option<Choice>) {
    choice.Some? ==>
      && CanAttach(st.(next := st.next + 1), st.next, FreshRoute(key, choice.value), true)
      && choice.value.server != avoid
      && st.servers[choice.value.server].active
  }

  /** The balancers' choice for a source. */
  ghost function Chosen(cfg: Config, st: State, key: Addr, avoid: int): (choice: Option<Choice>)
    requires Core(st) && ConfigOK(cfg, |st.servers|, |st.clients|)
    ensures ChoiceOK(st, key, avoid, choice)
  {
    CoreServersOK(st);
    NextIsFree(st);
    ChosenRouteIsConsistent(cfg.balancers, st.servers, st.clients, key, avoid);
    Choose(cfg.balancers, st.servers, st.clients, key, avoid)
  }

  /** Creation over a new route; the number of a route that comes to nothing is not used again. */
  ghost function UseFresh(kind: Kind, cfg: Config, st: State, key: Addr, src: Sock, choice: Option<Choice>,
                          how: Attempt)
    : State
    requires Core(st) && ChoiceOK(st, key, NIL, choice)
  {
    var st1 := st.(next := st.next + 1);
    if choice.None? || how.outcome.Refused? then CloseSock(st1, src)
    else
      var dst := how.outcome.target;
      FreshAttached(st, key, src, choice.value, dst, how);
      Insert(kind, cfg, FreshChannel(st, key, src, choice.value, dst, how), key, st.next, how.times.add)
  }

  function FreshChannel(st: State, key: Addr, src: Sock, ch: Choice, dst: Sock, how: Attempt): State
    requires ch.server < |st.servers| && ch.client < |st.clients|
  {
    Attach(OpenSock(st.(next := st.next + 1), dst), st.next, FreshRoute(key, ch), src, dst,
           how.loopNow, how.times.ctor, true)
  }

  lemma FreshAttached(st: State, key: Addr, src: Sock, ch: Choice, dst: Sock, how: Attempt)
    requires Core(st) && ChoiceOK(st, key, NIL, Some(ch))
    ensures Core(FreshChannel(st, key, src, ch, dst, how))
  {
    var st' := OpenSock(st.(next := st.next + 1), dst);
    SameCore(st, st');
    AttachKeepsCore(st', st.next, FreshRoute(key, ch), src, dst, how.loopNow, how.times.ctor, true);
  }

  /** `nrdpx_channel_create`, avoiding server `avoid`. */
  ghost function Create(kind: Kind, cfg: Config, st: State, src: Sock, avoid: int, how: Attempt): State
    requires Core(st) && ConfigOK(cfg, |st.servers|, |st.clients|)
  {
    if how.peer.None? || how.peer.value.Unknown? then CloseSock(st, src)
    else
      var key := how.peer.value;
      LookupKeepsCore(kind, cfg, st, key, how.times.find);
      var (st1, found) := Lookup(kind, cfg, st, key, how.times.find);
      if found.None? then UseFresh(kind, cfg, st1, key, src, Chosen(cfg, st1, key, avoid), how)
      else if st1.heap[found.value].server != avoid then UseCached(st1, key, found.value, src, how)
      else
        RemoveKeepsCore(st1, key);
        UseFresh(kind, cfg, Remove(st1, key), key, src, Chosen(cfg, Remove(st1, key), key, avoid), how)
  }

  lemma UseFreshKeepsCore(kind: Kind, cfg: Config, st: State, key: Addr, src: Sock, choice: Option<Choice>,
                          how: Attempt)
    requires Core(st) && ChoiceOK(st, key, NIL, choice)
    ensures Core(UseFresh(kind, cfg, st, key, src, choice, how))
  {
    SameCore(st, CloseSock(st.(next := st.next + 1), src));
    if choice.Some? && how.outcome.Started? {
      var dst := how.outcome.target;
      FreshAttached(st, key, src, choice.value, dst, how);
      InsertKeepsCore(kind, cfg, FreshChannel(st, key, src, choice.value, dst, how), key, st.next, how.times.add);
    }
  }

  lemma UseCachedKeepsCore(st: State, key: Addr, r: RoutePtr, src: Sock, how: Attempt)
    requires Core(st) && r in st.heap && st.heap[r].cached
    ensures Core(UseCached(st, key, r, src, how))
  {
    assert RouteOK(st, r);
    RemoveKeepsCore(st, key);
    SameCore(Remove(st, key), CloseSock(Remove(st, key), src));
    if how.outcome.Started? {
      var dst := how.outcome.target;
      SameCore(st, OpenSock(st, dst));
      AttachKeepsCore(OpenSock(st, dst), r, st.heap[r], src, dst, how.loopNow, how.times.ctor, false);
    }
  }

  lemma CreateKeepsCore(kind: Kind, cfg: Config, st: State, src: Sock, avoid: int, how: Attempt)
    requires Core(st) && ConfigOK(cfg, |st.servers|, |st.clients|)
    ensures Core(Create(kind, cfg, st, src, avoid, how))
  {
    if how.peer.None? || how.peer.value.Unknown? {
      SameCore(st, CloseSock(st, src));
    } else {
      var key := how.peer.value;
      LookupKeepsCore(kind, cfg, st, key, how.times.find);
      var (st1, found) := Lookup(kind, cfg, st, key, how.times.find);
      if found.None? {
        UseFreshKeepsCore(kind, cfg, st1, key, src, Chosen(cfg, st1, key, avoid), how);
      } else if st1.heap[found.value].server != avoid {
        UseCachedKeepsCore(st1, key, found.value, src, how);
      } else {
        RemoveKeepsCore(st1, key);
        UseFreshKeepsCore(kind, cfg, Remove(st1, key), key, src, Chosen(cfg, Remove(st1, key), key, avoid), how);
      }
    }
  }

  /** The channel a creation adds, as seen from outside. */
  ghost predicate Added(st: State, st': State, src: Sock, dst: Sock, now: int) {
    && |st'.channels| == |st.channels| + 1
    && var c := st'.channels[|st.channels|];
    && st'.channels == st.channels + [c]
    && c.source == src && c.target == dst && !c.connected && c.connTime == now && c.id == st.nextChan
    && st'.nextChan == st.nextChan + 1
    && st'.open == st.open + {dst}
  }

  ghost predicate GivenUp(st: State, st': State, src: Sock) {
    && st'.channels == st.channels
    && st'.nextChan == st.nextChan
    && st'.open == st.open - {src}
  }

  predicate ServerButSlots(a: Server, b: Server) {
    b == a.(numSlots := b.numSlots)
  }

  predicate ClientButSlots(a: Client, b: Client) {
    b == a.(numSlots := b.numSlots)
  }

  /** Creation changes nothing but counters in the records of servers and clients. */
  ghost predicate SameButSlots(st: State, st': State) {
    && |st'.servers| == |st.servers| && |st'.clients| == |st.clients|
    && (forall s :: 0 <= s < |st.servers| ==> ServerButSlots(st.servers[s], st'.servers[s]))
    && (forall k :: 0 <= k < |st.clients| ==> ClientButSlots(st.clients[k], st'.clients[k]))
  }

  ghost predicate Shape(st: State, st': State, src: Sock, how: Attempt) {
    GivenUp(st, st', src) || (how.outcome.Started? && Added(st, st', src, how.outcome.target, how.loopNow))
  }

  lemma UseFreshShape(kind: Kind, cfg: Config, st: State, key: Addr, src: Sock, choice: Option<Choice>, how: Attempt)
    requires Core(st) && ChoiceOK(st, key, NIL, choice)
    ensures Shape(st, UseFresh(kind, cfg, st, key, src, choice, how), src, how)
  {
    if choice.Some? && how.outcome.Started? {
      FreshAttached(st, key, src, choice.value, how.outcome.target, how);
    }
  }

  /** Creation adds one channel at the end of the list, or closes the source. */
  lemma CreateShape(kind: Kind, cfg: Config, st: State, src: Sock, avoid: int, how: Attempt)
    requires Core(st) && ConfigOK(cfg, |st.servers|, |st.clients|)
    ensures Shape(st, Create(kind, cfg, st, src, avoid, how), src, how)
  {
    if how.peer.Some? && !how.peer.value.Unknown? {
      var key := how.peer.value;
      LookupKeepsCore(kind, cfg, st, key, how.times.find);
      var (st1, found) := Lookup(kind, cfg, st, key, how.times.find);
      if found.None? {
        UseFreshShape(kind, cfg, st1, key, src, Chosen(cfg, st1, key, avoid), how);
      } else if st1.heap[found.value].server == avoid {
        RemoveKeepsCore(st1, key);
        UseFreshShape(kind, cfg, Remove(st1, key), key, src, Chosen(cfg, Remove(st1, key), key, avoid), how);
      }
    }
  }

  lemma AttachServers(st: State, r: RoutePtr, e: Route, src: Sock, dst: Sock, connTime: int, t: int, selected: bool)
    requires 0 <= e.server < |st.servers| && 0 <= e.client < |st.clients|
    ensures SameButSlots(st, Attach(st, r, e, src, dst, connTime, t, selected))
  {
  }

  lemma InsertServers(kind: Kind, cfg: Config, st: State, key: Addr, r: RoutePtr, now: int)
    requires CacheOK(st) && r in st.heap && !st.heap[r].cached
    ensures var st' := Insert(kind, cfg, st, key, r, now); st'.servers == st.servers && st'.clients == st.clients
  {
  }

  lemma FreshServers(st: State, key: Addr, src: Sock, ch: Choice, dst: Sock, how: Attempt)
    requires ch.server < |st.servers| && ch.client < |st.clients|
    ensures SameButSlots(st, FreshChannel(st, key, src, ch, dst, how))
  {
    AttachServers(OpenSock(st.(next := st.next + 1), dst), st.next, FreshRoute(key, ch), src, dst,
                  how.loopNow, how.times.ctor, true);
  }

  lemma UseFreshServers(kind: Kind, cfg: Config, st: State, key: Addr, src: Sock, choice: Option<Choice>, how: Attempt)
    requires Core(st) && ChoiceOK(st, key, NIL, choice)
    ensures SameButSlots(st, UseFresh(kind, cfg, st, key, src, choice, how))
  {
    if choice.Some? && how.outcome.Started? {
      var dst := how.outcome.target;
      FreshAttached(st, key, src, choice.value, dst, how);
      FreshServers(st, key, src, choice.value, dst, how);
      InsertServers(kind, cfg, FreshChannel(st, key, src, choice.value, dst, how), key, st.next, how.times.add);
    }
  }

  lemma UseCachedServers(st: State, key: Addr, r: RoutePtr, src: Sock, how: Attempt)
    requires Core(st) && r in st.heap
    ensures SameButSlots(st, UseCached(st, key, r, src, how))
  {
    assert RouteOK(st, r);
    if how.outcome.Started? {
      var dst := how.outcome.target;
      AttachServers(OpenSock(st, dst), r, st.heap[r], src, dst, how.loopNow, how.times.ctor, false);
    }
  }

  lemma CreateServers(kind: Kind, cfg: Config, st: State, src: Sock, avoid: int, how: Attempt)
    requires Core(st) && ConfigOK(cfg, |st.servers|, |st.clients|)
    ensures SameButSlots(st, Create(kind, cfg, st, src, avoid, how))
  {
    if how.peer.Some? && !how.peer.value.Unknown? {
      var key := how.peer.value;
      LookupKeepsCore(kind, cfg, st, key, how.times.find);
      var (st1, found) := Lookup(kind, cfg, st, key, how.times.find);
      if found.None? {
        UseFreshServers(kind, cfg, st1, key, src, Chosen(cfg, st1, key, avoid), how);
      } else if st1.heap[found.value].server != avoid {
        UseCachedServers(st1, key, found.value, src, how);
      } else {
        RemoveKeepsCore(st1, key);
        UseFreshServers(kind, cfg, Remove(st1, key), key, src, Chosen(cfg, Remove(st1, key), key, avoid), how);
      }
    }
  }

  // ---- the other steps ----

  function Deactivated(s: Server): Server {
    s.(active := false, users := 0, memFree := None, cpuFree := None, faults := 0)
  }

  /** One more fault; at the limit the server is deactivated, which clears the count. */
  function Faulted(cfg: Config, s: Server): Server {
    if s.faults + 1 >= cfg.maxFaults then Deactivated(s) else s.(faults := s.faults + 1)
  }

  function Reported(s: Server, ev: Event): Server
    requires ev.Report?
  {
    s.(active := ev.active, users := ev.users, userMax := ev.cmax, memFree := ev.memFree, cpuFree := ev.cpuFree,
       maxSlots := if ev.sync && ev.cmax != 0 && ev.cmax < s.maxSlots then ev.cmax else s.maxSlots)
  }

  /** Position of a channel in the list, or its length. */
  function IndexOf(chs: seq<Channel>, id: ChanPtr): (i: nat)
    ensures i <= |chs|
    ensures i < |chs| ==> chs[i].id == id
    ensures forall j :: 0 <= j < i ==> chs[j].id != id
  {
    if chs == [] then 0 else if chs[0].id == id then 0 else 1 + IndexOf(chs[1..], id)
  }

  predicate Live(st: State, id: ChanPtr) {
    IndexOf(st.channels, id) < |st.channels|
  }

  function SetServer(st: State, s: int, v: Server): State
    requires 0 <= s < |st.servers|
  {
    st.(servers := st.servers[s := v])
  }

  function SetChannel(st: State, i: int, c: Channel): State
    requires 0 <= i < |st.channels|
  {
    st.(channels := st.channels[i := c])
  }

  lemma ChannelServerInRange(st: State, i: nat)
    requires Core(st) && i < |st.channels|
    ensures 0 <= st.channels[i].server < |st.servers|
    ensures ServerOK(st.servers[st.channels[i].server])
  {
    var c := st.channels[i];
    assert ChannelOK(st, c) && RouteOK(st, c.route);
    assert ServerSlotsOK(st, c.server);
  }

  ghost predicate Ready(cfg: Config, st: State) {
    Core(st) && ConfigOK(cfg, |st.servers|, |st.clients|)
  }

  /** The state in which the replacement is created: the failing server has taken its fault. */
  function AfterFault(cfg: Config, st: State, i: nat): State
    requires Core(st) && i < |st.channels|
  {
    var s := st.channels[i].server;
    ChannelServerInRange(st, i);
    SetServer(st, s, Faulted(cfg, st.servers[s]))
  }

  lemma AfterFaultReady(cfg: Config, st: State, i: nat)
    requires Ready(cfg, st) && i < |st.channels|
    ensures Ready(cfg, AfterFault(cfg, st, i))
  {
    ChannelServerInRange(st, i);
    TouchServerKeepsCore(st, st.channels[i].server, Faulted(cfg, st.servers[st.channels[i].server]));
  }

  /** Failover up to, but not including, the destruction of the failed channel. */
  ghost function Replaced(kind: Kind, cfg: Config, st: State, i: nat, how: Attempt): State
    requires Ready(cfg, st) && i < |st.channels|
  {
    var c := st.channels[i];
    AfterFaultReady(cfg, st, i);
    var st1 := AfterFault(cfg, st, i);
    CreateShape(kind, cfg, st1, c.source, c.server, how);
    SetChannel(Create(kind, cfg, st1, c.source, c.server, how), i, c.(source := NOSOCK))
  }

  lemma ReplacedKeepsCore(kind: Kind, cfg: Config, st: State, i: nat, how: Attempt)
    requires Ready(cfg, st) && i < |st.channels|
    ensures var st' := Replaced(kind, cfg, st, i, how);
            && Ready(cfg, st') && |st'.servers| == |st.servers| && |st'.clients| == |st.clients|
            && i < |st'.channels| && st'.channels[i] == st.channels[i].(source := NOSOCK)
  {
    var c := st.channels[i];
    AfterFaultReady(cfg, st, i);
    var st1 := AfterFault(cfg, st, i);
    CreateShape(kind, cfg, st1, c.source, c.server, how);
    CreateServers(kind, cfg, st1, c.source, c.server, how);
    CreateKeepsCore(kind, cfg, st1, c.source, c.server, how);
    TouchChannelKeepsCore(Create(kind, cfg, st1, c.source, c.server, how), i, c.(source := NOSOCK));
  }

  ghost function FailoverAt(kind: Kind, cfg: Config, st: State, i: nat, how: Attempt, gone: int): State
    requires Ready(cfg, st) && i < |st.channels|
  {
    ReplacedKeepsCore(kind, cfg, st, i, how);
    Destroy(Replaced(kind, cfg, st, i, how), i, gone)
  }

  function ConnectAt(st: State, i: nat): State
    requires Core(st) && i < |st.channels|
  {
    var c := st.channels[i];
    ChannelServerInRange(st, i);
    SetServer(SetChannel(st, i, c.(connected := true)), c.server, st.servers[c.server].(faults := 0))
  }

  ghost predicate Refers(st: State, ev: Event) {
    match ev
    case Accept(_, _) => true
    case Failover(id, _, _) => Live(st, id)
    case Close(id, _) => Live(st, id)
    case Connect(id) => Live(st, id)
    case Activate(s) => s < |st.servers|
    case Deactivate(s) => s < |st.servers|
    case Report(s, _, _, _, _, _, _) => s < |st.servers|
  }

  ghost function Step(kind: Kind, cfg: Config, st: State, ev: Event): State
    requires Ready(cfg, st) && Refers(st, ev)
  {
    match ev
    case Accept(src, how) =>
      SameCore(st, OpenSock(st, src));
      Create(kind, cfg, OpenSock(st, src), src, NIL, how)
    case Failover(id, how, gone) => FailoverAt(kind, cfg, st, IndexOf(st.channels, id), how, gone)
    case Close(id, gone) => Destroy(st, IndexOf(st.channels, id), gone)
    case Connect(id) => ConnectAt(st, IndexOf(st.channels, id))
    case Activate(s) => SetServer(st, s, st.servers[s].(active := true))
    case Deactivate(s) => SetServer(st, s, Deactivated(st.servers[s]))
    case Report(s, _, _, _, _, _, _) => SetServer(st, s, Reported(st.servers[s], ev))
  }

  lemma ConnectKeepsCore(st: State, i: nat)
    requires Core(st) && i < |st.channels|
    ensures Core(ConnectAt(st, i))
  {
    var c := st.channels[i];
    ChannelServerInRange(st, i);
    var st1 := SetChannel(st, i, c.(connected := true));
    TouchChannelKeepsCore(st, i, c.(connected := true));
    TouchServerKeepsCore(st1, c.server, st.servers[c.server].(faults := 0));
  }

  lemma TrackerKeepsCore(st: State, s: nat, v: Server)
    requires Core(st) && s < |st.servers|
    requires v.numSlots == st.servers[s].numSlots && v.confSlots == st.servers[s].confSlots
    requires v.weight == st.servers[s].weight
    requires v.maxSlots == st.servers[s].maxSlots || 1 <= v.maxSlots < st.servers[s].maxSlots
    ensures Core(SetServer(st, s, v))
  {
    assert ServerSlotsOK(st, s);
    TouchServerKeepsCore(st, s, v);
  }

  lemma AcceptKeepsReady(kind: Kind, cfg: Config, st: State, src: Sock, how: Attempt)
    requires Ready(cfg, st)
    ensures var st' := Step(kind, cfg, st, Accept(src, how)); Ready(cfg, st') && |st'.servers| == |st.servers|
  {
    var st1 := OpenSock(st, src);
    SameCore(st, st1);
    CreateKeepsCore(kind, cfg, st1, src, NIL, how);
    CreateServers(kind, cfg, st1, src, NIL, how);
  }

  lemma FailoverKeepsReady(kind: Kind, cfg: Config, st: State, i: nat, how: Attempt, gone: int)
    requires Ready(cfg, st) && i < |st.channels|
    ensures var st' := FailoverAt(kind, cfg, st, i, how, gone); Ready(cfg, st') && |st'.servers| == |st.servers|
  {
    ReplacedKeepsCore(kind, cfg, st, i, how);
    DestroyKeepsCore(Replaced(kind, cfg, st, i, how), i, gone);
  }

  /** Every step of either kind keeps routes, cache, channels and counters consistent. */
  lemma StepKeepsReady(kind: Kind, cfg: Config, st: State, ev: Event)
    requires Ready(cfg, st) && Refers(st, ev)
    ensures Ready(cfg, Step(kind, cfg, st, ev))
    ensures |Step(kind, cfg, st, ev).servers| == |st.servers|
  {
    match ev
    case Accept(src, how) => AcceptKeepsReady(kind, cfg, st, src, how);
    case Failover(id, how, gone) => FailoverKeepsReady(kind, cfg, st, IndexOf(st.channels, id), how, gone);
    case Close(id, gone) => DestroyKeepsCore(st, IndexOf(st.channels, id), gone);
    case Connect(id) => ConnectKeepsCore(st, IndexOf(st.channels, id));
    case Activate(s) => TrackerKeepsCore(st, s, st.servers[s].(active := true));
    case Deactivate(s) => TrackerKeepsCore(st, s, Deactivated(st.servers[s]));
    case Report(s, _, _, _, _, _, _) => TrackerKeepsCore(st, s, Reported(st.servers[s], ev));
  }

  // ---- what a step does to the servers, counters aside ----

  /** The state before the step with the step's own change to a server record. */
  ghost function Touched(cfg: Config, st: State, ev: Event): State
    requires Core(st) && Refers(st, ev)
  {
    match ev
    case Failover(id, _, _) =>
      AfterFault(cfg, st, IndexOf(st.channels, id))
    case Connect(id) =>
      var i := IndexOf(st.channels, id);
      ChannelServerInRange(st, i);
      var s := st.channels[i].server;
      SetServer(st, s, st.servers[s].(faults := 0))
    case Activate(s) => SetServer(st, s, st.servers[s].(active := true))
    case Deactivate(s) => SetServer(st, s, Deactivated(st.servers[s]))
    case Report(s, _, _, _, _, _, _) => SetServer(st, s, Reported(st.servers[s], ev))
    case _ => st
  }

  lemma DestroyServers(st: State, i: nat, t: int)
    requires Core(st) && i < |st.channels|
    ensures SameButSlots(st, Destroy(st, i, t))
  {
    ChannelServerInRange(st, i);
  }

  lemma SameButSlotsTransitive(a: State, b: State, c: State)
    requires SameButSlots(a, b) && SameButSlots(b, c)
    ensures SameButSlots(a, c)
  {
    forall s | 0 <= s < |a.servers|
      ensures ServerButSlots(a.servers[s], c.servers[s])
    {
      assert ServerButSlots(a.servers[s], b.servers[s]) && ServerButSlots(b.servers[s], c.servers[s]);
    }
    forall k | 0 <= k < |a.clients|
      ensures ClientButSlots(a.clients[k], c.clients[k])
    {
      assert ClientButSlots(a.clients[k], b.clients[k]) && ClientButSlots(b.clients[k], c.clients[k]);
    }
  }

  lemma FailoverServers(kind: Kind, cfg: Config, st: State, i: nat, how: Attempt, gone: int)
    requires Ready(cfg, st) && i < |st.channels|
    ensures SameButSlots(AfterFault(cfg, st, i), FailoverAt(kind, cfg, st, i, how, gone))
  {
    var c := st.channels[i];
    var st1, st3 := AfterFault(cfg, st, i), Replaced(kind, cfg, st, i, how);
    AfterFaultReady(cfg, st, i);
    CreateServers(kind, cfg, st1, c.source, c.server, how);
    ReplacedKeepsCore(kind, cfg, st, i, how);
    DestroyServers(st3, i, gone);
    SameButSlotsTransitive(st1, st3, FailoverAt(kind, cfg, st, i, how, gone));
  }

  lemma StepServers(kind: Kind, cfg: Config, st: State, ev: Event)
    requires Ready(cfg, st) && Refers(st, ev)
    ensures SameButSlots(Touched(cfg, st, ev), Step(kind, cfg, st, ev))
  {
    match ev
    case Accept(src, how) =>
      SameCore(st, OpenSock(st, src));
      CreateServers(kind, cfg, OpenSock(st, src), src, NIL, how);
    case Failover(id, how, gone) => FailoverServers(kind, cfg, st, IndexOf(st.channels, id), how, gone);
    case Close(id, _) => ChannelServerInRange(st, IndexOf(st.channels, id));
    case Connect(id) => ChannelServerInRange(st, IndexOf(st.channels, id));
    case Activate(_) =>
    case Deactivate(_) =>
    case Report(_, _, _, _, _, _, _) =>
  }
}
