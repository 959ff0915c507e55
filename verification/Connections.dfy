/** Who gets a connection, and to which kind of server: exact conditions for one creation and for whole runs. */
module Connections {
  import opened Seqs
  import opened Inet
  import opened Model
  import opened Selector
  import opened RouteTable
  import opened Steps
  import opened Runs
  import opened SlotLimits

  // ---- one creation ----

  datatype Destination = Destination(server: int, client: int)

  function OneMoreOn(servers: seq<Server>, s: int): seq<Server>
    requires 0 <= s < |servers|
  {
    servers[s := servers[s].(numSlots := servers[s].numSlots + 1)]
  }

  function OneMoreFrom(clients: seq<Client>, k: int): seq<Client>
    requires 0 <= k < |clients|
  {
    clients[k := clients[k].(numSlots := clients[k].numSlots + 1)]
  }

  /**
   One more channel, over a route of host `key` to the server and for the client group of `to`,
   and one more slot taken of these two and of nobody else.
   */
  ghost predicate Made(st: State, st': State, key: Addr, to: Destination) {
    && |st'.channels| == |st.channels| + 1
    && (var d := st'.channels[|st.channels|];
        && d.server == to.server && d.client == to.client
        && d.route in st'.heap && st'.heap[d.route].key == key
        && st'.heap[d.route].server == to.server && st'.heap[d.route].client == to.client)
    && 0 <= to.server < |st.servers| && st'.servers == OneMoreOn(st.servers, to.server)
    && 0 <= to.client < |st.clients| && st'.clients == OneMoreFrom(st.clients, to.client)
  }

  predicate NothingMade(st: State, st': State) {
    |st'.channels| == |st.channels| && st'.servers == st.servers && st'.clients == st.clients
  }

  /** The peer has an address, and the attempt to connect to the server starts. */
  predicate Starts(how: Attempt) {
    how.peer.Some? && !how.peer.value.Unknown? && how.outcome.Started?
  }

  lemma AttachMade(st: State, key: Addr, src: Sock, ch: Choice, dst: Sock, how: Attempt)
    requires ch.server < |st.servers| && ch.client < |st.clients|
    ensures var st' := FreshChannel(st, key, src, ch, dst, how);
            Made(st, st', key, Destination(ch.server, ch.client)) && st'.channels[|st.channels|].route == st.next
  {
  }

  lemma InsertMade(kind: Kind, cfg: Config, st: State, st1: State, key: Addr, r: RoutePtr, now: int, to: Destination)
    requires Core(st1) && Made(st, st1, key, to) && st1.channels[|st.channels|].route == r
    requires r in st1.heap && !st1.heap[r].cached && st1.heap[r].key == key
    ensures Made(st, Insert(kind, cfg, st1, key, r, now), key, to)
  {
    InsertServers(kind, cfg, st1, key, r, now);
  }

  lemma FreshMade(kind: Kind, cfg: Config, st: State, key: Addr, src: Sock, choice: Option<Choice>, how: Attempt)
    requires Core(st) && ChoiceOK(st, key, NIL, choice)
    ensures var st' := UseFresh(kind, cfg, st, key, src, choice, how);
            if choice.Some? && how.outcome.Started?
            then Made(st, st', key, Destination(choice.value.server, choice.value.client))
            else NothingMade(st, st')
  {
    if choice.Some? && how.outcome.Started? {
      var ch, dst := choice.value, how.outcome.target;
      FreshAttached(st, key, src, ch, dst, how);
      AttachMade(st, key, src, ch, dst, how);
      InsertMade(kind, cfg, st, FreshChannel(st, key, src, ch, dst, how), key, st.next, how.times.add,
                 Destination(ch.server, ch.client));
    }
  }

  lemma CachedMade(st: State, key: Addr, r: RoutePtr, src: Sock, how: Attempt)
    requires Core(st) && r in st.heap && st.heap[r].key == key
    ensures var st' := UseCached(st, key, r, src, how);
            if how.outcome.Started?
            then Made(st, st', key, Destination(st.heap[r].server, st.heap[r].client))
                 && st'.channels[|st.channels|].route == r
                 && st'.heap == st.heap[r := st.heap[r].(actTime := how.times.ctor,
                                                         numSlots := st.heap[r].numSlots + 1)]
            else NothingMade(st, st')
  {
    assert RouteOK(st, r);
  }

  /** Only the channels and the counters matter to what was made. */
  lemma MadeFrom(st: State, st1: State, st': State, key: Addr, to: Destination)
    requires st1.channels == st.channels && st1.servers == st.servers && st1.clients == st.clients
    ensures Made(st1, st', key, to) <==> Made(st, st', key, to)
    ensures NothingMade(st1, st') <==> NothingMade(st, st')
  {
  }

  /** Where a new channel goes: with the cached route, or by the balancers' choice. */
  ghost function Target(cfg: Config, st: State, avoid: int, how: Attempt): Option<Destination>
    requires Core(st)
  {
    if !Starts(how) then None
    else if Reuses(cfg, st, avoid, how) then
      var e := st.heap[st.cache[how.peer.value]];
      Some(Destination(e.server, e.client))
    else
      CoreServersOK(st);
      match Choose(cfg.balancers, st.servers, st.clients, how.peer.value, avoid)
      case None => None
      case Some(ch) => Some(Destination(ch.server, ch.client))
  }

  ghost predicate Lands(st: State, st': State, how: Attempt, target: Option<Destination>) {
    match target
    case None => NothingMade(st, st')
    case Some(to) => how.peer.Some? && Made(st, st', how.peer.value, to)
  }

  lemma CreateLands(kind: Kind, cfg: Config, st: State, src: Sock, avoid: int, how: Attempt)
    requires Ready(cfg, st)
    ensures Lands(st, Create(kind, cfg, st, src, avoid, how), how, Target(cfg, st, avoid, how))
  {
    if how.peer.Some? && !how.peer.value.Unknown? {
      var key, t := how.peer.value, how.times.find;
      LookupKeepsCore(kind, cfg, st, key, t);
      LookupFindsVisible(kind, cfg, st, key, t);
      var (st1, found) := Lookup(kind, cfg, st, key, t);
      if found.None? {
        FreshLands(kind, cfg, st, st1, key, src, avoid, how);
      } else if st1.heap[found.value].server != avoid {
        CachedMade(st1, key, found.value, src, how);
        MadeFrom(st, st1, UseCached(st1, key, found.value, src, how), key,
                 Destination(st1.heap[found.value].server, st1.heap[found.value].client));
      } else {
        RemoveKeepsCore(st1, key);
        FreshLands(kind, cfg, st, Remove(st1, key), key, src, avoid, how);
      }
    }
  }

  lemma FreshLands(kind: Kind, cfg: Config, st: State, st1: State, key: Addr, src: Sock, avoid: int, how: Attempt)
    requires Ready(cfg, st) && Ready(cfg, st1) && how.peer == Some(key) && !key.Unknown?
    requires st1.channels == st.channels && st1.servers == st.servers && st1.clients == st.clients
    requires !Reuses(cfg, st, avoid, how)
    ensures Lands(st, UseFresh(kind, cfg, st1, key, src, Chosen(cfg, st1, key, avoid), how), how,
                  Target(cfg, st, avoid, how))
  {
    var choice := Chosen(cfg, st1, key, avoid);
    FreshMade(kind, cfg, st1, key, src, choice, how);
    MadeFrom(st, st1, UseFresh(kind, cfg, st1, key, src, choice, how), key,
             if choice.Some? then Destination(choice.value.server, choice.value.client) else Destination(NIL, NIL));
  }

  ghost predicate SomeServes(cfg: Config, st: State, a: Addr, avoid: int) {
    exists b :: 0 <= b < |cfg.balancers| && CanServe(cfg.balancers[b], st.servers, st.clients, a, avoid)
  }

  lemma ChoiceIffServes(cfg: Config, st: State, a: Addr, avoid: int)
    requires ServersOK(st.servers)
    ensures Choose(cfg.balancers, st.servers, st.clients, a, avoid).Some? <==> SomeServes(cfg, st, a, avoid)
  {
    ChosenRouteIsConsistent(cfg.balancers, st.servers, st.clients, a, avoid);
    var ch := Choose(cfg.balancers, st.servers, st.clients, a, avoid);
    if ch.Some? {
      var b := cfg.balancers[ch.value.balancer];
      var i :| 0 <= i < |b.clients| && b.clients[i] == ch.value.client;
      var j :| 0 <= j < |b.servers| && b.servers[j] == ch.value.server;
      assert CanServe(b, st.servers, st.clients, a, avoid);
    }
  }

  /**
   A creation makes a channel, and then exactly one and for its peer's host, if and only if the
   peer is known, the attempt to connect starts, and the cache supplies a route that may be used
   or some balancer can serve the host.
   */
  lemma CreateConnectsIff(kind: Kind, cfg: Config, st: State, src: Sock, avoid: int, how: Attempt)
    requires Ready(cfg, st)
    ensures var st' := Create(kind, cfg, st, src, avoid, how);
            if Starts(how) && (Reuses(cfg, st, avoid, how) || SomeServes(cfg, st, how.peer.value, avoid))
            then exists to :: Made(st, st', how.peer.value, to)
            else NothingMade(st, st')
  {
    CreateLands(kind, cfg, st, src, avoid, how);
    CoreServersOK(st);
    if Starts(how) {
      ChoiceIffServes(cfg, st, how.peer.value, avoid);
      var t := Target(cfg, st, avoid, how);
      if t.Some? {
        assert Made(st, Create(kind, cfg, st, src, avoid, how), how.peer.value, t.value);
      }
    }
  }

  // ---- whom a creation charges ----

  /** The balancer that serves the host: the first one that can. */
  ghost predicate ServedBy(cfg: Config, st: State, a: Addr, avoid: int, b: int) {
    && 0 <= b < |cfg.balancers|
    && NoneServes(cfg.balancers, st.servers, st.clients, a, avoid, 0, b)
    && CanServe(cfg.balancers[b], st.servers, st.clients, a, avoid)
  }

  /** The balancer's first group with a free slot that matches, and its unbeaten server. */
  ghost predicate Serves(b: Balancer, st: State, a: Addr, avoid: int, to: Destination) {
    && 0 <= to.client && 0 <= to.server
    && FirstAdmitting(b.clients, st.clients, a, 0, to.client)
    && IsUnbeatenPick(st.servers, b, Candidates(b.servers, st.servers, avoid), Some(to.server))
  }

  lemma ChoiceServes(cfg: Config, st: State, a: Addr, avoid: int)
    requires ServersOK(st.servers)
    ensures var ch := Choose(cfg.balancers, st.servers, st.clients, a, avoid);
            ch.Some? ==> ServedBy(cfg, st, a, avoid, ch.value.balancer)
                         && Serves(cfg.balancers[ch.value.balancer], st, a, avoid,
                                   Destination(ch.value.server, ch.value.client))
  {
    ChosenRouteIsConsistent(cfg.balancers, st.servers, st.clients, a, avoid);
    ChoiceIsOffered(cfg.balancers, st.servers, st.clients, a, avoid, 0);
    var ch := Choose(cfg.balancers, st.servers, st.clients, a, avoid);
    if ch.Some? {
      var b := cfg.balancers[ch.value.balancer];
      OfferIffCanServe(b, st.servers, st.clients, a, avoid);
      PickIsUnbeaten(st.servers, b, Candidates(b.servers, st.servers, avoid), Some(ch.value.server));
    }
  }

  /**
   Without a cached route to use, a new channel goes through the first balancer that can serve the
   host, on behalf of its first client group with a free slot that matches, to its unbeaten server;
   these two gain one slot each and nobody else does.
   */
  lemma CreateChargesFirstAdmitting(kind: Kind, cfg: Config, st: State, src: Sock, avoid: int, how: Attempt)
    requires Ready(cfg, st) && Starts(how) && !Reuses(cfg, st, avoid, how)
    requires |Create(kind, cfg, st, src, avoid, how).channels| == |st.channels| + 1
    ensures exists b: int, to ::
              && ServedBy(cfg, st, how.peer.value, avoid, b)
              && Serves(cfg.balancers[b], st, how.peer.value, avoid, to)
              && Made(st, Create(kind, cfg, st, src, avoid, how), how.peer.value, to)
  {
    CreateLands(kind, cfg, st, src, avoid, how);
    CoreServersOK(st);
    ChoiceServes(cfg, st, how.peer.value, avoid);
    var ch := Choose(cfg.balancers, st.servers, st.clients, how.peer.value, avoid).value;
    assert Made(st, Create(kind, cfg, st, src, avoid, how), how.peer.value, Destination(ch.server, ch.client));
    assert ServedBy(cfg, st, how.peer.value, avoid, ch.balancer);
  }

  /** With a cached route to use, a new channel joins it, and its server and client group gain the slot. */
  lemma CreateJoinsRoute(kind: Kind, cfg: Config, st: State, src: Sock, avoid: int, how: Attempt)
    requires Ready(cfg, st) && Starts(how) && Reuses(cfg, st, avoid, how)
    ensures var e := st.heap[st.cache[how.peer.value]];
            var st' := Create(kind, cfg, st, src, avoid, how);
            && Made(st, st', how.peer.value, Destination(e.server, e.client))
            && st'.channels[|st.channels|].route == st.cache[how.peer.value]
            && st.cache[how.peer.value] in st'.heap
            && st'.heap[st.cache[how.peer.value]] == e.(actTime := how.times.ctor, numSlots := e.numSlots + 1)
  {
    CreateLands(kind, cfg, st, src, avoid, how);
    var key, t := how.peer.value, how.times.find;
    LookupKeepsCore(kind, cfg, st, key, t);
    LookupFindsVisible(kind, cfg, st, key, t);
    var (st1, found) := Lookup(kind, cfg, st, key, t);
    CachedMade(st1, key, found.value, src, how);
  }

  // ---- a refused attempt ----

  /** What the cache still shows of a host is in use. */
  ghost predicate ShowsOnlyBusy(cfg: Config, st: State, key: Addr, from: int)
    requires CacheOK(st)
  {
    forall now: int :: now >= from && Visible(cfg, st, key, now) ==> st.heap[st.cache[key]].numSlots != 0
  }

  lemma RefusedCached(cfg: Config, st: State, key: Addr, r: RoutePtr, src: Sock, how: Attempt, from: int)
    requires Core(st) && r in st.heap && how.outcome.Refused?
    ensures CacheOK(UseCached(st, key, r, src, how)) && ShowsOnlyBusy(cfg, UseCached(st, key, r, src, how), key, from)
  {
    RemoveKeepsCore(st, key);
  }

  lemma NotFoundIsHidden(kind: Kind, cfg: Config, st: State, key: Addr, now: int)
    requires Core(st) && Lookup(kind, cfg, st, key, now).1.None?
    ensures CacheOK(Lookup(kind, cfg, st, key, now).0)
    ensures ShowsOnlyBusy(cfg, Lookup(kind, cfg, st, key, now).0, key, now)
  {
    LookupKeepsCore(kind, cfg, st, key, now);
    FindKeepsCore(cfg, st, key, now);
  }

  lemma FreshHides(kind: Kind, cfg: Config, st: State, key: Addr, src: Sock, choice: Option<Choice>, how: Attempt,
                   from: int)
    requires Core(st) && ChoiceOK(st, key, NIL, choice) && ShowsOnlyBusy(cfg, st, key, from)
    requires |UseFresh(kind, cfg, st, key, src, choice, how).channels| == |st.channels|
    ensures var st' := UseFresh(kind, cfg, st, key, src, choice, how);
            CacheOK(st') && ShowsOnlyBusy(cfg, st', key, from)
  {
    FreshMade(kind, cfg, st, key, src, choice, how);
    var st' := UseFresh(kind, cfg, st, key, src, choice, how);
    assert st'.cache == st.cache && st'.heap == st.heap;
    assert forall now: int :: Visible(cfg, st', key, now) <==> Visible(cfg, st, key, now);
  }

  lemma RemovedHides(cfg: Config, st: State, key: Addr, from: int)
    requires Core(st)
    ensures CacheOK(Remove(st, key)) && ShowsOnlyBusy(cfg, Remove(st, key), key, from)
  {
    RemoveKeepsCore(st, key);
  }

  /**
   When the attempt to connect is refused, or no server can be had, an idle route of the host is
   not in sight any more: what the cache shows of the host after that has live channels.
   */
  lemma RefusalForgetsIdleRoute(kind: Kind, cfg: Config, st: State, src: Sock, avoid: int, how: Attempt)
    requires Ready(cfg, st) && how.peer.Some? && !how.peer.value.Unknown?
    requires |Create(kind, cfg, st, src, avoid, how).channels| == |st.channels|
    ensures var st' := Create(kind, cfg, st, src, avoid, how);
            CacheOK(st') && ShowsOnlyBusy(cfg, st', how.peer.value, how.times.find)
  {
    var key, t := how.peer.value, how.times.find;
    CreateKeepsCore(kind, cfg, st, src, avoid, how);
    LookupKeepsCore(kind, cfg, st, key, t);
    var (st1, found) := Lookup(kind, cfg, st, key, t);
    if found.None? {
      NotFoundIsHidden(kind, cfg, st, key, t);
      FreshHides(kind, cfg, st1, key, src, Chosen(cfg, st1, key, avoid), how, t);
    } else if st1.heap[found.value].server != avoid {
      CachedMade(st1, key, found.value, src, how);
      RefusedCached(cfg, st1, key, found.value, src, how, t);
    } else {
      RemoveKeepsCore(st1, key);
      RemovedHides(cfg, st1, key, t);
      FreshHides(kind, cfg, Remove(st1, key), key, src, Chosen(cfg, Remove(st1, key), key, avoid), how, t);
    }
  }

  // ---- redundant servers ----

  /** The first balancer that can serve the host has only redundant servers to offer. */
  ghost predicate FallsBack(cfg: Config, st: State, a: Addr, avoid: int) {
    exists b :: 0 <= b < |cfg.balancers|
      && NoneServes(cfg.balancers, st.servers, st.clients, a, avoid, 0, b)
      && CanServe(cfg.balancers[b], st.servers, st.clients, a, avoid)
      && !HasPlainServer(cfg.balancers[b], st.servers, avoid)
  }

  lemma ChoiceRedundantIff(cfg: Config, st: State, a: Addr, avoid: int)
    requires ServersOK(st.servers)
    ensures var ch := Choose(cfg.balancers, st.servers, st.clients, a, avoid);
            (ch.Some? && ch.value.server < |st.servers| && st.servers[ch.value.server].redundant)
            <==> FallsBack(cfg, st, a, avoid)
  {
    ChosenRouteIsConsistent(cfg.balancers, st.servers, st.clients, a, avoid);
    ChoiceIsOffered(cfg.balancers, st.servers, st.clients, a, avoid, 0);
    ChoiceIffServes(cfg, st, a, avoid);
    var ch := Choose(cfg.balancers, st.servers, st.clients, a, avoid);
    if ch.Some? {
      var k := ch.value.balancer;
      OfferIffCanServe(cfg.balancers[k], st.servers, st.clients, a, avoid);
      PickRedundantIff(st.servers, cfg.balancers[k], avoid);
      if FallsBack(cfg, st, a, avoid) {
        var b :| 0 <= b < |cfg.balancers|
                 && NoneServes(cfg.balancers, st.servers, st.clients, a, avoid, 0, b)
                 && CanServe(cfg.balancers[b], st.servers, st.clients, a, avoid)
                 && !HasPlainServer(cfg.balancers[b], st.servers, avoid);
        assert b == k;
      }
    }
  }

  /** The new channel, if there is one, leads to a redundant server. */
  ghost predicate LandsOnRedundant(st: State, st': State) {
    exists s :: |st'.channels| == |st.channels| + 1 && s == st'.channels[|st.channels|].server
                && 0 <= s < |st.servers| && st.servers[s].redundant
  }

  /**
   A creation puts its channel on a redundant server exactly when a cached route that may be used
   leads to one, or, without such a route, when the first balancer that can serve the host has no
   eligible server that is not redundant, apart from the one to avoid.
   */
  lemma CreateUsesRedundantIff(kind: Kind, cfg: Config, st: State, src: Sock, avoid: int, how: Attempt)
    requires Ready(cfg, st)
    ensures Reuses(cfg, st, avoid, how) ==> 0 <= st.heap[st.cache[how.peer.value]].server < |st.servers|
    ensures LandsOnRedundant(st, Create(kind, cfg, st, src, avoid, how)) <==>
              && Starts(how)
              && if Reuses(cfg, st, avoid, how) then st.servers[st.heap[st.cache[how.peer.value]].server].redundant
                 else FallsBack(cfg, st, how.peer.value, avoid)
  {
    CreateLands(kind, cfg, st, src, avoid, how);
    CoreServersOK(st);
    if how.peer.Some? {
      ChoiceRedundantIff(cfg, st, how.peer.value, avoid);
      ChosenRouteIsConsistent(cfg.balancers, st.servers, st.clients, how.peer.value, avoid);
    }
    if Reuses(cfg, st, avoid, how) {
      assert RouteOK(st, st.cache[how.peer.value]);
    }
  }

  lemma AcceptUsesRedundantIff(kind: Kind, cfg: Config, st: State, src: Sock, how: Attempt)
    requires Ready(cfg, st)
    ensures Reuses(cfg, st, NIL, how) ==> 0 <= st.heap[st.cache[how.peer.value]].server < |st.servers|
    ensures LandsOnRedundant(st, Step(kind, cfg, st, Accept(src, how))) <==>
              && Starts(how)
              && if Reuses(cfg, st, NIL, how) then st.servers[st.heap[st.cache[how.peer.value]].server].redundant
                 else FallsBack(cfg, st, how.peer.value, NIL)
  {
    var st1 := OpenSock(st, src);
    SameCore(st, st1);
    CreateUsesRedundantIff(kind, cfg, st1, src, NIL, how);
    assert how.peer.Some? ==> (FallsBack(cfg, st1, how.peer.value, NIL) <==> FallsBack(cfg, st, how.peer.value, NIL));
  }

  // ---- whole runs ----

  /** The balancer has a server, and lists a group of at least one slot that matches the source. */
  ghost predicate Provides(b: Balancer, clients: seq<Client>, a: Addr) {
    b.servers != [] && exists k :: k in b.clients && k < |clients| && clients[k].maxSlots >= 1
                                   && SourceMatches(clients[k], a)
  }

  /** The configuration has a place for the host. */
  ghost predicate Provided(cfg: Config, clients: seq<Client>, a: Addr) {
    !a.Unknown? && exists b :: b in cfg.balancers && Provides(b, clients, a)
  }

  ghost predicate SameGroups(clients: seq<Client>, clients': seq<Client>) {
    |clients'| == |clients| && forall k :: 0 <= k < |clients| ==> ClientButSlots(clients[k], clients'[k])
  }

  /** What a route keeps of the choice it was made for. */
  datatype Place = Place(key: Addr, balancer: int, client: int, server: int)

  function PlaceOf(e: Route): Place {
    Place(e.key, e.balancer, e.client, e.server)
  }

  /** One balancer lists the group and the server, and the group has slots and matches the host. */
  ghost predicate Fits(cfg: Config, clients: seq<Client>, p: Place) {
    && !p.key.Unknown?
    && 0 <= p.balancer < |cfg.balancers| && 0 <= p.client < |clients| && 0 <= p.server
    && p.client in cfg.balancers[p.balancer].clients && p.server in cfg.balancers[p.balancer].servers
    && clients[p.client].maxSlots >= 1 && SourceMatches(clients[p.client], p.key)
  }

  lemma FitIsProvided(cfg: Config, clients: seq<Client>, p: Place)
    requires Fits(cfg, clients, p)
    ensures Provided(cfg, clients, p.key)
  {
    var b := cfg.balancers[p.balancer];
    assert b in cfg.balancers && Provides(b, clients, p.key);
  }

  lemma ChoiceFits(cfg: Config, clients: seq<Client>, st: State, a: Addr, avoid: int)
    requires Ready(cfg, st) && SameGroups(clients, st.clients) && !a.Unknown?
    ensures ServersOK(st.servers)
    ensures var ch := Choose(cfg.balancers, st.servers, st.clients, a, avoid);
            ch.Some? ==> Fits(cfg, clients, Place(a, ch.value.balancer, ch.value.client, ch.value.server))
  {
    CoreServersOK(st);
    ChosenRouteIsConsistent(cfg.balancers, st.servers, st.clients, a, avoid);
    var ch := Choose(cfg.balancers, st.servers, st.clients, a, avoid);
    if ch.Some? {
      var c := ch.value.client;
      assert ClientSlotsOK(st, c) && ClientButSlots(clients[c], st.clients[c]);
      var n :| 0 <= n < |st.clients[c].sources| && InPrefix(a, st.clients[c].sources[n]);
      assert InPrefix(a, clients[c].sources[n]);
    }
  }

  /** Every route fits the configuration. */
  ghost predicate KeysOK(cfg: Config, clients: seq<Client>, st: State) {
    forall r :: r in st.heap ==> Fits(cfg, clients, PlaceOf(st.heap[r]))
  }

  /** Each route was there before, in the same place, or is in the place `more`. */
  ghost predicate KeysFrom(st: State, st': State, more: Option<Place>) {
    forall r :: r in st'.heap ==>
      (r in st.heap && PlaceOf(st'.heap[r]) == PlaceOf(st.heap[r])) || more == Some(PlaceOf(st'.heap[r]))
  }

  lemma KeysFromOn(a: State, b: State, c: State, more: Option<Place>)
    requires KeysFrom(a, b, None) && KeysFrom(b, c, more)
    ensures KeysFrom(a, c, more)
  {
  }

  lemma KeysStayOK(cfg: Config, clients: seq<Client>, st: State, st': State, more: Option<Place>)
    requires KeysOK(cfg, clients, st) && KeysFrom(st, st', more)
    requires more.Some? ==> Fits(cfg, clients, more.value)
    ensures KeysOK(cfg, clients, st')
  {
    forall r | r in st'.heap
      ensures Fits(cfg, clients, PlaceOf(st'.heap[r]))
    {
      assert (r in st.heap && PlaceOf(st'.heap[r]) == PlaceOf(st.heap[r])) || more == Some(PlaceOf(st'.heap[r]));
    }
  }

  lemma DropKeys(st: State, keys: set<Addr>)
    ensures KeysFrom(st, DropAll(st, keys), None)
  {
  }

  lemma AddKeys(cfg: Config, st: State, key: Addr, r: RoutePtr, now: int)
    requires r in st.heap
    ensures KeysFrom(st, Add(cfg, st, key, r, now), None)
  {
  }

  lemma InsertKeys(kind: Kind, cfg: Config, st: State, key: Addr, r: RoutePtr, now: int)
    requires Core(st) && r in st.heap && !st.heap[r].cached
    ensures KeysFrom(st, Insert(kind, cfg, st, key, r, now), None)
  {
    AddKeys(cfg, st, key, r, now);
    if Insert(kind, cfg, st, key, r, now) != Add(cfg, st, key, r, now) {
      var dropped := DropAll(st, {key});
      DropKeys(st, {key});
      AddKeys(cfg, dropped, key, r, now);
      KeysFromOn(st, dropped, Add(cfg, dropped, key, r, now), None);
    }
  }

  lemma LookupKeys(kind: Kind, cfg: Config, st: State, key: Addr, now: int)
    requires CacheOK(st)
    ensures KeysFrom(st, Lookup(kind, cfg, st, key, now).0, None)
  {
  }

  lemma AttachKeys(st: State, key: Addr, src: Sock, ch: Choice, dst: Sock, how: Attempt)
    requires ch.server < |st.servers| && ch.client < |st.clients|
    ensures KeysFrom(st, FreshChannel(st, key, src, ch, dst, how), Some(Place(key, ch.balancer, ch.client, ch.server)))
  {
  }

  /** With no new key from the second step, what the first one added is all. */
  lemma KeysFromBefore(a: State, b: State, c: State, more: Option<Place>)
    requires KeysFrom(a, b, more) && KeysFrom(b, c, None)
    ensures KeysFrom(a, c, more)
  {
  }

  function PlaceFor(key: Addr, choice: Option<Choice>): Option<Place> {
    if choice.None? then None
    else Some(Place(key, choice.value.balancer, choice.value.client, choice.value.server))
  }

  lemma FreshKeys(kind: Kind, cfg: Config, st: State, key: Addr, src: Sock, choice: Option<Choice>, how: Attempt)
    requires Core(st) && ChoiceOK(st, key, NIL, choice)
    ensures KeysFrom(st, UseFresh(kind, cfg, st, key, src, choice, how), PlaceFor(key, choice))
  {
    if choice.Some? && how.outcome.Started? {
      var dst := how.outcome.target;
      FreshAttached(st, key, src, choice.value, dst, how);
      var st1 := FreshChannel(st, key, src, choice.value, dst, how);
      AttachKeys(st, key, src, choice.value, dst, how);
      InsertKeys(kind, cfg, st1, key, st.next, how.times.add);
      KeysFromBefore(st, st1, UseFresh(kind, cfg, st, key, src, choice, how), PlaceFor(key, choice));
    }
  }

  lemma CachedKeys(st: State, key: Addr, r: RoutePtr, src: Sock, how: Attempt)
    requires Core(st) && r in st.heap
    ensures KeysFrom(st, UseCached(st, key, r, src, how), None)
  {
    assert RouteOK(st, r);
    if how.outcome.Refused? && Idle(st, key) {
      DropKeys(st, {key});
    }
  }

  /** The place of the route that a creation may add. */
  ghost function NewPlace(cfg: Config, st: State, avoid: int, how: Attempt): Option<Place>
    requires ServersOK(st.servers)
  {
    if how.peer.None? || how.peer.value.Unknown? then None
    else PlaceFor(how.peer.value, Choose(cfg.balancers, st.servers, st.clients, how.peer.value, avoid))
  }

  lemma FreshPlaces(kind: Kind, cfg: Config, st: State, st1: State, key: Addr, src: Sock, avoid: int, how: Attempt)
    requires Ready(cfg, st1) && how.peer == Some(key) && !key.Unknown? && KeysFrom(st, st1, None)
    requires st1.servers == st.servers && st1.clients == st.clients && ServersOK(st.servers)
    ensures KeysFrom(st, UseFresh(kind, cfg, st1, key, src, Chosen(cfg, st1, key, avoid), how),
                     NewPlace(cfg, st, avoid, how))
  {
    var choice := Chosen(cfg, st1, key, avoid);
    FreshKeys(kind, cfg, st1, key, src, choice, how);
    KeysFromOn(st, st1, UseFresh(kind, cfg, st1, key, src, choice, how), PlaceFor(key, choice));
  }

  lemma KeysFromMore(st: State, st': State, more: Option<Place>)
    requires KeysFrom(st, st', None)
    ensures KeysFrom(st, st', more)
  {
  }

  /** A creation adds a route only for its peer's host, in the place of the balancers' choice. */
  lemma CreateKeys(kind: Kind, cfg: Config, st: State, src: Sock, avoid: int, how: Attempt)
    requires Ready(cfg, st)
    ensures ServersOK(st.servers)
    ensures KeysFrom(st, Create(kind, cfg, st, src, avoid, how), NewPlace(cfg, st, avoid, how))
  {
    CoreServersOK(st);
    if how.peer.Some? && !how.peer.value.Unknown? {
      var key := how.peer.value;
      LookupKeepsCore(kind, cfg, st, key, how.times.find);
      LookupKeys(kind, cfg, st, key, how.times.find);
      var (st1, found) := Lookup(kind, cfg, st, key, how.times.find);
      if found.None? {
        FreshPlaces(kind, cfg, st, st1, key, src, avoid, how);
      } else if st1.heap[found.value].server != avoid {
        CachedKeys(st1, key, found.value, src, how);
        KeysFromOn(st, st1, UseCached(st1, key, found.value, src, how), None);
        KeysFromMore(st, UseCached(st1, key, found.value, src, how), NewPlace(cfg, st, avoid, how));
      } else {
        RemoveKeepsCore(st1, key);
        RemoveKeys(st1, key);
        KeysFromOn(st, st1, Remove(st1, key), None);
        FreshPlaces(kind, cfg, st, Remove(st1, key), key, src, avoid, how);
      }
    }
  }

  lemma RemoveKeys(st: State, key: Addr)
    requires CacheOK(st)
    ensures KeysFrom(st, Remove(st, key), None)
  {
    DropKeys(st, {key});
  }

  lemma CreateKeepsKeys(kind: Kind, cfg: Config, clients: seq<Client>, st: State, src: Sock, avoid: int, how: Attempt)
    requires Ready(cfg, st) && SameGroups(clients, st.clients) && KeysOK(cfg, clients, st)
    ensures KeysOK(cfg, clients, Create(kind, cfg, st, src, avoid, how))
  {
    CreateKeys(kind, cfg, st, src, avoid, how);
    if how.peer.Some? && !how.peer.value.Unknown? {
      ChoiceFits(cfg, clients, st, how.peer.value, avoid);
    }
    KeysStayOK(cfg, clients, st, Create(kind, cfg, st, src, avoid, how), NewPlace(cfg, st, avoid, how));
  }

  lemma DestroyKeys(cfg: Config, clients: seq<Client>, st: State, i: nat, t: int)
    requires Core(st) && i < |st.channels| && KeysOK(cfg, clients, st)
    ensures KeysOK(cfg, clients, Destroy(st, i, t))
  {
    assert ChannelOK(st, st.channels[i]);
  }

  lemma FailoverKeys(kind: Kind, cfg: Config, clients: seq<Client>, st: State, i: nat, how: Attempt, gone: int)
    requires Ready(cfg, st) && i < |st.channels| && SameGroups(clients, st.clients) && KeysOK(cfg, clients, st)
    ensures KeysOK(cfg, clients, FailoverAt(kind, cfg, st, i, how, gone))
  {
    var c := st.channels[i];
    ChannelServerInRange(st, i);
    AfterFaultReady(cfg, st, i);
    CreateKeepsKeys(kind, cfg, clients, AfterFault(cfg, st, i), c.source, c.server, how);
    ReplacedKeepsCore(kind, cfg, st, i, how);
    DestroyKeys(cfg, clients, Replaced(kind, cfg, st, i, how), i, gone);
  }

  lemma StepKeys(kind: Kind, cfg: Config, clients: seq<Client>, st: State, ev: Event)
    requires Ready(cfg, st) && Refers(st, ev) && SameGroups(clients, st.clients) && KeysOK(cfg, clients, st)
    ensures KeysOK(cfg, clients, Step(kind, cfg, st, ev))
  {
    match ev
    case Accept(src, how) =>
      SameCore(st, OpenSock(st, src));
      CreateKeepsKeys(kind, cfg, clients, OpenSock(st, src), src, NIL, how);
    case Failover(id, how, gone) => FailoverKeys(kind, cfg, clients, st, IndexOf(st.channels, id), how, gone);
    case Close(id, gone) => DestroyKeys(cfg, clients, st, IndexOf(st.channels, id), gone);
    case Connect(id) => ChannelServerInRange(st, IndexOf(st.channels, id));
    case Activate(_) =>
    case Deactivate(_) =>
    case Report(_, _, _, _, _, _, _) =>
  }

  lemma StepGroups(kind: Kind, cfg: Config, clients: seq<Client>, st: State, ev: Event)
    requires Ready(cfg, st) && Refers(st, ev) && SameGroups(clients, st.clients)
    ensures SameGroups(clients, Step(kind, cfg, st, ev).clients)
  {
    StepServers(kind, cfg, st, ev);
    var st' := Step(kind, cfg, st, ev);
    forall k | 0 <= k < |clients|
      ensures ClientButSlots(clients[k], st'.clients[k])
    {
      assert ClientButSlots(clients[k], st.clients[k]);
      assert ClientButSlots(Touched(cfg, st, ev).clients[k], st'.clients[k]);
    }
  }

  lemma {:induction false} RunKeys(kind: Kind, cfg: Config, clients: seq<Client>, st: State, clock: int,
                                   evs: seq<Event>)
    requires Inv(cfg, st) && IsRun(kind, cfg, st, clock, evs)
    requires SameGroups(clients, st.clients) && KeysOK(cfg, clients, st)
    ensures KeysOK(cfg, clients, Exec(kind, cfg, st, clock, evs))
    decreases |evs|
  {
    if evs != [] {
      var ev := evs[0];
      StepKeepsInv(kind, cfg, st, clock, ev);
      StepKeys(kind, cfg, clients, st, ev);
      StepGroups(kind, cfg, clients, st, ev);
      RunKeys(kind, cfg, clients, Step(kind, cfg, st, ev), EndTime(ev, clock), evs[1..]);
    }
  }

  /** The run ends with a live channel for the host. */
  ghost predicate Connects(kind: Kind, cfg: Config, st: State, clock: int, evs: seq<Event>, a: Addr)
    requires Inv(cfg, st)
  {
    && IsRun(kind, cfg, st, clock, evs)
    && var end := Exec(kind, cfg, st, clock, evs);
       exists c :: c in end.channels && c.route in end.heap && end.heap[c.route].key == a
  }

  /** The tracker finds server `s` idle, and then the host connects. */
  function FirstConnection(s: nat, a: Addr, clock: int): seq<Event> {
    [Report(s, true, 0, 0, None, None, false), FirstArrival(a, clock)]
  }

  function FirstArrival(a: Addr, clock: int): Event {
    Accept(0, Attempt(Some(a), clock, Times(clock, clock, clock), Started(1)))
  }

  /** With no handle open and a balancer that can serve the host, an arrival is connected. */
  lemma ArrivalConnects(kind: Kind, cfg: Config, st: State, clock: int, a: Addr)
    requires Inv(cfg, st) && st.open == {} && !a.Unknown? && SomeServes(cfg, st, a, NIL)
    ensures Enabled(cfg, st, clock, FirstArrival(a, clock))
    ensures exists to :: Made(st, Step(kind, cfg, st, FirstArrival(a, clock)), a, to)
  {
    var ev := FirstArrival(a, clock);
    var st1 := OpenSock(st, 0);
    SameCore(st, st1);
    CreateConnectsIff(kind, cfg, st1, 0, NIL, ev.how);
    assert SomeServes(cfg, st1, a, NIL);
    var to :| Made(st1, Create(kind, cfg, st1, 0, NIL, ev.how), a, to);
    MadeFrom(st, st1, Step(kind, cfg, st, ev), a, to);
  }

  lemma IdleServerServes(cfg: Config, st: State, i: nat, s: nat, k: nat, a: Addr)
    requires i < |cfg.balancers| && s in cfg.balancers[i].servers && s < |st.servers| && Eligible(st.servers[s])
    requires k in cfg.balancers[i].clients && Admits(st.clients, k, a)
    ensures SomeServes(cfg, st, a, NIL)
  {
    var b := cfg.balancers[i];
    var m :| 0 <= m < |b.servers| && b.servers[m] == s;
    var n :| 0 <= n < |b.clients| && b.clients[n] == k;
    assert CanServe(b, st.servers, st.clients, a, NIL);
  }

  lemma ReportedServes(kind: Kind, cfg: Config, st: State, i: nat, s: nat, k: nat, a: Addr)
    requires Initial(cfg, st) && Ready(cfg, st) && i < |cfg.balancers|
    requires s in cfg.balancers[i].servers && s < |st.servers|
    requires k in cfg.balancers[i].clients && k < |st.clients|
    requires st.clients[k].maxSlots >= 1 && SourceMatches(st.clients[k], a)
    ensures SomeServes(cfg, Step(kind, cfg, st, Report(s, true, 0, 0, None, None, false)), a, NIL)
  {
    assert st.servers[s] in st.servers && st.clients[k] in st.clients;
    IdleServerServes(cfg, Step(kind, cfg, st, Report(s, true, 0, 0, None, None, false)), i, s, k, a);
  }

  lemma ProviderOf(cfg: Config, st: State, a: Addr) returns (i: nat, s: nat, k: nat)
    requires ConfigOK(cfg, |st.servers|, |st.clients|) && Provided(cfg, st.clients, a)
    ensures i < |cfg.balancers| && s in cfg.balancers[i].servers && s < |st.servers|
    ensures k in cfg.balancers[i].clients && k < |st.clients|
    ensures st.clients[k].maxSlots >= 1 && SourceMatches(st.clients[k], a)
  {
    var b :| b in cfg.balancers && Provides(b, st.clients, a);
    i :| 0 <= i < |cfg.balancers| && cfg.balancers[i] == b;
    k :| k in b.clients && k < |st.clients| && st.clients[k].maxSlots >= 1 && SourceMatches(st.clients[k], a);
    s := b.servers[0];
    assert BalancerOK(b, |st.servers|, |st.clients|) && s in b.servers;
  }

  /** From the start, a host that is provided for is connected by its first arrival. */
  lemma ProvidedConnects(kind: Kind, cfg: Config, st: State, clock: int, a: Addr) returns (s: nat)
    requires Initial(cfg, st) && Inv(cfg, st) && Provided(cfg, st.clients, a)
    ensures Connects(kind, cfg, st, clock, FirstConnection(s, a, clock), a)
  {
    var i, k;
    i, s, k := ProviderOf(cfg, st, a);
    ReportedServes(kind, cfg, st, i, s, k, a);
    ReportThenArrive(kind, cfg, st, clock, s, a);
  }

  lemma ReportThenArrive(kind: Kind, cfg: Config, st: State, clock: int, s: nat, a: Addr)
    requires Inv(cfg, st) && st.open == {} && s < |st.servers| && !a.Unknown?
    requires SomeServes(cfg, Step(kind, cfg, st, Report(s, true, 0, 0, None, None, false)), a, NIL)
    ensures Connects(kind, cfg, st, clock, FirstConnection(s, a, clock), a)
  {
    var ev, arrival := Report(s, true, 0, 0, None, None, false), FirstArrival(a, clock);
    StepKeepsInv(kind, cfg, st, clock, ev);
    var st1 := Step(kind, cfg, st, ev);
    ArrivalConnects(kind, cfg, st1, clock, a);
    RunOfTwo(kind, cfg, st, clock, ev, arrival);
    var to :| Made(st1, Step(kind, cfg, st1, arrival), a, to);
    MadeIsLive(st1, Step(kind, cfg, st1, arrival), a, to);
  }

  lemma MadeIsLive(st: State, st': State, a: Addr, to: Destination)
    requires Made(st, st', a, to)
    ensures exists c :: c in st'.channels && c.route in st'.heap && st'.heap[c.route].key == a
  {
    assert st'.channels[|st.channels|] in st'.channels;
  }

  /**
   Some run of the proxy connects a host if and only if some balancer with a server lists a group
   of at least one slot that matches it. So a group of no slots keeps its subnet out exactly as
   far as no other such group covers it.
   */
  lemma ConnectsIffProvided(kind: Kind, cfg: Config, st: State, clock: int, a: Addr)
    requires Initial(cfg, st) && Inv(cfg, st)
    ensures (exists evs :: Connects(kind, cfg, st, clock, evs, a)) <==> Provided(cfg, st.clients, a)
  {
    if Provided(cfg, st.clients, a) {
      var s := ProvidedConnects(kind, cfg, st, clock, a);
    }
    forall evs | Connects(kind, cfg, st, clock, evs, a)
      ensures Provided(cfg, st.clients, a)
    {
      RunKeys(kind, cfg, st.clients, st, clock, evs);
      var end := Exec(kind, cfg, st, clock, evs);
      var c :| c in end.channels && c.route in end.heap && end.heap[c.route].key == a;
      FitIsProvided(cfg, st.clients, PlaceOf(end.heap[c.route]));
    }
  }

  /**
   After any run every live channel counts for a client group that has slots and matches the
   host of its route, and some balancer lists both that group and the channel's server.
   */
  lemma LiveChannelsFit(kind: Kind, cfg: Config, st: State, clock: int, evs: seq<Event>, c: Channel)
    requires Initial(cfg, st) && Inv(cfg, st) && IsRun(kind, cfg, st, clock, evs)
    requires c in Exec(kind, cfg, st, clock, evs).channels
    ensures var end := Exec(kind, cfg, st, clock, evs);
            && c.route in end.heap && 0 <= c.client < |st.clients|
            && st.clients[c.client].maxSlots >= 1
            && (exists n :: 0 <= n < |st.clients[c.client].sources|
                            && InPrefix(end.heap[c.route].key, st.clients[c.client].sources[n]))
            && exists b :: b in cfg.balancers && c.client in b.clients && c.server in b.servers
  {
    RunKeys(kind, cfg, st.clients, st, clock, evs);
    RunKeepsInv(kind, cfg, st, clock, evs);
    var end := Exec(kind, cfg, st, clock, evs);
    LiveChannelOK(end, c);
    assert Fits(cfg, st.clients, PlaceOf(end.heap[c.route]));
    assert cfg.balancers[end.heap[c.route].balancer] in cfg.balancers;
  }
}
