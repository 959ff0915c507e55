/** What the proxy does not promise: limits and client groups that a reader of the manual might rely on. */
module CacheHits {
  import opened Seqs
  import opened Inet
  import opened Model
  import opened Selector
  import opened RouteTable
  import opened Steps
  import opened Runs
  import opened Connections

  /** A connection whose host is in the cache joins the cached route, however full its server is. */
  lemma HitIgnoresLimits(cfg: Config, st: State, src: Sock, how: Attempt)
    requires Ready(cfg, st) && how.peer.Some? && !how.peer.value.Unknown? && how.outcome.Started?
    requires Visible(cfg, st, how.peer.value, how.times.find)
    ensures Refers(st, Accept(src, how))
    ensures var e := st.heap[st.cache[how.peer.value]];
            var st' := Step(Swept, cfg, st, Accept(src, how));
            && 0 <= e.server < |st.servers| && |st'.servers| == |st.servers|
            && st'.servers[e.server] == st.servers[e.server].(numSlots := st.servers[e.server].numSlots + 1)
            && |st'.channels| == |st.channels| + 1
            && st'.channels[|st.channels|].route == st.cache[how.peer.value]
            && st'.channels[|st.channels|].server == e.server
  {
    var key := how.peer.value;
    var st1 := OpenSock(st, src);
    SameCore(st, st1);
    LookupKeepsCore(Swept, cfg, st1, key, how.times.find);
    FindKeepsCore(cfg, st1, key, how.times.find);
    assert RouteOK(st, st.cache[key]);
  }

  // ---- a run that fills a server beyond its limit ----

  const HOST := V4(1)

  const ONE_SERVER := Server(true, 0, 1, 1, 0, 0, 100, 0, false, None, None)

  const ANYONE := Client([Cidr(V4(0), 0)], 0, 10)

  const CACHED := Config(true, 60, 2, 30, [Balancer([0], [0], ByBusyness, true, false, false)])

  const START := State(map[], 0, map[], 0, [], 1, [ONE_SERVER], [ANYONE], {})

  function Arrival(src: Sock, dst: Sock): Event {
    Accept(src, Attempt(Some(HOST), 0, Times(0, 0, 0), Started(dst)))
  }

  lemma HostMatchesAnyone()
    ensures SourceMatches(ANYONE, HOST)
  {
    ZeroPrefixAdmitsAll(HOST, V4(0));
    assert InPrefix(HOST, ANYONE.sources[0]);
  }

  lemma OnlyChoice(st: State)
    requires Ready(CACHED, st) && st.servers == [ONE_SERVER] && st.clients == [ANYONE]
    ensures Chosen(CACHED, st, HOST, NIL) == Some(Choice(0, 0, 0))
  {
    CoreServersOK(st);
    ChosenRouteIsConsistent(CACHED.balancers, st.servers, st.clients, HOST, NIL);
    var b := CACHED.balancers[0];
    HostMatchesAnyone();
    assert Admits(st.clients, b.clients[0], HOST) && HasClient(b, st.clients, HOST);
    assert Eligible(st.servers[b.servers[0]]) && HasServer(b, st.servers, NIL);
    assert CanServe(b, st.servers, st.clients, HOST, NIL);
  }

  /** What the first connection leaves: its route is cached, and the one slot is taken. */
  ghost predicate Served(st: State) {
    && st.servers == [ONE_SERVER.(numSlots := 1)] && st.open == {1, 2}
    && HOST in st.cache && st.cache[HOST] in st.heap
    && st.heap[st.cache[HOST]].server == 0 && !Stale(CACHED, st.heap[st.cache[HOST]], 0)
  }

  /** A selected route whose host is not in the cache is cached. */
  lemma FreshIsCached(cfg: Config, st: State, key: Addr, src: Sock, ch: Choice, how: Attempt)
    requires Core(st) && ChoiceOK(st, key, NIL, Some(ch)) && how.outcome.Started?
    requires cfg.caching && key !in st.cache
    ensures var st' := UseFresh(Swept, cfg, st, key, src, Some(ch), how);
            && 0 <= ch.server < |st.servers|
            && st'.servers == BumpServer(st.servers, ch.server, st.servers[ch.server].numSlots + 1)
            && st'.open == st.open + {how.outcome.target}
            && key in st'.cache && st'.cache[key] in st'.heap
            && st'.heap[st'.cache[key]] == FreshRoute(key, ch).(cached := true, numSlots := 1, actTime := how.times.add)
  {
    FreshAttached(st, key, src, ch, how.outcome.target, how);
  }

  lemma FreshServed(st: State)
    requires Ready(CACHED, st) && st == OpenSock(START, 1)
    ensures ChoiceOK(st, HOST, NIL, Some(Choice(0, 0, 0)))
    ensures Served(UseFresh(Swept, CACHED, st, HOST, 1, Some(Choice(0, 0, 0)), Arrival(1, 2).how))
  {
    OnlyChoice(st);
    FreshIsCached(CACHED, st, HOST, 1, Choice(0, 0, 0), Arrival(1, 2).how);
  }

  /** The first connection is selected, and its route is cached. */
  lemma FirstArrival()
    ensures Initial(CACHED, START) && Inv(CACHED, START)
    ensures Enabled(CACHED, START, 0, Arrival(1, 2))
    ensures Served(Step(Swept, CACHED, START, Arrival(1, 2)))
  {
    InitialInv(CACHED, START);
    var st := OpenSock(START, 1);
    SameCore(START, st);
    OnlyChoice(st);
    FreshServed(st);
  }

  /** Two connections from one host put two channels on a server that is configured for one. */
  lemma LimitCanBeExceeded()
    ensures Initial(CACHED, START) && Inv(CACHED, START)
    ensures IsRun(Swept, CACHED, START, 0, [Arrival(1, 2), Arrival(3, 4)])
    ensures var end := Exec(Swept, CACHED, START, 0, [Arrival(1, 2), Arrival(3, 4)]);
            |end.servers| == 1 && end.servers[0].confSlots == 1 && end.servers[0].numSlots == 2
  {
    FirstArrival();
    var first, second := Arrival(1, 2), Arrival(3, 4);
    StepKeepsInv(Swept, CACHED, START, 0, first);
    HitIgnoresLimits(CACHED, Step(Swept, CACHED, START, first), 3, second.how);
    RunOfTwo(Swept, CACHED, START, 0, first, second);
  }

  // ---- a group without slots ----

  /** In the search of one list, a group whose limit is 0 does not hide a later group that matches too. */
  lemma BlockedGroupLetsLaterGroupMatch(list: seq<nat>, clients: seq<Client>, a: Addr)
    ensures FirstClient(list, clients, a, 0).None? <==> forall k :: 0 <= k < |list| ==> !Admits(clients, list[k], a)
    ensures var closed, open := Client([Cidr(V4(0), 0)], 0, 0), Client([Cidr(V4(0), 0)], 0, 1);
            FirstClient([0, 1], [closed, open], V4(7), 0) == Some(1)
  {
    FirstClientExact(list, clients, a, 0);
    if FirstClient(list, clients, a, 0).Some? {
      var c := FirstClient(list, clients, a, 0).value;
      var k :| 0 <= k < |list| && list[k] == c;
    }
    var closed, open := Client([Cidr(V4(0), 0)], 0, 0), Client([Cidr(V4(0), 0)], 0, 1);
    ZeroPrefixAdmitsAll(V4(7), V4(0));
    assert InPrefix(V4(7), open.sources[0]);
    assert SourceMatches(open, V4(7));
    FirstClientExact([0, 1], [closed, open], V4(7), 0);
    assert Admits([closed, open], [0, 1][1], V4(7));
  }

  /** Two groups that match everybody; the first one has no slots. */
  const GROUPS := [Client([Cidr(V4(0), 0)], 0, 0), ANYONE]

  const BOTH_GROUPS := Config(true, 60, 2, 30, [Balancer([0, 1], [0], ByBusyness, true, false, false)])

  const TWO_GROUPS := START.(clients := GROUPS)

  /** The subnet of a group without slots is connected all the same, by a run of the proxy. */
  lemma BlockedGroupConnects()
    ensures Initial(BOTH_GROUPS, TWO_GROUPS) && Inv(BOTH_GROUPS, TWO_GROUPS)
    ensures SourceMatches(GROUPS[0], HOST) && GROUPS[0].maxSlots == 0
    ensures Connects(Swept, BOTH_GROUPS, TWO_GROUPS, 0, FirstConnection(0, HOST, 0), HOST)
  {
    InitialInv(BOTH_GROUPS, TWO_GROUPS);
    HostMatchesAnyone();
    assert InPrefix(HOST, ANYONE.sources[0]);
    assert InPrefix(HOST, GROUPS[0].sources[0]);
    ReportedServes(Swept, BOTH_GROUPS, TWO_GROUPS, 0, 0, 1, HOST);
    ReportThenArrive(Swept, BOTH_GROUPS, TWO_GROUPS, 0, 0, HOST);
  }

  // ---- a redundant server ----

  const RESERVE := ONE_SERVER.(redundant := true)

  const WITH_RESERVE := Config(true, 60, 2, 30, [Balancer([0], [0, 1], ByBusyness, true, false, false)])

  const PAIR := START.(servers := [ONE_SERVER, RESERVE])

  lemma OnlyReserveServes(st: State)
    requires Ready(WITH_RESERVE, st) && st.clients == [ANYONE]
    requires st.servers == [Deactivated(ONE_SERVER), RESERVE]
    ensures SomeServes(WITH_RESERVE, st, HOST, NIL) && FallsBack(WITH_RESERVE, st, HOST, NIL)
  {
    var b := WITH_RESERVE.balancers[0];
    HostMatchesAnyone();
    assert Admits(st.clients, b.clients[0], HOST) && HasClient(b, st.clients, HOST);
    assert Eligible(st.servers[b.servers[1]]) && HasServer(b, st.servers, NIL);
    assert CanServe(b, st.servers, st.clients, HOST, NIL);
    assert NoneServes(WITH_RESERVE.balancers, st.servers, st.clients, HOST, NIL, 0, 0);
    assert !HasPlainServer(b, st.servers, NIL);
  }

  /** A redundant server gets a connection while the other one has a free slot: it is not active. */
  lemma RedundantServerIsInvolved()
    ensures Initial(WITH_RESERVE, PAIR) && Inv(WITH_RESERVE, PAIR)
    ensures IsRun(Swept, WITH_RESERVE, PAIR, 0, [Deactivate(0), Arrival(1, 2)])
    ensures var st := Step(Swept, WITH_RESERVE, PAIR, Deactivate(0));
            && Ready(WITH_RESERVE, st)
            && st.servers[0].numSlots < st.servers[0].maxSlots && !st.servers[0].redundant
            && LandsOnRedundant(st, Step(Swept, WITH_RESERVE, st, Arrival(1, 2)))
  {
    InitialInv(WITH_RESERVE, PAIR);
    StepKeepsInv(Swept, WITH_RESERVE, PAIR, 0, Deactivate(0));
    var st := Step(Swept, WITH_RESERVE, PAIR, Deactivate(0));
    RunOfTwo(Swept, WITH_RESERVE, PAIR, 0, Deactivate(0), Arrival(1, 2));
    OnlyReserveServes(st);
    AcceptUsesRedundantIff(Swept, WITH_RESERVE, st, 1, Arrival(1, 2).how);
  }
}
