/** Whole runs of the proxy: which steps may happen, what every reachable state keeps. */
module Runs {
  import opened Seqs
  import opened Inet
  import opened Model
  import opened Selector
  import opened RouteTable
  import opened Steps

  // ---- which steps may happen ----

  predicate FreshHandle(st: State, h: Sock) {
    h != NOSOCK && h !in st.open
  }

  predicate AttemptOK(st: State, clock: int, how: Attempt) {
    && clock <= how.times.find <= how.times.ctor <= how.times.add
    && (how.outcome.Started? ==> FreshHandle(st, how.outcome.target))
  }

  /**
   New handles come from the operating system, so they are not open; the clock does not run
   backwards; the peer of a channel's source socket is still the host its route was made for.
   */
  ghost predicate Enabled(cfg: Config, st: State, clock: int, ev: Event)
    requires Ready(cfg, st)
  {
    && Refers(st, ev)
    && match ev
       case Accept(src, how) =>
         && FreshHandle(st, src) && AttemptOK(st, clock, how)
         && (how.outcome.Started? ==> how.outcome.target != src)
       case Failover(id, how, gone) =>
         var c := st.channels[IndexOf(st.channels, id)];
         && AttemptOK(st, clock, how) && how.times.add <= gone && !c.connected
         && (how.peer.Some? ==> c.route in st.heap && how.peer.value == st.heap[c.route].key)
       case Close(_, gone) => clock <= gone
       case Connect(id) => !st.channels[IndexOf(st.channels, id)].connected
       case _ => true
  }

  function EndTime(ev: Event, clock: int): int {
    match ev
    case Accept(_, how) => how.times.add
    case Failover(_, _, gone) => gone
    case Close(_, gone) => gone
    case _ => clock
  }

  // ---- socket handles ----

  /** How many sides of a channel use handle `h`. */
  function Sides(c: Channel, h: Sock): nat {
    (if c.source == h then 1 else 0) + (if c.target == h then 1 else 0)
  }

  function Owned(chs: seq<Channel>, h: Sock): nat {
    if chs == [] then 0 else Owned(chs[..|chs| - 1], h) + Sides(chs[|chs| - 1], h)
  }

  /** Every open handle is owned exactly once, and only open handles are owned. */
  ghost predicate SocksOK(chs: seq<Channel>, open: set<Sock>) {
    NOSOCK !in open && forall h :: Owned(chs, h) == if h in open then 1 else 0
  }

  lemma OwnedAppend(chs: seq<Channel>, c: Channel, h: Sock)
    ensures Owned(chs + [c], h) == Owned(chs, h) + Sides(c, h)
  {
    assert (chs + [c])[..|chs|] == chs;
  }

  lemma {:induction false} OwnedRemove(chs: seq<Channel>, i: nat, h: Sock)
    requires i < |chs|
    ensures Owned(chs, h) == Owned(RemoveAt(chs, i), h) + Sides(chs[i], h)
  {
    var n := |chs| - 1;
    if i == n {
      assert RemoveAt(chs, i) == chs[..n];
    } else {
      OwnedRemove(chs[..n], i, h);
      assert RemoveAt(chs, i) == RemoveAt(chs[..n], i) + [chs[n]];
      OwnedAppend(RemoveAt(chs[..n], i), chs[n], h);
    }
  }

  lemma AppendSocks(chs: seq<Channel>, open: set<Sock>, c: Channel)
    requires SocksOK(chs, open)
    requires c.source != NOSOCK && c.target != NOSOCK && c.source != c.target
    requires c.source !in open && c.target !in open
    ensures SocksOK(chs + [c], open + {c.source, c.target})
  {
    forall h
      ensures Owned(chs + [c], h) == if h in open + {c.source, c.target} then 1 else 0
    {
      OwnedAppend(chs, c, h);
    }
  }

  lemma RemoveSocks(chs: seq<Channel>, open: set<Sock>, i: nat)
    requires SocksOK(chs, open) && i < |chs|
    ensures SocksOK(RemoveAt(chs, i), open - {chs[i].source, chs[i].target})
    ensures chs[i].source != chs[i].target && chs[i].source in open && chs[i].target in open
  {
    OwnedRemove(chs, i, chs[i].source);
    OwnedRemove(chs, i, chs[i].target);
    forall h
      ensures Owned(RemoveAt(chs, i), h) == if h in open - {chs[i].source, chs[i].target} then 1 else 0
    {
      OwnedRemove(chs, i, h);
    }
  }

  /** `connected` does not matter to ownership. */
  lemma SameSocks(chs: seq<Channel>, open: set<Sock>, i: nat, c: Channel)
    requires SocksOK(chs, open) && i < |chs| && c.source == chs[i].source && c.target == chs[i].target
    ensures SocksOK(chs[i := c], open)
  {
    forall h
      ensures Owned(chs[i := c], h) == if h in open then 1 else 0
    {
      OwnedRemove(chs, i, h);
      OwnedRemove(chs[i := c], i, h);
      RemoveAtFacts(chs, i, c);
    }
  }

  lemma AcceptKeepsSocks(kind: Kind, cfg: Config, st: State, clock: int, ev: Event)
    requires Ready(cfg, st) && ev.Accept? && Enabled(cfg, st, clock, ev) && SocksOK(st.channels, st.open)
    ensures SocksOK(Step(kind, cfg, st, ev).channels, Step(kind, cfg, st, ev).open)
  {
    var src, st1 := ev.src, OpenSock(st, ev.src);
    SameCore(st, st1);
    CreateShape(kind, cfg, st1, src, NIL, ev.how);
    var st' := Step(kind, cfg, st, ev);
    if GivenUp(st1, st', src) {
      assert st'.open == st.open;
    } else {
      var c := st'.channels[|st.channels|];
      AppendSocks(st.channels, st.open, c);
      assert st'.open == st.open + {c.source, c.target};
    }
  }

  /** The replacement keeps the failed channel in place, with its source handed over or closed. */
  ghost predicate ReplacedShape(st: State, st': State, i: nat, how: Attempt)
    requires i < |st.channels|
  {
    var c := st.channels[i];
    var chs := st.channels[i := c.(source := NOSOCK)];
    || (st'.channels == chs && st'.nextChan == st.nextChan && st'.open == st.open - {c.source})
    || (&& how.outcome.Started?
        && |st'.channels| == |chs| + 1
        && var d := st'.channels[|chs|];
        && st'.channels == chs + [d]
        && d.source == c.source && d.target == how.outcome.target && d.id == st.nextChan && !d.connected
        && d.connTime == how.loopNow
        && st'.nextChan == st.nextChan + 1
        && st'.open == st.open + {how.outcome.target})
  }

  lemma ReplacedHasShape(kind: Kind, cfg: Config, st: State, i: nat, how: Attempt)
    requires Ready(cfg, st) && i < |st.channels|
    ensures ReplacedShape(st, Replaced(kind, cfg, st, i, how), i, how)
  {
    var c := st.channels[i];
    AfterFaultReady(cfg, st, i);
    CreateShape(kind, cfg, AfterFault(cfg, st, i), c.source, c.server, how);
  }

  /** What a failover leaves: the rest of the list, and at its end the replacement if there is one. */
  ghost predicate FailoverShape(st: State, st': State, i: nat, how: Attempt)
    requires i < |st.channels|
  {
    var c := st.channels[i];
    var rest := RemoveAt(st.channels, i);
    || (st'.channels == rest && st'.nextChan == st.nextChan && st'.open == st.open - {c.source} - {NOSOCK, c.target})
    || (&& how.outcome.Started?
        && |st'.channels| == |rest| + 1
        && var d := st'.channels[|rest|];
        && st'.channels == rest + [d]
        && d.source == c.source && d.target == how.outcome.target && d.id == st.nextChan && !d.connected
        && d.connTime == how.loopNow
        && st'.nextChan == st.nextChan + 1
        && st'.open == st.open + {how.outcome.target} - {NOSOCK, c.target})
  }

  lemma FailoverHasShape(kind: Kind, cfg: Config, st: State, i: nat, how: Attempt, gone: int)
    requires Ready(cfg, st) && i < |st.channels|
    ensures FailoverShape(st, FailoverAt(kind, cfg, st, i, how, gone), i, how)
  {
    ReplacedHasShape(kind, cfg, st, i, how);
    ReplacedKeepsCore(kind, cfg, st, i, how);
    var c := st.channels[i];
    var chs := st.channels[i := c.(source := NOSOCK)];
    var st3 := Replaced(kind, cfg, st, i, how);
    RemoveAtFacts(st.channels, i, c.(source := NOSOCK));
    if |st3.channels| == |chs| + 1 {
      RemoveAtFacts(chs, i, st3.channels[|chs|]);
    }
  }

  lemma ShapeKeepsSocks(st: State, st': State, i: nat, how: Attempt)
    requires i < |st.channels| && SocksOK(st.channels, st.open)
    requires FailoverShape(st, st', i, how)
    requires how.outcome.Started? ==> FreshHandle(st, how.outcome.target)
    ensures SocksOK(st'.channels, st'.open)
  {
    var c := st.channels[i];
    var rest, open := RemoveAt(st.channels, i), st.open - {c.source, c.target};
    RemoveSocks(st.channels, st.open, i);
    if |st'.channels| == |rest| {
      assert st'.open == open;
    } else {
      var d := st'.channels[|rest|];
      AppendSocks(rest, open, d);
      assert st'.open == open + {d.source, d.target};
    }
  }

  lemma StepKeepsSocks(kind: Kind, cfg: Config, st: State, clock: int, ev: Event)
    requires Ready(cfg, st) && Enabled(cfg, st, clock, ev) && SocksOK(st.channels, st.open)
    ensures SocksOK(Step(kind, cfg, st, ev).channels, Step(kind, cfg, st, ev).open)
  {
    match ev
    case Accept(src, how) => AcceptKeepsSocks(kind, cfg, st, clock, ev);
    case Failover(id, how, gone) =>
      var i := IndexOf(st.channels, id);
      FailoverHasShape(kind, cfg, st, i, how, gone);
      ShapeKeepsSocks(st, Step(kind, cfg, st, ev), i, how);
    case Close(id, gone) => RemoveSocks(st.channels, st.open, IndexOf(st.channels, id));
    case Connect(id) =>
      var i := IndexOf(st.channels, id);
      SameSocks(st.channels, st.open, i, st.channels[i].(connected := true));
    case Activate(_) =>
    case Deactivate(_) =>
    case Report(_, _, _, _, _, _, _) =>
  }

  // ---- the invariant ----

  ghost predicate FaultsOK(cfg: Config, servers: seq<Server>) {
    forall s :: 0 <= s < |servers| ==> 0 <= servers[s].faults < cfg.maxFaults
  }

  /** Without caching every channel was admitted by selection. */
  ghost predicate UncachedOK(cfg: Config, st: State) {
    !cfg.caching ==> st.cache == map[] && forall i :: 0 <= i < |st.channels| ==> st.channels[i].selected
  }

  ghost predicate Inv(cfg: Config, st: State) {
    && Ready(cfg, st)
    && SocksOK(st.channels, st.open)
    && FaultsOK(cfg, st.servers)
    && UncachedOK(cfg, st)
  }

  lemma FreshKeepsUncached(kind: Kind, cfg: Config, st: State, key: Addr, src: Sock, choice: Option<Choice>,
                           how: Attempt)
    requires Ready(cfg, st) && UncachedOK(cfg, st) && ChoiceOK(st, key, NIL, choice)
    ensures UncachedOK(cfg, UseFresh(kind, cfg, st, key, src, choice, how))
  {
    if choice.Some? && how.outcome.Started? {
      FreshAttached(st, key, src, choice.value, how.outcome.target, how);
    }
  }

  lemma CreateKeepsUncached(kind: Kind, cfg: Config, st: State, src: Sock, avoid: int, how: Attempt)
    requires Ready(cfg, st) && UncachedOK(cfg, st)
    ensures UncachedOK(cfg, Create(kind, cfg, st, src, avoid, how))
  {
    if !cfg.caching && how.peer.Some? && !how.peer.value.Unknown? {
      var key := how.peer.value;
      LookupKeepsCore(kind, cfg, st, key, how.times.find);
      FreshKeepsUncached(kind, cfg, st, key, src, Chosen(cfg, st, key, avoid), how);
    }
  }

  lemma StepKeepsFaults(kind: Kind, cfg: Config, st: State, ev: Event)
    requires Ready(cfg, st) && Refers(st, ev) && FaultsOK(cfg, st.servers)
    ensures FaultsOK(cfg, Step(kind, cfg, st, ev).servers)
  {
    StepServers(kind, cfg, st, ev);
    assert FaultsOK(cfg, Touched(cfg, st, ev).servers);
  }

  lemma FailoverKeepsUncached(kind: Kind, cfg: Config, st: State, i: nat, how: Attempt, gone: int)
    requires Ready(cfg, st) && i < |st.channels| && UncachedOK(cfg, st)
    ensures UncachedOK(cfg, FailoverAt(kind, cfg, st, i, how, gone))
  {
    var c := st.channels[i];
    AfterFaultReady(cfg, st, i);
    CreateKeepsUncached(kind, cfg, AfterFault(cfg, st, i), c.source, c.server, how);
    ReplacedKeepsCore(kind, cfg, st, i, how);
  }

  lemma StepKeepsUncached(kind: Kind, cfg: Config, st: State, ev: Event)
    requires Ready(cfg, st) && Refers(st, ev) && UncachedOK(cfg, st)
    ensures UncachedOK(cfg, Step(kind, cfg, st, ev))
  {
    match ev
    case Accept(src, how) =>
      SameCore(st, OpenSock(st, src));
      CreateKeepsUncached(kind, cfg, OpenSock(st, src), src, NIL, how);
    case Failover(id, how, gone) => FailoverKeepsUncached(kind, cfg, st, IndexOf(st.channels, id), how, gone);
    case Close(id, _) =>
    case Connect(id) => ChannelServerInRange(st, IndexOf(st.channels, id));
    case Activate(_) =>
    case Deactivate(_) =>
    case Report(_, _, _, _, _, _, _) =>
  }

  lemma StepKeepsInv(kind: Kind, cfg: Config, st: State, clock: int, ev: Event)
    requires Inv(cfg, st) && Enabled(cfg, st, clock, ev)
    ensures Inv(cfg, Step(kind, cfg, st, ev))
  {
    StepKeepsReady(kind, cfg, st, ev);
    StepKeepsSocks(kind, cfg, st, clock, ev);
    StepKeepsFaults(kind, cfg, st, ev);
    StepKeepsUncached(kind, cfg, st, ev);
  }

  // ---- runs ----

  ghost predicate IsRun(kind: Kind, cfg: Config, st: State, clock: int, evs: seq<Event>)
    requires Inv(cfg, st)
    decreases |evs|
  {
    evs == [] || (
      && Enabled(cfg, st, clock, evs[0])
      && (StepKeepsInv(kind, cfg, st, clock, evs[0]);
          IsRun(kind, cfg, Step(kind, cfg, st, evs[0]), EndTime(evs[0], clock), evs[1..])))
  }

  ghost function Exec(kind: Kind, cfg: Config, st: State, clock: int, evs: seq<Event>): State
    requires Inv(cfg, st) && IsRun(kind, cfg, st, clock, evs)
    decreases |evs|
  {
    if evs == [] then st
    else
      StepKeepsInv(kind, cfg, st, clock, evs[0]);
      Exec(kind, cfg, Step(kind, cfg, st, evs[0]), EndTime(evs[0], clock), evs[1..])
  }

  lemma {:induction false} RunKeepsInv(kind: Kind, cfg: Config, st: State, clock: int, evs: seq<Event>)
    requires Inv(cfg, st) && IsRun(kind, cfg, st, clock, evs)
    ensures Inv(cfg, Exec(kind, cfg, st, clock, evs))
    decreases |evs|
  {
    if evs != [] {
      StepKeepsInv(kind, cfg, st, clock, evs[0]);
      RunKeepsInv(kind, cfg, Step(kind, cfg, st, evs[0]), EndTime(evs[0], clock), evs[1..]);
    }
  }

  function EndClock(clock: int, evs: seq<Event>): int
    decreases |evs|
  {
    if evs == [] then clock else EndClock(EndTime(evs[0], clock), evs[1..])
  }

  /** A run may be extended by any step that is enabled at its end. */
  lemma {:induction false} RunAppend(kind: Kind, cfg: Config, st: State, clock: int, evs: seq<Event>, ev: Event)
    requires Inv(cfg, st) && IsRun(kind, cfg, st, clock, evs)
    requires Inv(cfg, Exec(kind, cfg, st, clock, evs))
    requires Enabled(cfg, Exec(kind, cfg, st, clock, evs), EndClock(clock, evs), ev)
    ensures IsRun(kind, cfg, st, clock, evs + [ev])
    ensures Exec(kind, cfg, st, clock, evs + [ev]) == Step(kind, cfg, Exec(kind, cfg, st, clock, evs), ev)
    ensures EndClock(clock, evs + [ev]) == EndTime(ev, EndClock(clock, evs))
    decreases |evs|
  {
    if evs == [] {
      assert [ev][1..] == [];
      StepKeepsInv(kind, cfg, st, clock, ev);
    } else {
      StepKeepsInv(kind, cfg, st, clock, evs[0]);
      RunAppend(kind, cfg, Step(kind, cfg, st, evs[0]), EndTime(evs[0], clock), evs[1..], ev);
      assert (evs + [ev])[1..] == evs[1..] + [ev];
    }
  }

  lemma RunOfTwo(kind: Kind, cfg: Config, st: State, clock: int, ev: Event, next: Event)
    requires Inv(cfg, st) && Enabled(cfg, st, clock, ev) && Inv(cfg, Step(kind, cfg, st, ev))
    requires Enabled(cfg, Step(kind, cfg, st, ev), EndTime(ev, clock), next)
    ensures IsRun(kind, cfg, st, clock, [ev, next])
    ensures Exec(kind, cfg, st, clock, [ev, next]) == Step(kind, cfg, Step(kind, cfg, st, ev), next)
  {
    RunAppend(kind, cfg, st, clock, [], ev);
    assert [] + [ev] == [ev];
    RunAppend(kind, cfg, st, clock, [ev], next);
    assert [ev] + [next] == [ev, next];
  }

  lemma {:induction false} EndClockConcat(clock: int, evs: seq<Event>, more: seq<Event>)
    ensures EndClock(clock, evs + more) == EndClock(EndClock(clock, evs), more)
    decreases |evs|
  {
    if evs == [] {
      assert evs + more == more;
    } else {
      EndClockConcat(EndTime(evs[0], clock), evs[1..], more);
      assert (evs + more)[1..] == evs[1..] + more;
    }
  }

  lemma {:induction false} RunConcat(kind: Kind, cfg: Config, st: State, clock: int, evs: seq<Event>, more: seq<Event>)
    requires Inv(cfg, st) && IsRun(kind, cfg, st, clock, evs)
    requires Inv(cfg, Exec(kind, cfg, st, clock, evs))
    requires IsRun(kind, cfg, Exec(kind, cfg, st, clock, evs), EndClock(clock, evs), more)
    ensures IsRun(kind, cfg, st, clock, evs + more)
    ensures Exec(kind, cfg, st, clock, evs + more)
            == Exec(kind, cfg, Exec(kind, cfg, st, clock, evs), EndClock(clock, evs), more)
    decreases |evs|
  {
    if evs == [] {
      assert evs + more == more;
    } else {
      var ev, rest := evs[0], evs[1..];
      StepKeepsInv(kind, cfg, st, clock, ev);
      var st1, clock1 := Step(kind, cfg, st, ev), EndTime(ev, clock);
      assert Exec(kind, cfg, st, clock, evs) == Exec(kind, cfg, st1, clock1, rest);
      assert EndClock(clock, evs) == EndClock(clock1, rest);
      RunConcat(kind, cfg, st1, clock1, rest, more);
      assert (evs + more)[0] == ev && (evs + more)[1..] == rest + more;
    }
  }

  /** `evs` leads the proxy from `st` to `end`, and the clock to `time`. */
  ghost predicate Leads(cfg: Config, st: State, clock: int, evs: seq<Event>, end: State, time: int)
    requires Inv(cfg, st)
  {
    && IsRun(Swept, cfg, st, clock, evs)
    && end == Exec(Swept, cfg, st, clock, evs)
    && time == EndClock(clock, evs)
    && Inv(cfg, end)
  }

  lemma StepLeads(cfg: Config, st: State, clock: int, ev: Event)
    requires Inv(cfg, st) && Enabled(cfg, st, clock, ev)
    ensures Leads(cfg, st, clock, [ev], Step(Swept, cfg, st, ev), EndTime(ev, clock))
  {
    StepKeepsInv(Swept, cfg, st, clock, ev);
    RunAppend(Swept, cfg, st, clock, [], ev);
    assert [] + [ev] == [ev];
  }

  lemma LeadsOn(cfg: Config, st: State, clock: int, evs: seq<Event>, mid: State, noon: int, more: seq<Event>,
                end: State, time: int)
    requires Inv(cfg, st) && Leads(cfg, st, clock, evs, mid, noon) && Leads(cfg, mid, noon, more, end, time)
    ensures Leads(cfg, st, clock, evs + more, end, time)
  {
    RunConcat(Swept, cfg, st, clock, evs, more);
    EndClockConcat(clock, evs, more);
  }

  /** The proxy right after its configuration was loaded; the sweep time is whatever memory held. */
  ghost predicate Initial(cfg: Config, st: State) {
    && ConfigOK(cfg, |st.servers|, |st.clients|)
    && st.heap == map[] && st.cache == map[] && st.channels == [] && st.open == {}
    && (forall s <- st.servers :: ServerOK(s) && s.numSlots == 0 && s.faults == 0)
    && (forall k <- st.clients :: k.numSlots == 0)
  }

  lemma InitialInv(cfg: Config, st: State)
    requires Initial(cfg, st)
    ensures Inv(cfg, st)
  {
  }

  // ---- the invariant in plain terms ----

  ghost function Those(chs: seq<Channel>, p: Channel -> bool): set<Channel> {
    set c | c in chs && p(c)
  }

  lemma {:induction false} CountIsCardinality(chs: seq<Channel>, p: Channel -> bool)
    requires DistinctIds(chs)
    ensures Count(chs, p) == |Those(chs, p)|
  {
    if chs != [] {
      var n := |chs| - 1;
      var front, last := chs[..n], chs[n];
      assert DistinctIds(front);
      CountIsCardinality(front, p);
      assert chs == front + [last];
      assert forall i :: 0 <= i < n ==> front[i].id != last.id;
      assert Those(chs, p) == Those(front, p) + (if p(last) then {last} else {});
    }
  }

  /** The live channels whose route leads to server `s`. */
  ghost function Through(st: State, s: int): set<Channel> {
    set c | c in st.channels && c.route in st.heap && st.heap[c.route].server == s
  }

  ghost function FromClient(st: State, k: int): set<Channel> {
    set c | c in st.channels && c.route in st.heap && st.heap[c.route].client == k
  }

  ghost function Using(st: State, r: RoutePtr): set<Channel> {
    set c | c in st.channels && c.route == r
  }

  ghost function Selected(cs: set<Channel>): set<Channel> {
    set c | c in cs && c.selected
  }

  lemma LiveChannelOK(st: State, c: Channel)
    requires Core(st) && c in st.channels
    ensures ChannelOK(st, c)
  {
    var i :| 0 <= i < |st.channels| && st.channels[i] == c;
  }

  lemma RouteInPlainTerms(st: State, r: RoutePtr)
    requires Core(st) && r in st.heap
    ensures st.heap[r].numSlots == |Using(st, r)|
    ensures st.heap[r].cached <==> st.heap[r].key in st.cache && st.cache[st.heap[r].key] == r
    ensures !st.heap[r].cached ==> |Using(st, r)| == 1
  {
    assert RouteOK(st, r);
    CountIsCardinality(st.channels, OnRoute(r));
    assert Those(st.channels, OnRoute(r)) == Using(st, r);
  }

  lemma ServerInPlainTerms(st: State, s: nat)
    requires Core(st) && s < |st.servers|
    ensures st.servers[s].numSlots == |Through(st, s)|
    ensures |Selected(Through(st, s))| <= st.servers[s].confSlots
  {
    assert ServerSlotsOK(st, s);
    CountIsCardinality(st.channels, OnServer(s));
    CountIsCardinality(st.channels, ChosenServer(s));
    forall c <- st.channels
      ensures ChannelOK(st, c)
    {
      LiveChannelOK(st, c);
    }
    assert Those(st.channels, OnServer(s)) == Through(st, s);
    assert Those(st.channels, ChosenServer(s)) == Selected(Through(st, s));
  }

  lemma ClientInPlainTerms(st: State, k: nat)
    requires Core(st) && k < |st.clients|
    ensures st.clients[k].numSlots == |FromClient(st, k)|
    ensures |Selected(FromClient(st, k))| <= Max0(st.clients[k].maxSlots)
  {
    assert ClientSlotsOK(st, k);
    CountIsCardinality(st.channels, OnClient(k));
    CountIsCardinality(st.channels, ChosenClient(k));
    forall c <- st.channels
      ensures ChannelOK(st, c)
    {
      LiveChannelOK(st, c);
    }
    assert Those(st.channels, OnClient(k)) == FromClient(st, k);
    assert Those(st.channels, ChosenClient(k)) == Selected(FromClient(st, k));
  }

  /**
   In every reachable state no live channel refers to a freed route; a route is marked cached
   exactly when it sits in the cache under its own source host; and an uncached route has
   exactly one channel, so no route is lost.
   */
  lemma ReachableRoutes(kind: Kind, cfg: Config, st: State, clock: int, evs: seq<Event>)
    requires Initial(cfg, st) && Inv(cfg, st) && IsRun(kind, cfg, st, clock, evs)
    ensures var end := Exec(kind, cfg, st, clock, evs);
            && (forall c <- end.channels :: c.route in end.heap)
            && (forall r :: r in end.heap ==>
                 && (end.heap[r].cached <==> end.heap[r].key in end.cache && end.cache[end.heap[r].key] == r)
                 && (!end.heap[r].cached ==> |Using(end, r)| == 1))
            && (forall k :: k in end.cache ==> end.cache[k] in end.heap && end.heap[end.cache[k]].key == k)
  {
    RunKeepsInv(kind, cfg, st, clock, evs);
    var end := Exec(kind, cfg, st, clock, evs);
    forall c <- end.channels
      ensures c.route in end.heap
    {
      LiveChannelOK(end, c);
    }
    forall r | r in end.heap
      ensures end.heap[r].cached <==> end.heap[r].key in end.cache && end.cache[end.heap[r].key] == r
      ensures !end.heap[r].cached ==> |Using(end, r)| == 1
    {
      RouteInPlainTerms(end, r);
    }
  }

  /** In every reachable state each of the three counters is the number of live channels. */
  lemma ReachableSlots(kind: Kind, cfg: Config, st: State, clock: int, evs: seq<Event>)
    requires Initial(cfg, st) && Inv(cfg, st) && IsRun(kind, cfg, st, clock, evs)
    ensures var end := Exec(kind, cfg, st, clock, evs);
            && (forall r :: r in end.heap ==> end.heap[r].numSlots == |Using(end, r)|)
            && (forall s :: 0 <= s < |end.servers| ==> end.servers[s].numSlots == |Through(end, s)|)
            && (forall k :: 0 <= k < |end.clients| ==> end.clients[k].numSlots == |FromClient(end, k)|)
  {
    RunKeepsInv(kind, cfg, st, clock, evs);
    var end := Exec(kind, cfg, st, clock, evs);
    forall r | r in end.heap
      ensures end.heap[r].numSlots == |Using(end, r)|
    {
      RouteInPlainTerms(end, r);
    }
    forall s | 0 <= s < |end.servers|
      ensures end.servers[s].numSlots == |Through(end, s)|
    {
      ServerInPlainTerms(end, s);
    }
    forall k | 0 <= k < |end.clients|
      ensures end.clients[k].numSlots == |FromClient(end, k)|
    {
      ClientInPlainTerms(end, k);
    }
  }

  /** In every reachable state each open handle belongs to one side of one channel. */
  lemma ReachableHandles(kind: Kind, cfg: Config, st: State, clock: int, evs: seq<Event>)
    requires Initial(cfg, st) && Inv(cfg, st) && IsRun(kind, cfg, st, clock, evs)
    ensures var end := Exec(kind, cfg, st, clock, evs);
            && (forall h :: Owned(end.channels, h) == if h in end.open then 1 else 0)
            && (forall i :: 0 <= i < |end.channels| ==>
                 && end.channels[i].source != end.channels[i].target
                 && end.channels[i].source in end.open && end.channels[i].target in end.open)
  {
    RunKeepsInv(kind, cfg, st, clock, evs);
    var end := Exec(kind, cfg, st, clock, evs);
    forall i | 0 <= i < |end.channels|
      ensures end.channels[i].source != end.channels[i].target
      ensures end.channels[i].source in end.open && end.channels[i].target in end.open
    {
      RemoveSocks(end.channels, end.open, i);
    }
  }

  lemma {:induction false} AllSelected(chs: seq<Channel>, n: int)
    requires forall i :: 0 <= i < |chs| ==> chs[i].selected
    ensures Count(chs, ChosenServer(n)) == Count(chs, OnServer(n))
    ensures Count(chs, ChosenClient(n)) == Count(chs, OnClient(n))
  {
    if chs != [] {
      AllSelected(chs[..|chs| - 1], n);
    }
  }

  /**
   Channels admitted by selection never exceed the configured limit of their server, however
   far reports lowered the current one, nor that of their client group; without caching the
   whole counters of servers and client groups obey these limits.
   */
  lemma AdmissionNeverExceedsLimits(kind: Kind, cfg: Config, st: State, clock: int, evs: seq<Event>)
    requires Inv(cfg, st) && IsRun(kind, cfg, st, clock, evs)
    ensures var end := Exec(kind, cfg, st, clock, evs);
            && |end.servers| == |st.servers| && |end.clients| == |st.clients|
            && (forall s :: 0 <= s < |st.servers| ==>
                 |Selected(Through(end, s))| <= st.servers[s].confSlots)
            && (forall k :: 0 <= k < |st.clients| ==>
                 |Selected(FromClient(end, k))| <= Max0(st.clients[k].maxSlots))
            && (!cfg.caching ==>
                 && (forall s :: 0 <= s < |st.servers| ==> end.servers[s].numSlots <= st.servers[s].confSlots)
                 && (forall k :: 0 <= k < |st.clients| ==> end.clients[k].numSlots <= Max0(st.clients[k].maxSlots)))
  {
    RunKeepsInv(kind, cfg, st, clock, evs);
    ConfiguredLimitsStay(kind, cfg, st, clock, evs);
    var end := Exec(kind, cfg, st, clock, evs);
    forall s | 0 <= s < |st.servers|
      ensures |Selected(Through(end, s))| <= st.servers[s].confSlots
      ensures !cfg.caching ==> end.servers[s].numSlots <= st.servers[s].confSlots
    {
      ServerInPlainTerms(end, s);
      assert ServerSlotsOK(end, s);
      if !cfg.caching {
        AllSelected(end.channels, s);
      }
    }
    forall k | 0 <= k < |st.clients|
      ensures |Selected(FromClient(end, k))| <= Max0(st.clients[k].maxSlots)
      ensures !cfg.caching ==> end.clients[k].numSlots <= Max0(st.clients[k].maxSlots)
    {
      ClientInPlainTerms(end, k);
      assert ClientSlotsOK(end, k);
      if !cfg.caching {
        AllSelected(end.channels, k);
      }
    }
  }

  /** The configured limits are the ones the run started with. */
  lemma {:induction false} ConfiguredLimitsStay(kind: Kind, cfg: Config, st: State, clock: int, evs: seq<Event>)
    requires Inv(cfg, st) && IsRun(kind, cfg, st, clock, evs)
    ensures var end := Exec(kind, cfg, st, clock, evs);
            && |end.servers| == |st.servers| && |end.clients| == |st.clients|
            && (forall s :: 0 <= s < |st.servers| ==>
                 end.servers[s].confSlots == st.servers[s].confSlots
                 && end.servers[s].maxSlots <= st.servers[s].maxSlots)
            && (forall k :: 0 <= k < |st.clients| ==> end.clients[k].maxSlots == st.clients[k].maxSlots)
    decreases |evs|
  {
    if evs != [] {
      StepKeepsInv(kind, cfg, st, clock, evs[0]);
      StepKeepsLimits(kind, cfg, st, evs[0]);
      ConfiguredLimitsStay(kind, cfg, Step(kind, cfg, st, evs[0]), EndTime(evs[0], clock), evs[1..]);
    }
  }

  ghost predicate SameLimits(st: State, st': State) {
    && |st'.servers| == |st.servers| && |st'.clients| == |st.clients|
    && (forall s :: 0 <= s < |st.servers| ==>
         st'.servers[s].confSlots == st.servers[s].confSlots && st'.servers[s].maxSlots <= st.servers[s].maxSlots)
    && (forall k :: 0 <= k < |st.clients| ==> st'.clients[k].maxSlots == st.clients[k].maxSlots)
  }

  lemma StepKeepsLimits(kind: Kind, cfg: Config, st: State, ev: Event)
    requires Ready(cfg, st) && Refers(st, ev)
    ensures SameLimits(st, Step(kind, cfg, st, ev))
  {
    StepServers(kind, cfg, st, ev);
    assert SameLimits(st, Touched(cfg, st, ev));
  }
}
