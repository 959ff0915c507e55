/** How often one client connection can be passed from server to server. */
module FailoverBound {
  import opened Seqs
  import opened Inet
  import opened Model
  import opened Selector
  import opened RouteTable
  import opened Steps
  import opened Runs

  // ---- the measure ----

  /** Faults that a server can still take before it is switched off. */
  function Credit(cfg: Config, s: Server): int {
    if s.active then cfg.maxFaults - s.faults else 0
  }

  function Budget(cfg: Config, servers: seq<Server>): int {
    if servers == [] then 0
    else Budget(cfg, servers[..|servers| - 1]) + Credit(cfg, servers[|servers| - 1])
  }

  lemma {:induction false} BudgetUpdate(cfg: Config, servers: seq<Server>, s: nat, v: Server)
    requires s < |servers|
    ensures Budget(cfg, servers[s := v]) == Budget(cfg, servers) - Credit(cfg, servers[s]) + Credit(cfg, v)
  {
    var n := |servers| - 1;
    if s == n {
      assert servers[s := v][..n] == servers[..n];
    } else {
      BudgetUpdate(cfg, servers[..n], s, v);
      assert servers[s := v][..n] == servers[..n][s := v];
    }
  }

  lemma {:induction false} BudgetSame(cfg: Config, xs: seq<Server>, ys: seq<Server>)
    requires |xs| == |ys|
    requires forall s :: 0 <= s < |xs| ==> Credit(cfg, xs[s]) == Credit(cfg, ys[s])
    ensures Budget(cfg, xs) == Budget(cfg, ys)
  {
    if xs != [] {
      BudgetSame(cfg, xs[..|xs| - 1], ys[..|ys| - 1]);
    }
  }

  lemma {:induction false} BudgetRange(cfg: Config, servers: seq<Server>)
    requires FaultsOK(cfg, servers) && cfg.maxFaults >= 1
    ensures 0 <= Budget(cfg, servers) <= |servers| * cfg.maxFaults
  {
    if servers != [] {
      assert FaultsOK(cfg, servers[..|servers| - 1]);
      BudgetRange(cfg, servers[..|servers| - 1]);
    }
  }

  /**
   0 for a channel to an active server, 1 for one that hangs on a cached route to an inactive
   server, 2 for any other.
   */
  function Rank(st: State, c: Channel): nat
    requires 0 <= c.server < |st.servers| && c.route in st.heap
  {
    if st.servers[c.server].active then 0 else if st.heap[c.route].cached then 1 else 2
  }

  lemma InRange(st: State, c: Channel)
    requires Core(st) && c in st.channels
    ensures 0 <= c.server < |st.servers| && c.route in st.heap && st.heap[c.route].server == c.server
    ensures st.heap[c.route].cached ==> st.heap[c.route].key in st.cache && st.cache[st.heap[c.route].key] == c.route
  {
    LiveChannelOK(st, c);
    assert RouteOK(st, c.route);
  }

  ghost function Measure(cfg: Config, st: State, c: Channel): int
    requires Core(st) && c in st.channels
  {
    InRange(st, c);
    3 * Budget(cfg, st.servers) + Rank(st, c)
  }

  // ---- creation: what it leaves alone, and what the new channel is like ----

  /** Routes of live channels keep their `cached` flag. */
  ghost predicate FlagsKept(st: State, st': State) {
    forall i :: 0 <= i < |st.channels| ==>
      var r := st.channels[i].route;
      r in st.heap && r in st'.heap && st'.heap[r].cached == st.heap[r].cached
  }

  lemma DropKeepsFlags(st: State, keys: set<Addr>)
    requires Core(st) && forall k <- keys :: Idle(st, k)
    ensures FlagsKept(st, DropAll(st, keys))
  {
    DropAllKeepsCore(st, keys);
    var st' := DropAll(st, keys);
    forall i | 0 <= i < |st.channels|
      ensures st.channels[i].route in st.heap && st.channels[i].route in st'.heap
    {
      assert ChannelOK(st, st.channels[i]) && ChannelOK(st', st'.channels[i]);
    }
  }

  lemma LookupKeepsFlags(kind: Kind, cfg: Config, st: State, key: Addr, now: int)
    requires Core(st)
    ensures FlagsKept(st, Lookup(kind, cfg, st, key, now).0)
  {
    LookupKeepsCore(kind, cfg, st, key, now);
    var st' := Lookup(kind, cfg, st, key, now).0;
    forall i | 0 <= i < |st.channels|
      ensures st.channels[i].route in st.heap && st.channels[i].route in st'.heap
      ensures st'.heap[st.channels[i].route].cached == st.heap[st.channels[i].route].cached
    {
      assert ChannelOK(st, st.channels[i]) && ChannelOK(st', st'.channels[i]);
    }
  }

  lemma RemoveKeepsFlags(st: State, key: Addr)
    requires Core(st)
    ensures FlagsKept(st, Remove(st, key))
  {
    DropKeepsFlags(st, {});
    if Idle(st, key) {
      DropKeepsFlags(st, {key});
    }
  }

  lemma InsertKeepsFlag(kind: Kind, cfg: Config, st: State, key: Addr, r: RoutePtr, now: int, i: nat)
    requires Core(st) && r in st.heap && !st.heap[r].cached && st.heap[r].key == key
    requires i < |st.channels| && st.channels[i].route != r
    ensures var q := st.channels[i].route;
            var st' := Insert(kind, cfg, st, key, r, now);
            q in st.heap && q in st'.heap && st'.heap[q].cached == st.heap[q].cached
  {
    InsertKeepsCore(kind, cfg, st, key, r, now);
    var st' := Insert(kind, cfg, st, key, r, now);
    assert ChannelOK(st, st.channels[i]) && ChannelOK(st', st'.channels[i]);
  }

  lemma FreshKeepsFlag(kind: Kind, cfg: Config, st: State, key: Addr, src: Sock, ch: Choice, how: Attempt, i: nat)
    requires Core(st) && ChoiceOK(st, key, NIL, Some(ch)) && how.outcome.Started?
    requires i < |st.channels|
    ensures var r := st.channels[i].route;
            var st' := UseFresh(kind, cfg, st, key, src, Some(ch), how);
            r in st.heap && r in st'.heap && st'.heap[r].cached == st.heap[r].cached
  {
    var dst := how.outcome.target;
    FreshAttached(st, key, src, ch, dst, how);
    NextIsFree(st);
    assert ChannelOK(st, st.channels[i]);
    var st1 := FreshChannel(st, key, src, ch, dst, how);
    assert st1.channels[i] == st.channels[i];
    InsertKeepsFlag(kind, cfg, st1, key, st.next, how.times.add, i);
  }

  lemma UseFreshKeepsFlags(kind: Kind, cfg: Config, st: State, key: Addr, src: Sock, choice: Option<Choice>,
                           how: Attempt)
    requires Core(st) && ChoiceOK(st, key, NIL, choice)
    ensures FlagsKept(st, UseFresh(kind, cfg, st, key, src, choice, how))
  {
    DropKeepsFlags(st, {});
    if choice.Some? && how.outcome.Started? {
      forall i | 0 <= i < |st.channels|
        ensures var r := st.channels[i].route;
                var st' := UseFresh(kind, cfg, st, key, src, choice, how);
                r in st.heap && r in st'.heap && st'.heap[r].cached == st.heap[r].cached
      {
        FreshKeepsFlag(kind, cfg, st, key, src, choice.value, how, i);
      }
    }
  }

  lemma UseCachedKeepsFlags(st: State, key: Addr, r: RoutePtr, src: Sock, how: Attempt)
    requires Core(st) && r in st.heap
    ensures FlagsKept(st, UseCached(st, key, r, src, how))
  {
    RemoveKeepsFlags(st, key);
  }

  lemma FlagsTransitive(a: State, b: State, c: State)
    requires a.channels == b.channels && FlagsKept(a, b) && FlagsKept(b, c)
    ensures FlagsKept(a, c)
  {
  }

  lemma CreateKeepsFlags(kind: Kind, cfg: Config, st: State, src: Sock, avoid: int, how: Attempt)
    requires Ready(cfg, st)
    ensures FlagsKept(st, Create(kind, cfg, st, src, avoid, how))
  {
    var st' := Create(kind, cfg, st, src, avoid, how);
    DropKeepsFlags(st, {});
    if how.peer.Some? && !how.peer.value.Unknown? {
      var key := how.peer.value;
      LookupKeepsCore(kind, cfg, st, key, how.times.find);
      LookupKeepsFlags(kind, cfg, st, key, how.times.find);
      var (st1, found) := Lookup(kind, cfg, st, key, how.times.find);
      if found.None? {
        UseFreshKeepsFlags(kind, cfg, st1, key, src, Chosen(cfg, st1, key, avoid), how);
        FlagsTransitive(st, st1, st');
      } else if st1.heap[found.value].server != avoid {
        UseCachedKeepsFlags(st1, key, found.value, src, how);
        FlagsTransitive(st, st1, st');
      } else {
        RemoveKeepsCore(st1, key);
        RemoveKeepsFlags(st1, key);
        var st2 := Remove(st1, key);
        UseFreshKeepsFlags(kind, cfg, st2, key, src, Chosen(cfg, st2, key, avoid), how);
        FlagsTransitive(st, st1, st2);
        FlagsTransitive(st, st2, st');
      }
    }
  }

  /** The new channel goes to a server that was active, or hangs on a cached route; never to `avoid`. */
  ghost predicate GoodNew(st: State, st': State, avoid: int)
    requires |st'.channels| == |st.channels| + 1
  {
    var d := st'.channels[|st.channels|];
    && d.server != avoid
    && d.route in st'.heap
    && ((0 <= d.server < |st.servers| && st.servers[d.server].active) || st'.heap[d.route].cached)
  }

  lemma FreshIsGood(kind: Kind, cfg: Config, st: State, key: Addr, src: Sock, avoid: int, choice: Option<Choice>,
                    how: Attempt)
    requires Core(st) && ChoiceOK(st, key, avoid, choice) && ChoiceOK(st, key, NIL, choice)
    requires choice.Some? && how.outcome.Started?
    ensures var st' := UseFresh(kind, cfg, st, key, src, choice, how);
            && |st'.channels| == |st.channels| + 1 && GoodNew(st, st', avoid)
            && 0 <= st'.channels[|st.channels|].server < |st.servers|
            && st.servers[st'.channels[|st.channels|].server].active
  {
    FreshAttached(st, key, src, choice.value, how.outcome.target, how);
    UseFreshKeepsCore(kind, cfg, st, key, src, choice, how);
    var st' := UseFresh(kind, cfg, st, key, src, choice, how);
    assert ChannelOK(st', st'.channels[|st.channels|]);
  }

  /** A cached route whose failing channel is still live is always found, and always bypassed. */
  lemma LiveCachedRouteIsFound(kind: Kind, cfg: Config, st: State, i: nat, now: int)
    requires Core(st) && i < |st.channels|
    requires st.channels[i].route in st.heap && st.heap[st.channels[i].route].cached
    requires cfg.caching
    ensures var r := st.channels[i].route;
            var (st', found) := Lookup(kind, cfg, st, st.heap[r].key, now);
            && found == Some(r)
            && r in st'.heap && st'.heap[r] == st.heap[r]
            && CacheOK(st') && Remove(st', st.heap[r].key) == st'
  {
    var r := st.channels[i].route;
    assert RouteOK(st, r);
    CountMember(st.channels, i, OnRoute(r));
    LookupKeepsCore(kind, cfg, st, st.heap[r].key, now);
    assert !Stale(cfg, st.heap[r], now);
    var (st', found) := Lookup(kind, cfg, st, st.heap[r].key, now);
    assert ChannelOK(st', st'.channels[i]);
  }

  ghost predicate FreshOrGivenUp(st: State, st': State) {
    |st'.channels| == |st.channels| + 1 ==>
      var d := st'.channels[|st.channels|];
      0 <= d.server < |st.servers| && st.servers[d.server].active
  }

  lemma CreateIsGood(kind: Kind, cfg: Config, st: State, src: Sock, avoid: int, how: Attempt)
    requires Ready(cfg, st)
    ensures var st' := Create(kind, cfg, st, src, avoid, how);
            |st'.channels| == |st.channels| + 1 ==> GoodNew(st, st', avoid)
  {
    if how.peer.Some? && !how.peer.value.Unknown? {
      var key := how.peer.value;
      LookupKeepsCore(kind, cfg, st, key, how.times.find);
      var (st1, found) := Lookup(kind, cfg, st, key, how.times.find);
      if found.None? {
        var ch := Chosen(cfg, st1, key, avoid);
        if ch.Some? && how.outcome.Started? {
          FreshIsGood(kind, cfg, st1, key, src, avoid, ch, how);
        }
      } else if st1.heap[found.value].server != avoid {
        assert RouteOK(st1, found.value);
        RemoveKeepsCore(st1, key);
      } else {
        RemoveKeepsCore(st1, key);
        var ch := Chosen(cfg, Remove(st1, key), key, avoid);
        if ch.Some? && how.outcome.Started? {
          FreshIsGood(kind, cfg, Remove(st1, key), key, src, avoid, ch, how);
        }
      }
    }
  }

  /** From a cached route to a failing server, creation goes straight to an active server. */
  lemma BypassGoesToActive(kind: Kind, cfg: Config, st: State, i: nat, src: Sock, how: Attempt)
    requires Ready(cfg, st) && i < |st.channels| && cfg.caching
    requires st.channels[i].route in st.heap && st.heap[st.channels[i].route].cached
    requires how.peer.Some? ==> how.peer.value == st.heap[st.channels[i].route].key
    ensures FreshOrGivenUp(st, Create(kind, cfg, st, src, st.channels[i].server, how))
  {
    var c := st.channels[i];
    assert ChannelOK(st, c);
    if how.peer.Some? && !how.peer.value.Unknown? {
      var key := how.peer.value;
      LiveCachedRouteIsFound(kind, cfg, st, i, how.times.find);
      LookupKeepsCore(kind, cfg, st, key, how.times.find);
      var (st1, found) := Lookup(kind, cfg, st, key, how.times.find);
      RemoveKeepsCore(st1, key);
      var ch := Chosen(cfg, st1, key, c.server);
      if ch.Some? && how.outcome.Started? {
        FreshIsGood(kind, cfg, st1, key, src, c.server, ch, how);
      }
    }
  }

  // ---- one failover ----

  lemma FaultLowersBudget(cfg: Config, servers: seq<Server>, s: nat)
    requires s < |servers| && FaultsOK(cfg, servers)
    ensures var after := servers[s := Faulted(cfg, servers[s])];
            && (servers[s].active ==> Budget(cfg, after) <= Budget(cfg, servers) - 1)
            && (!servers[s].active ==> Budget(cfg, after) == Budget(cfg, servers) && !after[s].active)
  {
    BudgetUpdate(cfg, servers, s, Faulted(cfg, servers[s]));
  }

  lemma SlotsDoNotMatter(cfg: Config, st: State, st': State)
    requires SameButSlots(st, st')
    ensures Budget(cfg, st'.servers) == Budget(cfg, st.servers)
    ensures forall s :: 0 <= s < |st.servers| ==> st'.servers[s].active == st.servers[s].active
  {
    assert forall s :: 0 <= s < |st.servers| ==> ServerButSlots(st.servers[s], st'.servers[s]);
    BudgetSame(cfg, st.servers, st'.servers);
  }

  /** Destroying a channel leaves the `cached` flag of every other live channel's route. */
  lemma DestroyKeepsFlag(st: State, i: nat, j: nat, t: int)
    requires Core(st) && i < |st.channels| && j < |st.channels| && i != j
    ensures var r := st.channels[j].route;
            && r in st.heap && r in Destroy(st, i, t).heap
            && Destroy(st, i, t).heap[r].cached == st.heap[r].cached
  {
    OtherChannelStaysOK(st, i, j, t);
    assert ChannelOK(st, st.channels[j]);
  }

  /** What a failover from channel `i` leaves of another channel's rank. */
  lemma FailoverKeepsOthers(kind: Kind, cfg: Config, st: State, i: nat, j: nat, how: Attempt, gone: int)
    requires Ready(cfg, st) && i < |st.channels| && j < |st.channels| && i != j
    ensures var st' := FailoverAt(kind, cfg, st, i, how, gone);
            var r := st.channels[j].route;
            r in st.heap && r in st'.heap && st'.heap[r].cached == st.heap[r].cached
  {
    var c := st.channels[i];
    var st1 := AfterFault(cfg, st, i);
    AfterFaultReady(cfg, st, i);
    CreateKeepsFlags(kind, cfg, st1, c.source, c.server, how);
    CreateShape(kind, cfg, st1, c.source, c.server, how);
    ReplacedKeepsCore(kind, cfg, st, i, how);
    var st3 := Replaced(kind, cfg, st, i, how);
    assert st3.channels[j] == st.channels[j];
    assert st1.channels[j] == st.channels[j];
    DestroyKeepsFlag(st3, i, j, gone);
  }

  /** Before the failed channel is destroyed, the replacement already ranks below it unless that was rank 0. */
  ghost predicate RanksBelow(st: State, st': State, c: Channel, d: Channel) {
    && 0 <= c.server < |st.servers| && c.route in st.heap
    && 0 <= d.server < |st'.servers| && d.route in st'.heap
    && (!st.servers[c.server].active ==> Rank(st', d) < Rank(st, c))
  }

  lemma CreatedRank(kind: Kind, cfg: Config, st: State, i: nat, how: Attempt)
    requires Inv(cfg, st) && i < |st.channels|
    requires how.peer.Some? ==> st.channels[i].route in st.heap
                                && how.peer.value == st.heap[st.channels[i].route].key
    ensures Ready(cfg, AfterFault(cfg, st, i))
    ensures var c := st.channels[i];
            var st' := Create(kind, cfg, AfterFault(cfg, st, i), c.source, c.server, how);
            |st'.channels| == |st.channels| + 1 ==> RanksBelow(st, st', c, st'.channels[|st.channels|])
  {
    var c := st.channels[i];
    InRange(st, c);
    var st1 := AfterFault(cfg, st, i);
    AfterFaultReady(cfg, st, i);
    CreateIsGood(kind, cfg, st1, c.source, c.server, how);
    if st.heap[c.route].cached {
      assert st1.channels[i] == c;
      BypassGoesToActive(kind, cfg, st1, i, c.source, how);
    }
    CreateServers(kind, cfg, st1, c.source, c.server, how);
    CreateKeepsCore(kind, cfg, st1, c.source, c.server, how);
    var st' := Create(kind, cfg, st1, c.source, c.server, how);
    SlotsDoNotMatter(cfg, st1, st');
    if |st'.channels| == |st.channels| + 1 {
      InRange(st', st'.channels[|st.channels|]);
    }
  }

  lemma RankAfterDestroy(cfg: Config, st: State, i: nat, j: nat, t: int)
    requires Core(st) && i < |st.channels| && j < |st.channels| && i != j
    ensures var d := st.channels[j];
            var st' := Destroy(st, i, t);
            && 0 <= d.server < |st.servers| && d.route in st.heap
            && |st'.servers| == |st.servers| && d.route in st'.heap
            && Rank(st', d) == Rank(st, d)
  {
    InRange(st, st.channels[j]);
    DestroyKeepsFlag(st, i, j, t);
    DestroyServers(st, i, t);
    SlotsDoNotMatter(cfg, st, Destroy(st, i, t));
  }

  lemma ReplacementRank(kind: Kind, cfg: Config, st: State, i: nat, how: Attempt, gone: int)
    requires Inv(cfg, st) && i < |st.channels|
    requires how.peer.Some? ==> st.channels[i].route in st.heap
                                && how.peer.value == st.heap[st.channels[i].route].key
    requires |FailoverAt(kind, cfg, st, i, how, gone).channels| == |st.channels|
    ensures var st' := FailoverAt(kind, cfg, st, i, how, gone);
            Core(st') && RanksBelow(st, st', st.channels[i], st'.channels[|st.channels| - 1])
  {
    ReplacedKeepsCore(kind, cfg, st, i, how);
    ReplacedRank(kind, cfg, st, i, how);
    var n := |st.channels|;
    var st3 := Replaced(kind, cfg, st, i, how);
    RemoveAtLast(st3.channels, i);
    RankAfterDestroy(cfg, st3, i, n, gone);
    DestroyKeepsCore(st3, i, gone);
  }

  lemma ReplacedRank(kind: Kind, cfg: Config, st: State, i: nat, how: Attempt)
    requires Inv(cfg, st) && i < |st.channels|
    requires how.peer.Some? ==> st.channels[i].route in st.heap
                                && how.peer.value == st.heap[st.channels[i].route].key
    requires |Replaced(kind, cfg, st, i, how).channels| == |st.channels| + 1
    ensures var st' := Replaced(kind, cfg, st, i, how);
            RanksBelow(st, st', st.channels[i], st'.channels[|st.channels|])
  {
    var c := st.channels[i];
    CreatedRank(kind, cfg, st, i, how);
    CreateShape(kind, cfg, AfterFault(cfg, st, i), c.source, c.server, how);
    var st' := Create(kind, cfg, AfterFault(cfg, st, i), c.source, c.server, how);
    assert RanksBelow(st, st', c, st'.channels[|st.channels|]);
  }

  lemma FailoverDecreases(kind: Kind, cfg: Config, st: State, i: nat, how: Attempt, gone: int)
    requires Inv(cfg, st) && i < |st.channels|
    requires how.peer.Some? ==> st.channels[i].route in st.heap
                                && how.peer.value == st.heap[st.channels[i].route].key
    requires |FailoverAt(kind, cfg, st, i, how, gone).channels| == |st.channels|
    ensures var st' := FailoverAt(kind, cfg, st, i, how, gone);
            && Core(st')
            && Measure(cfg, st', st'.channels[|st.channels| - 1]) < Measure(cfg, st, st.channels[i])
  {
    ReplacementRank(kind, cfg, st, i, how, gone);
    var c := st.channels[i];
    FaultLowersBudget(cfg, st.servers, c.server);
    FailoverServers(kind, cfg, st, i, how, gone);
    SlotsDoNotMatter(cfg, AfterFault(cfg, st, i), FailoverAt(kind, cfg, st, i, how, gone));
  }

  // ---- whole runs ----

  /** Nothing happens that could give a server new credit, and nobody reuses handle `h`. */
  ghost predicate Quiet(st: State, ev: Event, h: Sock) {
    match ev
    case Accept(src, _) => src != h
    case Connect(_) => false
    case Activate(s) => s < |st.servers| && st.servers[s].active
    case Report(s, active, _, _, _, _, _) => s < |st.servers| && (active ==> st.servers[s].active)
    case _ => true
  }

  /** The step is a failover of the connection whose client side is `h`. */
  predicate FailsOver(st: State, ev: Event, h: Sock)
    requires Refers(st, ev)
  {
    ev.Failover? && st.channels[IndexOf(st.channels, ev.chan)].source == h
  }

  lemma {:induction false} OwnedAtLeast(chs: seq<Channel>, i: nat, h: Sock)
    requires i < |chs|
    ensures Owned(chs, h) >= Sides(chs[i], h)
  {
    OwnedRemove(chs, i, h);
  }

  lemma SourceUnique(st: State, i: nat, j: nat)
    requires SocksOK(st.channels, st.open) && i < |st.channels| && j < |st.channels|
    requires st.channels[i].source == st.channels[j].source
    ensures i == j
  {
    if i != j {
      var h := st.channels[i].source;
      OwnedRemove(st.channels, i, h);
      var j' := if j < i then j else j - 1;
      assert RemoveAt(st.channels, i)[j'] == st.channels[j];
      OwnedAtLeast(RemoveAt(st.channels, i), j', h);
    }
  }

  /** With the same flag on its route, a channel's measure can only have dropped with the servers' credit. */
  lemma MeasureOnServers(cfg: Config, st: State, st': State, c: Channel)
    requires Core(st) && Core(st') && c in st.channels && c in st'.channels
    requires c.route in st.heap && c.route in st'.heap && st'.heap[c.route].cached == st.heap[c.route].cached
    requires |st'.servers| == |st.servers|
    requires Budget(cfg, st'.servers) <= Budget(cfg, st.servers)
    requires 0 <= c.server < |st.servers| && st.servers[c.server].active && !st'.servers[c.server].active
             ==> Budget(cfg, st'.servers) < Budget(cfg, st.servers)
    ensures Measure(cfg, st', c) <= Measure(cfg, st, c)
  {
    InRange(st, c);
    InRange(st', c);
  }

  lemma CreateKeepsMeasure(kind: Kind, cfg: Config, st: State, src: Sock, how: Attempt, i: nat)
    requires Ready(cfg, st) && i < |st.channels|
    ensures var st' := Create(kind, cfg, st, src, NIL, how);
            Core(st') && st.channels[i] in st'.channels
            && Measure(cfg, st', st.channels[i]) == Measure(cfg, st, st.channels[i])
  {
    var st' := Create(kind, cfg, st, src, NIL, how);
    CreateKeepsCore(kind, cfg, st, src, NIL, how);
    CreateShape(kind, cfg, st, src, NIL, how);
    CreateKeepsFlags(kind, cfg, st, src, NIL, how);
    CreateServers(kind, cfg, st, src, NIL, how);
    SlotsDoNotMatter(cfg, st, st');
    assert st'.channels[i] == st.channels[i];
    InRange(st, st.channels[i]);
  }

  lemma DestroyKeepsMeasure(cfg: Config, st: State, i: nat, j: nat, t: int)
    requires Core(st) && i < |st.channels| && j < |st.channels| && i != j
    ensures var st' := Destroy(st, i, t);
            Core(st') && st.channels[j] in st'.channels
            && Measure(cfg, st', st.channels[j]) == Measure(cfg, st, st.channels[j])
  {
    var st' := Destroy(st, i, t);
    DestroyKeepsCore(st, i, t);
    assert st'.channels[if j < i then j else j - 1] == st.channels[j];
    RankAfterDestroy(cfg, st, i, j, t);
    DestroyServers(st, i, t);
    SlotsDoNotMatter(cfg, st, st');
  }

  /** A channel that does not use the new source handle was there before the creation. */
  lemma CreateOrigin(st: State, st': State, src: Sock, how: Attempt, c: Channel) returns (i: nat)
    requires Shape(st, st', src, how) && c in st'.channels && c.source != src
    ensures i < |st.channels| && st.channels[i] == c
  {
    i :| 0 <= i < |st'.channels| && st'.channels[i] == c;
  }

  lemma OpenKeepsMeasure(cfg: Config, st: State, src: Sock, c: Channel)
    requires Core(st) && c in st.channels
    ensures Core(OpenSock(st, src)) && Measure(cfg, OpenSock(st, src), c) == Measure(cfg, st, c)
  {
    SameCore(st, OpenSock(st, src));
  }

  lemma AcceptKeepsMeasure(kind: Kind, cfg: Config, st: State, ev: Event, h: Sock, c: Channel)
    requires Ready(cfg, st) && ev.Accept? && ev.src != h
    requires c in Step(kind, cfg, st, ev).channels && c.source == h
    ensures c in st.channels && Core(Step(kind, cfg, st, ev))
    ensures Measure(cfg, Step(kind, cfg, st, ev), c) <= Measure(cfg, st, c)
  {
    var st1, st' := OpenSock(st, ev.src), Step(kind, cfg, st, ev);
    SameCore(st, st1);
    CreateShape(kind, cfg, st1, ev.src, NIL, ev.how);
    var j := CreateOrigin(st1, st', ev.src, ev.how, c);
    CreateKeepsMeasure(kind, cfg, st1, ev.src, ev.how, j);
    OpenKeepsMeasure(cfg, st, ev.src, c);
  }

  lemma CloseKeepsMeasure(cfg: Config, st: State, i: nat, gone: int, c: Channel)
    requires Core(st) && i < |st.channels| && c in Destroy(st, i, gone).channels
    ensures c in st.channels && Core(Destroy(st, i, gone))
    ensures Measure(cfg, Destroy(st, i, gone), c) == Measure(cfg, st, c)
  {
    var j := RemoveAtOrigin(st.channels, i, c);
    DestroyKeepsMeasure(cfg, st, i, j, gone);
  }

  lemma OtherFailoverKeepsMeasure(kind: Kind, cfg: Config, st: State, i: nat, j: nat, how: Attempt, gone: int)
    requires Inv(cfg, st) && i < |st.channels| && j < |st.channels| && i != j
    requires st.channels[j] in FailoverAt(kind, cfg, st, i, how, gone).channels
    ensures var st' := FailoverAt(kind, cfg, st, i, how, gone);
            Core(st') && Measure(cfg, st', st.channels[j]) <= Measure(cfg, st, st.channels[j])
  {
    var s := st.channels[i].server;
    FailoverKeepsOthers(kind, cfg, st, i, j, how, gone);
    FailoverServers(kind, cfg, st, i, how, gone);
    FailoverKeepsReady(kind, cfg, st, i, how, gone);
    var st' := FailoverAt(kind, cfg, st, i, how, gone);
    InRange(st, st.channels[i]);
    FaultLowersBudget(cfg, st.servers, s);
    SlotsDoNotMatter(cfg, AfterFault(cfg, st, i), st');
    MeasureOnServers(cfg, st, st', st.channels[j]);
  }

  lemma TrackerKeepsMeasure(kind: Kind, cfg: Config, st: State, clock: int, ev: Event, h: Sock, c: Channel)
    requires Inv(cfg, st) && Enabled(cfg, st, clock, ev) && Quiet(st, ev, h)
    requires ev.Activate? || ev.Deactivate? || ev.Report?
    requires c in st.channels
    ensures c in Step(kind, cfg, st, ev).channels && Core(Step(kind, cfg, st, ev))
    ensures Measure(cfg, Step(kind, cfg, st, ev), c) <= Measure(cfg, st, c)
  {
    StepKeepsReady(kind, cfg, st, ev);
    var st' := Step(kind, cfg, st, ev);
    InRange(st, c);
    var s := ev.server;
    BudgetUpdate(cfg, st.servers, s, st'.servers[s]);
    assert st'.servers == st.servers[s := st'.servers[s]];
    MeasureOnServers(cfg, st, st', c);
  }

  lemma FailoverStep(kind: Kind, cfg: Config, st: State, i: nat, how: Attempt, gone: int, h: Sock, c': Channel)
    returns (c: Channel)
    requires Inv(cfg, st) && i < |st.channels|
    requires how.peer.Some? ==> st.channels[i].route in st.heap
                                && how.peer.value == st.heap[st.channels[i].route].key
    requires c' in FailoverAt(kind, cfg, st, i, how, gone).channels && c'.source == h
    ensures c in st.channels && c.source == h && Core(FailoverAt(kind, cfg, st, i, how, gone))
    ensures Measure(cfg, FailoverAt(kind, cfg, st, i, how, gone), c') + (if st.channels[i].source == h then 1 else 0)
            <= Measure(cfg, st, c)
  {
    FailoverHasShape(kind, cfg, st, i, how, gone);
    var k := OriginOf(st, FailoverAt(kind, cfg, st, i, how, gone), i, how, c');
    c := st.channels[k];
    if k != i {
      if st.channels[i].source == h {
        SourceUnique(st, i, k);
      }
      OtherFailoverKeepsMeasure(kind, cfg, st, i, k, how, gone);
    } else {
      FailoverDecreases(kind, cfg, st, i, how, gone);
    }
  }

  /** A channel after a failover was there before, or is the replacement of channel `i`. */
  lemma OriginOf(st: State, st': State, i: nat, how: Attempt, c': Channel) returns (k: nat)
    requires i < |st.channels| && FailoverShape(st, st', i, how) && c' in st'.channels
    ensures k < |st.channels| && st.channels[k].source == c'.source
    ensures k != i ==> st.channels[k] == c'
    ensures k == i ==> |st'.channels| == |st.channels| && c' == st'.channels[|st.channels| - 1]
  {
    var j :| 0 <= j < |st'.channels| && st'.channels[j] == c';
    var j0 := if j < i then j else j + 1;
    k := if j0 < |st.channels| then j0 else i;
  }

  /** A quiet step never raises the measure of the connection on `h`, and a failover lowers it. */
  lemma QuietStep(kind: Kind, cfg: Config, st: State, clock: int, ev: Event, h: Sock, c': Channel)
    returns (c: Channel)
    requires Inv(cfg, st) && Enabled(cfg, st, clock, ev) && Quiet(st, ev, h)
    requires c' in Step(kind, cfg, st, ev).channels && c'.source == h
    ensures c in st.channels && c.source == h && Core(Step(kind, cfg, st, ev))
    ensures Measure(cfg, Step(kind, cfg, st, ev), c') + (if FailsOver(st, ev, h) then 1 else 0) <= Measure(cfg, st, c)
  {
    c := c';
    match ev
    case Accept(_, _) => AcceptKeepsMeasure(kind, cfg, st, ev, h, c);
    case Close(id, gone) => CloseKeepsMeasure(cfg, st, IndexOf(st.channels, id), gone, c);
    case Failover(id, how, gone) =>
      c := FailoverStep(kind, cfg, st, IndexOf(st.channels, id), how, gone, h, c');
    case Activate(_) => TrackerKeepsMeasure(kind, cfg, st, clock, ev, h, c);
    case Deactivate(_) => TrackerKeepsMeasure(kind, cfg, st, clock, ev, h, c);
    case Report(_, _, _, _, _, _, _) => TrackerKeepsMeasure(kind, cfg, st, clock, ev, h, c);
  }

  ghost predicate QuietRun(kind: Kind, cfg: Config, st: State, clock: int, evs: seq<Event>, h: Sock)
    requires Inv(cfg, st) && IsRun(kind, cfg, st, clock, evs)
    decreases |evs|
  {
    evs == [] || (
      && Quiet(st, evs[0], h)
      && (StepKeepsInv(kind, cfg, st, clock, evs[0]);
          QuietRun(kind, cfg, Step(kind, cfg, st, evs[0]), EndTime(evs[0], clock), evs[1..], h)))
  }

  /** Number of times a run passes the connection on `h` to another server. */
  ghost function Failovers(kind: Kind, cfg: Config, st: State, clock: int, evs: seq<Event>, h: Sock): nat
    requires Inv(cfg, st) && IsRun(kind, cfg, st, clock, evs)
    decreases |evs|
  {
    if evs == [] then 0
    else
      StepKeepsInv(kind, cfg, st, clock, evs[0]);
      (if FailsOver(st, evs[0], h) then 1 else 0)
      + Failovers(kind, cfg, Step(kind, cfg, st, evs[0]), EndTime(evs[0], clock), evs[1..], h)
  }

  /** What the connection on `h` can still cost: one more than its measure, or nothing when there is none. */
  ghost predicate Bounds(cfg: Config, st: State, h: Sock, n: int)
    requires Core(st)
  {
    forall c <- st.channels :: c.source == h ==> Measure(cfg, st, c) < n
  }

  lemma {:induction false} ChainBound(kind: Kind, cfg: Config, st: State, clock: int, evs: seq<Event>, h: Sock, n: nat)
    requires Inv(cfg, st) && IsRun(kind, cfg, st, clock, evs) && QuietRun(kind, cfg, st, clock, evs, h)
    requires Bounds(cfg, st, h, n)
    ensures Failovers(kind, cfg, st, clock, evs, h) <= n
    decreases |evs|
  {
    if evs != [] {
      var ev := evs[0];
      StepKeepsInv(kind, cfg, st, clock, ev);
      var st' := Step(kind, cfg, st, ev);
      var spent := if FailsOver(st, ev, h) then 1 else 0;
      if spent == 1 {
        var c := st.channels[IndexOf(st.channels, ev.chan)];
        MeasureRange(cfg, st, c);
        assert Measure(cfg, st, c) < n;
      }
      forall c' <- st'.channels | c'.source == h
        ensures Measure(cfg, st', c') < n - spent
      {
        var c := QuietStep(kind, cfg, st, clock, ev, h, c');
      }
      ChainBound(kind, cfg, st', EndTime(ev, clock), evs[1..], h, n - spent);
    }
  }

  lemma MeasureRange(cfg: Config, st: State, c: Channel)
    requires Inv(cfg, st) && c in st.channels
    ensures 0 <= Measure(cfg, st, c) <= 3 * (|st.servers| * cfg.maxFaults) + 2
  {
    InRange(st, c);
    BudgetRange(cfg, st.servers);
  }

  /**
   As long as no connection succeeds and no server comes back, one client connection is passed
   on a bounded number of times: at most thrice the faults that all servers can take, plus three.
   */
  lemma FailoversAreBounded(kind: Kind, cfg: Config, st: State, clock: int, evs: seq<Event>, h: Sock)
    requires Inv(cfg, st) && IsRun(kind, cfg, st, clock, evs) && QuietRun(kind, cfg, st, clock, evs, h)
    ensures Failovers(kind, cfg, st, clock, evs, h) <= 3 * (|st.servers| * cfg.maxFaults) + 3
  {
    var n := 3 * (|st.servers| * cfg.maxFaults) + 3;
    forall c <- st.channels | c.source == h
      ensures Measure(cfg, st, c) < n
    {
      MeasureRange(cfg, st, c);
    }
    BudgetRange(cfg, st.servers);
    ChainBound(kind, cfg, st, clock, evs, h, n);
  }

  // ---- why one pass over the channels ends ----

  /** The rank of a channel whose pointers are sound, which every live channel is. */
  function RankOf(st: State, c: Channel): nat {
    if 0 <= c.server < |st.servers| && c.route in st.heap then Rank(st, c) else 0
  }

  function RankSum(st: State, chs: seq<Channel>): nat {
    if chs == [] then 0 else RankOf(st, chs[0]) + RankSum(st, chs[1..])
  }

  lemma {:induction false} RankSumAppend(st: State, chs: seq<Channel>, d: Channel)
    ensures RankSum(st, chs + [d]) == RankSum(st, chs) + RankOf(st, d)
  {
    if chs == [] {
      assert [] + [d] == [d];
    } else {
      RankSumAppend(st, chs[1..], d);
      assert (chs + [d])[1..] == chs[1..] + [d];
    }
  }

  lemma {:induction false} RankSumSame(st: State, st': State, chs: seq<Channel>)
    requires forall k :: 0 <= k < |chs| ==> RankOf(st', chs[k]) == RankOf(st, chs[k])
    ensures RankSum(st', chs) == RankSum(st, chs)
  {
    if chs != [] {
      RankSumSame(st, st', chs[1..]);
    }
  }

  /** The work that a pass at position `i` still has: channels, then server credit, then ranks. */
  ghost predicate Progress(cfg: Config, st: State, st': State, i: nat)
    requires i <= |st.channels| && i <= |st'.channels|
  {
    || |st'.channels| < |st.channels|
    || (&& |st'.channels| == |st.channels|
        && (|| Budget(cfg, st'.servers) < Budget(cfg, st.servers)
            || (&& Budget(cfg, st'.servers) == Budget(cfg, st.servers)
                && RankSum(st', st'.channels[i..]) < RankSum(st, st.channels[i..]))))
  }

  lemma OtherRankSame(kind: Kind, cfg: Config, st: State, i: nat, j: nat, how: Attempt, gone: int)
    requires Inv(cfg, st) && i < |st.channels| && j < |st.channels| && i != j
    requires 0 <= st.channels[i].server < |st.servers| && !st.servers[st.channels[i].server].active
    ensures RankOf(FailoverAt(kind, cfg, st, i, how, gone), st.channels[j]) == RankOf(st, st.channels[j])
  {
    InRange(st, st.channels[j]);
    FailoverKeepsOthers(kind, cfg, st, i, j, how, gone);
    FailoverServers(kind, cfg, st, i, how, gone);
    FaultLowersBudget(cfg, st.servers, st.channels[i].server);
    SlotsDoNotMatter(cfg, AfterFault(cfg, st, i), FailoverAt(kind, cfg, st, i, how, gone));
  }

  ghost predicate OtherRanksKept(st: State, st': State, i: nat) {
    forall j :: 0 <= j < |st.channels| && j != i ==> RankOf(st', st.channels[j]) == RankOf(st, st.channels[j])
  }

  lemma OtherRanksSame(kind: Kind, cfg: Config, st: State, i: nat, how: Attempt, gone: int)
    requires Inv(cfg, st) && i < |st.channels|
    requires 0 <= st.channels[i].server < |st.servers| && !st.servers[st.channels[i].server].active
    ensures OtherRanksKept(st, FailoverAt(kind, cfg, st, i, how, gone), i)
  {
    forall j | 0 <= j < |st.channels| && j != i
      ensures RankOf(FailoverAt(kind, cfg, st, i, how, gone), st.channels[j]) == RankOf(st, st.channels[j])
    {
      OtherRankSame(kind, cfg, st, i, j, how, gone);
    }
  }

  lemma LaterRanksSame(st: State, st': State, i: nat)
    requires i < |st.channels| && OtherRanksKept(st, st', i)
    ensures RankSum(st', st.channels[i + 1..]) == RankSum(st, st.channels[i + 1..])
  {
    var later := st.channels[i + 1..];
    assert forall k :: 0 <= k < |later| ==> later[k] == st.channels[i + 1 + k];
    RankSumSame(st, st', later);
  }

  lemma RankSumOfRest(st: State, st': State, i: nat)
    requires i < |st.channels| == |st'.channels|
    requires st'.channels == RemoveAt(st.channels, i) + [st'.channels[|st.channels| - 1]]
    ensures RankSum(st, st.channels[i..]) == RankOf(st, st.channels[i]) + RankSum(st, st.channels[i + 1..])
    ensures RankSum(st', st'.channels[i..])
            == RankSum(st', st.channels[i + 1..]) + RankOf(st', st'.channels[|st.channels| - 1])
  {
    var later, d := st.channels[i + 1..], st'.channels[|st.channels| - 1];
    RankSumAppend(st', later, d);
    assert st'.channels[i..] == later + [d];
    assert st.channels[i..][1..] == later;
  }

  /** Between inactive servers the credit stays, but the ranks of what is left of the pass drop. */
  lemma InactiveProgress(kind: Kind, cfg: Config, st: State, i: nat, how: Attempt, gone: int)
    requires Inv(cfg, st) && i < |st.channels|
    requires how.peer.Some? ==> st.channels[i].route in st.heap
                                && how.peer.value == st.heap[st.channels[i].route].key
    requires 0 <= st.channels[i].server < |st.servers| && !st.servers[st.channels[i].server].active
    requires |FailoverAt(kind, cfg, st, i, how, gone).channels| == |st.channels|
    ensures var st' := FailoverAt(kind, cfg, st, i, how, gone);
            RankSum(st', st'.channels[i..]) < RankSum(st, st.channels[i..])
  {
    FailoverHasShape(kind, cfg, st, i, how, gone);
    ReplacementRank(kind, cfg, st, i, how, gone);
    OtherRanksSame(kind, cfg, st, i, how, gone);
    LaterRanksSame(st, FailoverAt(kind, cfg, st, i, how, gone), i);
    RankSumOfRest(st, FailoverAt(kind, cfg, st, i, how, gone), i);
  }

  /** A failover inside a pass always makes progress, although it may append a channel to the list. */
  lemma FailoverProgress(kind: Kind, cfg: Config, st: State, i: nat, how: Attempt, gone: int)
    requires Inv(cfg, st) && i < |st.channels|
    requires how.peer.Some? ==> st.channels[i].route in st.heap
                                && how.peer.value == st.heap[st.channels[i].route].key
    ensures var st' := FailoverAt(kind, cfg, st, i, how, gone);
            i <= |st'.channels| && Progress(cfg, st, st', i)
  {
    var c := st.channels[i];
    var st' := FailoverAt(kind, cfg, st, i, how, gone);
    FailoverHasShape(kind, cfg, st, i, how, gone);
    if |st'.channels| == |st.channels| {
      InRange(st, c);
      FaultLowersBudget(cfg, st.servers, c.server);
      FailoverServers(kind, cfg, st, i, how, gone);
      SlotsDoNotMatter(cfg, AfterFault(cfg, st, i), st');
      if !st.servers[c.server].active {
        InactiveProgress(kind, cfg, st, i, how, gone);
      }
    }
  }
}
