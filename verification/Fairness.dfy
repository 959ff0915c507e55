/** How the selector spreads an unbounded run of admissions over equal servers. */
module Fairness {
  import opened Seqs
  import opened Inet
  import opened Model
  import opened Scores
  import opened Selector
  import opened RouteTable
  import opened Steps
  import opened Runs

  /** One admission by a balancer: the picked server gains a slot, if there is one. */
  function Admit(b: Balancer, servers: seq<Server>): (r: seq<Server>)
    requires ServersOK(servers)
    ensures |r| == |servers| && ServersOK(r)
  {
    var p := Pick(servers, b, Candidates(b.servers, servers, NIL));
    if p.None? then servers
    else
      assert p.value < |servers| && servers[p.value] in servers by {
        PickExists(servers, b, b.servers, NIL);
        CandidatesExact(b.servers, servers, NIL);
      }
      servers[p.value := servers[p.value].(numSlots := servers[p.value].numSlots + 1)]
  }

  function AdmitAll(b: Balancer, servers: seq<Server>, n: nat): (r: seq<Server>)
    requires ServersOK(servers)
    ensures |r| == |servers| && ServersOK(r)
  {
    if n == 0 then servers else Admit(b, AdmitAll(b, servers, n - 1))
  }

  /** Only the slot limits can tell the balancer's servers apart. */
  ghost predicate Alike(b: Balancer, servers: seq<Server>, weight: int) {
    && ServersOK(servers)
    && b.capMetric && !b.memMetric && !b.cpuMetric
    && forall i <- b.servers ::
         && i < |servers|
         && servers[i].active && servers[i].weight == weight && !servers[i].redundant
         && servers[i].users < UserLimit(servers[i])
         && servers[i].numSlots <= servers[i].maxSlots
  }

  predicate BusynessFair(x: Server, y: Server) {
    (x.numSlots - 1) * y.maxSlots <= y.numSlots * x.maxSlots
  }

  predicate RequestsFair(x: Server, y: Server) {
    x.numSlots - 1 <= y.numSlots || y.numSlots >= y.maxSlots
  }

  predicate PairFair(b: Balancer, x: Server, y: Server) {
    if b.policy == ByBusyness then BusynessFair(x, y) else RequestsFair(x, y)
  }

  ghost predicate Fair(b: Balancer, servers: seq<Server>) {
    forall i, j :: i in b.servers && j in b.servers && i < |servers| && j < |servers| ==>
      PairFair(b, servers[i], servers[j])
  }

  lemma RatioOrder(a: real, b: real, c: real, d: real)
    requires b > 0.0 && d > 0.0 && a / b >= c / d
    ensures a * d >= c * b
  {
    var p, q := a / b, c / d;
    assert a == p * b && c == q * d;
    assert b * d > 0.0;
    assert (p - q) * (b * d) >= 0.0;
    assert a * d == p * (b * d) && c * b == q * (b * d);
  }

  lemma ByRequestsOrder(x: Server, y: Server)
    requires x.numSlots >= 0 && y.numSlots >= 0
    requires 100.0 / (x.numSlots as real + 1.0) >= 100.0 / (y.numSlots as real + 1.0)
    ensures x.numSlots <= y.numSlots
  {
    RatioOrder(100.0, x.numSlots as real + 1.0, 100.0, y.numSlots as real + 1.0);
  }

  lemma ByBusynessOrder(x: Server, y: Server)
    requires 0 <= x.numSlots < x.maxSlots && 0 <= y.numSlots < y.maxSlots
    requires 100.0 * (x.maxSlots as real - x.numSlots as real) / x.maxSlots as real
             >= 100.0 * (y.maxSlots as real - y.numSlots as real) / y.maxSlots as real
    ensures x.numSlots * y.maxSlots <= y.numSlots * x.maxSlots
  {
    var cx, lx, cy, ly := x.numSlots as real, x.maxSlots as real, y.numSlots as real, y.maxSlots as real;
    RatioOrder(100.0 * (lx - cx), lx, 100.0 * (ly - cy), ly);
    assert (100.0 * (lx - cx)) * ly == 100.0 * (lx * ly) - 100.0 * (cx * ly);
    assert (100.0 * (ly - cy)) * lx == 100.0 * (lx * ly) - 100.0 * (cy * lx);
    assert cx * ly == (x.numSlots * y.maxSlots) as real;
    assert cy * lx == (y.numSlots * x.maxSlots) as real;
  }

  /** `x` is loaded no more than `y`, so one more slot on `x` is still fair. */
  predicate NoFuller(b: Balancer, x: Server, y: Server) {
    match b.policy
    case ByBusyness => x.numSlots * y.maxSlots <= y.numSlots * x.maxSlots
    case ByRequests => x.numSlots <= y.numSlots || y.numSlots >= y.maxSlots
  }

  lemma ScoreOrder(b: Balancer, x: Server, y: Server)
    requires b.capMetric && !b.memMetric && !b.cpuMetric && x.weight == y.weight
    requires 0 <= x.numSlots < x.maxSlots && 0 <= y.numSlots < y.maxSlots
    requires Score(b, y) <= Score(b, x)
    ensures NoFuller(b, x, y)
  {
    if b.policy == ByBusyness {
      ByBusynessOrder(x, y);
    } else {
      ByRequestsOrder(x, y);
    }
  }

  lemma FullIsFuller(b: Balancer, x: Server, y: Server)
    requires ServerOK(x) && ServerOK(y) && x.numSlots <= x.maxSlots && y.numSlots == y.maxSlots
    ensures NoFuller(b, x, y)
  {
    assert x.numSlots * y.maxSlots <= x.maxSlots * y.maxSlots;
  }

  lemma PickedIsNoFuller(b: Balancer, servers: seq<Server>, weight: int, p: nat, j: nat)
    requires Alike(b, servers, weight)
    requires Pick(servers, b, Candidates(b.servers, servers, NIL)) == Some(p)
    requires j in b.servers
    ensures p in b.servers && p < |servers| && servers[p].numSlots < servers[p].maxSlots
    ensures NoFuller(b, servers[p], servers[j])
  {
    var cands := Candidates(b.servers, servers, NIL);
    CandidatesExact(b.servers, servers, NIL);
    PickExists(servers, b, b.servers, NIL);
    PickIsUnique(servers, b, cands, Some(p));
    var red: bool, i :| EarliestMax(servers, b, cands, red, i) && cands[i] == p;
    assert ServerOK(servers[p]) && ServerOK(servers[j]);
    if servers[j].numSlots < servers[j].maxSlots {
      var k :| 0 <= k < |cands| && cands[k] == j;
      assert InRound(servers, cands, false, k) && InRound(servers, cands, red, i) && !red;
      ScoreOrder(b, servers[p], servers[j]);
    } else {
      FullIsFuller(b, servers[p], servers[j]);
    }
  }

  function Busier(s: Server): Server {
    s.(numSlots := s.numSlots + 1)
  }

  lemma BusierPairs(b: Balancer, x: Server, y: Server)
    requires ServerOK(x) && ServerOK(y)
    ensures NoFuller(b, x, y) ==> PairFair(b, Busier(x), y)
    ensures PairFair(b, x, y) ==> PairFair(b, x, Busier(y))
    ensures PairFair(b, Busier(x), Busier(x))
  {
    assert (y.numSlots + 1) * x.maxSlots == y.numSlots * x.maxSlots + x.maxSlots;
    assert (x.numSlots + 1) * x.maxSlots == x.numSlots * x.maxSlots + x.maxSlots;
  }

  lemma AdmitKeepsAlike(b: Balancer, servers: seq<Server>, weight: int)
    requires Alike(b, servers, weight)
    ensures Alike(b, Admit(b, servers), weight)
  {
    PickExists(servers, b, b.servers, NIL);
  }

  lemma AdmitKeepsFair(b: Balancer, servers: seq<Server>, weight: int)
    requires Alike(b, servers, weight) && Fair(b, servers)
    ensures Fair(b, Admit(b, servers))
  {
    var after := Admit(b, servers);
    var pick := Pick(servers, b, Candidates(b.servers, servers, NIL));
    if pick.Some? {
      forall i, j | i in b.servers && j in b.servers
        ensures PairFair(b, after[i], after[j])
      {
        PickedIsNoFuller(b, servers, weight, pick.value, j);
        PairAfterAdmit(b, servers, pick.value, i, j);
      }
    }
  }

  lemma PairAfterAdmit(b: Balancer, servers: seq<Server>, p: nat, i: nat, j: nat)
    requires ServersOK(servers) && p < |servers| && i < |servers| && j < |servers|
    requires NoFuller(b, servers[p], servers[j]) && PairFair(b, servers[i], servers[j])
    ensures var after := servers[p := Busier(servers[p])]; PairFair(b, after[i], after[j])
  {
    assert ServerOK(servers[i]) && ServerOK(servers[j]);
    BusierPairs(b, servers[i], servers[j]);
  }

  /**
   From empty servers, after any number of admissions: by busyness the load ratios differ by
   less than one slot, and by requests the loads differ by at most one slot until one is full.
   */
  lemma {:induction false} AdmissionsStayFair(b: Balancer, servers: seq<Server>, weight: int, n: nat)
    requires Alike(b, servers, weight)
    requires forall i <- b.servers :: servers[i].numSlots == 0
    ensures Alike(b, AdmitAll(b, servers, n), weight)
    ensures Fair(b, AdmitAll(b, servers, n))
  {
    if n == 0 {
      forall i, j | i in b.servers && j in b.servers
        ensures PairFair(b, servers[i], servers[j])
      {
        assert ServerOK(servers[j]) && ServerOK(servers[i]);
      }
    } else {
      AdmissionsStayFair(b, servers, weight, n - 1);
      AdmitKeepsAlike(b, AdmitAll(b, servers, n - 1), weight);
      AdmitKeepsFair(b, AdmitAll(b, servers, n - 1), weight);
    }
  }

  // ---- the same for runs of the proxy ----

  /** Caching is off, and there is one balancer. */
  predicate OneBalancer(cfg: Config) {
    !cfg.caching && |cfg.balancers| == 1
  }

  /** The creation gets as far as asking the balancer, and its connection attempt starts. */
  ghost predicate Asks(b: Balancer, clients: seq<Client>, how: Attempt) {
    && how.peer.Some? && !how.peer.value.Unknown? && how.outcome.Started?
    && HasClient(b, clients, how.peer.value)
  }

  lemma OnlyBalancerChooses(b: Balancer, servers: seq<Server>, clients: seq<Client>, a: Addr)
    requires ServersOK(servers)
    ensures var p, ch := Pick(servers, b, Candidates(b.servers, servers, NIL)), Choose([b], servers, clients, a, NIL);
            && (ch.Some? <==> HasClient(b, clients, a) && p.Some?)
            && (ch.Some? ==> p == Some(ch.value.server))
  {
    FirstClientExact(b.clients, clients, a, 0);
    assert Choose([b], servers, clients, a, NIL).None? <==> Offer(b, servers, clients, a, NIL).None? by {
      assert [b][0] == b;
      assert ChooseFrom([b], servers, clients, a, NIL, 1).None?;
    }
  }

  lemma UncachedFresh(kind: Kind, cfg: Config, st: State, key: Addr, src: Sock, choice: Option<Choice>, how: Attempt)
    requires Core(st) && ChoiceOK(st, key, NIL, choice) && !cfg.caching
    ensures UseFresh(kind, cfg, st, key, src, choice, how).servers
            == if choice.None? || how.outcome.Refused? then st.servers
               else st.servers[choice.value.server := Busier(st.servers[choice.value.server])]
  {
    if choice.Some? && how.outcome.Started? {
      FreshAttached(st, key, src, choice.value, how.outcome.target, how);
    }
  }

  lemma FreshAdmits(kind: Kind, cfg: Config, st: State, key: Addr, src: Sock, how: Attempt)
    requires Ready(cfg, st) && OneBalancer(cfg) && ServersOK(st.servers)
    ensures var b := cfg.balancers[0];
            UseFresh(kind, cfg, st, key, src, Chosen(cfg, st, key, NIL), how).servers
            == if how.outcome.Started? && HasClient(b, st.clients, key) then Admit(b, st.servers) else st.servers
  {
    var choice := Chosen(cfg, st, key, NIL);
    assert cfg.balancers == [cfg.balancers[0]];
    OnlyBalancerChooses(cfg.balancers[0], st.servers, st.clients, key);
    UncachedFresh(kind, cfg, st, key, src, choice, how);
  }

  /** With one balancer and no cache, channel creation is one admission, or changes no server. */
  lemma CreateAdmits(kind: Kind, cfg: Config, st: State, src: Sock, how: Attempt)
    requires Ready(cfg, st) && OneBalancer(cfg)
    ensures ServersOK(st.servers)
    ensures var b := cfg.balancers[0];
            Create(kind, cfg, st, src, NIL, how).servers
            == if Asks(b, st.clients, how) then Admit(b, st.servers) else st.servers
  {
    CoreServersOK(st);
    if how.peer.Some? && !how.peer.value.Unknown? {
      assert Lookup(kind, cfg, st, how.peer.value, how.times.find) == (st, None);
      FreshAdmits(kind, cfg, st, how.peer.value, src, how);
    }
  }

  /** Arrivals, and steps that change no counter and switch no server off. */
  predicate Arriving(ev: Event) {
    ev.Accept? || ev.Connect? || ev.Activate?
  }

  ghost predicate FairState(cfg: Config, st: State, weight: int)
    requires OneBalancer(cfg)
  {
    Alike(cfg.balancers[0], st.servers, weight) && Fair(cfg.balancers[0], st.servers)
  }

  /** Records that differ in activity and fault counts only are as fair as before. */
  lemma TouchKeepsFair(b: Balancer, servers: seq<Server>, s: nat, v: Server, weight: int)
    requires Alike(b, servers, weight) && Fair(b, servers) && s < |servers|
    requires v == servers[s].(active := v.active, faults := v.faults) && (servers[s].active ==> v.active)
    ensures Alike(b, servers[s := v], weight) && Fair(b, servers[s := v])
  {
    assert ServerOK(servers[s]);
    forall i, j | i in b.servers && j in b.servers
      ensures PairFair(b, servers[s := v][i], servers[s := v][j])
    {
      assert PairFair(b, servers[i], servers[j]);
    }
  }

  lemma StepKeepsFair(kind: Kind, cfg: Config, st: State, ev: Event, weight: int)
    requires Ready(cfg, st) && Refers(st, ev) && OneBalancer(cfg) && Arriving(ev) && FairState(cfg, st, weight)
    ensures FairState(cfg, Step(kind, cfg, st, ev), weight)
  {
    var b := cfg.balancers[0];
    match ev
    case Accept(src, how) =>
      SameCore(st, OpenSock(st, src));
      CreateAdmits(kind, cfg, OpenSock(st, src), src, how);
      AdmitKeepsAlike(b, st.servers, weight);
      AdmitKeepsFair(b, st.servers, weight);
    case Connect(id) =>
      var i := IndexOf(st.channels, id);
      ChannelServerInRange(st, i);
      var s := st.channels[i].server;
      TouchKeepsFair(b, st.servers, s, st.servers[s].(faults := 0), weight);
    case Activate(s) => TouchKeepsFair(b, st.servers, s, st.servers[s].(active := true), weight);
  }

  lemma {:induction false} FairnessIsKept(kind: Kind, cfg: Config, st: State, clock: int, evs: seq<Event>, weight: int)
    requires Inv(cfg, st) && IsRun(kind, cfg, st, clock, evs) && OneBalancer(cfg) && FairState(cfg, st, weight)
    requires forall ev <- evs :: Arriving(ev)
    ensures FairState(cfg, Exec(kind, cfg, st, clock, evs), weight)
    decreases |evs|
  {
    if evs != [] {
      assert evs[0] in evs;
      StepKeepsInv(kind, cfg, st, clock, evs[0]);
      StepKeepsFair(kind, cfg, st, evs[0], weight);
      FairnessIsKept(kind, cfg, Step(kind, cfg, st, evs[0]), EndTime(evs[0], clock), evs[1..], weight);
    }
  }

  /**
   After any run of the proxy in which connections only arrive: one balancer without a cache has
   spread them fairly over servers that start alike.
   */
  lemma ArrivalsAreSpreadFairly(kind: Kind, cfg: Config, st: State, clock: int, evs: seq<Event>, weight: int)
    requires Initial(cfg, st) && Inv(cfg, st) && IsRun(kind, cfg, st, clock, evs)
    requires OneBalancer(cfg) && Alike(cfg.balancers[0], st.servers, weight)
    requires forall ev <- evs :: Arriving(ev)
    ensures Fair(cfg.balancers[0], Exec(kind, cfg, st, clock, evs).servers)
  {
    AdmissionsStayFair(cfg.balancers[0], st.servers, weight, 0);
    FairnessIsKept(kind, cfg, st, clock, evs, weight);
  }
}
