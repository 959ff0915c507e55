/** Choice of a server by score, and of a route by walking the balancers. */
module Selector {
  import opened Seqs
  import opened Inet
  import opened Model
  import opened Scores

  // ---- the selector ----

  /** Every candidate names a server, and slot counts are sound. */
  ghost predicate CandsOK(servers: seq<Server>, cands: seq<nat>) {
    forall i :: 0 <= i < |cands| ==> cands[i] < |servers| && 0 <= servers[cands[i]].numSlots
  }

  /** Candidate number `i` takes part in the round for redundancy `red`. */
  predicate InRound(servers: seq<Server>, cands: seq<nat>, red: bool, i: int)
  {
    0 <= i < |cands| && cands[i] < |servers| && servers[cands[i]].redundant == red && HasRoom(servers[cands[i]])
  }

  /** Position of the server kept after the round has seen all of `cands`. */
  function Best(servers: seq<Server>, b: Balancer, cands: seq<nat>, red: bool): (r: Option<nat>)
    requires CandsOK(servers, cands)
    ensures r.Some? ==> InRound(servers, cands, red, r.value)
  {
    if cands == [] then None
    else
      var n := |cands| - 1;
      var kept := Best(servers, b, cands[..n], red);
      if !InRound(servers, cands, red, n) then kept
      else if kept.None? || Score(b, servers[cands[n]]) > Score(b, servers[cands[kept.value]]) then Some(n)
      else kept
  }

  function Pick(servers: seq<Server>, b: Balancer, cands: seq<nat>): Option<nat>
    requires CandsOK(servers, cands)
  {
    var first := Best(servers, b, cands, false);
    var kept := if first.Some? then first else Best(servers, b, cands, true);
    if kept.Some? then Some(cands[kept.value]) else None
  }

  /** `i` is the earliest candidate of maximal score in the round. */
  ghost predicate EarliestMax(servers: seq<Server>, b: Balancer, cands: seq<nat>, red: bool, i: int)
    requires CandsOK(servers, cands)
  {
    && InRound(servers, cands, red, i)
    && forall j :: InRound(servers, cands, red, j) ==>
         && Score(b, servers[cands[j]]) <= Score(b, servers[cands[i]])
         && (j < i ==> Score(b, servers[cands[j]]) < Score(b, servers[cands[i]]))
  }

  /** What the selector promises, without reference to how it searches. */
  ghost predicate IsPick(servers: seq<Server>, b: Balancer, cands: seq<nat>, r: Option<nat>)
    requires CandsOK(servers, cands)
  {
    match r
    case None => forall red, j :: !InRound(servers, cands, red, j)
    case Some(s) =>
      exists red: bool, i :: EarliestMax(servers, b, cands, red, i) && cands[i] == s
                             && (red ==> forall j :: !InRound(servers, cands, false, j))
  }

  lemma {:induction false} BestIsEarliestMax(servers: seq<Server>, b: Balancer, cands: seq<nat>, red: bool)
    requires CandsOK(servers, cands)
    ensures match Best(servers, b, cands, red)
            case None => forall j :: !InRound(servers, cands, red, j)
            case Some(i) => EarliestMax(servers, b, cands, red, i)
  {
    if cands != [] {
      var n := |cands| - 1;
      BestIsEarliestMax(servers, b, cands[..n], red);
      assert forall j :: j != n ==> (InRound(servers, cands, red, j) <==> InRound(servers, cands[..n], red, j));
      assert forall j :: InRound(servers, cands[..n], red, j) ==> cands[..n][j] == cands[j];
    }
  }

  /** The selector's result is the one and only pick. */
  lemma PickIsUnique(servers: seq<Server>, b: Balancer, cands: seq<nat>, r: Option<nat>)
    requires CandsOK(servers, cands)
    ensures IsPick(servers, b, cands, r) <==> r == Pick(servers, b, cands)
  {
    BestIsEarliestMax(servers, b, cands, false);
    BestIsEarliestMax(servers, b, cands, true);
    var p0, p1 := Best(servers, b, cands, false), Best(servers, b, cands, true);
    if p0.Some? {
      assert EarliestMax(servers, b, cands, false, p0.value);
    } else if p1.Some? {
      assert EarliestMax(servers, b, cands, true, p1.value);
    }
    if r.Some? && IsPick(servers, b, cands, r) {
      var red: bool, i :| EarliestMax(servers, b, cands, red, i) && cands[i] == r.value
                          && (red ==> forall j :: !InRound(servers, cands, false, j));
      assert InRound(servers, cands, red, i);
    }
  }

  // ---- what the pick is, in terms of the server records ----

  /** Candidate number `i` is a server of the round with weight, and below its slot and user limits. */
  ghost predicate Takes(servers: seq<Server>, cands: seq<nat>, red: bool, i: int) {
    && 0 <= i < |cands| && cands[i] < |servers|
    && var s := servers[cands[i]];
    && s.redundant == red && s.weight > 0 && s.numSlots < s.maxSlots
    && (if s.userMax == 0 then s.users < 65535 else s.users < s.userMax)
  }

  /** No candidate of the round beats number `i`, which beats every earlier one. */
  ghost predicate Unbeaten(servers: seq<Server>, b: Balancer, cands: seq<nat>, red: bool, i: int) {
    && Takes(servers, cands, red, i)
    && forall j :: Takes(servers, cands, red, j) ==>
         && !Beats(b, servers[cands[j]], servers[cands[i]])
         && (j < i ==> Beats(b, servers[cands[i]], servers[cands[j]]))
  }

  /** The pick by comparison of integers: redundant servers only when no other one takes part. */
  ghost predicate IsUnbeatenPick(servers: seq<Server>, b: Balancer, cands: seq<nat>, r: Option<nat>) {
    match r
    case None => forall red, j :: !Takes(servers, cands, red, j)
    case Some(s) =>
      exists red: bool, i :: Unbeaten(servers, b, cands, red, i) && cands[i] == s
                             && (red ==> forall j :: !Takes(servers, cands, false, j))
  }

  lemma UnbeatenIsMax(servers: seq<Server>, b: Balancer, cands: seq<nat>, red: bool, i: int)
    requires CandsOK(servers, cands)
    ensures EarliestMax(servers, b, cands, red, i) <==> Unbeaten(servers, b, cands, red, i)
  {
    assert forall j :: InRound(servers, cands, red, j) <==> Takes(servers, cands, red, j);
    if InRound(servers, cands, red, i) {
      forall j | InRound(servers, cands, red, j)
        ensures Score(b, servers[cands[j]]) > Score(b, servers[cands[i]])
                <==> Beats(b, servers[cands[j]], servers[cands[i]])
        ensures Score(b, servers[cands[i]]) > Score(b, servers[cands[j]])
                <==> Beats(b, servers[cands[i]], servers[cands[j]])
      {
        BeatsIff(b, servers[cands[j]], servers[cands[i]]);
        BeatsIff(b, servers[cands[i]], servers[cands[j]]);
      }
    }
  }

  /** The pick is the one that integers determine. */
  lemma PickIsUnbeaten(servers: seq<Server>, b: Balancer, cands: seq<nat>, r: Option<nat>)
    requires CandsOK(servers, cands)
    ensures IsUnbeatenPick(servers, b, cands, r) <==> r == Pick(servers, b, cands)
  {
    PickIsUnique(servers, b, cands, r);
    forall red, i
      ensures EarliestMax(servers, b, cands, red, i) <==> Unbeaten(servers, b, cands, red, i)
      ensures InRound(servers, cands, red, i) <==> Takes(servers, cands, red, i)
    {
      UnbeatenIsMax(servers, b, cands, red, i);
    }
  }

  /** No candidate outdoes the pick in weight, or in memory, CPU or free slots where these count. */
  lemma PickIsNotOutdone(servers: seq<Server>, b: Balancer, cands: seq<nat>, t: nat)
    requires CandsOK(servers, cands) && t < |cands| && Pick(servers, b, cands).Some?
    ensures var p := Pick(servers, b, cands).value; p < |servers| && !Outdoes(b, servers[cands[t]], servers[p])
  {
    var r := Pick(servers, b, cands);
    PickIsUnbeaten(servers, b, cands, r);
    var red: bool, i :| Unbeaten(servers, b, cands, red, i) && cands[i] == r.value
                        && (red ==> forall j :: !Takes(servers, cands, false, j));
    if Outdoes(b, servers[cands[t]], servers[r.value]) {
      assert Takes(servers, cands, red, t);
      OutdoesBeats(b, servers[cands[t]], servers[r.value]);
    }
  }

  /** With no metric the pick is the earliest server of greatest weight in its round. */
  lemma PickByWeight(servers: seq<Server>, b: Balancer, cands: seq<nat>, p: nat)
    requires CandsOK(servers, cands) && !b.capMetric && !b.memMetric && !b.cpuMetric
    ensures Pick(servers, b, cands) == Some(p) <==>
              exists red: bool, i :: Heaviest(servers, cands, red, i) && cands[i] == p
                                     && (red ==> forall j :: !Takes(servers, cands, false, j))
  {
    PickIsUnbeaten(servers, b, cands, Some(p));
    forall red, i
      ensures Heaviest(servers, cands, red, i) <==> Unbeaten(servers, b, cands, red, i)
    {
    }
  }

  ghost predicate Heaviest(servers: seq<Server>, cands: seq<nat>, red: bool, i: int) {
    && Takes(servers, cands, red, i)
    && forall j :: Takes(servers, cands, red, j) ==>
         && servers[cands[j]].weight <= servers[cands[i]].weight
         && (j < i ==> servers[cands[j]].weight < servers[cands[i]].weight)
  }

  lemma UnbeatenAlike(servers: seq<Server>, servers': seq<Server>, b: Balancer, cands: seq<nat>, red: bool, i: int)
    requires CandsOK(servers, cands) && |servers'| == |servers|
    requires forall k :: 0 <= k < |servers| ==> LooksAlike(b, servers[k], servers'[k])
    ensures Takes(servers', cands, red, i) <==> Takes(servers, cands, red, i)
    ensures Unbeaten(servers, b, cands, red, i) ==> Unbeaten(servers', b, cands, red, i)
  {
    forall j
      ensures Takes(servers', cands, red, j) <==> Takes(servers, cands, red, j)
    {
      assert 0 <= j < |cands| ==> LooksAlike(b, servers[cands[j]], servers'[cands[j]]);
    }
    if Unbeaten(servers, b, cands, red, i) {
      forall j | Takes(servers', cands, red, j)
        ensures !Beats(b, servers'[cands[j]], servers'[cands[i]])
        ensures j < i ==> Beats(b, servers'[cands[i]], servers'[cands[j]])
      {
        BeatsAlike(b, servers[cands[j]], servers[cands[i]], servers'[cands[j]], servers'[cands[i]]);
        BeatsAlike(b, servers[cands[i]], servers[cands[j]], servers'[cands[i]], servers'[cands[j]]);
      }
    }
  }

  /** Free memory has no effect without the memory metric, and free CPU none without the CPU metric. */
  lemma PickIgnoresOtherMetrics(servers: seq<Server>, servers': seq<Server>, b: Balancer, cands: seq<nat>)
    requires CandsOK(servers, cands) && |servers'| == |servers|
    requires forall i :: 0 <= i < |servers| ==> LooksAlike(b, servers[i], servers'[i])
    ensures CandsOK(servers', cands) && Pick(servers', b, cands) == Pick(servers, b, cands)
  {
    var r := Pick(servers, b, cands);
    PickIsUnbeaten(servers, b, cands, r);
    PickIsUnbeaten(servers', b, cands, r);
    forall red, i
      ensures Takes(servers', cands, red, i) <==> Takes(servers, cands, red, i)
      ensures Unbeaten(servers, b, cands, red, i) ==> Unbeaten(servers', b, cands, red, i)
    {
      UnbeatenAlike(servers, servers', b, cands, red, i);
    }
  }

  /** `nrdpx_select_server`: two rounds, the second only when the first kept nothing. */
  method SelectServer(servers: seq<Server>, b: Balancer, cands: seq<nat>) returns (r: Option<nat>)
    requires CandsOK(servers, cands)
    ensures r == Pick(servers, b, cands)
    ensures IsUnbeatenPick(servers, b, cands, r)
  {
    r := None;
    if |cands| == 0 {
      PickIsUnbeaten(servers, b, cands, r);
      return;
    }
    ghost var pos: Option<nat> := None;
    var round := 0;
    while r.None? && round < 2
      invariant 0 <= round <= 2
      invariant pos.Some? ==> pos.value < |cands|
      invariant r == if pos.Some? then Some(cands[pos.value]) else None
      invariant round == 0 ==> pos.None?
      invariant round >= 1 ==> pos == if Best(servers, b, cands, false).Some? || round == 1
                                      then Best(servers, b, cands, false) else Best(servers, b, cands, true)
    {
      var red := round != 0;
      var top := 0.0;
      var i := 0;
      while i < |cands|
        invariant 0 <= i <= |cands|
        invariant pos == Best(servers, b, cands[..i], red)
        invariant pos.Some? ==> pos.value < i && HasRoom(servers[cands[pos.value]])
        invariant pos.Some? ==> top == Score(b, servers[cands[pos.value]])
        invariant r == if pos.Some? then Some(cands[pos.value]) else None
      {
        var s := servers[cands[i]];
        assert cands[..i + 1][..i] == cands[..i];
        assert InRound(servers, cands[..i + 1], red, i) <==> s.redundant == red && HasRoom(s);
        if s.redundant == red && HasRoom(s) {
          var score := Score(b, s);
          if r.None? || score > top {
            r, top := Some(cands[i]), score;
            pos := Some(i);
          }
        }
        i := i + 1;
      }
      assert cands[..|cands|] == cands;
      round := round + 1;
    }
    PickIsUnbeaten(servers, b, cands, r);
  }

  // ---- candidates and routes ----

  /** The servers of a balancer that channel creation offers to the selector, in order. */
  function Candidates(list: seq<nat>, servers: seq<Server>, avoid: int): (r: seq<nat>)
    ensures ServersOK(servers) ==> CandsOK(servers, r)
  {
    if list == [] then []
    else
      var n := |list| - 1;
      var front := Candidates(list[..n], servers, avoid);
      assert ServersOK(servers) && list[n] < |servers| ==> ServerOK(servers[list[n]]);
      if list[n] < |servers| && list[n] != avoid && Eligible(servers[list[n]]) then front + [list[n]] else front
  }

  lemma {:induction false} CandidatesExact(list: seq<nat>, servers: seq<Server>, avoid: int)
    ensures forall s :: s in Candidates(list, servers, avoid) <==>
              s in list && s < |servers| && s != avoid && Eligible(servers[s])
  {
    if list != [] {
      CandidatesExact(list[..|list| - 1], servers, avoid);
      assert list == list[..|list| - 1] + [list[|list| - 1]];
    }
  }

  /** Candidates come in the order of the list, each as often as it is listed. */
  lemma {:induction false} CandidatesInOrder(list: seq<nat>, more: seq<nat>, servers: seq<Server>, avoid: int)
    ensures Candidates(list + more, servers, avoid)
            == Candidates(list, servers, avoid) + Candidates(more, servers, avoid)
  {
    if more == [] {
      assert list + more == list;
    } else {
      var n := |more| - 1;
      var front, found := list + more[..n], Candidates(list, servers, avoid);
      CandidatesInOrder(list, more[..n], servers, avoid);
      assert (list + more)[..|list + more| - 1] == front && (list + more)[|list + more| - 1] == more[n];
      assert found + (Candidates(more[..n], servers, avoid) + [more[n]])
             == (found + Candidates(more[..n], servers, avoid)) + [more[n]];
    }
  }

  lemma OneCandidate(s: nat, servers: seq<Server>, avoid: int)
    ensures Candidates([s], servers, avoid)
            == if s < |servers| && s != avoid && Eligible(servers[s]) then [s] else []
  {
    assert [s][..0] == [];
  }

  ghost predicate SourceMatches(c: Client, a: Addr) {
    exists k :: 0 <= k < |c.sources| && InPrefix(a, c.sources[k])
  }

  /** A client group with a free slot and a matching source. */
  ghost predicate Admits(clients: seq<Client>, c: nat, a: Addr) {
    c < |clients| && clients[c].numSlots < clients[c].maxSlots && SourceMatches(clients[c], a)
  }

  /** First admitting client group of the list, from position `from`. */
  ghost function FirstClient(list: seq<nat>, clients: seq<Client>, a: Addr, from: nat): (r: Option<nat>)
    requires from <= |list|
    decreases |list| - from
  {
    if from == |list| then None
    else if Admits(clients, list[from], a) then Some(list[from])
    else FirstClient(list, clients, a, from + 1)
  }

  /** Group `c` admits the source, and no group before it in the list does. */
  ghost predicate FirstAdmitting(list: seq<nat>, clients: seq<Client>, a: Addr, from: nat, c: nat) {
    exists k :: from <= k < |list| && list[k] == c && Admits(clients, c, a)
                && forall j :: from <= j < k ==> !Admits(clients, list[j], a)
  }

  lemma {:induction false} FirstClientExact(list: seq<nat>, clients: seq<Client>, a: Addr, from: nat)
    requires from <= |list|
    ensures match FirstClient(list, clients, a, from)
            case Some(c) => FirstAdmitting(list, clients, a, from, c)
            case None => forall k :: from <= k < |list| ==> !Admits(clients, list[k], a)
    decreases |list| - from
  {
    if from < |list| {
      FirstClientExact(list, clients, a, from + 1);
    }
  }

  datatype Choice = Choice(balancer: nat, client: nat, server: nat)

  /** What one balancer offers: a client group and the pick among its own candidates. */
  ghost function Offer(b: Balancer, servers: seq<Server>, clients: seq<Client>, a: Addr, avoid: int)
    : Option<(nat, nat)>
    requires ServersOK(servers)
  {
    var c := FirstClient(b.clients, clients, a, 0);
    if c.None? then None
    else
      var s := Pick(servers, b, Candidates(b.servers, servers, avoid));
      if s.None? then None else Some((c.value, s.value))
  }

  /** The first balancer, from `from` on, that offers a route. */
  ghost function ChooseFrom(bals: seq<Balancer>, servers: seq<Server>, clients: seq<Client>, a: Addr, avoid: int,
                            from: nat): Option<Choice>
    requires from <= |bals| && ServersOK(servers)
    decreases |bals| - from
  {
    if from == |bals| then None
    else match Offer(bals[from], servers, clients, a, avoid)
      case Some(o) => Some(Choice(from, o.0, o.1))
      case None => ChooseFrom(bals, servers, clients, a, avoid, from + 1)
  }

  ghost function Choose(bals: seq<Balancer>, servers: seq<Server>, clients: seq<Client>, a: Addr, avoid: int)
    : Option<Choice>
    requires ServersOK(servers)
  {
    ChooseFrom(bals, servers, clients, a, avoid, 0)
  }

  /** With weights of at least 1 a pick exists exactly when there is a candidate. */
  lemma PickExists(servers: seq<Server>, b: Balancer, list: seq<nat>, avoid: int)
    requires ServersOK(servers)
    ensures var cands := Candidates(list, servers, avoid);
            && (Pick(servers, b, cands).Some? <==> cands != [])
            && (Pick(servers, b, cands).Some? ==> Pick(servers, b, cands).value in cands)
  {
    var cands := Candidates(list, servers, avoid);
    CandidatesExact(list, servers, avoid);
    if cands != [] {
      assert cands[0] in cands;
      assert servers[cands[0]] in servers;
      PickIsUnique(servers, b, cands, None);
      assert InRound(servers, cands, servers[cands[0]].redundant, 0);
    }
  }

  lemma NonEmptyMeansPick(servers: seq<Server>, b: Balancer, list: seq<nat>, avoid: int)
    requires ServersOK(servers)
    ensures var cands := Candidates(list, servers, avoid); Pick(servers, b, cands).Some? <==> cands != []
  {
    PickExists(servers, b, list, avoid);
  }

  ghost predicate HasClient(b: Balancer, clients: seq<Client>, a: Addr) {
    exists k :: 0 <= k < |b.clients| && Admits(clients, b.clients[k], a)
  }

  ghost predicate HasServer(b: Balancer, servers: seq<Server>, avoid: int) {
    exists k :: 0 <= k < |b.servers| && b.servers[k] < |servers| && b.servers[k] != avoid
                && Eligible(servers[b.servers[k]])
  }

  /** The balancer can serve the source: some group admits it and some server is eligible. */
  ghost predicate CanServe(b: Balancer, servers: seq<Server>, clients: seq<Client>, a: Addr, avoid: int) {
    HasClient(b, clients, a) && HasServer(b, servers, avoid)
  }

  lemma SomeCandidate(b: Balancer, servers: seq<Server>, avoid: int)
    ensures Candidates(b.servers, servers, avoid) != [] <==> HasServer(b, servers, avoid)
  {
    var cands := Candidates(b.servers, servers, avoid);
    CandidatesExact(b.servers, servers, avoid);
    if cands != [] {
      var s := cands[0];
      assert s in cands;
      var k :| 0 <= k < |b.servers| && b.servers[k] == s;
    }
    if HasServer(b, servers, avoid) {
      var k :| 0 <= k < |b.servers| && b.servers[k] < |servers| && b.servers[k] != avoid
               && Eligible(servers[b.servers[k]]);
      assert b.servers[k] in cands;
    }
  }

  /** The first client group of the balancer that admits the source, and an eligible server of the same balancer. */
  ghost predicate Consistent(b: Balancer, servers: seq<Server>, clients: seq<Client>, a: Addr, avoid: int,
                             client: nat, server: nat)
  {
    && client in b.clients && Admits(clients, client, a) && FirstAdmitting(b.clients, clients, a, 0, client)
    && server in b.servers && server < |servers| && server != avoid && Eligible(servers[server])
  }

  lemma OfferIffCanServe(b: Balancer, servers: seq<Server>, clients: seq<Client>, a: Addr, avoid: int)
    requires ServersOK(servers)
    ensures var o := Offer(b, servers, clients, a, avoid);
            && (o.Some? <==> CanServe(b, servers, clients, a, avoid))
            && (o.Some? ==> Consistent(b, servers, clients, a, avoid, o.value.0, o.value.1))
  {
    PickExists(servers, b, b.servers, avoid);
    SomeCandidate(b, servers, avoid);
    CandidatesExact(b.servers, servers, avoid);
    FirstClientExact(b.clients, clients, a, 0);
    var c := FirstClient(b.clients, clients, a, 0);
    if c.Some? {
      var k :| 0 <= k < |b.clients| && b.clients[k] == c.value;
    }
  }

  ghost predicate NoneServes(bals: seq<Balancer>, servers: seq<Server>, clients: seq<Client>, a: Addr, avoid: int,
                             from: nat, to: nat)
  {
    forall k :: from <= k < to && k < |bals| ==> !CanServe(bals[k], servers, clients, a, avoid)
  }

  /** The choice is consistent and comes from the first balancer, from `from` on, that can serve. */
  ghost predicate FirstChoice(bals: seq<Balancer>, servers: seq<Server>, clients: seq<Client>, a: Addr, avoid: int,
                              from: nat, ch: Choice)
  {
    && from <= ch.balancer < |bals|
    && NoneServes(bals, servers, clients, a, avoid, from, ch.balancer)
    && Consistent(bals[ch.balancer], servers, clients, a, avoid, ch.client, ch.server)
  }

  lemma NoneServesDown(bals: seq<Balancer>, servers: seq<Server>, clients: seq<Client>, a: Addr, avoid: int, from: nat)
    requires from < |bals| && !CanServe(bals[from], servers, clients, a, avoid)
    ensures forall to: nat :: NoneServes(bals, servers, clients, a, avoid, from + 1, to)
                              ==> NoneServes(bals, servers, clients, a, avoid, from, to)
  {
  }

  lemma {:induction false} ChooseFromIsFirst(bals: seq<Balancer>, servers: seq<Server>, clients: seq<Client>,
                                             a: Addr, avoid: int, from: nat)
    requires from <= |bals| && ServersOK(servers)
    ensures match ChooseFrom(bals, servers, clients, a, avoid, from)
            case None => NoneServes(bals, servers, clients, a, avoid, from, |bals|)
            case Some(ch) => FirstChoice(bals, servers, clients, a, avoid, from, ch)
    decreases |bals| - from
  {
    if from < |bals| {
      OfferIffCanServe(bals[from], servers, clients, a, avoid);
      if Offer(bals[from], servers, clients, a, avoid).None? {
        ChooseFromIsFirst(bals, servers, clients, a, avoid, from + 1);
        NoneServesDown(bals, servers, clients, a, avoid, from);
      }
    }
  }

  /** A route is chosen exactly when some balancer can serve the source, and then it is a first choice. */
  lemma ChosenRouteIsConsistent(bals: seq<Balancer>, servers: seq<Server>, clients: seq<Client>,
                                a: Addr, avoid: int)
    requires ServersOK(servers)
    ensures match Choose(bals, servers, clients, a, avoid)
            case None => NoneServes(bals, servers, clients, a, avoid, 0, |bals|)
            case Some(ch) => FirstChoice(bals, servers, clients, a, avoid, 0, ch)
  {
    ChooseFromIsFirst(bals, servers, clients, a, avoid, 0);
  }

  /** Server and client group of a choice are what its balancer offers. */
  lemma {:induction false} ChoiceIsOffered(bals: seq<Balancer>, servers: seq<Server>, clients: seq<Client>,
                                           a: Addr, avoid: int, from: nat)
    requires from <= |bals| && ServersOK(servers)
    ensures var ch := ChooseFrom(bals, servers, clients, a, avoid, from);
            ch.Some? ==> ch.value.balancer < |bals|
                         && Offer(bals[ch.value.balancer], servers, clients, a, avoid)
                            == Some((ch.value.client, ch.value.server))
    decreases |bals| - from
  {
    if from < |bals| && Offer(bals[from], servers, clients, a, avoid).None? {
      ChoiceIsOffered(bals, servers, clients, a, avoid, from + 1);
    }
  }

  /** An eligible server of the balancer that is not redundant. */
  ghost predicate HasPlainServer(b: Balancer, servers: seq<Server>, avoid: int) {
    exists s :: s in b.servers && s < |servers| && s != avoid && Eligible(servers[s]) && !servers[s].redundant
  }

  /** The pick is redundant exactly when no eligible server of the balancer is not. */
  lemma PickRedundantIff(servers: seq<Server>, b: Balancer, avoid: int)
    requires ServersOK(servers)
    ensures var p := Pick(servers, b, Candidates(b.servers, servers, avoid));
            p.Some? ==> p.value < |servers| && (servers[p.value].redundant <==> !HasPlainServer(b, servers, avoid))
  {
    var cands := Candidates(b.servers, servers, avoid);
    CandidatesExact(b.servers, servers, avoid);
    var p := Pick(servers, b, cands);
    PickIsUnique(servers, b, cands, p);
    if p.Some? {
      var red: bool, i :| EarliestMax(servers, b, cands, red, i) && cands[i] == p.value
                          && (red ==> forall j :: !InRound(servers, cands, false, j));
      if HasPlainServer(b, servers, avoid) {
        var s :| s in b.servers && s < |servers| && s != avoid && Eligible(servers[s]) && !servers[s].redundant;
        var k :| 0 <= k < |cands| && cands[k] == s;
        assert servers[s] in servers;
        assert InRound(servers, cands, false, k);
      } else {
        assert cands[i] in cands;
      }
    }
  }

  method HasSource(c: Client, a: Addr) returns (r: bool)
    ensures r == SourceMatches(c, a)
    ensures r <==> exists k :: 0 <= k < |c.sources| && InPrefix(a, c.sources[k])
  {
    for k := 0 to |c.sources|
      invariant forall j :: 0 <= j < k ==> !InPrefix(a, c.sources[j])
    {
      var hit := IsAddrInCidr(a, c.sources[k]);
      if hit {
        return true;
      }
    }
    return false;
  }

  /** The client search inside channel creation: full groups are passed over before any source is compared. */
  method FindClient(list: seq<nat>, clients: seq<Client>, a: Addr) returns (r: Option<nat>)
    requires forall c <- list :: c < |clients|
    ensures r == FirstClient(list, clients, a, 0)
  {
    r := None;
    var i := 0;
    while i < |list|
      invariant 0 <= i <= |list|
      invariant FirstClient(list, clients, a, 0) == FirstClient(list, clients, a, i)
    {
      assert list[i] in list;
      var c := clients[list[i]];
      if c.numSlots < c.maxSlots {
        var hit := HasSource(c, a);
        if hit {
          return Some(list[i]);
        }
      }
      i := i + 1;
    }
  }

  /** The candidate loop of channel creation appends to whatever the vector already holds. */
  method PushCandidates(held: seq<nat>, list: seq<nat>, servers: seq<Server>, avoid: int) returns (cands: seq<nat>)
    requires forall s <- list :: s < |servers|
    ensures cands == held + Candidates(list, servers, avoid)
  {
    cands := held;
    assert Candidates([], servers, avoid) == [];
    for k := 0 to |list|
      invariant cands == held + Candidates(list[..k], servers, avoid)
    {
      var s := list[k];
      assert s in list;
      assert list[..k + 1][..k] == list[..k];
      if s != avoid && Eligible(servers[s]) {
        cands := cands + [s];
      }
    }
    assert list[..|list|] == list;
  }

  /**
   One round of the balancer walk. `held` is the vector of candidates, which is declared
   outside the loop and never cleared: a round that finds no server leaves it empty again.
   */
  method TryBalancer(held: seq<nat>, b: Balancer, servers: seq<Server>, clients: seq<Client>, a: Addr, avoid: int)
    returns (client: int, server: int, cands: seq<nat>)
    requires ServersOK(servers) && BalancerOK(b, |servers|, |clients|)
    requires held == []
    ensures match Offer(b, servers, clients, a, avoid)
            case None => server == NIL && cands == []
            case Some(o) => client == o.0 && server == o.1
  {
    client, server, cands := NIL, NIL, held;
    var found := FindClient(b.clients, clients, a);
    if found.Some? {
      client := found.value;
      cands := PushCandidates(cands, b.servers, servers, avoid);
      assert cands == Candidates(b.servers, servers, avoid);
      NonEmptyMeansPick(servers, b, b.servers, avoid);
      var sel := SelectServer(servers, b, cands);
      if sel.Some? {
        server := sel.value;
      }
    }
  }

  /** The balancer walk of channel creation, from the first balancer to the first one that yields a server. */
  method FindRoute(bals: seq<Balancer>, servers: seq<Server>, clients: seq<Client>, a: Addr, avoid: int)
    returns (bal: int, client: int, server: int)
    requires ServersOK(servers)
    requires forall b <- bals :: BalancerOK(b, |servers|, |clients|)
    ensures match Choose(bals, servers, clients, a, avoid)
            case None => bal == NIL || client == NIL || server == NIL
            case Some(ch) => bal == ch.balancer && client == ch.client && server == ch.server
  {
    bal, client, server := NIL, NIL, NIL;
    var cands: seq<nat> := [];
    var i := 0;
    while i < |bals|
      invariant 0 <= i <= |bals|
      invariant cands == [] && server == NIL
      invariant Choose(bals, servers, clients, a, avoid) == ChooseFrom(bals, servers, clients, a, avoid, i)
    {
      assert BalancerOK(bals[i], |servers|, |clients|);
      bal := i;
      var c: int;
      c, server, cands := TryBalancer(cands, bals[i], servers, clients, a, avoid);
      if c != NIL {
        client := c;
      }
      if server != NIL {
        return;
      }
      i := i + 1;
    }
  }
}
