/** Exactly when a server or a client group gets more channels than a limit allows. */
module SlotLimits {
  import opened Seqs
  import opened Inet
  import opened Model
  import opened Selector
  import opened RouteTable
  import opened Steps
  import opened Runs

  /** Who has a slot limit. */
  datatype Party = TheServer(s: nat) | TheClient(k: nat)

  predicate Known(st: State, p: Party) {
    match p
    case TheServer(s) => s < |st.servers|
    case TheClient(k) => k < |st.clients|
  }

  function Slots(st: State, p: Party): int
    requires Known(st, p)
  {
    match p
    case TheServer(s) => st.servers[s].numSlots
    case TheClient(k) => st.clients[k].numSlots
  }

  function Limit(st: State, p: Party): int
    requires Known(st, p)
  {
    match p
    case TheServer(s) => st.servers[s].maxSlots
    case TheClient(k) => st.clients[k].maxSlots
  }

  predicate LeadsTo(server: int, client: int, p: Party) {
    match p
    case TheServer(s) => server == s
    case TheClient(k) => client == k
  }

  /** The cache supplies a route for the peer, and not one to the server to avoid. */
  ghost predicate Reuses(cfg: Config, st: State, avoid: int, how: Attempt)
    requires CacheOK(st)
  {
    && how.peer.Some? && !how.peer.value.Unknown?
    && Visible(cfg, st, how.peer.value, how.times.find)
    && st.heap[st.cache[how.peer.value]].server != avoid
  }

  /** The creation joins a route of `p` that the cache supplies. */
  ghost predicate Hits(cfg: Config, st: State, avoid: int, how: Attempt, p: Party)
    requires CacheOK(st)
  {
    && Reuses(cfg, st, avoid, how) && how.outcome.Started?
    && var e := st.heap[st.cache[how.peer.value]]; LeadsTo(e.server, e.client, p)
  }

  /** A counter goes up by one on a hit, and otherwise only from below the current limit. */
  ghost predicate Counted(st: State, st': State, hit: bool, p: Party)
    requires Known(st, p)
  {
    && Known(st', p)
    && if hit then Slots(st', p) == Slots(st, p) + 1
       else Slots(st', p) == Slots(st, p) || (Slots(st', p) == Slots(st, p) + 1 && Slots(st, p) < Limit(st, p))
  }

  lemma CountedFrom(st: State, st1: State, st': State, hit: bool, p: Party)
    requires st1.servers == st.servers && st1.clients == st.clients && Known(st, p) && Counted(st1, st', hit, p)
    ensures Counted(st, st', hit, p)
  {
  }

  lemma LookupFindsVisible(kind: Kind, cfg: Config, st: State, key: Addr, now: int)
    requires Core(st)
    ensures Lookup(kind, cfg, st, key, now).1 == if Visible(cfg, st, key, now) then Some(st.cache[key]) else None
  {
  }

  lemma FreshCounted(kind: Kind, cfg: Config, st: State, key: Addr, src: Sock, choice: Option<Choice>, how: Attempt,
                     p: Party)
    requires Core(st) && ChoiceOK(st, key, NIL, choice) && Known(st, p)
    ensures Counted(st, UseFresh(kind, cfg, st, key, src, choice, how), false, p)
  {
    if choice.Some? && how.outcome.Started? {
      var dst := how.outcome.target;
      FreshAttached(st, key, src, choice.value, dst, how);
      InsertServers(kind, cfg, FreshChannel(st, key, src, choice.value, dst, how), key, st.next, how.times.add);
    }
  }

  lemma CachedCounted(st: State, key: Addr, r: RoutePtr, src: Sock, how: Attempt, p: Party)
    requires Core(st) && r in st.heap && Known(st, p)
    ensures Counted(st, UseCached(st, key, r, src, how),
                    how.outcome.Started? && LeadsTo(st.heap[r].server, st.heap[r].client, p), p)
  {
    assert RouteOK(st, r);
  }

  lemma CreateCounted(kind: Kind, cfg: Config, st: State, src: Sock, avoid: int, how: Attempt, p: Party)
    requires Ready(cfg, st) && Known(st, p)
    ensures Counted(st, Create(kind, cfg, st, src, avoid, how), Hits(cfg, st, avoid, how, p), p)
  {
    if how.peer.Some? && !how.peer.value.Unknown? {
      var key, t := how.peer.value, how.times.find;
      LookupKeepsCore(kind, cfg, st, key, t);
      LookupFindsVisible(kind, cfg, st, key, t);
      var (st1, found) := Lookup(kind, cfg, st, key, t);
      if found.None? {
        FreshCounted(kind, cfg, st1, key, src, Chosen(cfg, st1, key, avoid), how, p);
        CountedFrom(st, st1, UseFresh(kind, cfg, st1, key, src, Chosen(cfg, st1, key, avoid), how), false, p);
      } else if st1.heap[found.value].server != avoid {
        var e := st1.heap[found.value];
        CachedCounted(st1, key, found.value, src, how, p);
        CountedFrom(st, st1, UseCached(st1, key, found.value, src, how),
                    how.outcome.Started? && LeadsTo(e.server, e.client, p), p);
      } else {
        RemoveKeepsCore(st1, key);
        var st2 := Remove(st1, key);
        FreshCounted(kind, cfg, st2, key, src, Chosen(cfg, st2, key, avoid), how, p);
        CountedFrom(st, st2, UseFresh(kind, cfg, st2, key, src, Chosen(cfg, st2, key, avoid), how), false, p);
      }
    }
  }

  /**
   Channel creation takes a server or a client group past a limit that it respected exactly when
   it joins a cached route there and finds the last slot taken.
   */
  lemma CreateOverfillsIff(kind: Kind, cfg: Config, st: State, src: Sock, avoid: int, how: Attempt, p: Party,
                           limit: int)
    requires Ready(cfg, st) && Known(st, p)
    requires Slots(st, p) <= limit && Limit(st, p) <= limit
    ensures var st' := Create(kind, cfg, st, src, avoid, how);
            && Known(st', p)
            && (Slots(st', p) > limit <==> Hits(cfg, st, avoid, how, p) && Slots(st, p) == limit)
  {
    CreateCounted(kind, cfg, st, src, avoid, how, p);
  }

  /** So does an accepted connection with the current limit, which it leaves as it is. */
  lemma AcceptOverfillsIff(kind: Kind, cfg: Config, st: State, src: Sock, how: Attempt, p: Party)
    requires Ready(cfg, st) && Known(st, p) && Slots(st, p) <= Limit(st, p)
    ensures var st' := Step(kind, cfg, st, Accept(src, how));
            && Known(st', p)
            && (Slots(st', p) > Limit(st', p) <==> Hits(cfg, st, NIL, how, p) && Slots(st, p) == Limit(st, p))
  {
    var st1 := OpenSock(st, src);
    SameCore(st, st1);
    CreateOverfillsIff(kind, cfg, st1, src, NIL, how, p, Limit(st, p));
    CreateServers(kind, cfg, st1, src, NIL, how);
  }

  // ---- all steps, and whole runs ----

  /** The step puts a channel on a cached route of `p`, and `p` does not lose the channel that failed over. */
  ghost predicate Joins(cfg: Config, st: State, ev: Event, p: Party)
    requires Core(st) && Refers(st, ev)
  {
    match ev
    case Accept(_, how) => Hits(cfg, st, NIL, how, p)
    case Failover(id, how, _) =>
      var c := st.channels[IndexOf(st.channels, id)];
      Hits(cfg, st, c.server, how, p) && !LeadsTo(c.server, c.client, p)
    case _ => false
  }

  lemma DestroyCounted(st: State, i: nat, t: int, p: Party)
    requires Core(st) && i < |st.channels| && Known(st, p)
    ensures var st', c := Destroy(st, i, t), st.channels[i];
            && Known(st', p)
            && Slots(st', p) == Slots(st, p) - (if LeadsTo(c.server, c.client, p) then 1 else 0)
  {
    ClampsNeverFire(st, i);
    assert ChannelOK(st, st.channels[i]);
  }

  lemma FailoverOverfillsIff(kind: Kind, cfg: Config, st: State, i: nat, how: Attempt, gone: int, p: Party, limit: int)
    requires Ready(cfg, st) && i < |st.channels| && Known(st, p)
    requires Slots(st, p) <= limit && Limit(st, p) <= limit
    ensures var st', c := FailoverAt(kind, cfg, st, i, how, gone), st.channels[i];
            && Known(st', p)
            && (Slots(st', p) > limit <==>
                  Hits(cfg, st, c.server, how, p) && !LeadsTo(c.server, c.client, p) && Slots(st, p) == limit)
  {
    var c := st.channels[i];
    ChannelServerInRange(st, i);
    AfterFaultReady(cfg, st, i);
    CreateCounted(kind, cfg, AfterFault(cfg, st, i), c.source, c.server, how, p);
    ReplacedKeepsCore(kind, cfg, st, i, how);
    DestroyCounted(Replaced(kind, cfg, st, i, how), i, gone, p);
  }

  lemma TrackerCounted(kind: Kind, cfg: Config, st: State, ev: Event, p: Party)
    requires Ready(cfg, st) && Refers(st, ev) && Known(st, p)
    requires ev.Activate? || ev.Deactivate? || ev.Report?
    ensures var st' := Step(kind, cfg, st, ev); Known(st', p) && Slots(st', p) == Slots(st, p)
  {
  }

  /** Of all steps only those that join a cached route overfill, and they do exactly when the limit was reached. */
  lemma StepOverfillsIff(kind: Kind, cfg: Config, st: State, ev: Event, p: Party, limit: int)
    requires Ready(cfg, st) && Refers(st, ev) && Known(st, p)
    requires Slots(st, p) <= limit && Limit(st, p) <= limit
    ensures var st' := Step(kind, cfg, st, ev);
            && Known(st', p)
            && (Slots(st', p) > limit <==> Joins(cfg, st, ev, p) && Slots(st, p) == limit)
  {
    match ev
    case Accept(src, how) =>
      SameCore(st, OpenSock(st, src));
      CreateOverfillsIff(kind, cfg, OpenSock(st, src), src, NIL, how, p, limit);
    case Failover(id, how, gone) =>
      FailoverOverfillsIff(kind, cfg, st, IndexOf(st.channels, id), how, gone, p, limit);
    case Close(id, gone) => DestroyCounted(st, IndexOf(st.channels, id), gone, p);
    case Connect(id) => ChannelServerInRange(st, IndexOf(st.channels, id));
    case Activate(_) => TrackerCounted(kind, cfg, st, ev, p);
    case Deactivate(_) => TrackerCounted(kind, cfg, st, ev, p);
    case Report(_, _, _, _, _, _, _) => TrackerCounted(kind, cfg, st, ev, p);
  }

  /** At every moment of the run, `p` has at most `limit` channels. */
  ghost predicate StaysWithin(kind: Kind, cfg: Config, st: State, clock: int, evs: seq<Event>, p: Party, limit: int)
    requires Inv(cfg, st) && IsRun(kind, cfg, st, clock, evs) && Known(st, p)
    decreases |evs|
  {
    && Slots(st, p) <= limit
    && (evs == [] || (
          StepKeepsInv(kind, cfg, st, clock, evs[0]);
          StepKeepsLimits(kind, cfg, st, evs[0]);
          StaysWithin(kind, cfg, Step(kind, cfg, st, evs[0]), EndTime(evs[0], clock), evs[1..], p, limit)))
  }

  /** No step of the run joins a cached route of `p` at a moment when all slots are taken. */
  ghost predicate NoFullJoin(kind: Kind, cfg: Config, st: State, clock: int, evs: seq<Event>, p: Party, limit: int)
    requires Inv(cfg, st) && IsRun(kind, cfg, st, clock, evs) && Known(st, p)
    decreases |evs|
  {
    evs == [] || (
      && !(Joins(cfg, st, evs[0], p) && Slots(st, p) == limit)
      && (StepKeepsInv(kind, cfg, st, clock, evs[0]);
          StepKeepsLimits(kind, cfg, st, evs[0]);
          NoFullJoin(kind, cfg, Step(kind, cfg, st, evs[0]), EndTime(evs[0], clock), evs[1..], p, limit)))
  }

  /** A limit holds throughout a run exactly when no step of it joins a cached route of a full party. */
  lemma {:induction false} LimitHoldsIffNoFullJoin(kind: Kind, cfg: Config, st: State, clock: int, evs: seq<Event>,
                                                   p: Party, limit: int)
    requires Inv(cfg, st) && IsRun(kind, cfg, st, clock, evs) && Known(st, p)
    requires Slots(st, p) <= limit && Limit(st, p) <= limit
    ensures StaysWithin(kind, cfg, st, clock, evs, p, limit) <==> NoFullJoin(kind, cfg, st, clock, evs, p, limit)
    decreases |evs|
  {
    if evs != [] {
      var ev := evs[0];
      StepKeepsInv(kind, cfg, st, clock, ev);
      StepKeepsLimits(kind, cfg, st, ev);
      StepOverfillsIff(kind, cfg, st, ev, p, limit);
      var st' := Step(kind, cfg, st, ev);
      if Slots(st', p) <= limit {
        LimitHoldsIffNoFullJoin(kind, cfg, st', EndTime(ev, clock), evs[1..], p, limit);
      }
    }
  }
}
