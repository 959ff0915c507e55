/** What the tracker's messages about a server mean for its later choice, field by field. */
module TrackerEffects {
  import opened Seqs
  import opened Inet
  import opened Model
  import opened Scores
  import opened RouteTable
  import opened Steps

  /** The step changes the record of server `s` and nothing else. */
  predicate OnlyServer(st: State, st': State, s: nat)
    requires s < |st.servers|
  {
    |st'.servers| == |st.servers| && st' == st.(servers := st.servers[s := st'.servers[s]])
  }

  /** Active, with a free slot, and with fewer users than it allows, which are 65535 unless it says so. */
  predicate CanTakeMore(s: Server) {
    s.active && s.numSlots < s.maxSlots && (if s.userMax == 0 then s.users < 65535 else s.users < s.userMax)
  }

  lemma EligibleIff(s: Server)
    ensures Eligible(s) <==> CanTakeMore(s)
  {
  }

  /** A server that was switched off is not eligible, has no faults, and keeps slots, limits, weight and role. */
  lemma SwitchingOff(kind: Kind, cfg: Config, st: State, s: nat, b: Balancer)
    requires Ready(cfg, st) && s < |st.servers|
    ensures var st' := Step(kind, cfg, st, Deactivate(s));
            && OnlyServer(st, st', s)
            && var x, y := st.servers[s], st'.servers[s];
            && !y.active && !Eligible(y) && y.faults == 0 && y.users == 0
            && y.numSlots == x.numSlots && y.maxSlots == x.maxSlots && y.confSlots == x.confSlots
            && y.weight == x.weight && y.redundant == x.redundant && y.userMax == x.userMax
            && Resources(b, y) == 4 * y.weight
  {
  }

  /** Switching on makes eligible what has room, and changes nothing else. */
  lemma SwitchingOn(kind: Kind, cfg: Config, st: State, s: nat)
    requires Ready(cfg, st) && s < |st.servers|
    ensures var st' := Step(kind, cfg, st, Activate(s));
            && OnlyServer(st, st', s)
            && st'.servers[s].active && st.servers[s] == st'.servers[s].(active := st.servers[s].active)
            && (Eligible(st'.servers[s]) <==>
                  CanTakeMore(st.servers[s]) || (!st.servers[s].active && CanTakeMore(st.servers[s].(active := true))))
  {
  }

  /**
   After a report the server is eligible exactly when it said it is active, said it has fewer users
   than it allows, and has a free slot within the limit, which a SYNC report lowers to its own if
   that is smaller and not 0. Its resources are the ones it reported; faults, slots taken, weight
   and role stay.
   */
  lemma ReportMeans(kind: Kind, cfg: Config, st: State, ev: Event, b: Balancer)
    requires Ready(cfg, st) && Refers(st, ev) && ev.Report?
    ensures var st' := Step(kind, cfg, st, ev);
            && OnlyServer(st, st', ev.server)
            && var x, y := st.servers[ev.server], st'.servers[ev.server];
            && (Eligible(y) <==>
                  && ev.active
                  && (if ev.cmax == 0 then ev.users < 65535 else ev.users < ev.cmax)
                  && x.numSlots < x.maxSlots && (ev.sync && ev.cmax != 0 ==> x.numSlots < ev.cmax))
            && y.active == ev.active && y.users == ev.users && y.userMax == ev.cmax
            && (y.maxSlots < x.maxSlots <==> ev.sync && 0 < ev.cmax < x.maxSlots)
            && y.maxSlots == (if ev.sync && 0 < ev.cmax < x.maxSlots then ev.cmax else x.maxSlots)
            && y.faults == x.faults && y.numSlots == x.numSlots && y.confSlots == x.confSlots
            && y.weight == x.weight && y.redundant == x.redundant
            && Resources(b, y) == Resources(b, x.(memFree := ev.memFree, cpuFree := ev.cpuFree))
            && y.memFree == ev.memFree && y.cpuFree == ev.cpuFree
  {
  }

  /** A successful connection clears the faults of its own server, marks its channel, and changes nothing else. */
  lemma ConnectMeans(kind: Kind, cfg: Config, st: State, id: ChanPtr)
    requires Ready(cfg, st) && Live(st, id)
    ensures var st' := Step(kind, cfg, st, Connect(id));
            var i := IndexOf(st.channels, id);
            var s := st.channels[i].server;
            && 0 <= s < |st.servers|
            && st' == st.(channels := st.channels[i := st.channels[i].(connected := true)],
                          servers := st.servers[s := st.servers[s].(faults := 0)])
  {
    ChannelServerInRange(st, IndexOf(st.channels, id));
  }
}
