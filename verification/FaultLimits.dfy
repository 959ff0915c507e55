/** Exactly when failed connections switch a server off. */
module FaultLimits {
  import opened Seqs
  import opened Inet
  import opened Model
  import opened RouteTable
  import opened Steps
  import opened Runs

  /** Activity and fault count, which are all that a failed connection changes in a server's record. */
  predicate SameHealth(x: Server, y: Server) {
    y.active == x.active && y.faults == x.faults
  }

  /** A server after one more failed connection, given the limit. */
  predicate OneMoreFault(x: Server, y: Server, limit: int) {
    && (y.active <==> x.active && x.faults + 1 < limit)
    && y.faults == if x.faults + 1 < limit then x.faults + 1 else 0
  }

  /**
   A failover counts one fault for the server of the failed channel; at the limit that switches
   the server off and clears the count. No other server's activity or faults change.
   */
  lemma FailoverFaults(kind: Kind, cfg: Config, st: State, i: nat, how: Attempt, gone: int, t: nat)
    requires Ready(cfg, st) && i < |st.channels| && t < |st.servers|
    ensures var st' := FailoverAt(kind, cfg, st, i, how, gone);
            && t < |st'.servers|
            && if t == st.channels[i].server then OneMoreFault(st.servers[t], st'.servers[t], cfg.maxFaults)
               else SameHealth(st.servers[t], st'.servers[t])
  {
    ChannelServerInRange(st, i);
    FailoverServers(kind, cfg, st, i, how, gone);
    assert ServerButSlots(AfterFault(cfg, st, i).servers[t], FailoverAt(kind, cfg, st, i, how, gone).servers[t]);
  }

  /** The step is a failed connection to server `s`. */
  predicate Faults(st: State, ev: Event, s: nat) {
    ev.Failover? && Live(st, ev.chan) && st.channels[IndexOf(st.channels, ev.chan)].server == s
  }

  /** The step clears the fault count of server `s`: a connection to it succeeded, or it was switched off. */
  predicate Clears(st: State, ev: Event, s: nat) {
    match ev
    case Connect(id) => Live(st, id) && st.channels[IndexOf(st.channels, id)].server == s
    case Deactivate(t) => t == s
    case _ => false
  }

  /** Nothing but failed connections can change the activity or the fault count of server `s` in this step. */
  predicate Steady(st: State, ev: Event, s: nat)
    requires s < |st.servers|
  {
    && !Clears(st, ev, s)
    && match ev
       case Activate(t) => t == s ==> st.servers[s].active
       case Report(t, active, _, _, _, _, _) => t == s ==> active == st.servers[s].active
       case _ => true
  }

  lemma ClearedCount(kind: Kind, cfg: Config, st: State, ev: Event, s: nat)
    requires Ready(cfg, st) && Refers(st, ev) && s < |st.servers| && Clears(st, ev, s)
    ensures var st' := Step(kind, cfg, st, ev);
            && s < |st'.servers| && st'.servers[s].faults == 0
            && (st'.servers[s].active <==> st.servers[s].active && !ev.Deactivate?)
  {
    StepKeepsReady(kind, cfg, st, ev);
  }

  lemma AcceptHealth(kind: Kind, cfg: Config, st: State, src: Sock, how: Attempt, s: nat)
    requires Ready(cfg, st) && s < |st.servers|
    ensures var st' := Step(kind, cfg, st, Accept(src, how));
            s < |st'.servers| && SameHealth(st.servers[s], st'.servers[s])
  {
    SameCore(st, OpenSock(st, src));
    CreateServers(kind, cfg, OpenSock(st, src), src, NIL, how);
    assert ServerButSlots(st.servers[s], Step(kind, cfg, st, Accept(src, how)).servers[s]);
  }

  lemma CloseHealth(st: State, i: nat, gone: int, s: nat)
    requires Core(st) && i < |st.channels| && s < |st.servers|
    ensures s < |Destroy(st, i, gone).servers| && SameHealth(st.servers[s], Destroy(st, i, gone).servers[s])
  {
    DestroyServers(st, i, gone);
    assert ServerButSlots(st.servers[s], Destroy(st, i, gone).servers[s]);
  }

  lemma SteadyStep(kind: Kind, cfg: Config, st: State, ev: Event, s: nat)
    requires Ready(cfg, st) && Refers(st, ev) && s < |st.servers| && Steady(st, ev, s)
    ensures var st' := Step(kind, cfg, st, ev);
            && s < |st'.servers|
            && if Faults(st, ev, s) then OneMoreFault(st.servers[s], st'.servers[s], cfg.maxFaults)
               else SameHealth(st.servers[s], st'.servers[s])
  {
    match ev
    case Accept(src, how) => AcceptHealth(kind, cfg, st, src, how, s);
    case Failover(id, how, gone) => FailoverFaults(kind, cfg, st, IndexOf(st.channels, id), how, gone, s);
    case Close(id, gone) => CloseHealth(st, IndexOf(st.channels, id), gone, s);
    case Connect(id) => ChannelServerInRange(st, IndexOf(st.channels, id));
    case Activate(_) =>
    case Deactivate(_) =>
    case Report(_, _, _, _, _, _, _) =>
  }

  ghost predicate SteadyRun(kind: Kind, cfg: Config, st: State, clock: int, evs: seq<Event>, s: nat)
    requires Inv(cfg, st) && IsRun(kind, cfg, st, clock, evs) && s < |st.servers|
    decreases |evs|
  {
    evs == [] || (
      && Steady(st, evs[0], s)
      && (StepKeepsInv(kind, cfg, st, clock, evs[0]);
          StepKeepsReady(kind, cfg, st, evs[0]);
          SteadyRun(kind, cfg, Step(kind, cfg, st, evs[0]), EndTime(evs[0], clock), evs[1..], s)))
  }

  /** How many failed connections to server `s` there are in a run. */
  ghost function FaultsIn(kind: Kind, cfg: Config, st: State, clock: int, evs: seq<Event>, s: nat): nat
    requires Inv(cfg, st) && IsRun(kind, cfg, st, clock, evs)
    decreases |evs|
  {
    if evs == [] then 0
    else
      StepKeepsInv(kind, cfg, st, clock, evs[0]);
      (if Faults(st, evs[0], s) then 1 else 0)
      + FaultsIn(kind, cfg, Step(kind, cfg, st, evs[0]), EndTime(evs[0], clock), evs[1..], s)
  }

  /**
   An active server is switched off by failed connections exactly when, with those counted before,
   there are `maxFaults` of them, as long as no connection to it succeeds and nobody else switches
   it; until then its count is the number of them.
   */
  lemma {:induction false} SwitchedOffIff(kind: Kind, cfg: Config, st: State, clock: int, evs: seq<Event>, s: nat)
    requires Inv(cfg, st) && IsRun(kind, cfg, st, clock, evs) && s < |st.servers|
    requires SteadyRun(kind, cfg, st, clock, evs, s)
    ensures var end, n := Exec(kind, cfg, st, clock, evs), FaultsIn(kind, cfg, st, clock, evs, s);
            && s < |end.servers|
            && (end.servers[s].active <==> st.servers[s].active && st.servers[s].faults + n < cfg.maxFaults)
            && (end.servers[s].active ==> end.servers[s].faults == st.servers[s].faults + n)
    decreases |evs|
  {
    if evs != [] {
      var ev := evs[0];
      StepKeepsInv(kind, cfg, st, clock, ev);
      SteadyStep(kind, cfg, st, ev, s);
      SwitchedOffIff(kind, cfg, Step(kind, cfg, st, ev), EndTime(ev, clock), evs[1..], s);
    }
  }

  /**
   After a connection to an active server succeeded, it takes `maxFaults` failed ones in a row to
   switch it off, and exactly these.
   */
  lemma SwitchedOffAfterSuccess(kind: Kind, cfg: Config, st: State, clock: int, ev: Event, evs: seq<Event>, s: nat)
    requires Inv(cfg, st) && Enabled(cfg, st, clock, ev) && Inv(cfg, Step(kind, cfg, st, ev))
    requires s < |st.servers| && st.servers[s].active && ev.Connect? && Clears(st, ev, s)
    requires s < |Step(kind, cfg, st, ev).servers|
    requires IsRun(kind, cfg, Step(kind, cfg, st, ev), clock, evs)
    requires SteadyRun(kind, cfg, Step(kind, cfg, st, ev), clock, evs, s)
    ensures var st1 := Step(kind, cfg, st, ev);
            var end := Exec(kind, cfg, st1, clock, evs);
            && s < |end.servers|
            && (!end.servers[s].active <==> FaultsIn(kind, cfg, st1, clock, evs, s) >= cfg.maxFaults)
  {
    ClearedCount(kind, cfg, st, ev, s);
    SwitchedOffIff(kind, cfg, Step(kind, cfg, st, ev), clock, evs, s);
  }
}
