/** What becomes of a server that stays silent: exactly when the tracker drops it from its list. */
module SilentServers {
  import opened Seqs
  import opened ServerList

  /** Nothing is heard from the server, and the list is not cleared. */
  predicate Silent(ev: Event, lsid: string) {
    !(ev.Datagram? && ev.lsid == lsid) && !ev.ClearAll?
  }

  function StateOf(items: seq<Item>, lsid: string): Option<Status> {
    var i := IndexOf(items, lsid);
    if i < |items| then Some(items[i].state) else None
  }

  lemma StateAt(items: seq<Item>, lsid: string, i: nat)
    requires UniqueIds(items) && i < |items| && items[i].lsid == lsid
    ensures StateOf(items, lsid) == Some(items[i].state)
  {
    var j := IndexOf(items, lsid);
    FoundAt(items, lsid, i);
    assert j == i;
  }

  lemma StateNowhere(items: seq<Item>, lsid: string)
    requires forall i :: 0 <= i < |items| ==> items[i].lsid != lsid
    ensures StateOf(items, lsid) == None
  {
  }

  /** A check finds an entry that it keeps and that was last touched more than `tref` seconds ago. */
  ghost predicate FindsOld(items: seq<Item>, now: int, tref: nat) {
    exists k :: 0 <= k < |items| && items[k].state != LOST && tref > 0 && (now - items[k].time) % 0x1_0000_0000 > tref
  }

  lemma {:induction false} AnyTooOldIff(items: seq<Item>, n: nat, now: int, tref: nat)
    requires n <= |items|
    ensures AnyTooOld(items, n, now, tref) <==> FindsOld(items[..n], now, tref)
  {
    if n > 0 {
      AnyTooOldIff(items, n - 1, now, tref);
      assert forall k :: 0 <= k < n - 1 ==> items[..n - 1][k] == items[..n][k];
      assert items[..n][n - 1] == items[n - 1];
    }
  }

  /** The event refreshes the list; with `hard`, one that gives up servers which still wait. */
  ghost predicate Refreshing(w: World, ev: Event, hard: bool) {
    match ev
    case Refresh(created, lostw, _) => created && (hard ==> lostw)
    case Check(created, now, tref) => created && FindsOld(w.items, now, tref)
    case _ => false
  }

  /** One refresh, state by state. */
  lemma RefreshSuccessors(items: seq<Item>, lostw: bool, now: int, i: nat)
    requires i < |items|
    ensures var was, next := items[i], Refreshed(items, lostw, now)[i];
            && next.lsid == was.lsid && next.name == was.name && next.time == now
            && (was.state == LIST ==> next.state == WAIT)
            && (was.state == WAIT && lostw ==> next.state == LOST)
            && (was.state == WAIT && !lostw ==> next.state == WAIT)
            && (was.state == HERE || was.state == LOST ==> next.state == was.state)
  {
  }

  /** What a silent event makes of a state: a check comes first, and a refresh after it. */
  function Fate(s: Status, check: bool, refresh: bool, hard: bool): Option<Status> {
    match s
    case LOST => if check then None else Some(LOST)
    case WAIT => Some(if hard then LOST else WAIT)
    case LIST => Some(if refresh then WAIT else LIST)
    case HERE => Some(if check && refresh then WAIT else if check then LIST else HERE)
  }

  lemma RefreshFate(items: seq<Item>, lsid: string, lostw: bool, now: int)
    ensures var s := StateOf(items, lsid);
            StateOf(Refreshed(items, lostw, now), lsid)
            == if s.None? then None else Fate(s.value, false, true, lostw)
  {
    var i, r := IndexOf(items, lsid), Refreshed(items, lostw, now);
    forall j | 0 <= j < |items|
      ensures r[j].lsid == items[j].lsid
    {
      RefreshSuccessors(items, lostw, now, j);
    }
    IndexIs(r, lsid, i);
    if i < |items| {
      RefreshSuccessors(items, lostw, now, i);
    }
  }

  lemma CheckKeepsServer(items: seq<Item>, i: nat)
    requires UniqueIds(items) && i < |items| && items[i].state != LOST
    ensures StateOf(Checked(items, |items|), items[i].lsid) == Some(Listed(items[i]).state)
  {
    var kept := Checked(items, |items|);
    CheckKeepsUnique(items, |items|);
    CheckedMembers(items, |items|, Listed(items[i]));
    var k :| 0 <= k < |kept| && kept[k] == Listed(items[i]);
    StateAt(kept, items[i].lsid, k);
  }

  lemma CheckDropsServer(items: seq<Item>, lsid: string)
    requires forall i :: 0 <= i < |items| && items[i].state != LOST ==> items[i].lsid != lsid
    ensures StateOf(Checked(items, |items|), lsid) == None
  {
    var kept := Checked(items, |items|);
    forall k | 0 <= k < |kept|
      ensures kept[k].lsid != lsid
    {
      CheckedMembers(items, |items|, kept[k]);
    }
    StateNowhere(kept, lsid);
  }

  lemma CheckFate(items: seq<Item>, lsid: string)
    requires UniqueIds(items)
    ensures var s := StateOf(items, lsid);
            StateOf(Checked(items, |items|), lsid)
            == if s.None? then None else Fate(s.value, true, false, false)
  {
    var i := IndexOf(items, lsid);
    if i < |items| && items[i].state != LOST {
      CheckKeepsServer(items, i);
    } else {
      forall j | 0 <= j < |items| && items[j].state != LOST
        ensures items[j].lsid != lsid
      {
        assert j != i;
      }
      CheckDropsServer(items, lsid);
    }
  }

  lemma OtherDatagramFate(items: seq<Item>, msg: Message, from: string, name: string, now: int, lsid: string)
    requires from != lsid
    ensures StateOf(OnMessage(items, msg, from, name, now), lsid) == StateOf(items, lsid)
  {
    IndexIs(OnMessage(items, msg, from, name, now), lsid,
            if IndexOf(items, lsid) < |items| then IndexOf(items, lsid)
            else |OnMessage(items, msg, from, name, now)|);
  }

  lemma FullCheckFate(items: seq<Item>, lsid: string, created: bool, now: int, tref: nat)
    requires UniqueIds(items)
    ensures var s, stale := StateOf(items, lsid), created && FindsOld(items, now, tref);
            StateOf(AfterCheck(items, created, now, tref), lsid)
            == if s.None? then None else Fate(s.value, true, stale, stale)
  {
    CheckFate(items, lsid);
    AnyTooOldIff(items, |items|, now, tref);
    assert items[..|items|] == items;
    RefreshFate(Checked(items, |items|), lsid, true, now);
  }

  /** Every silent event moves the server on as the table says, and a dropped one stays away. */
  lemma SilentStep(w: World, ev: Event, lsid: string)
    requires Inv(w) && Silent(ev, lsid)
    ensures var s := StateOf(w.items, lsid);
            StateOf(Next(w, ev).items, lsid)
            == if s.None? then None
               else Fate(s.value, ev.Check?, Refreshing(w, ev, false), Refreshing(w, ev, true))
  {
    match ev
    case Datagram(msg, from, name, now) => OtherDatagramFate(w.items, msg, from, name, now, lsid);
    case Refresh(created, lostw, now) => RefreshFate(w.items, lsid, lostw, now);
    case Check(created, now, tref) => FullCheckFate(w.items, lsid, created, now, tref);
  }

  // ---- silent stretches of a run ----

  ghost predicate RefreshAt(w: World, evs: seq<Event>, i: nat, hard: bool) {
    i < |evs| && Refreshing(Exec(w, evs[..i]), evs[i], hard)
  }

  /** Listed by now: it was more than HERE at the start, or a check came. */
  ghost predicate Shown(evs: seq<Event>, n: nat, s: Status) {
    s != HERE || exists h: nat :: h < n && h < |evs| && evs[h].Check?
  }

  /** Waited for by now: a refresh came when, or in the check by which, it was listed. */
  ghost predicate Awaited(w: World, evs: seq<Event>, n: nat, s: Status) {
    s == WAIT || s == LOST || exists i: nat :: i < n && RefreshAt(w, evs, i, false) && Shown(evs, i + 1, s)
  }

  /** Given up by now: a refresh for lost servers came when it was waited for. */
  ghost predicate GivenUp(w: World, evs: seq<Event>, n: nat, s: Status) {
    s == LOST || exists j: nat :: j < n && RefreshAt(w, evs, j, true) && Awaited(w, evs, j, s)
  }

  ghost predicate Dropped(w: World, evs: seq<Event>, n: nat, s: Status) {
    exists k: nat :: k < n && k < |evs| && evs[k].Check? && GivenUp(w, evs, k, s)
  }

  /** How far the server has gone on the way out. */
  function Stage(s: Option<Status>): nat {
    match s
    case None => 4
    case Some(LOST) => 3
    case Some(WAIT) => 2
    case Some(LIST) => 1
    case Some(HERE) => 0
  }

  ghost predicate StageIs(w: World, evs: seq<Event>, n: nat, s: Status, stage: nat) {
    && (stage >= 1 <==> Shown(evs, n, s))
    && (stage >= 2 <==> Awaited(w, evs, n, s))
    && (stage >= 3 <==> GivenUp(w, evs, n, s))
    && (stage >= 4 <==> Dropped(w, evs, n, s))
  }

  lemma {:induction false} ExecAppend(w: World, evs: seq<Event>, ev: Event)
    ensures Exec(w, evs + [ev]) == Next(Exec(w, evs), ev)
    decreases |evs|
  {
    if evs == [] {
      assert [] + [ev] == [ev] && [ev][1..] == [];
    } else {
      ExecAppend(Next(w, evs[0]), evs[1..], ev);
      assert (evs + [ev])[1..] == evs[1..] + [ev];
    }
  }

  /** The four notions, one event later. */
  lemma NotionsStep(w: World, evs: seq<Event>, n: nat, s: Status)
    requires n < |evs|
    ensures Shown(evs, n + 1, s) <==> Shown(evs, n, s) || evs[n].Check?
    ensures Awaited(w, evs, n + 1, s)
            <==> Awaited(w, evs, n, s) || (RefreshAt(w, evs, n, false) && Shown(evs, n + 1, s))
    ensures GivenUp(w, evs, n + 1, s)
            <==> GivenUp(w, evs, n, s) || (RefreshAt(w, evs, n, true) && Awaited(w, evs, n, s))
    ensures Dropped(w, evs, n + 1, s) <==> Dropped(w, evs, n, s) || (evs[n].Check? && GivenUp(w, evs, n, s))
  {
  }

  /** The notions hold in this order only. */
  lemma NotionsOrder(w: World, evs: seq<Event>, n: nat, s: Status)
    requires n <= |evs|
    ensures Dropped(w, evs, n, s) ==> GivenUp(w, evs, n, s)
    ensures GivenUp(w, evs, n, s) ==> Awaited(w, evs, n, s)
    ensures Awaited(w, evs, n, s) ==> Shown(evs, n, s)
    decreases n
  {
    if n > 0 {
      NotionsOrder(w, evs, n - 1, s);
      NotionsStep(w, evs, n - 1, s);
    }
  }

  lemma StageStep(w: World, evs: seq<Event>, n: nat, s: Status, was: Option<Status>)
    requires n < |evs| && StageIs(w, evs, n, s, Stage(was))
    ensures var v, ev := Exec(w, evs[..n]), evs[n];
            StageIs(w, evs, n + 1, s,
                    Stage(if was.None? then None
                          else Fate(was.value, ev.Check?, Refreshing(v, ev, false), Refreshing(v, ev, true))))
  {
    NotionsStep(w, evs, n, s);
    NotionsOrder(w, evs, n, s);
  }

  lemma {:induction false} StageAfter(w: World, evs: seq<Event>, n: nat, lsid: string, s: Status)
    requires Inv(w) && StateOf(w.items, lsid) == Some(s) && n <= |evs| && forall ev <- evs :: Silent(ev, lsid)
    ensures Inv(Exec(w, evs[..n]))
    ensures StageIs(w, evs, n, s, Stage(StateOf(Exec(w, evs[..n]).items, lsid)))
    decreases n
  {
    if n == 0 {
      assert evs[..0] == [];
    } else {
      var m := n - 1;
      StageAfter(w, evs, m, lsid, s);
      assert evs[..n] == evs[..m] + [evs[m]];
      ExecAppend(w, evs[..m], evs[m]);
      assert evs[m] in evs;
      StepKeepsInv(Exec(w, evs[..m]), evs[m]);
      SilentStep(Exec(w, evs[..m]), evs[m], lsid);
      StageStep(w, evs, m, s, StateOf(Exec(w, evs[..m]).items, lsid));
    }
  }

  /**
   A server in state `s` that stays silent has left the list after any run exactly when, in this
   order, it was listed, a refresh came, another refresh came that gives up waiting servers, and
   then a check; a state that is further on saves the first of these.
   */
  lemma SilentServerLeavesIff(w: World, evs: seq<Event>, lsid: string, s: Status)
    requires Inv(w) && StateOf(w.items, lsid) == Some(s) && forall ev <- evs :: Silent(ev, lsid)
    ensures !Listing(Exec(w, evs).items, lsid) <==> Dropped(w, evs, |evs|, s)
  {
    StageAfter(w, evs, |evs|, lsid, s);
    assert evs[..|evs|] == evs;
    assert Listing(Exec(w, evs).items, lsid) <==> Stage(StateOf(Exec(w, evs).items, lsid)) < 4;
  }

  /** A listed server that misses two refreshes, the second of them a hard one, is gone after the next check. */
  lemma SilentServerIsDropped(w: World, evs: seq<Event>, lsid: string, i: nat, j: nat, k: nat)
    requires Inv(w) && StateOf(w.items, lsid) == Some(LIST) && forall ev <- evs :: Silent(ev, lsid)
    requires i < j < k < |evs| && RefreshAt(w, evs, i, false) && RefreshAt(w, evs, j, true) && evs[k].Check?
    ensures !Listing(Exec(w, evs).items, lsid)
  {
    assert Awaited(w, evs, j, LIST);
    assert GivenUp(w, evs, k, LIST);
    SilentServerLeavesIff(w, evs, lsid, LIST);
  }

  /** A known server that said IAMLOST and stays silent is gone exactly when a check came. */
  lemma LostServerLeavesIff(w: World, name: string, now: int, evs: seq<Event>, lsid: string)
    requires Inv(w) && Listing(w.items, lsid) && forall ev <- evs :: Silent(ev, lsid)
    ensures var lost := Next(w, Datagram(IamLost, lsid, name, now));
            !Listing(Exec(lost, evs).items, lsid) <==> exists ev :: ev in evs && ev.Check?
  {
    var ev := Datagram(IamLost, lsid, name, now);
    var lost := Next(w, ev);
    StepKeepsInv(w, ev);
    StateAt(lost.items, lsid, IndexOf(w.items, lsid));
    SilentServerLeavesIff(lost, evs, lsid, LOST);
    if Dropped(lost, evs, |evs|, LOST) {
      var k: nat :| k < |evs| && evs[k].Check? && GivenUp(lost, evs, k, LOST);
      assert evs[k] in evs;
    }
    if ev' :| ev' in evs && ev'.Check? {
      var k :| 0 <= k < |evs| && evs[k] == ev';
      assert GivenUp(lost, evs, k, LOST);
    }
  }
}
