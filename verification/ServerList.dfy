/** The tracker's list of servers: WAIT, HERE, LIST and LOST. */
module ServerList {
  import opened Seqs

  datatype Status = WAIT | HERE | LIST | LOST

  datatype Message = IamHere | IamLost | RetInfo

  datatype Item = Item(lsid: string, name: string, state: Status, time: int)

  function IndexOf(items: seq<Item>, lsid: string): (i: nat)
    ensures i <= |items|
    ensures i < |items| ==> items[i].lsid == lsid
    ensures forall j :: 0 <= j < i ==> items[j].lsid != lsid
  {
    if items == [] || items[0].lsid == lsid then 0 else 1 + IndexOf(items[1..], lsid)
  }

  lemma IndexIs(items: seq<Item>, lsid: string, i: nat)
    requires i <= |items| && (i < |items| ==> items[i].lsid == lsid)
    requires forall j :: 0 <= j < i ==> items[j].lsid != lsid
    ensures IndexOf(items, lsid) == i
  {
  }

  // ---- the three operations, as functions ----

  function Heard(was: Item, name: string, now: int): Item {
    Item(was.lsid, name, if name == was.name && (was.state == WAIT || was.state == LIST) then LIST else HERE, now)
  }

  function OnMessage(items: seq<Item>, msg: Message, lsid: string, name: string, now: int): seq<Item> {
    var i := IndexOf(items, lsid);
    if i == |items| then items + [Item(lsid, name, HERE, now)]
    else if msg == IamLost then items[i := items[i].(state := LOST)]
    else items[i := Heard(items[i], name, now)]
  }

  function RefreshedItem(item: Item, lostw: bool, now: int): Item {
    item.(time := now,
          state := if lostw && item.state == WAIT then LOST else if item.state == LIST then WAIT else item.state)
  }

  function Refreshed(items: seq<Item>, lostw: bool, now: int): (r: seq<Item>)
    ensures |r| == |items|
  {
    seq(|items|, i requires 0 <= i < |items| => RefreshedItem(items[i], lostw, now))
  }

  /** The first `n` items without the lost ones, in order. */
  function Kept(items: seq<Item>, n: nat): seq<Item>
    requires n <= |items|
  {
    if n == 0 then []
    else Kept(items, n - 1) + (if items[n - 1].state == LOST then [] else [items[n - 1]])
  }

  function Listed(item: Item): Item {
    if item.state == HERE then item.(state := LIST) else item
  }

  /** `check_svrs` on the first `n` items, before its refresh: lost servers leave, new ones are listed. */
  function Checked(items: seq<Item>, n: nat): seq<Item>
    requires n <= |items|
  {
    if n == 0 then []
    else Checked(items, n - 1) + (if items[n - 1].state == LOST then [] else [Listed(items[n - 1])])
  }

  /** The age is cast to an unsigned 32-bit number, so a time in the future counts as very old. */
  predicate TooOld(item: Item, now: int, tref: nat) {
    tref > 0 && (now - item.time) % 0x1_0000_0000 > tref
  }

  predicate AnyTooOld(items: seq<Item>, n: nat, now: int, tref: nat)
    requires n <= |items|
  {
    n > 0 && (AnyTooOld(items, n - 1, now, tref) || (items[n - 1].state != LOST && TooOld(items[n - 1], now, tref)))
  }

  /** Whether a check reports a change: a server leaves or is listed. */
  predicate AnyNews(items: seq<Item>, n: nat)
    requires n <= |items|
  {
    n > 0 && (AnyNews(items, n - 1) || items[n - 1].state == LOST || items[n - 1].state == HERE)
  }

  /** `refresh_svrs` does nothing when the tracker's thread does not exist. */
  function AfterRefresh(items: seq<Item>, created: bool, lostw: bool, now: int): seq<Item> {
    if created then Refreshed(items, lostw, now) else items
  }

  function AfterCheck(items: seq<Item>, created: bool, now: int, tref: nat): seq<Item> {
    var kept := Checked(items, |items|);
    if AnyTooOld(items, |items|, now, tref) then AfterRefresh(kept, created, true, now) else kept
  }

  /** The list while a check is at item `n`: what it has made of the items before, and the others as they were. */
  function Midway(all: seq<Item>, n: nat): seq<Item>
    requires n <= |all|
  {
    Checked(all, n) + all[n..]
  }

  /** Erasing or replacing the first item behind those that were kept. */
  lemma Splice(head: seq<Item>, tail: seq<Item>, x: Item)
    requires tail != []
    ensures (head + tail)[|head|] == tail[0]
    ensures RemoveAt(head + tail, |head|) == head + tail[1..]
    ensures (head + tail)[|head| := x] == (head + [x]) + tail[1..]
  {
  }

  lemma MidwayStep(all: seq<Item>, n: nat)
    requires n < |all|
    ensures var i := |Checked(all, n)|;
            && i < |Midway(all, n)| && Midway(all, n)[i] == all[n]
            && |Checked(all, n + 1)| == (if all[n].state == LOST then i else i + 1)
            && Midway(all, n + 1) == (if all[n].state == LOST then RemoveAt(Midway(all, n), i)
                                      else Midway(all, n)[i := Listed(all[n])])
  {
    Splice(Checked(all, n), all[n..], Listed(all[n]));
    assert all[n..][1..] == all[n + 1..];
    assert Checked(all, n) + [] == Checked(all, n);
  }

  /** The walk has seen `n` items and goes on at position `i`, with what it has noticed so far. */
  ghost predicate Walked(all: seq<Item>, n: nat, items: seq<Item>, i: int, changed: bool, refresh: bool,
                         now: int, tref: nat)
  {
    && n <= |all| && items == Midway(all, n) && i == |Checked(all, n)|
    && changed == AnyNews(all, n) && refresh == AnyTooOld(all, n, now, tref)
  }

  lemma WalkStep(all: seq<Item>, n: nat, items: seq<Item>, i: int, changed: bool, refresh: bool, now: int, tref: nat)
    requires Walked(all, n, items, i, changed, refresh, now, tref) && i < |items|
    ensures n < |all| && 0 <= i && items[i] == all[n]
    ensures var x := all[n];
            Walked(all, n + 1, if x.state == LOST then RemoveAt(items, i) else items[i := Listed(x)],
                   if x.state == LOST then i else i + 1, changed || x.state == LOST || x.state == HERE,
                   refresh || (x.state != LOST && TooOld(x, now, tref)), now, tref)
  {
    assert n < |all|;
    MidwayStep(all, n);
  }

  lemma WalkEnd(all: seq<Item>, n: nat, items: seq<Item>, i: int, changed: bool, refresh: bool, now: int, tref: nat)
    requires Walked(all, n, items, i, changed, refresh, now, tref) && i >= |items|
    ensures n == |all| && items == Checked(all, n)
  {
  }

  // ---- the list object ----

  class Tracker {
    var items: seq<Item>
    var tref: nat

    constructor (tref: nat)
      ensures items == [] && this.tref == tref
    {
      items, this.tref := [], tref;
    }

    /** The datagram part of the tracker's main loop. */
    method OnDatagram(msg: Message, lsid: string, name: string, now: int) returns (item: Item)
      modifies this`items
      ensures items == OnMessage(old(items), msg, lsid, name, now)
      ensures item in items && item.lsid == lsid
      ensures var known, i := old(items), IndexOf(old(items), lsid);
              if i == |known| then items == known + [Item(lsid, name, HERE, now)]
              else
                && |items| == |known| && (forall j :: 0 <= j < |known| && j != i ==> items[j] == known[j])
                && items[i].lsid == lsid
                && (msg == IamLost ==> items[i] == known[i].(state := LOST))
                && (msg != IamLost ==>
                      && items[i].name == name && items[i].time == now
                      && items[i].state == (if name == known[i].name && known[i].state in {WAIT, LIST} then LIST
                                            else HERE))
    {
      item := Item(lsid, name, WAIT, 0);
      var append := true;
      var i := 0;
      while i < |items|
        invariant 0 <= i <= |items| && items == old(items) && append
        invariant item == Item(lsid, name, WAIT, 0)
        invariant forall j :: 0 <= j < i ==> items[j].lsid != lsid
      {
        if items[i].lsid == lsid {
          IndexIs(items, lsid, i);
          if msg == IamLost {
            items := items[i := items[i].(state := LOST)];
            item := items[i];
          } else {
            item := item.(time := now);
            if item.name == items[i].name && (items[i].state == WAIT || items[i].state == LIST) {
              item := item.(state := LIST);
            } else {
              item := item.(state := HERE);
            }
          }
          items := items[i := item];
          append := false;
          assert items[i] == item;
          break;
        }
        i := i + 1;
      }
      if append {
        IndexIs(items, lsid, |items|);
        item := item.(state := HERE, time := now);
        items := items + [item];
        assert items[|items| - 1] == item;
      }
    }

    /** `refresh_svrs`; `created` says whether the tracker's thread exists. */
    method RefreshServers(created: bool, lostw: bool, now: int)
      modifies this`items
      ensures items == AfterRefresh(old(items), created, lostw, now)
      ensures !created ==> items == old(items)
      ensures created ==>
                && |items| == |old(items)|
                && forall i :: 0 <= i < |items| ==>
                     && items[i].lsid == old(items)[i].lsid && items[i].name == old(items)[i].name
                     && items[i].time == now
                     && items[i].state == match old(items)[i].state
                                          case LIST => WAIT
                                          case WAIT => if lostw then LOST else WAIT
                                          case HERE => HERE
                                          case LOST => LOST
    {
      if !created {
        return;
      }
      for i := 0 to |items|
        invariant |items| == |old(items)|
        invariant forall j :: 0 <= j < |items| ==>
          items[j] == if j < i then RefreshedItem(old(items)[j], lostw, now) else old(items)[j]
      {
        items := items[i := items[i].(time := now)];
        if lostw && items[i].state == WAIT {
          items := items[i := items[i].(state := LOST)];
        } else if items[i].state == LIST {
          items := items[i := items[i].(state := WAIT)];
        }
      }
    }

    /** The loop body at position `i`: a lost server is erased, a new one is listed, an old one asks for a refresh. */
    method CheckAt(i: nat, now: int) returns (gone: bool, news: bool, stale: bool)
      requires i < |items|
      modifies this`items
      ensures var item := old(items)[i];
              && gone == (item.state == LOST)
              && news == (item.state == LOST || item.state == HERE)
              && stale == (item.state != LOST && TooOld(item, now, tref))
              && items == if item.state == LOST then RemoveAt(old(items), i) else old(items)[i := Listed(item)]
    {
      gone, news, stale := false, false, false;
      if items[i].state == LOST {
        gone, news := true, true;
        items := RemoveAt(items, i);
      } else {
        if items[i].state == HERE {
          news := true;
          items := items[i := items[i].(state := LIST)];
        }
        if tref > 0 {
          stale := (now - items[i].time) % 0x1_0000_0000 > tref;
        }
      }
    }

    /** The walk over the list, which erases from the list while it goes. `n` counts the items seen. */
    method Walk(now: int) returns (changed: bool, refresh: bool)
      modifies this`items
      ensures var n := |old(items)|;
              && items == Checked(old(items), n)
              && changed == AnyNews(old(items), n)
              && refresh == AnyTooOld(old(items), n, now, tref)
    {
      ghost var all: seq<Item>, n: nat := items, 0;
      changed, refresh := false, false;
      var i := 0;
      while i < |items|
        invariant Walked(all, n, items, i, changed, refresh, now, tref)
        decreases |all| - n
      {
        WalkStep(all, n, items, i, changed, refresh, now, tref);
        var gone, news, stale := CheckAt(i, now);
        changed, refresh := changed || news, refresh || stale;
        if gone {
          i := i - 1;
        }
        i := i + 1;
        n := n + 1;
      }
      WalkEnd(all, n, items, i, changed, refresh, now, tref);
    }

    /** `check_svrs`. */
    method CheckServers(created: bool, now: int) returns (changed: bool)
      modifies this`items
      ensures items == AfterCheck(old(items), created, now, tref)
      ensures changed == AnyNews(old(items), |old(items)|)
    {
      var refresh: bool;
      changed, refresh := Walk(now);
      if refresh {
        RefreshServers(created, true, now);
      }
    }

    method Clear()
      modifies this`items
      ensures items == []
    {
      items := [];
    }
  }

  // ---- order and identity ----

  /** A check keeps the order: it is the list of the items that are not lost, each one listed. */
  lemma {:induction false} CheckIsFilter(items: seq<Item>, n: nat)
    requires n <= |items|
    ensures |Checked(items, n)| == |Kept(items, n)| <= n
    ensures forall i :: 0 <= i < |Kept(items, n)| ==> Checked(items, n)[i] == Listed(Kept(items, n)[i])
  {
    if n > 0 {
      CheckIsFilter(items, n - 1);
    }
  }

  /** A change is reported exactly when the check changes the list. */
  lemma {:induction false} NewsIffChanged(items: seq<Item>, n: nat)
    requires n <= |items|
    ensures !AnyNews(items, n) <==> Checked(items, n) == items[..n]
  {
    if n > 0 {
      NewsIffChanged(items, n - 1);
      CheckIsFilter(items, n - 1);
      assert items[..n] == items[..n - 1] + [items[n - 1]];
      var head := Checked(items, n - 1);
      if items[n - 1].state != LOST && Checked(items, n) == items[..n] {
        assert Checked(items, n)[|head|] == Listed(items[n - 1]);
        assert Checked(items, n)[..|head|] == head;
      }
    }
  }

  ghost predicate UniqueIds(items: seq<Item>) {
    forall i, j :: 0 <= i < j < |items| ==> items[i].lsid != items[j].lsid
  }

  lemma {:induction false} CheckedMembers(items: seq<Item>, n: nat, x: Item)
    requires n <= |items|
    ensures x in Checked(items, n) <==> exists k :: 0 <= k < n && items[k].state != LOST && x == Listed(items[k])
  {
    if n > 0 {
      CheckedMembers(items, n - 1, x);
    }
  }

  lemma {:induction false} CheckKeepsUnique(items: seq<Item>, n: nat)
    requires UniqueIds(items) && n <= |items|
    ensures UniqueIds(Checked(items, n))
  {
    if n > 0 {
      CheckKeepsUnique(items, n - 1);
      var front := Checked(items, n - 1);
      forall i | 0 <= i < |front|
        ensures front[i].lsid != items[n - 1].lsid
      {
        CheckedMembers(items, n - 1, front[i]);
      }
    }
  }

  // ---- runs ----

  /** What happens to the list; the log keeps what each server said and when all were refreshed. */
  datatype Event =
    | Datagram(msg: Message, lsid: string, name: string, now: int)
    | Refresh(created: bool, lostw: bool, now: int)
    | Check(created: bool, now: int, tref: nat)
    | ClearAll

  datatype Note = Said(lsid: string) | Left(lsid: string) | RefreshNote

  datatype World = World(items: seq<Item>, log: seq<Note>)

  function Next(w: World, ev: Event): World {
    match ev
    case Datagram(msg, lsid, name, now) =>
      var known := IndexOf(w.items, lsid) < |w.items|;
      World(OnMessage(w.items, msg, lsid, name, now),
            w.log + [if msg == IamLost && known then Left(lsid) else Said(lsid)])
    case Refresh(created, lostw, now) =>
      World(AfterRefresh(w.items, created, lostw, now), if created then w.log + [RefreshNote] else w.log)
    case Check(created, now, tref) =>
      World(AfterCheck(w.items, created, now, tref),
            if created && AnyTooOld(w.items, |w.items|, now, tref) then w.log + [RefreshNote] else w.log)
    case ClearAll => World([], w.log)
  }

  function Exec(w: World, evs: seq<Event>): World
    decreases |evs|
  {
    if evs == [] then w else Exec(Next(w, evs[0]), evs[1..])
  }

  /** The part of the log after the last time a server was heard, or entered the list. */
  function Since(log: seq<Note>, lsid: string): seq<Note> {
    if log == [] || log[|log| - 1] == Said(lsid) then []
    else Since(log[..|log| - 1], lsid) + [log[|log| - 1]]
  }

  function Refreshes(log: seq<Note>): nat {
    if log == [] then 0 else Refreshes(log[..|log| - 1]) + (if log[|log| - 1] == RefreshNote then 1 else 0)
  }

  predicate Excused(log: seq<Note>, lsid: string, n: nat) {
    Left(lsid) in Since(log, lsid) || Refreshes(Since(log, lsid)) >= n
  }

  lemma ExcusedMore(log: seq<Note>, note: Note, lsid: string, n: nat)
    requires Excused(log, lsid, n) && note != Said(lsid)
    ensures Excused(log + [note], lsid, n)
    ensures note == RefreshNote ==> Excused(log + [note], lsid, n + 1)
    ensures note == Left(lsid) ==> Excused(log + [note], lsid, n + 1)
  {
    var since := Since(log, lsid);
    assert (log + [note])[..|log|] == log;
    assert Since(log + [note], lsid) == since + [note];
    assert (since + [note])[..|since|] == since;
    if Left(lsid) in since {
      assert Left(lsid) in since + [note];
    }
    assert note == Left(lsid) ==> (since + [note])[|since|] == Left(lsid);
  }

  /** A waiting server has missed one refresh, a lost one said so or has missed two. */
  predicate StateExcused(log: seq<Note>, item: Item) {
    match item.state
    case LOST => Excused(log, item.lsid, 2)
    case WAIT => Excused(log, item.lsid, 1)
    case _ => Excused(log, item.lsid, 0)
  }

  ghost predicate Inv(w: World) {
    UniqueIds(w.items) && forall i :: 0 <= i < |w.items| ==> StateExcused(w.log, w.items[i])
  }

  lemma ExcusedFewer(log: seq<Note>, lsid: string)
    ensures Excused(log, lsid, 0)
    ensures Excused(log, lsid, 2) ==> Excused(log, lsid, 1)
  {
  }

  lemma RefreshKeepsInv(items: seq<Item>, log: seq<Note>, lostw: bool, now: int)
    requires Inv(World(items, log))
    ensures Inv(World(Refreshed(items, lostw, now), log + [RefreshNote]))
  {
    var items' := Refreshed(items, lostw, now);
    forall i | 0 <= i < |items'|
      ensures StateExcused(log + [RefreshNote], items'[i])
    {
      assert StateExcused(log, items[i]);
      ExcusedFewer(log, items[i].lsid);
      ExcusedMore(log, RefreshNote, items[i].lsid, 0);
      if items[i].state == LOST {
        ExcusedMore(log, RefreshNote, items[i].lsid, 2);
      } else if items[i].state == WAIT {
        ExcusedMore(log, RefreshNote, items[i].lsid, 1);
      }
    }
  }

  lemma OtherStaysExcused(log: seq<Note>, note: Note, item: Item)
    requires StateExcused(log, item) && note != Said(item.lsid)
    ensures StateExcused(log + [note], item)
  {
    ExcusedMore(log, note, item.lsid, if item.state == LOST then 2 else if item.state == WAIT then 1 else 0);
  }

  lemma LeavingIsExcused(log: seq<Note>, lsid: string, n: nat)
    ensures Excused(log + [Left(lsid)], lsid, n)
  {
    var since := Since(log, lsid);
    assert (log + [Left(lsid)])[..|log|] == log;
    assert Since(log + [Left(lsid)], lsid) == since + [Left(lsid)];
    assert (since + [Left(lsid)])[|since|] == Left(lsid);
  }

  lemma MessageKeepsInv(w: World, ev: Event)
    requires Inv(w) && ev.Datagram?
    ensures Inv(Next(w, ev))
  {
    var w' := Next(w, ev);
    var i := IndexOf(w.items, ev.lsid);
    var note := w'.log[|w.log|];
    LeavingIsExcused(w.log, ev.lsid, 2);
    forall j | 0 <= j < |w'.items|
      ensures StateExcused(w'.log, w'.items[j])
    {
      ExcusedFewer(w'.log, w'.items[j].lsid);
      if j != i {
        assert w'.items[j] == w.items[j] && w.items[j].lsid != ev.lsid;
        OtherStaysExcused(w.log, note, w.items[j]);
      }
    }
  }

  lemma CheckKeepsInv(items: seq<Item>, log: seq<Note>)
    requires Inv(World(items, log))
    ensures Inv(World(Checked(items, |items|), log))
  {
    CheckKeepsUnique(items, |items|);
    var items' := Checked(items, |items|);
    forall i | 0 <= i < |items'|
      ensures StateExcused(log, items'[i])
    {
      CheckedMembers(items, |items|, items'[i]);
      var k :| 0 <= k < |items| && items[k].state != LOST && items'[i] == Listed(items[k]);
      assert StateExcused(log, items[k]);
      ExcusedFewer(log, items[k].lsid);
    }
  }

  lemma StepKeepsInv(w: World, ev: Event)
    requires Inv(w)
    ensures Inv(Next(w, ev))
  {
    match ev
    case Datagram(_, _, _, _) => MessageKeepsInv(w, ev);
    case Refresh(created, lostw, now) =>
      if created {
        RefreshKeepsInv(w.items, w.log, lostw, now);
      }
    case Check(created, now, tref) =>
      CheckKeepsInv(w.items, w.log);
      if created && AnyTooOld(w.items, |w.items|, now, tref) {
        RefreshKeepsInv(Checked(w.items, |w.items|), w.log, true, now);
      }
    case ClearAll =>
  }

  lemma {:induction false} RunKeepsInv(w: World, evs: seq<Event>)
    requires Inv(w)
    ensures Inv(Exec(w, evs))
    decreases |evs|
  {
    if evs != [] {
      StepKeepsInv(w, evs[0]);
      RunKeepsInv(Next(w, evs[0]), evs[1..]);
    }
  }

  predicate Listing(items: seq<Item>, lsid: string) {
    IndexOf(items, lsid) < |items|
  }

  lemma SurvivesCheck(items: seq<Item>, i: nat, created: bool, now: int, tref: nat)
    requires i < |items| && items[i].state != LOST
    ensures Listing(AfterCheck(items, created, now, tref), items[i].lsid)
  {
    var x := Listed(items[i]);
    CheckedMembers(items, |items|, x);
    var kept := Checked(items, |items|);
    assert x in kept;
    var k :| 0 <= k < |kept| && kept[k] == x;
    FoundAt(AfterCheck(items, created, now, tref), items[i].lsid, k);
  }

  lemma SurvivesOther(w: World, i: nat, ev: Event)
    requires i < |w.items| && !ev.Check? && !ev.ClearAll?
    ensures Listing(Next(w, ev).items, w.items[i].lsid)
  {
    FoundAt(Next(w, ev).items, w.items[i].lsid, i);
  }

  /**
   After any run the identifiers are unique; and whatever step comes next, unless it clears the
   whole list, a server that leaves the list said so or missed two refreshes since it was last heard.
   */
  lemma NobodyLeavesUnexcused(evs: seq<Event>, ev: Event, lsid: string)
    requires !ev.ClearAll?
    ensures var w := Exec(World([], []), evs);
            && UniqueIds(w.items)
            && (Listing(w.items, lsid) && !Listing(Next(w, ev).items, lsid) ==> Excused(w.log, lsid, 2))
  {
    RunKeepsInv(World([], []), evs);
    var w := Exec(World([], []), evs);
    var i := IndexOf(w.items, lsid);
    if i < |w.items| {
      assert StateExcused(w.log, w.items[i]);
      if !ev.Check? {
        SurvivesOther(w, i, ev);
      } else if w.items[i].state != LOST {
        SurvivesCheck(w.items, i, ev.created, ev.now, ev.tref);
      }
    }
  }

  lemma FoundAt(items: seq<Item>, lsid: string, i: nat)
    requires i < |items| && items[i].lsid == lsid
    ensures Listing(items, lsid)
  {
  }
}
