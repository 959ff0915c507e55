/**
 The reader/writer lock over a recursive mutex. Threads interleave arbitrarily; each critical
 section of the mutex is one step, and a thread that finds the mutex taken is simply not
 enabled. `begin_write` is a sequence of `TryWrite` steps that ends with a success.
 */
module RwLock {
  import opened Seqs

  type Tid = nat

  /** `owner` and `depth` are the recursive mutex; `readers` and `write` are the lock's own fields. */
  datatype Lock = Lock(readers: seq<Tid>, write: bool, owner: Option<Tid>, depth: nat)

  datatype Op = BeginRead | EndRead | TryWrite | EndWrite

  predicate Free(l: Lock, t: Tid) {
    l.owner.None? || l.owner == Some(t)
  }

  function Acquired(l: Lock, t: Tid): Lock {
    l.(owner := Some(t), depth := l.depth + 1)
  }

  function Released(l: Lock): Lock
    requires l.depth > 0
  {
    l.(depth := l.depth - 1, owner := if l.depth == 1 then None else l.owner)
  }

  function EraseFirst(readers: seq<Tid>, t: Tid): seq<Tid> {
    if readers == [] then []
    else if readers[0] == t then readers[1..]
    else [readers[0]] + EraseFirst(readers[1..], t)
  }

  predicate OnlyReader(l: Lock, t: Tid) {
    forall i :: 0 <= i < |l.readers| ==> l.readers[i] == t
  }

  /** The lock after one operation of thread `t`, and whether a `TryWrite` succeeded. */
  function Apply(l: Lock, t: Tid, op: Op): (Lock, bool)
    requires op == EndWrite && l.write ==> l.depth > 0
  {
    match op
    case BeginRead => (l.(readers := l.readers + [t]), true)
    case EndRead => (l.(readers := EraseFirst(l.readers, t)), true)
    case TryWrite => if OnlyReader(l, t) then (Acquired(l.(write := true), t), true) else (l.(write := false), false)
    case EndWrite => (if l.write then Released(l) else l, true)
  }

  lemma {:induction false} EraseFirstAt(readers: seq<Tid>, t: Tid, i: nat)
    requires i <= |readers| && forall j :: 0 <= j < i ==> readers[j] != t
    ensures i < |readers| && readers[i] == t ==> EraseFirst(readers, t) == RemoveAt(readers, i)
    ensures i == |readers| ==> EraseFirst(readers, t) == readers
  {
    if i > 0 {
      EraseFirstAt(readers[1..], t, i - 1);
      assert readers == [readers[0]] + readers[1..];
      if i < |readers| {
        assert RemoveAt(readers, i) == [readers[0]] + RemoveAt(readers[1..], i - 1);
      }
    }
  }

  function Is(t: Tid): Tid -> bool { (r: Tid) => r == t }

  /** Number of reader entries of a thread. */
  function Entries(readers: seq<Tid>, t: Tid): nat {
    Count(readers, Is(t))
  }

  lemma EntriesIn(readers: seq<Tid>, t: Tid)
    ensures Entries(readers, t) > 0 <==> t in readers
  {
    if Entries(readers, t) > 0 {
      var i := CountWitness(readers, Is(t));
    } else if t in readers {
      var i :| 0 <= i < |readers| && readers[i] == t;
      CountMember(readers, i, Is(t));
    }
  }

  lemma FirstEntry(readers: seq<Tid>, t: Tid) returns (i: nat)
    ensures i <= |readers| && (forall j :: 0 <= j < i ==> readers[j] != t)
    ensures i < |readers| ==> readers[i] == t
  {
    i := 0;
    while i < |readers| && readers[i] != t
      invariant 0 <= i <= |readers| && forall j :: 0 <= j < i ==> readers[j] != t
    {
      i := i + 1;
    }
  }

  /** Exactly one entry goes, of the given thread, if it has any. */
  lemma EraseFirstEntries(readers: seq<Tid>, t: Tid, u: Tid)
    ensures Entries(EraseFirst(readers, t), u)
            == Entries(readers, u) - (if u == t && Entries(readers, t) > 0 then 1 else 0)
  {
    var i := FirstEntry(readers, t);
    EraseFirstAt(readers, t, i);
    EntriesIn(readers, t);
    if i < |readers| {
      CountRemove(readers, i, Is(u));
      CountMember(readers, i, Is(t));
    }
  }

  /** Erasing an entry of one thread keeps every entry of the others. */
  lemma {:induction false} EraseFirstMembers(readers: seq<Tid>, t: Tid, r: Tid)
    ensures r in EraseFirst(readers, t) ==> r in readers
    ensures r in readers && r != t ==> r in EraseFirst(readers, t)
  {
    if readers != [] {
      assert readers == [readers[0]] + readers[1..];
      EraseFirstMembers(readers[1..], t, r);
    }
  }

  // ---- the class ----

  class RwMutex {
    var readers: seq<Tid>
    var write: bool
    var owner: Option<Tid>
    var depth: nat

    function View(): Lock
      reads this
    {
      Lock(readers, write, owner, depth)
    }

    constructor ()
      ensures View() == Lock([], false, None, 0)
    {
      readers, write, owner, depth := [], false, None, 0;
    }

    method LockMutex(t: Tid)
      requires Free(View(), t)
      modifies this`owner, this`depth
      ensures View() == Acquired(old(View()), t)
    {
      owner := Some(t);
      depth := depth + 1;
    }

    method UnlockMutex(t: Tid)
      requires owner == Some(t) && depth > 0
      modifies this`owner, this`depth
      ensures View() == Released(old(View()))
    {
      depth := depth - 1;
      if depth == 0 {
        owner := None;
      }
    }

    method BeginReading(t: Tid)
      requires Free(View(), t) && (owner.None? <==> depth == 0)
      modifies this
      ensures View() == Apply(old(View()), t, BeginRead).0
      ensures readers == old(readers) + [t]
      ensures owner == old(owner) && depth == old(depth) && write == old(write)
    {
      LockMutex(t);
      readers := readers + [t];
      UnlockMutex(t);
    }

    /** Erases one entry of the thread, the first one. */
    method EndReading(t: Tid)
      requires Free(View(), t) && (owner.None? <==> depth == 0)
      modifies this
      ensures View() == Apply(old(View()), t, EndRead).0
      ensures owner == old(owner) && depth == old(depth) && write == old(write)
      ensures forall u :: Entries(readers, u)
                          == Entries(old(readers), u) - (if u == t && t in old(readers) then 1 else 0)
    {
      LockMutex(t);
      var i := 0;
      while i < |readers| && readers[i] != t
        invariant 0 <= i <= |readers|
        invariant forall j :: 0 <= j < i ==> readers[j] != t
      {
        i := i + 1;
      }
      EraseFirstAt(readers, t, i);
      EntriesIn(readers, t);
      forall u
        ensures Entries(EraseFirst(readers, t), u)
                == Entries(readers, u) - (if u == t && t in readers then 1 else 0)
      {
        EraseFirstEntries(readers, t, u);
      }
      if i < |readers| {
        readers := RemoveAt(readers, i);
      }
      UnlockMutex(t);
    }

    /** Keeps the mutex on success; the flag is raised before the readers are looked at. */
    method TryWriting(t: Tid) returns (ok: bool)
      requires Free(View(), t) && (owner.None? <==> depth == 0)
      modifies this
      ensures (View(), ok) == Apply(old(View()), t, TryWrite)
      ensures ok <==> forall i :: 0 <= i < |readers| ==> readers[i] == t
      ensures readers == old(readers) && write == ok
      ensures if ok then owner == Some(t) && depth == old(depth) + 1
              else owner == (if old(depth) == 0 then None else old(owner)) && depth == old(depth)
    {
      LockMutex(t);
      write := true;
      for i := 0 to |readers|
        invariant forall j :: 0 <= j < i ==> readers[j] == t
        invariant View() == Acquired(old(View()).(write := true), t)
      {
        if readers[i] != t {
          write := false;
          UnlockMutex(t);
          return false;
        }
      }
      return true;
    }

    method EndWriting(t: Tid)
      requires write ==> owner == Some(t) && depth > 0
      modifies this
      ensures View() == Apply(old(View()), t, EndWrite).0
      ensures readers == old(readers) && write == old(write)
      ensures depth == if write then old(depth) - 1 else old(depth)
      ensures owner == if write && old(depth) == 1 then None else old(owner)
    {
      if write {
        UnlockMutex(t);
      }
    }
  }

  // ---- all interleavings ----

  /**
   The lock together with what the threads know of themselves: how many write sections and how
   many reads each one has begun and not ended. The two counts follow the operations alone.
   */
  datatype World = World(lock: Lock, writing: map<Tid, nat>, reading: map<Tid, nat>)

  function Sections(w: World, t: Tid): nat {
    if t in w.writing then w.writing[t] else 0
  }

  function Reads(w: World, t: Tid): nat {
    if t in w.reading then w.reading[t] else 0
  }

  /** Reads and writes need the mutex; only a thread inside a write section ends one. */
  predicate Legal(w: World, t: Tid, op: Op) {
    if op == EndWrite then Sections(w, t) > 0 else Free(w.lock, t)
  }

  ghost predicate Inv(w: World) {
    && (w.lock.owner.None? <==> w.lock.depth == 0)
    && (forall t: Tid :: Sections(w, t) == if w.lock.owner == Some(t) then w.lock.depth else 0)
    && (w.lock.owner.Some? ==> w.lock.write && OnlyReader(w.lock, w.lock.owner.value))
    && (forall t: Tid :: Entries(w.lock.readers, t) == Reads(w, t))
  }

  function Next(w: World, t: Tid, op: Op): World
    requires op == EndWrite ==> (w.lock.write ==> w.lock.depth > 0) && Sections(w, t) > 0
  {
    var (l, ok) := Apply(w.lock, t, op);
    match op
    case BeginRead => World(l, w.writing, w.reading[t := Reads(w, t) + 1])
    case EndRead => World(l, w.writing, w.reading[t := if Reads(w, t) > 0 then Reads(w, t) - 1 else 0])
    case TryWrite => World(l, if ok then w.writing[t := Sections(w, t) + 1] else w.writing, w.reading)
    case EndWrite => World(l, w.writing[t := Sections(w, t) - 1], w.reading)
  }

  lemma EraseKeepsOnlyReader(l: Lock, t: Tid, u: Tid)
    requires OnlyReader(l, u)
    ensures OnlyReader(l.(readers := EraseFirst(l.readers, t)), u)
  {
    var readers := EraseFirst(l.readers, t);
    forall i | 0 <= i < |readers|
      ensures readers[i] == u
    {
      EraseFirstMembers(l.readers, t, readers[i]);
    }
  }

  lemma StepKeepsEntries(w: World, t: Tid, op: Op, u: Tid)
    requires op == EndWrite ==> (w.lock.write ==> w.lock.depth > 0) && Sections(w, t) > 0
    requires Entries(w.lock.readers, u) == Reads(w, u)
    ensures Entries(Next(w, t, op).lock.readers, u) == Reads(Next(w, t, op), u)
  {
    match op
    case BeginRead => CountAppend(w.lock.readers, t, Is(u));
    case EndRead => EraseFirstEntries(w.lock.readers, t, u);
    case TryWrite =>
    case EndWrite =>
  }

  lemma StepKeepsInv(w: World, t: Tid, op: Op)
    requires Inv(w) && Legal(w, t, op)
    ensures Inv(Next(w, t, op))
  {
    if op == EndRead && w.lock.owner.Some? {
      EraseKeepsOnlyReader(w.lock, t, w.lock.owner.value);
    }
    var w' := Next(w, t, op);
    assert forall u: Tid :: u != t ==> Sections(w', u) == Sections(w, u);
    forall u: Tid
      ensures Entries(w'.lock.readers, u) == Reads(w', u)
    {
      StepKeepsEntries(w, t, op, u);
    }
  }

  datatype Act = Act(t: Tid, op: Op)

  ghost predicate IsRun(w: World, acts: seq<Act>)
    requires Inv(w)
    decreases |acts|
  {
    acts == [] || (
      && Legal(w, acts[0].t, acts[0].op)
      && (StepKeepsInv(w, acts[0].t, acts[0].op); IsRun(Next(w, acts[0].t, acts[0].op), acts[1..])))
  }

  ghost function Exec(w: World, acts: seq<Act>): World
    requires Inv(w) && IsRun(w, acts)
    decreases |acts|
  {
    if acts == [] then w
    else
      StepKeepsInv(w, acts[0].t, acts[0].op);
      Exec(Next(w, acts[0].t, acts[0].op), acts[1..])
  }

  lemma {:induction false} RunKeepsInv(w: World, acts: seq<Act>)
    requires Inv(w) && IsRun(w, acts)
    ensures Inv(Exec(w, acts))
    decreases |acts|
  {
    if acts != [] {
      StepKeepsInv(w, acts[0].t, acts[0].op);
      RunKeepsInv(Next(w, acts[0].t, acts[0].op), acts[1..]);
    }
  }

  const UNLOCKED := World(Lock([], false, None, 0), map[], map[])

  /**
   Whatever any number of threads did, in any order: while a thread is in a write section no
   other thread has begun a read and not ended it, and no other thread writes; its nested `begin_write` succeeds at once
   and its `end_write` finds the flag set, so that it gives the mutex back; and the mutex is held
   exactly as often as there are write sections.
   */
  lemma WriterExcludesAll(acts: seq<Act>, t: Tid)
    requires Inv(UNLOCKED) && IsRun(UNLOCKED, acts)
    requires Sections(Exec(UNLOCKED, acts), t) > 0
    ensures var w := Exec(UNLOCKED, acts);
            && (forall u: Tid :: u != t ==> Reads(w, u) == 0 && Sections(w, u) == 0 && !Free(w.lock, u))
            && Apply(w.lock, t, TryWrite).1
            && w.lock.depth == Sections(w, t)
            && w.lock.write && Next(w, t, EndWrite).lock.depth == w.lock.depth - 1
  {
    RunKeepsInv(UNLOCKED, acts);
    NoOtherReads(Exec(UNLOCKED, acts), t);
  }

  /** What the entries say about the threads' own counts. */
  lemma NoOtherReads(w: World, t: Tid)
    requires Inv(w)
    ensures OnlyReader(w.lock, t) <==> forall u: Tid :: u != t ==> Reads(w, u) == 0
  {
    forall u: Tid
      ensures Reads(w, u) > 0 <==> u in w.lock.readers
    {
      assert Entries(w.lock.readers, u) == Reads(w, u);
      EntriesIn(w.lock.readers, u);
    }
    if !OnlyReader(w.lock, t) {
      var i :| 0 <= i < |w.lock.readers| && w.lock.readers[i] != t;
      assert Reads(w, w.lock.readers[i]) > 0;
    }
  }

  lemma ReadsIn(w: World, t: Tid)
    requires Inv(w)
    ensures Reads(w, t) > 0 <==> t in w.lock.readers
  {
    assert Entries(w.lock.readers, t) == Reads(w, t);
    EntriesIn(w.lock.readers, t);
  }

  /** With the mutex free for a thread, its write attempt succeeds exactly when no other thread has an open read. */
  lemma WriteIffAlone(w: World, t: Tid)
    requires Inv(w) && Free(w.lock, t)
    ensures Apply(w.lock, t, TryWrite).1 <==> forall u: Tid :: u != t ==> Reads(w, u) == 0
    ensures !Apply(w.lock, t, TryWrite).1 ==>
              w.lock.depth == 0 && Next(w, t, TryWrite) == w.(lock := w.lock.(write := false))
  {
    NoOtherReads(w, t);
  }

  ghost predicate BothRead(w: World, a: Tid, b: Tid) {
    Reads(w, a) > 0 && Reads(w, b) > 0
  }

  lemma BothReadBlocksWriters(w: World, a: Tid, b: Tid)
    requires Inv(w) && a != b && BothRead(w, a, b)
    ensures w.lock.owner.None? && forall t: Tid :: Sections(w, t) == 0 && !Apply(w.lock, t, TryWrite).1
  {
    ReadsIn(w, a);
    ReadsIn(w, b);
    var i :| 0 <= i < |w.lock.readers| && w.lock.readers[i] == a;
    var j :| 0 <= j < |w.lock.readers| && w.lock.readers[j] == b;
  }

  lemma StepKeepsBothReading(w: World, act: Act, a: Tid, b: Tid)
    requires Inv(w) && Legal(w, act.t, act.op) && a != b && BothRead(w, a, b)
    requires act.op == EndRead ==> act.t != a && act.t != b
    ensures BothRead(Next(w, act.t, act.op), a, b)
  {
  }

  /**
   Two readers that both wait to write wait for ever: while neither ends its reading, no thread
   gets into a write section, whatever else happens.
   */
  lemma {:induction false} UpgradingReadersStarve(w: World, acts: seq<Act>, a: Tid, b: Tid)
    requires Inv(w) && IsRun(w, acts) && a != b && BothRead(w, a, b)
    requires forall act <- acts :: act.op == EndRead ==> act.t != a && act.t != b
    ensures BothRead(Exec(w, acts), a, b)
    ensures forall t: Tid :: Sections(Exec(w, acts), t) == 0 && !Apply(Exec(w, acts).lock, t, TryWrite).1
    decreases |acts|
  {
    BothReadBlocksWriters(w, a, b);
    if acts != [] {
      var act := acts[0];
      assert act in acts;
      StepKeepsInv(w, act.t, act.op);
      StepKeepsBothReading(w, act, a, b);
      UpgradingReadersStarve(Next(w, act.t, act.op), acts[1..], a, b);
    }
  }

  // ---- when a waiting writer can still get in ----

  /** The run ends where `t` may write, and nobody in `stay` has ended a reading on the way. */
  ghost predicate LetsIn(w: World, acts: seq<Act>, t: Tid, stay: set<Tid>)
    requires Inv(w)
  {
    && IsRun(w, acts)
    && (forall act <- acts :: act.op == EndRead ==> act.t !in stay)
    && Free(Exec(w, acts).lock, t) && Apply(Exec(w, acts).lock, t, TryWrite).1
  }

  /** A reader that stays keeps every other thread from writing. */
  lemma {:induction false} StayingReaderBlocks(w: World, acts: seq<Act>, t: Tid, stay: set<Tid>, r: Tid)
    requires Inv(w) && IsRun(w, acts) && forall act <- acts :: act.op == EndRead ==> act.t !in stay
    requires Reads(w, r) > 0 && r in stay && r != t
    ensures !Apply(Exec(w, acts).lock, t, TryWrite).1
    decreases |acts|
  {
    if acts == [] {
      ReadsIn(w, r);
      var i :| 0 <= i < |w.lock.readers| && w.lock.readers[i] == r;
    } else {
      var act := acts[0];
      assert act in acts;
      StepKeepsInv(w, act.t, act.op);
      StayingReaderBlocks(Next(w, act.t, act.op), acts[1..], t, stay, r);
    }
  }

  lemma {:induction false} EraseFirstLength(readers: seq<Tid>, t: Tid)
    requires t in readers
    ensures |EraseFirst(readers, t)| == |readers| - 1
  {
    assert readers == [readers[0]] + readers[1..];
    if readers[0] != t {
      EraseFirstLength(readers[1..], t);
    }
  }

  ghost predicate OthersMayLeave(w: World, t: Tid, stay: set<Tid>) {
    forall r <- w.lock.readers :: r != t ==> r !in stay
  }

  /** The next thing that brings `t` closer to writing: a writer or a reader that is not `t` ends. */
  lemma Clearing(w: World, t: Tid, stay: set<Tid>) returns (act: Act)
    requires Inv(w) && OthersMayLeave(w, t, stay)
    requires !(Free(w.lock, t) && Apply(w.lock, t, TryWrite).1)
    ensures Legal(w, act.t, act.op) && (act.op == EndRead ==> act.t !in stay)
    ensures var w' := Next(w, act.t, act.op);
            && OthersMayLeave(w', t, stay)
            && w'.lock.depth + |w'.lock.readers| < w.lock.depth + |w.lock.readers|
  {
    if w.lock.owner.Some? && w.lock.owner.value != t {
      act := Act(w.lock.owner.value, EndWrite);
    } else {
      var i :| 0 <= i < |w.lock.readers| && w.lock.readers[i] != t;
      act := Act(w.lock.readers[i], EndRead);
      EraseFirstLength(w.lock.readers, act.t);
      forall r <- EraseFirst(w.lock.readers, act.t)
        ensures r in w.lock.readers
      {
        EraseFirstMembers(w.lock.readers, act.t, r);
      }
    }
  }

  lemma {:induction false} WayIn(w: World, t: Tid, stay: set<Tid>) returns (acts: seq<Act>)
    requires Inv(w) && OthersMayLeave(w, t, stay)
    ensures LetsIn(w, acts, t, stay)
    decreases w.lock.depth + |w.lock.readers|
  {
    if Free(w.lock, t) && Apply(w.lock, t, TryWrite).1 {
      acts := [];
    } else {
      var act := Clearing(w, t, stay);
      StepKeepsInv(w, act.t, act.op);
      var rest := WayIn(Next(w, act.t, act.op), t, stay);
      acts := [act] + rest;
      assert acts[1..] == rest;
    }
  }

  /**
   When the threads in `stay` do not end their readings, a thread can still get to write exactly
   when none of the others among them is reading now. Two readers that both wait are the case
   where each of them is in `stay`.
   */
  lemma WriterGetsInIff(w: World, t: Tid, stay: set<Tid>)
    requires Inv(w)
    ensures (exists acts :: LetsIn(w, acts, t, stay)) <==> forall r <- stay :: r != t ==> Reads(w, r) == 0
  {
    forall r: Tid
      ensures Reads(w, r) > 0 <==> r in w.lock.readers
    {
      ReadsIn(w, r);
    }
    if OthersMayLeave(w, t, stay) {
      var acts := WayIn(w, t, stay);
      assert LetsIn(w, acts, t, stay);
    } else {
      var r :| r in w.lock.readers && r != t && r in stay;
      forall acts | LetsIn(w, acts, t, stay)
        ensures false
      {
        StayingReaderBlocks(w, acts, t, stay, r);
      }
    }
  }
}
