/** The byte relay: two buffers per channel, partial reads and writes, growth on connection. */
module Relay {
  import opened Seqs

  type Byte = n: nat | n < 256

  const BUFFER_SIZE_MIN := 8760
  const BUFFER_SIZE_MAX := 131072

  datatype Mode = System | Align | MaxBuf

  /** What the system has for a read: bytes, nothing for now, or a fatal error. */
  datatype Input = Bytes(bytes: seq<Byte>) | Nothing | Broken

  /** What it did with a write: took up to so many bytes, none for now, or a fatal error. */
  datatype Answer = Moved(n: nat) | Retry | Fatal

  function Min(a: nat, b: nat): nat {
    if a < b then a else b
  }

  /** Which sockets of a channel are ready, and what the four calls on them meet. */
  datatype Io = Io(readSource: bool, readTarget: bool, writeSource: bool, writeTarget: bool,
                   inSource: Input, inTarget: Input, outSource: Answer, outTarget: Answer)

  /**
   One direction of a channel. `received` and `sent` are the bytes that went in and out since
   the channel was made.
   */
  class Buffer {
    var data: array<Byte>
    var pos: nat
    ghost var received: seq<Byte>
    ghost var sent: seq<Byte>

    ghost predicate Valid()
      reads this, data
    {
      && 0 < data.Length && pos <= data.Length
      && received == sent + data[..pos]
    }

    constructor ()
      ensures Valid() && fresh(data) && data.Length == BUFFER_SIZE_MIN
      ensures received == [] && sent == []
    {
      data := new Byte[BUFFER_SIZE_MIN];
      pos := 0;
      received, sent := [], [];
    }

    /** The system put `chunk` behind the bytes that are already waiting. */
    method Receive(chunk: seq<Byte>)
      requires Valid() && |chunk| <= data.Length - pos
      modifies this, data
      ensures Valid() && data == old(data)
      ensures received == old(received) + chunk && sent == old(sent)
    {
      ghost var waiting := data[..pos];
      forall k | 0 <= k < |chunk| {
        data[pos + k] := chunk[k];
      }
      assert data[..pos + |chunk|] == waiting + chunk;
      received := received + chunk;
      pos := pos + |chunk|;
    }

    /** `memmove` of the bytes from `n` to `pos`. */
    method MoveToFront(n: nat)
      requires n <= pos <= data.Length
      modifies data
      ensures data[..pos - n] == old(data[n..pos])
    {
      forall k | 0 <= k < pos - n {
        data[k] := data[k + n];
      }
    }

    /** The system took the first `n` waiting bytes; after a partial send the rest moves to the front. */
    method Send(n: nat) returns (ghost chunk: seq<Byte>)
      requires Valid() && 0 < n <= pos
      modifies this, data
      ensures Valid() && data == old(data) && pos == old(pos) - n
      ensures chunk == old(data[..n]) && sent == old(sent) + chunk && received == old(received)
    {
      chunk := data[..n];
      ghost var rest := data[n..pos];
      assert data[..pos] == chunk + rest;
      if n != pos {
        MoveToFront(n);
        pos := pos - n;
      } else {
        pos := 0;
      }
      sent := sent + chunk;
      assert data[..pos] == rest;
    }

    /** `realloc` to a larger size, which keeps the waiting bytes. */
    method Grow(size: nat)
      requires Valid()
      modifies this
      ensures Valid() && (data == old(data) || fresh(data))
      ensures data.Length == if size > old(data.Length) then size else old(data.Length)
      ensures pos == old(pos) && data[..pos] == old(data[..pos])
      ensures received == old(received) && sent == old(sent)
    {
      if size > data.Length {
        var bigger := new Byte[size];
        forall k | 0 <= k < data.Length {
          bigger[k] := data[k];
        }
        assert bigger[..pos] == data[..pos];
        data := bigger;
      }
    }

    /** However little each send takes, repeated sends deliver everything that was received. */
    method Drain()
      requires Valid()
      modifies this, data
      ensures Valid() && sent == received == old(received)
    {
      while pos > 0
        invariant Valid() && data == old(data) && received == old(received)
        decreases pos
      {
        var n: nat := *;
        n := if 0 < n <= pos then n else 1;
        var _ := Send(n);
      }
      assert data[..0] == [];
    }
  }

  /** The new buffer size: what the two sockets report, or the configured or built-in maximum. */
  function NewSize(mode: Mode, recv: int, send: int, maxBuffer: nat): nat {
    match mode
    case Align =>
      var size := if recv > 0 then recv else 0;
      var size := if send > size then send else size;
      if size == 0 then maxBuffer else size
    case MaxBuf => maxBuffer
    case System => BUFFER_SIZE_MAX
  }

  /**
   The new size of a buffer, given its old one: it never shrinks. In the aligned mode it holds as
   much as either of the two sockets it lies between, or the configured maximum if neither says;
   in the others the configured maximum or the built-in one.
   */
  predicate Grown(connected: bool, was: nat, now: nat, mode: Mode, recv: int, send: int, maxBuffer: nat) {
    && now >= was
    && (connected ==> now == was)
    && (!connected && mode == MaxBuf ==> now == if maxBuffer > was then maxBuffer else was)
    && (!connected && mode == System ==> now == if 131072 > was then 131072 else was)
    && (!connected && mode == Align && recv <= 0 && send <= 0 ==> now == if maxBuffer > was then maxBuffer else was)
    && (!connected && mode == Align && (recv > 0 || send > 0) ==>
          now >= recv && now >= send && (now == was || now == recv || now == send))
  }

  /** What the sockets of a channel report on connection. */
  datatype Sizes = Sizes(sourceRecv: int, sourceSend: int, targetRecv: int, targetSend: int)

  class Channel {
    const fromSource: Buffer
    const fromTarget: Buffer
    var connected: bool

    ghost predicate Valid()
      reads this, fromSource, fromTarget, fromSource.data, fromTarget.data
    {
      && fromSource != fromTarget && fromSource.data != fromTarget.data
      && fromSource.Valid() && fromTarget.Valid()
    }

    constructor ()
      ensures Valid() && !connected
      ensures fresh(fromSource) && fresh(fromTarget) && fresh(fromSource.data) && fresh(fromTarget.data)
      ensures fromSource.received == [] && fromTarget.received == []
    {
      fromSource := new Buffer();
      fromTarget := new Buffer();
      connected := false;
    }

    /** `set_connected`: once per channel, both buffers may grow; nothing that waits is lost. */
    method SetConnected(mode: Mode, maxBuffer: nat, sizes: Sizes)
      requires Valid()
      modifies this, fromSource, fromTarget
      ensures Valid() && connected
      ensures fromSource.data == old(fromSource.data) || fresh(fromSource.data)
      ensures fromTarget.data == old(fromTarget.data) || fresh(fromTarget.data)
      ensures fromSource.received == old(fromSource.received) && fromSource.sent == old(fromSource.sent)
      ensures fromTarget.received == old(fromTarget.received) && fromTarget.sent == old(fromTarget.sent)
      ensures fromSource.pos == old(fromSource.pos) && fromTarget.pos == old(fromTarget.pos)
      ensures Grown(old(connected), old(fromTarget.data.Length), fromTarget.data.Length, mode,
                    sizes.targetRecv, sizes.sourceSend, maxBuffer)
      ensures Grown(old(connected), old(fromSource.data.Length), fromSource.data.Length, mode,
                    sizes.sourceRecv, sizes.targetSend, maxBuffer)
    {
      if connected {
        return;
      }
      fromTarget.Grow(NewSize(mode, sizes.targetRecv, sizes.sourceSend, maxBuffer));
      fromSource.Grow(NewSize(mode, sizes.sourceRecv, sizes.targetSend, maxBuffer));
      connected := true;
    }

    /** One read: at most the free room, and only if there is some. */
    method Read(b: Buffer, ready: bool, input: Input) returns (alive: bool, chunk: seq<Byte>)
      requires Valid() && (b == fromSource || b == fromTarget)
      modifies b, b.data
      ensures Valid() && b.data == old(b.data) && unchanged(this)
      ensures b.received == old(b.received) + chunk && b.sent == old(b.sent) && b.pos == old(b.pos) + |chunk|
      ensures chunk == if ready && input.Bytes? then input.bytes[..Min(|input.bytes|, b.data.Length - old(b.pos))]
                       else []
      ensures alive == !(ready && old(b.pos) < b.data.Length && input.Broken?)
    {
      alive, chunk := true, [];
      if ready && b.pos < b.data.Length {
        match input {
          case Bytes(bytes) =>
            chunk := bytes[..Min(|bytes|, b.data.Length - b.pos)];
            b.Receive(chunk);
          case Nothing =>
          case Broken =>
            alive := false;
        }
      }
    }

    /** One write: at most what waits, and only if something does. */
    method Write(b: Buffer, ready: bool, answer: Answer) returns (alive: bool, ghost chunk: seq<Byte>)
      requires Valid() && (b == fromSource || b == fromTarget)
      modifies b, b.data
      ensures Valid() && b.data == old(b.data) && unchanged(this)
      ensures b.sent == old(b.sent) + chunk && b.received == old(b.received) && b.pos == old(b.pos) - |chunk|
      ensures |chunk| == if ready && answer.Moved? then Min(answer.n, old(b.pos)) else 0
      ensures alive == !(ready && old(b.pos) > 0 && answer.Fatal?)
    {
      alive, chunk := true, [];
      if ready && b.pos > 0 {
        if answer.Moved? && answer.n > 0 {
          chunk := b.Send(Min(answer.n, b.pos));
        } else {
          alive := !answer.Fatal?;
        }
      }
    }

    /** The second stage: a target that can be read is connected, before its bytes are taken. */
    method ReadTarget(io: Io, mode: Mode, maxBuffer: nat, sizes: Sizes) returns (alive: bool, ghost chunk: seq<Byte>)
      requires Valid()
      modifies this, fromSource, fromTarget, fromTarget.data
      ensures Valid()
      ensures fromSource.data == old(fromSource.data) || fresh(fromSource.data)
      ensures fromTarget.data == old(fromTarget.data) || fresh(fromTarget.data)
      ensures fromTarget.data.Length >= old(fromTarget.data.Length)
      ensures fromSource.received == old(fromSource.received) && fromSource.sent == old(fromSource.sent)
      ensures fromTarget.received == old(fromTarget.received) + chunk && fromTarget.sent == old(fromTarget.sent)
      ensures fromSource.pos == old(fromSource.pos) && fromTarget.pos == old(fromTarget.pos) + |chunk|
      ensures var answered := io.readTarget && old(fromTarget.pos) < old(fromTarget.data.Length);
              && chunk == (if answered && io.inTarget.Bytes?
                           then io.inTarget.bytes[..Min(|io.inTarget.bytes|,
                                                        fromTarget.data.Length - old(fromTarget.pos))] else [])
              && alive == !(answered && io.inTarget.Broken?) && connected == (old(connected) || answered)
    {
      alive, chunk := true, [];
      if io.readTarget && fromTarget.pos < fromTarget.data.Length {
        SetConnected(mode, maxBuffer, sizes);
        alive, chunk := Read(fromTarget, true, io.inTarget);
      }
    }

    /** The fourth stage: so is a target that can be written, before it gets what waits. */
    method WriteTarget(io: Io, mode: Mode, maxBuffer: nat, sizes: Sizes) returns (alive: bool, ghost chunk: seq<Byte>)
      requires Valid()
      modifies this, fromSource, fromTarget, fromSource.data
      ensures Valid()
      ensures fromSource.data == old(fromSource.data) || fresh(fromSource.data)
      ensures fromTarget.data == old(fromTarget.data) || fresh(fromTarget.data)
      ensures fromTarget.data.Length >= old(fromTarget.data.Length)
      ensures io.readTarget && old(connected) ==> fromTarget.data.Length == old(fromTarget.data.Length)
      ensures fromSource.received == old(fromSource.received) && fromSource.sent == old(fromSource.sent) + chunk
      ensures fromTarget.received == old(fromTarget.received) && fromTarget.sent == old(fromTarget.sent)
      ensures fromTarget.pos == old(fromTarget.pos)
      ensures |chunk| == if io.writeTarget && io.outTarget.Moved? then Min(io.outTarget.n, old(fromSource.pos)) else 0
      ensures alive == !(io.writeTarget && old(fromSource.pos) > 0 && io.outTarget.Fatal?)
      ensures connected == (old(connected) || (io.writeTarget && old(fromSource.pos) > 0))
    {
      alive, chunk := true, [];
      if io.writeTarget && fromSource.pos > 0 {
        SetConnected(mode, maxBuffer, sizes);
        alive, chunk := Write(fromSource, true, io.outTarget);
      }
    }

    /**
     The traffic part of the channel loop: read source, read target, write source, write target.
     A fatal answer ends the channel at once; what was read and sent up to then is accounted for.
     */
    method Traffic(io: Io, mode: Mode, maxBuffer: nat, sizes: Sizes)
      returns (alive: bool, ghost fromS: seq<Byte>, ghost fromT: seq<Byte>, ghost toS: seq<Byte>, ghost toT: seq<Byte>)
      requires Valid()
      modifies this, fromSource, fromTarget, fromSource.data, fromTarget.data
      ensures Valid()
      ensures fromSource.received == old(fromSource.received) + fromS && fromSource.sent == old(fromSource.sent) + toT
      ensures fromTarget.received == old(fromTarget.received) + fromT && fromTarget.sent == old(fromTarget.sent) + toS
      ensures fromSource.data == old(fromSource.data) || fresh(fromSource.data)
      ensures fromTarget.data == old(fromTarget.data) || fresh(fromTarget.data)
      ensures fromTarget.data.Length >= old(fromTarget.data.Length)
      ensures var (room, waiting) := (old(fromSource.data.Length - fromSource.pos), old(fromSource.pos) + |fromS|);
              var (back, roomBack) := (old(fromTarget.pos) + |fromT|, old(fromTarget.data.Length - fromTarget.pos));
              var ok1 := !(io.readSource && room > 0 && io.inSource.Broken?);
              var answered := ok1 && io.readTarget && roomBack > 0;
              var ok2 := ok1 && !(answered && io.inTarget.Broken?);
              var ok3 := ok2 && !(io.writeSource && back > 0 && io.outSource.Fatal?);
              && fromS == (if io.readSource && io.inSource.Bytes?
                           then io.inSource.bytes[..Min(|io.inSource.bytes|, room)] else [])
              && fromT == (if answered && io.inTarget.Bytes?
                           then io.inTarget.bytes[..Min(|io.inTarget.bytes|,
                                                        fromTarget.data.Length - old(fromTarget.pos))] else [])
              && |toS| == (if ok2 && io.writeSource && io.outSource.Moved? then Min(io.outSource.n, back) else 0)
              && |toT| == (if ok3 && io.writeTarget && io.outTarget.Moved? then Min(io.outTarget.n, waiting) else 0)
              && alive == (ok3 && !(io.writeTarget && waiting > 0 && io.outTarget.Fatal?))
              && connected == (old(connected) || answered || (ok3 && io.writeTarget && waiting > 0))
    {
      fromS, fromT, toS, toT := [], [], [], [];
      alive, fromS := Read(fromSource, io.readSource, io.inSource);
      if !alive {
        return;
      }
      alive, fromT := ReadTarget(io, mode, maxBuffer, sizes);
      if !alive {
        return;
      }
      alive, toS := Write(fromTarget, io.writeSource, io.outSource);
      if !alive {
        return;
      }
      alive, toT := WriteTarget(io, mode, maxBuffer, sizes);
    }

    /**
     The life of a channel: any number of passes of the main loop with any readiness, until it
     ends. Whatever happened, the target holds a prefix of what was read from the source on this
     channel, the source a prefix of what was read from the target, and the rest is waiting.
     */
    method Life(mode: Mode, maxBuffer: nat, passes: nat)
      returns (ghost fromS: seq<Byte>, ghost fromT: seq<Byte>, ghost toS: seq<Byte>, ghost toT: seq<Byte>)
      requires Valid() && fromSource.received == [] && fromTarget.received == []
      modifies this, fromSource, fromTarget, fromSource.data, fromTarget.data
      ensures Valid()
      ensures fromS == toT + fromSource.data[..fromSource.pos]
      ensures fromT == toS + fromTarget.data[..fromTarget.pos]
      ensures toT <= fromS && toS <= fromT
    {
      fromS, fromT, toS, toT := [], [], [], [];
      var alive, left := true, passes;
      while alive && left > 0
        invariant Valid()
        invariant fromSource.received == fromS && fromSource.sent == toT
        invariant fromTarget.received == fromT && fromTarget.sent == toS
        invariant fromSource.data == old(fromSource.data) || fresh(fromSource.data)
        invariant fromTarget.data == old(fromTarget.data) || fresh(fromTarget.data)
        decreases left
      {
        var io: Io, sizes: Sizes := *, *;
        ghost var inS, inT, outS, outT;
        alive, inS, inT, outS, outT := Traffic(io, mode, maxBuffer, sizes);
        fromS, fromT, toS, toT := fromS + inS, fromT + inT, toS + outS, toT + outT;
        left := left - 1;
      }
      ReceiverHoldsPrefix(fromSource);
      ReceiverHoldsPrefix(fromTarget);
    }
  }

  /** What a client or server got is always a prefix of what its peer sent on the channel. */
  lemma ReceiverHoldsPrefix(b: Buffer)
    requires b.Valid()
    ensures b.sent <= b.received && |b.received| == |b.sent| + b.pos
  {
  }

  // ---- interest in sockets ----

  function Max(a: int, b: int): int {
    if a > b then a else b
  }

  /** The part of a channel that the selector looks at. */
  datatype Lane = Lane(source: int, target: int, srcPos: nat, srcSize: nat, tgtPos: nat, tgtSize: nat)

  predicate WantsRead(l: Lane, h: int) {
    (h == l.source && l.srcPos < l.srcSize) || (h == l.target && l.tgtPos < l.tgtSize)
  }

  predicate WantsWrite(l: Lane, h: int) {
    (h == l.target && l.srcPos > 0) || (h == l.source && l.tgtPos > 0)
  }

  function LaneReads(l: Lane): set<int> {
    (if l.srcPos < l.srcSize then {l.source} else {}) + (if l.tgtPos < l.tgtSize then {l.target} else {})
  }

  function LaneWrites(l: Lane): set<int> {
    (if l.srcPos > 0 then {l.target} else {}) + (if l.tgtPos > 0 then {l.source} else {})
  }

  function Reads(lanes: seq<Lane>): set<int> {
    if lanes == [] then {} else Reads(lanes[..|lanes| - 1]) + LaneReads(lanes[|lanes| - 1])
  }

  function Writes(lanes: seq<Lane>): set<int> {
    if lanes == [] then {} else Writes(lanes[..|lanes| - 1]) + LaneWrites(lanes[|lanes| - 1])
  }

  /** A socket is selected exactly when some channel has room for its bytes, or bytes for it. */
  lemma {:induction false} SelectedExactly(lanes: seq<Lane>, h: int)
    ensures h in Reads(lanes) <==> exists k :: 0 <= k < |lanes| && WantsRead(lanes[k], h)
    ensures h in Writes(lanes) <==> exists k :: 0 <= k < |lanes| && WantsWrite(lanes[k], h)
    decreases |lanes|
  {
    if lanes != [] {
      var n := |lanes| - 1;
      SelectedExactly(lanes[..n], h);
      assert forall k :: 0 <= k < n ==> lanes[..n][k] == lanes[k];
      assert h in LaneReads(lanes[n]) <==> WantsRead(lanes[n], h);
      assert h in LaneWrites(lanes[n]) <==> WantsWrite(lanes[n], h);
    }
  }

  /** With one channel: nothing is read into a full buffer, and nothing is written from an empty one. */
  lemma SelectedForOne(l: Lane)
    requires l.source != l.target
    ensures l.source in Reads([l]) <==> l.srcPos < l.srcSize
    ensures l.target in Reads([l]) <==> l.tgtPos < l.tgtSize
    ensures l.target in Writes([l]) <==> l.srcPos > 0
    ensures l.source in Writes([l]) <==> l.tgtPos > 0
  {
    SelectedExactly([l], l.source);
    SelectedExactly([l], l.target);
  }

  /** `top` is the largest member, or -1 when there is none. */
  ghost predicate IsTop(top: int, hs: set<int>) {
    (top == -1 || top in hs) && forall h <- hs :: h <= top
  }

  /** `fill_fds`: the sockets to wait for, and the largest of them. */
  method FillFds(listeners: seq<int>, lanes: seq<Lane>) returns (rd: set<int>, wr: set<int>, top: int)
    requires forall h <- listeners :: h >= 0
    requires forall l <- lanes :: l.source >= 0 && l.target >= 0
    ensures rd == Reads(lanes) + set h | h in listeners
    ensures wr == Writes(lanes)
    ensures IsTop(top, rd + wr)
  {
    rd, wr, top := {}, {}, -1;
    for i := 0 to |listeners|
      invariant rd == set h | h in listeners[..i]
      invariant wr == {} && IsTop(top, rd)
    {
      rd := rd + {listeners[i]};
      top := Max(listeners[i], top);
    }
    assert listeners[..|listeners|] == listeners;
    ghost var heard := rd;
    for i := 0 to |lanes|
      invariant rd == Reads(lanes[..i]) + heard && wr == Writes(lanes[..i])
      invariant IsTop(top, rd + wr)
    {
      var l := lanes[i];
      assert lanes[..i + 1][..i] == lanes[..i];
      rd, wr, top := AddLane(l, rd, wr, top);
    }
    assert lanes[..|lanes|] == lanes;
  }

  method AddLane(l: Lane, rd0: set<int>, wr0: set<int>, top0: int) returns (rd: set<int>, wr: set<int>, top: int)
    requires IsTop(top0, rd0 + wr0) && l.source >= 0 && l.target >= 0
    ensures rd == rd0 + LaneReads(l) && wr == wr0 + LaneWrites(l) && IsTop(top, rd + wr)
  {
    rd, wr, top := rd0, wr0, top0;
    if l.srcPos < l.srcSize {
      rd, top := rd + {l.source}, Max(l.source, top);
    }
    if l.tgtPos < l.tgtSize {
      rd, top := rd + {l.target}, Max(l.target, top);
    }
    if l.srcPos > 0 {
      wr, top := wr + {l.target}, Max(l.target, top);
    }
    if l.tgtPos > 0 {
      wr, top := wr + {l.source}, Max(l.source, top);
    }
  }

  /**
   Every channel of the list is waited for in both directions: one of its sockets is selected for
   reading, or the other one for writing.
   */
  lemma NeverDeaf(lanes: seq<Lane>, k: nat)
    requires k < |lanes| && lanes[k].srcSize > 0 && lanes[k].tgtSize > 0
    ensures lanes[k].source in Reads(lanes) || lanes[k].target in Writes(lanes)
    ensures lanes[k].target in Reads(lanes) || lanes[k].source in Writes(lanes)
  {
    var l := lanes[k];
    SelectedExactly(lanes, l.source);
    SelectedExactly(lanes, l.target);
    assert WantsRead(l, l.source) || WantsWrite(l, l.target);
    assert WantsRead(l, l.target) || WantsWrite(l, l.source);
  }
}
