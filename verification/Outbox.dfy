/** remote/buffer.go, sending half: the retransmission window of one stream direction. */
module Outboxes {
  import opened Bytes
  import opened Seqs

  /** What outbox.Write answers. */
  datatype WriteResult = Wrote(n: nat) | ClosedPipe | Overflow

  /** What outbox.rewind answers. */
  datatype RewindResult = Rewound | CannotResume(off: nat, base: nat, end: nat)

  /** A frame taken by next(): `bytes` sits at `off` in the stream. */
  datatype Chunk = Chunk(off: nat, bytes: seq<byte>)

  /**
   The window as a value. `all` is the whole stream ever written, addressed by absolute offset;
   the buffer is its part from `base` on. `start` is the offset the window was created at: the
   bytes before it are history the window itself never held.
   */
  datatype Window = Window(start: nat, all: seq<byte>, base: nat, sent: nat, limit: int, eof: bool)
  {
    ghost predicate Valid() {
      && start <= base <= sent <= |all|
      && (base == start || LineStart(all, base))
      && (|all| - base <= limit || |all| == base)
    }

    function End(): nat {
      |all|
    }

    function Write(p: seq<byte>): (Window, WriteResult)
      requires base <= |all|
    {
      if eof then (this, ClosedPipe)
      else if |all| - base + |p| > limit then (this, Overflow)
      else (this.(all := all + p), Wrote(|p|))
    }

    function CloseWrite(): Window {
      this.(eof := true)
    }

    function Next(max: int): (Window, Chunk)
      requires base <= sent <= |all|
    {
      var n := if |all| - sent > max then max else |all| - sent;
      if n <= 0 then (this, Chunk(sent, []))
      else (this.(sent := sent + n), Chunk(sent, all[sent..sent + n]))
    }

    predicate Drained() {
      eof && sent == |all|
    }

    function Ack(off: nat): Window
      requires base <= |all|
    {
      if off <= base || off > |all| then this
      else
        var w := if sent < off then this.(sent := off) else this;
        var cut := LastIndex(all[base..off], NEWLINE);
        if cut < 0 then w else w.(base := base + cut + 1)
    }

    function Unsend(off: nat): Window {
      if base <= off < sent then this.(sent := off) else this
    }

    function Rewind(off: nat): (Window, RewindResult)
      requires base <= |all|
    {
      if off < base || off > |all| then (this, CannotResume(off, base, |all|))
      else (Ack(off).(sent := off), Rewound)
    }
  }

  /** newOutbox(len(prefix), limit): a window that continues a stream after `prefix`. */
  function Fresh(prefix: seq<byte>, limit: int): Window {
    Window(|prefix|, prefix, |prefix|, |prefix|, limit, false)
  }

  // ---- one operation at a time ----

  lemma AckTrims(w: Window, off: nat)
    requires w.Valid()
    ensures var v := w.Ack(off);
            && v.Valid() && v.all == w.all && v.start == w.start && v.limit == w.limit && v.eof == w.eof
            && w.base <= v.base && w.sent <= v.sent
            && (off <= w.base || off > |w.all| ==> v == w)
            && (w.base < off <= |w.all| ==>
                  // never into a line: the buffer now starts at the last line start before off,
                  // or where it did when there is none
                  && v.base <= off <= v.sent
                  && (v.base != w.base ==> LineStart(w.all, v.base))
                  && (forall k :: v.base <= k < off ==> w.all[k] != NEWLINE)
                  && v.sent == if w.sent < off then off else w.sent)
  {
    if w.base < off <= |w.all| {
      var held := w.all[w.base..off];
      var cut := LastIndex(held, NEWLINE);
      assert forall k :: cut < k < |held| ==> held[k] == w.all[w.base + k];
      forall k | w.Ack(off).base <= k < off
        ensures w.all[k] != NEWLINE
      {
        assert held[k - w.base] == w.all[k];
      }
    }
  }

  /** rewind succeeds exactly inside the buffer, and then the next byte sent is the one at `off`. */
  lemma RewindPositions(w: Window, off: nat)
    requires w.Valid()
    ensures var (v, res) := w.Rewind(off);
            && (res == Rewound <==> w.base <= off <= |w.all|)
            && (res != Rewound ==> v == w)
            && (res == Rewound ==>
                  && v.Valid() && v.sent == off && v.all == w.all && v.start == w.start
                  && v.limit == w.limit && v.eof == w.eof && w.base <= v.base <= off
                  && (forall k :: v.base <= k < off && k >= w.base ==> w.all[k] != NEWLINE))
  {
    AckTrims(w, off);
  }

  /**
   A failed send leaves the window as it was, and whatever the peer acknowledged meanwhile the cursor is
   back at the failed chunk, unless acks of that very chunk, which then did arrive, trimmed its start away.
   */
  lemma UnsendUndoesNext(w: Window, max: int, ack: nat)
    requires w.Valid()
    ensures var (v, c) := w.Next(max);
            c.bytes != [] ==>
              var u := v.Ack(ack).Unsend(c.off);
              && v.Unsend(c.off) == w
              && (ack <= c.off ==> u == w.Ack(ack))
              && (w.Ack(ack).base <= c.off ==> u == w.Ack(ack).(sent := c.off))
              && (w.Ack(ack).base > c.off ==> u == v.Ack(ack) && c.off < ack <= |w.all|)
  {
    AckTrims(w, ack);
    AckTrims(w.Next(max).0, ack);
  }

  // ---- every operation sequence ----

  datatype Op = OpWrite(p: seq<byte>) | OpClose | OpNext(max: int) | OpAck(off: nat) | OpUnsend(off: nat)
      | OpRewind(off: nat)

  function Step(w: Window, op: Op): Window
    requires w.base <= w.sent <= |w.all|
  {
    match op
    case OpWrite(p) => w.Write(p).0
    case OpClose => w.CloseWrite()
    case OpNext(max) => w.Next(max).0
    case OpAck(off) => w.Ack(off)
    case OpUnsend(off) => w.Unsend(off)
    case OpRewind(off) => w.Rewind(off).0
  }

  lemma StepKeepsValid(w: Window, op: Op)
    requires w.Valid()
    ensures var v := Step(w, op);
            && v.Valid() && w.all <= v.all && w.base <= v.base
            && v.start == w.start && v.limit == w.limit && (w.eof ==> v.eof && v.all == w.all)
  {
    match op
    case OpAck(off) => AckTrims(w, off);
    case OpRewind(off) => RewindPositions(w, off);
    case _ =>
  }

  function Run(w: Window, ops: seq<Op>): Window
    requires w.Valid()
    decreases |ops|
  {
    if ops == [] then w
    else
      StepKeepsValid(w, ops[0]);
      Run(Step(w, ops[0]), ops[1..])
  }

  /**
   Whatever the operations, from any point on: base <= sent <= end, the backlog stays within the
   limit, the buffer starts where it was created or at a line start and never moves back, and
   nothing written is altered (the stream only grows, and not at all once closed).
   */
  lemma {:induction false} WindowSafe(w: Window, ops: seq<Op>)
    requires w.Valid()
    ensures var v := Run(w, ops);
            && v.Valid() && w.all <= v.all && w.base <= v.base
            && v.start == w.start && v.limit == w.limit
            && (w.eof ==> v.eof && v.all == w.all)
    decreases |ops|
  {
    if ops != [] {
      StepKeepsValid(w, ops[0]);
      WindowSafe(Step(w, ops[0]), ops[1..]);
    }
  }

  function AllWritten(ops: seq<Op>): seq<byte> {
    if ops == [] then []
    else (if ops[0].OpWrite? then ops[0].p else []) + AllWritten(ops[1..])
  }

  lemma StepAppends(w: Window, op: Op)
    requires w.Valid() && !w.eof && !op.OpClose?
    requires op.OpWrite? ==> |w.all| - w.base + |op.p| <= w.limit
    ensures var v := Step(w, op);
            && !v.eof && v.limit == w.limit && v.base >= w.base
            && v.all == w.all + if op.OpWrite? then op.p else []
  {
    StepKeepsValid(w, op);
  }

  /** While the stream is open and there is room, no write is lost, whatever is sent and acknowledged in between. */
  lemma {:induction false} NoWriteLost(w: Window, ops: seq<Op>)
    requires w.Valid() && !w.eof && OpClose !in ops
    requires |w.all| - w.base + |AllWritten(ops)| <= w.limit
    ensures Run(w, ops).all == w.all + AllWritten(ops)
    decreases |ops|
  {
    if ops != [] {
      var p := if ops[0].OpWrite? then ops[0].p else [];
      StepAppends(w, ops[0]);
      StepKeepsValid(w, ops[0]);
      NoWriteLost(Step(w, ops[0]), ops[1..]);
      Regroup(w.all, p, AllWritten(ops[1..]));
    }
  }

  // ---- what a flush puts on the wire ----

  /** All frames flush takes from `w` with chunks of at most `max` bytes. */
  function Frames(w: Window, max: int): (cs: seq<Chunk>)
    requires w.base <= w.sent <= |w.all| && max > 0
    decreases |w.all| - w.sent
  {
    var (v, c) := w.Next(max);
    if c.bytes == [] then [] else [c] + Frames(v, max)
  }

  function Payload(cs: seq<Chunk>): seq<byte> {
    if cs == [] then [] else cs[0].bytes + Payload(cs[1..])
  }

  /** The frames of a stream, each where the one before it ended, up to the stream's end. */
  ghost predicate BackToBack(all: seq<byte>, from: nat, cs: seq<Chunk>, max: int)
    decreases |cs|
  {
    if cs == [] then from == |all|
    else
      && cs[0].off == from && 0 < |cs[0].bytes| <= max && from + |cs[0].bytes| <= |all|
      && cs[0].bytes == all[from..from + |cs[0].bytes|]
      && BackToBack(all, from + |cs[0].bytes|, cs[1..], max)
  }

  lemma FrameFirst(all: seq<byte>, from: nat, c: Chunk, rest: seq<Chunk>, max: int)
    requires c.off == from && 0 < |c.bytes| <= max && from + |c.bytes| <= |all|
             && c.bytes == all[from..from + |c.bytes|]
    requires BackToBack(all, from + |c.bytes|, rest, max) && Payload(rest) == all[from + |c.bytes|..]
    ensures BackToBack(all, from, [c] + rest, max) && Payload([c] + rest) == all[from..]
  {
    assert ([c] + rest)[0] == c && ([c] + rest)[1..] == rest;
    assert all[from..] == c.bytes + all[from + |c.bytes|..];
  }

  /**
   After a resume at `off` the frames are, back to back, exactly the bytes from `off` to the end
   of the stream: what the peer is missing, once and in order.
   */
  lemma {:induction false} ReplayExact(w: Window, max: int)
    requires w.Valid() && max > 0
    ensures Payload(Frames(w, max)) == w.all[w.sent..]
    ensures BackToBack(w.all, w.sent, Frames(w, max), max)
    decreases |w.all| - w.sent
  {
    var (v, c) := w.Next(max);
    if c.bytes == [] {
      assert Frames(w, max) == [] && w.sent == |w.all|;
    } else {
      ReplayExact(v, max);
      FrameFirst(w.all, w.sent, c, Frames(v, max), max);
    }
  }

  /** Drained: closed, and a flush finds nothing to send. */
  lemma DrainedIff(w: Window, max: int)
    requires w.Valid() && max > 0
    ensures w.Drained() <==> w.eof && Frames(w, max) == []
  {
    ReplayExact(w, max);
  }

  lemma TailSlice(all: seq<byte>, base: nat, i: nat, j: nat)
    requires i <= j && base + j <= |all|
    ensures all[base..][i..j] == all[base + i..base + j]
  {
  }

  lemma BufferHead(all: seq<byte>, base: nat, buf: seq<byte>, off: nat)
    requires base <= off <= |all| && buf == all[base..]
    ensures buf[..off - base] == all[base..off]
  {
  }

  lemma TailMore(all: seq<byte>, base: nat, p: seq<byte>)
    requires base <= |all|
    ensures (all + p)[base..] == all[base..] + p
  {
  }

  /** Sending half of one direction of a stream, as the program keeps it. */
  class Outbox {
    var base: nat
    var buf: seq<byte>
    var sent: nat
    const limit: int
    var eof: bool

    ghost const start: nat
    ghost var all: seq<byte>

    ghost predicate Valid()
      reads this
    {
      View().Valid() && buf == all[base..]
    }

    ghost function View(): Window
      reads this
    {
      Window(start, all, base, sent, limit, eof)
    }

    constructor (start: nat, limit: int, ghost history: seq<byte>)
      requires |history| == start
      ensures Valid() && View() == Fresh(history, limit)
    {
      this.base, this.sent, this.limit, this.eof := start, start, limit, false;
      this.buf := [];
      this.start, this.all := start, history;
    }

    method Write(p: seq<byte>) returns (res: WriteResult)
      requires Valid()
      modifies this
      ensures Valid() && (View(), res) == old(View()).Write(p)
    {
      if eof {
        return ClosedPipe;
      }
      if |buf| + |p| > limit {
        return Overflow;
      }
      TailMore(all, base, p);
      buf := buf + p;
      all := all + p;
      return Wrote(|p|);
    }

    method CloseWrite()
      requires Valid()
      modifies this
      ensures Valid() && View() == old(View()).CloseWrite()
    {
      eof := true;
    }

    method Next(max: int) returns (off: nat, chunk: seq<byte>)
      requires Valid()
      modifies this
      ensures Valid() && (View(), Chunk(off, chunk)) == old(View()).Next(max)
    {
      var start := sent - base;
      var n := |buf| - start;
      if n > max {
        n := max;
      }
      if n <= 0 {
        return sent, [];
      }
      TailSlice(all, base, start, start + n);
      chunk := buf[start..start + n];
      off := sent;
      sent := sent + n;
    }

    method Drained() returns (yes: bool)
      requires Valid()
      ensures yes <==> View().Drained()
      ensures yes <==> eof && sent == |all|
    {
      yes := eof && sent == base + |buf|;
    }

    method Ack(off: nat)
      requires Valid()
      modifies this
      ensures Valid() && View() == old(View()).Ack(off)
    {
      var end := base + |buf|;
      if off <= base || off > end {
        return;
      }
      var held := buf[..off - base];
      BufferHead(all, base, buf, off);
      AckTrims(View(), off);
      if sent < off {
        sent := off;
      }
      var cut := LastIndex(held, NEWLINE);
      if cut < 0 {
        return;
      }
      buf := buf[cut + 1..];
      base := base + cut + 1;
    }

    method Unsend(off: nat)
      requires Valid()
      modifies this
      ensures Valid() && View() == old(View()).Unsend(off)
    {
      if off >= base && off < sent {
        sent := off;
      }
    }

    method Rewind(off: nat) returns (res: RewindResult)
      requires Valid()
      modifies this
      ensures Valid() && (View(), res) == old(View()).Rewind(off)
    {
      AckTrims(View(), off);
      var end := base + |buf|;
      if off < base || off > end {
        return CannotResume(off, base, end);
      }
      Ack(off);
      sent := off;
      return Rewound;
    }
  }
}
