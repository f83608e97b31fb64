/** remote/buffer.go, receiving half: offset-addressed frames reassembled for one reader. */
module Inbufs {
  import opened Bytes
  import opened Outboxes

  /** What inbuf.write answers: the new receive offset, or a gap. */
  datatype AcceptResult = Accepted(next: nat) | Gap(got: nat, expected: nat)

  /** What Read returns: bytes, or end of file. */
  datatype ReadResult = Bytes(p: seq<byte>) | EndOfFile

  /**
   The receiving half as a value. `got` is every byte received, from offset `start` on; the
   first `kept` of them went to the reader's buffer (all of them until the stream is closed),
   and the reader has taken the first `read`.
   */
  datatype Inbound = Inbound(start: nat, got: seq<byte>, read: nat, kept: nat, eof: bool)
  {
    ghost predicate Valid() {
      read <= kept <= |got| && (eof || kept == |got|)
    }

    /** Offset of the next byte expected from the peer. */
    function Next(): nat {
      start + |got|
    }

    /** Offset of the next byte the reader will get. */
    function Consumed(): nat {
      start + read
    }

    /** The received data ends a line, or nothing arrived. */
    predicate LineEnd() {
      got == [] || got[|got| - 1] == NEWLINE
    }

    function Accept(off: nat, p: seq<byte>): (Inbound, AcceptResult)
      requires Valid()
    {
      if off > Next() then (this, Gap(off, Next()))
      else
        var skip := Next() - off;
        if skip >= |p| then (this, Accepted(Next()))
        else
          var more := got + p[skip..];
          (this.(got := more, kept := if eof then kept else |more|), Accepted(start + |more|))
    }

    function CloseWrite(): Inbound {
      this.(eof := true)
    }

    function Read(size: nat): (Inbound, ReadResult)
      requires Valid() && (read < kept || eof)
    {
      if read == kept then (this, EndOfFile)
      else
        var n := if size < kept - read then size else kept - read;
        (this.(read := read + n), Bytes(got[read..read + n]))
    }
  }

  function Empty(start: nat): Inbound {
    Inbound(start, [], 0, 0, false)
  }

  /** What has been received is the stretch of stream `all` from `start` to the receive offset. */
  ghost predicate Mirrors(b: Inbound, all: seq<byte>) {
    b.Valid() && b.Next() <= |all| && b.got == all[b.start..b.Next()]
  }

  /**
   A frame that is a slice of the sender's stream keeps the receiver a mirror of that stream,
   whether it is new, a duplicate, or overlaps what is already here; only a gap is refused.
   */
  lemma AcceptMirrors(b: Inbound, all: seq<byte>, off: nat, p: seq<byte>)
    requires Mirrors(b, all) && off + |p| <= |all| && p == all[off..off + |p|]
    ensures var (c, res) := b.Accept(off, p);
            && Mirrors(c, all) && c.start == b.start && c.read == b.read && c.eof == b.eof
            && (res.Gap? <==> off > b.Next())
            && (res.Gap? ==> c == b)
            && (off <= b.Next() ==>
                  c.Next() == (if off + |p| > b.Next() then off + |p| else b.Next()) && res == Accepted(c.Next()))
  {
    if off <= b.Next() < off + |p| {
      var skip := b.Next() - off;
      assert all[b.start..off + |p|] == all[b.start..b.Next()] + p[skip..];
    }
  }

  // ---- frames in any order, with any duplication ----

  /** Deliver frames one after the other; a gap is dropped (the connection would be reset). */
  ghost function DeliverAll(b: Inbound, cs: seq<Chunk>): Inbound
    requires b.Valid()
    decreases |cs|
  {
    if cs == [] then b else DeliverAll(b.Accept(cs[0].off, cs[0].bytes).0, cs[1..])
  }

  /**
   Frames of one stream in any order and with any repetition: what was received is always a
   stretch of the stream without gap or duplicate, and it never shrinks.
   */
  lemma {:induction false} DeliverAnyOrder(b: Inbound, all: seq<byte>, cs: seq<Chunk>)
    requires Mirrors(b, all)
    requires forall c :: c in cs ==> c.off + |c.bytes| <= |all| && c.bytes == all[c.off..c.off + |c.bytes|]
    ensures var d := DeliverAll(b, cs);
            Mirrors(d, all) && d.start == b.start && d.read == b.read && b.got <= d.got
    decreases |cs|
  {
    if cs != [] {
      assert cs[0] in cs;
      AcceptMirrors(b, all, cs[0].off, cs[0].bytes);
      DeliverAnyOrder(b.Accept(cs[0].off, cs[0].bytes).0, all, cs[1..]);
    }
  }

  // ---- the reader ----

  /** All a reader gets from a closed stream with reads of the given sizes. */
  ghost function ReadOut(b: Inbound, sizes: seq<nat>): seq<byte>
    requires b.Valid() && b.eof
    decreases |sizes|
  {
    if sizes == [] then []
    else
      var (c, res) := b.Read(sizes[0]);
      if res.EndOfFile? then [] else res.p + ReadOut(c, sizes[1..])
  }

  /** End of file only comes after the last byte kept, and reads hand the bytes out in order. */
  lemma {:induction false} EofAfterEveryByte(b: Inbound, sizes: seq<nat>)
    requires b.Valid() && b.eof
    ensures ReadOut(b, sizes) <= b.got[b.read..b.kept]
    ensures (forall n :: n in sizes ==> n > 0) && |sizes| >= b.kept - b.read ==>
              ReadOut(b, sizes) == b.got[b.read..b.kept]
    decreases |sizes|
  {
    if b.read == b.kept {
      assert b.got[b.read..b.kept] == [];
    } else if sizes != [] {
      var (c, res) := b.Read(sizes[0]);
      EofAfterEveryByte(c, sizes[1..]);
      assert b.got[b.read..b.kept] == res.p + c.got[c.read..c.kept];
      assert sizes[0] in sizes && forall n :: n in sizes[1..] ==> n in sizes;
    }
  }

  lemma HeadOf(s: seq<byte>, i: nat, j: nat, n: nat)
    requires i + n <= j <= |s|
    ensures s[i..i + n] == s[i..j][..n]
  {
  }

  /** A read gives as much as it is asked for, or all there is, and moves past exactly that. */
  lemma ReadTakes(b: Inbound, size: nat)
    requires b.Valid() && (b.read < b.kept || b.eof)
    ensures var (c, res) := b.Read(size);
            && (res.EndOfFile? <==> b.read == b.kept) && (res.EndOfFile? ==> c == b)
            && (res.Bytes? ==>
                  && |res.p| <= size && res.p <= b.got[b.read..b.kept]
                  && (|res.p| == size || res.p == b.got[b.read..b.kept])
                  && c == b.(read := b.read + |res.p|))
  {
    if b.read < b.kept {
      HeadOf(b.got, b.read, b.kept, |b.Read(size).1.p|);
    }
  }

  /** The reader's buffer is the stretch of the received bytes from `from` on. */
  ghost predicate Holds(buf: seq<byte>, got: seq<byte>, from: nat) {
    from + |buf| <= |got| && forall i :: 0 <= i < |buf| ==> buf[i] == got[from + i]
  }

  lemma HoldsMore(buf: seq<byte>, got: seq<byte>, from: nat, more: seq<byte>)
    requires Holds(buf, got, from)
    ensures Holds(buf, got + more, from)
    ensures from + |buf| == |got| ==> Holds(buf + more, got + more, from)
  {
  }

  lemma HoldsLess(buf: seq<byte>, got: seq<byte>, from: nat, n: nat)
    requires Holds(buf, got, from) && n <= |buf|
    ensures buf[..n] == got[from..from + n] && Holds(buf[n..], got, from + n)
  {
  }

  /** Receiving half of one direction of a stream, as the program keeps it. */
  class Inbuf {
    var next: nat
    var buf: seq<byte>
    var eof: bool
    var consumed: nat
    var lineEnd: bool
    /** Set once a reader has seen end of file. */
    var drained: bool

    ghost const start: nat
    ghost var got: seq<byte>

    ghost function View(): Inbound
      reads this
      requires start <= consumed
    {
      Inbound(start, got, consumed - start, consumed - start + |buf|, eof)
    }

    ghost predicate Valid()
      reads this
    {
      && start <= consumed
      && View().Valid()
      && next == View().Next()
      && Holds(buf, got, consumed - start)
      && lineEnd == View().LineEnd()
      && (drained ==> eof && buf == [])
    }

    constructor (start: nat)
      ensures Valid() && View() == Empty(start) && !drained
    {
      this.next, this.buf, this.eof, this.consumed := start, [], false, start;
      this.lineEnd, this.drained := true, false;
      this.start, this.got := start, [];
    }

    method Write(off: nat, p: seq<byte>) returns (res: AcceptResult)
      requires Valid()
      modifies this
      ensures Valid() && (View(), res) == old(View()).Accept(off, p)
    {
      if off > next {
        return Gap(off, next);
      }
      var skip := next - off;
      if skip >= |p| {
        return Accepted(next);
      }
      HoldsMore(buf, got, consumed - start, p[skip..]);
      if !eof {
        buf := buf + p[skip..];
      }
      got := got + p[skip..];
      next := next + (|p| - skip);
      lineEnd := p[|p| - 1] == NEWLINE;
      return Accepted(next);
    }

    method EndsLine() returns (yes: bool)
      requires Valid()
      ensures yes == View().LineEnd()
    {
      yes := lineEnd;
    }

    method Received() returns (off: nat)
      requires Valid()
      ensures off == View().Next()
    {
      off := next;
    }

    method CloseWrite()
      requires Valid()
      modifies this
      ensures Valid() && View() == old(View()).CloseWrite()
    {
      eof := true;
    }

    /**
     Read, past its wait for bytes or end of file. `notify` is the consumed offset handed to
     onConsume, for the owner to acknowledge.
     */
    method Read(size: nat) returns (res: ReadResult, notify: nat)
      requires Valid() && (buf != [] || eof)
      modifies this
      ensures Valid() && (View(), res) == old(View()).Read(size)
      ensures res.EndOfFile? ==> drained && buf == []
      ensures res.Bytes? ==> notify == View().Consumed() && |res.p| <= size
    {
      if |buf| == 0 {
        drained := true;
        return EndOfFile, consumed;
      }
      var n := if size < |buf| then size else |buf|;
      var p := buf[..n];
      HoldsLess(buf, got, consumed - start, n);
      buf := buf[n..];
      consumed := consumed + n;
      return Bytes(p), consumed;
    }
  }
}
