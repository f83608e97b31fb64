/** remote/conn.go: in-order sending of a window, and acks coalesced per stream. */
module Conns {
  import opened Bytes
  import opened Outboxes
  import opened Inbufs
  import opened Ends

  type StreamId = nat

  datatype Kind = Stdin | Stdout

  datatype AckKey = AckKey(stream: StreamId, kind: Kind)

  datatype Frame =
    | DataFrame(stream: StreamId, kind: Kind, off: nat, bytes: seq<byte>)
    | AckFrame(key: AckKey, upTo: nat)
    | ExitFrame(stream: StreamId)

  /** A window's chunks as data frames of one stream. */
  function DataFrames(id: StreamId, kind: Kind, cs: seq<Chunk>): (fs: seq<Frame>)
    ensures |fs| == |cs|
    ensures forall i :: 0 <= i < |cs| ==> fs[i] == DataFrame(id, kind, cs[i].off, cs[i].bytes)
  {
    if cs == [] then []
    else [DataFrame(id, kind, cs[0].off, cs[0].bytes)] + DataFrames(id, kind, cs[1..])
  }

  lemma {:induction false} PayloadAppend(cs: seq<Chunk>, c: Chunk)
    ensures Payload(cs + [c]) == Payload(cs) + c.bytes
    decreases |cs|
  {
    if cs == [] {
      assert ([] + [c])[0] == c && ([] + [c])[1..] == [];
    } else {
      assert (cs + [c])[0] == cs[0] && (cs + [c])[1..] == cs[1..] + [c];
      PayloadAppend(cs[1..], c);
    }
  }

  lemma {:induction false} DataFramesAppend(id: StreamId, kind: Kind, cs: seq<Chunk>, c: Chunk)
    ensures DataFrames(id, kind, cs + [c]) == DataFrames(id, kind, cs) + [DataFrame(id, kind, c.off, c.bytes)]
  {
  }

  /** The first `done` chunks of `w` went out behind `before`: `after` is the wire now, `v` the window. */
  ghost predicate Flushed(id: StreamId, kind: Kind, w: Window, v: Window, before: seq<Frame>, after: seq<Frame>,
                          done: nat)
    requires w.Valid()
  {
    var cs := Frames(w, MAX_CHUNK);
    && done <= |cs|
    && after == before + DataFrames(id, kind, cs[..done])
    && v == w.(sent := w.sent + |Payload(cs[..done])|)
  }

  /** And the rest of the chunks are those of `v`. */
  ghost predicate Flushing(id: StreamId, kind: Kind, w: Window, v: Window, before: seq<Frame>, after: seq<Frame>,
                           done: nat)
    requires w.Valid()
  {
    v.Valid() && Flushed(id, kind, w, v, before, after, done) && Frames(w, MAX_CHUNK)[done..] == Frames(v, MAX_CHUNK)
  }

  lemma FlushStarts(id: StreamId, kind: Kind, w: Window, wire: seq<Frame>)
    requires w.Valid()
    ensures Flushing(id, kind, w, w, wire, wire, 0)
  {
  }

  lemma FlushStep(id: StreamId, kind: Kind, w: Window, v: Window, before: seq<Frame>, after: seq<Frame>, done: nat)
    requires w.Valid() && Flushing(id, kind, w, v, before, after, done)
    ensures var (u, c) := v.Next(MAX_CHUNK);
            && (c.bytes == [] ==> done == |Frames(w, MAX_CHUNK)| && v.sent == |v.all|)
            && (c.bytes != [] ==>
                  && done < |Frames(w, MAX_CHUNK)| && u.Unsend(c.off) == v
                  && Flushing(id, kind, w, u, before, after + [DataFrame(id, kind, c.off, c.bytes)], done + 1))
  {
    var cs := Frames(w, MAX_CHUNK);
    var (u, c) := v.Next(MAX_CHUNK);
    if c.bytes == [] {
      assert cs[done..] == [];
    } else {
      var rest := cs[done..];
      assert rest == [c] + Frames(u, MAX_CHUNK);
      assert rest[0] == c && rest[1..] == Frames(u, MAX_CHUNK);
      assert cs[done + 1..] == rest[1..] && cs[..done + 1] == cs[..done] + [c];
      PayloadAppend(cs[..done], c);
      DataFramesAppend(id, kind, cs[..done], c);
    }
  }

  class Conn {
    /** Frames written so far, oldest first. */
    var wire: seq<Frame>
    var closed: bool
    /** How many more frames the network takes before a write fails. */
    var credit: nat
    var acks: map<AckKey, nat>

    constructor (credit: nat)
      ensures wire == [] && !closed && acks == map[] && this.credit == credit
    {
      this.wire, this.closed, this.credit, this.acks := [], false, credit, map[];
    }

    /** conn.write: a failing write closes the connection. */
    method Send(f: Frame) returns (ok: bool)
      modifies this
      ensures acks == old(acks)
      ensures ok <==> !old(closed) && old(credit) > 0
      ensures ok ==> wire == old(wire) + [f] && !closed && credit == old(credit) - 1
      ensures !ok ==> wire == old(wire) && closed && credit == old(credit)
    {
      if closed {
        return false;
      }
      if credit == 0 {
        closed := true;
        return false;
      }
      wire, credit := wire + [f], credit - 1;
      return true;
    }

    /**
     flushLocked: `done` chunks of the window went out, in order and back to back from where it
     stood; all of them on success, and after a failure the window stands right after the last one
     that did, for the next connection.
     */
    method FlushLocked(id: StreamId, kind: Kind, ob: Outbox) returns (ok: bool, ghost done: nat)
      requires ob.Valid()
      modifies this, ob
      ensures ob.Valid() && acks == old(acks)
      ensures Flushed(id, kind, old(ob.View()), ob.View(), old(wire), wire, done)
      ensures ok <==> done == |Frames(old(ob.View()), MAX_CHUNK)|
      ensures ok ==> ob.View().sent == |ob.View().all|
      ensures !ok ==> closed
      ensures var n := |Frames(old(ob.View()), MAX_CHUNK)|;
              !old(closed) && old(credit) >= n ==> ok && !closed && credit == old(credit) - n
    {
      ghost var w := ob.View();
      FlushStarts(id, kind, w, wire);
      done := 0;
      while true
        invariant ob.Valid() && acks == old(acks)
        invariant Flushing(id, kind, w, ob.View(), old(wire), wire, done)
        invariant !old(closed) && old(credit) >= |Frames(w, MAX_CHUNK)| ==> !closed && credit == old(credit) - done
        decreases |Frames(w, MAX_CHUNK)| - done
      {
        FlushStep(id, kind, w, ob.View(), old(wire), wire, done);
        var off, chunk := ob.Next(MAX_CHUNK);
        if |chunk| == 0 {
          return true, done;
        }
        var sent := Send(DataFrame(id, kind, off, chunk));
        if !sent {
          ob.Unsend(off);
          return false, done;
        }
        done := done + 1;
      }
    }

    /** queueAck: the latest offset of a stream replaces the one before. */
    method QueueAck(key: AckKey, off: nat)
      modifies this
      ensures acks == old(acks)[key := off]
      ensures wire == old(wire) && closed == old(closed) && credit == old(credit)
    {
      acks := acks[key := off];
    }

    /**
     One turn of the acker: takes the queued acks and sends each. On success every stream that had
     an ack queued gets exactly one, with the latest offset; a failure loses the rest of them.
     */
    method SendAcks() returns (ok: bool)
      modifies this
      ensures acks == map[]
      ensures old(wire) <= wire
      ensures AckFrames(wire[|old(wire)|..], old(acks))
      ensures ok ==> forall k :: k in old(acks) ==> AckFrame(k, old(acks)[k]) in wire[|old(wire)|..]
      ensures !ok ==> closed
    {
      var batch := acks;
      acks := map[];
      var todo := batch.Keys;
      ghost var n := |wire|;
      while todo != {}
        invariant todo <= batch.Keys && acks == map[]
        invariant n == |old(wire)| && old(wire) <= wire
        invariant AckFrames(wire[n..], batch)
        invariant forall f :: f in wire[n..] ==> f.key !in todo
        invariant forall k :: k in batch && k !in todo ==> AckFrame(k, batch[k]) in wire[n..]
        decreases todo
      {
        var k :| k in todo;
        ghost var sofar := wire[n..];
        ok := Send(AckFrame(k, batch[k]));
        if !ok {
          return;
        }
        assert wire[n..] == sofar + [AckFrame(k, batch[k])];
        todo := todo - {k};
      }
      return true;
    }
  }

  /** Frames that are acks of `batch`, no stream twice. */
  ghost predicate AckFrames(fs: seq<Frame>, batch: map<AckKey, nat>) {
    && (forall f :: f in fs ==> f.AckFrame? && f.key in batch && f.upTo == batch[f.key])
    && (forall i, j :: 0 <= i < j < |fs| && fs[i].AckFrame? && fs[j].AckFrame? ==> fs[i].key != fs[j].key)
  }

  /** remote/agent.go: one stream's buffers on the remote machine. */
  class RemoteStream {
    const id: StreamId
    const out: Outbox
    const inp: Inbuf
    /** The connection the exit went out on, if any: a new connection needs it again. */
    var exitSentOn: Conn?

    constructor (id: StreamId, out: Outbox, inp: Inbuf)
      ensures this.id == id && this.out == out && this.inp == inp && exitSentOn == null
    {
      this.id, this.out, this.inp, exitSentOn := id, out, inp, null;
    }

    /**
     The process reads from its stdin; while there is a connection the consumed offset is queued as the ack
     of this stream's stdin, in place of the one before, and nothing else is.
     */
    method ReadStdin(c: Conn?, size: nat) returns (res: ReadResult)
      requires inp.Valid() && (inp.buf != [] || inp.eof)
      modifies c, inp
      ensures inp.Valid() && (inp.View(), res) == old(inp.View()).Read(size)
      ensures c != null && res.Bytes? ==> c.acks == old(c.acks)[AckKey(id, Stdin) := inp.View().Consumed()]
      ensures c != null && res.EndOfFile? ==> c.acks == old(c.acks)
      ensures c != null ==> c.wire == old(c.wire) && c.closed == old(c.closed)
    {
      var notify;
      res, notify := inp.Read(size);
      if c != null && res.Bytes? {
        c.QueueAck(AckKey(id, Stdin), notify);
      }
    }

    /**
     Agent.flush: the unsent output, and after all of it, once on each connection, the exit. The exit
     is on the wire only behind everything the outbox ever held.
     */
    method Flush(c: Conn) returns (ghost done: nat, exitSent: bool)
      requires out.Valid()
      modifies c, out, this
      ensures out.Valid() && c.acks == old(c.acks)
      ensures exists wire ::
                && Flushed(id, Stdout, old(out.View()), out.View(), old(c.wire), wire, done)
                && c.wire == wire + if exitSent then [ExitFrame(id)] else []
      ensures exitSent ==> out.eof && out.sent == |out.all| && old(exitSentOn) != c && exitSentOn == c
      ensures !exitSent ==> exitSentOn == old(exitSentOn) && (c.closed || !out.eof || exitSentOn == c)
      ensures out.eof == old(out.eof)
      ensures var fs := Frames(old(out.View()), MAX_CHUNK);
              old(out.eof) && !old(c.closed) && old(exitSentOn) != c && old(c.credit) > |fs| ==>
                exitSent && c.wire == old(c.wire) + DataFrames(id, Stdout, fs) + [ExitFrame(id)]
    {
      exitSent := false;
      var ok;
      ok, done := c.FlushLocked(id, Stdout, out);
      if !ok {
        return;
      }
      var drained := out.Drained();
      if !drained || exitSentOn == c {
        return;
      }
      exitSent := c.Send(ExitFrame(id));
      if exitSent {
        exitSentOn := c;
      }
    }
  }
}
