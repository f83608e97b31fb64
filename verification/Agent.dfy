/** remote/agent.go: the remote machine's table of streams, its hello, and what it does with a welcome. */
module Agents {
  import opened Outboxes
  import opened Wrappers
  import opened Ends
  import opened Hubs

  class RemoteAgent {
    var streams: map<StreamId, AgentEnd>
    /** Streams let go of whose process may still be ending. */
    var forgotten: map<StreamId, AgentEnd>
    var connected: bool

    ghost predicate Valid()
      reads this
    {
      && streams.Keys !! forgotten.Keys
      && (forall id :: id in streams ==> streams[id].listed && streams[id].stdout.base <= |streams[id].stdout.all|)
      && (forall id :: id in forgotten ==>
          !forgotten[id].listed && forgotten[id].stdout.base <= |forgotten[id].stdout.all|)
    }

    ghost function End(id: StreamId): Option<AgentEnd>
      reads this
    {
      if id in streams then Some(streams[id]) else if id in forgotten then Some(forgotten[id]) else None
    }

    constructor ()
      ensures Valid() && streams == map[] && forgotten == map[] && !connected
    {
      streams, forgotten, connected := map[], map[], false;
    }

    /** hello: every stream of the table, once. */
    method Hello() returns (hello: seq<Entry>)
      requires Valid()
      ensures Distinct(hello)
      ensures forall id :: Find(hello, id) == if id in streams then Some(Report(streams[id])) else None
    {
      hello := [];
      var todo := streams.Keys;
      while todo != {}
        invariant todo <= streams.Keys
        invariant Distinct(hello)
        invariant forall i :: 0 <= i < |hello| ==> hello[i].id !in todo
        invariant forall id ::
                    Find(hello, id) == if id in streams && id !in todo then Some(Report(streams[id])) else None
        decreases todo
      {
        var id :| id in todo;
        ghost var before := hello;
        hello := hello + [About(id, Report(streams[id]))];
        assert hello[..|hello| - 1] == before;
        todo := todo - {id};
      }
    }

    /** forget */
    method Forget(id: StreamId)
      requires Valid() && id in streams
      modifies this`streams, this`forgotten
      ensures Valid() && id !in streams
      ensures End(id) == Some(old(streams[id]).(listed := false))
      ensures forall j :: j != id ==> End(j) == old(End(j))
    {
      streams, forgotten := streams - {id}, forgotten[id := streams[id].(listed := false)];
    }

    /** welcome, for one answer. */
    method Apply(r: Reply)
      requires Valid()
      modifies this
      ensures Valid() && connected == old(connected)
      ensures End(r.id) == match old(End(r.id)) case None => None case Some(a) => Some(WelcomeEnd(a, Some(r.value)))
      ensures forall j :: j != r.id ==> End(j) == old(End(j))
    {
      if r.id !in streams {
        return;
      }
      var a := streams[r.id];
      if r.value.Kill? {
        Forget(r.id);
        return;
      }
      var (w, res) := a.stdout.Rewind(r.value.outFrom);
      if res != Rewound {
        Forget(r.id);
        return;
      }
      AckKeepsBase(a.stdout, r.value.outFrom);
      streams := streams[r.id := a.(stdout := w)];
    }

    /** The read loop, for one message of one stream: it does to the table what the protocol does to the stream. */
    method Take(id: StreamId, m: P.Msg, ghost t: P.Stream) returns (inSync: bool)
      requires Valid() && P.Ready(t) && t.agent == End(id) && !m.Spawn?
      modifies this`streams, this`forgotten
      ensures Valid()
      ensures inSync ==> P.AgentTakes(t, m) == t.(agent := End(id))
      ensures !inSync ==> P.AgentTakes(t, m) == P.Dropped(t) && End(id) == old(End(id))
      ensures forall j :: j != id ==> End(j) == old(End(j))
    {
      inSync := true;
      if id !in streams {
        return;
      }
      var a := streams[id];
      if m.Data? {
        var (b, res) := a.stdin.Accept(m.off, m.bytes);
        if res.Gap? {
          inSync := false;
        } else {
          streams := streams[id := a.(stdin := b)];
        }
      } else if m.Ack? {
        AckKeepsBase(a.stdout, m.upTo);
        streams := streams[id := a.(stdout := a.stdout.Ack(m.upTo))];
      } else if m.Forget? {
        Forget(id);
      }
    }

    /** pumpStdout, once the process is gone: the exit is recorded and both directions end. */
    method ProcessExited(id: StreamId, ghost t: P.Stream)
      requires Valid() && t.agent == End(id)
      modifies this`streams, this`forgotten
      ensures Valid() && End(id) == P.DoProcessExit(t).agent
      ensures forall j :: j != id ==> End(j) == old(End(j))
    {
      if id in streams {
        var a := streams[id];
        streams := streams[id := a.(exited := true, stdin := a.stdin.CloseWrite(), stdout := a.stdout.CloseWrite())];
      } else if id in forgotten {
        var a := forgotten[id];
        forgotten := forgotten[id := a.(exited := true, stdin := a.stdin.CloseWrite(),
                                        stdout := a.stdout.CloseWrite())];
      }
    }

    /** welcome: every answer applied to its stream, and the connection becomes the current one. */
    method Welcome(welcome: seq<Reply>)
      requires Valid() && Distinct(welcome)
      modifies this
      ensures Valid() && connected
      ensures forall id ::
                End(id) == match old(End(id))
                  case None => None
                  case Some(a) => Some(WelcomeEnd(a, Find(welcome, id)))
    {
      for n := 0 to |welcome|
        invariant Valid()
        invariant forall id :: old(End(id)).Some? ==> old(End(id).value.stdout.base <= |End(id).value.stdout.all|)
        invariant forall id ::
                    End(id) == match old(End(id))
                      case None => None
                      case Some(a) => Some(WelcomeEnd(a, Find(welcome[..n], id)))
      {
        FindPrefix(welcome, n, welcome[n].id);
        assert welcome[..n + 1][..n] == welcome[..n];
        Apply(welcome[n]);
      }
      assert welcome[..|welcome|] == welcome;
      connected := true;
    }
  }
}
