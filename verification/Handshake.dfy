/**
 The hello/welcome exchange run on the two tables: what hub.go and agent.go do to all streams of a
 location is, stream by stream, what the protocol's Attach and Welcome steps do to one.
 */
module Handshakes {
  import opened Wrappers
  import opened Protocol
  import opened Invariant
  import opened Guarantees
  import opened Hubs
  import opened Agents

  /** `s` is what the protocol knows of stream `id` in the two tables, before a handshake with no spawn pending. */
  ghost predicate Describes(s: Stream, hub: Location, agent: RemoteAgent, id: StreamId, now: int)
    reads hub, agent
  {
    && Inv(s) && s.phase == Down && s.stage != Spawning
    && s.hub == hub.Side(id) && s.agent == agent.End(id) && s.hubLimit == hub.limit
    && hub.Unexpired(id, now)
  }

  lemma ListedMatches(hub: Location, agent: RemoteAgent, id: StreamId)
    requires hub.Valid() && agent.Valid()
    ensures id in hub.handles <==> hub.Side(id).Known()
    ensures id in agent.streams <==> agent.End(id).Some? && agent.End(id).value.listed
  {
  }

  /**
   After the exchange the two tables list the same streams, each stream of the hello was answered
   exactly once, and on every stream, in both directions, the sender's cursor is the peer's receive
   offset. Each table moved, on every stream, by the protocol's own steps.
   */
  method Handshake(hub: Location, agent: RemoteAgent, adopts: StreamId -> bool, now: int,
                   ghost streams: StreamId -> Stream)
    returns (hello: seq<Entry>, welcome: seq<Reply>)
    requires hub.Valid() && agent.Valid()
    requires forall id: StreamId :: Describes(streams(id), hub, agent, id, now)
    modifies hub, agent
    ensures hub.Valid() && agent.Valid() && hub.ready && agent.connected
    ensures Distinct(hello) && Distinct(welcome) && |welcome| == |hello|
    ensures forall i :: 0 <= i < |hello| ==> welcome[i].id == hello[i].id
    ensures forall id: StreamId :: Find(hello, id).Some? <==> id in old(agent.streams)
    ensures hub.handles.Keys == agent.streams.Keys
    ensures forall id :: id in hub.handles ==>
              && hub.handles[id].stdin.sent == agent.streams[id].stdin.Next()
              && agent.streams[id].stdout.sent == hub.handles[id].stdout.Next()
    ensures forall id: StreamId ::
              && Ready(streams(id)) && Ready(DoAttach(streams(id), adopts(id)))
              && hub.Side(id) == DoAttach(streams(id), adopts(id)).hub
              && agent.End(id) == DoWelcome(DoAttach(streams(id), adopts(id))).agent
  {
    hello := agent.Hello();
    label before:
    welcome := hub.Attach(hello, adopts, now);
    forall id: StreamId
      ensures hub.Side(id) == DoAttach(streams(id), adopts(id)).hub
      ensures Find(welcome, id) == DoAttach(streams(id), adopts(id)).answer
      ensures agent.End(id) == streams(id).agent
    {
      assert old@before(Describes(streams(id), hub, agent, id, now));
      AnswersInOrder(hello, welcome, id);
      if Find(hello, id).Some? {
        InfoAt(hello, id);
      }
    }
    agent.Welcome(welcome);
    forall id: StreamId
      ensures Inv(streams(id)) && Ready(DoAttach(streams(id), adopts(id)))
      ensures agent.End(id) == DoWelcome(DoAttach(streams(id), adopts(id))).agent
    {
      assert old@before(Describes(streams(id), hub, agent, id, now));
      AttachKeeps(streams(id), adopts(id));
    }
    forall id: StreamId
      ensures id in hub.handles <==> id in agent.streams
      ensures id in hub.handles ==>
                && hub.handles[id].stdin.sent == agent.streams[id].stdin.Next()
                && agent.streams[id].stdout.sent == hub.handles[id].stdout.Next()
    {
      assert old@before(Describes(streams(id), hub, agent, id, now));
      GreetingAgrees(streams(id), adopts(id));
      ListedMatches(hub, agent, id);
    }
  }

  /** A welcome that follows the hello entry by entry answers exactly what the hello lists. */
  lemma AnswersInOrder(hello: seq<Entry>, welcome: seq<Reply>, id: StreamId)
    requires Distinct(hello) && |welcome| == |hello|
    requires forall i :: 0 <= i < |hello| ==> welcome[i].id == hello[i].id
    ensures Distinct(welcome)
    ensures Find(welcome, id).Some? <==> Find(hello, id).Some?
    ensures forall i :: 0 <= i < |hello| && hello[i].id == id ==>
              Find(hello, id) == Some(hello[i].value) && Find(welcome, id) == Some(welcome[i].value)
  {
    assert hello[..|hello|] == hello && welcome[..|welcome|] == welcome;
    FindPrefix(hello, |hello|, id);
    FindPrefix(welcome, |welcome|, id);
    forall i | 0 <= i < |hello| && hello[i].id == id
      ensures Find(hello, id) == Some(hello[i].value) && Find(welcome, id) == Some(welcome[i].value)
    {
      FindPrefix(hello, i, id);
      FindPrefix(welcome, i, id);
    }
  }

  lemma InfoAt(hello: seq<Entry>, id: StreamId)
    requires Distinct(hello) && Find(hello, id).Some?
    ensures exists i :: 0 <= i < |hello| && hello[i].id == id
  {
    assert hello[..|hello|] == hello;
    FindPrefix(hello, |hello|, id);
  }
}
