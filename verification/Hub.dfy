/**
 remote/hub.go: the server's table of handles for one location, the tombstones and the finished
 marks, changed by attach, finish, expiry and close.

 A handle's buffers are kept in the table as the values their classes are proved against; a handle
 dropped from the table stays reachable for the reader that still holds it (`dropped`).
 */
module Hubs {
  import opened Outboxes
  import opened Wrappers
  import opened Ends
  import P = Protocol

  type StreamId = nat

  /** How long a finished mark is kept, in seconds. */
  const FINISHED_RETENTION := 3600

  /** What a message says of one stream: a hello's entry, and a welcome's. */
  datatype About<V> = About(id: StreamId, value: V)
  type Entry = About<StreamInfo>
  type Reply = About<Answer>

  /** Hello and welcome name each stream once: a hello is made from a table. */
  ghost predicate Distinct<V>(list: seq<About<V>>) {
    forall i, j :: 0 <= i < j < |list| ==> list[i].id != list[j].id
  }

  ghost function Find<V>(list: seq<About<V>>, id: StreamId): Option<V> {
    if list == [] then None
    else if list[|list| - 1].id == id then Some(list[|list| - 1].value)
    else Find(list[..|list| - 1], id)
  }

  lemma {:induction false} FindPrefix<V>(list: seq<About<V>>, n: nat, id: StreamId)
    requires Distinct(list) && n <= |list|
    ensures n < |list| ==> Find(list, list[n].id) == Some(list[n].value) && Find(list[..n], list[n].id) == None
    ensures Find(list[..n], id).Some? ==> Find(list, id) == Find(list[..n], id)
    ensures Find(list[..n], id).Some? <==> exists i :: 0 <= i < n && list[i].id == id
    decreases |list|
  {
    if list != [] {
      var last := |list| - 1;
      var front := list[..last];
      if n <= last {
        assert list[..n] == front[..n];
        FindPrefix(front, n, id);
        if n == last {
          FindPrefix(front, last, list[last].id);
          assert front[..last] == front;
        }
      } else {
        assert list[..n] == list;
        FindPrefix(front, last, id);
        assert front[..last] == front;
      }
    }
  }

  /** markFinished on the marks alone: marks past the retention go, then the new one is set. */
  function Marked(marks: map<StreamId, int>, id: StreamId, now: int): map<StreamId, int> {
    (map k | k in marks && now - marks[k] <= FINISHED_RETENTION :: marks[k])[id := now]
  }

  datatype Finishing = Finishing(id: StreamId, at: int)

  function MarkedAll(marks: map<StreamId, int>, events: seq<Finishing>): map<StreamId, int> {
    if events == [] then marks
    else Marked(MarkedAll(marks, events[..|events| - 1]), events[|events| - 1].id, events[|events| - 1].at)
  }

  /** Whatever finishes in between, in whatever order: a mark lasts out its retention. */
  lemma {:induction false} MarkLasts(marks: map<StreamId, int>, id: StreamId, events: seq<Finishing>)
    requires id in marks
    requires forall e :: e in events ==> marks[id] <= e.at <= marks[id] + FINISHED_RETENTION
    ensures id in MarkedAll(marks, events) && MarkedAll(marks, events)[id] >= marks[id]
    decreases |events|
  {
    if events != [] {
      MarkLasts(marks, id, events[..|events| - 1]);
      assert events[|events| - 1] in events;
    }
  }

  /** And none outlives it: after any finish the marks left are no older than the retention. */
  lemma MarksAreFresh(marks: map<StreamId, int>, events: seq<Finishing>)
    requires events != []
    ensures var now := events[|events| - 1].at;
            && (forall k :: k in MarkedAll(marks, events) ==> now - MarkedAll(marks, events)[k] <= FINISHED_RETENTION)
            && events[|events| - 1].id in MarkedAll(marks, events)
            && MarkedAll(marks, events)[events[|events| - 1].id] == now
  {
  }

  class Location {
    var handles: map<StreamId, HubEnd>
    var dropped: map<StreamId, HubEnd>
    var tombstones: set<StreamId>
    var finished: map<StreamId, int>
    /** The welcome has been sent: data may flow. */
    var ready: bool
    const limit: int

    ghost predicate Valid()
      reads this
    {
      && handles.Keys !! dropped.Keys && handles.Keys !! finished.Keys
      && (forall id :: id in handles ==> handles[id].listed && handles[id].stdin.base <= |handles[id].stdin.all|)
      && (forall id :: id in dropped ==> !dropped[id].listed && dropped[id].stdin.base <= |dropped[id].stdin.all|)
    }

    /** All the location knows of one stream. */
    ghost function Side(id: StreamId): HubSide
      reads this
    {
      HubSide(
        if id in handles then Some(handles[id]) else if id in dropped then Some(dropped[id]) else None,
        id in tombstones, id in finished)
    }

    /** The finished mark of `id`, if any, is not due for removal at `now`. */
    ghost predicate Unexpired(id: StreamId, now: int)
      reads this
    {
      id in finished ==> now - finished[id] <= FINISHED_RETENTION
    }

    /** The stream of handle `e` has left the table: marked, closed both ways, its reader left what was received. */
    ghost predicate LetGo(id: StreamId, e: HubEnd)
      reads this
    {
      && id !in handles && id in finished && id in dropped && dropped[id].Closed()
      && dropped[id].stdout == e.stdout.(eof := true)
    }

    constructor (limit: int)
      ensures Valid() && !ready && this.limit == limit
      ensures forall id :: Side(id) == NewEnd()
    {
      handles, dropped, tombstones, finished := map[], map[], {}, map[];
      this.limit, ready := limit, false;
    }

    method MarkFinished(id: StreamId, now: int)
      requires Valid() && id !in handles
      modifies this`finished
      ensures Valid() && finished == Marked(old(finished), id, now)
    {
      var todo := finished.Keys;
      ghost var before := finished;
      while todo != {}
        invariant todo <= before.Keys
        invariant forall k :: k in finished <==> k in before && (k in todo || now - before[k] <= FINISHED_RETENTION)
        invariant forall k :: k in finished ==> finished[k] == before[k]
        decreases todo
      {
        var k :| k in todo;
        todo := todo - {k};
        if now - finished[k] > FINISHED_RETENTION {
          finished := finished - {k};
        }
      }
      finished := finished[id := now];
    }

    method DropHandle(id: StreamId, e: HubEnd)
      requires Valid() && id in handles && e.stdin.base <= |e.stdin.all|
      modifies this`handles, this`dropped
      ensures Valid() && handles.Keys == old(handles.Keys) - {id}
      ensures Side(id) == old(Side(id)).(end := Some(e.(listed := false)))
      ensures forall j :: j != id ==> Side(j) == old(Side(j))
    {
      handles, dropped := handles - {id}, dropped[id := e.(listed := false)];
    }

    /** handle.finish */
    method FinishHandle(id: StreamId, now: int)
      requires Valid() && id in handles
      modifies this
      ensures Valid() && ready == old(ready)
      ensures Side(id) == Finish(old(Side(id))) && Unexpired(id, now) && LetGo(id, old(handles[id]))
      ensures forall j :: j != id && old(Unexpired(j, now)) ==> Side(j) == old(Side(j)) && Unexpired(j, now)
      ensures handles.Keys == old(handles.Keys) - {id}
    {
      var e := handles[id];
      DropHandle(id, e.(stdout := e.stdout.CloseWrite(), stdin := e.stdin.CloseWrite()));
      MarkFinished(id, now);
    }

    /** handle.Close, when the agent cannot be told: the stream is given up. */
    method CloseAway(id: StreamId, now: int)
      requires Valid() && id in handles
      modifies this
      ensures Valid() && ready == old(ready)
      ensures Side(id) == GiveUp(old(Side(id))) && LetGo(id, old(handles[id])) && id in tombstones
      ensures forall j :: j != id && old(Unexpired(j, now)) ==> Side(j) == old(Side(j))
    {
      tombstones := tombstones + {id};
      FinishHandle(id, now);
    }

    /** handle.Detach: the server lets go of the stream, and does not mark it in any way. */
    method Detach(id: StreamId)
      requires Valid() && id in handles
      modifies this`handles, this`dropped
      ensures Valid() && handles.Keys == old(handles.Keys) - {id}
      ensures var e := old(handles[id]);
              Side(id) == old(Side(id)).(end := Some(e.(stdout := e.stdout.CloseWrite(), listed := false)))
      ensures forall j :: j != id ==> Side(j) == old(Side(j))
    {
      var e := handles[id];
      DropHandle(id, e.(stdout := e.stdout.CloseWrite()));
    }

    /**
     The read loop, for one message of one stream: it does to the table what the protocol does to the
     stream. `inSync` is false when the connection has to be dropped; `forget` asks for a reply.
     */
    method Take(id: StreamId, m: P.Msg, ghost t: P.Stream) returns (inSync: bool, forget: bool)
      requires Valid() && P.Ready(t) && t.hub == Side(id)
      modifies this`handles, this`dropped
      ensures Valid() && Side(id) == P.HubTakes(t, m).hub
      ensures inSync ==> P.HubTakes(t, m) == t.(hub := Side(id), forgetDue := t.forgetDue || forget)
      ensures !inSync ==> P.HubTakes(t, m) == P.Dropped(t)
      ensures forget <==> m.Exit?
      ensures forall j :: j != id ==> Side(j) == old(Side(j))
    {
      inSync, forget := true, m.Exit?;
      if id !in handles {
        P.HubTakesUnknown(t, m);
        return;
      }
      var e := handles[id];
      P.HubTakesKnown(t, m);
      if m.Data? {
        var (b, res) := e.stdout.Accept(m.off, m.bytes);
        if res.Gap? {
          return false, false;
        }
        KeepHandle(id, e.(stdout := b));
      } else if m.Ack? {
        AckKeepsBase(e.stdin, m.upTo);
        KeepHandle(id, e.(stdin := e.stdin.Ack(m.upTo)));
      } else if m.Exit? {
        KeepHandle(id, e.(stdout := e.stdout.CloseWrite(), exitSeen := true));
      } else if m.Spawned? {
        KeepHandle(id, e.(starting := false));
      } else if m.SpawnFailed? && e.starting {
        DropHandle(id, e);
      }
    }

    method KeepHandle(id: StreamId, e: HubEnd)
      requires Valid() && id in handles && e.listed && e.stdin.base <= |e.stdin.all|
      modifies this`handles
      ensures Valid() && handles.Keys == old(handles.Keys)
      ensures Side(id) == old(Side(id)).(end := Some(e))
      ensures forall j :: j != id ==> Side(j) == old(Side(j))
    {
      handles := handles[id := e];
    }

    /** expire: everything of a location that stayed away is given up, and tombstoned. */
    method Expire(now: int)
      requires Valid()
      modifies this
      ensures Valid() && handles == map[]
      ensures forall id :: id in old(handles) ==> LetGo(id, old(handles[id])) && id in tombstones
      ensures forall id :: old(Unexpired(id, now)) ==>
                Side(id) == if old(Side(id)).Known() then GiveUp(old(Side(id))) else old(Side(id))
    {
      var lost := handles.Keys;
      tombstones := tombstones + lost;
      FinishAll(lost, now);
      assert handles.Keys == {};
    }

    /** Finishes every handle of a set, one by one. */
    method FinishAll(lost: set<StreamId>, now: int)
      requires Valid() && lost <= handles.Keys
      modifies this
      ensures Valid() && ready == old(ready)
      ensures forall id :: old(Unexpired(id, now)) ==>
                Side(id) == (if id in lost then Finish(old(Side(id))) else old(Side(id))) && Unexpired(id, now)
      ensures handles.Keys == old(handles.Keys) - lost
      ensures forall id :: id in lost ==> LetGo(id, old(handles[id]))
    {
      var todo := lost;
      while todo != {}
        invariant Valid() && ready == old(ready) && todo <= lost
        invariant handles.Keys == old(handles.Keys) - (lost - todo)
        invariant forall id :: old(Unexpired(id, now)) ==>
                    && Side(id) == (if id in lost && id !in todo then Finish(old(Side(id))) else old(Side(id)))
                    && Unexpired(id, now)
        decreases todo
      {
        var id :| id in todo;
        FinishHandle(id, now);
        todo := todo - {id};
      }
    }

    /** attach, for one entry of the hello. */
    method AttachOne(id: StreamId, i: StreamInfo, adoptOk: bool, now: int) returns (answer: Answer)
      requires Valid()
      modifies this
      ensures Valid() && ready == old(ready)
      ensures handles.Keys <= old(handles.Keys) + if adoptOk then {id} else {}
      ensures id !in old(handles) && !adoptOk ==> answer == Kill
      ensures id in old(handles) && id !in handles ==> LetGo(id, old(handles[id]))
      ensures old(Unexpired(id, now)) ==>
                (Side(id), Some(answer)) == AttachSide(old(Side(id)), Some(i), adoptOk, limit) && Unexpired(id, now)
      ensures forall j :: j != id && old(Unexpired(j, now)) ==> Side(j) == old(Side(j)) && Unexpired(j, now)
    {
      var tomb := id in tombstones;
      tombstones := tombstones - {id};
      if id in handles {
        var e := handles[id];
        var (w, res) := e.stdin.Rewind(|i.received|);
        if res != Rewound {
          FinishHandle(id, now);
          return Kill;
        }
        KeepHandle(id, e.(stdin := w));
        return Resume(e.stdout.Next());
      } else if tomb {
        return Kill;
      } else if id in finished {
        return Kill;
      } else if i.exited {
        return Kill;
      }
      if !adoptOk {
        return Kill;
      }
      AddHandle(id, Adopted(i, limit));
      return Resume(i.outAcked);
    }

    method AddHandle(id: StreamId, e: HubEnd)
      requires Valid() && id !in handles && id !in finished && e.listed && e.stdin.base <= |e.stdin.all|
      modifies this`handles, this`dropped
      ensures Valid() && handles.Keys == old(handles.Keys) + {id}
      ensures Side(id) == old(Side(id)).(end := Some(e))
      ensures forall j :: j != id ==> Side(j) == old(Side(j))
    {
      handles, dropped := handles[id := e], dropped - {id};
    }

    /** The loop of attach over the hello. */
    method AnswerAll(hello: seq<Entry>, adopts: StreamId -> bool, now: int)
      returns (welcome: seq<Reply>, seen: set<StreamId>)
      requires Valid() && Distinct(hello)
      modifies this
      ensures Valid()
      ensures |welcome| == |hello| && forall i :: 0 <= i < |hello| ==> welcome[i].id == hello[i].id
      ensures forall i :: 0 <= i < |hello| && old(Unexpired(hello[i].id, now)) ==>
                Some(welcome[i].value) ==
                AttachSide(old(Side(hello[i].id)), Some(hello[i].value), adopts(hello[i].id), limit).1
      ensures forall id :: id in seen <==> Find(hello, id).Some?
      ensures forall id :: id in handles ==> id in old(handles) || adopts(id)
      ensures forall id :: old(Unexpired(id, now)) ==>
                && Unexpired(id, now)
                && Side(id) ==
                   if id in seen then AttachSide(old(Side(id)), Find(hello, id), adopts(id), limit).0
                   else old(Side(id))
    {
      welcome, seen := [], {};
      for n := 0 to |hello|
        invariant Valid() && |welcome| == n
        invariant seen == Ids(hello[..n])
        invariant forall i :: 0 <= i < n ==> welcome[i].id == hello[i].id
        invariant forall id :: id in handles ==> id in old(handles) || adopts(id)
        invariant forall i :: 0 <= i < n && old(Unexpired(hello[i].id, now)) ==>
                    Some(welcome[i].value) ==
                    AttachSide(old(Side(hello[i].id)), Some(hello[i].value), adopts(hello[i].id), limit).1
        invariant forall id :: old(Unexpired(id, now)) ==>
                    && Unexpired(id, now)
                    && Side(id) ==
                       if id in seen then AttachSide(old(Side(id)), Find(hello, id), adopts(id), limit).0
                       else old(Side(id))
      {
        var id := hello[n].id;
        assert Find(hello, id) == Some(hello[n].value) && id !in seen by {
          FindPrefix(hello, n, id);
        }
        var answer := AttachOne(id, hello[n].value, adopts(id), now);
        welcome := welcome + [About(id, answer)];
        seen := seen + {id};
        assert hello[..n + 1] == hello[..n] + [hello[n]];
      }
      assert hello[..|hello|] == hello;
      SeenAll(hello, seen);
    }

    /**
     attach: every stream of the hello is answered once, as its own state says, and handles whose
     stream the hello does not list are finished. (A finished mark past its retention may go while
     the hello is being answered, so the claim is about the streams whose mark, if any, is not.)
     */
    method Attach(hello: seq<Entry>, adopts: StreamId -> bool, now: int) returns (welcome: seq<Reply>)
      requires Valid() && Distinct(hello)
      modifies this
      ensures Valid() && ready
      ensures |welcome| == |hello| && forall i :: 0 <= i < |hello| ==> welcome[i].id == hello[i].id
      ensures forall i :: 0 <= i < |hello| && old(Unexpired(hello[i].id, now)) ==>
                Some(welcome[i].value) ==
                AttachSide(old(Side(hello[i].id)), Some(hello[i].value), adopts(hello[i].id), limit).1
      ensures forall id :: old(Unexpired(id, now)) ==>
                Side(id) == AttachSide(old(Side(id)), Find(hello, id), adopts(id), limit).0
      ensures forall id :: id in handles ==> id in old(handles) || adopts(id)
      ensures forall id :: id in old(handles) && id !in handles ==> LetGo(id, old(handles[id]))
      ensures forall id :: id in handles ==> Find(hello, id).Some?
    {
      var seen;
      welcome, seen := AnswerAll(hello, adopts, now);
      var lost := set id | id in handles && id !in seen;
      FinishAll(lost, now);
      forall id | id in old(handles) && id !in handles
        ensures LetGo(id, old(handles[id]))
      {
        assert old(Unexpired(id, now));
        LetGoByAttach(id, old(Side(id)), Find(hello, id), adopts(id));
      }
      ready := true;
    }

    /** A handle that attach did not keep. */
    lemma LetGoByAttach(id: StreamId, was: HubSide, info: Option<StreamInfo>, adoptOk: bool)
      requires Valid() && was.Known() && was.end.value.stdin.base <= |was.end.value.stdin.all|
      requires id !in handles && Side(id) == AttachSide(was, info, adoptOk, limit).0
      ensures LetGo(id, was.end.value)
    {
    }
  }

  function Ids(hello: seq<Entry>): set<StreamId> {
    set e | e in hello :: e.id
  }

  lemma SeenAll(hello: seq<Entry>, seen: set<StreamId>)
    requires Distinct(hello) && seen == Ids(hello)
    ensures forall id :: id in seen <==> Find(hello, id).Some?
  {
    forall id
      ensures id in seen <==> Find(hello, id).Some?
    {
      FindPrefix(hello, |hello|, id);
      assert hello[..|hello|] == hello;
    }
  }

  lemma AckKeepsBase(w: Window, off: nat)
    requires w.base <= |w.all|
    ensures w.Ack(off).base <= |w.all| && w.Ack(off).all == w.all
  {
  }
}
