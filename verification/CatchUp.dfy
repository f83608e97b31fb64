/** After a reconnect the server catches up: the handshake, the sends and the deliveries give it all of stdout. */
module CatchUps {
  import opened Bytes
  import opened Outboxes
  import opened Ends
  import opened Protocol
  import opened Invariant
  import opened Guarantees

  lemma ExecOne(s: Stream, a: Action, t: Stream, rest: seq<Action>)
    requires Inv(s) && t == Apply(s, a)
    ensures Inv(t) && Exec(s, [a] + rest) == Exec(t, rest)
  {
    ApplyKeeps(s, a);
    assert ([a] + rest)[0] == a && ([a] + rest)[1..] == rest;
  }

  lemma ExecTwo(s: Stream, a: Action, t: Stream, b: Action, u: Stream)
    requires Inv(s) && t == Apply(s, a) && Ready(t) && u == Apply(t, b)
    ensures Inv(u) && Exec(s, [a, b]) == u
  {
    ExecOne(s, a, t, [b]);
    ExecOne(t, b, u, []);
    assert [a] + [b] == [a, b] && [b] + [] == [b];
  }

  lemma OneStep(s: Stream, a: Action)
    requires Inv(s)
    ensures Inv(Apply(s, a)) && Exec(s, [a]) == Apply(s, a)
  {
    ExecOne(s, a, Apply(s, a), []);
    assert [a] + [] == [a];
  }

  lemma TwoSteps(s: Stream, a: Action, b: Action)
    requires Inv(s)
    ensures Inv(Apply(s, a)) && Inv(Apply(Apply(s, a), b)) && Exec(s, [a, b]) == Apply(Apply(s, a), b)
  {
    ApplyKeeps(s, a);
    ExecTwo(s, a, Apply(s, a), b, Apply(Apply(s, a), b));
  }

  lemma {:induction false} ExecConcat(s: Stream, run: seq<Action>, more: seq<Action>)
    requires Inv(s)
    ensures Inv(Exec(s, run)) && Exec(s, run + more) == Exec(Exec(s, run), more)
    decreases |run|
  {
    RunKeeps(s, run);
    if run == [] {
      assert run + more == more;
    } else {
      ApplyKeeps(s, run[0]);
      assert (run + more)[1..] == run[1..] + more;
      ExecConcat(Apply(s, run[0]), run[1..], more);
    }
  }

  /** The stream as it is, but for what a send of stdout changes. */
  ghost predicate Sending(s: Stream, t: Stream) {
    && t.phase == s.phase == Up && t.hub == s.hub && t.stdout == s.stdout && s.agent.Some? && t.agent.Some?
    && t.agent.value == s.agent.value.(stdout := t.agent.value.stdout)
  }

  lemma SendOne(s: Stream)
    requires Inv(s) && s.phase == Up && s.agent.Some?
    ensures var t := Apply(s, SendStdout(Sent));
            && Sending(s, t)
            && s.agent.value.stdout.sent <= t.agent.value.stdout.sent <= |s.stdout|
            && (s.agent.value.stdout.sent < |s.stdout| ==> s.agent.value.stdout.sent < t.agent.value.stdout.sent)
  {
    SendChunkIsSmall(s.agent.value.stdout, s.up, Sent);
  }

  /** As many sends as there are bytes to send are enough, since each but an idle one moves the cursor. */
  lemma {:induction false} SendAll(s: Stream, n: nat)
    requires Inv(s) && s.phase == Up && s.agent.Some? && n >= |s.stdout| - s.agent.value.stdout.sent
    ensures var t := Exec(s, Repeat(SendStdout(Sent), n));
            Inv(t) && Sending(s, t) && t.agent.value.stdout.sent == |s.stdout|
    decreases n
  {
    if n > 0 {
      var a := SendStdout(Sent);
      ApplyKeeps(s, a);
      SendOne(s);
      assert Repeat(a, n)[1..] == Repeat(a, n - 1);
      SendAll(Apply(s, a), n - 1);
    }
  }

  /** Both ends know the stream, and the server's end is still, or later in the life of, the end `e`. */
  ghost predicate Resumed(t: Stream, stdout: seq<byte>, e: HubEnd) {
    && t.phase == Up && t.hub.Known() && t.agent.Some? && t.agent.value.listed && t.stdout == stdout
    && t.hub.end.value.stdout.start == e.stdout.start && (t.hub.end.value.starting ==> e.starting)
  }

  lemma Welcomed(s: Stream)
    requires Inv(s) && s.phase == Down && Hello(s).Some? && DoAttach(s, true).hub.Known()
    ensures Inv(DoAttach(s, true)) && Inv(DoWelcome(DoAttach(s, true)))
    ensures var h := DoAttach(s, true);
            Resumed(DoWelcome(h), s.stdout, h.hub.end.value)
  {
    AttachKeeps(s, true);
    WelcomeKeeps(DoAttach(s, true));
    GreetingAgrees(s, true);
  }

  lemma HandshakeRun(s: Stream)
    requires Inv(s)
    ensures Inv(DoAttach(s, true)) && Exec(s, [Attach(true), Welcome]) == DoWelcome(DoAttach(s, true))
  {
    AttachKeeps(s, true);
    ExecTwo(s, Attach(true), DoAttach(s, true), Welcome, DoWelcome(DoAttach(s, true)));
  }

  lemma Greeted(s: Stream)
    requires Inv(s) && s.phase == Down && Hello(s).Some? && DoAttach(s, true).hub.Known()
    ensures var h, t := DoAttach(s, true), Exec(s, [Attach(true), Welcome]);
            Inv(t) && Resumed(t, s.stdout, h.hub.end.value)
  {
    HandshakeRun(s);
    Welcomed(s);
  }

  lemma Delivered(s: Stream, e: HubEnd)
    requires Inv(s) && Resumed(s, s.stdout, e) && s.agent.value.stdout.sent == |s.stdout|
    ensures var t := Exec(s, Repeat(DeliverUp, |s.up|));
            && Inv(t) && Resumed(t, s.stdout, e) && t.hub.end.value.stdout.got == s.stdout[e.stdout.start..]
  {
    DeliverAllUp(s);
    SentIsOnItsWay(s);
    RunKeeps(s, Repeat(DeliverUp, |s.up|));
    HasAll(Exec(s, Repeat(DeliverUp, |s.up|)));
  }

  lemma HasAll(s: Stream)
    requires HubOk(s) && s.hub.end.Some? && s.hub.end.value.stdout.Next() == |s.stdout|
    ensures s.hub.end.value.stdout.got == s.stdout[s.hub.end.value.stdout.start..]
  {
  }

  lemma SentOut(s: Stream, e: HubEnd)
    requires Inv(s) && Resumed(s, s.stdout, e)
    ensures var t := Exec(s, Repeat(SendStdout(Sent), |s.stdout|));
            Inv(t) && Resumed(t, s.stdout, e) && t.agent.value.stdout.sent == |s.stdout|
  {
    SendAll(s, |s.stdout|);
  }

  /**
   From any state with the connection down and a stream that the agent lists and the server holds or adopts:
   the handshake, as many sends as there are bytes, and the delivery of what is in flight then leave the server
   with exactly the process's stdout from where its end begins.
   */
  lemma CatchesUp(s: Stream) returns (run: seq<Action>, frames: nat)
    requires Inv(s) && s.phase == Down && Hello(s).Some? && DoAttach(s, true).hub.Known()
    ensures run == [Attach(true), Welcome] + Repeat(SendStdout(Sent), |s.stdout|) + Repeat(DeliverUp, frames)
    ensures var t, e := Exec(s, run), DoAttach(s, true).hub.end.value;
            Inv(t) && Resumed(t, s.stdout, e) && t.hub.end.value.stdout.got == s.stdout[e.stdout.start..]
  {
    var hand, sends := [Attach(true), Welcome], Repeat(SendStdout(Sent), |s.stdout|);
    var e := DoAttach(s, true).hub.end.value;
    Greeted(s);
    SentOut(Exec(s, hand), e);
    var u := Exec(Exec(s, hand), sends);
    frames := |u.up|;
    Delivered(u, e);
    ExecConcat(s, hand, sends);
    ExecConcat(s, hand + sends, Repeat(DeliverUp, frames));
    run := hand + sends + Repeat(DeliverUp, frames);
  }

  // ---- stdin ----

  /**
   What is written joins the stream to be sent, whole and at its end, when the end is open and has room; otherwise
   nothing changes.
   */
  lemma WritesJoin(s: Stream, p: seq<byte>)
    requires Inv(s)
    ensures s.hub.end.Some? && !s.hub.end.value.starting ==>
              var w := s.hub.end.value.stdin;
              Apply(s, StdinWrite(p)) ==
              if !w.eof && |w.all| - w.base + |p| <= w.limit then
                SetEnd(s, s.hub.end.value.(stdin := w.(all := w.all + p)))
              else s
    ensures s.agent.Some? && !s.agent.value.exited ==>
              var w := s.agent.value.stdout;
              Apply(s, StdoutWrite(p)).stdout == s.stdout + if |w.all| - w.base + |p| <= w.limit then p else []
  {
  }

  /** The stream as it is, but for what a send of stdin changes. */
  ghost predicate SendingDown(s: Stream, t: Stream) {
    && t.phase == s.phase == Up && t.agent == s.agent && t.answer == s.answer && s.hub.end.Some? && t.hub.end.Some?
    && t.hub.end.value == s.hub.end.value.(stdin := s.hub.end.value.stdin.(sent := t.hub.end.value.stdin.sent))
    && (Forget in t.down ==> Forget in s.down)
  }

  lemma SendOneDown(s: Stream)
    requires Inv(s) && s.phase == Up && s.hub.end.Some?
    ensures var t, w := Apply(s, SendStdin(Sent)), s.hub.end.value.stdin;
            && SendingDown(s, t) && w.sent <= t.hub.end.value.stdin.sent <= |w.all|
            && (w.sent < |w.all| ==> w.sent < t.hub.end.value.stdin.sent)
  {
    SendChunkIsSmall(s.hub.end.value.stdin, s.down, Sent);
  }

  lemma {:induction false} SendAllDown(s: Stream, n: nat)
    requires Inv(s) && s.phase == Up && s.hub.end.Some?
    requires n >= |s.hub.end.value.stdin.all| - s.hub.end.value.stdin.sent
    ensures var t := Exec(s, Repeat(SendStdin(Sent), n));
            Inv(t) && SendingDown(s, t) && t.hub.end.value.stdin.sent == |s.hub.end.value.stdin.all|
    decreases n
  {
    if n > 0 {
      var a := SendStdin(Sent);
      ApplyKeeps(s, a);
      SendOneDown(s);
      assert Repeat(a, n)[1..] == Repeat(a, n - 1);
      SendAllDown(Apply(s, a), n - 1);
    }
  }

  /** Both ends know the stream, the server's to write `stdin`, and no forget is in flight. */
  ghost predicate Writing(t: Stream, stdin: seq<byte>) {
    && t.phase == Up && t.hub.end.Some? && t.agent.Some? && t.agent.value.listed
    && t.hub.end.value.stdin.all == stdin && Forget !in t.down
  }

  lemma AttachIsQuiet(s: Stream)
    requires Inv(s) && s.phase == Down && Hello(s).Some? && DoAttach(s, true).hub.Known()
    ensures DoAttach(s, true).down == []
  {
  }

  lemma GreetedWriting(s: Stream)
    requires Inv(s) && s.phase == Down && Hello(s).Some? && DoAttach(s, true).hub.Known()
    ensures var t := Exec(s, [Attach(true), Welcome]);
            Inv(t) && Writing(t, DoAttach(s, true).hub.end.value.stdin.all)
  {
    Greeted(s);
    HandshakeRun(s);
    AttachIsQuiet(s);
  }

  lemma StdinSentOut(s: Stream, stdin: seq<byte>)
    requires Inv(s) && Writing(s, stdin)
    ensures var t := Exec(s, Repeat(SendStdin(Sent), |stdin|));
            Inv(t) && Writing(t, stdin) && t.hub.end.value.stdin.sent == |stdin|
  {
    SendAllDown(s, |stdin|);
  }

  lemma StdinDelivered(s: Stream, stdin: seq<byte>)
    requires Inv(s) && Writing(s, stdin) && s.hub.end.value.stdin.sent == |stdin|
    ensures var t := Exec(s, Repeat(DeliverDown, |s.down|));
            Inv(t) && t.agent.Some? && t.agent.value.listed && t.agent.value.stdin.got == stdin
  {
    assert DownTies(s);
    DeliverAllDown(s);
    SentIsOnItsWay(s);
    RunKeeps(s, Repeat(DeliverDown, |s.down|));
    StdinHasAll(Exec(s, Repeat(DeliverDown, |s.down|)));
  }

  lemma StdinHasAll(s: Stream)
    requires AgentOk(s) && StdinOk(s) && s.hub.end.Some? && s.agent.Some?
    requires s.agent.value.stdin.Next() == |s.hub.end.value.stdin.all|
    ensures s.agent.value.stdin.got == s.hub.end.value.stdin.all
  {
  }

  /** The other way: the same handshake, the sends and the deliveries leave the agent with all of the server's stdin. */
  lemma StdinCatchesUp(s: Stream) returns (run: seq<Action>, frames: nat)
    requires Inv(s) && s.phase == Down && Hello(s).Some? && DoAttach(s, true).hub.Known()
    ensures var stdin := DoAttach(s, true).hub.end.value.stdin.all;
            && run == ([Attach(true), Welcome] + Repeat(SendStdin(Sent), |stdin|)) + Repeat(DeliverDown, frames)
            && var t := Exec(s, run);
            Inv(t) && t.agent.Some? && t.agent.value.listed && t.agent.value.stdin.got == stdin
  {
    var stdin := DoAttach(s, true).hub.end.value.stdin.all;
    var hand, sends := [Attach(true), Welcome], Repeat(SendStdin(Sent), |stdin|);
    GreetedWriting(s);
    StdinSentOut(Exec(s, hand), stdin);
    var u := Exec(Exec(s, hand), sends);
    frames := |u.down|;
    StdinDelivered(u, stdin);
    ExecConcat(s, hand, sends);
    ExecConcat(s, hand + sends, Repeat(DeliverDown, frames));
    run := (hand + sends) + Repeat(DeliverDown, frames);
  }

  // ---- acks ----

  /** What the sender still keeps holds no complete line before `off`. */
  ghost predicate TrimmedTo(w: Window, off: nat) {
    off <= |w.all| && forall k :: w.base <= k < off ==> w.all[k] != NEWLINE
  }

  lemma AckReachesAgent(s: Stream, off: nat)
    requires Inv(s) && s.phase == Up && DownTies(s) && s.down == [Ack(off)]
    ensures var t := Apply(s, DeliverDown);
            Inv(t) && t.hub == s.hub && t.agent.Some? && TrimmedTo(t.agent.value.stdout, off)
  {
    ApplyKeeps(s, DeliverDown);
    assert s.down[0] in s.down;
    AckTrims(s.agent.value.stdout, off);
  }

  lemma ReadQueuesAck(s: Stream, n: nat, t: Stream)
    requires Ready(s) && s.phase == Up && DownTies(s) && s.down == [] && !s.hub.end.value.starting
    requires s.hub.end.value.stdout.read < s.hub.end.value.stdout.kept
    requires t == Apply(s, HubRead(n)) && Ready(t)
    ensures var u, b := Apply(t, SendHubAck(true)), s.hub.end.value.stdout.Read(n).0;
            && u.phase == Up && DownTies(u) && u.down == [Ack(b.Consumed())] && u.hub.end.value.stdout == b
  {
  }

  /** While both ends know the stream, what the server's reader takes makes room in the agent's buffer. */
  lemma ReadIsAcked(s: Stream, n: nat)
    requires Inv(s) && s.phase == Up && DownTies(s) && s.down == [] && !s.hub.end.value.starting
    requires s.hub.end.value.stdout.read < s.hub.end.value.stdout.kept
    ensures var t, b := Exec(s, [HubRead(n), SendHubAck(true)] + [DeliverDown]), s.hub.end.value.stdout.Read(n).0;
            && Inv(t) && t.hub.end.Some? && t.hub.end.value.stdout == b
            && t.agent.Some? && TrimmedTo(t.agent.value.stdout, b.Consumed())
  {
    TwoSteps(s, HubRead(n), SendHubAck(true));
    ReadQueuesAck(s, n, Apply(s, HubRead(n)));
    var u := Apply(Apply(s, HubRead(n)), SendHubAck(true));
    AckReachesAgent(u, u.hub.end.value.stdout.Consumed());
    ExecConcat(s, [HubRead(n), SendHubAck(true)], [DeliverDown]);
    OneStep(u, DeliverDown);
  }

  lemma AckReachesHub(s: Stream, off: nat)
    requires Inv(s) && s.phase == Up && s.hub.Known() && s.up == [Ack(off)]
    ensures var t := Apply(s, DeliverUp);
            Inv(t) && t.agent == s.agent && t.hub.end.Some? && TrimmedTo(t.hub.end.value.stdin, off)
  {
    ApplyKeeps(s, DeliverUp);
    assert s.up[0] in s.up;
    AckTrims(s.hub.end.value.stdin, off);
  }

  lemma StdinReadQueuesAck(s: Stream, n: nat, t: Stream)
    requires Ready(s) && s.phase == Up && s.hub.Known() && s.agent.Some? && s.up == []
    requires s.agent.value.stdin.read < s.agent.value.stdin.kept
    requires t == Apply(s, AgentRead(n)) && Ready(t)
    ensures var u, b := Apply(t, SendAgentAck(true)), s.agent.value.stdin.Read(n).0;
            && u.phase == Up && u.hub.Known() && u.agent.Some? && u.up == [Ack(b.Consumed())]
            && u.agent.value.stdin == b
  {
  }

  /** And what the process takes makes room in the server's. */
  lemma StdinReadIsAcked(s: Stream, n: nat)
    requires Inv(s) && s.phase == Up && s.hub.Known() && s.agent.Some? && s.up == []
    requires s.agent.value.stdin.read < s.agent.value.stdin.kept
    ensures var t, b := Exec(s, [AgentRead(n), SendAgentAck(true)] + [DeliverUp]), s.agent.value.stdin.Read(n).0;
            && Inv(t) && t.agent.Some? && t.agent.value.stdin == b
            && t.hub.end.Some? && TrimmedTo(t.hub.end.value.stdin, b.Consumed())
  {
    TwoSteps(s, AgentRead(n), SendAgentAck(true));
    StdinReadQueuesAck(s, n, Apply(s, AgentRead(n)));
    var u := Apply(Apply(s, AgentRead(n)), SendAgentAck(true));
    AckReachesHub(u, u.agent.value.stdin.Consumed());
    ExecConcat(s, [AgentRead(n), SendAgentAck(true)], [DeliverUp]);
    OneStep(u, DeliverUp);
  }
}
