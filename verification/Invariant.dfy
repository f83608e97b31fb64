/** The invariant of the stream protocol, and that every step keeps it. */
module Invariant {
  import opened Bytes
  import opened Outboxes
  import opened Inbufs
  import opened Wrappers
  import opened Ends
  import opened Protocol
  import opened Wires

  /** How much of stdout the servers up to the k-th held. */
  function HeldBefore(served: seq<Session>): nat {
    if served == [] then 0 else served[|served| - 1].held
  }

  /** How much of stdout the latest server holds or held. */
  function LastHeld(s: Stream): nat {
    if s.hub.end.Some? then s.hub.end.value.stdout.Next() else HeldBefore(s.served)
  }

  /** A stream's life, and how little there is before its process runs. */
  ghost predicate StageOk(s: Stream) {
    && (s.stage == Started <==> s.agent.Some?)
    && (s.agent.None? ==> NoTraffic(s.up))
    && (s.agent.Some? ==> SpawnFailed !in s.up)
    && (s.stage == Unused ==> s.hub == NewEnd() && s.served == [])
    && (s.stage in {Unused, Requested, Spawning} ==> s.stdout == [] && s.up == [] && NoTraffic(s.down))
    && (s.stage in {Requested, Spawning} && s.hub.end.Some? ==>
          s.hub.end.value.starting && s.hub.end.value.stdout.got == [] && !s.hub.end.value.exitSeen)
    && (s.hub.end.Some? && s.hub.end.value.starting ==>
          && s.hub.end.value.stdin.all == [] && s.hub.end.value.ownFrom == 0
          && s.hub.end.value.stdout.start == 0 && s.hub.end.value.stdout.read == 0)
  }

  /** The server's end by itself and against everything the process wrote. */
  ghost predicate HubOk(s: Stream) {
    s.hub.end.Some? ==>
      var e := s.hub.end.value;
      && e.stdin.Valid() && Mirrors(e.stdout, s.stdout) && LineStart(s.stdout, e.stdout.start)
      && e.stdin.start <= e.ownFrom <= |e.stdin.all|
      && (LineStart(e.stdin.all, e.ownFrom) || (e.stdin.limit <= 0 && e.ownFrom == |e.stdin.all|))
      && (e.exitSeen ==>
            && e.stdout.eof && e.stdout.Next() == |s.stdout| && e.stdout.kept == |e.stdout.got|
            && (s.agent.Some? ==> s.agent.value.stdout.eof))
      && (e.listed && e.stdout.eof ==> e.exitSeen)
      && (s.hub.finished ==> !e.listed && e.Closed())
      && (!e.listed && !e.starting ==> e.Closed())
  }

  /** The agent's end by itself. */
  ghost predicate AgentOk(s: Stream) {
    s.agent.Some? ==>
      var a := s.agent.value;
      && a.stdout.Valid() && a.stdout.start == 0 && a.stdout.all == s.stdout
      && a.stdin.Valid() && a.stdin.start == 0
      && (a.exited <==> a.stdin.eof) && (a.exited <==> a.stdout.eof)
      && a.stdout.base <= LastHeld(s)
  }

  /** The agent holds a prefix of the server's stdin stream, and the server still has the rest. */
  ghost predicate StdinOk(s: Stream) {
    s.agent.Some? && s.hub.end.Some? ==>
      && Mirrors(s.agent.value.stdin, s.hub.end.value.stdin.all)
      && s.hub.end.value.stdin.base <= s.agent.value.stdin.Next()
  }

  /** Acks never promise more than the reader took. */
  ghost predicate AcksOk(s: Stream) {
    && (s.hubAck.Some? ==> s.hub.end.Some? && s.hubAck.value <= s.hub.end.value.stdout.Consumed())
    && (s.agentAck.Some? ==> s.agent.Some? && s.agentAck.value <= s.agent.value.stdin.Consumed())
    && (forall m :: m in s.down && m.Ack? ==> s.hub.end.Some? && m.upTo <= s.hub.end.value.stdout.Consumed())
    && (forall m :: m in s.up && m.Ack? ==> s.agent.Some? && m.upTo <= s.agent.value.stdin.Consumed())
  }

  /** What the phase says about the queues and the welcome in flight. */
  ghost predicate PhaseOk(s: Stream) {
    && (s.phase == Down ==> s.down == [] && s.hubAck.None? && !s.forgetDue && s.stage != Requested)
    && (s.phase != Up ==> s.up == [] && s.agentAck.None? && (s.agent.Some? ==> !s.agent.value.exitSent))
    && (s.phase != Welcoming ==> s.answer.None?)
    && (s.hub.end.None? ==> NoTraffic(s.down))
    && (s.answer.Some? && s.answer.value.Resume? ==>
          && s.hub.end.Some? && s.answer.value.outFrom == s.hub.end.value.stdout.Next()
          && s.agent.Some? && s.agent.value.listed)
    && (s.phase == Welcoming && s.hub.Known() && s.agent.Some? ==> s.answer.Some? && s.answer.value.Resume?)
    && (s.phase == Welcoming && s.stage == Spawning ==> !s.hub.Known())
  }

  /** Agent to server: what is in flight continues what the server holds, up to what was sent. */
  ghost predicate UpOk(s: Stream) {
    s.phase == Up && s.hub.Known() && s.agent.Some? ==>
      && Flows(s.stdout, s.agent.value.stdout.eof, s.hub.end.value.stdout.Next(), s.up)
      && s.agent.value.stdout.sent <= Reach(s.hub.end.value.stdout.Next(), s.up)
      && (s.agent.value.exitSent ==> s.hub.end.value.exitSeen || Exit in s.up)
  }

  /** Server to agent, the same. */
  ghost predicate DownOk(s: Stream) {
    s.phase != Down && s.hub.end.Some? && s.agent.Some? && s.agent.value.listed && s.answer != Some(Kill) ==>
      && Flows(s.hub.end.value.stdin.all, false, s.agent.value.stdin.Next(), s.down)
      && s.hub.end.value.stdin.sent <= Reach(s.agent.value.stdin.Next(), s.down)
  }

  /** Each server began at a line start, no later than what the one before it held. */
  ghost predicate SessionsOk(s: Stream) {
    && (forall k :: 0 <= k < |s.served| ==> SessionOk(s.stdout, s.served, k))
    && (s.hub.end.Some? ==> s.hub.end.value.stdout.start <= HeldBefore(s.served))
  }

  ghost predicate SessionOk(stdout: seq<byte>, served: seq<Session>, k: nat)
    requires k < |served|
  {
    && served[k].from <= served[k].to <= served[k].held <= |stdout|
    && LineStart(stdout, served[k].from)
    && served[k].from <= (if k == 0 then 0 else served[k - 1].held)
  }

  ghost predicate Inv(s: Stream) {
    Shape(s) && Contents(s) && Links(s)
  }

  ghost predicate Shape(s: Stream) {
    StageOk(s) && PhaseOk(s) && AcksOk(s)
  }

  ghost predicate Contents(s: Stream) {
    HubOk(s) && AgentOk(s) && StdinOk(s) && SessionsOk(s)
  }

  ghost predicate Links(s: Stream) {
    UpOk(s) && DownOk(s)
  }

  // ---- connection steps ----

  lemma DroppedKeeps(s: Stream)
    requires Inv(s)
    ensures Inv(Dropped(s))
  {
  }

  lemma RetiredOk(s: Stream)
    requires HubOk(s) && SessionsOk(s)
    ensures forall k :: 0 <= k < |Retired(s)| ==> SessionOk(s.stdout, Retired(s), k)
    ensures HeldBefore(Retired(s)) == LastHeld(s)
  {
    forall k | 0 <= k < |Retired(s)|
      ensures SessionOk(s.stdout, Retired(s), k)
    {
      if k < |s.served| {
        assert SessionOk(s.stdout, s.served, k);
      } else {
        assert k == 0 || Retired(s)[k - 1] == s.served[k - 1];
      }
    }
  }

  lemma ServerRestartKeeps(s: Stream, limit: int)
    requires Inv(s)
    ensures Inv(DoServerRestart(s, limit))
  {
    DroppedKeeps(s);
    RetiredOk(s);
  }

  lemma AgentRestartKeeps(s: Stream)
    requires Inv(s)
    ensures Inv(DoAgentRestart(s))
  {
    DroppedKeeps(s);
  }

  lemma MarkExpiresKeeps(s: Stream)
    requires Inv(s)
    ensures Inv(DoMarkExpires(s))
  {
  }

  /** attach, when the server holds the stream's handle. */
  lemma AttachKnownKeeps(s: Stream, adoptOk: bool)
    requires Inv(s) && s.phase == Down && s.hub.Known()
    ensures Inv(DoAttach(s, adoptOk))
  {
    if s.agent.Some? && s.agent.value.listed {
      RewindPositions(s.hub.end.value.stdin, s.agent.value.stdin.Next());
    }
  }

  /** A server that adopts: its stdin continues what the process has, on a line of its own. */
  lemma AdoptedContinues(a: AgentEnd, limit: int)
    requires a.stdin.Valid() && a.stdin.start == 0
    ensures var e := Adopted(Report(a), limit);
            && e.stdin.Valid() && a.stdin.got <= e.stdin.all
            && e.stdin.start == e.stdin.base == e.stdin.sent == a.stdin.Next()
            && e.ownFrom == |e.stdin.all|
            && (LineStart(e.stdin.all, e.ownFrom) || limit <= 0)
            && e.stdin.all == a.stdin.got + (if a.stdin.LineEnd() || limit <= 0 then [] else [NEWLINE])
  {
  }

  /** attach, when the server does not hold the stream's handle. */
  lemma AttachUnknownKeeps(s: Stream, adoptOk: bool)
    requires Inv(s) && s.phase == Down && !s.hub.Known()
    ensures Inv(DoAttach(s, adoptOk))
  {
    RetiredOk(s);
    var t := DoAttach(s, adoptOk);
    if t.answer.Some? && t.answer.value.Resume? {
      AdoptedContinues(s.agent.value, s.hubLimit);
      AdoptKeeps(s);
    }
  }

  lemma AdoptKeeps(s: Stream)
    requires Inv(s) && s.phase == Down && !s.hub.Known() && s.agent.Some? && s.agent.value.listed
    requires !s.hub.tomb && !s.hub.finished && !s.agent.value.exited
    ensures Inv(DoAttach(s, true))
  {
    var a := s.agent.value;
    RetiredOk(s);
    AdoptedContinues(a, s.hubLimit);
    var e, t := Adopted(Report(a), s.hubLimit), DoAttach(s, true);
    assert t.hub.end == Some(e) && t.answer == Some(Resume(a.stdout.base)) && t.agent == s.agent;
    assert Mirrors(e.stdout, s.stdout);
    assert Mirrors(a.stdin, e.stdin.all);
  }

  lemma AttachKeeps(s: Stream, adoptOk: bool)
    requires Inv(s)
    ensures Inv(DoAttach(s, adoptOk))
  {
    if s.phase == Down {
      if s.hub.Known() {
        AttachKnownKeeps(s, adoptOk);
      } else {
        AttachUnknownKeeps(s, adoptOk);
      }
    }
  }

  lemma WelcomeShape(s: Stream)
    requires Shape(s) && AgentOk(s)
    ensures Shape(DoWelcome(s))
  {
  }

  /** The welcome finds the agent's window where it can resume, and only moves its cursor and its base. */
  lemma WelcomeAgent(s: Stream)
    requires PhaseOk(s) && HubOk(s) && AgentOk(s) && s.phase == Welcoming && s.agent.Some?
    ensures var a, b := s.agent.value, DoWelcome(s).agent.value;
            && b == a.(listed := b.listed, stdout := b.stdout) && b.stdout.Valid()
            && b.stdout.all == a.stdout.all && b.stdout.start == 0 && b.stdout.eof == a.stdout.eof
            && b.stdout.base <= LastHeld(s)
            && (s.hub.Known() ==> b.stdout.sent <= s.hub.end.value.stdout.Next())
            && (b.listed ==> a.listed && s.answer != Some(Kill))
  {
    if s.answer.Some? && s.answer.value.Resume? {
      RewindPositions(s.agent.value.stdout, s.answer.value.outFrom);
    }
  }

  lemma WelcomeContents(s: Stream)
    requires PhaseOk(s) && Contents(s)
    ensures Contents(DoWelcome(s))
  {
    if s.phase == Welcoming && s.agent.Some? {
      WelcomeAgent(s);
    }
  }

  lemma WelcomeLinks(s: Stream)
    requires PhaseOk(s) && HubOk(s) && AgentOk(s) && Links(s)
    ensures Links(DoWelcome(s))
  {
    if s.phase == Welcoming && s.agent.Some? {
      WelcomeAgent(s);
    }
  }

  lemma WelcomeKeeps(s: Stream)
    requires Inv(s)
    ensures Inv(DoWelcome(s))
  {
    WelcomeShape(s);
    WelcomeContents(s);
    WelcomeLinks(s);
  }

  // ---- lifecycle steps ----

  lemma HubStartKeeps(s: Stream)
    requires Inv(s)
    ensures Inv(DoHubStart(s))
  {
  }

  lemma StartFailsKeeps(s: Stream)
    requires Inv(s)
    ensures Inv(DoStartFails(s))
  {
  }

  lemma AgentStartKeeps(s: Stream, ok: bool)
    requires Inv(s)
    ensures Inv(DoAgentStart(s, ok))
  {
    if s.stage == Spawning {
      QuietFlows(s.stdout, false, 0, DoAgentStart(s, ok).up);
      if s.hub.end.Some? {
        QuietFlows(s.hub.end.value.stdin.all, false, 0, s.down);
      }
    }
  }

  lemma AgentSpawnFailsKeeps(s: Stream, ok: bool)
    requires Inv(s)
    ensures Inv(DoAgentSpawnFails(s, ok))
  {
  }

  lemma FinishExitKeeps(s: Stream)
    requires Inv(s)
    ensures Inv(DoFinishExit(s))
  {
  }

  lemma HubGiveUpKeeps(s: Stream)
    requires Inv(s)
    ensures Inv(DoHubGiveUp(s))
  {
  }

  // ---- stdout: process to reader ----

  lemma StdoutWriteShape(s: Stream, p: seq<byte>)
    requires Shape(s) && AgentOk(s)
    ensures Shape(DoStdoutWrite(s, p))
  {
  }

  lemma StdoutWriteContents(s: Stream, p: seq<byte>)
    requires StageOk(s) && Contents(s)
    ensures Contents(DoStdoutWrite(s, p))
  {
    if s.agent.Some? && !s.agent.value.exited {
      var v := s.agent.value.stdout.Write(p).0;
      assert forall k :: 0 <= k < |s.served| && SessionOk(s.stdout, s.served, k) ==> SessionOk(v.all, s.served, k);
    }
  }

  lemma StdoutWriteLinks(s: Stream, p: seq<byte>)
    requires StageOk(s) && AgentOk(s) && Links(s)
    ensures Links(DoStdoutWrite(s, p))
  {
    if s.agent.Some? && !s.agent.value.exited && s.phase == Up && s.hub.Known() {
      var w := s.agent.value.stdout;
      var v := w.Write(p).0;
      FlowsGrow(s.stdout, w.eof, v.all, v.eof, s.hub.end.value.stdout.Next(), s.up);
    }
  }

  lemma StdoutWriteKeeps(s: Stream, p: seq<byte>)
    requires Inv(s)
    ensures Inv(DoStdoutWrite(s, p))
  {
    StdoutWriteShape(s, p);
    StdoutWriteContents(s, p);
    StdoutWriteLinks(s, p);
  }

  lemma ProcessExitKeeps(s: Stream)
    requires Inv(s)
    ensures Inv(DoProcessExit(s))
  {
    var t := DoProcessExit(s);
    assert Links(t) by {
      if s.agent.Some? && s.phase == Up && s.hub.Known() {
        FlowsGrow(s.stdout, s.agent.value.stdout.eof, s.stdout, true, s.hub.end.value.stdout.Next(), s.up);
      }
    }
  }

  /** One turn of a send loop only moves `sent`, and adds at most a frame that fits. */
  lemma SendChunkIsSmall(w: Window, wire: seq<Msg>, fate: Fate)
    requires w.Valid()
    ensures var (v, more) := SendChunk(w, wire, fate);
            && v.Valid() && v == w.(sent := v.sent)
            && (forall m :: m in more && !m.Data? ==> m in wire) && (forall m :: m in wire ==> m in more)
            && (w.sent == |w.all| ==> v == w && more == wire)
  {
  }

  lemma SendChunkFlows(w: Window, eof: bool, n: nat, wire: seq<Msg>, fate: Fate)
    requires w.Valid() && Flows(w.all, eof, n, wire) && w.sent <= Reach(n, wire)
    ensures var (v, more) := SendChunk(w, wire, fate);
            Flows(w.all, eof, n, more) && v.sent <= Reach(n, more)
  {
    var c := w.Next(MAX_CHUNK).1;
    FlowsAppend(w.all, eof, n, wire, Data(c.off, c.bytes));
  }

  lemma SendStdoutKeeps(s: Stream, fate: Fate)
    requires Inv(s)
    ensures Inv(DoSendStdout(s, fate))
  {
    if s.agent.Some? && s.phase == Up {
      var a := s.agent.value;
      SendChunkIsSmall(a.stdout, s.up, fate);
      var (w, up) := SendChunk(a.stdout, s.up, fate);
      if s.hub.Known() {
        SendChunkFlows(a.stdout, a.stdout.eof, s.hub.end.value.stdout.Next(), s.up, fate);
      }
      StdoutMoved(s, w, up);
    }
  }

  lemma StdoutMoved(s: Stream, w: Window, up: seq<Msg>)
    requires Inv(s) && s.agent.Some? && s.phase == Up
    requires w.Valid() && w == s.agent.value.stdout.(sent := w.sent)
    requires (forall m :: m in up && !m.Data? ==> m in s.up) && (Exit in s.up ==> Exit in up)
    requires s.hub.Known() ==>
               && Flows(s.stdout, w.eof, s.hub.end.value.stdout.Next(), up)
               && w.sent <= Reach(s.hub.end.value.stdout.Next(), up)
    ensures Inv(SetAgent(s, s.agent.value.(stdout := w)).(up := up))
  {
  }

  lemma SendExitShape(s: Stream, fate: Fate)
    requires Shape(s)
    ensures Shape(DoSendExit(s, fate))
  {
  }

  lemma SendExitContents(s: Stream, fate: Fate)
    requires Contents(s)
    ensures Contents(DoSendExit(s, fate))
  {
  }

  lemma SendExitLinks(s: Stream, fate: Fate)
    requires HubOk(s) && AgentOk(s) && Links(s)
    ensures Links(DoSendExit(s, fate))
  {
    if s.agent.Some? && s.phase == Up && s.hub.Known() && s.agent.value.stdout.Drained() {
      var n := s.hub.end.value.stdout.Next();
      ReachBounds(s.stdout, true, n, s.up);
      FlowsAppend(s.stdout, true, n, s.up, Exit);
    }
  }

  lemma SendExitKeeps(s: Stream, fate: Fate)
    requires Inv(s)
    ensures Inv(DoSendExit(s, fate))
  {
    SendExitShape(s, fate);
    SendExitContents(s, fate);
    SendExitLinks(s, fate);
  }

  /** Once the head `m` of the queue to the server is off it: what it and the rest still promise. */
  ghost predicate UpNext(t: Stream, m: Msg) {
    && t.phase == Up
    && (t.agent.None? ==> !m.Data? && !m.Exit?)
    && (m.Ack? ==> t.agent.Some? && m.upTo <= t.agent.value.stdin.Consumed())
    && (m.SpawnFailed? ==> t.agent.None?)
    && (m.Spawned? || m.SpawnFailed? ==> t.stage !in {Unused, Requested, Spawning})
    && (t.hub.Known() && t.agent.Some? ==>
          var n := t.hub.end.value.stdout.Next();
          && Fits(t.stdout, t.agent.value.stdout.eof, n, m)
          && Flows(t.stdout, t.agent.value.stdout.eof, ReachOne(n, m), t.up)
          && t.agent.value.stdout.sent <= Reach(ReachOne(n, m), t.up)
          && (t.agent.value.exitSent ==> t.hub.end.value.exitSeen || m.Exit? || Exit in t.up))
  }

  lemma UpPopped(s: Stream)
    requires Inv(s) && s.up != []
    ensures var t := s.(up := s.up[1..]);
            Shape(t) && Contents(t) && DownOk(t) && UpNext(t, s.up[0])
  {
    assert s.up[0] in s.up;
  }

  lemma HubTakesData(t: Stream, m: Msg)
    requires Shape(t) && Contents(t) && DownOk(t) && UpNext(t, m) && m.Data?
    ensures Inv(HubTakes(t, m))
  {
    if t.hub.Known() {
      AcceptMirrors(t.hub.end.value.stdout, t.stdout, m.off, m.bytes);
    }
  }

  lemma HubTakesAck(t: Stream, m: Msg)
    requires Shape(t) && Contents(t) && DownOk(t) && UpNext(t, m) && m.Ack?
    ensures Inv(HubTakes(t, m))
  {
    if t.hub.Known() {
      var w := t.hub.end.value.stdin;
      AckTrims(w, m.upTo);
      if DownTies(t) {
        ReachBounds(w.all, false, t.agent.value.stdin.Next(), t.down);
      }
    }
  }

  lemma HubTakesExit(t: Stream, m: Msg)
    requires Shape(t) && Contents(t) && DownOk(t) && UpNext(t, m) && m.Exit?
    ensures Inv(HubTakes(t, m))
  {
  }

  lemma HubTakesSpawned(t: Stream, m: Msg)
    requires Shape(t) && Contents(t) && DownOk(t) && UpNext(t, m) && m.Spawned?
    ensures Inv(HubTakes(t, m))
  {
    SpawnedShape(t, m);
    SpawnedContents(t, m);
  }

  lemma SpawnedContents(t: Stream, m: Msg)
    requires Contents(t) && m.Spawned?
    ensures Contents(HubTakes(t, m))
  {
  }

  lemma SpawnedShape(t: Stream, m: Msg)
    requires Shape(t) && UpNext(t, m) && m.Spawned?
    requires t.hub.end.Some? ==> t.hub.end.value.stdout.Valid() && t.hub.end.value.stdin.Valid()
    ensures Shape(HubTakes(t, m))
  {
  }

  lemma HubTakesSpawnFailed(t: Stream, m: Msg)
    requires Shape(t) && Contents(t) && DownOk(t) && UpNext(t, m) && m.SpawnFailed?
    ensures Inv(HubTakes(t, m))
  {
  }

  lemma HubTakesOther(t: Stream, m: Msg)
    requires Shape(t) && Contents(t) && DownOk(t) && UpNext(t, m) && (m.Forget? || m.Spawn?)
    ensures Inv(HubTakes(t, m))
  {
    assert HubTakes(t, m) == t;
  }

  lemma DeliverUpKeeps(s: Stream)
    requires Inv(s)
    ensures Inv(DoDeliverUp(s))
  {
    if s.up != [] {
      var t, m := s.(up := s.up[1..]), s.up[0];
      UpPopped(s);
      match m
      case Data(_, _) => HubTakesData(t, m);
      case Ack(_) => HubTakesAck(t, m);
      case Exit => HubTakesExit(t, m);
      case Spawned => HubTakesSpawned(t, m);
      case SpawnFailed => HubTakesSpawnFailed(t, m);
      case _ => HubTakesOther(t, m);
    }
  }

  lemma HubReadContents(s: Stream, n: nat)
    requires StageOk(s) && Contents(s)
    ensures Contents(DoHubRead(s, n))
  {
  }

  lemma HubReadKeeps(s: Stream, n: nat)
    requires Inv(s)
    ensures Inv(DoHubRead(s, n))
  {
    HubReadContents(s, n);
  }

  lemma SendHubAckKeeps(s: Stream, ok: bool)
    requires Inv(s)
    ensures Inv(DoSendHubAck(s, ok))
  {
    DownAppendKeeps(s, Ack(if s.hubAck.Some? then s.hubAck.value else 0));
  }

  /** Messages other than frames and exits may join the queue to the agent at any time. */
  lemma DownAppendKeeps(s: Stream, m: Msg)
    requires DownOk(s) && !m.Data? && !m.Exit?
    ensures DownOk(s.(down := s.down + [m]))
  {
    if s.phase != Down && s.hub.end.Some? && s.agent.Some? && s.agent.value.listed && s.answer != Some(Kill) {
      FlowsAppend(s.hub.end.value.stdin.all, false, s.agent.value.stdin.Next(), s.down, m);
    }
  }

  lemma SendForgetKeeps(s: Stream, ok: bool)
    requires Inv(s)
    ensures Inv(DoSendForget(s, ok))
  {
    DownAppendKeeps(s, Forget);
  }

  // ---- stdin: writer to process ----

  lemma StdinWriteKeeps(s: Stream, p: seq<byte>)
    requires Inv(s)
    ensures Inv(DoStdinWrite(s, p))
  {
    if s.hub.end.Some? && !s.hub.end.value.starting {
      StdinGrew(s, s.hub.end.value.stdin.Write(p).0);
    }
  }

  lemma StdinGrew(s: Stream, w: Window)
    requires Inv(s) && s.hub.end.Some? && !s.hub.end.value.starting
    requires var v := s.hub.end.value.stdin;
             w.Valid() && v.all <= w.all && w == v.(all := w.all) && (v.limit <= 0 && v.base == |v.all| ==> w == v)
    ensures Inv(SetEnd(s, s.hub.end.value.(stdin := w)))
  {
    if DownTies(s) {
      FlowsGrow(s.hub.end.value.stdin.all, false, w.all, false, s.agent.value.stdin.Next(), s.down);
    }
  }

  /** The premise of DownOk. */
  ghost predicate DownTies(s: Stream) {
    s.phase != Down && s.hub.end.Some? && s.agent.Some? && s.agent.value.listed && s.answer != Some(Kill)
  }

  lemma SendStdinKeeps(s: Stream, fate: Fate)
    requires Inv(s)
    ensures Inv(DoSendStdin(s, fate))
  {
    if s.hub.end.Some? && s.phase != Down {
      var e := s.hub.end.value;
      SendChunkIsSmall(e.stdin, s.down, fate);
      var (w, down) := SendChunk(e.stdin, s.down, fate);
      if DownTies(s) {
        SendChunkFlows(e.stdin, false, s.agent.value.stdin.Next(), s.down, fate);
      }
      StdinMoved(s, w, down);
    }
  }

  lemma StdinMoved(s: Stream, w: Window, down: seq<Msg>)
    requires Inv(s) && s.hub.end.Some? && s.phase != Down
    requires w.Valid() && w == s.hub.end.value.stdin.(sent := w.sent)
    requires forall m :: m in down && !m.Data? ==> m in s.down
    requires w.all == [] ==> down == s.down
    requires DownTies(s) ==>
               && Flows(w.all, false, s.agent.value.stdin.Next(), down)
               && w.sent <= Reach(s.agent.value.stdin.Next(), down)
    ensures Inv(SetEnd(s, s.hub.end.value.(stdin := w)).(down := down))
  {
  }

  /** The same for the queue to the agent. */
  ghost predicate DownNext(t: Stream, m: Msg) {
    && t.phase == Up
    && (t.hub.end.None? || t.stage in {Unused, Requested, Spawning} ==> !m.Data?)
    && (m.Ack? ==> t.hub.end.Some? && m.upTo <= t.hub.end.value.stdout.Consumed())
    && (DownTies(t) ==>
          var n := t.agent.value.stdin.Next();
          && Fits(t.hub.end.value.stdin.all, false, n, m)
          && Flows(t.hub.end.value.stdin.all, false, ReachOne(n, m), t.down)
          && t.hub.end.value.stdin.sent <= Reach(ReachOne(n, m), t.down))
  }

  lemma DownPopped(s: Stream)
    requires Inv(s) && s.phase == Up && s.down != []
    ensures var t := s.(down := s.down[1..]);
            Shape(t) && Contents(t) && UpOk(t) && DownNext(t, s.down[0])
  {
    assert s.down[0] in s.down;
  }

  lemma AgentTakesData(t: Stream, m: Msg)
    requires Shape(t) && Contents(t) && UpOk(t) && DownNext(t, m) && m.Data?
    ensures Inv(AgentTakes(t, m))
  {
    if t.agent.Some? && t.agent.value.listed {
      AcceptMirrors(t.agent.value.stdin, t.hub.end.value.stdin.all, m.off, m.bytes);
      StdinAccepted(t, t.agent.value.stdin.Accept(m.off, m.bytes).0, m);
    }
  }

  lemma StdinAccepted(t: Stream, b: Inbound, m: Msg)
    requires Shape(t) && Contents(t) && UpOk(t) && DownNext(t, m) && m.Data? && t.agent.Some? && t.agent.value.listed
    requires var a := t.agent.value.stdin;
             && Mirrors(b, t.hub.end.value.stdin.all) && b == a.(got := b.got, kept := b.kept)
             && a.Next() <= b.Next() && (DownTies(t) ==> b.Next() == ReachOne(a.Next(), m))
    ensures Inv(SetAgent(t, t.agent.value.(stdin := b)))
  {
  }

  lemma AgentTakesAck(t: Stream, m: Msg)
    requires Shape(t) && Contents(t) && UpOk(t) && DownNext(t, m) && m.Ack?
    ensures Inv(AgentTakes(t, m))
  {
    if t.agent.Some? && t.agent.value.listed {
      var w := t.agent.value.stdout;
      AckTrims(w, m.upTo);
      if t.hub.Known() {
        ReachBounds(t.stdout, w.eof, t.hub.end.value.stdout.Next(), t.up);
      }
      StdoutTrimmed(t, w.Ack(m.upTo), m);
    }
  }

  lemma StdoutTrimmed(t: Stream, w: Window, m: Msg)
    requires Shape(t) && Contents(t) && UpOk(t) && DownNext(t, m) && m.Ack? && t.agent.Some?
    requires var v := t.agent.value.stdout;
             w.Valid() && w == v.(base := w.base, sent := w.sent) && w.base <= LastHeld(t)
             && (t.phase == Up && t.hub.Known() ==> w.sent <= Reach(t.hub.end.value.stdout.Next(), t.up))
    ensures Inv(SetAgent(t, t.agent.value.(stdout := w)))
  {
  }

  lemma AgentTakesOther(t: Stream, m: Msg)
    requires Shape(t) && Contents(t) && UpOk(t) && DownNext(t, m) && !m.Data? && !m.Ack?
    ensures Inv(AgentTakes(t, m))
  {
    OtherShape(t, m);
    OtherContents(t, m);
  }

  lemma OtherContents(t: Stream, m: Msg)
    requires Contents(t) && !m.Data? && !m.Ack?
    ensures Contents(AgentTakes(t, m))
  {
  }

  lemma OtherShape(t: Stream, m: Msg)
    requires Shape(t) && DownNext(t, m) && !m.Data? && !m.Ack?
    requires t.agent.Some? ==> t.agent.value.stdin.Valid() && t.agent.value.stdout.Valid()
    ensures Shape(AgentTakes(t, m))
  {
  }

  lemma DeliverDownKeeps(s: Stream)
    requires Inv(s)
    ensures Inv(DoDeliverDown(s))
  {
    if s.phase == Up && s.down != [] {
      var t, m := s.(down := s.down[1..]), s.down[0];
      DownPopped(s);
      match m
      case Data(_, _) => AgentTakesData(t, m);
      case Ack(_) => AgentTakesAck(t, m);
      case _ => AgentTakesOther(t, m);
    }
  }

  lemma AgentReadShape(s: Stream, n: nat)
    requires Shape(s) && (s.agent.Some? ==> s.agent.value.stdin.Valid())
    ensures Shape(DoAgentRead(s, n))
  {
  }

  lemma AgentReadContents(s: Stream, n: nat)
    requires StageOk(s) && Contents(s)
    ensures Contents(DoAgentRead(s, n))
  {
  }

  lemma AgentReadLinks(s: Stream, n: nat)
    requires Links(s) && (s.agent.Some? ==> s.agent.value.stdin.Valid())
    ensures Links(DoAgentRead(s, n))
  {
  }

  lemma AgentReadKeeps(s: Stream, n: nat)
    requires Inv(s)
    ensures Inv(DoAgentRead(s, n))
  {
    AgentReadShape(s, n);
    AgentReadContents(s, n);
    AgentReadLinks(s, n);
  }

  lemma SendAgentAckShape(s: Stream, ok: bool)
    requires Shape(s)
    ensures Shape(DoSendAgentAck(s, ok))
  {
  }

  lemma SendAgentAckLinks(s: Stream, ok: bool)
    requires StageOk(s) && PhaseOk(s) && Links(s)
    ensures Links(DoSendAgentAck(s, ok))
  {
    if s.agentAck.Some? && s.phase == Up && s.hub.Known() && s.agent.Some? {
      FlowsAppend(s.stdout, s.agent.value.stdout.eof, s.hub.end.value.stdout.Next(), s.up, Ack(s.agentAck.value));
    }
  }

  lemma SendAgentAckKeeps(s: Stream, ok: bool)
    requires Inv(s)
    ensures Inv(DoSendAgentAck(s, ok))
  {
    SendAgentAckShape(s, ok);
    SendAgentAckLinks(s, ok);
  }

  // ---- all of them ----

  /** A step about the stream's life or the connection, not about its bytes. */
  predicate Lifecycle(act: Action) {
    act.HubStart? || act.StartFails? || act.AgentStart? || act.AgentSpawnFails? || act.FinishExit? || act.HubGiveUp?
    || act.Drop? || act.Attach? || act.Welcome? || act.ServerRestart? || act.AgentRestart?
    || act.MarkExpires?
  }

  lemma LifecycleKeeps(s: Stream, act: Action)
    requires Inv(s) && Lifecycle(act)
    ensures Inv(Apply(s, act))
  {
    match act
    case HubStart => HubStartKeeps(s);
    case StartFails => StartFailsKeeps(s);
    case AgentStart(ok) => AgentStartKeeps(s, ok);
    case AgentSpawnFails(ok) => AgentSpawnFailsKeeps(s, ok);
    case FinishExit => FinishExitKeeps(s);
    case HubGiveUp => HubGiveUpKeeps(s);
    case MarkExpires => MarkExpiresKeeps(s);
    case _ => ConnectionKeeps(s, act);
  }

  lemma ConnectionKeeps(s: Stream, act: Action)
    requires Inv(s) && (act.Drop? || act.Attach? || act.Welcome? || act.ServerRestart? || act.AgentRestart?)
    ensures Inv(Apply(s, act))
  {
    match act
    case Drop => DroppedKeeps(s);
    case Attach(ok) => AttachKeeps(s, ok);
    case Welcome => WelcomeKeeps(s);
    case ServerRestart(limit) => ServerRestartKeeps(s, limit);
    case AgentRestart => AgentRestartKeeps(s);
  }

  lemma BytesKeep(s: Stream, act: Action)
    requires Inv(s) && !Lifecycle(act)
    ensures Inv(Apply(s, act))
  {
    match act
    case StdoutWrite(p) => StdoutWriteKeeps(s, p);
    case ProcessExit => ProcessExitKeeps(s);
    case SendStdout(fate) => SendStdoutKeeps(s, fate);
    case SendExit(fate) => SendExitKeeps(s, fate);
    case StdinWrite(p) => StdinWriteKeeps(s, p);
    case SendStdin(fate) => SendStdinKeeps(s, fate);
    case HubRead(n) => HubReadKeeps(s, n);
    case AgentRead(n) => AgentReadKeeps(s, n);
    case SendHubAck(ok) => SendHubAckKeeps(s, ok);
    case SendAgentAck(ok) => SendAgentAckKeeps(s, ok);
    case DeliverUp => DeliverUpKeeps(s);
    case DeliverDown => DeliverDownKeeps(s);
    case SendForget(ok) => SendForgetKeeps(s, ok);
  }

  lemma ApplyKeeps(s: Stream, act: Action)
    requires Inv(s)
    ensures Inv(Apply(s, act))
  {
    if Lifecycle(act) {
      LifecycleKeeps(s, act);
    } else {
      BytesKeep(s, act);
    }
  }

  /** The state after a run from any state the invariant holds in. */
  ghost function Exec(s: Stream, run: seq<Action>): Stream
    requires Inv(s)
    decreases |run|
  {
    if run == [] then s
    else
      ApplyKeeps(s, run[0]);
      Exec(Apply(s, run[0]), run[1..])
  }

  lemma InitialInv(hubLimit: int, agentLimit: int)
    ensures Inv(Initial(hubLimit, agentLimit))
  {
  }

  /** Every state a run reaches satisfies the invariant. */
  lemma {:induction false} RunKeeps(s: Stream, run: seq<Action>)
    requires Inv(s)
    ensures Inv(Exec(s, run))
    decreases |run|
  {
    if run != [] {
      ApplyKeeps(s, run[0]);
      RunKeeps(Apply(s, run[0]), run[1..]);
    }
  }
}
