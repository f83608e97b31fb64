/**
 The resumable stream protocol of package remote, as a state machine over one stream.

 The state holds both ends, the messages of this stream in flight in each direction, and the phase
 of the connection. Streams share connections but no step looks at two streams, so the run of a
 whole location is, for each stream, a run of this machine; the connection's single queue per
 direction appears as the subsequence of messages that belong to the stream.
 */
module Protocol {
  import opened Bytes
  import opened Outboxes
  import opened Inbufs
  import opened Wrappers
  import opened Ends

  datatype Msg =
    | Data(off: nat, bytes: seq<byte>)
    | Ack(upTo: nat)
    | Exit
    | Forget
    | Spawn
    | Spawned
    | SpawnFailed

  /** Welcoming: the server has answered the hello, the agent has not handled the answer yet. */
  datatype Phase = Down | Welcoming | Up

  /** Where a stream's process is in its life; ids are minted fresh, so it happens once. */
  datatype Stage = Unused | Requested | Spawning | Started | Dead

  /** What one server had of stdout when it went: its reader took [from, to), it held up to `held`. */
  datatype Session = Session(from: nat, to: nat, held: nat)

  datatype Stream = Stream(
    phase: Phase,
    stage: Stage,
    hub: HubSide,
    agent: Option<AgentEnd>,
    up: seq<Msg>,            // agent to server, in flight
    down: seq<Msg>,          // server to agent, in flight
    answer: Option<Answer>,  // while Welcoming: what the welcome in flight says
    hubAck: Option<nat>,     // the coalesced ack the server's acker will send next
    agentAck: Option<nat>,
    forgetDue: bool,
    stdout: seq<byte>,       // everything the process wrote that the agent buffered
    served: seq<Session>,    // the servers before the current one, oldest first
    hubLimit: int,
    agentLimit: int)

  /** How a send ends: on the wire; failed; or reported failed although the peer got it. */
  datatype Fate = Sent | Failed | FailedButArrived

  datatype Action =
    | HubStart | StartFails | AgentStart(replyOk: bool) | AgentSpawnFails(replyOk: bool)
    | StdoutWrite(p: seq<byte>) | ProcessExit | SendStdout(fate: Fate) | SendExit(fate: Fate)
    | StdinWrite(p: seq<byte>) | SendStdin(fate: Fate)
    | HubRead(n: nat) | AgentRead(n: nat) | SendHubAck(ok: bool) | SendAgentAck(ok: bool)
    | DeliverUp | DeliverDown | SendForget(ok: bool) | FinishExit | HubGiveUp
    | Drop | Attach(adoptOk: bool) | Welcome | ServerRestart(limit: int) | AgentRestart | MarkExpires

  function Initial(hubLimit: int, agentLimit: int): Stream {
    Stream(Down, Unused, NewEnd(), None, [], [], None, None, None, false, [], [], hubLimit, agentLimit)
  }

  // ---- the steps; one that is not enabled leaves the state alone ----

  function SetEnd(s: Stream, e: HubEnd): Stream {
    s.(hub := s.hub.(end := Some(e)))
  }

  function SetAgent(s: Stream, a: AgentEnd): Stream {
    s.(agent := Some(a))
  }

  /** The connection is gone: everything in flight and every queued ack with it. */
  function Dropped(s: Stream): Stream {
    s.(phase := Down, up := [], down := [], answer := None, hubAck := None, agentAck := None, forgetDue := false,
       stage := if s.stage == Requested then Dead else s.stage,
       agent := if s.agent.Some? then Some(s.agent.value.(exitSent := false)) else None)
  }

  /** host.Start: the handle is registered first, then the spawn is sent if the location is ready. */
  function DoHubStart(s: Stream): Stream {
    if s.stage != Unused then s
    else
      var e := HubEnd(Fresh([], s.hubLimit), Empty(0), true, true, false, 0);
      var t := SetEnd(s, e);
      if s.phase == Down then t.(stage := Dead) else t.(stage := Requested, down := s.down + [Spawn])
  }

  /** The spawn request failed or timed out: the handle is dropped and the id tombstoned. */
  function DoStartFails(s: Stream): Stream {
    if s.hub.end.Some? && s.hub.end.value.starting then
      s.(hub := s.hub.(end := Some(s.hub.end.value.(listed := false)), tomb := true))
    else s
  }

  function DoAgentStart(s: Stream, replyOk: bool): Stream {
    if s.stage != Spawning then s
    else
      var a := AgentEnd(Fresh([], s.agentLimit), Empty(0), true, false, false);
      SetAgent(s, a).(stage := Started, up := if s.phase == Up && replyOk then s.up + [Spawned] else s.up)
  }

  function DoAgentSpawnFails(s: Stream, replyOk: bool): Stream {
    if s.stage != Spawning then s
    else s.(stage := Dead, up := if s.phase == Up && replyOk then s.up + [SpawnFailed] else s.up)
  }

  function DoStdoutWrite(s: Stream, p: seq<byte>): Stream
    requires s.agent.Some? ==> s.agent.value.stdout.base <= |s.agent.value.stdout.all|
  {
    if s.agent.None? || s.agent.value.exited then s
    else
      var w := s.agent.value.stdout.Write(p).0;
      SetAgent(s, s.agent.value.(stdout := w)).(stdout := w.all)
  }

  function DoProcessExit(s: Stream): Stream {
    if s.agent.None? then s
    else
      var a := s.agent.value;
      SetAgent(s, a.(exited := true, stdin := a.stdin.CloseWrite(), stdout := a.stdout.CloseWrite()))
  }

  /** One turn of flushLocked: take a chunk, send it, take it back if the send fails. */
  function SendChunk(w: Window, wire: seq<Msg>, fate: Fate): (Window, seq<Msg>)
    requires w.base <= w.sent <= |w.all|
  {
    var (v, c) := w.Next(MAX_CHUNK);
    if c.bytes == [] then (w, wire)
    else
      (if fate == Sent then v else v.Unsend(c.off),
       if fate == Failed then wire else wire + [Data(c.off, c.bytes)])
  }

  function DoSendStdout(s: Stream, fate: Fate): Stream
    requires s.agent.Some? ==> s.agent.value.stdout.base <= s.agent.value.stdout.sent <= |s.agent.value.stdout.all|
  {
    if s.agent.None? || s.phase != Up then s
    else
      var (w, up) := SendChunk(s.agent.value.stdout, s.up, fate);
      SetAgent(s, s.agent.value.(stdout := w)).(up := up)
  }

  /** The tail of Agent.flush: once everything went out, the exit, once per connection. */
  function DoSendExit(s: Stream, fate: Fate): Stream {
    if s.agent.None? || s.phase != Up || !s.agent.value.stdout.Drained() || s.agent.value.exitSent then s
    else
      SetAgent(s, s.agent.value.(exitSent := fate == Sent)).(up := if fate == Failed then s.up else s.up + [Exit])
  }

  function DoStdinWrite(s: Stream, p: seq<byte>): Stream
    requires s.hub.end.Some? ==> s.hub.end.value.stdin.base <= |s.hub.end.value.stdin.all|
  {
    if s.hub.end.None? || s.hub.end.value.starting then s
    else SetEnd(s, s.hub.end.value.(stdin := s.hub.end.value.stdin.Write(p).0))
  }

  function DoSendStdin(s: Stream, fate: Fate): Stream
    requires s.hub.end.Some? ==> s.hub.end.value.stdin.base <= s.hub.end.value.stdin.sent <= |s.hub.end.value.stdin.all|
  {
    if s.hub.end.None? || s.phase == Down then s
    else
      var (w, down) := SendChunk(s.hub.end.value.stdin, s.down, fate);
      SetEnd(s, s.hub.end.value.(stdin := w)).(down := down)
  }

  /** The server's reader takes bytes; while connected the new offset is queued as the ack. */
  function DoHubRead(s: Stream, n: nat): Stream
    requires s.hub.end.Some? ==> s.hub.end.value.stdout.Valid()
  {
    if s.hub.end.None? || s.hub.end.value.starting then s
    else
      var b := s.hub.end.value.stdout;
      if b.read == b.kept then s
      else
        var c := b.Read(n).0;
        SetEnd(s, s.hub.end.value.(stdout := c)).(hubAck := if s.phase == Down then None else Some(c.Consumed()))
  }

  function DoAgentRead(s: Stream, n: nat): Stream
    requires s.agent.Some? ==> s.agent.value.stdin.Valid()
  {
    if s.agent.None? || s.agent.value.stdin.read == s.agent.value.stdin.kept then s
    else
      var c := s.agent.value.stdin.Read(n).0;
      SetAgent(s, s.agent.value.(stdin := c)).(agentAck := if s.phase == Up then Some(c.Consumed()) else None)
  }

  function DoSendHubAck(s: Stream, ok: bool): Stream {
    if s.hubAck.None? then s
    else s.(hubAck := None, down := if ok then s.down + [Ack(s.hubAck.value)] else s.down)
  }

  function DoSendAgentAck(s: Stream, ok: bool): Stream {
    if s.agentAck.None? then s
    else s.(agentAck := None, up := if ok then s.up + [Ack(s.agentAck.value)] else s.up)
  }

  /** The server's read loop handles one message, already off the queue. */
  function HubTakes(t: Stream, m: Msg): Stream
    requires t.hub.end.Some? ==>
               t.hub.end.value.stdout.Valid() && t.hub.end.value.stdin.base <= |t.hub.end.value.stdin.all|
  {
    var e := t.hub.end;
    match m
    case Data(off, p) =>
      if !t.hub.Known() then t
      else
        var (b, res) := e.value.stdout.Accept(off, p);
        if res.Gap? then Dropped(t) else SetEnd(t, e.value.(stdout := b))
    case Ack(off) =>
      if !t.hub.Known() then t else SetEnd(t, e.value.(stdin := e.value.stdin.Ack(off)))
    case Exit =>
      if !t.hub.Known() then t.(forgetDue := true)
      else SetEnd(t, e.value.(stdout := e.value.stdout.CloseWrite(), exitSeen := true)).(forgetDue := true)
    case Spawned =>
      if t.hub.Known() then SetEnd(t, e.value.(starting := false)) else t
    case SpawnFailed =>
      if e.Some? && e.value.starting then SetEnd(t, e.value.(listed := false)) else t
    case _ => t
  }

  /** What a message can change of the server's end, and that is all it changes besides dropping the connection. */
  function EndTakes(e: HubEnd, m: Msg): HubEnd
    requires e.stdout.Valid() && e.stdin.base <= |e.stdin.all|
  {
    match m
    case Data(off, p) => e.(stdout := e.stdout.Accept(off, p).0)
    case Ack(off) => e.(stdin := e.stdin.Ack(off))
    case Exit => e.(stdout := e.stdout.CloseWrite(), exitSeen := true)
    case Spawned => e.(starting := false)
    case SpawnFailed => if e.starting then e.(listed := false) else e
    case _ => e
  }

  predicate Gapped(e: HubEnd, m: Msg)
    requires e.stdout.Valid()
  {
    m.Data? && m.off > e.stdout.Next()
  }

  lemma HubTakesKnown(t: Stream, m: Msg)
    requires t.hub.Known() && t.hub.end.value.stdout.Valid()
             && t.hub.end.value.stdin.base <= |t.hub.end.value.stdin.all|
    ensures HubTakes(t, m) ==
            if Gapped(t.hub.end.value, m) then Dropped(t)
            else SetEnd(t, EndTakes(t.hub.end.value, m)).(forgetDue := t.forgetDue || m.Exit?)
  {
  }

  lemma HubTakesUnknown(t: Stream, m: Msg)
    requires !t.hub.Known()
    requires t.hub.end.Some? ==>
               t.hub.end.value.stdout.Valid() && t.hub.end.value.stdin.base <= |t.hub.end.value.stdin.all|
    ensures HubTakes(t, m) == t.(forgetDue := t.forgetDue || m.Exit?)
  {
  }

  function DoDeliverUp(s: Stream): Stream
    requires s.hub.end.Some? ==>
               s.hub.end.value.stdout.Valid() && s.hub.end.value.stdin.base <= |s.hub.end.value.stdin.all|
  {
    if s.up == [] then s else HubTakes(s.(up := s.up[1..]), s.up[0])
  }

  /** The agent's read loop handles one message, already off the queue. */
  function AgentTakes(t: Stream, m: Msg): Stream
    requires t.agent.Some? ==> t.agent.value.stdin.Valid() && t.agent.value.stdout.base <= |t.agent.value.stdout.all|
  {
    if m.Spawn? then
      if t.stage == Requested then t.(stage := Spawning) else t
    else if t.agent.None? || !t.agent.value.listed then t
    else
      var a := t.agent.value;
      match m
      case Data(off, p) =>
        var (b, res) := a.stdin.Accept(off, p);
        if res.Gap? then Dropped(t) else SetAgent(t, a.(stdin := b))
      case Ack(off) => SetAgent(t, a.(stdout := a.stdout.Ack(off)))
      case Forget => SetAgent(t, a.(listed := false))
      case _ => t
  }

  function DoDeliverDown(s: Stream): Stream
    requires s.agent.Some? ==> s.agent.value.stdin.Valid() && s.agent.value.stdout.base <= |s.agent.value.stdout.all|
  {
    if s.phase != Up || s.down == [] then s else AgentTakes(s.(down := s.down[1..]), s.down[0])
  }

  function DoSendForget(s: Stream, ok: bool): Stream {
    if !s.forgetDue then s
    else s.(forgetDue := false, down := if ok then s.down + [Forget] else s.down)
  }

  /** handle.exited, after its wait for the reader: the handle is finished. */
  function DoFinishExit(s: Stream): Stream {
    if s.hub.Known() && s.hub.end.value.exitSeen then s.(hub := Finish(s.hub)) else s
  }

  function DoHubGiveUp(s: Stream): Stream {
    if s.hub.Known() then s.(hub := GiveUp(s.hub)) else s
  }

  /** `served` once the server's current end, if any, is let go of for good. */
  function Retired(s: Stream): seq<Session> {
    if s.hub.end.None? then s.served
    else
      var b := s.hub.end.value.stdout;
      s.served + [Session(b.start, b.Consumed(), b.Next())]
  }

  function Hello(s: Stream): Option<StreamInfo> {
    if s.agent.Some? && s.agent.value.listed then Some(Report(s.agent.value)) else None
  }

  function DoAttach(s: Stream, adoptOk: bool): Stream
    requires s.hub.end.Some? ==> s.hub.end.value.stdin.base <= |s.hub.end.value.stdin.all|
  {
    if s.phase != Down then s
    else
      var (h, ans) := AttachSide(s.hub, Hello(s), adoptOk, s.hubLimit);
      var adopted := !s.hub.Known() && ans.Some? && ans.value.Resume?;
      s.(phase := Welcoming, hub := h, answer := ans, served := if adopted then Retired(s) else s.served)
  }

  function DoWelcome(s: Stream): Stream
    requires s.agent.Some? ==> s.agent.value.stdout.base <= |s.agent.value.stdout.all|
  {
    if s.phase != Welcoming then s
    else
      s.(phase := Up, answer := None,
         agent := if s.agent.None? then None else Some(WelcomeEnd(s.agent.value, s.answer)))
  }

  /** The server process is replaced: handles, tombstones and the finished list are gone. */
  function DoServerRestart(s: Stream, limit: int): Stream {
    Dropped(s).(hub := NewEnd(), served := Retired(s), hubLimit := limit)
  }

  /** The agent process is replaced, and its processes with it. */
  function DoAgentRestart(s: Stream): Stream {
    Dropped(s).(agent := None, stage := if s.stage == Unused then Unused else Dead)
  }

  /** markFinished, for some other stream, an hour or more later: it drops this stream's mark. */
  function DoMarkExpires(s: Stream): Stream {
    s.(hub := s.hub.(finished := false))
  }

  /** What every step needs of the state it starts in, and nothing about the protocol. */
  ghost predicate Ready(s: Stream) {
    && (s.hub.end.Some? ==> s.hub.end.value.stdin.Valid() && s.hub.end.value.stdout.Valid())
    && (s.agent.Some? ==> s.agent.value.stdin.Valid() && s.agent.value.stdout.Valid())
  }

  function Apply(s: Stream, act: Action): Stream
    requires Ready(s)
  {
    match act
    case HubStart => DoHubStart(s)
    case StartFails => DoStartFails(s)
    case AgentStart(ok) => DoAgentStart(s, ok)
    case AgentSpawnFails(ok) => DoAgentSpawnFails(s, ok)
    case StdoutWrite(p) => DoStdoutWrite(s, p)
    case ProcessExit => DoProcessExit(s)
    case SendStdout(fate) => DoSendStdout(s, fate)
    case SendExit(fate) => DoSendExit(s, fate)
    case StdinWrite(p) => DoStdinWrite(s, p)
    case SendStdin(fate) => DoSendStdin(s, fate)
    case HubRead(n) => DoHubRead(s, n)
    case AgentRead(n) => DoAgentRead(s, n)
    case SendHubAck(ok) => DoSendHubAck(s, ok)
    case SendAgentAck(ok) => DoSendAgentAck(s, ok)
    case DeliverUp => DoDeliverUp(s)
    case DeliverDown => DoDeliverDown(s)
    case SendForget(ok) => DoSendForget(s, ok)
    case FinishExit => DoFinishExit(s)
    case HubGiveUp => DoHubGiveUp(s)
    case Drop => Dropped(s)
    case Attach(ok) => DoAttach(s, ok)
    case Welcome => DoWelcome(s)
    case ServerRestart(limit) => DoServerRestart(s, limit)
    case AgentRestart => DoAgentRestart(s)
    case MarkExpires => DoMarkExpires(s)
  }
}
