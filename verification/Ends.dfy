/**
 The two ends of one remote stream, and what the hello/welcome exchange does to each
 (remote/hub.go attach, remote/agent.go hello and welcome). The tables of streams in Hub.dfy and
 Agent.dfy and the protocol in Protocol.dfy are both built on these functions.
 */
module Ends {
  import opened Bytes
  import opened Outboxes
  import opened Inbufs
  import opened Wrappers

  /** Upper bound on the payload of one data frame. */
  const MAX_CHUNK := 65536

  /** The server's end of a stream: the handle. */
  datatype HubEnd = HubEnd(
    stdin: Window,
    stdout: Inbound,
    listed: bool,    // in the location's handle table; a dropped handle may still be read from
    starting: bool,  // its spawn is not answered yet, so nobody has been given the handle
    exitSeen: bool,  // the exit message was handled
    ownFrom: nat)    // where in stdin this server's own bytes begin
  {
    /** Its reader comes to an end of file, and nothing more can be written. */
    predicate Closed() {
      stdout.eof && stdin.eof
    }
  }

  /** The server's whole knowledge of one stream id. */
  datatype HubSide = HubSide(end: Option<HubEnd>, tomb: bool, finished: bool)
  {
    predicate Known() {
      end.Some? && end.value.listed
    }
  }

  /** The remote machine's end of a stream. */
  datatype AgentEnd = AgentEnd(
    stdout: Window,
    stdin: Inbound,
    listed: bool,    // in the agent's stream table
    exited: bool,
    exitSent: bool)  // the exit message went out on the current connection

  /**
   One stream as the agent's hello reports it. The message carries only the number of stdin bytes
   received, |received|; the model keeps the bytes themselves as history.
   */
  datatype StreamInfo = StreamInfo(outAcked: nat, received: seq<byte>, lineEnd: bool, exited: bool)

  /** The welcome's answer for one stream of the hello. */
  datatype Answer = Resume(outFrom: nat) | Kill

  function NewEnd(): HubSide {
    HubSide(None, false, false)
  }

  /** handle.finish: no more data in either direction, out of the table, remembered as finished. */
  function Finish(h: HubSide): HubSide
    requires h.end.Some?
  {
    var e := h.end.value;
    h.(end := Some(e.(stdout := e.stdout.CloseWrite(), stdin := e.stdin.CloseWrite(), listed := false)),
       finished := true)
  }

  /** Expiry of the grace period, or a close the remote agent cannot be told about. */
  function GiveUp(h: HubSide): HubSide
    requires h.end.Some?
  {
    Finish(h).(tomb := true)
  }

  /** The handle a server makes for a stream that outlived the server before it. */
  function Adopted(info: StreamInfo, limit: int): HubEnd {
    var w := Fresh(info.received, limit);
    var stdin := if info.lineEnd then w else w.Write([NEWLINE]).0;
    HubEnd(stdin, Empty(info.outAcked), true, false, false, |stdin.all|)
  }

  /** attach, for one stream id: `info` is its entry in the hello, if it has one. */
  function AttachSide(h: HubSide, info: Option<StreamInfo>, adoptOk: bool, limit: int): (HubSide, Option<Answer>)
    requires h.end.Some? ==> h.end.value.stdin.base <= |h.end.value.stdin.all|
  {
    match info
    case None =>
      (if h.Known() then Finish(h) else h, None)
    case Some(i) =>
      var g := h.(tomb := false);
      if h.Known() then
        var (w, res) := h.end.value.stdin.Rewind(|i.received|);
        if res != Rewound then (Finish(g), Some(Kill))
        else (g.(end := Some(h.end.value.(stdin := w))), Some(Resume(h.end.value.stdout.Next())))
      else if h.tomb || h.finished || i.exited then (g, Some(Kill))
      else if adoptOk then (g.(end := Some(Adopted(i, limit))), Some(Resume(i.outAcked)))
      else (g, Some(Kill))
  }

  /** hello, for one stream. */
  function Report(a: AgentEnd): StreamInfo {
    StreamInfo(a.stdout.base, a.stdin.got, a.stdin.LineEnd(), a.exited)
  }

  /** welcome, for one stream of the table. */
  function WelcomeEnd(a: AgentEnd, ans: Option<Answer>): AgentEnd
    requires a.stdout.base <= |a.stdout.all|
  {
    match ans
    case None => a
    case Some(Kill) => a.(listed := false)
    case Some(Resume(off)) =>
      if !a.listed then a
      else
        var (w, res) := a.stdout.Rewind(off);
        if res != Rewound then a.(listed := false) else a.(stdout := w)
  }
}
