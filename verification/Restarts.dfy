/**
 Stdout across server restarts. The agent trims its buffer only at line boundaries and only up to
 what it is told, so that the next server can start at a line the previous one had not consumed.
 Acks tell it what was consumed; but the resume of a reconnect tells it what was received, and a forget
 or a kill lets go of the buffer whatever was consumed. This file states exactly when a restart loses no line.
 */
module Restarts {
  import opened Bytes
  import opened Seqs
  import opened Outboxes
  import opened Inbufs
  import opened Wrappers
  import opened Ends
  import opened Protocol
  import opened Invariant
  import opened Guarantees
  import opened CatchUps

  /** How much of stdout the reader of the server before the current state's end took. */
  function TakenBefore(served: seq<Session>): nat {
    if served == [] then 0 else served[|served| - 1].to
  }

  /** How much of stdout the latest server's reader took. */
  function LastTo(s: Stream): nat {
    if s.hub.end.Some? then s.hub.end.value.stdout.Consumed() else TakenBefore(s.served)
  }

  /** Some complete line ends after `to`, where one server stopped reading, and begins before `from`. */
  ghost predicate MissesLine(stdout: seq<byte>, to: nat, from: nat) {
    exists i: nat, j: nat :: IsLine(stdout, i, j) && to < j && i < from
  }

  /** A server starting at line start `from` after one that read up to `to`: no line is missed iff from <= to. */
  lemma MissesLineIff(stdout: seq<byte>, to: nat, from: nat)
    requires from <= |stdout| && LineStart(stdout, from)
    ensures MissesLine(stdout, to, from) <==> to < from
  {
    if to < from {
      var i := LastIndex(stdout[..from - 1], NEWLINE) + 1;
      assert forall k :: i <= k < from - 1 ==> stdout[k] == stdout[..from - 1][k];
      assert i > 0 ==> stdout[..from - 1][i - 1] == stdout[i - 1];
      assert IsLine(stdout, i, from);
    }
    if MissesLine(stdout, to, from) {
      var i: nat, j: nat :| IsLine(stdout, i, j) && to < j && i < from;
      if j > from {
        LineStartBeforeLineEnd(stdout, i, j, from);
      }
    }
  }

  /** The agent has the stream in its table, and so its buffer. */
  ghost predicate Keeps(s: Stream) {
    s.agent.Some? && s.agent.value.listed
  }

  /** What the latest server has not consumed of stdout, if anything, the agent still holds, from a line start on. */
  ghost predicate Covered(s: Stream) {
    LastTo(s) < |s.stdout| ==> Keeps(s) && s.agent.value.stdout.base <= LastTo(s)
  }

  /**
   Adopting a stream loses no complete line of stdout exactly when the state it starts from is
   Covered: the new server's reader begins at the agent's buffer start.
   */
  lemma AdoptionMissesLineIff(hubLimit: int, agentLimit: int, run: seq<Action>)
    ensures var s := After(hubLimit, agentLimit, run);
            s.phase == Down && !s.hub.Known() && DoAttach(s, true).hub.Known() ==>
              && s.agent.Some?
              && DoAttach(s, true).hub.end.value.stdout.start == s.agent.value.stdout.base
              && (MissesLine(s.stdout, LastTo(s), s.agent.value.stdout.base) <==> !Covered(s))
  {
    var s := After(hubLimit, agentLimit, run);
    if s.agent.Some? {
      MissesLineIff(s.stdout, LastTo(s), s.agent.value.stdout.base);
    }
  }

  // ---- which step breaks it ----

  /** The server holds a complete line its reader has not taken. */
  ghost predicate UnreadLine(b: Inbound)
    requires b.read <= |b.got|
  {
    exists k :: b.read <= k < |b.got| && b.got[k] == NEWLINE
  }

  /** The step is a resume on the same server while its reader still has a complete line to read. */
  ghost predicate ResumeOverUnreadLine(s: Stream, act: Action)
    requires Inv(s)
  {
    && act.Welcome? && s.phase == Welcoming && s.answer.Some? && s.answer.value.Resume?
    && UnreadLine(s.hub.end.value.stdout)
  }

  /** The step takes the stream out of the agent's table, or ends the agent, while bytes of stdout are not consumed. */
  ghost predicate LetsGo(s: Stream, act: Action) {
    && LastTo(s) < |s.stdout| && Keeps(s)
    && (|| (act.DeliverDown? && s.phase == Up && s.down != [] && s.down[0] == Forget)
        || (act.Welcome? && s.phase == Welcoming && s.answer == Some(Kill))
        || act.AgentRestart?)
  }

  /** The process of a stream that the agent has let go of writes on: nobody will be sent it. */
  ghost predicate WritesToNobody(s: Stream, act: Action)
    requires Inv(s)
  {
    && act.StdoutWrite? && s.agent.Some? && !s.agent.value.listed && !s.agent.value.exited
    && s.agent.value.stdout.Write(act.p).1.Wrote? && act.p != []
  }

  /** The steps after which stdout is no longer covered. */
  ghost predicate Uncovers(s: Stream, act: Action)
    requires Inv(s)
  {
    ResumeOverUnreadLine(s, act) || LetsGo(s, act) || WritesToNobody(s, act)
  }

  /** rewind trims to the last line start before the offset, so past `read` iff a line ends after it. */
  lemma RewindPasses(w: Window, b: Inbound, all: seq<byte>)
    requires w.Valid() && w.all == all && Mirrors(b, all) && w.base <= b.Consumed()
    ensures w.Rewind(b.Next()).0.base <= b.Consumed() <==> !UnreadLine(b)
  {
    var off := b.Next();
    if w.base < off {
      AckTrims(w, off);
      TrimmedPast(w.Ack(off).base, w.base, b, all);
    }
  }

  /** `trimmed` is the last line start before the receive offset, or the old start of the buffer. */
  lemma TrimmedPast(trimmed: nat, base: nat, b: Inbound, all: seq<byte>)
    requires Mirrors(b, all) && base <= b.Consumed() && base <= trimmed <= b.Next()
    requires trimmed != base ==> LineStart(all, trimmed)
    requires forall k :: trimmed <= k < b.Next() ==> all[k] != NEWLINE
    ensures trimmed <= b.Consumed() <==> !UnreadLine(b)
  {
    if UnreadLine(b) {
      var k :| b.read <= k < |b.got| && b.got[k] == NEWLINE;
      assert all[b.start + k] == NEWLINE;
    }
    if trimmed > b.Consumed() {
      assert b.got[trimmed - 1 - b.start] == all[trimmed - 1];
    }
  }

  /**
   Every step keeps stdout covered except these: a resume on the same server while its reader has a complete
   line left to read; the agent letting go of the stream, or ending, while bytes are not consumed; and a write
   of a process let go of. Those always break it.
   */
  lemma CoveredStep(s: Stream, act: Action)
    requires Inv(s) && Covered(s)
    ensures Covered(Apply(s, act)) <==> !Uncovers(s, act)
  {
    if act.Welcome? {
      WelcomeStep(s, act);
    } else if act.DeliverDown? {
      DeliverDownStep(s, act);
    } else if act.StdoutWrite? {
      StdoutWriteStep(s, act);
    } else if act.AgentRestart? {
      AgentRestartStep(s, act);
    } else {
      OtherStep(s, act);
    }
  }

  lemma WelcomeStep(s: Stream, act: Action)
    requires Inv(s) && Covered(s) && act.Welcome?
    ensures Covered(Apply(s, act)) <==> !Uncovers(s, act)
  {
    WelcomeCovers(s);
  }

  lemma DeliverDownStep(s: Stream, act: Action)
    requires Inv(s) && Covered(s) && act.DeliverDown?
    ensures Covered(Apply(s, act)) <==> !Uncovers(s, act)
  {
    DeliverDownCovers(s);
  }

  lemma StdoutWriteStep(s: Stream, act: Action)
    requires Inv(s) && Covered(s) && act.StdoutWrite?
    ensures Covered(Apply(s, act)) <==> !Uncovers(s, act)
  {
    StdoutWriteCovers(s, act.p);
  }

  lemma AgentRestartStep(s: Stream, act: Action)
    requires Inv(s) && Covered(s) && act.AgentRestart?
    ensures Covered(Apply(s, act)) <==> !Uncovers(s, act)
  {
    assert Apply(s, act).agent.None? && LastTo(Apply(s, act)) == LastTo(s) && Apply(s, act).stdout == s.stdout;
  }

  lemma OtherStep(s: Stream, act: Action)
    requires Inv(s) && Covered(s) && !act.Welcome? && !act.DeliverDown? && !act.StdoutWrite? && !act.AgentRestart?
    ensures Covered(Apply(s, act)) && !Uncovers(s, act)
  {
    OtherCovers(s, act);
  }

  lemma OtherCovers(s: Stream, act: Action)
    requires Inv(s) && Covered(s) && !act.Welcome? && !act.DeliverDown? && !act.StdoutWrite? && !act.AgentRestart?
    ensures Covered(Apply(s, act))
  {
    if act.DeliverUp? {
      DeliverUpCovers(s);
    } else if act.Attach? {
      AttachCovers(s, act.adoptOk);
    } else if act.SendStdout? {
      SendStdoutCovers(s, act.fate);
    } else if act.HubRead? {
      HubReadCovers(s, act.n);
    } else if act.HubStart? || act.AgentStart? {
      StartCovers(s, act);
    } else {
      OtherKeeps(s, act);
    }
  }

  /** Nothing of what coverage is about changes. */
  ghost predicate SameCover(s: Stream, t: Stream) {
    && LastTo(t) == LastTo(s) && t.stdout == s.stdout && (t.agent.Some? <==> s.agent.Some?)
    && (s.agent.Some? ==>
          && t.agent.value.listed == s.agent.value.listed
          && t.agent.value.stdout.base == s.agent.value.stdout.base)
  }

  lemma OtherKeeps(s: Stream, act: Action)
    requires Ready(s)
    requires !act.Welcome? && !act.DeliverUp? && !act.DeliverDown? && !act.Attach? && !act.SendStdout?
    requires !act.StdoutWrite? && !act.HubRead? && !act.HubStart? && !act.AgentStart? && !act.AgentRestart?
    ensures SameCover(s, Apply(s, act))
  {
    if act.SendStdin? || act.StdinWrite? {
      StdinStepKeeps(s, act);
    }
  }

  lemma StdinStepKeeps(s: Stream, act: Action)
    requires Ready(s) && (act.SendStdin? || act.StdinWrite?)
    ensures SameCover(s, Apply(s, act))
  {
    assert Apply(s, act).agent == s.agent && LastTo(Apply(s, act)) == LastTo(s);
  }

  lemma StdoutWriteCovers(s: Stream, p: seq<byte>)
    requires Inv(s) && Covered(s)
    ensures Covered(DoStdoutWrite(s, p)) <==> !WritesToNobody(s, StdoutWrite(p))
  {
    assert LastTo(DoStdoutWrite(s, p)) == LastTo(s);
    TakenOfAll(s);
  }

  /** No reader takes what was not written. */
  lemma TakenOfAll(s: Stream)
    requires Inv(s)
    ensures LastTo(s) <= |s.stdout|
  {
    if s.hub.end.None? && s.served != [] {
      assert SessionOk(s.stdout, s.served, |s.served| - 1);
    }
  }

  lemma HubReadCovers(s: Stream, n: nat)
    requires Ready(s) && Covered(s)
    ensures Covered(DoHubRead(s, n))
  {
  }

  lemma StartCovers(s: Stream, act: Action)
    requires Inv(s) && Covered(s) && (act.HubStart? || act.AgentStart?)
    ensures Covered(Apply(s, act))
  {
  }

  lemma WelcomeCovers(s: Stream)
    requires Inv(s) && Covered(s)
    ensures Covered(DoWelcome(s)) <==> !ResumeOverUnreadLine(s, Welcome) && !LetsGo(s, Welcome)
  {
    if s.phase == Welcoming && s.answer.Some? && s.answer.value.Resume? {
      RewindPasses(s.agent.value.stdout, s.hub.end.value.stdout, s.stdout);
      RewindPositions(s.agent.value.stdout, s.answer.value.outFrom);
    }
  }

  /** A message to the server touches neither the agent's windows nor the servers before. */
  lemma TakingKeeps(t: Stream, m: Msg)
    requires Ready(t)
    ensures var u := HubTakes(t, m);
            && u.served == t.served && u.stdout == t.stdout && (u.hub.end.Some? <==> t.hub.end.Some?)
            && (u.agent.Some? <==> t.agent.Some?)
            && (u.agent.Some? ==> u.agent.value == t.agent.value.(exitSent := u.agent.value.exitSent))
  {
    if t.hub.Known() {
      HubTakesKnown(t, m);
    } else {
      HubTakesUnknown(t, m);
    }
  }

  lemma DeliverUpCovers(s: Stream)
    requires Ready(s) && Covered(s)
    ensures Covered(DoDeliverUp(s))
  {
    if s.up != [] {
      TakingKeeps(s.(up := s.up[1..]), s.up[0]);
      if s.hub.end.Some? {
        DeliveryAdvances(s);
      }
    }
  }

  lemma DeliverDownCovers(s: Stream)
    requires Inv(s) && Covered(s)
    ensures Covered(DoDeliverDown(s)) <==> !LetsGo(s, DeliverDown)
  {
    if s.phase == Up && s.down != [] {
      DownPopped(s);
      if s.down[0].Ack? && s.agent.Some? {
        AckTrims(s.agent.value.stdout, s.down[0].upTo);
      }
    }
  }

  lemma AttachCovers(s: Stream, ok: bool)
    requires Inv(s) && Covered(s)
    ensures Covered(DoAttach(s, ok))
  {
  }

  lemma SendStdoutCovers(s: Stream, fate: Fate)
    requires Inv(s) && Covered(s)
    ensures Covered(DoSendStdout(s, fate))
  {
    if s.agent.Some? {
      SendChunkIsSmall(s.agent.value.stdout, s.up, fate);
    }
  }

  // ---- runs over any number of restarts ----

  /** No step of the run uncovers stdout. */
  ghost predicate CleanRun(s: Stream, run: seq<Action>)
    requires Inv(s)
    decreases |run|
  {
    run == [] ||
    (&& !Uncovers(s, run[0])
     && (ApplyKeeps(s, run[0]);
         CleanRun(Apply(s, run[0]), run[1..])))
  }

  /** The k-th server began no later than where the reader before it stopped. */
  predicate Joined(served: seq<Session>, k: nat)
    requires k < |served|
  {
    served[k].from <= (if k == 0 then 0 else served[k - 1].to)
  }

  ghost predicate Unbroken(s: Stream) {
    && Covered(s)
    && (forall k :: 0 <= k < |s.served| ==> Joined(s.served, k))
    && (s.hub.end.Some? ==> s.hub.end.value.stdout.start <= TakenBefore(s.served))
  }

  lemma RetiredJoined(s: Stream)
    requires Unbroken(s)
    ensures forall k :: 0 <= k < |Retired(s)| ==> Joined(Retired(s), k)
    ensures TakenBefore(Retired(s)) == LastTo(s)
  {
    forall k | 0 <= k < |Retired(s)|
      ensures Joined(Retired(s), k)
    {
      if k < |s.served| {
        assert Joined(s.served, k);
      } else {
        assert k == 0 || Retired(s)[k - 1] == s.served[k - 1];
      }
    }
  }

  lemma SameServers(s: Stream, act: Action)
    requires Ready(s) && StageOk(s) && !act.Attach? && !act.ServerRestart?
    ensures var t := Apply(s, act);
            && t.served == s.served
            && (t.hub.end.Some? ==>
                t.hub.end.value.stdout.start == if s.hub.end.Some? then s.hub.end.value.stdout.start else 0)
  {
    if act.DeliverUp? {
      DeliveryKeepsServers(s);
    } else if act.DeliverDown? {
      assert Apply(s, act).hub == s.hub && Apply(s, act).served == s.served;
    } else if act.SendStdin? {
      assert Apply(s, act).served == s.served;
    }
  }

  lemma UnbrokenStep(s: Stream, act: Action)
    requires Inv(s) && Unbroken(s) && !Uncovers(s, act)
    ensures Unbroken(Apply(s, act))
  {
    if act.Attach? {
      AttachUnbroken(s, act.adoptOk);
    } else if act.ServerRestart? {
      CoveredStep(s, act);
      RetiredJoined(s);
    } else {
      CoveredStep(s, act);
      SameServers(s, act);
    }
  }

  lemma DeliveryKeepsServers(s: Stream)
    requires Ready(s)
    ensures var t := DoDeliverUp(s);
            && t.served == s.served && (t.hub.end.Some? <==> s.hub.end.Some?)
            && (t.hub.end.Some? ==> t.hub.end.value.stdout.start == s.hub.end.value.stdout.start)
  {
    if s.up != [] {
      TakingKeeps(s.(up := s.up[1..]), s.up[0]);
      if s.hub.end.Some? {
        DeliveryAdvances(s);
      }
    }
  }

  lemma AttachUnbroken(s: Stream, ok: bool)
    requires Inv(s) && Unbroken(s)
    ensures Unbroken(DoAttach(s, ok))
  {
    AttachCovers(s, ok);
    RetiredJoined(s);
  }

  lemma {:induction false} UnbrokenRun(s: Stream, run: seq<Action>)
    requires Inv(s) && Unbroken(s) && CleanRun(s, run)
    ensures Inv(Exec(s, run)) && Unbroken(Exec(s, run))
    decreases |run|
  {
    if run != [] {
      ApplyKeeps(s, run[0]);
      UnbrokenStep(s, run[0]);
      UnbrokenRun(Apply(s, run[0]), run[1..]);
    }
  }

  /** Some server's reader took the whole line [i, j). */
  ghost predicate Served(s: Stream, i: nat, j: nat) {
    || (s.hub.end.Some? && s.hub.end.value.stdout.start <= i && j <= s.hub.end.value.stdout.Consumed())
    || (exists k :: 0 <= k < |s.served| && s.served[k].from <= i && j <= s.served[k].to)
  }

  /** Lines the first |served| servers got past were each taken whole by one of them. */
  lemma {:induction false} LinesServedBefore(stdout: seq<byte>, served: seq<Session>, i: nat, j: nat) returns (k: nat)
    requires IsLine(stdout, i, j) && j <= TakenBefore(served)
    requires forall k :: 0 <= k < |served| ==> SessionOk(stdout, served, k) && Joined(served, k)
    ensures k < |served| && served[k].from <= i && j <= served[k].to
    decreases |served|
  {
    var n := |served| - 1;
    assert SessionOk(stdout, served, n) && Joined(served, n);
    if served[n].from < j {
      LineStartBeforeLineEnd(stdout, i, j, served[n].from);
      k := n;
    } else {
      forall m | 0 <= m < n
        ensures SessionOk(stdout, served[..n], m) && Joined(served[..n], m)
      {
        assert SessionOk(stdout, served, m) && Joined(served, m);
      }
      k := LinesServedBefore(stdout, served[..n], i, j);
    }
  }

  /**
   Over any number of drops, reconnects and server restarts, as long as no step uncovered stdout: every
   complete line of it up to where the latest reader stands was taken whole by one server's reader, and the
   agent holds every line beyond it whole, in the buffer of a stream it still lists.
   */
  lemma NoLineLost(hubLimit: int, agentLimit: int, run: seq<Action>, i: nat, j: nat)
    requires Inv(Initial(hubLimit, agentLimit)) && CleanRun(Initial(hubLimit, agentLimit), run)
    ensures var s := After(hubLimit, agentLimit, run);
            IsLine(s.stdout, i, j) ==>
              && (j <= LastTo(s) ==> Served(s, i, j))
              && (j > LastTo(s) ==> Keeps(s) && s.agent.value.stdout.base <= i)
  {
    var s := After(hubLimit, agentLimit, run);
    UnbrokenRun(Initial(hubLimit, agentLimit), run);
    if IsLine(s.stdout, i, j) {
      if j <= LastTo(s) {
        if s.hub.end.Some? && s.hub.end.value.stdout.start < j {
          LineStartBeforeLineEnd(s.stdout, i, j, s.hub.end.value.stdout.start);
        } else {
          var k := LinesServedBefore(s.stdout, s.served, i, j);
        }
      } else {
        LineStartBeforeLineEnd(s.stdout, i, j, s.agent.value.stdout.base);
      }
    }
  }

  // ---- a run that loses a line ----

  const LINE: seq<byte> := [97, NEWLINE]

  /** Connect, and spawn the process. */
  const CONNECT: seq<Action> := [Attach(true), Welcome, HubStart]
  const SPAWN: seq<Action> := [DeliverDown, AgentStart(true), DeliverUp]

  /** The process writes a line; the server receives it, but its reader does not take it. */
  const DELIVER: seq<Action> := [StdoutWrite(LINE), SendStdout(Sent), DeliverUp]

  /** The connection drops and is resumed; then the server restarts and adopts. */
  const RECONNECT: seq<Action> := [Drop, Attach(true), Welcome]
  const RESTART: seq<Action> := [ServerRestart(9), Attach(true), Welcome]

  lemma ExecThree(s: Stream, a: Action, t: Stream, b: Action, u: Stream, c: Action, v: Stream)
    requires Inv(s) && t == Apply(s, a) && Ready(t) && u == Apply(t, b) && Ready(u) && v == Apply(u, c)
    ensures Inv(v) && Exec(s, [a, b, c]) == v
  {
    ExecOne(s, a, t, [b, c]);
    ExecOne(t, b, u, [c]);
    ExecOne(u, c, v, []);
    assert [a] + [b, c] == [a, b, c] && [b] + [c] == [b, c] && [c] + [] == [c];
  }

  /** Connected, with the spawn on its way. */
  function Asked(): Stream {
    Initial(9, 9).(phase := Up, stage := Requested, down := [Spawn],
      hub := HubSide(Some(HubEnd(Fresh([], 9), Empty(0), true, true, false, 0)), false, false))
  }

  lemma RunConnects()
    ensures Inv(Initial(9, 9)) && Exec(Initial(9, 9), CONNECT) == Asked()
  {
    InitialInv(9, 9);
    var i := Initial(9, 9);
    assert [] + [Spawn] == [Spawn];
    ExecThree(i, Attach(true), i.(phase := Welcoming), Welcome, i.(phase := Up), HubStart, Asked());
  }

  /** The server's and the agent's end of this run's stream, around the windows given. */
  function HubWith(b: Inbound): HubSide {
    HubSide(Some(HubEnd(Fresh([], 9), b, true, false, false, 0)), false, false)
  }

  function AgentWith(w: Window): Option<AgentEnd> {
    Some(AgentEnd(w, Empty(0), true, false, false))
  }

  /** The states of this run while the process lives. */
  function Alive(phase: Phase, b: Inbound, w: Window, up: seq<Msg>): Stream {
    Initial(9, 9).(phase := phase, stage := Started, hub := HubWith(b), agent := AgentWith(w), up := up,
                   stdout := w.all)
  }

  /** The agent has taken the spawn; then it has started the process, and its reply is on its way. */
  function Taken(): Stream {
    Asked().(stage := Spawning, down := [])
  }

  function Replied(): Stream {
    SetAgent(Taken(), AgentWith(Fresh([], 9)).value).(stage := Started, up := [Spawned])
  }

  lemma ProcessStarts()
    ensures Ready(Taken()) && Apply(Taken(), AgentStart(true)) == Replied()
  {
    assert [] + [Spawned] == [Spawned];
  }

  lemma StartIsHeard()
    ensures Ready(Replied()) && Apply(Replied(), DeliverUp) == Alive(Up, Empty(0), Fresh([], 9), [])
  {
  }

  lemma RunSpawns()
    requires Inv(Asked())
    ensures Exec(Asked(), SPAWN) == Alive(Up, Empty(0), Fresh([], 9), [])
  {
    assert Apply(Asked(), DeliverDown) == Taken();
    ProcessStarts();
    StartIsHeard();
    ExecThree(Asked(), DeliverDown, Taken(), AgentStart(true), Replied(), DeliverUp,
              Alive(Up, Empty(0), Fresh([], 9), []));
  }

  /** The line is with the server, nobody has read it, and the agent's buffer begins at `base`. */
  function Unread(phase: Phase, base: nat): Stream {
    Alive(phase, Inbound(0, LINE, 0, 2, false), Window(0, LINE, base, 2, 9, false), [])
  }

  lemma LineWritten()
    ensures Ready(Alive(Up, Empty(0), Fresh([], 9), []))
    ensures Apply(Alive(Up, Empty(0), Fresh([], 9), []), StdoutWrite(LINE))
         == Alive(Up, Empty(0), Window(0, LINE, 0, 0, 9, false), [])
  {
    assert [] + LINE == LINE;
  }

  lemma LineSent()
    ensures Ready(Alive(Up, Empty(0), Window(0, LINE, 0, 0, 9, false), []))
    ensures Apply(Alive(Up, Empty(0), Window(0, LINE, 0, 0, 9, false), []), SendStdout(Sent))
         == Alive(Up, Empty(0), Window(0, LINE, 0, 2, 9, false), [Data(0, LINE)])
  {
    var w := Window(0, LINE, 0, 0, 9, false);
    assert LINE[0..2] == LINE;
    assert w.Next(MAX_CHUNK) == (w.(sent := 2), Chunk(0, LINE));
  }

  lemma LineArrives()
    ensures Ready(Alive(Up, Empty(0), Window(0, LINE, 0, 2, 9, false), [Data(0, LINE)]))
    ensures Apply(Alive(Up, Empty(0), Window(0, LINE, 0, 2, 9, false), [Data(0, LINE)]), DeliverUp) == Unread(Up, 0)
  {
    assert [] + LINE[0..] == LINE;
    assert Empty(0).Accept(0, LINE).0 == Inbound(0, LINE, 0, 2, false);
  }

  lemma RunDelivers()
    requires Inv(Alive(Up, Empty(0), Fresh([], 9), []))
    ensures Exec(Alive(Up, Empty(0), Fresh([], 9), []), DELIVER) == Unread(Up, 0)
  {
    LineWritten();
    LineSent();
    LineArrives();
    ExecThree(Alive(Up, Empty(0), Fresh([], 9), []),
              StdoutWrite(LINE), Alive(Up, Empty(0), Window(0, LINE, 0, 0, 9, false), []),
              SendStdout(Sent), Alive(Up, Empty(0), Window(0, LINE, 0, 2, 9, false), [Data(0, LINE)]),
              DeliverUp, Unread(Up, 0));
  }

  /** The resume rewinds the agent's buffer to what the server received, and so trims the line. */
  lemma LineTrimmed()
    ensures Fresh([], 9).Rewind(0) == (Fresh([], 9), Rewound)
    ensures Window(0, LINE, 0, 2, 9, false).Rewind(2) == (Window(0, LINE, 2, 2, 9, false), Rewound)
  {
    assert LINE[0..2] == LINE && LastIndex(LINE, NEWLINE) == 1;
  }

  /** The server has answered the hello with what it received. */
  function Resuming(): Stream {
    Unread(Down, 0).(phase := Welcoming, answer := Some(Resume(2)))
  }

  lemma ConnectionDrops()
    ensures Ready(Unread(Up, 0)) && Apply(Unread(Up, 0), Drop) == Unread(Down, 0)
  {
  }

  lemma ResumeIsAnswered()
    ensures Ready(Unread(Down, 0)) && Apply(Unread(Down, 0), Attach(true)) == Resuming()
  {
    LineTrimmed();
  }

  lemma ResumeTrims()
    ensures Ready(Resuming()) && Apply(Resuming(), Welcome) == Unread(Up, 2)
  {
    LineTrimmed();
  }

  lemma RunReconnects()
    requires Inv(Unread(Up, 0))
    ensures Exec(Unread(Up, 0), RECONNECT) == Unread(Up, 2)
  {
    ConnectionDrops();
    ResumeIsAnswered();
    ResumeTrims();
    ExecThree(Unread(Up, 0), Drop, Unread(Down, 0), Attach(true), Resuming(), Welcome, Unread(Up, 2));
  }

  /** A new server; then it has adopted the stream where the agent's buffer begins. */
  function Replaced(): Stream {
    Unread(Down, 2).(hub := NewEnd(), served := [Session(0, 0, 2)])
  }

  function Adopting(): Stream {
    Replaced().(phase := Welcoming, answer := Some(Resume(2)),
      hub := HubSide(Some(HubEnd(Fresh([], 9), Empty(2), true, false, false, 0)), false, false))
  }

  lemma ServerIsReplaced()
    ensures Ready(Unread(Up, 2)) && Apply(Unread(Up, 2), ServerRestart(9)) == Replaced()
  {
  }

  lemma StreamIsAdopted()
    ensures Ready(Replaced()) && Apply(Replaced(), Attach(true)) == Adopting()
  {
  }

  lemma AdoptionIsWelcome()
    ensures Window(0, LINE, 2, 2, 9, false).Rewind(2) == (Window(0, LINE, 2, 2, 9, false), Rewound)
    ensures Ready(Adopting()) && Apply(Adopting(), Welcome) == Adopting().(phase := Up, answer := None)
  {
  }

  lemma RunRestarts()
    requires Inv(Unread(Up, 2))
    ensures Exec(Unread(Up, 2), RESTART) == Adopting().(phase := Up, answer := None)
  {
    ServerIsReplaced();
    StreamIsAdopted();
    AdoptionIsWelcome();
    ExecThree(Unread(Up, 2), ServerRestart(9), Replaced(), Attach(true), Adopting(), Welcome,
              Adopting().(phase := Up, answer := None));
  }

  const LOSING_RUN: seq<Action> := CONNECT + SPAWN + DELIVER + RECONNECT + RESTART

  lemma LosingRun()
    ensures After(9, 9, LOSING_RUN) == Adopting().(phase := Up, answer := None)
  {
    var i := Initial(9, 9);
    RunConnects();
    ExecConcat(i, CONNECT, SPAWN);
    RunSpawns();
    ExecConcat(i, CONNECT + SPAWN, DELIVER);
    RunDelivers();
    ExecConcat(i, CONNECT + SPAWN + DELIVER, RECONNECT);
    RunReconnects();
    ExecConcat(i, CONNECT + SPAWN + DELIVER + RECONNECT, RESTART);
    RunRestarts();
  }

  /**
   The no-line-lost claim fails after a reconnect: in this run the process wrote one line, the old
   server's reader took nothing of it, and the server that adopted the stream begins after it.
   */
  lemma LineLostAfterReconnect()
    ensures var s := After(9, 9, LOSING_RUN);
            && IsLine(s.stdout, 0, 2) && s.served == [Session(0, 0, 2)]
            && s.hub.Known() && s.hub.end.value.stdout == Empty(2) && !Served(s, 0, 2)
  {
    LosingRun();
  }
}
