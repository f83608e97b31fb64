/** When a line of stdout is lost for good: no reader took it whole, and none in any future can. */
module LostLines {
  import opened Bytes
  import opened Outboxes
  import opened Inbufs
  import opened Wrappers
  import opened Ends
  import opened Protocol
  import opened Invariant
  import opened Guarantees
  import opened CatchUps
  import opened Restarts

  /** A later server can adopt the stream and begin at the line's start or before. */
  ghost predicate Adoptable(s: Stream, i: nat) {
    Keeps(s) && !s.agent.value.exited && s.agent.value.stdout.base <= i
  }

  /** After the run some reader has taken the line [i, j) whole. */
  ghost predicate Serves(s: Stream, run: seq<Action>, i: nat, j: nat)
    requires Inv(s)
  {
    Served(Exec(s, run), i, j)
  }

  // ---- what cannot be taken whole any more ----

  /** The line [i, j) was written and taken whole by nobody; no server's end, present or later, begins before it. */
  ghost predicate OutOfReach(s: Stream, i: nat, j: nat) {
    && 0 < j <= |s.stdout| && !Served(s, i, j) && !Adoptable(s, i)
    && (s.hub.end.Some? ==> s.hub.end.value.stdout.start > i)
  }

  /** What the agent gave up it does not get back. */
  lemma AgentOnlyLoses(s: Stream, act: Action)
    requires Inv(s) && Keeps(s) && Keeps(Apply(s, act))
    ensures var a, b := s.agent.value, Apply(s, act).agent.value;
            (a.exited ==> b.exited) && a.stdout.base <= b.stdout.base
  {
    if act.DeliverUp? {
      UpLeavesAgent(s);
    } else if act.DeliverDown? {
      DownOnlyTrims(s);
    } else if act.Welcome? {
      WelcomeOnlyTrims(s);
    } else {
      OthersLeaveBase(s, act);
    }
  }

  lemma OthersLeaveBase(s: Stream, act: Action)
    requires Ready(s) && StageOk(s) && Keeps(s) && !act.DeliverUp? && !act.DeliverDown? && !act.Welcome?
    ensures Keeps(Apply(s, act)) ==>
              var a, b := s.agent.value, Apply(s, act).agent.value;
              (a.exited ==> b.exited) && b.stdout.base == a.stdout.base
  {
  }

  lemma UpLeavesAgent(s: Stream)
    requires Ready(s) && Keeps(s) && Keeps(DoDeliverUp(s))
    ensures var a, b := s.agent.value, DoDeliverUp(s).agent.value; b == a.(exitSent := b.exitSent)
  {
    if s.up != [] {
      TakingKeeps(s.(up := s.up[1..]), s.up[0]);
    }
  }

  lemma DownOnlyTrims(s: Stream)
    requires Ready(s) && Keeps(s) && Keeps(DoDeliverDown(s))
    ensures var a, b := s.agent.value, DoDeliverDown(s).agent.value;
            (a.exited ==> b.exited) && a.stdout.base <= b.stdout.base
  {
    if s.phase == Up && s.down != [] && s.down[0].Ack? {
      AckTrims(s.agent.value.stdout, s.down[0].upTo);
    }
  }

  lemma WelcomeOnlyTrims(s: Stream)
    requires Ready(s) && Keeps(s) && Keeps(DoWelcome(s))
    ensures var a, b := s.agent.value, DoWelcome(s).agent.value;
            (a.exited ==> b.exited) && a.stdout.base <= b.stdout.base
  {
    if s.phase == Welcoming && s.answer.Some? && s.answer.value.Resume? {
      RewindPositions(s.agent.value.stdout, s.answer.value.outFrom);
    }
  }

  lemma StaysUnadoptable(s: Stream, act: Action, i: nat)
    requires Inv(s) && s.stdout != [] && !Adoptable(s, i)
    ensures !Adoptable(Apply(s, act), i)
  {
    if Keeps(s) {
      if Keeps(Apply(s, act)) {
        AgentOnlyLoses(s, act);
      }
    } else {
      assert Gone(s);
      GoneStays(s, act);
      ApplyKeeps(s, act);
    }
  }

  lemma StdoutStays(s: Stream, act: Action)
    requires Inv(s)
    ensures s.stdout <= Apply(s, act).stdout
  {
    if act.DeliverUp? && s.up != [] {
      TakingKeeps(s.(up := s.up[1..]), s.up[0]);
    }
  }

  lemma ServersStay(s: Stream, act: Action, i: nat, j: nat)
    requires Inv(s) && OutOfReach(s, i, j) && !act.Attach? && !act.ServerRestart?
    ensures !Served(Apply(s, act), i, j)
    ensures Apply(s, act).hub.end.Some? ==> Apply(s, act).hub.end.value.stdout.start > i
  {
    SameServers(s, act);
    if s.hub.end.None? {
      NoEndAppears(s, act);
    }
  }

  lemma NoEndAppears(s: Stream, act: Action)
    requires Ready(s) && StageOk(s) && s.stdout != [] && s.hub.end.None? && !act.Attach?
    ensures Apply(s, act).hub.end.None?
  {
    if act.DeliverUp? && s.up != [] {
      TakingKeeps(s.(up := s.up[1..]), s.up[0]);
    }
  }

  lemma RetiredUnserved(s: Stream, i: nat, j: nat)
    requires OutOfReach(s, i, j)
    ensures forall k :: 0 <= k < |Retired(s)| ==> !(Retired(s)[k].from <= i && j <= Retired(s)[k].to)
  {
    forall k | 0 <= k < |Retired(s)|
      ensures !(Retired(s)[k].from <= i && j <= Retired(s)[k].to)
    {
      if k < |s.served| {
        assert Retired(s)[k] == s.served[k];
      }
    }
  }

  lemma AttachMisses(s: Stream, ok: bool, i: nat, j: nat)
    requires Inv(s) && OutOfReach(s, i, j)
    ensures !Served(DoAttach(s, ok), i, j)
    ensures DoAttach(s, ok).hub.end.Some? ==> DoAttach(s, ok).hub.end.value.stdout.start > i
  {
    RetiredUnserved(s, i, j);
  }

  lemma ReplacingMisses(s: Stream, limit: int, i: nat, j: nat)
    requires OutOfReach(s, i, j)
    ensures !Served(DoServerRestart(s, limit), i, j) && DoServerRestart(s, limit).hub.end.None?
  {
    RetiredUnserved(s, i, j);
  }

  lemma StaysOutOfReach(s: Stream, act: Action, i: nat, j: nat)
    requires Inv(s) && OutOfReach(s, i, j)
    ensures OutOfReach(Apply(s, act), i, j)
  {
    StaysUnadoptable(s, act, i);
    StdoutStays(s, act);
    if act.Attach? {
      AttachMisses(s, act.adoptOk, i, j);
    } else if act.ServerRestart? {
      ReplacingMisses(s, act.limit, i, j);
    } else {
      ServersStay(s, act, i, j);
    }
  }

  lemma {:induction false} NeverServed(s: Stream, run: seq<Action>, i: nat, j: nat)
    requires Inv(s) && OutOfReach(s, i, j)
    ensures !Serves(s, run, i, j)
    decreases |run|
  {
    if run != [] {
      StaysOutOfReach(s, run[0], i, j);
      ApplyKeeps(s, run[0]);
      NeverServed(Apply(s, run[0]), run[1..], i, j);
    }
  }

  // ---- what still can ----

  lemma ReadsAll(s: Stream, e: HubEnd)
    requires Inv(s) && Resumed(s, s.stdout, e) && !e.starting
    requires s.hub.end.value.stdout.got == s.stdout[e.stdout.start..]
    ensures var t := DoHubRead(s, |s.stdout|);
            && t.hub.end.Some? && t.hub.end.value.stdout.start == e.stdout.start
            && t.hub.end.value.stdout.Consumed() == |s.stdout|
  {
  }

  lemma Readopted(s: Stream, i: nat)
    requires Inv(s) && s.hub == NewEnd() && Adoptable(s, i)
    ensures var d := Dropped(s);
            && Inv(d) && d.phase == Down && Hello(d).Some? && d.stdout == s.stdout && DoAttach(d, true).hub.Known()
            && DoAttach(d, true).hub.end.value.stdout.start <= i && !DoAttach(d, true).hub.end.value.starting
  {
    DroppedKeeps(s);
  }

  lemma CaughtUp(d: Stream, i: nat, j: nat) returns (run: seq<Action>)
    requires Inv(d) && d.phase == Down && Hello(d).Some? && DoAttach(d, true).hub.Known() && j <= |d.stdout|
    requires DoAttach(d, true).hub.end.value.stdout.start <= i && !DoAttach(d, true).hub.end.value.starting
    ensures Serves(d, run, i, j)
  {
    var catching, frames := CatchesUp(d);
    var t, reading := Exec(d, catching), HubRead(|d.stdout|);
    ReadsAll(t, DoAttach(d, true).hub.end.value);
    RunThenRead(d, catching, |d.stdout|);
    run := catching + [reading];
  }

  lemma RunThenRead(d: Stream, run: seq<Action>, n: nat)
    requires Inv(d)
    ensures Inv(Exec(d, run)) && Exec(d, run + [HubRead(n)]) == DoHubRead(Exec(d, run), n)
  {
    RunKeeps(d, run);
    var t := Exec(d, run);
    ExecOne(t, HubRead(n), DoHubRead(t, n), []);
    assert [HubRead(n)] + [] == [HubRead(n)];
    ExecConcat(d, run, [HubRead(n)]);
  }

  /** The connection is made again, the stream adopted, everything sent, and read. */
  lemma Recovers(s: Stream, i: nat, j: nat) returns (run: seq<Action>)
    requires Inv(s) && s.hub == NewEnd() && Adoptable(s, i) && j <= |s.stdout|
    ensures Serves(s, run, i, j)
  {
    Readopted(s, i);
    var rest := CaughtUp(Dropped(s), i, j);
    ExecOne(s, Drop, Dropped(s), rest);
    run := [Drop] + rest;
  }

  /**
   A line no reader took whole, once no server has the stream: some later reader can still take it whole
   exactly when the agent lists the stream, its process runs, and its buffer begins no later than the line.
   */
  lemma RecoverableIff(s: Stream, i: nat, j: nat)
    requires Inv(s) && s.hub == NewEnd() && IsLine(s.stdout, i, j) && !Served(s, i, j)
    ensures (exists run :: Serves(s, run, i, j)) <==> Adoptable(s, i)
  {
    if Adoptable(s, i) {
      var run := Recovers(s, i, j);
    } else {
      forall run: seq<Action>
        ensures !Serves(s, run, i, j)
      {
        NeverServed(s, run, i, j);
      }
    }
  }

  /** So a server restart loses the lines nobody took whole for good, unless the stream can be adopted before them. */
  lemma RestartLosesIff(s: Stream, limit: int, i: nat, j: nat)
    requires Inv(s) && IsLine(s.stdout, i, j) && !Served(DoServerRestart(s, limit), i, j)
    ensures Inv(DoServerRestart(s, limit))
    ensures (forall run :: !Serves(DoServerRestart(s, limit), run, i, j)) <==> !Adoptable(s, i)
  {
    ServerRestartKeeps(s, limit);
    RecoverableIff(DoServerRestart(s, limit), i, j);
  }

  // ---- a run that loses a line by a forget ----

  /** The process has exited, and all of its output is with the server, unread. */
  function Exited(hub: HubSide, agent: AgentEnd, up: seq<Msg>, down: seq<Msg>, forgetDue: bool): Stream {
    Unread(Up, 0).(hub := hub, agent := Some(agent), up := up, down := down, forgetDue := forgetDue)
  }

  /** The agent's end before and after it sent the exit, and the server's end before and after it heard of it. */
  const GONE := AgentEnd(Window(0, LINE, 0, 2, 9, true), Inbound(0, [], 0, 0, true), true, true, false)
  const UNAWARE := HubWith(Inbound(0, LINE, 0, 2, false))
  const AWARE := HubSide(Some(HubEnd(Fresh([], 9), Inbound(0, LINE, 0, 2, true), true, false, true, 0)), false, false)

  const EXIT: seq<Action> := [ProcessExit, SendExit(Sent), DeliverUp]
  const FORGET: seq<Action> := [SendForget(true), DeliverDown, ServerRestart(9)]

  lemma ProcessEnds()
    ensures Ready(Unread(Up, 0)) && Apply(Unread(Up, 0), ProcessExit) == Exited(UNAWARE, GONE, [], [], false)
  {
  }

  lemma ExitGoes()
    ensures Ready(Exited(UNAWARE, GONE, [], [], false))
    ensures Apply(Exited(UNAWARE, GONE, [], [], false), SendExit(Sent))
         == Exited(UNAWARE, GONE.(exitSent := true), [Exit], [], false)
  {
    assert [] + [Exit] == [Exit];
  }

  lemma ExitIsHeard()
    ensures Ready(Exited(UNAWARE, GONE.(exitSent := true), [Exit], [], false))
    ensures Apply(Exited(UNAWARE, GONE.(exitSent := true), [Exit], [], false), DeliverUp)
         == Exited(AWARE, GONE.(exitSent := true), [], [], true)
  {
  }

  lemma ForgetGoes()
    ensures Ready(Exited(AWARE, GONE.(exitSent := true), [], [], true))
    ensures Apply(Exited(AWARE, GONE.(exitSent := true), [], [], true), SendForget(true))
         == Exited(AWARE, GONE.(exitSent := true), [], [Forget], false)
  {
    assert [] + [Forget] == [Forget];
  }

  lemma ForgetIsHeard()
    ensures Ready(Exited(AWARE, GONE.(exitSent := true), [], [Forget], false))
    ensures Apply(Exited(AWARE, GONE.(exitSent := true), [], [Forget], false), DeliverDown)
         == Exited(AWARE, GONE.(exitSent := true, listed := false), [], [], false)
  {
  }

  /** The next server; the agent knows nothing of the stream. */
  function Nowhere(): Stream {
    Unread(Down, 0).(hub := NewEnd(), agent := Some(GONE.(listed := false)), served := [Session(0, 0, 2)])
  }

  lemma ServerGoes()
    ensures Ready(Exited(AWARE, GONE.(exitSent := true, listed := false), [], [], false))
    ensures Apply(Exited(AWARE, GONE.(exitSent := true, listed := false), [], [], false), ServerRestart(9)) == Nowhere()
  {
  }

  lemma NowhereIsTooLate()
    ensures IsLine(Nowhere().stdout, 0, 2) && OutOfReach(Nowhere(), 0, 2)
  {
  }

  lemma RunExits()
    requires Inv(Unread(Up, 0))
    ensures Exec(Unread(Up, 0), EXIT) == Exited(AWARE, GONE.(exitSent := true), [], [], true)
  {
    ProcessEnds();
    ExitGoes();
    ExitIsHeard();
    ExecThree(Unread(Up, 0), ProcessExit, Exited(UNAWARE, GONE, [], [], false),
              SendExit(Sent), Exited(UNAWARE, GONE.(exitSent := true), [Exit], [], false),
              DeliverUp, Exited(AWARE, GONE.(exitSent := true), [], [], true));
  }

  lemma RunForgets()
    requires Inv(Exited(AWARE, GONE.(exitSent := true), [], [], true))
    ensures Exec(Exited(AWARE, GONE.(exitSent := true), [], [], true), FORGET) == Nowhere()
  {
    ForgetGoes();
    ForgetIsHeard();
    ServerGoes();
    ExecThree(Exited(AWARE, GONE.(exitSent := true), [], [], true),
              SendForget(true), Exited(AWARE, GONE.(exitSent := true), [], [Forget], false),
              DeliverDown, Exited(AWARE, GONE.(exitSent := true, listed := false), [], [], false),
              ServerRestart(9), Nowhere());
  }

  const FORGETTING_RUN: seq<Action> := CONNECT + SPAWN + DELIVER + EXIT + FORGET

  lemma ForgettingRun()
    ensures After(9, 9, FORGETTING_RUN) == Nowhere()
  {
    var i := Initial(9, 9);
    RunConnects();
    ExecConcat(i, CONNECT, SPAWN);
    RunSpawns();
    ExecConcat(i, CONNECT + SPAWN, DELIVER);
    RunDelivers();
    ExecConcat(i, CONNECT + SPAWN + DELIVER, EXIT);
    RunExits();
    ExecConcat(i, CONNECT + SPAWN + DELIVER + EXIT, FORGET);
    RunForgets();
  }

  /**
   A line lost without a resume: the process exits, the server answers with a forget before its reader has
   taken the line, and goes. No reader ever takes the line, whatever happens afterwards.
   */
  lemma LineLostByForget(more: seq<Action>)
    ensures var s := After(9, 9, FORGETTING_RUN);
            && IsLine(s.stdout, 0, 2) && s.served == [Session(0, 0, 2)] && !Serves(s, more, 0, 2)
  {
    ForgettingRun();
    NowhereIsTooLate();
    NeverServed(After(9, 9, FORGETTING_RUN), more, 0, 2);
  }
}
