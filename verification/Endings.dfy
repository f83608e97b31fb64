/** How a stream starts, is refused, and ends: what each side has to hear, and does. */
module Endings {
  import opened Bytes
  import opened Outboxes
  import opened Inbufs
  import opened Wrappers
  import opened Ends
  import opened Protocol
  import opened Invariant
  import opened Guarantees
  import opened CatchUps

  // ---- the spawn and its answer ----

  /** A started process gives both sides an empty stream. */
  lemma SpawnSucceeds(s: Stream)
    requires Inv(s) && s.phase == Up && s.stage == Spawning && s.hub.Known()
    ensures var t := Exec(s, [AgentStart(true), DeliverUp]);
            && Inv(t) && t.hub.Known() && !t.hub.end.value.starting && t.stage == Started
            && t.agent == Some(AgentEnd(Fresh([], s.agentLimit), Empty(0), true, false, false))
  {
    TwoSteps(s, AgentStart(true), DeliverUp);
    assert Apply(s, AgentStart(true)).up == [Spawned];
  }

  /** A refused one leaves neither side anything. */
  lemma SpawnIsRefused(s: Stream)
    requires Inv(s) && s.phase == Up && s.stage == Spawning && s.hub.Known()
    ensures var t := Exec(s, [AgentSpawnFails(true), DeliverUp]);
            Inv(t) && !t.hub.Known() && t.stage == Dead && Gone(t)
  {
    TwoSteps(s, AgentSpawnFails(true), DeliverUp);
    assert Apply(s, AgentSpawnFails(true)).up == [SpawnFailed];
  }

  // ---- refused ----

  /**
   A stream the server does not hold is taken in exactly when the router agrees to and nothing speaks against it;
   any other is answered kill, leaves no trace in the server, and the agent lets go of it for good.
   */
  lemma TakenInIff(s: Stream, adoptOk: bool)
    requires Inv(s) && s.phase == Down && !s.hub.Known() && Hello(s).Some?
    ensures var t := DoAttach(s, adoptOk);
            && Inv(t) && Ready(t)
            && (t.hub.Known() <==> adoptOk && !s.hub.finished && !s.hub.tomb && !s.agent.value.exited)
            && (t.hub.Known() <==> t.answer != Some(Kill))
            && (!t.hub.Known() ==>
                  && t.answer == Some(Kill) && t.hub.end == s.hub.end && t.hub.finished == s.hub.finished
                  && t.served == s.served && Gone(DoWelcome(t)))
  {
    AttachKeeps(s, adoptOk);
  }

  // ---- let go of ----

  /** The steps that end a handle: the exit was handled, the stream is given up, or the hello no longer lists it. */
  ghost predicate EndsHandle(s: Stream, act: Action) {
    && s.hub.Known()
    && (|| act.HubGiveUp?
        || (act.FinishExit? && s.hub.end.value.exitSeen)
        || (act.Attach? && s.phase == Down && Hello(s).None?))
  }

  /** What a reader gets of `c` from now on, with reads of any sizes: never more than `rest`, and all of it in time. */
  ghost predicate ReadsOut(c: Inbound, rest: seq<byte>)
    requires c.Valid()
  {
    && c.eof
    && forall sizes: seq<nat> ::
         && ReadOut(c, sizes) <= rest
         && ((forall n :: n in sizes ==> n > 0) && |sizes| >= |rest| ==> ReadOut(c, sizes) == rest)
  }

  /** A closed end whose reader has `rest` to read. */
  ghost predicate LeftToRead(e: Option<HubEnd>, rest: seq<byte>) {
    && e.Some? && e.value.stdout.Valid() && ReadsOut(e.value.stdout, rest)
    && forall p: seq<byte> :: e.value.stdin.base <= |e.value.stdin.all| ==> e.value.stdin.Write(p).1 == ClosedPipe
  }

  lemma ClosedLeaves(e: HubEnd, rest: seq<byte>)
    requires e.Closed() && e.stdout.Valid() && rest == e.stdout.got[e.stdout.read..e.stdout.kept]
    ensures LeftToRead(Some(e), rest)
  {
    forall sizes: seq<nat>
      ensures ReadOut(e.stdout, sizes) <= rest
      ensures (forall n :: n in sizes ==> n > 0) && |sizes| >= |rest| ==> ReadOut(e.stdout, sizes) == rest
    {
      EofAfterEveryByte(e.stdout, sizes);
    }
  }

  lemma AllLeft(e: HubEnd)
    requires e.Closed() && e.stdout.Valid() && e.stdout.kept == |e.stdout.got|
    ensures LeftToRead(Some(e), e.stdout.got[e.stdout.read..])
  {
    ClosedLeaves(e, e.stdout.got[e.stdout.read..]);
  }

  lemma RestLeft(b: Inbound, e: HubEnd)
    requires b.Valid() && b.eof && Advances(b, e.stdout) && e.Closed() && e.stdout.Valid()
    ensures b.read <= e.stdout.read <= b.kept <= |b.got|
    ensures LeftToRead(Some(e), b.got[e.stdout.read..b.kept])
  {
    ClosedLeaves(e, b.got[e.stdout.read..b.kept]);
  }

  lemma StepEnds(s: Stream, act: Action)
    requires Ready(s) && EndsHandle(s, act)
    ensures var h, e := Apply(s, act).hub, s.hub.end.value;
            && h.finished
            && h.end == Some(e.(stdout := e.stdout.CloseWrite(), stdin := e.stdin.CloseWrite(), listed := false))
  {
  }

  /**
   Such a step takes the handle out of the table, marks it, and closes it both ways: its reader gets everything
   that was received and then end of file, and a write is refused.
   */
  lemma HandleEnds(s: Stream, act: Action)
    requires Inv(s) && EndsHandle(s, act)
    ensures var h, b := Apply(s, act).hub, s.hub.end.value.stdout;
            && !h.Known() && h.finished && b.read <= |b.got| && LeftToRead(h.end, b.got[b.read..])
  {
    StepEnds(s, act);
    AllLeft(Apply(s, act).hub.end.value);
  }

  lemma FinishedEndStays(s: Stream, act: Action)
    requires Inv(s) && s.hub.finished && s.hub.end.Some? && !act.ServerRestart? && !act.MarkExpires?
    ensures Apply(s, act).hub.end.Some?
    ensures Advances(s.hub.end.value.stdout, Apply(s, act).hub.end.value.stdout)
  {
    if act.Attach? {
      assert Apply(s, act).hub.end == s.hub.end;
    } else {
      ReaderOnlyAdvances(s, act);
    }
  }

  lemma AdvancesOn(a: Inbound, b: Inbound, c: Inbound)
    requires a.eof && Advances(a, b) && Advances(b, c)
    ensures Advances(a, c)
  {
  }

  lemma {:induction false} FinishedEndAdvances(s: Stream, run: seq<Action>)
    requires Inv(s) && s.hub.finished && s.hub.end.Some? && Remembers(run)
    ensures Inv(Exec(s, run)) && Exec(s, run).hub.finished && Exec(s, run).hub.end.Some?
    ensures Advances(s.hub.end.value.stdout, Exec(s, run).hub.end.value.stdout)
    decreases |run|
  {
    if run != [] {
      assert run[0] in run;
      ApplyKeeps(s, run[0]);
      FinishedStays(s, run[0]);
      FinishedEndStays(s, run[0]);
      FinishedEndAdvances(Apply(s, run[0]), run[1..]);
      AdvancesOn(s.hub.end.value.stdout, Apply(s, run[0]).hub.end.value.stdout, Exec(s, run).hub.end.value.stdout);
    }
  }

  lemma FinishedIsClosed(s: Stream)
    requires HubOk(s) && s.hub.finished && s.hub.end.Some?
    ensures s.hub.end.value.Closed() && s.hub.end.value.stdout.Valid()
  {
  }

  /** Whatever happens after that, until the server restarts or an hour has passed: nothing of it is taken away. */
  lemma ReaderComesToEnd(s: Stream, run: seq<Action>)
    requires Inv(s) && s.hub.finished && s.hub.end.Some? && Remembers(run)
    ensures Inv(Exec(s, run))
    ensures var e, b := Exec(s, run).hub.end, s.hub.end.value.stdout;
            && e.Some? && b.read <= e.value.stdout.read <= b.kept <= |b.got|
            && LeftToRead(e, b.got[e.value.stdout.read..b.kept])
  {
    FinishedEndAdvances(s, run);
    FinishedIsClosed(s);
    FinishedIsClosed(Exec(s, run));
    RestLeft(s.hub.end.value.stdout, Exec(s, run).hub.end.value);
  }

  // ---- killed at the next hello ----

  /** The server goes on, and attaches only to hellos that do not list the stream. */
  ghost predicate Unlisted(s: Stream, run: seq<Action>)
    requires Inv(s)
    decreases |run|
  {
    run == []
    || (ApplyKeeps(s, run[0]);
        && !run[0].ServerRestart? && (run[0].Attach? && s.phase == Down ==> Hello(s).None?)
        && Unlisted(Apply(s, run[0]), run[1..]))
  }

  lemma TombStays(s: Stream, act: Action)
    requires Inv(s) && s.hub.tomb && !s.hub.Known() && !act.ServerRestart?
    requires act.Attach? && s.phase == Down ==> Hello(s).None?
    ensures Apply(s, act).hub.tomb && !Apply(s, act).hub.Known()
  {
    if act.DeliverUp? {
      if s.up != [] {
        HubTakesUnknown(s.(up := s.up[1..]), s.up[0]);
      }
    } else {
      OthersKeepTomb(s, act);
    }
  }

  lemma OthersKeepTomb(s: Stream, act: Action)
    requires Ready(s) && StageOk(s) && s.hub.tomb && !s.hub.Known() && !act.ServerRestart? && !act.DeliverUp?
    requires act.Attach? && s.phase == Down ==> Hello(s).None?
    ensures Apply(s, act).hub.tomb && !Apply(s, act).hub.Known()
  {
  }

  /**
   A start that timed out, and a stream given up, are answered kill at the next hello that lists them, however
   late, the finished mark kept or not, and then they are gone for good.
   */
  lemma {:induction false} KilledAtNextHello(s: Stream, run: seq<Action>, adoptOk: bool)
    requires Inv(s) && s.hub.tomb && !s.hub.Known() && Unlisted(s, run)
    ensures var t := Exec(s, run);
            && Inv(t) && t.hub.tomb && !t.hub.Known()
            && (t.phase == Down && Hello(t).Some? ==>
                  && Ready(DoAttach(t, adoptOk)) && DoAttach(t, adoptOk).answer == Some(Kill)
                  && Gone(DoWelcome(DoAttach(t, adoptOk))))
    decreases |run|
  {
    if run == [] {
      if s.phase == Down && Hello(s).Some? {
        TakenInIff(s, adoptOk);
      }
    } else {
      ApplyKeeps(s, run[0]);
      TombStays(s, run[0]);
      KilledAtNextHello(Apply(s, run[0]), run[1..], adoptOk);
    }
  }

  lemma LetGoIsKilled(s: Stream, act: Action, run: seq<Action>, adoptOk: bool)
    requires Inv(s) && s.hub.Known() && (act.HubGiveUp? || (act.StartFails? && s.hub.end.value.starting))
    requires Inv(Apply(s, act)) && Unlisted(Apply(s, act), run)
    ensures var t := Exec(Apply(s, act), run);
            && Inv(t) && !t.hub.Known()
            && (t.phase == Down && Hello(t).Some? ==>
                  && Ready(DoAttach(t, adoptOk)) && DoAttach(t, adoptOk).answer == Some(Kill)
                  && Gone(DoWelcome(DoAttach(t, adoptOk))))
  {
    KilledAtNextHello(Apply(s, act), run, adoptOk);
  }

  // ---- the exit arrives ----

  /** The exit is on its way or was handled. */
  ghost predicate ExitOnItsWay(s: Stream) {
    s.hub.Known() && (s.hub.end.value.exitSeen || Exit in s.up)
  }

  /** On any one connection: once the exit went out it is handled or in flight. */
  lemma ExitNotLost(hubLimit: int, agentLimit: int, run: seq<Action>)
    ensures var s := After(hubLimit, agentLimit, run);
            s.phase == Up && s.hub.Known() && s.agent.Some? && s.agent.value.exitSent ==> ExitOnItsWay(s)
  {
  }

  /** The process has exited, and the exit has yet to be sent on this connection. */
  ghost predicate Exiting(s: Stream) {
    && s.agent.Some? && s.agent.value.exited && !s.agent.value.exitSent
    && s.down == [] && s.hubAck.None? && !s.forgetDue
  }

  lemma GreetedExiting(s: Stream)
    requires Inv(s) && s.phase == Down && Hello(s).Some? && s.agent.value.exited && s.hub.Known()
    ensures var t, e := Exec(s, [Attach(true), Welcome]), DoAttach(s, true).hub.end;
            && e.Some? && Inv(t) && Resumed(t, s.stdout, e.value) && Exiting(t)
            && e.value.stdout.start == s.hub.end.value.stdout.start
  {
    AttachKeeps(s, true);
    assert DoAttach(s, true).hub.Known();
    Greeted(s);
    HandshakeRun(s);
  }

  lemma {:induction false} SendAllQuietly(s: Stream, n: nat)
    requires Inv(s) && s.phase == Up && Exiting(s)
    ensures var t := Exec(s, Repeat(SendStdout(Sent), n));
            Inv(t) && Exiting(t)
    decreases n
  {
    if n > 0 {
      var a := SendStdout(Sent);
      ApplyKeeps(s, a);
      SendOne(s);
      assert Repeat(a, n)[1..] == Repeat(a, n - 1);
      SendAllQuietly(Apply(s, a), n - 1);
    }
  }

  lemma ExitSent(s: Stream, e: HubEnd)
    requires Inv(s) && Resumed(s, s.stdout, e) && Exiting(s) && s.agent.value.stdout.sent == |s.stdout|
    ensures var t := Apply(s, SendExit(Sent));
            && Inv(t) && Resumed(t, s.stdout, e) && t.agent.value.stdout.sent == |s.stdout|
            && Exit in t.up && t.down == [] && t.agent.value.exitSent
  {
    ApplyKeeps(s, SendExit(Sent));
    assert Apply(s, SendExit(Sent)).up == s.up + [Exit];
  }

  lemma ExitDelivered(s: Stream, e: HubEnd)
    requires Inv(s) && Resumed(s, s.stdout, e) && s.agent.value.stdout.sent == |s.stdout|
    requires Exit in s.up && s.down == [] && s.agent.value.exitSent
    ensures var t := Exec(s, Repeat(DeliverUp, |s.up|));
            && Inv(t) && Resumed(t, s.stdout, e) && t.hub.end.value.stdout.got == s.stdout[e.stdout.start..]
            && t.hub.end.value.exitSeen && t.forgetDue && t.down == []
  {
    Delivered(s, e);
    DeliverAllUp(s);
  }

  /** The server finishes the handle and tells the agent. */
  lemma Finishes(s: Stream)
    requires Inv(s) && s.phase == Up && s.hub.Known() && s.hub.end.value.exitSeen && s.forgetDue && s.down == []
    ensures var t := Exec(s, [FinishExit, SendForget(true)]);
            && Inv(t) && t.phase == Up && t.hub == Finish(s.hub) && t.agent == s.agent && t.down == [Forget]
            && t.stage == s.stage
  {
    TwoSteps(s, FinishExit, SendForget(true));
  }

  lemma Forgets(s: Stream)
    requires Inv(s) && s.phase == Up && s.down == [Forget] && s.agent.Some?
    ensures var t := Exec(s, [DeliverDown]);
            Inv(t) && Gone(t) && t.hub == s.hub
  {
    OneStep(s, DeliverDown);
  }

  /** A state in which both sides have let go, and the server's reader still has, or had, `stdout` from `start` on. */
  ghost predicate Over(t: Stream, stdout: seq<byte>, start: nat) {
    && Gone(t) && t.hub.finished && !t.hub.Known() && t.hub.end.Some? && t.hub.end.value.stdout.Valid()
    && start <= |stdout| && t.hub.end.value.stdout.got == stdout[start..]
    && LeftToRead(t.hub.end, t.hub.end.value.stdout.got[t.hub.end.value.stdout.read..])
  }

  lemma BothLetGo(s: Stream)
    requires Inv(s) && s.phase == Up && s.hub.Known() && s.hub.end.value.exitSeen && s.forgetDue && s.down == []
    requires s.agent.Some?
    ensures var t := Exec(s, [FinishExit, SendForget(true)] + [DeliverDown]);
            Inv(t) && Over(t, s.stdout, s.hub.end.value.stdout.start)
  {
    Finishes(s);
    var u := Exec(s, [FinishExit, SendForget(true)]);
    Forgets(u);
    ExecConcat(s, [FinishExit, SendForget(true)], [DeliverDown]);
    ExitSeenIsAll(s);
    AllLeft(u.hub.end.value);
  }

  lemma ExitSeenIsAll(s: Stream)
    requires HubOk(s) && s.hub.end.Some? && s.hub.end.value.exitSeen
    ensures var b := s.hub.end.value.stdout;
            && b.Valid() && b.kept == |b.got| && b.start <= |s.stdout| && b.got == s.stdout[b.start..]
  {
  }

  /** The run that brings an exit home. */
  ghost function Homeward(n: nat, frames: nat): seq<Action> {
    ([Attach(true), Welcome] + Repeat(SendStdout(Sent), n)) + ([SendExit(Sent)] + Repeat(DeliverUp, frames))
  }

  /** The exit is handled with all of stdout there. */
  ghost predicate Home(t: Stream, stdout: seq<byte>, start: nat) {
    && t.phase == Up && t.hub.Known() && t.hub.end.value.exitSeen && t.agent.Some? && t.forgetDue && t.down == []
    && t.stdout == stdout && start <= |stdout| && t.hub.end.value.stdout.start == start
    && t.hub.end.value.stdout.got == stdout[start..]
  }

  lemma ExitSentHome(s: Stream, e: HubEnd) returns (frames: nat)
    requires Inv(s) && Resumed(s, s.stdout, e) && Exiting(s) && s.agent.value.stdout.sent == |s.stdout|
    ensures var t := Exec(s, [SendExit(Sent)] + Repeat(DeliverUp, frames));
            Inv(t) && Home(t, s.stdout, e.stdout.start)
  {
    ExitSent(s, e);
    var v := Apply(s, SendExit(Sent));
    frames := |v.up|;
    ExitDelivered(v, e);
    ExecOne(s, SendExit(Sent), v, Repeat(DeliverUp, frames));
    ExitSeenIsAll(Exec(v, Repeat(DeliverUp, frames)));
  }

  lemma OutputGoesFirst(s: Stream)
    requires Inv(s) && s.phase == Down && Hello(s).Some? && s.agent.value.exited && s.hub.Known()
    ensures var t := Exec(s, [Attach(true), Welcome] + Repeat(SendStdout(Sent), |s.stdout|));
            var e := DoAttach(s, true).hub.end;
            && e.Some? && e.value.stdout.start == s.hub.end.value.stdout.start
            && Inv(t) && Resumed(t, s.stdout, e.value) && Exiting(t) && t.agent.value.stdout.sent == |s.stdout|
  {
    GreetedExiting(s);
    var t := Exec(s, [Attach(true), Welcome]);
    SentOut(t, DoAttach(s, true).hub.end.value);
    SendAllQuietly(t, |s.stdout|);
    ExecConcat(s, [Attach(true), Welcome], Repeat(SendStdout(Sent), |s.stdout|));
  }

  /**
   From any state with the connection down and a process that has exited, its stream listed by the agent and held
   by the server: the handshake, the sends, the exit and their delivery leave the server with all of stdout and
   the exit handled, whatever was sent, acknowledged or lost before.
   */
  lemma ExitArrives(s: Stream) returns (frames: nat)
    requires Inv(s) && s.phase == Down && Hello(s).Some? && s.agent.value.exited && s.hub.Known()
    ensures var t := Exec(s, Homeward(|s.stdout|, frames));
            Inv(t) && Home(t, s.stdout, s.hub.end.value.stdout.start)
  {
    var first := [Attach(true), Welcome] + Repeat(SendStdout(Sent), |s.stdout|);
    OutputGoesFirst(s);
    frames := ExitSentHome(Exec(s, first), DoAttach(s, true).hub.end.value);
    ExecConcat(s, first, [SendExit(Sent)] + Repeat(DeliverUp, frames));
  }

  /** And three steps later both sides have let go of it, its reader left with all of stdout and then end of file. */
  lemma ExitEndsBoth(s: Stream) returns (frames: nat)
    requires Inv(s) && s.phase == Down && Hello(s).Some? && s.agent.value.exited && s.hub.Known()
    ensures var t := Exec(s, Homeward(|s.stdout|, frames) + ([FinishExit, SendForget(true)] + [DeliverDown]));
            Inv(t) && Over(t, s.stdout, s.hub.end.value.stdout.start)
  {
    frames := ExitArrives(s);
    BothLetGo(Exec(s, Homeward(|s.stdout|, frames)));
    ExecConcat(s, Homeward(|s.stdout|, frames), [FinishExit, SendForget(true)] + [DeliverDown]);
  }
}
