/** What the stream protocol guarantees in every run, and where it does not. */
module Guarantees {
  import opened Bytes
  import opened Outboxes
  import opened Inbufs
  import opened Wrappers
  import opened Ends
  import opened Protocol
  import opened Wires
  import opened Invariant

  /** The state a run reaches from the start. */
  ghost function After(hubLimit: int, agentLimit: int, run: seq<Action>): (s: Stream)
    ensures Inv(s)
  {
    InitialInv(hubLimit, agentLimit);
    RunKeeps(Initial(hubLimit, agentLimit), run);
    Exec(Initial(hubLimit, agentLimit), run)
  }

  // ---- exactly once, in order ----

  /**
   In every run of writes, sends, failed sends, drops, acks, reconnects and restarts: what the
   server's reader has taken is the process's stdout from the offset this server began at, and
   what the process has read is a prefix of the stdin stream; no gap, no duplicate.
   */
  lemma ExactlyOnceInOrder(hubLimit: int, agentLimit: int, run: seq<Action>)
    ensures var s := After(hubLimit, agentLimit, run);
            && (s.agent.Some? ==> s.agent.value.stdout.all == s.stdout)
            && (s.hub.end.Some? ==>
                  var b := s.hub.end.value.stdout;
                  && b.Consumed() <= b.Next() <= |s.stdout|
                  && b.got[..b.read] == s.stdout[b.start..b.Consumed()]
                  && b.got[b.read..] == s.stdout[b.Consumed()..b.Next()])
            && (s.hub.end.Some? && s.agent.Some? ==>
                  && s.agent.value.stdin.got <= s.hub.end.value.stdin.all
                  && s.agent.value.stdin.got[..s.agent.value.stdin.read] <= s.hub.end.value.stdin.all)
  {
    var s := After(hubLimit, agentLimit, run);
    if s.hub.end.Some? {
      var b := s.hub.end.value.stdout;
      assert b.got == s.stdout[b.start..b.Next()];
    }
  }

  /** One reader, two moments: nothing taken back, nothing rewritten, and nothing added once closed. */
  ghost predicate Advances(b: Inbound, c: Inbound) {
    c.start == b.start && b.got <= c.got && b.read <= c.read && (b.eof ==> c.eof && c.kept == b.kept)
  }

  lemma EndAdvances(e: HubEnd, m: Msg)
    requires e.stdout.Valid() && e.stdin.base <= |e.stdin.all|
    ensures Advances(e.stdout, EndTakes(e, m).stdout) && EndTakes(e, m).stdout.read == e.stdout.read
  {
  }

  lemma TakingAdvances(t: Stream, m: Msg)
    requires Ready(t) && t.hub.end.Some?
    ensures var u := HubTakes(t, m);
            && u.hub.end.Some? && Advances(t.hub.end.value.stdout, u.hub.end.value.stdout)
            && u.hub.end.value.stdout.read == t.hub.end.value.stdout.read
  {
    if t.hub.Known() {
      HubTakesKnown(t, m);
      EndAdvances(t.hub.end.value, m);
    } else {
      HubTakesUnknown(t, m);
    }
  }

  lemma DeliveryAdvances(s: Stream)
    requires Ready(s) && s.hub.end.Some?
    ensures DoDeliverUp(s).hub.end.Some? && Advances(s.hub.end.value.stdout, DoDeliverUp(s).hub.end.value.stdout)
    ensures DoDeliverUp(s).hub.end.value.stdout.read == s.hub.end.value.stdout.read
  {
    if s.up != [] {
      TakingAdvances(s.(up := s.up[1..]), s.up[0]);
    }
  }

  lemma SendStdinAdvances(s: Stream, act: Action)
    requires Ready(s) && StageOk(s) && s.hub.end.Some? && (act.SendStdin? || act.StdinWrite?)
    ensures Apply(s, act).hub.end.Some? && Apply(s, act).hub.end.value.stdout == s.hub.end.value.stdout
  {
  }

  lemma HubUntouched(s: Stream, act: Action)
    requires Ready(s) && StageOk(s) && s.hub.end.Some?
    requires !act.DeliverUp? && !act.Attach? && !act.SendStdin? && !act.StdinWrite? && !act.FinishExit?
             && !act.HubGiveUp?
    requires !act.HubRead? && !act.StartFails? && !act.ServerRestart?
    ensures Apply(s, act).hub.end == s.hub.end || (act.HubStart? && s.stage == Unused)
  {
  }

  lemma AttachAdvances(s: Stream, ok: bool)
    requires Ready(s) && s.hub.Known()
    ensures DoAttach(s, ok).hub.end.Some? && Advances(s.hub.end.value.stdout, DoAttach(s, ok).hub.end.value.stdout)
  {
  }

  lemma LettingGoAdvances(s: Stream, act: Action)
    requires Ready(s) && s.hub.end.Some? && (act.FinishExit? || act.HubGiveUp? || act.StartFails?)
    ensures Apply(s, act).hub.end.Some? && Advances(s.hub.end.value.stdout, Apply(s, act).hub.end.value.stdout)
  {
  }

  lemma ReadAdvances(s: Stream, n: nat)
    requires Ready(s) && s.hub.end.Some?
    ensures DoHubRead(s, n).hub.end.Some? && Advances(s.hub.end.value.stdout, DoHubRead(s, n).hub.end.value.stdout)
  {
  }

  /** Every step but the end of the server, or an adoption, keeps what the server's reader has. */
  lemma ReaderOnlyAdvances(s: Stream, act: Action)
    requires Ready(s) && StageOk(s) && s.hub.end.Some?
    requires !act.ServerRestart? && (act.Attach? ==> s.hub.Known())
    ensures var t := Apply(s, act);
            t.hub.end.Some? && Advances(s.hub.end.value.stdout, t.hub.end.value.stdout)
  {
    if act.DeliverUp? {
      DeliveryAdvances(s);
    } else if act.Attach? {
      AttachAdvances(s, act.adoptOk);
    } else if act.SendStdin? || act.StdinWrite? {
      SendStdinAdvances(s, act);
    } else if act.FinishExit? || act.HubGiveUp? || act.StartFails? {
      LettingGoAdvances(s, act);
    } else if act.HubRead? {
      ReadAdvances(s, act.n);
    } else {
      HubUntouched(s, act);
    }
  }

  // ---- resume never goes wrong ----

  /** No frame that reaches a stream's end leaves a gap, and no offset of a handshake is refused. */
  lemma ResumeNeverGoesWrong(hubLimit: int, agentLimit: int, run: seq<Action>)
    ensures var s := After(hubLimit, agentLimit, run);
            && (s.up != [] && s.up[0].Data? && s.hub.Known() ==>
                  s.hub.end.value.stdout.Accept(s.up[0].off, s.up[0].bytes).1.Accepted?)
            && (s.phase == Up && s.down != [] && s.down[0].Data? && s.agent.Some? && s.agent.value.listed ==>
                  s.agent.value.stdin.Accept(s.down[0].off, s.down[0].bytes).1.Accepted?)
            && (s.phase == Down && s.hub.Known() && Hello(s).Some? ==>
                  s.hub.end.value.stdin.Rewind(|Hello(s).value.received|).1 == Rewound)
            && (s.phase == Welcoming && s.answer.Some? && s.answer.value.Resume? ==>
                  s.agent.Some? && s.agent.value.stdout.Rewind(s.answer.value.outFrom).1 == Rewound)
  {
    var s := After(hubLimit, agentLimit, run);
    if s.up != [] {
      UpPopped(s);
    }
    if s.phase == Up && s.down != [] {
      DownPopped(s);
    }
  }

  lemma SentIsOnItsWay(s: Stream)
    requires Inv(s)
    ensures s.phase == Up && s.hub.Known() && s.agent.Some? && s.agent.value.stdout.sent == |s.stdout| ==>
              Reach(s.hub.end.value.stdout.Next(), s.up) == |s.stdout|
    ensures DownTies(s) && s.hub.end.value.stdin.sent == |s.hub.end.value.stdin.all| ==>
              Reach(s.agent.value.stdin.Next(), s.down) == |s.hub.end.value.stdin.all|
  {
    if s.phase == Up && s.hub.Known() && s.agent.Some? {
      ReachBounds(s.stdout, s.agent.value.stdout.eof, s.hub.end.value.stdout.Next(), s.up);
    }
    if DownTies(s) {
      ReachBounds(s.hub.end.value.stdin.all, false, s.agent.value.stdin.Next(), s.down);
    }
  }

  /**
   Once everything was sent, in either direction, everything is either received or in flight: nothing is lost
   silently.
   */
  lemma NothingLostSilently(hubLimit: int, agentLimit: int, run: seq<Action>)
    ensures var s := After(hubLimit, agentLimit, run);
            s.phase == Up && s.hub.Known() && s.agent.Some? && s.agent.value.stdout.sent == |s.stdout| ==>
              Reach(s.hub.end.value.stdout.Next(), s.up) == |s.stdout|
    ensures var s := After(hubLimit, agentLimit, run);
            s.phase == Up && s.hub.end.Some? && s.agent.Some? && s.agent.value.listed
            && s.hub.end.value.stdin.sent == |s.hub.end.value.stdin.all| ==>
              Reach(s.agent.value.stdin.Next(), s.down) == |s.hub.end.value.stdin.all|
  {
    SentIsOnItsWay(After(hubLimit, agentLimit, run));
  }

  ghost function Repeat(act: Action, n: nat): seq<Action> {
    seq(n, _ => act)
  }

  lemma DeliverOne(s: Stream)
    requires Inv(s) && s.phase == Up && s.hub.Known() && s.agent.Some? && s.up != []
    ensures var t := Apply(s, DeliverUp);
            && t.phase == Up && t.hub.Known() && t.agent == s.agent && t.stdout == s.stdout && t.up == s.up[1..]
            && t.hub.end.value.stdout.Next() == ReachOne(s.hub.end.value.stdout.Next(), s.up[0])
            && t.hub.end.value.stdout.start == s.hub.end.value.stdout.start
            && (t.hub.end.value.starting ==> s.hub.end.value.starting)
            && t.down == s.down && (t.forgetDue <==> s.forgetDue || s.up[0].Exit?)
  {
    UpPopped(s);
    var m := s.up[0];
    assert m in s.up;
    if m.Data? {
      AcceptMirrors(s.hub.end.value.stdout, s.stdout, m.off, m.bytes);
    }
  }

  /** Handling everything in flight brings the server exactly to where the wire reaches. */
  lemma {:induction false} DeliverAllUp(s: Stream)
    requires Inv(s) && s.phase == Up && s.hub.Known() && s.agent.Some?
    ensures var t := Exec(s, Repeat(DeliverUp, |s.up|));
            && t.phase == Up && t.hub.Known() && t.agent == s.agent && t.stdout == s.stdout
            && t.hub.end.value.stdout.Next() == Reach(s.hub.end.value.stdout.Next(), s.up)
            && t.hub.end.value.stdout.start == s.hub.end.value.stdout.start
            && (t.hub.end.value.starting ==> s.hub.end.value.starting)
            && t.up == [] && t.down == s.down && (t.forgetDue <==> s.forgetDue || Exit in s.up)
    decreases |s.up|
  {
    if s.up != [] {
      UpPopped(s);
      ApplyKeeps(s, DeliverUp);
      var t := Apply(s, DeliverUp);
      DeliverOne(s);
      assert Repeat(DeliverUp, |s.up|)[1..] == Repeat(DeliverUp, |t.up|);
      assert s.up == [s.up[0]] + s.up[1..];
      DeliverAllUp(t);
    }
  }

  lemma DeliverOneDown(s: Stream)
    requires Inv(s) && s.phase == Up && DownTies(s) && s.down != [] && !s.down[0].Forget?
    ensures var t := Apply(s, DeliverDown);
            && t.phase == Up && DownTies(t) && t.hub == s.hub && t.down == s.down[1..]
            && t.agent.value.stdin.Next() == ReachOne(s.agent.value.stdin.Next(), s.down[0])
            && s.agent.value.stdout.base <= t.agent.value.stdout.base && t.stdout == s.stdout
  {
    DownPopped(s);
    var m := s.down[0];
    if m.Data? {
      AcceptMirrors(s.agent.value.stdin, s.hub.end.value.stdin.all, m.off, m.bytes);
    }
  }

  /** The same for stdin, as long as the server does not tell the agent to forget the stream. */
  lemma {:induction false} DeliverAllDown(s: Stream)
    requires Inv(s) && s.phase == Up && DownTies(s) && Forget !in s.down
    ensures var t := Exec(s, Repeat(DeliverDown, |s.down|));
            && t.phase == Up && DownTies(t) && t.hub == s.hub
            && t.agent.value.stdin.Next() == Reach(s.agent.value.stdin.Next(), s.down)
            && t.down == [] && s.agent.value.stdout.base <= t.agent.value.stdout.base && t.stdout == s.stdout
    decreases |s.down|
  {
    if s.down != [] {
      assert s.down[0] in s.down;
      ApplyKeeps(s, DeliverDown);
      var t := Apply(s, DeliverDown);
      DeliverOneDown(s);
      assert Repeat(DeliverDown, |s.down|)[1..] == Repeat(DeliverDown, |t.down|);
      DeliverAllDown(t);
    }
  }

  // ---- handshake ----

  lemma GreetingAgrees(s: Stream, adoptOk: bool)
    requires Inv(s) && s.phase == Down && s.stage != Spawning
    ensures var greeted := DoAttach(s, adoptOk);
            && Ready(greeted)
            && var t := DoWelcome(greeted);
            && (greeted.answer.Some? <==> Hello(s).Some?)
            && (t.hub.Known() <==> t.agent.Some? && t.agent.value.listed)
            && (t.hub.Known() ==>
                  && t.hub.end.value.stdin.sent == t.agent.value.stdin.Next()
                  && t.agent.value.stdout.sent == t.hub.end.value.stdout.Next())
  {
    AttachKeeps(s, adoptOk);
    if s.hub.Known() && s.agent.Some? {
      RewindPositions(s.hub.end.value.stdin, s.agent.value.stdin.Next());
    }
    var greeted := DoAttach(s, adoptOk);
    if greeted.answer.Some? && greeted.answer.value.Resume? {
      RewindPositions(greeted.agent.value.stdout, greeted.answer.value.outFrom);
    }
  }

  /**
   After hello and welcome, with no spawn pending: the server holds a handle for the stream exactly
   when the agent lists it, the welcome answered it exactly when the hello listed it, and in both
   directions the sender's cursor is the peer's receive offset.
   */
  lemma HandshakeAgreement(hubLimit: int, agentLimit: int, run: seq<Action>, adoptOk: bool)
    ensures var s := After(hubLimit, agentLimit, run);
            s.phase == Down && s.stage != Spawning ==>
              var greeted := DoAttach(s, adoptOk);
              && Ready(greeted)
              && var t := DoWelcome(greeted);
              && (greeted.answer.Some? <==> Hello(s).Some?)
              && (t.hub.Known() <==> t.agent.Some? && t.agent.value.listed)
              && (t.hub.Known() ==>
                    && t.hub.end.value.stdin.sent == t.agent.value.stdin.Next()
                    && t.agent.value.stdout.sent == t.hub.end.value.stdout.Next())
  {
    var s := After(hubLimit, agentLimit, run);
    if s.phase == Down && s.stage != Spawning {
      GreetingAgrees(s, adoptOk);
    }
  }

  // ---- exit ----

  lemma ReadsToTheEnd(b: Inbound, all: seq<byte>, sizes: seq<nat>)
    requires Mirrors(b, all) && b.eof && b.Next() == |all| && b.kept == |b.got|
    ensures b.got == all[b.start..]
    ensures (forall n :: n in sizes ==> n > 0) && |sizes| >= |all| - b.Consumed() ==>
              ReadOut(b, sizes) == all[b.Consumed()..]
  {
    EofAfterEveryByte(b, sizes);
    assert b.got[b.read..b.kept] == all[b.Consumed()..];
  }

  /**
   When the server handles an exit it holds the whole of what the agent buffered, so a reader that
   goes on until end of file gets every byte of it; this stays so through later reconnects.
   */
  lemma ExitAfterOutput(hubLimit: int, agentLimit: int, run: seq<Action>, sizes: seq<nat>)
    ensures var s := After(hubLimit, agentLimit, run);
            && (s.up != [] && s.up[0] == Exit && s.hub.Known() ==>
                  && s.hub.end.value.stdout.Next() == |s.stdout|
                  && Apply(s, DeliverUp).hub.end.Some? && Apply(s, DeliverUp).hub.end.value.exitSeen)
            && (s.hub.end.Some? && s.hub.end.value.exitSeen ==>
                  var b := s.hub.end.value.stdout;
                  && b.eof && b.got == s.stdout[b.start..]
                  && ((forall n :: n in sizes ==> n > 0) && |sizes| >= |s.stdout| - b.Consumed() ==>
                        ReadOut(b, sizes) == s.stdout[b.Consumed()..]))
  {
    var s := After(hubLimit, agentLimit, run);
    if s.up != [] {
      UpPopped(s);
    }
    if s.hub.end.Some? && s.hub.end.value.exitSeen {
      ReadsToTheEnd(s.hub.end.value.stdout, s.stdout, sizes);
    }
  }

  // ---- adopted stdin ----

  /**
   A server that adopts a stream continues its stdin after exactly what the process was sent, with
   a newline in between exactly when that ends mid-line (a server that may buffer nothing cannot
   write it, nor anything else).
   */
  lemma AdoptedStdin(s: Stream)
    requires Inv(s) && s.phase == Down && !s.hub.Known()
    requires DoAttach(s, true).answer.Some? && DoAttach(s, true).answer.value.Resume?
    ensures var e, a := DoAttach(s, true).hub.end.value, s.agent.value;
            && e.stdin.all == a.stdin.got
               + (if LineStart(a.stdin.got, |a.stdin.got|) || s.hubLimit <= 0 then [] else [NEWLINE])
            && e.stdin.start == |a.stdin.got| && e.ownFrom == |e.stdin.all|
  {
    AdoptedContinues(s.agent.value, s.hubLimit);
  }

  /** In every run: the bytes a server itself wrote begin a line of the process's stdin. */
  lemma StdinNeverGlued(hubLimit: int, agentLimit: int, run: seq<Action>)
    ensures var s := After(hubLimit, agentLimit, run);
            s.hub.end.Some? ==>
              var e := s.hub.end.value;
              && e.stdin.start <= e.ownFrom <= |e.stdin.all|
              && (e.ownFrom < |e.stdin.all| ==> LineStart(e.stdin.all, e.ownFrom))
              && (s.agent.Some? ==> s.agent.value.stdin.got <= e.stdin.all)
  {
  }

  // ---- streams that ended ----

  /** The server goes on, and an hour has not passed since it finished the stream. */
  predicate Remembers(run: seq<Action>) {
    forall a :: a in run ==> !a.ServerRestart? && !a.MarkExpires?
  }

  lemma FinishedStays(s: Stream, act: Action)
    requires Inv(s) && s.hub.finished
    ensures Apply(s, act).hub.finished <==> !act.ServerRestart? && !act.MarkExpires?
  {
    if act.Attach? || act.DeliverUp? {
      AnswerKeepsMark(s, act);
    } else if !act.ServerRestart? && !act.MarkExpires? {
      OthersKeepMark(s, act);
    }
  }

  lemma OthersKeepMark(s: Stream, act: Action)
    requires Ready(s) && s.hub.finished && !act.Attach? && !act.DeliverUp? && !act.ServerRestart? && !act.MarkExpires?
    ensures Apply(s, act).hub.finished
  {
  }

  lemma AnswerKeepsMark(s: Stream, act: Action)
    requires Inv(s) && s.hub.finished && (act.Attach? || act.DeliverUp?)
    ensures Apply(s, act).hub.finished
  {
    if act.DeliverUp? && s.up != [] {
      HubTakesUnknown(s.(up := s.up[1..]), s.up[0]);
    }
  }

  /**
   A stream this server finished is, while its mark is kept, never in its handle table again, and every
   later hello that lists it is answered kill.
   */
  lemma {:induction false} FinishedNeverComesBack(s: Stream, run: seq<Action>, adoptOk: bool)
    requires Inv(s) && s.hub.finished && Remembers(run)
    ensures Inv(Exec(s, run))
    ensures var t := Exec(s, run);
            && t.hub.finished && !t.hub.Known()
            && (t.phase == Down && Hello(t).Some? ==> DoAttach(t, adoptOk).answer == Some(Kill))
    decreases |run|
  {
    if run != [] {
      assert run[0] in run;
      ApplyKeeps(s, run[0]);
      FinishedStays(s, run[0]);
      FinishedNeverComesBack(Apply(s, run[0]), run[1..], adoptOk);
    }
  }

  /**
   Past that a stream comes back exactly when neither mark nor tombstone is left and its process runs: on the
   same server too, when the mark has expired and the welcome that used up the tombstone was lost.
   */
  lemma ComesBackIff(s: Stream)
    requires Inv(s) && s.phase == Down && !s.hub.Known() && Hello(s).Some?
    ensures DoAttach(s, true).hub.Known() <==> !s.hub.finished && !s.hub.tomb && !s.agent.value.exited
    ensures var t := Apply(s, MarkExpires);
            && Inv(t) && (DoAttach(t, true).hub.Known() <==> !s.hub.tomb && !s.agent.value.exited)
            && Inv(DoAttach(t, true))
            && (s.hub.tomb ==> (DoAttach(Dropped(DoAttach(t, true)), true).hub.Known() <==> !s.agent.value.exited))
  {
    MarkExpiresKeeps(s);
    AttachKeeps(Apply(s, MarkExpires), true);
  }

  /** The agent has let go of the stream, or never got to run it. */
  ghost predicate Gone(s: Stream) {
    s.stage == Dead || (s.agent.Some? && !s.agent.value.listed)
  }

  lemma GoneStays(s: Stream, act: Action)
    requires Ready(s) && StageOk(s) && Gone(s)
    ensures Gone(Apply(s, act))
  {
    if act.DeliverUp? {
      DeliveryKeepsGone(s);
    } else if act.DeliverDown? {
      TakingKeepsGone(s);
    }
  }

  lemma DeliveryKeepsGone(s: Stream)
    requires Ready(s) && StageOk(s) && Gone(s)
    ensures Gone(DoDeliverUp(s))
  {
    assert DoDeliverUp(s).stage == s.stage;
  }

  lemma TakingKeepsGone(s: Stream)
    requires Ready(s) && StageOk(s) && Gone(s)
    ensures Gone(DoDeliverDown(s))
  {
  }

  /** A stream the agent let go of is listed in no later hello, whatever happens to the server. */
  lemma {:induction false} GoneForever(s: Stream, run: seq<Action>)
    requires Inv(s) && Gone(s)
    ensures Inv(Exec(s, run)) && Gone(Exec(s, run)) && Hello(Exec(s, run)).None?
    decreases |run|
  {
    if run != [] {
      ApplyKeeps(s, run[0]);
      GoneStays(s, run[0]);
      GoneForever(Apply(s, run[0]), run[1..]);
    }
  }

  /**
   A tombstone alone is weaker than finished: attach consumes it with the hello that lists the
   stream. If that welcome arrives the stream is gone for good; if it is lost, the next hello finds
   neither tombstone nor finished mark, and a running stream is adopted.
   */
  lemma TombstoneLastsOneWelcome(s: Stream, run: seq<Action>)
    requires Inv(s) && s.phase == Down && s.hub.tomb && !s.hub.finished && !s.hub.Known() && Hello(s).Some?
    ensures var greeted := DoAttach(s, true);
            && Inv(greeted) && greeted.answer == Some(Kill)
            && Inv(DoWelcome(greeted)) && Inv(Exec(DoWelcome(greeted), run))
            && Hello(Exec(DoWelcome(greeted), run)).None?
            && (DoAttach(Dropped(greeted), true).hub.Known() <==> !s.agent.value.exited)
  {
    AttachKeeps(s, true);
    var greeted := DoAttach(s, true);
    WelcomeKeeps(greeted);
    GoneForever(DoWelcome(greeted), run);
  }
}
