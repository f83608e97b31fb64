/**
 router/scheduler.go, Receive's promise: a turn that ends in any way releases its job. When that holds, and
 the one kind of step, a re-keying, after which it does not.
 */
module SchedulerWedges {
  import opened Schedulers

  // ---- who will see how a run ends ----

  /**
   Whatever this call does next, it finishes the run of conversation c or leaves it with a prompt that will be
   answered under c: its look-up will fail, or the id it read, or will read, is still the conversation's.
   */
  ghost predicate Watches(v: Conversations, t: Thread, c: nat) {
    match t
    case HandedOff(_, _, conv) => conv == c
    case Blocked(_, _, conv) =>
      conv == c && if c in v.handshaking then v.Active(c) else c in v.failed || c !in v.live || v.IdOf(c) == c
    case Ready(_, _, conv, to) => conv == c && (to == c || c !in v.live || v.IdOf(c) != to)
    case Sending(_, _, conv) => conv == c && v.Active(c)
    case Finishing(_, conv) => conv == c
    case _ => false
  }

  ghost predicate Watched(s: State, c: nat) {
    exists t :: t in s.threads && Watches(s.conv, t, c)
  }

  /** A prompt that will be answered under the id c. */
  ghost predicate Prompted(v: Conversations, c: nat) {
    v.Active(c) && exists u :: u in v.turns && u.conv == c
  }

  ghost predicate Told(events: multiset<Terminal>, c: nat) {
    exists e :: e in events && e.id == c
  }

  /**
   An inflight conversation has a call that will see how it ends, a prompt to be answered, or a terminal event
   on its way.
   */
  ghost predicate Followed(s: State, c: nat) {
    Watched(s, c) || Prompted(s.conv, c) || Told(s.events, c)
  }

  ghost predicate AllFollowed(s: State) {
    forall c :: c in s.maps.inflight ==> Followed(s, c)
  }

  // ---- what a step does to one conversation ----

  lemma Settled(s: State, a: Action, c: nat)
    requires Sane(s) && Enabled(s, a) && c in s.owner
    ensures var v := ConvAfter(s, a);
            && (c in v.live ==> c in s.conv.live)
            && (c in v.talking ==> c in s.conv.talking)
            && (c in v.handshaking ==> c in s.conv.handshaking)
            && (c in s.conv.failed ==> c in v.failed)
            && (a != Restart(c) ==> v.IdOf(c) == s.conv.IdOf(c))
            && (v.Active(c) ==> s.conv.Active(c))
            && (v.Speaks(c) ==> s.conv.Speaks(c))
  {
    assert OwnId(s, c);
  }

  /** A channel is closed by a message of its own conversation, while that carries its id. */
  lemma ChannelStays(s: State, a: Action, c: nat)
    requires Sane(s) && Enabled(s, a) && c in s.owner && c in s.conv.handshaking
    requires s.conv.IdOf(c) != c || c !in s.conv.talking
    ensures c in ConvAfter(s, a).handshaking
  {
    if a.HandshakeEnds? {
      assert OwnId(s, a.c);
    } else if a.TurnEnds? {
      assert OwnId(s, a.u.conv);
    }
  }

  /** A conversation that goes tells, under its id. */
  lemma EndIsTold(s: State, a: Action, c: nat)
    requires Sane(s) && Enabled(s, a) && c in s.owner && s.conv.Active(c) && !ConvAfter(s, a).Active(c)
             && a != Restart(c)
    ensures Told(EventsAfter(s, a), c)
  {
    assert Terminal(c, Ended) in EventsAfter(s, a);
  }

  lemma ToldKept(s: State, a: Action, c: nat)
    requires Enabled(s, a) && Told(s.events, c) && !(a.Deliver? && a.e.id == c)
    ensures Told(EventsAfter(s, a), c)
  {
    var e :| e in s.events && e.id == c;
    assert e in EventsAfter(s, a);
  }

  lemma PromptedKept(s: State, a: Action, c: nat)
    requires Sane(s) && Enabled(s, a) && c in s.owner && Prompted(s.conv, c) && a != Restart(c)
    ensures Prompted(ConvAfter(s, a), c) || Told(EventsAfter(s, a), c)
  {
    var v := ConvAfter(s, a);
    if !v.Active(c) {
      EndIsTold(s, a, c);
    } else {
      var u :| u in s.conv.turns && u.conv == c;
      if a.TurnEnds? && a.u == u {
        assert Terminal(c, Answer(u.asker)) in EventsAfter(s, a);
      } else {
        assert u in v.turns;
      }
    }
  }

  lemma WatchStays(s: State, a: Action, t: Thread, c: nat)
    requires Sane(s) && Enabled(s, a) && c in s.owner && Watches(s.conv, t, c) && a != Restart(c)
    ensures Watches(ConvAfter(s, a), t, c) || Told(EventsAfter(s, a), c)
  {
    Settled(s, a, c);
    if s.conv.Active(c) && !ConvAfter(s, a).Active(c) {
      EndIsTold(s, a, c);
    } else if a.TurnEnds? {
      assert OwnId(s, a.u.conv);
    }
  }

  lemma WatcherMoves(s: State, a: Action, t: Thread, c: nat)
    requires Sane(s) && Enabled(s, a) && c in s.owner && t in Leaves(a) && Watches(s.conv, t, c)
    requires c in MapsAfter(s, a).inflight
    ensures Followed(Apply(s, a), c)
  {
    var s' := Apply(s, a);
    if a.LookUp? {
      var u := if s.conv.Active(c) then Blocked(t.job, t.run, c) else Finishing(t.job, c);
      Goes(s, a, u);
      assert Watches(s'.conv, u, c);
    } else if a.Wake? {
      var u := Woken(s.conv, t);
      Goes(s, a, u);
      assert Watches(s'.conv, u, c);
    } else if a.Dispatch? {
      var u := Dispatched(s.conv, t);
      Goes(s, a, u);
      assert Watches(s'.conv, u, c);
    } else if a.SendOut? {
      if a.ok {
        assert Turn(c, JobRun(t.job.name, t.run)) in s'.conv.turns;
      } else {
        Goes(s, a, Finishing(t.job, c));
        assert Watches(s'.conv, Finishing(t.job, c), c);
      }
    }
  }

  lemma WatchedKept(s: State, a: Action, c: nat)
    requires Sane(s) && Enabled(s, a) && c in s.owner && Watched(s, c) && a != Restart(c)
    requires c in MapsAfter(s, a).inflight
    ensures Followed(Apply(s, a), c)
  {
    var t :| t in s.threads && Watches(s.conv, t, c);
    if t in Leaves(a) {
      WatcherMoves(s, a, t, c);
    } else {
      Stays(s, a, t);
      WatchStays(s, a, t, c);
    }
  }

  // ---- the one step that loses track ----

  /** A call that finishes the run even if the conversation is re-keyed now. */
  ghost predicate SeesRekeying(v: Conversations, t: Thread, c: nat) {
    match t
    case HandedOff(_, _, conv) => conv == c
    case Blocked(_, _, conv) => conv == c && c !in v.handshaking && c in v.failed
    case Ready(_, _, conv, _) => conv == c
    case Finishing(_, conv) => conv == c
    case _ => false
  }

  /**
   An inflight conversation is re-keyed while no terminal event is on its way and no call will notice: the run
   waits for the handshake, or is past it and has yet to read the id, or has its prompt under way.
   */
  ghost predicate LosesTrack(s: State, a: Action) {
    a.Restart? && s.conv.Active(a.c) && a.c in s.maps.inflight && !Told(s.events, a.c)
    && forall t :: t in s.threads ==> !SeesRekeying(s.conv, t, a.c)
  }

  /** Ids that were read were given out before. */
  ghost predicate ReadIds(s: State) {
    forall t :: t in s.threads && t.Ready? ==> t.to < s.conv.next
  }

  lemma EntersRead(s: State, a: Action, t: Thread)
    requires Sane(s) && Owned(s) && Enabled(s, a) && t in Enters(s, a) && t.Ready?
    ensures t.to < s.conv.next
  {
    assert a.Wake?;
    assert Owns(s, a.t.conv, a.t.job.name) && OwnId(s, a.t.conv);
  }

  lemma NextGrows(s: State, a: Action)
    requires Enabled(s, a)
    ensures s.conv.next <= Apply(s, a).conv.next
  {
  }

  lemma ReadIdsKept(s: State, a: Action)
    requires Sane(s) && Owned(s) && ReadIds(s) && Enabled(s, a)
    ensures ReadIds(Apply(s, a))
  {
    NextGrows(s, a);
    forall t | t in Apply(s, a).threads && t.Ready?
      ensures t.to < Apply(s, a).conv.next
    {
      Came(s, a, t);
      if t !in s.threads {
        EntersRead(s, a, t);
      }
    }
  }

  lemma SeenRekeying(s: State, t: Thread, c: nat)
    requires Sane(s) && ReadIds(s) && Enabled(s, Restart(c)) && t in s.threads
    ensures SeesRekeying(s.conv, t, c) ==> Watches(Rekeyed(s.conv, c), t, c)
    ensures Watches(Rekeyed(s.conv, c), t, c) ==> SeesRekeying(s.conv, t, c)
    ensures Watches(s.conv, t, c) && !s.conv.Active(c) ==> SeesRekeying(s.conv, t, c)
  {
    assert OwnId(s, c);
  }

  lemma RekeyingWatchedIff(s: State, c: nat)
    requires Sane(s) && ReadIds(s) && Enabled(s, Restart(c))
    ensures Watched(Apply(s, Restart(c)), c) <==> exists t :: t in s.threads && SeesRekeying(s.conv, t, c)
    ensures Watched(s, c) && !s.conv.Active(c) ==> Watched(Apply(s, Restart(c)), c)
  {
    assert Apply(s, Restart(c)).threads == s.threads;
    forall t | t in s.threads
      ensures Watches(Rekeyed(s.conv, c), t, c) <==> SeesRekeying(s.conv, t, c)
      ensures Watches(s.conv, t, c) && !s.conv.Active(c) ==> SeesRekeying(s.conv, t, c)
    {
      SeenRekeying(s, t, c);
    }
  }

  lemma RekeyingFollowedIff(s: State, c: nat)
    requires Sane(s) && ReadIds(s) && Enabled(s, Restart(c)) && c in s.maps.inflight && Followed(s, c)
    ensures Followed(Apply(s, Restart(c)), c) <==> !LosesTrack(s, Restart(c))
  {
    var s' := Apply(s, Restart(c));
    RekeyingWatchedIff(s, c);
    assert s'.events == s.events;
    assert OwnId(s, c) && !Prompted(s'.conv, c);
  }

  ghost predicate Tracking(s: State) {
    Sane(s) && Owned(s) && ReadIds(s) && AllFollowed(s)
  }

  lemma FollowedKept(s: State, a: Action, c: nat)
    requires Tracking(s) && Enabled(s, a) && !LosesTrack(s, a)
    requires c in s.maps.inflight && c in MapsAfter(s, a).inflight
    ensures Followed(Apply(s, a), c)
  {
    assert Followed(s, c) && Owns(s, c, s.maps.inflight[c].name);
    if a == Restart(c) {
      RekeyingFollowedIff(s, c);
    } else if a.Deliver? && a.e.id == c {
      var t := Finishing(s.maps.inflight[c], c);
      Goes(s, a, t);
      assert Watches(Apply(s, a).conv, t, c);
    } else if Watched(s, c) {
      WatchedKept(s, a, c);
    } else if Prompted(s.conv, c) {
      PromptedKept(s, a, c);
    } else {
      ToldKept(s, a, c);
    }
  }

  lemma AllFollowedKept(s: State, a: Action)
    requires Tracking(s) && Enabled(s, a) && !LosesTrack(s, a)
    ensures AllFollowed(Apply(s, a))
  {
    var s' := Apply(s, a);
    forall c | c in s'.maps.inflight
      ensures Followed(s', c)
    {
      if c in s.maps.inflight {
        FollowedKept(s, a, c);
      } else {
        var u := HandedOff(a.t.job, a.t.run, c);
        Goes(s, a, u);
        assert Watches(s'.conv, u, c);
      }
    }
  }

  /** A step keeps every run followed exactly when it does not lose track. */
  lemma LosesTrackExactly(s: State, a: Action)
    requires Tracking(s) && Enabled(s, a)
    ensures AllFollowed(Apply(s, a)) <==> !LosesTrack(s, a)
  {
    if LosesTrack(s, a) {
      RekeyingFollowedIff(s, a.c);
      assert a.c in Apply(s, a).maps.inflight;
    } else {
      AllFollowedKept(s, a);
    }
  }

  /** No step of the run loses track of a job. */
  ghost predicate Tracked(s: State, run: seq<Action>)
    requires Possible(s, run)
    decreases |run|
  {
    run == [] || (!LosesTrack(s, run[0]) && Tracked(Apply(s, run[0]), run[1..]))
  }

  lemma {:induction false} StaysFollowed(s: State, run: seq<Action>)
    requires Tracking(s) && Possible(s, run) && Tracked(s, run)
    ensures Tracking(Exec(s, run))
    decreases |run|
  {
    if run != [] {
      SaneKept(s, run[0]);
      OwnedKept(s, run[0]);
      ReadIdsKept(s, run[0]);
      AllFollowedKept(s, run[0]);
      StaysFollowed(Apply(s, run[0]), run[1..]);
    }
  }

  // ---- when a job is stuck for good ----

  /**
   A call that will never do anything about its run: it waits on a channel that a re-keying replaced, or for
   the handshake of a process that is gone. (One that waits on a closed conversation may still be woken.)
   */
  ghost predicate Dead(s: State, t: Thread) {
    || t.Closing?
    || (t.Blocked? && t.conv in s.conv.handshaking && (s.conv.IdOf(t.conv) != t.conv || t.conv !in s.conv.talking))
  }

  /** The job is marked running, and nothing is left that could release it. */
  ghost predicate Wedged(s: State, n: string) {
    && n in s.maps.running
    && (forall t :: t in s.threads && t.job.name == n ==> Dead(s, t))
    && (forall c :: Inflight(s.maps, c, n) ==> !s.conv.Speaks(c) && !Told(s.events, c))
  }

  lemma DeadStays(s: State, a: Action, t: Thread)
    requires Owned(s) && Sane(s) && Enabled(s, a)
    requires t in s.threads && !t.Acquiring? && Dead(s, t)
    ensures Dead(Apply(s, a), t)
  {
    assert Owns(s, t.conv, t.job.name);
    Settled(s, a, t.conv);
    if t.Blocked? {
      ChannelStays(s, a, t.conv);
    }
  }

  lemma NothingStarts(s: State, a: Action, t: Thread, n: string)
    requires Owned(s) && Wedged(s, n) && Enabled(s, a) && t in Enters(s, a)
    ensures t.job.name != n || t.Closing?
  {
    if a.Deliver? {
      assert Told(s.events, a.e.id);
    } else if !a.Tick? {
      MovesAlive(s, a);
      assert a.t.job == t.job;
    }
  }

  /** A dead call makes no step but the close that is left to it. */
  lemma MovesAlive(s: State, a: Action)
    requires Enabled(s, a) && Leaves(a) != multiset{} && !a.CloseConversation?
    ensures a.t in s.threads && !Dead(s, a.t)
  {
  }

  lemma NothingMoves(s: State, a: Action, n: string)
    requires Wedged(s, n) && Enabled(s, a) && (a.Abort? || a.HandOver? || a.Finish?)
    ensures a.t.job.name != n
  {
    MovesAlive(s, a);
  }

  /** An event carries the id its conversation has by then, and comes only while that is live or its process talks. */
  lemma ToldBefore(s: State, a: Action, c: nat)
    requires Owned(s) && Sane(s) && Enabled(s, a) && c in s.owner && Told(EventsAfter(s, a), c)
    ensures Told(s.events, c) || s.conv.Speaks(c)
  {
    var e :| e in EventsAfter(s, a) && e.id == c;
    if e !in s.events {
      assert e in Raises(s, a);
      if a.HandshakeEnds? || a.Gone? {
        assert OwnId(s, a.c);
      } else if a.TurnEnds? {
        assert OwnId(s, a.u.conv);
      }
    }
  }

  lemma InflightStaysGone(s: State, a: Action, n: string, c: nat)
    requires Owned(s) && Sane(s) && Wedged(s, n) && Enabled(s, a) && Inflight(MapsAfter(s, a), c, n)
    ensures !ConvAfter(s, a).Speaks(c) && !Told(EventsAfter(s, a), c)
  {
    if a.HandOver? {
      NothingMoves(s, a, n);
    }
    assert Inflight(s.maps, c, n);
    assert Owns(s, c, n);
    Settled(s, a, c);
    if Told(EventsAfter(s, a), c) {
      ToldBefore(s, a, c);
    }
  }

  lemma StaysRunning(s: State, a: Action, n: string)
    requires Wedged(s, n) && Enabled(s, a)
    ensures n in MapsAfter(s, a).running
  {
    if a.Abort? || a.Finish? {
      NothingMoves(s, a, n);
    }
  }

  lemma WedgedStays(s: State, a: Action, n: string)
    requires Owned(s) && Sane(s) && Wedged(s, n) && Enabled(s, a)
    ensures Wedged(Apply(s, a), n)
  {
    var s' := Apply(s, a);
    forall t | t in s'.threads && t.job.name == n
      ensures Dead(s', t)
    {
      Came(s, a, t);
      if t in s.threads {
        DeadStays(s, a, t);
      } else {
        NothingStarts(s, a, t, n);
      }
    }
    forall c | Inflight(s'.maps, c, n)
      ensures !s'.conv.Speaks(c) && !Told(s'.events, c)
    {
      InflightStaysGone(s, a, n, c);
    }
    StaysRunning(s, a, n);
  }

  lemma {:induction false} WedgedForever(s: State, run: seq<Action>, n: string)
    requires Owned(s) && Sane(s) && Wedged(s, n) && Possible(s, run)
    ensures n in Exec(s, run).maps.running
    decreases |run|
  {
    if run != [] {
      OwnedKept(s, run[0]);
      SaneKept(s, run[0]);
      WedgedStays(s, run[0], n);
      WedgedForever(Apply(s, run[0]), run[1..], n);
    }
  }

  ghost predicate Releases(s: State, run: seq<Action>, n: string) {
    Possible(s, run) && n !in Exec(s, run).maps.running
  }

  lemma First(s: State, a: Action, rest: seq<Action>, n: string)
    requires Enabled(s, a) && Releases(Apply(s, a), rest, n)
    ensures Releases(s, [a] + rest, n)
  {
    Prepend(s, a, rest, Exec(Apply(s, a), rest));
  }

  lemma LastStep(s: State, a: Action, n: string)
    requires Enabled(s, a) && n !in Apply(s, a).maps.running
    ensures Releases(s, [a], n)
  {
    assert Exec(Apply(s, a), []) == Apply(s, a);
  }

  /** How many steps a call is from its end. */
  function Rank(t: Thread): nat {
    match t
    case Acquired(_, _, _) => 5
    case HandedOff(_, _, _) => 4
    case Blocked(_, _, _) => 3
    case Ready(_, _, _, _) => 2
    case Sending(_, _, _) => 1
    case _ => 0
  }

  /** From a call of the job that is not dead, some run releases the job. */
  lemma ReleaseByThread(s: State, t: Thread) returns (run: seq<Action>)
    requires t in s.threads && !Dead(s, t)
    ensures Releases(s, run, t.job.name)
    decreases Rank(t), 0
  {
    match t
    case Acquiring(_, _) =>
      run := [Abort(t)];
      LastStep(s, Abort(t), t.job.name);
    case Finishing(_, _) =>
      run := [Finish(t)];
      LastStep(s, Finish(t), t.job.name);
    case Acquired(_, _, _) =>
      run := Follow(s, HandOver(t), HandedOff(t.job, t.run, t.conv));
    case HandedOff(_, _, _) =>
      run := ReleaseHandedOff(s, t);
    case Blocked(_, _, _) =>
      if t.conv in s.conv.handshaking {
        run := ReleaseBlocked(s, t);
      } else {
        run := Follow(s, Wake(t), Woken(s.conv, t));
      }
    case Ready(_, _, _, _) =>
      run := Follow(s, Dispatch(t), Dispatched(s.conv, t));
    case Sending(_, _, _) =>
      run := Follow(s, SendOut(t, false), Finishing(t.job, t.conv));
    case Closing(_, _) =>
  }

  /** The conversation is closed before the call looks for it. */
  lemma ReleaseHandedOff(s: State, t: Thread) returns (run: seq<Action>)
    requires t in s.threads && t.HandedOff?
    ensures Releases(s, run, t.job.name)
  {
    if s.conv.Active(t.conv) {
      var a := Gone(t.conv);
      Stays(s, a, t);
      run := FollowEnd(Apply(s, a), LookUp(t), Finishing(t.job, t.conv));
      First(s, a, run, t.job.name);
      run := [a] + run;
    } else {
      run := FollowEnd(s, LookUp(t), Finishing(t.job, t.conv));
    }
  }

  lemma ReleaseBlocked(s: State, t: Thread) returns (run: seq<Action>)
    requires t in s.threads && t.Blocked? && t.conv in s.conv.handshaking
    requires s.conv.IdOf(t.conv) == t.conv && t.conv in s.conv.talking
    ensures Releases(s, run, t.job.name)
  {
    var a := HandshakeEnds(t.conv, false);
    var s' := Apply(s, a);
    Stays(s, a, t);
    assert Woken(s'.conv, t) == Finishing(t.job, t.conv);
    var rest := FollowEnd(s', Wake(t), Finishing(t.job, t.conv));
    run := [a] + rest;
    First(s, a, rest, t.job.name);
  }

  lemma FollowEnd(s: State, a: Action, u: Thread) returns (run: seq<Action>)
    requires Enabled(s, a) && u in Enters(s, a) && u.Finishing?
    ensures Releases(s, run, u.job.name)
  {
    Goes(s, a, u);
    LastStep(Apply(s, a), Finish(u), u.job.name);
    First(s, a, [Finish(u)], u.job.name);
    run := [a] + [Finish(u)];
  }

  lemma Follow(s: State, a: Action, u: Thread) returns (run: seq<Action>)
    requires Enabled(s, a) && u in Enters(s, a) && !Dead(Apply(s, a), u)
    ensures Releases(s, run, u.job.name)
    decreases Rank(u), 1
  {
    Goes(s, a, u);
    var rest := ReleaseByThread(Apply(s, a), u);
    First(s, a, rest, u.job.name);
    run := [a] + rest;
  }

  /** From an inflight conversation whose terminal event is on its way, too. */
  lemma ReleaseByEvent(s: State, c: nat) returns (run: seq<Action>)
    requires c in s.maps.inflight && Told(s.events, c)
    ensures Releases(s, run, s.maps.inflight[c].name)
  {
    var e :| e in s.events && e.id == c;
    run := FollowEnd(s, Deliver(e), Finishing(s.maps.inflight[c], c));
  }

  /** And from one under whose first id a terminal event can still come: it is closed, or a prompt is answered late. */
  lemma ReleaseBySpeaking(s: State, c: nat) returns (run: seq<Action>)
    requires c in s.maps.inflight && s.conv.Speaks(c)
    ensures Releases(s, run, s.maps.inflight[c].name)
  {
    if c in s.conv.live {
      assert Terminal(c, Ended) in Apply(s, Gone(c)).events;
      run := ReleaseByEvent(Apply(s, Gone(c)), c);
      First(s, Gone(c), run, s.maps.inflight[c].name);
      run := [Gone(c)] + run;
    } else {
      var u := Turn(c, Someone);
      var s1 := Apply(s, Prompt(c));
      assert Terminal(c, Answer(Someone)) in Apply(s1, TurnEnds(u, true)).events;
      run := ReleaseByEvent(Apply(s1, TurnEnds(u, true)), c);
      First(s1, TurnEnds(u, true), run, s.maps.inflight[c].name);
      run := [TurnEnds(u, true)] + run;
      First(s, Prompt(c), run, s.maps.inflight[c].name);
      run := [Prompt(c)] + run;
    }
  }

  /** A job is marked running in every future exactly when it is wedged. */
  lemma WedgedIff(s: State, n: string)
    requires Owned(s) && Sane(s) && n in s.maps.running
    ensures Wedged(s, n) <==> !exists run :: Releases(s, run, n)
  {
    if Wedged(s, n) {
      forall run | Possible(s, run)
        ensures !Releases(s, run, n)
      {
        WedgedForever(s, run, n);
      }
    } else if t :| t in s.threads && t.job.name == n && !Dead(s, t) {
      var run := ReleaseByThread(s, t);
    } else {
      var c :| Inflight(s.maps, c, n) && (s.conv.Speaks(c) || Told(s.events, c));
      if Told(s.events, c) {
        var run := ReleaseByEvent(s, c);
      } else {
        var run := ReleaseBySpeaking(s, c);
      }
    }
  }

  lemma PendingNotWedged(s: State, n: string)
    requires Pending(s, n)
    ensures !Wedged(s, n)
  {
    var t :| t in s.threads && IsPending(t, n);
    assert !Dead(s, t);
  }

  lemma FollowedNotWedged(s: State, n: string)
    requires Tracking(s) && InFlight(s.maps, n)
    ensures !Wedged(s, n)
  {
    var c :| Inflight(s.maps, c, n);
    assert Followed(s, c) && Owns(s, c, n);
    if Watched(s, c) {
      var t :| t in s.threads && Watches(s.conv, t, c);
      assert Owns(s, t.conv, t.job.name);
      assert t.job.name == n && (!Dead(s, t) || s.conv.Active(c));
    }
  }

  lemma NotWedged(s: State, n: string)
    requires Tracking(s) && Guarded(s) && n in s.maps.running
    ensures !Wedged(s, n)
  {
    if Pending(s, n) {
      PendingNotWedged(s, n);
    } else {
      FollowedNotWedged(s, n);
    }
  }

  lemma TrackedFromStart(run: seq<Action>)
    requires Possible(Initial(), run) && Tracked(Initial(), run)
    ensures Tracking(Exec(Initial(), run)) && Guarded(Exec(Initial(), run))
  {
    InitialInv();
    GuardNeverLeaks(Initial(), run);
    StaysFollowed(Initial(), run);
  }

  /** As long as no run is lost track of, every job marked running can still be released. */
  lemma NeverWedged(run: seq<Action>, n: string)
    requires Possible(Initial(), run) && Tracked(Initial(), run)
    requires n in Exec(Initial(), run).maps.running
    ensures exists more :: Releases(Exec(Initial(), run), more, n)
  {
    TrackedFromStart(run);
    NotWedged(Exec(Initial(), run), n);
    WedgedIff(Exec(Initial(), run), n);
  }

  /** Every call but dead ones is over, every prompt answered, every event delivered, every dead process closed. */
  ghost predicate Quiet(s: State) {
    && s.events == multiset{}
    && s.conv.live <= s.conv.talking
    && (forall t :: t in s.threads ==> Dead(s, t))
    && (forall u :: u in s.conv.turns ==> u.conv !in s.conv.live)
  }

  lemma NothingFollows(s: State, c: nat)
    requires Quiet(s)
    ensures !Followed(s, c)
  {
    forall t | t in s.threads
      ensures !Watches(s.conv, t, c)
    {
      assert Dead(s, t);
    }
  }

  /** Then no job is marked: whatever happened to the runs, each of them was released. */
  lemma QuietMeansReleased(run: seq<Action>)
    requires Possible(Initial(), run) && Tracked(Initial(), run) && Quiet(Exec(Initial(), run))
    ensures Exec(Initial(), run).maps.running == {}
  {
    TrackedFromStart(run);
    var s := Exec(Initial(), run);
    forall c | c in s.maps.inflight
      ensures !Followed(s, c)
    {
      NothingFollows(s, c);
    }
    forall t, n | t in s.threads
      ensures !IsPending(t, n)
    {
      assert Dead(s, t);
    }
  }
}
