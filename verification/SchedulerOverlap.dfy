/** router/scheduler.go, running: the guard against overlapping runs of the same job, and when it guards. */
module SchedulerOverlaps {
  import opened Schedulers
  import opened SchedulerWedges

  // ---- runs are numbered ----

  ghost predicate AtRun(t: Thread, k: nat) {
    !t.Finishing? && !t.Closing? && t.run == k
  }

  ghost predicate ByRun(u: Turn, k: nat) {
    u.asker.JobRun? && u.asker.run == k
  }

  ghost predicate AnswersRun(e: Terminal, k: nat) {
    e.cause.Answer? && e.cause.asker.JobRun? && e.cause.asker.run == k
  }

  ghost predicate Called(threads: multiset<Thread>, k: nat) {
    exists t :: t in threads && AtRun(t, k)
  }

  ghost predicate Asked(turns: multiset<Turn>, k: nat) {
    exists u :: u in turns && ByRun(u, k)
  }

  ghost predicate WasAnswered(events: multiset<Terminal>, k: nat) {
    exists e :: e in events && AnswersRun(e, k)
  }

  ghost predicate OneCall(threads: multiset<Thread>, k: nat) {
    && (forall t :: t in threads && AtRun(t, k) ==> threads[t] == 1)
    && (forall t, u :: t in threads && u in threads && AtRun(t, k) && AtRun(u, k) ==> t == u)
  }

  ghost predicate OneTurn(turns: multiset<Turn>, k: nat) {
    && (forall u :: u in turns && ByRun(u, k) ==> turns[u] == 1)
    && (forall u, w :: u in turns && w in turns && ByRun(u, k) && ByRun(w, k) ==> u == w)
  }

  /** A run is one call, then one prompt, then one answer. */
  ghost predicate NumberedAt(s: State, k: nat) {
    && OneCall(s.threads, k) && OneTurn(s.conv.turns, k)
    && !(Called(s.threads, k) && (Asked(s.conv.turns, k) || WasAnswered(s.events, k)))
    && !(Asked(s.conv.turns, k) && WasAnswered(s.events, k))
    && (Called(s.threads, k) || Asked(s.conv.turns, k) || WasAnswered(s.events, k) ==> k < s.runs)
  }

  ghost predicate Numbered(s: State) {
    forall k :: NumberedAt(s, k)
  }

  /** The step starts run k. */
  predicate Begins(s: State, a: Action, k: nat) {
    a.Tick? && a.job.name !in s.maps.running && k == s.runs
  }

  /** The step moves the call of run k. */
  ghost predicate MovesRun(a: Action, k: nat) {
    Leaves(a) != multiset{} && AtRun(a.t, k)
  }

  lemma SameCall(s: State, a: Action, k: nat, t: Thread)
    requires Enabled(s, a) && AtRun(t, k)
    ensures Apply(s, a).threads[t] == s.threads[t] - Leaves(a)[t] + Enters(s, a)[t]
  {
    assert Leaves(a)[t] <= s.threads[t];
  }

  /** A step that neither begins nor moves run k moves no call at k. */
  lemma OtherCalls(s: State, a: Action, k: nat, t: Thread)
    requires Enabled(s, a) && !Begins(s, a, k) && !MovesRun(a, k) && AtRun(t, k)
    ensures Leaves(a)[t] == 0 && Enters(s, a)[t] == 0
  {
  }

  lemma BeginsCall(s: State, a: Action, k: nat)
    requires !Called(s.threads, k) && Enabled(s, a) && Begins(s, a, k)
    ensures OneCall(Apply(s, a).threads, k)
  {
    var begun := Acquiring(a.job, k);
    forall t | t in Apply(s, a).threads && AtRun(t, k)
      ensures t == begun && Apply(s, a).threads[t] == 1
    {
      Came(s, a, t);
      SameCall(s, a, k, t);
    }
  }

  lemma MovedCall(s: State, a: Action, k: nat)
    requires OneCall(s.threads, k) && Enabled(s, a) && MovesRun(a, k)
    ensures a.t in s.threads && OneCall(Apply(s, a).threads, k)
    ensures Called(Apply(s, a).threads, k) ==> !(a.SendOut? && a.ok)
  {
    assert AtRun(a.t, k) && s.threads[a.t] == 1;
    forall t | t in Apply(s, a).threads && AtRun(t, k)
      ensures t in Enters(s, a) && Apply(s, a).threads[t] == 1
    {
      Came(s, a, t);
      SameCall(s, a, k, t);
    }
  }

  lemma RestCall(s: State, a: Action, k: nat)
    requires OneCall(s.threads, k) && Enabled(s, a) && !Begins(s, a, k) && !MovesRun(a, k)
    ensures OneCall(Apply(s, a).threads, k) && (Called(Apply(s, a).threads, k) <==> Called(s.threads, k))
  {
    forall t | AtRun(t, k)
      ensures Apply(s, a).threads[t] == s.threads[t]
    {
      SameCall(s, a, k, t);
      OtherCalls(s, a, k, t);
    }
  }

  /** Only the run's own call sends its prompt. */
  lemma RunTurns(s: State, a: Action, k: nat)
    requires OneTurn(s.conv.turns, k) && Enabled(s, a)
    requires MovesRun(a, k) ==> !Asked(s.conv.turns, k)
    ensures OneTurn(ConvAfter(s, a).turns, k)
    ensures Asked(ConvAfter(s, a).turns, k) ==> Asked(s.conv.turns, k) || (MovesRun(a, k) && a.SendOut? && a.ok)
    ensures a.TurnEnds? && ByRun(a.u, k) ==> !Asked(ConvAfter(s, a).turns, k)
  {
    var turns := ConvAfter(s, a).turns;
    forall u | u in turns && ByRun(u, k)
      ensures u in s.conv.turns
              || (MovesRun(a, k) && a.SendOut? && a.ok && u == Turn(a.t.conv, JobRun(a.t.job.name, k)))
    {
    }
  }

  lemma RunAnswers(s: State, a: Action, k: nat)
    requires Enabled(s, a)
    ensures WasAnswered(EventsAfter(s, a), k) ==> WasAnswered(s.events, k) || (a.TurnEnds? && ByRun(a.u, k))
  {
    if e :| e in EventsAfter(s, a) && AnswersRun(e, k) {
      assert e in s.events || e in Raises(s, a);
    }
  }

  lemma NumberedAtKept(s: State, a: Action, k: nat)
    requires NumberedAt(s, k) && Enabled(s, a)
    ensures NumberedAt(Apply(s, a), k)
  {
    if MovesRun(a, k) {
      MovedCall(s, a, k);
      assert Called(s.threads, k);
    } else if Begins(s, a, k) {
      BeginsCall(s, a, k);
    } else {
      RestCall(s, a, k);
    }
    RunTurns(s, a, k);
    RunAnswers(s, a, k);
    if a.TurnEnds? && ByRun(a.u, k) {
      assert Asked(s.conv.turns, k);
    }
  }

  lemma NumberedKept(s: State, a: Action)
    requires Numbered(s) && Enabled(s, a)
    ensures Numbered(Apply(s, a))
  {
    forall k
      ensures NumberedAt(Apply(s, a), k)
    {
      assert NumberedAt(s, k);
      NumberedAtKept(s, a, k);
    }
  }

  // ---- a run going on ----

  /** A call that may still come to send its prompt. */
  ghost predicate Going(v: Conversations, t: Thread) {
    match t
    case Acquiring(_, _) => true
    case Acquired(_, _, _) => true
    case HandedOff(_, _, c) => v.Active(c) && (c in v.handshaking || c !in v.failed)
    case Blocked(_, _, c) => if c in v.handshaking then v.Active(c) else c in v.live && c !in v.failed
    case Ready(_, _, c, to) => c in v.live && v.IdOf(c) == to
    case Sending(_, _, c) => c in v.live
    case _ => false
  }

  /** Run k of the job is going on: it may still send its prompt, or its prompt is not answered. */
  ghost predicate Carries(s: State, n: string, k: nat) {
    || (exists t :: t in s.threads && AtRun(t, k) && t.job.name == n && Going(s.conv, t))
    || (exists u :: u in s.conv.turns && u.asker == JobRun(n, k) && u.conv in s.conv.live)
  }

  ghost predicate Runs(s: State, n: string) {
    exists k :: Carries(s, n, k)
  }

  /** The job has at most one run going on, and is marked running while it has one. */
  ghost predicate Single(s: State, n: string) {
    && (forall k, l :: Carries(s, n, k) && Carries(s, n, l) ==> k == l)
    && (Runs(s, n) ==> n in s.maps.running)
  }

  lemma GoingBefore(s: State, a: Action, t: Thread)
    requires Sane(s) && Owned(s) && ReadIds(s) && Enabled(s, a) && t in s.threads && Going(ConvAfter(s, a), t)
    ensures Going(s.conv, t)
  {
    if !t.Acquiring? {
      assert Owns(s, t.conv, t.job.name);
      Settled(s, a, t.conv);
      if t.conv in s.conv.handshaking && s.conv.IdOf(t.conv) != t.conv {
        ChannelStays(s, a, t.conv);
      }
    }
  }

  lemma GoingEntered(s: State, a: Action, t: Thread, k: nat)
    requires Enabled(s, a) && t in Enters(s, a) && AtRun(t, k) && Going(ConvAfter(s, a), t) && !a.Tick?
    ensures MovesRun(a, k) && a.t in s.threads && a.t.job == t.job && Going(s.conv, a.t)
  {
  }

  /** A run going on after a step was going on before, unless the step began it. */
  lemma CarriedBefore(s: State, a: Action, n: string, k: nat)
    requires Sane(s) && Owned(s) && ReadIds(s) && Enabled(s, a) && Carries(Apply(s, a), n, k)
    ensures Carries(s, n, k) || (Begins(s, a, k) && a.job.name == n)
  {
    var s' := Apply(s, a);
    if t :| t in s'.threads && AtRun(t, k) && t.job.name == n && Going(s'.conv, t) {
      Came(s, a, t);
      if t in s.threads {
        GoingBefore(s, a, t);
      } else if !a.Tick? {
        GoingEntered(s, a, t, k);
      }
    } else {
      var u :| u in s'.conv.turns && u.asker == JobRun(n, k) && u.conv in s'.conv.live;
      AskedBefore(s, a, u);
    }
  }

  lemma AskedBefore(s: State, a: Action, u: Turn)
    requires Sane(s) && Owned(s) && Enabled(s, a) && u in ConvAfter(s, a).turns && u.conv in ConvAfter(s, a).live
             && u.asker.JobRun?
    ensures Carries(s, u.asker.name, u.asker.run)
  {
    if a.SendOut? && u == Turn(a.t.conv, JobRun(a.t.job.name, a.t.run)) {
      assert AtRun(a.t, a.t.run) && Going(s.conv, a.t);
    } else {
      assert u in s.conv.turns && u.conv in s.owner;
    }
  }

  ghost predicate Sound(s: State) {
    Sane(s) && Owned(s) && ReadIds(s) && Numbered(s)
  }

  lemma SoundKept(s: State, a: Action)
    requires Sound(s) && Enabled(s, a)
    ensures Sound(Apply(s, a))
  {
    SaneKept(s, a);
    OwnedKept(s, a);
    ReadIdsKept(s, a);
    NumberedKept(s, a);
  }

  // ---- which finish breaks the guard ----

  /** A finish of the job while a run of it is going on. */
  ghost predicate Stale(s: State, a: Action) {
    a.Finish? && Runs(s, a.t.job.name)
  }

  /** An abort ends the one run its call was. */
  lemma AbortEnds(s: State, a: Action, n: string)
    requires Sound(s) && Enabled(s, a) && a.Abort? && a.t.job.name == n && Single(s, n)
    ensures !Runs(Apply(s, a), n)
  {
    var k := a.t.run;
    assert NumberedAt(s, k) && AtRun(a.t, k) && Carries(s, n, k);
    if l :| Carries(Apply(s, a), n, l) {
      CarriedBefore(s, a, n, l);
      MovedCall(s, a, k);
      assert l == k && NumberedAt(Apply(s, a), k) by {
        NumberedAtKept(s, a, k);
      }
      NotCalled(s, a, k);
    }
  }

  lemma NotCalled(s: State, a: Action, k: nat)
    requires NumberedAt(s, k) && Enabled(s, a) && MovesRun(a, k) && forall t :: t in Enters(s, a) ==> !AtRun(t, k)
    requires !(a.SendOut? && a.ok)
    ensures forall n :: !Carries(Apply(s, a), n, k)
  {
    var s' := Apply(s, a);
    assert Called(s.threads, k) && s.threads[a.t] == 1;
    RunTurns(s, a, k);
    forall t | t in s'.threads
      ensures !AtRun(t, k)
    {
      Came(s, a, t);
      if t in s.threads && AtRun(t, k) {
        SameCall(s, a, k, t);
      }
    }
    forall n
      ensures !Carries(s', n, k)
    {
      NotAsked(s', n, k);
    }
  }

  lemma NotAsked(s: State, n: string, k: nat)
    requires !Asked(s.conv.turns, k)
    ensures forall u :: u in s.conv.turns ==> u.asker != JobRun(n, k)
  {
    forall u | u in s.conv.turns
      ensures u.asker != JobRun(n, k)
    {
      assert u.asker == JobRun(n, k) ==> ByRun(u, k);
    }
  }

  lemma StillMarked(s: State, a: Action, n: string)
    requires Enabled(s, a) && n in s.maps.running && !((a.Abort? || a.Finish?) && a.t.job.name == n)
    ensures n in MapsAfter(s, a).running
  {
  }

  lemma OneRunKept(s: State, a: Action, n: string)
    requires Sound(s) && Enabled(s, a) && Single(s, n)
    ensures forall k, l :: Carries(Apply(s, a), n, k) && Carries(Apply(s, a), n, l) ==> k == l
  {
    forall k, l | Carries(Apply(s, a), n, k) && Carries(Apply(s, a), n, l)
      ensures k == l
    {
      CarriedBefore(s, a, n, k);
      CarriedBefore(s, a, n, l);
    }
  }

  /** Every step but a stale finish keeps a job to one run at a time, and marked while it has one. */
  lemma SingleKept(s: State, a: Action, n: string)
    requires Sound(s) && Enabled(s, a) && Single(s, n) && (Stale(s, a) ==> a.t.job.name != n)
    ensures Single(Apply(s, a), n)
  {
    var s' := Apply(s, a);
    OneRunKept(s, a, n);
    if k :| Carries(s', n, k) {
      CarriedBefore(s, a, n, k);
      if a.Abort? && a.t.job.name == n {
        AbortEnds(s, a, n);
      } else if n in s.maps.running {
        StillMarked(s, a, n);
      }
    }
  }

  /** A finish keeps it exactly when no run of the job is going on. */
  lemma FinishKeepsSingleIff(s: State, a: Action)
    requires Sound(s) && Enabled(s, a) && a.Finish? && Single(s, a.t.job.name)
    ensures Single(Apply(s, a), a.t.job.name) <==> !Stale(s, a)
  {
    var n, s' := a.t.job.name, Apply(s, a);
    if k :| Carries(s, n, k) {
      FinishMovesNoRun(s, a, n, k);
    } else {
      SingleKept(s, a, n);
    }
  }

  lemma FinishMovesNoRun(s: State, a: Action, n: string, k: nat)
    requires Enabled(s, a) && (a.Finish? || a.Deliver? || a.Tick?) && Carries(s, n, k)
    ensures Carries(Apply(s, a), n, k)
  {
    var s' := Apply(s, a);
    assert s'.conv == s.conv;
    if t :| t in s.threads && AtRun(t, k) && t.job.name == n && Going(s.conv, t) {
      Stays(s, a, t);
    }
  }

  // ---- where such a finish comes from ----

  /** A call that finishes the job, or can only end in finishing it. */
  ghost predicate IsDue(s: State, t: Thread, n: string) {
    t.job.name == n && (t.Finishing? || (!t.Closing? && !Going(s.conv, t) && !Dead(s, t)))
  }

  ghost predicate FinishDue(s: State, n: string) {
    exists t :: t in s.threads && IsDue(s, t, n)
  }

  /** And nobody is about to take the mark of a run that is going on. */
  ghost predicate Orderly(s: State, n: string) {
    Single(s, n) && !(FinishDue(s, n) && Runs(s, n))
  }

  /**
   Too early: a terminal event is delivered for the job's conversation while a run of the job is going on, so
   it is not that run's; or the job starts again while a finish of an earlier run is still to come.
   */
  ghost predicate Early(s: State, a: Action, n: string) {
    || (a.Deliver? && Inflight(s.maps, a.e.id, n) && Runs(s, n))
    || (a.Tick? && a.job.name == n && n !in s.maps.running && FinishDue(s, n))
  }

  lemma StaleIsDue(s: State, a: Action, n: string)
    requires Enabled(s, a) && Orderly(s, n) && a.Finish? && a.t.job.name == n
    ensures !Stale(s, a)
  {
    assert IsDue(s, a.t, n);
  }

  /** The call of a run that is no longer going on: then neither is the run. */
  lemma RunOver(s: State, n: string, t: Thread)
    requires Numbered(s) && t in s.threads && !t.Finishing? && !t.Closing? && !Going(s.conv, t)
    ensures !Carries(s, n, t.run)
  {
    assert AtRun(t, t.run) && NumberedAt(s, t.run) && Called(s.threads, t.run);
    NotAsked(s, n, t.run);
  }

  /** A call that comes to be due was the job's one run, which is over then. */
  lemma NowDue(s: State, a: Action, t: Thread, n: string)
    requires Sound(s) && Enabled(s, a) && Single(s, n) && !FinishDue(s, n)
             && !(a.Deliver? && Inflight(s.maps, a.e.id, n))
    requires t in Apply(s, a).threads && IsDue(Apply(s, a), t, n) && !a.Tick?
    ensures !Runs(Apply(s, a), n)
  {
    var s' := Apply(s, a);
    Came(s, a, t);
    if t in s.threads {
      WasGoing(s, a, t, n);
      SoundKept(s, a);
      RunOver(s', n, t);
      Ends(s, a, n, t.run);
    } else {
      Entered(s, a, t, n);
    }
  }

  lemma WasGoing(s: State, a: Action, t: Thread, n: string)
    requires Sound(s) && Enabled(s, a) && !FinishDue(s, n) && t in s.threads && IsDue(Apply(s, a), t, n)
    ensures !t.Finishing? && !t.Closing? && Going(s.conv, t) && !Going(ConvAfter(s, a), t)
  {
    assert !IsDue(s, t, n);
    if !t.Acquiring? && Dead(s, t) {
      DeadStays(s, a, t);
    }
  }

  /** The job's one run, and it is not going on after the step. */
  lemma Ends(s: State, a: Action, n: string, k: nat)
    requires Sound(s) && Enabled(s, a) && Single(s, n) && Carries(s, n, k) && !Carries(Apply(s, a), n, k) && !a.Tick?
    ensures !Runs(Apply(s, a), n)
  {
    if l :| Carries(Apply(s, a), n, l) {
      CarriedBefore(s, a, n, l);
    }
  }

  lemma Entered(s: State, a: Action, t: Thread, n: string)
    requires Sound(s) && Enabled(s, a) && Single(s, n) && !FinishDue(s, n)
             && !(a.Deliver? && Inflight(s.maps, a.e.id, n))
    requires t in Enters(s, a) && IsDue(Apply(s, a), t, n) && !a.Tick?
    ensures !Runs(Apply(s, a), n)
  {
    assert a.t in s.threads && a.t.job.name == n && !IsDue(s, a.t, n);
    assert Going(s.conv, a.t) && AtRun(a.t, a.t.run);
    var k := a.t.run;
    assert Carries(s, n, k) && NumberedAt(s, k);
    if t.Finishing? {
      NotCalled(s, a, k);
    } else {
      SoundKept(s, a);
      Goes(s, a, t);
      RunOver(Apply(s, a), n, t);
    }
    Ends(s, a, n, k);
  }

  lemma TickDue(s: State, a: Action, n: string)
    requires Enabled(s, a) && a.Tick?
    ensures FinishDue(Apply(s, a), n) <==> FinishDue(s, n)
  {
    var s' := Apply(s, a);
    if t :| t in s'.threads && IsDue(s', t, n) {
      Came(s, a, t);
      assert IsDue(s, t, n);
    }
    if t :| t in s.threads && IsDue(s, t, n) {
      Stays(s, a, t);
      assert IsDue(s', t, n);
    }
  }

  lemma NoNewRun(s: State, a: Action, n: string)
    requires Sound(s) && Enabled(s, a) && !Runs(s, n) && !(a.Tick? && a.job.name == n && n !in s.maps.running)
    ensures !Runs(Apply(s, a), n)
  {
    if k :| Carries(Apply(s, a), n, k) {
      CarriedBefore(s, a, n, k);
    }
  }

  lemma OrderlyKept(s: State, a: Action, n: string)
    requires Sound(s) && Enabled(s, a) && Orderly(s, n) && !Early(s, a, n)
    ensures Orderly(Apply(s, a), n)
  {
    var s' := Apply(s, a);
    if a.Finish? && a.t.job.name == n {
      StaleIsDue(s, a, n);
    }
    SingleKept(s, a, n);
    if a.Tick? {
      TickDue(s, a, n);
      if !Runs(s, n) && !(a.job.name == n && n !in s.maps.running) {
        NoNewRun(s, a, n);
      }
    } else if !Runs(s, n) {
      NoNewRun(s, a, n);
    } else if t :| t in s'.threads && IsDue(s', t, n) {
      NowDue(s, a, t, n);
    }
  }

  lemma EarlyDelivery(s: State, a: Action, n: string)
    requires Enabled(s, a) && Early(s, a, n) && a.Deliver?
    ensures !Orderly(Apply(s, a), n)
  {
    var k :| Carries(s, n, k);
    FinishMovesNoRun(s, a, n, k);
    var t := Finishing(s.maps.inflight[a.e.id], a.e.id);
    Goes(s, a, t);
    assert IsDue(Apply(s, a), t, n);
  }

  lemma EarlyTick(s: State, a: Action, n: string)
    requires Enabled(s, a) && Early(s, a, n) && a.Tick?
    ensures !Orderly(Apply(s, a), n)
  {
    TickDue(s, a, n);
    Goes(s, a, Acquiring(a.job, s.runs));
    assert AtRun(Acquiring(a.job, s.runs), s.runs);
    assert Carries(Apply(s, a), n, s.runs);
  }

  /** A step keeps a job's runs apart, and its mark safe, exactly when it is not early. */
  lemma OrderlyIff(s: State, a: Action, n: string)
    requires Sound(s) && Enabled(s, a) && Orderly(s, n)
    ensures Orderly(Apply(s, a), n) <==> !Early(s, a, n)
  {
    if !Early(s, a, n) {
      OrderlyKept(s, a, n);
    } else if a.Deliver? {
      EarlyDelivery(s, a, n);
    } else {
      EarlyTick(s, a, n);
    }
  }

  lemma CarriedOpen(s: State, n: string, k: nat)
    requires Numbered(s) && Carries(s, n, k)
    ensures !WasAnswered(s.events, k)
  {
    assert NumberedAt(s, k);
    if !Called(s.threads, k) {
      var u :| u in s.conv.turns && u.asker == JobRun(n, k) && u.conv in s.conv.live;
      assert ByRun(u, k);
    }
  }

  /** The event that is early is never the answer to the run's own prompt. */
  lemma EarlyIsAnothers(s: State, a: Action, n: string, k: nat)
    requires Numbered(s) && Enabled(s, a) && Early(s, a, n) && a.Deliver? && Carries(s, n, k)
    ensures a.e.cause != Answer(JobRun(n, k))
  {
    CarriedOpen(s, n, k);
    assert AnswersRun(a.e, k) ==> WasAnswered(s.events, k);
  }

  // ---- whole runs ----

  ghost predicate NoneEarly(s: State, run: seq<Action>, n: string)
    requires Possible(s, run)
    decreases |run|
  {
    run == [] || (!Early(s, run[0], n) && NoneEarly(Apply(s, run[0]), run[1..], n))
  }

  lemma {:induction false} StaysOrderly(s: State, run: seq<Action>, n: string)
    requires Sound(s) && Orderly(s, n) && Possible(s, run) && NoneEarly(s, run, n)
    ensures Orderly(Exec(s, run), n)
    decreases |run|
  {
    if run != [] {
      SoundKept(s, run[0]);
      OrderlyKept(s, run[0], n);
      StaysOrderly(Apply(s, run[0]), run[1..], n);
    }
  }

  /** As long as no step is early, a job never has two runs going on, and is marked while it has one. */
  lemma NeverOverlaps(run: seq<Action>, n: string)
    requires Possible(Initial(), run) && NoneEarly(Initial(), run, n)
    ensures Single(Exec(Initial(), run), n)
  {
    StaysOrderly(Initial(), run, n);
  }
}
