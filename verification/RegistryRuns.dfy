/** What holds of the registry of conversations over whole runs: closes, cleanups, and the crash watcher. */
module RegistryRuns {
  import opened Wrappers
  import opened Registries

  ghost predicate Possible(s: State, run: seq<Action>)
    decreases |run|
  {
    run == [] || (Enabled(s, run[0]) && Possible(Apply(s, run[0]), run[1..]))
  }

  function Exec(s: State, run: seq<Action>): State
    requires Possible(s, run)
    decreases |run|
  {
    if run == [] then s else Exec(Apply(s, run[0]), run[1..])
  }

  lemma InitialInv(next: nat)
    ensures Inv(Initial(next))
  {
  }

  lemma {:induction false} RunKeeps(s: State, run: seq<Action>)
    requires Inv(s) && Possible(s, run)
    ensures Inv(Exec(s, run))
    decreases |run|
  {
    if run != [] {
      InvKept(s, run[0]);
      RunKeeps(Apply(s, run[0]), run[1..]);
    }
  }

  /** Whatever is created, restarted, closed or adopted, a conversation is found under the id it carries. */
  lemma KeysAreIds(next: nat, run: seq<Action>, id: nat)
    requires Possible(Initial(next), run) && id in Exec(Initial(next), run).sessions
    ensures var s := Exec(Initial(next), run); Leads(s, id) && s.states[s.sessions[id]].id == id
  {
    InitialInv(next);
    RunKeeps(Initial(next), run);
  }

  // ---- ConversationClosed ----

  lemma {:induction false} LoggedOnce(log: seq<Event>, i: nat)
    requires i < |log| && log[i].Closed?
    ensures log[i].id in ClosedOf(log, log[i].session)
    decreases |log|
  {
    if i < |log| - 1 {
      LoggedOnce(log[..|log| - 1], i);
    }
  }

  lemma {:induction false} LoggedTwice(log: seq<Event>, i: nat, j: nat)
    requires i < j < |log| && log[i].Closed? && log[j].Closed? && log[i].session == log[j].session
    ensures |ClosedOf(log, log[i].session)| >= 2
    decreases |log|
  {
    var front := log[..|log| - 1];
    if j < |log| - 1 {
      LoggedTwice(front, i, j);
    } else {
      LoggedOnce(front, i);
      assert front[i] == log[i];
    }
  }

  lemma ClosedMeansTold(s: State, i: nat)
    requires Inv(s) && i < |s.log| && s.log[i].Closed?
    ensures var r := s.log[i].session; r < |s.states| && s.states[r].id == s.log[i].id && s.states[r].phase.Told?
  {
    var r := s.log[i].session;
    LoggedOnce(s.log, i);
    if r < |s.states| {
      assert Kept(s, r);
    }
  }

  /**
   Each registration of a conversation is told closed at most once, under the id it carried at its end, and
   never while it is registered.
   */
  lemma ClosedAtMostOnce(next: nat, run: seq<Action>, i: nat, j: nat)
    requires Possible(Initial(next), run)
    requires var log := Exec(Initial(next), run).log; i < |log| && j < |log| && log[i].Closed? && log[j].Closed?
    ensures var s := Exec(Initial(next), run);
            && s.log[i].session < |s.states| && s.states[s.log[i].session].id == s.log[i].id
            && !IsLive(s, s.log[i].session)
            && (s.log[i].session == s.log[j].session ==> i == j)
  {
    InitialInv(next);
    RunKeeps(Initial(next), run);
    var s := Exec(Initial(next), run);
    ClosedMeansTold(s, i);
    assert Kept(s, s.log[i].session);
    if s.log[i].session == s.log[j].session && i != j {
      LoggedTwice(s.log, if i < j then i else j, if i < j then j else i);
    }
  }

  ghost function ToldAt(s: State, id: nat): set<nat> {
    set i | 0 <= i < |s.log| && s.log[i].Closed? && s.log[i].id == id
  }

  ghost function Carriers(s: State, id: nat): set<nat> {
    set r | 0 <= r < |s.states| && s.states[r].id == id
  }

  lemma {:induction false} NoMoreThan(a: set<nat>, b: set<nat>, f: nat -> nat)
    requires forall x :: x in a ==> f(x) in b
    requires forall x, y :: x in a && y in a && f(x) == f(y) ==> x == y
    ensures |a| <= |b|
    decreases a
  {
    if a != {} {
      var x :| x in a;
      NoMoreThan(a - {x}, b - {f(x)}, f);
    }
  }

  lemma ToldWithin(s: State, id: nat)
    requires forall i :: i in ToldAt(s, id) ==> s.log[i].session in Carriers(s, id)
    requires forall i, j :: i in ToldAt(s, id) && j in ToldAt(s, id) && s.log[i].session == s.log[j].session ==> i == j
    ensures |ToldAt(s, id)| <= |Carriers(s, id)|
  {
    var f := (i: nat) => if i < |s.log| && s.log[i].Closed? then s.log[i].session else 0;
    NoMoreThan(ToldAt(s, id), Carriers(s, id), f);
  }

  /** So no id is told closed more often than sessions were registered that carry it. */
  lemma ToldNoMoreThanRegistered(next: nat, run: seq<Action>, id: nat)
    requires Possible(Initial(next), run)
    ensures var s := Exec(Initial(next), run); |ToldAt(s, id)| <= |Carriers(s, id)|
  {
    var s := Exec(Initial(next), run);
    forall i, j | i in ToldAt(s, id) && j in ToldAt(s, id)
      ensures s.log[i].session in Carriers(s, id) && (s.log[i].session == s.log[j].session ==> i == j)
    {
      ClosedAtMostOnce(next, run, i, j);
    }
    ToldWithin(s, id);
  }

  // ---- ids that are used again ----

  /** No two sessions carry the same id. */
  ghost predicate Distinct(s: State) {
    forall q, r :: 0 <= q < r < |s.states| ==> s.states[q].id != s.states[r].id
  }

  /** The server takes back a conversation under an id it registered before. */
  ghost predicate Readopts(s: State, a: Action) {
    a.Adopt? && a.id in s.used
  }

  /** Ids stay distinct exactly until a conversation is adopted under the id of one that ended here. */
  lemma DistinctIff(s: State, a: Action)
    requires Inv(s) && Distinct(s) && Enabled(s, a)
    ensures Distinct(Apply(s, a)) <==> !(a.Adopt? && Carriers(s, a.id) != {})
    ensures !Readopts(s, a) ==> Distinct(Apply(s, a))
  {
    var s', r := Apply(s, a), Subject(s, a);
    assert forall q :: 0 <= q < |s.states| && q != r ==> s'.states[q] == s.states[q];
    if a.Adopt? && Carriers(s, a.id) != {} {
      var q :| q in Carriers(s, a.id);
      assert s'.states[q].id == s'.states[|s.states|].id;
    } else if a.Adopt? {
      forall q | 0 <= q < |s.states|
        ensures s.states[q].id != a.id
      {
        assert q !in Carriers(s, a.id);
      }
    } else if r < |s'.states| {
      assert s'.states[r].id !in s.used || (r < |s.states| && s'.states[r].id == s.states[r].id);
    }
  }

  /** A watcher that has read an id finds its own session under it, if any. */
  ghost predicate OwnNotices(s: State) {
    forall t :: t in s.threads && t.Noticed? && t.id in s.sessions ==> s.sessions[t.id] == t.session
  }

  lemma OwnNoticesKept(s: State, a: Action)
    requires Inv(s) && Distinct(s) && OwnNotices(s) && Enabled(s, a) && !Readopts(s, a)
    ensures OwnNotices(Apply(s, a))
  {
    var s' := Apply(s, a);
    forall t | t in s'.threads && t.Noticed? && t.id in s'.sessions
      ensures s'.sessions[t.id] == t.session
    {
      Came(s, a, t);
      KeyAfter(s, a, t.id);
      if t in s.threads {
        assert Known(s, t);
      } else {
        NoticesOwn(s, a, t);
      }
    }
  }

  lemma NoticesOwn(s: State, a: Action, t: Thread)
    requires Keyed(s) && Distinct(s) && Enabled(s, a) && t in Enters(s, a) && t.Noticed?
    ensures a.Notice? && t.id in s.sessions && s.sessions[t.id] == t.session
  {
    assert a.Notice? && t.id == s.states[t.session].id && s.states[s.sessions[t.id]].id == t.id;
  }

  ghost predicate NeverReadopts(s: State, run: seq<Action>)
    requires Possible(s, run)
    decreases |run|
  {
    run == [] || (!Readopts(s, run[0]) && NeverReadopts(Apply(s, run[0]), run[1..]))
  }

  lemma {:induction false} StaysDistinct(s: State, run: seq<Action>)
    requires Inv(s) && Distinct(s) && OwnNotices(s) && Possible(s, run) && NeverReadopts(s, run)
    ensures Inv(Exec(s, run)) && Distinct(Exec(s, run)) && OwnNotices(Exec(s, run))
    decreases |run|
  {
    if run != [] {
      InvKept(s, run[0]);
      DistinctIff(s, run[0]);
      OwnNoticesKept(s, run[0]);
      StaysDistinct(Apply(s, run[0]), run[1..]);
    }
  }

  /**
   As long as no id is adopted that this server used before: an id is told closed at most once and never while
   it is registered, and a watcher closes no session but its own.
   */
  lemma ClosedOncePerId(next: nat, run: seq<Action>, i: nat, j: nat)
    requires Possible(Initial(next), run) && NeverReadopts(Initial(next), run)
    ensures OwnNotices(Exec(Initial(next), run))
    ensures var s := Exec(Initial(next), run);
      i < |s.log| && j < |s.log| && s.log[i].Closed? && s.log[j].Closed? ==>
        s.log[i].id !in s.sessions && (s.log[i].id == s.log[j].id ==> i == j)
  {
    InitialInv(next);
    StaysDistinct(Initial(next), run);
    var s := Exec(Initial(next), run);
    if i < |s.log| && j < |s.log| && s.log[i].Closed? && s.log[j].Closed? {
      ClosedAtMostOnce(next, run, i, j);
      ClosedMeansTold(s, j);
    }
  }

  // ---- cleanups ----

  /** The cleanups of a session run at most once, all of them, last first; all with the same flag. */
  lemma CleanupsOnceReversed(next: nat, run: seq<Action>, r: nat)
    requires Possible(Initial(next), run) && r < |Exec(Initial(next), run).states|
    ensures var s := Exec(Initial(next), run);
      RanOf(s.log, r) == [] || exists force :: RanOf(s.log, r) == Backwards(r, s.states[r].cleanups, force)
  {
    InitialInv(next);
    RunKeeps(Initial(next), run);
    var s := Exec(Initial(next), run);
    assert Kept(s, r);
    if s.states[r].torn.Some? {
      assert RanOf(s.log, r) == Backwards(r, s.states[r].cleanups, s.states[r].torn.value);
    }
  }

  /** Once nothing is under way for a session that was closed, or whose Create failed, they have run. */
  lemma CleanupsDone(s: State, r: nat)
    requires Inv(s) && r < |s.states|
             && (s.states[r].phase.Closing? || s.states[r].phase.Told? || s.states[r].phase.Aborted?)
    requires forall t :: t in s.threads && t.session == r ==> !t.Announcing? && !t.Tearing?
    ensures s.states[r].torn.Some? && RanOf(s.log, r) == Backwards(r, s.states[r].cleanups, s.states[r].torn.value)
    ensures s.states[r].phase.Told? || s.states[r].phase.Aborted?
  {
    assert Kept(s, r);
    assert s.threads[Announcing(r, true)] == 0 && s.threads[Announcing(r, false)] == 0;
  }

  ghost predicate ForcedBy(s: State, run: seq<Action>, r: nat, k: nat)
    requires Possible(s, run)
    decreases |run|
  {
    k < |run| && if k == 0 then run[0].Close? && run[0].force && Subject(s, run[0]) == r
                 else ForcedBy(Apply(s, run[0]), run[1..], r, k - 1)
  }

  ghost predicate Forced(s: State, r: nat) {
    r < |s.states| && (s.states[r].phase == Closing(true) || s.states[r].phase == Told(true))
  }

  lemma ForcedStep(s: State, a: Action, r: nat)
    requires Inv(s) && Enabled(s, a) && Forced(Apply(s, a), r)
    ensures Forced(s, r) || (a.Close? && a.force && Subject(s, a) == r)
  {
    if r < |s.states| {
      assert Kept(s, r);
      if a.Announce? && a.t.session == r && a.t.force {
        assert s.threads[Announcing(r, true)] > 0;
      }
    }
  }

  lemma ForcedLater(s: State, run: seq<Action>, r: nat, k: nat)
    requires run != [] && Possible(s, run) && ForcedBy(Apply(s, run[0]), run[1..], r, k)
    ensures ForcedBy(s, run, r, k + 1)
  {
  }

  lemma ForcedNow(s: State, run: seq<Action>, r: nat)
    requires Inv(s) && run != [] && Possible(s, run) && !Forced(s, r) && Forced(Apply(s, run[0]), r)
    ensures ForcedBy(s, run, r, 0)
  {
    ForcedStep(s, run[0], r);
  }

  lemma {:induction false} ForcedSome(s: State, run: seq<Action>, end: State, r: nat) returns (k: nat)
    requires Inv(s) && Possible(s, run) && end == Exec(s, run) && !Forced(s, r) && Forced(end, r)
    ensures ForcedBy(s, run, r, k)
    decreases |run|
  {
    var s1 := Apply(s, run[0]);
    if Forced(s1, r) {
      ForcedNow(s, run, r);
      k := 0;
    } else {
      InvKept(s, run[0]);
      var m := ForcedSome(s1, run[1..], end, r);
      ForcedLater(s, run, r, m);
      k := m + 1;
    }
  }

  /** Work a guard protects is given up only by ForceCloseConversation, called on that very session. */
  lemma ForceOnlyByForceClose(next: nat, run: seq<Action>, r: nat) returns (k: nat)
    requires Possible(Initial(next), run) && r < |Exec(Initial(next), run).states|
    requires Exec(Initial(next), run).states[r].torn == Some(true)
    ensures ForcedBy(Initial(next), run, r, k)
  {
    InitialInv(next);
    RunKeeps(Initial(next), run);
    assert Kept(Exec(Initial(next), run), r);
    k := ForcedSome(Initial(next), run, Exec(Initial(next), run), r);
  }

  // ---- the crash watcher ----

  /** A call that will close the session if its process dies. */
  ghost predicate Attends(s: State, r: nat, t: Thread)
    requires r < |s.states|
  {
    t.session == r && (t.Watching? || ((t.Creating? || t.Noticed?) && t.id == s.states[r].id))
  }

  ghost predicate Attended(s: State, r: nat)
    requires r < |s.states|
  {
    exists t :: t in s.threads && Attends(s, r, t)
  }

  ghost predicate AllAttended(s: State) {
    forall r :: 0 <= r < |s.states| && IsLive(s, r) && s.states[r].proc ==> Attended(s, r)
  }

  /** A re-keying of a conversation whose watcher has already read the old id, or is not there yet. */
  ghost predicate LosesWatch(s: State, a: Action) {
    a.Restart? && Leads(s, a.id) && s.states[s.sessions[a.id]].proc && Watching(s.sessions[a.id]) !in s.threads
  }

  lemma Stays(s: State, a: Action, t: Thread)
    requires Enabled(s, a) && t in s.threads && t !in Leaves(a)
    ensures t in Apply(s, a).threads
  {
  }

  lemma Goes(s: State, a: Action, t: Thread)
    requires Enabled(s, a) && t in Enters(s, a)
    ensures t in Apply(s, a).threads
  {
  }

  lemma AttenderMoves(s: State, a: Action, r: nat, t: Thread)
    requires Keyed(s) && AllKnown(s) && Enabled(s, a) && r < |s.states| && t in Leaves(a) && t in s.threads
    requires Attends(s, r, t) && IsLive(s, r) && IsLive(Apply(s, a), r)
    ensures Attended(Apply(s, a), r)
  {
    var s' := Apply(s, a);
    if a.Started? {
      Goes(s, a, Watching(r));
      assert Attends(s', r, Watching(r));
    } else if a.Notice? {
      Goes(s, a, Noticed(r, s.states[r].id));
      assert Attends(s', r, Noticed(r, s.states[r].id));
    }
  }

  lemma SameId(s: State, a: Action, r: nat)
    requires Enabled(s, a) && r < |s.states| && !(a.Restart? && s.sessions[a.id] == r)
    ensures Apply(s, a).states[r].id == s.states[r].id && Apply(s, a).states[r].proc == s.states[r].proc
  {
  }

  lemma AttendedKept(s: State, a: Action, r: nat)
    requires Keyed(s) && AllKnown(s) && Enabled(s, a) && !LosesWatch(s, a) && r < |s.states|
    requires IsLive(s, r) && IsLive(Apply(s, a), r) && s.states[r].proc && Attended(s, r)
    ensures Attended(Apply(s, a), r)
  {
    var s' := Apply(s, a);
    if a.Restart? && s.sessions[a.id] == r {
      Stays(s, a, Watching(r));
      assert Attends(s', r, Watching(r));
    } else {
      var t :| t in s.threads && Attends(s, r, t);
      SameId(s, a, r);
      if t in Leaves(a) {
        AttenderMoves(s, a, r, t);
      } else {
        Stays(s, a, t);
        assert Attends(s', r, t);
      }
    }
  }

  lemma NewAttended(s: State, a: Action)
    requires Enabled(s, a) && Subject(s, a) == |s.states| && !a.Finalize? && Apply(s, a).states[|s.states|].proc
    ensures Attended(Apply(s, a), |s.states|)
  {
    var t := if a.Adopt? then Watching(|s.states|) else Creating(|s.states|, s.next);
    Goes(s, a, t);
    assert Attends(Apply(s, a), |s.states|, t);
  }

  lemma WasLive(s: State, a: Action, r: nat)
    requires Inv(s) && Enabled(s, a) && r < |s.states| && IsLive(Apply(s, a), r)
    ensures IsLive(s, r) && Apply(s, a).states[r].proc == s.states[r].proc
  {
    if r != Subject(s, a) {
      OthersLive(s, a, r);
    } else {
      InvKept(s, a);
      assert Kept(Apply(s, a), r) && Kept(s, r);
    }
  }

  lemma AllAttendedKept(s: State, a: Action)
    requires Inv(s) && AllAttended(s) && Enabled(s, a) && !LosesWatch(s, a)
    ensures AllAttended(Apply(s, a))
  {
    var s' := Apply(s, a);
    forall r | 0 <= r < |s'.states| && IsLive(s', r) && s'.states[r].proc
      ensures Attended(s', r)
    {
      if r == |s.states| {
        NewAttended(s, a);
      } else {
        WasLive(s, a, r);
        AttendedKept(s, a, r);
      }
    }
  }

  /** A re-keying keeps every session watched exactly when its own watcher is still waiting for the process. */
  lemma RestartKeepsWatchIff(s: State, id: nat)
    requires Inv(s) && AllAttended(s) && Enabled(s, Restart(id))
    ensures AllAttended(Apply(s, Restart(id))) <==> !LosesWatch(s, Restart(id))
  {
    var a := Restart(id);
    if !LosesWatch(s, a) {
      AllAttendedKept(s, a);
    } else {
      var s', r := Apply(s, a), s.sessions[id];
      assert IsLive(s', r) && s'.states[r].proc;
      forall t | t in s'.threads
        ensures !Attends(s', r, t)
      {
        assert Known(s, t);
      }
    }
  }

  ghost predicate Watchful(s: State, run: seq<Action>)
    requires Possible(s, run)
    decreases |run|
  {
    run == [] || (!LosesWatch(s, run[0]) && Watchful(Apply(s, run[0]), run[1..]))
  }

  lemma {:induction false} AlwaysAttended(s: State, run: seq<Action>)
    requires Inv(s) && AllAttended(s) && Possible(s, run) && Watchful(s, run)
    ensures Inv(Exec(s, run)) && AllAttended(Exec(s, run))
    decreases |run|
  {
    if run != [] {
      InvKept(s, run[0]);
      AllAttendedKept(s, run[0]);
      AlwaysAttended(Apply(s, run[0]), run[1..]);
    }
  }

  lemma WatcherLooks(s: State, r: nat)
    requires Inv(s) && r < |s.states| && IsLive(s, r) && s.states[r].exited && Watching(r) in s.threads
    ensures var s1 := Apply(s, Notice(Watching(r)));
            && Inv(s1) && IsLive(s1, r) && s1.states == s.states && Noticed(r, s.states[r].id) in s1.threads
  {
    InvKept(s, Notice(Watching(r)));
    Goes(s, Notice(Watching(r)), Noticed(r, s.states[r].id));
  }

  lemma WatcherRemoves(s: State, r: nat) returns (s': State)
    requires Inv(s) && r < |s.states| && IsLive(s, r) && s.states[r].exited && Watching(r) in s.threads
    ensures var run := [Notice(Watching(r)), CloseDead(Noticed(r, s.states[r].id))];
      Possible(s, run) && s' == Exec(s, run)
    ensures Inv(s') && Announcing(r, false) in s'.threads
            && s'.states == s.states[r := s.states[r].(phase := Closing(false))]
  {
    var a, b := Notice(Watching(r)), CloseDead(Noticed(r, s.states[r].id));
    WatcherLooks(s, r);
    var s1 := Apply(s, a);
    s' := Apply(s1, b);
    InvKept(s1, b);
    Goes(s1, b, Announcing(r, false));
    TwoSteps(s, a, b);
  }

  lemma CloserFinishes(s: State, r: nat, force: bool) returns (s': State)
    requires Inv(s) && r < |s.states| && Announcing(r, force) in s.threads
    ensures Possible(s, [Announce(Announcing(r, force)), TearDown(Tearing(r, force))])
    ensures s' == Exec(s, [Announce(Announcing(r, force)), TearDown(Tearing(r, force))])
    ensures Inv(s') && r < |s'.states| && !IsLive(s', r) && ClosedOf(s'.log, r) == [s.states[r].id]
    ensures s'.states[r].torn == if s.states[r].torn.None? then Some(force) else s.states[r].torn
  {
    var a, b := Announce(Announcing(r, force)), TearDown(Tearing(r, force));
    var s1 := Apply(s, a);
    InvKept(s, a);
    Goes(s, a, Tearing(r, force));
    s' := Apply(s1, b);
    InvKept(s1, b);
    TwoSteps(s, a, b);
    assert Kept(s', r);
  }

  /** What the watcher of a dead process does, when nothing comes in between: it closes the conversation in full. */
  lemma WatcherFinalizes(s: State, r: nat) returns (s': State)
    requires Inv(s) && r < |s.states| && IsLive(s, r) && s.states[r].exited && Watching(r) in s.threads
    ensures var run := [Notice(Watching(r)), CloseDead(Noticed(r, s.states[r].id)),
                        Announce(Announcing(r, false)), TearDown(Tearing(r, false))];
      Possible(s, run) && s' == Exec(s, run)
    ensures Inv(s') && r < |s'.states| && !IsLive(s', r) && ClosedOf(s'.log, r) == [s.states[r].id]
    ensures s.states[r].torn.None? ==> s'.states[r].torn == Some(false)
  {
    var s2 := WatcherRemoves(s, r);
    s' := CloserFinishes(s2, r, false);
    var a, b := Notice(Watching(r)), CloseDead(Noticed(r, s.states[r].id));
    var c, d := Announce(Announcing(r, false)), TearDown(Tearing(r, false));
    TwoThen(s, a, b, s2, [c, d]);
    assert [a, b] + [c, d] == [a, b, c, d];
  }

  lemma Prepend(s: State, a: Action, rest: seq<Action>)
    requires Enabled(s, a) && Possible(Apply(s, a), rest)
    ensures Possible(s, [a] + rest) && Exec(s, [a] + rest) == Exec(Apply(s, a), rest)
  {
    assert ([a] + rest)[1..] == rest;
  }

  lemma TwoSteps(s: State, a: Action, b: Action)
    requires Enabled(s, a) && Enabled(Apply(s, a), b)
    ensures Possible(s, [a, b]) && Exec(s, [a, b]) == Apply(Apply(s, a), b)
  {
    Prepend(Apply(s, a), b, []);
    Prepend(s, a, [b] + []);
    assert [a] + ([b] + []) == [a, b];
  }

  lemma TwoFirst(s: State, a: Action, s1: State, b: Action, s2: State, rest: seq<Action>)
    requires Enabled(s, a) && s1 == Apply(s, a) && Enabled(s1, b) && s2 == Apply(s1, b) && Possible(s2, rest)
    ensures Possible(s, [a, b] + rest) && Exec(s, [a, b] + rest) == Exec(s2, rest)
  {
    Prepend(s1, b, rest);
    Prepend(s, a, [b] + rest);
    assert [a] + ([b] + rest) == [a, b] + rest;
  }

  lemma TwoThen(s: State, a: Action, b: Action, mid: State, rest: seq<Action>)
    requires Possible(s, [a, b]) && mid == Exec(s, [a, b]) && Possible(mid, rest)
    ensures Possible(s, [a, b] + rest) && Exec(s, [a, b] + rest) == Exec(mid, rest)
  {
    assert [a, b][0] == a && [a, b][1..] == [b] && [b][0] == b && [b][1..] == [];
    var s1 := Apply(s, a);
    assert Exec(s, [a, b]) == Exec(s1, [b]) == Exec(Apply(s1, b), []) == Apply(s1, b);
    TwoFirst(s, a, Apply(s, a), b, mid, rest);
  }

  // ---- a dead process that stays registered ----

  /** A call that will not close the session, as it will not look for the id it carries. */
  ghost predicate Useless(s: State, r: nat, t: Thread)
    requires r < |s.states|
  {
    && (t.session == r ==> !t.Creating? && !t.Watching?)
    && (t.Noticed? ==> t.id != s.states[r].id)
    && (t.Watching? || t.Creating? ==> t.session < |s.states| && s.states[t.session].id != s.states[r].id)
  }

  /** Registered, its process dead, and nobody left to notice. */
  ghost predicate Zombie(s: State, r: nat) {
    r < |s.states| && IsLive(s, r) && s.states[r].exited && forall t :: t in s.threads ==> Useless(s, r, t)
  }

  lemma IdStays(s: State, a: Action, q: nat)
    requires Keyed(s) && Enabled(s, a) && q < |s.states|
    ensures q < |Apply(s, a).states|
    ensures var id := Apply(s, a).states[q].id;
            id == s.states[q].id || (a.Restart? && s.sessions[a.id] == q && id == s.next)
  {
  }

  lemma UselessStays(s: State, a: Action, r: nat, t: Thread)
    requires Keyed(s) && Enabled(s, a) && r < |s.states| && IsLive(s, r) && Useless(s, r, t) && Known(s, t)
    ensures Useless(Apply(s, a), r, t)
  {
    IdStays(s, a, r);
    IdStays(s, a, t.session);
    assert s.states[r].id in s.used && s.states[t.session].id in s.used;
  }

  lemma NothingUseful(s: State, a: Action, r: nat, t: Thread)
    requires Keyed(s) && AllKnown(s) && Zombie(s, r) && Enabled(s, a) && t in Enters(s, a)
    ensures Useless(Apply(s, a), r, t)
  {
    if a.Started? || a.Notice? {
      assert Useless(s, r, a.t);
    } else if a.Create? || a.Adopt? {
      assert s.states[r].id in s.sessions && s.states[r].id in s.used;
    }
  }

  lemma StaysLive(s: State, a: Action, r: nat)
    requires Keyed(s) && AllKnown(s) && Zombie(s, r) && Enabled(s, a)
    requires !((a.Close? || a.Detach?) && Subject(s, a) == r)
    ensures IsLive(Apply(s, a), r) && Apply(s, a).states[r].exited
  {
    if r != Subject(s, a) {
      OthersLive(s, a, r);
    } else if a.CloseDead? || a.StartFailed? {
      assert Useless(s, r, a.t) && Known(s, a.t);
    }
  }

  /** It stays until somebody closes it by hand, or the server lets it go. */
  lemma ZombieStays(s: State, a: Action, r: nat)
    requires Inv(s) && Zombie(s, r) && Enabled(s, a)
    requires !((a.Close? || a.Detach?) && Subject(s, a) == r)
    ensures Zombie(Apply(s, a), r)
  {
    StaysLive(s, a, r);
    forall t | t in Apply(s, a).threads
      ensures Useless(Apply(s, a), r, t)
    {
      Came(s, a, t);
      if t in s.threads {
        UselessStays(s, a, r, t);
      } else {
        NothingUseful(s, a, r, t);
      }
    }
  }

  /** The watcher read the id, then the user restarts the conversation: the close misses, and the dead process stays. */
  lemma RestartStrands(s: State, r: nat) returns (s': State)
    requires Inv(s) && r < |s.states| && IsLive(s, r) && s.states[r].exited && Noticed(r, s.states[r].id) in s.threads
    requires forall t :: t in s.threads && t.session == r ==> t == Noticed(r, s.states[r].id)
    ensures var run := [Restart(s.states[r].id), CloseDead(Noticed(r, s.states[r].id))];
      Possible(s, run) && s' == Exec(s, run)
    ensures Inv(s') && Zombie(s', r)
  {
    var id := s.states[r].id;
    var a, b := Restart(id), CloseDead(Noticed(r, id));
    var s1 := Apply(s, a);
    InvKept(s, a);
    Stays(s, a, Noticed(r, id));
    Rerooted(s, r);
    s' := Apply(s1, b);
    InvKept(s1, b);
    TwoSteps(s, a, b);
    StrandedZombie(s1, r, id);
  }

  lemma Rerooted(s: State, r: nat)
    requires Keyed(s) && AllKnown(s) && r < |s.states| && IsLive(s, r) && s.states[r].exited
    requires forall t :: t in s.threads && t.session == r ==> t == Noticed(r, s.states[r].id)
    ensures Zombie(Apply(s, Restart(s.states[r].id)), r)
            && s.states[r].id !in Apply(s, Restart(s.states[r].id)).sessions
  {
    var s1 := Apply(s, Restart(s.states[r].id));
    assert s1.threads == s.threads;
    forall t | t in s1.threads
      ensures Useless(s1, r, t)
    {
    }
  }

  lemma StrandedZombie(s1: State, r: nat, id: nat)
    requires Inv(s1) && Zombie(s1, r) && Enabled(s1, CloseDead(Noticed(r, id)))
    ensures Zombie(Apply(s1, CloseDead(Noticed(r, id))), r)
  {
    ZombieStays(s1, CloseDead(Noticed(r, id)), r);
  }

  /** A server with one conversation, and one call under way for it. */
  function Only(id: nat, base: Path, exited: bool, t: Thread): State {
    State(map[id := 0], [Session(id, LOCAL, base, base, true, false, exited, [], None, Live)], multiset{t}, [],
          id + 1, {id})
  }

  /** A conversation is created, its process dies, and the watcher notices. */
  lemma CrashCreated(next: nat, base: Path)
    ensures Apply(Initial(next), Create(LOCAL, base, base, false, [])) == Only(next, base, false, Creating(0, next))
  {
  }

  lemma CrashStarted(next: nat, base: Path)
    ensures Apply(Only(next, base, false, Creating(0, next)), Started(Creating(0, next)))
            == Only(next, base, false, Watching(0))
  {
    var s := Only(next, base, false, Creating(0, next));
    assert s.log + [] == s.log;
  }

  lemma CrashDied(next: nat, base: Path)
    ensures Apply(Only(next, base, false, Watching(0)), Exit(0)) == Only(next, base, true, Watching(0))
  {
    var s := Only(next, base, false, Watching(0));
    assert s.log + [] == s.log;
  }

  lemma CrashNoticed(next: nat, base: Path)
    ensures Apply(Only(next, base, true, Watching(0)), Notice(Watching(0))) == Only(next, base, true, Noticed(0, next))
  {
    var s := Only(next, base, true, Watching(0));
    assert s.log + [] == s.log;
  }

  /** So the promise that a crashed conversation is always finalized fails: here is a run that leaves one behind. */
  lemma CrashLeftBehind(next: nat, base: Path) returns (run: seq<Action>)
    ensures Possible(Initial(next), run) && Zombie(Exec(Initial(next), run), 0)
  {
    CrashCreated(next, base);
    CrashStarted(next, base);
    CrashDied(next, base);
    CrashNoticed(next, base);
    var c := Create(LOCAL, base, base, false, []);
    var s1, s2 := Only(next, base, false, Creating(0, next)), Only(next, base, false, Watching(0));
    var s3, s4 := Only(next, base, true, Watching(0)), Only(next, base, true, Noticed(0, next));
    InitialInv(next);
    InvKept(Initial(next), c);
    InvKept(s1, Started(Creating(0, next)));
    InvKept(s2, Exit(0));
    InvKept(s3, Notice(Watching(0)));
    var end := RestartStrands(s4, 0);
    run := [Restart(next), CloseDead(Noticed(0, next))];
    Prepend(s3, Notice(Watching(0)), run);
    run := [Notice(Watching(0))] + run;
    Prepend(s2, Exit(0), run);
    run := [Exit(0)] + run;
    Prepend(s1, Started(Creating(0, next)), run);
    run := [Started(Creating(0, next))] + run;
    Prepend(Initial(next), c, run);
    run := [c] + run;
  }
}
