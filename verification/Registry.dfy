/** router/router.go: the registry of live conversations, in every interleaving of its critical sections. */
module Registries {
  import opened Wrappers

  /** A path is a list of names; a conversation's id is a name nothing else has. */
  datatype Part = Name(text: string) | Id(id: nat)
  type Path = seq<Part>

  const LOCAL := "localhost"

  /** How a session's registration stands: `Closing` is removed, its ConversationClosed still to be told. */
  datatype Phase = Live | Closing(force: bool) | Told(force: bool) | Aborted | Detached

  /** A SessionState; `torn` is its sync.Once and remembers the force flag its cleanups were run with. */
  datatype Session = Session(
    id: nat, location: string, base: Path, cwd: Path, proc: bool, remote: bool, exited: bool,
    cleanups: seq<nat>, torn: Option<bool>, phase: Phase)

  /**
   What the rest of the program sees: a ConversationClosed, by a close or by Finalize, or a cleanup being run.
   Sessions, each a registration, are numbered.
   */
  datatype Event = Closed(session: nat, id: nat) | Finalized(id: nat) | Ran(session: nat, cleanup: nat, force: bool)

  /** Calls under way, between two critical sections. */
  datatype Thread =
    | Creating(session: nat, id: nat)      // Create, registered, the handshake not sent yet
    | Announcing(session: nat, force: bool) // closeConversation, past its guarded delete
    | Tearing(session: nat, force: bool)    // about to run the cleanups
    | Watching(session: nat)                // watchProcess
    | Noticed(session: nat, id: nat)        // watchProcess, having read the id of a dead process

  /** `used` are the ids this server has registered a session under. */
  datatype State = State(
    sessions: map<nat, nat>, states: seq<Session>, threads: multiset<Thread>, log: seq<Event>, next: nat,
    used: set<nat>)

  /** A server starts: the ids below `next` were given out by earlier ones. */
  function Initial(next: nat): State {
    State(map[], [], multiset{}, [], next, {})
  }

  datatype Action =
    | Create(location: string, base: Path, cwd: Path, remote: bool, cleanups: seq<nat>)
    | CreateError(cwd: Path)
    | Adopt(id: nat, location: string, base: Path, cwd: Path, cleanups: seq<nat>)
    | Started(t: Thread)
    | StartFailed(t: Thread)
    | Restart(id: nat)
    | Close(id: nat, force: bool)
    | Announce(t: Thread)
    | TearDown(t: Thread)
    | Exit(session: nat)
    | Notice(t: Thread)
    | CloseDead(t: Thread)
    | Detach(id: nat)
    | Finalize(id: nat)

  /** The session a key leads to. */
  predicate Leads(s: State, id: nat) {
    id in s.sessions && s.sessions[id] < |s.states|
  }

  predicate Moves(s: State, t: Thread) {
    t in s.threads && t.session < |s.states|
  }

  /** A conversation whose Create is under way: its descriptor has no ACP session id yet. */
  predicate BeingCreated(s: State, id: nat) {
    exists t :: t in s.threads && t.Creating?
                && (t.id == id || (t.session < |s.states| && s.states[t.session].id == id))
  }

  predicate Enabled(s: State, a: Action) {
    match a
    case Create(_, _, _, _, _) => true
    case CreateError(_) => true
    case Adopt(id, _, _, _, _) => id < s.next && id !in s.sessions && !BeingCreated(s, id)
    case Started(t) => Moves(s, t) && t.Creating?
    case StartFailed(t) => Moves(s, t) && t.Creating?
    case Restart(id) => Leads(s, id)
    case Close(id, _) => Leads(s, id)
    case Announce(t) => Moves(s, t) && t.Announcing?
    case TearDown(t) => Moves(s, t) && t.Tearing?
    case Exit(r) => r < |s.states| && s.states[r].proc
    case Notice(t) => Moves(s, t) && t.Watching? && s.states[t.session].exited
    case CloseDead(t) => Moves(s, t) && t.Noticed? && (t.id in s.sessions ==> Leads(s, t.id))
    case Detach(id) => Leads(s, id) && s.states[s.sessions[id]].remote
    case Finalize(_) => true
  }

  /** The session a registering call makes. */
  function Made(s: State, a: Action): Session
    requires a.Create? || a.CreateError? || a.Adopt?
  {
    match a
    case Create(location, base, cwd, remote, cleanups) =>
      Session(s.next, location, base, cwd, true, remote, false, cleanups, None, Live)
    case CreateError(cwd) => Session(s.next, LOCAL, [], cwd, false, false, false, [], None, Live)
    case Adopt(id, location, base, cwd, cleanups) =>
      Session(id, location, base, cwd, true, true, false, cleanups, None, Live)
  }

  /** The session a step is about: a new one gets the next number (and Finalize is about none). */
  function Subject(s: State, a: Action): nat
    requires Enabled(s, a)
  {
    match a
    case Restart(id) => s.sessions[id]
    case Close(id, _) => s.sessions[id]
    case Detach(id) => s.sessions[id]
    case CloseDead(t) => if t.id in s.sessions then s.sessions[t.id] else t.session
    case Exit(r) => r
    case Create(_, _, _, _, _) => |s.states|
    case CreateError(_) => |s.states|
    case Adopt(_, _, _, _, _) => |s.states|
    case Finalize(_) => |s.states|
    case _ => a.t.session
  }

  /** What the step makes of an existing session. */
  function Changed(s: State, a: Action, x: Session): Session
    requires Enabled(s, a)
  {
    match a
    case StartFailed(t) => x.(exited := true, phase := if t.id in s.sessions then Aborted else x.phase)
    case Restart(_) => x.(id := s.next)
    case Close(_, force) => x.(phase := Closing(force))
    case CloseDead(t) => if t.id in s.sessions then x.(phase := Closing(false)) else x
    case Announce(t) => x.(phase := Told(t.force), exited := true)
    case TearDown(t) => if x.torn.None? then x.(torn := Some(t.force)) else x
    case Exit(_) => x.(exited := true)
    case Detach(_) => x.(phase := Detached)
    case _ => x
  }

  function StatesAfter(s: State, a: Action): seq<Session>
    requires Enabled(s, a)
  {
    if a.Create? || a.CreateError? || a.Adopt? then s.states + [Made(s, a)]
    else if a.Finalize? then s.states
    else s.states[Subject(s, a) := Changed(s, a, s.states[Subject(s, a)])]
  }

  function SessionsAfter(s: State, a: Action): map<nat, nat>
    requires Enabled(s, a)
  {
    match a
    case Create(_, _, _, _, _) => s.sessions[s.next := |s.states|]
    case CreateError(_) => s.sessions[s.next := |s.states|]
    case Adopt(id, _, _, _, _) => s.sessions[id := |s.states|]
    case StartFailed(t) => s.sessions - {t.id}
    case Restart(id) => (s.sessions - {id})[s.next := s.sessions[id]]
    case Close(id, _) => s.sessions - {id}
    case CloseDead(t) => s.sessions - {t.id}
    case Detach(id) => s.sessions - {id}
    case _ => s.sessions
  }

  function Leaves(a: Action): multiset<Thread> {
    match a
    case Started(t) => multiset{t}
    case StartFailed(t) => multiset{t}
    case Announce(t) => multiset{t}
    case TearDown(t) => multiset{t}
    case Notice(t) => multiset{t}
    case CloseDead(t) => multiset{t}
    case _ => multiset{}
  }

  /** The guarded delete lets one caller through to announce and tear down. */
  function Enters(s: State, a: Action): multiset<Thread>
    requires Enabled(s, a)
  {
    var r := Subject(s, a);
    match a
    case Create(_, _, _, _, _) => multiset{Creating(r, s.next)}
    case Adopt(_, _, _, _, _) => multiset{Watching(r)}
    case Started(_) => multiset{Watching(r)}
    case StartFailed(_) => multiset{Tearing(r, false)}
    case Close(_, force) => multiset{Announcing(r, force)}
    case CloseDead(t) => if t.id in s.sessions then multiset{Announcing(r, false)} else multiset{}
    case Announce(t) => multiset{Tearing(r, t.force)}
    case Notice(_) => if s.states[r].id in s.sessions then multiset{Noticed(r, s.states[r].id)} else multiset{}
    case _ => multiset{}
  }

  /** runCleanups: last set up, first torn down. */
  function Backwards(r: nat, cleanups: seq<nat>, force: bool): seq<Event> {
    if cleanups == [] then []
    else [Ran(r, cleanups[|cleanups| - 1], force)] + Backwards(r, cleanups[..|cleanups| - 1], force)
  }

  /** What the step adds to the log. */
  function Says(s: State, a: Action): seq<Event>
    requires Enabled(s, a)
  {
    match a
    case Announce(t) => [Closed(t.session, s.states[t.session].id)]
    case TearDown(t) =>
      var x := s.states[t.session];
      if x.torn.None? then Backwards(t.session, x.cleanups, t.force) else []
    case Finalize(id) => if id in s.sessions then [] else [Finalized(id)]
    case _ => []
  }

  function Apply(s: State, a: Action): State
    requires Enabled(s, a)
  {
    var mints := a.Create? || a.CreateError? || a.Restart?;
    State(SessionsAfter(s, a), StatesAfter(s, a), s.threads - Leaves(a) + Enters(s, a), s.log + Says(s, a),
          if mints then s.next + 1 else s.next,
          if mints then s.used + {s.next} else if a.Adopt? then s.used + {a.id} else s.used)
  }

  // ---- what the log says of one session ----

  function ClosedOf(log: seq<Event>, r: nat): seq<nat> {
    if log == [] then []
    else
      var last := log[|log| - 1];
      ClosedOf(log[..|log| - 1], r) + if last.Closed? && last.session == r then [last.id] else []
  }

  function RanOf(log: seq<Event>, r: nat): seq<Event> {
    if log == [] then []
    else
      var last := log[|log| - 1];
      RanOf(log[..|log| - 1], r) + if last.Ran? && last.session == r then [last] else []
  }

  lemma {:induction false} LogGrows(log: seq<Event>, more: seq<Event>, r: nat)
    ensures ClosedOf(log + more, r) == ClosedOf(log, r) + ClosedOf(more, r)
    ensures RanOf(log + more, r) == RanOf(log, r) + RanOf(more, r)
    decreases |more|
  {
    if more == [] {
      assert log + more == log;
    } else {
      var front := more[..|more| - 1];
      LogGrows(log, front, r);
      assert (log + more)[..|log + more| - 1] == log + front;
    }
  }

  lemma {:induction false} BackwardsOf(r: nat, cleanups: seq<nat>, force: bool, q: nat)
    ensures var b := Backwards(r, cleanups, force);
      ClosedOf(b, q) == [] && RanOf(b, q) == if q == r then b else []
    decreases |cleanups|
  {
    if cleanups != [] {
      var front := cleanups[..|cleanups| - 1];
      var head := Ran(r, cleanups[|cleanups| - 1], force);
      BackwardsOf(r, front, force, q);
      LogGrows([head], Backwards(r, front, force), q);
      assert [head][..0] == [];
    }
  }

  /** The cleanups of a session, last first. */
  lemma {:induction false} BackwardsAt(r: nat, cleanups: seq<nat>, force: bool, k: nat)
    requires k < |cleanups|
    ensures |Backwards(r, cleanups, force)| == |cleanups|
    ensures Backwards(r, cleanups, force)[k] == Ran(r, cleanups[|cleanups| - 1 - k], force)
    decreases |cleanups|
  {
    var front := cleanups[..|cleanups| - 1];
    if front != [] {
      BackwardsAt(r, front, force, if k > 0 then k - 1 else 0);
    }
  }

  // ---- the invariant ----

  /** Each key is the id its session carries. */
  ghost predicate KeyIsId(s: State) {
    forall id :: id in s.sessions ==> id in s.used && s.sessions[id] < |s.states| && s.states[s.sessions[id]].id == id
  }

  /** Sessions carry ids they were registered under, and no id that is yet to be given out. */
  ghost predicate OwnIds(s: State) {
    && (forall id :: id in s.used ==> id < s.next)
    && (forall r :: 0 <= r < |s.states| ==> s.states[r].id in s.used)
  }

  ghost predicate Keyed(s: State) {
    KeyIsId(s) && OwnIds(s)
  }

  ghost predicate IsLive(s: State, r: nat) {
    r < |s.states| && s.states[r].id in s.sessions && s.sessions[s.states[r].id] == r
  }

  /** A call knows its session, and a Create finds no other under its id. */
  ghost predicate Known(s: State, t: Thread) {
    && t.session < |s.states|
    && (t.Creating? || t.Noticed? ==> t.id in s.used)
    && (t.Creating? ==> t.id in s.sessions ==> s.sessions[t.id] == t.session)
  }

  ghost predicate AllKnown(s: State) {
    forall t :: t in s.threads ==> Known(s, t)
  }

  /** Exactly the right calls are under way for a session that was removed. */
  ghost predicate Handled(threads: multiset<Thread>, r: nat, x: Session) {
    && (forall f :: threads[Announcing(r, f)] == if x.phase == Closing(f) then 1 else 0)
    && (Tearing(r, true) in threads ==> x.phase == Told(true))
    && (x.phase.Told? || x.phase.Aborted? ==>
        x.torn.Some? || Tearing(r, true) in threads || Tearing(r, false) in threads)
  }

  /** What has been told about a session, and what has been run for it. */
  ghost predicate Recorded(log: seq<Event>, r: nat, x: Session) {
    && ClosedOf(log, r) == (if x.phase.Told? then [x.id] else [])
    && RanOf(log, r) == (if x.torn.Some? then Backwards(r, x.cleanups, x.torn.value) else [])
    && (x.torn == Some(true) ==> x.phase == Told(true))
  }

  ghost predicate Kept(s: State, r: nat)
    requires r < |s.states|
  {
    (s.states[r].phase.Live? <==> IsLive(s, r)) && Handled(s.threads, r, s.states[r]) && Recorded(s.log, r, s.states[r])
  }

  /** Nothing has been said of sessions yet to come. */
  ghost predicate Silent(s: State) {
    forall r: nat :: r >= |s.states| ==> ClosedOf(s.log, r) == [] && RanOf(s.log, r) == []
  }

  ghost predicate Inv(s: State) {
    Keyed(s) && AllKnown(s) && Silent(s) && forall r :: 0 <= r < |s.states| ==> Kept(s, r)
  }

  // ---- every step keeps it ----

  lemma OwnIdsKept(s: State, a: Action)
    requires OwnIds(s) && Enabled(s, a)
    ensures OwnIds(Apply(s, a))
  {
    assert forall q :: 0 <= q < |s.states| && q != Subject(s, a) ==> Apply(s, a).states[q] == s.states[q];
  }

  /** What a step makes of the key `id`, if it leaves it there. */
  lemma KeyAfter(s: State, a: Action, id: nat)
    requires Keyed(s) && Enabled(s, a) && id in SessionsAfter(s, a)
    ensures var r := SessionsAfter(s, a)[id];
            || (id in s.sessions && s.sessions[id] == r && !(a.Restart? && a.id == id))
            || (r == Subject(s, a) && (a.Restart? || a.Create? || a.CreateError?) && id == s.next)
            || (r == Subject(s, a) && a.Adopt? && id == a.id)
  {
  }

  lemma KeyIsIdKept(s: State, a: Action)
    requires Keyed(s) && Enabled(s, a)
    ensures KeyIsId(Apply(s, a))
  {
    forall id | id in SessionsAfter(s, a)
      ensures id in Apply(s, a).used && SessionsAfter(s, a)[id] < |StatesAfter(s, a)|
      ensures StatesAfter(s, a)[SessionsAfter(s, a)[id]].id == id
    {
      KeyAfter(s, a, id);
    }
  }

  lemma KeyedKept(s: State, a: Action)
    requires Keyed(s) && Enabled(s, a)
    ensures Keyed(Apply(s, a))
  {
    OwnIdsKept(s, a);
    KeyIsIdKept(s, a);
  }

  lemma Came(s: State, a: Action, t: Thread)
    requires Enabled(s, a) && t in Apply(s, a).threads
    ensures t in s.threads || t in Enters(s, a)
  {
  }

  lemma KnownKept(s: State, a: Action, t: Thread)
    requires Keyed(s) && Known(s, t) && t in s.threads && Enabled(s, a)
    ensures Known(Apply(s, a), t)
  {
    if a.Adopt? {
      assert t.Creating? ==> t.id != a.id;
    }
  }

  lemma EntersKnown(s: State, a: Action, t: Thread)
    requires Keyed(s) && AllKnown(s) && Enabled(s, a) && t in Enters(s, a)
    ensures Known(Apply(s, a), t)
  {
  }

  lemma AllKnownKept(s: State, a: Action)
    requires Keyed(s) && AllKnown(s) && Enabled(s, a)
    ensures AllKnown(Apply(s, a))
  {
    forall t | t in Apply(s, a).threads
      ensures Known(Apply(s, a), t)
    {
      Came(s, a, t);
      if t in s.threads {
        KnownKept(s, a, t);
      } else {
        EntersKnown(s, a, t);
      }
    }
  }

  lemma SaysOnly(s: State, a: Action, r: nat)
    requires Enabled(s, a) && (r != Subject(s, a) || a.Finalize?)
    ensures ClosedOf(Says(s, a), r) == [] && RanOf(Says(s, a), r) == []
  {
    if a.Announce? || a.Finalize? {
      assert |Says(s, a)| > 0 ==> Says(s, a)[..0] == [];
    } else if a.TearDown? {
      BackwardsOf(a.t.session, s.states[a.t.session].cleanups, a.t.force, r);
    }
  }

  lemma SilentKept(s: State, a: Action)
    requires Keyed(s) && AllKnown(s) && Silent(s) && Enabled(s, a)
    ensures Silent(Apply(s, a))
  {
    forall r: nat | r >= |Apply(s, a).states|
      ensures ClosedOf(Apply(s, a).log, r) == [] && RanOf(Apply(s, a).log, r) == []
    {
      LogGrows(s.log, Says(s, a), r);
      SaysOnly(s, a, r);
    }
  }

  /** A step leaves every other session alone. */
  lemma OthersLive(s: State, a: Action, r: nat)
    requires Keyed(s) && AllKnown(s) && Enabled(s, a) && r < |s.states| && r != Subject(s, a)
    ensures Apply(s, a).states[r] == s.states[r]
    ensures IsLive(Apply(s, a), r) <==> IsLive(s, r)
  {
  }

  lemma OthersThreads(s: State, a: Action, r: nat, t: Thread)
    requires AllKnown(s) && Enabled(s, a) && r < |s.states| && r != Subject(s, a)
    requires t.session == r && (t.Announcing? || t.Tearing?)
    ensures Apply(s, a).threads[t] == s.threads[t]
  {
  }

  lemma OthersKept(s: State, a: Action, r: nat)
    requires Inv(s) && Enabled(s, a) && r < |s.states| && r != Subject(s, a)
    ensures Kept(Apply(s, a), r)
  {
    var s' := Apply(s, a);
    assert Kept(s, r);
    OthersLive(s, a, r);
    forall f
      ensures s'.threads[Announcing(r, f)] == s.threads[Announcing(r, f)]
      ensures s'.threads[Tearing(r, f)] == s.threads[Tearing(r, f)]
    {
      OthersThreads(s, a, r, Announcing(r, f));
      OthersThreads(s, a, r, Tearing(r, f));
    }
    LogGrows(s.log, Says(s, a), r);
    SaysOnly(s, a, r);
  }

  lemma SubjectLive(s: State, a: Action)
    requires Keyed(s) && AllKnown(s) && Enabled(s, a) && !a.Finalize?
    requires var r := Subject(s, a); r < |s.states| ==> Kept(s, r)
    ensures var r := Subject(s, a);
            r < |Apply(s, a).states| && (Apply(s, a).states[r].phase.Live? <==> IsLive(Apply(s, a), r))
  {
    var r := Subject(s, a);
    if r < |s.states| {
      if a.Announce? {
        assert s.threads[Announcing(r, a.t.force)] > 0;
      } else {
        PhaseFollows(s, a, s.states[r]);
      }
    }
  }

  lemma RekeyedPhase(s: State, a: Action, x: Session)
    requires Keyed(s) && AllKnown(s) && Enabled(s, a) && Subject(s, a) < |s.states| && a.Restart?
    requires x == s.states[Subject(s, a)] && (x.phase.Live? <==> IsLive(s, Subject(s, a)))
    ensures Apply(s, a).states[Subject(s, a)].phase.Live? <==> IsLive(Apply(s, a), Subject(s, a))
  {
  }

  lemma RemovedPhase(s: State, a: Action, x: Session)
    requires Keyed(s) && AllKnown(s) && Enabled(s, a) && Subject(s, a) < |s.states|
             && (a.Close? || a.CloseDead? || a.Detach? || a.StartFailed?)
    requires x == s.states[Subject(s, a)] && (x.phase.Live? <==> IsLive(s, Subject(s, a)))
    ensures Apply(s, a).states[Subject(s, a)].phase.Live? <==> IsLive(Apply(s, a), Subject(s, a))
  {
  }

  lemma PhaseFollows(s: State, a: Action, x: Session)
    requires Keyed(s) && AllKnown(s) && Enabled(s, a) && Subject(s, a) < |s.states| && !a.Announce?
    requires x == s.states[Subject(s, a)] && (x.phase.Live? <==> IsLive(s, Subject(s, a)))
    ensures Apply(s, a).states[Subject(s, a)].phase.Live? <==> IsLive(Apply(s, a), Subject(s, a))
  {
    if a.Restart? {
      RekeyedPhase(s, a, x);
    } else if a.Close? || a.CloseDead? || a.Detach? || a.StartFailed? {
      RemovedPhase(s, a, x);
    }
  }

  lemma Counted(s: State, a: Action, t: Thread)
    requires Enabled(s, a)
    ensures Apply(s, a).threads[t] == s.threads[t] - Leaves(a)[t] + Enters(s, a)[t]
  {
    assert Leaves(a)[t] <= s.threads[t];
  }

  lemma NewAnnouncing(s: State, a: Action, f: bool)
    requires AllKnown(s) && Enabled(s, a) && Subject(s, a) == |s.states|
    ensures Apply(s, a).threads[Announcing(|s.states|, f)] == 0 && Apply(s, a).threads[Tearing(|s.states|, f)] == 0
  {
    Counted(s, a, Announcing(|s.states|, f));
    Counted(s, a, Tearing(|s.states|, f));
  }

  lemma SubjectAnnouncing(s: State, a: Action, f: bool)
    requires Enabled(s, a) && AllKnown(s) && Subject(s, a) < |s.states|
    requires var r := Subject(s, a); Handled(s.threads, r, s.states[r]) && (s.states[r].phase.Live? <==> IsLive(s, r))
    requires Keyed(s)
    ensures var r := Subject(s, a);
            Apply(s, a).threads[Announcing(r, f)] == if Apply(s, a).states[r].phase == Closing(f) then 1 else 0
  {
    Counted(s, a, Announcing(Subject(s, a), f));
  }

  lemma SubjectTearingForced(s: State, a: Action)
    requires Keyed(s) && AllKnown(s) && Enabled(s, a) && Subject(s, a) < |s.states|
    requires var r := Subject(s, a); Handled(s.threads, r, s.states[r]) && (s.states[r].phase.Live? <==> IsLive(s, r))
    ensures var r := Subject(s, a);
            Tearing(r, true) in Apply(s, a).threads ==> Apply(s, a).states[r].phase == Told(true)
  {
    Counted(s, a, Tearing(Subject(s, a), true));
  }

  lemma SubjectTearing(s: State, a: Action)
    requires Keyed(s) && AllKnown(s) && Enabled(s, a) && Subject(s, a) < |s.states|
    requires var r := Subject(s, a); Handled(s.threads, r, s.states[r]) && (s.states[r].phase.Live? <==> IsLive(s, r))
    ensures var r, x := Subject(s, a), Apply(s, a).states[Subject(s, a)];
      x.phase.Told? || x.phase.Aborted? ==>
        x.torn.Some? || Tearing(r, true) in Apply(s, a).threads || Tearing(r, false) in Apply(s, a).threads
  {
    Counted(s, a, Tearing(Subject(s, a), true));
    Counted(s, a, Tearing(Subject(s, a), false));
  }

  lemma SubjectHandled(s: State, a: Action)
    requires Inv(s) && Enabled(s, a) && !a.Finalize?
    ensures var r := Subject(s, a); r < |Apply(s, a).states| && Handled(Apply(s, a).threads, r, Apply(s, a).states[r])
  {
    var r := Subject(s, a);
    if r < |s.states| {
      assert Kept(s, r);
      forall f
        ensures Apply(s, a).threads[Announcing(r, f)] == if Apply(s, a).states[r].phase == Closing(f) then 1 else 0
      {
        SubjectAnnouncing(s, a, f);
      }
      SubjectTearingForced(s, a);
      SubjectTearing(s, a);
    } else {
      forall f
        ensures Apply(s, a).threads[Announcing(r, f)] == 0 && Apply(s, a).threads[Tearing(r, f)] == 0
      {
        NewAnnouncing(s, a, f);
      }
    }
  }

  lemma AnnounceRecorded(s: State, a: Action)
    requires Enabled(s, a) && a.Announce?
    requires Handled(s.threads, a.t.session, s.states[a.t.session])
             && Recorded(s.log, a.t.session, s.states[a.t.session])
    ensures Recorded(Apply(s, a).log, a.t.session, Apply(s, a).states[a.t.session])
  {
    var r := a.t.session;
    assert s.threads[Announcing(r, a.t.force)] > 0;
    LogGrows(s.log, [Closed(r, s.states[r].id)], r);
    OneClosed(r, s.states[r].id);
  }

  lemma OneClosed(r: nat, id: nat)
    ensures ClosedOf([Closed(r, id)], r) == [id] && RanOf([Closed(r, id)], r) == []
  {
    assert [Closed(r, id)][..0] == [];
  }

  lemma TearDownRecorded(s: State, a: Action)
    requires Enabled(s, a) && a.TearDown?
    requires Handled(s.threads, a.t.session, s.states[a.t.session])
             && Recorded(s.log, a.t.session, s.states[a.t.session])
    ensures Recorded(Apply(s, a).log, a.t.session, Apply(s, a).states[a.t.session])
  {
    var r := a.t.session;
    var more := if s.states[r].torn.None? then Backwards(r, s.states[r].cleanups, a.t.force) else [];
    LogGrows(s.log, more, r);
    BackwardsOf(r, s.states[r].cleanups, a.t.force, r);
    assert ClosedOf([], r) == [] && RanOf([], r) == [];
  }

  lemma QuietRecorded(s: State, a: Action)
    requires Enabled(s, a) && !a.TearDown? && !a.Announce? && Subject(s, a) < |s.states|
    requires Keyed(s) && AllKnown(s)
    requires var r := Subject(s, a); Kept(s, r)
    ensures Recorded(Apply(s, a).log, Subject(s, a), Apply(s, a).states[Subject(s, a)])
  {
    assert s.log + [] == s.log;
  }

  lemma SubjectRecorded(s: State, a: Action)
    requires Inv(s) && Enabled(s, a) && !a.Finalize?
    ensures var r := Subject(s, a); r < |Apply(s, a).states| && Recorded(Apply(s, a).log, r, Apply(s, a).states[r])
  {
    var r := Subject(s, a);
    if r < |s.states| {
      assert Kept(s, r);
      if a.Announce? {
        AnnounceRecorded(s, a);
      } else if a.TearDown? {
        TearDownRecorded(s, a);
      } else {
        QuietRecorded(s, a);
      }
    } else {
      assert s.log + [] == s.log;
    }
  }

  lemma InvKept(s: State, a: Action)
    requires Inv(s) && Enabled(s, a)
    ensures Inv(Apply(s, a))
  {
    var s' := Apply(s, a);
    KeyedKept(s, a);
    AllKnownKept(s, a);
    SilentKept(s, a);
    forall r | 0 <= r < |s'.states|
      ensures Kept(s', r)
    {
      if r == Subject(s, a) {
        assert r < |s.states| ==> Kept(s, r);
        SubjectLive(s, a);
        SubjectHandled(s, a);
        SubjectRecorded(s, a);
      } else {
        OthersKept(s, a, r);
      }
    }
  }
}
