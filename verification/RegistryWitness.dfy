/**
 router/adopt.go with router/router.go: what happens when a conversation is adopted under an id this server
 has used before. Adopt refuses only an id that is registered now.
 */
module RegistryWitnesses {
  import opened Wrappers
  import opened Registries
  import opened RegistryRuns

  /** A remote conversation as a session of this server. */
  function Remote(id: nat, base: Path, exited: bool, phase: Phase): Session {
    Session(id, "away", base, base, true, true, exited, [], None, phase)
  }

  function Taking(id: nat, base: Path): Action {
    Adopt(id, "away", base, base, [])
  }

  /** This server, having adopted the conversation once. */
  function Once(next: nat, x: Session, registered: bool, threads: multiset<Thread>, log: seq<Event>): State {
    State(if registered then map[x.id := 0] else map[], [x], threads, log, next, {x.id})
  }

  /** And twice: the first session was closed, its watcher has yet to look; the second one lives. */
  function Twice(next: nat, y: Session, registered: bool, threads: multiset<Thread>, log: seq<Event>): State {
    State(if registered then map[y.id := 1] else map[], [Remote(y.id, y.base, true, Told(false)), y],
          threads, log, next, {y.id})
  }

  /** The second session lives, beside the first one's watcher; and that watcher has removed it. */
  function Returned(next: nat, id: nat, base: Path, t: Thread): State {
    Twice(next, Remote(id, base, false, Live), true, multiset{t, Tearing(0, false), Watching(1)}, [Closed(0, id)])
  }

  function Struck(next: nat, id: nat, base: Path): State {
    Twice(next, Remote(id, base, false, Closing(false)), false,
          multiset{Announcing(1, false), Tearing(0, false), Watching(1)}, [Closed(0, id)])
  }

  ghost predicate Becomes(s: State, a: Action, next: State) {
    Enabled(s, a) && Apply(s, a) == next
  }

  ghost predicate Reaches(s: State, run: seq<Action>, end: State) {
    Possible(s, run) && Exec(s, run) == end
  }

  lemma Then(s: State, a: Action, next: State, rest: seq<Action>, end: State) returns (run: seq<Action>)
    requires Becomes(s, a, next) && Reaches(next, rest, end)
    ensures Reaches(s, run, end) && run == [a] + rest
  {
    Prepend(s, a, rest);
    run := [a] + rest;
  }

  lemma Adopted(next: nat, id: nat, base: Path)
    requires id < next
    ensures Becomes(Initial(next), Taking(id, base),
                    Once(next, Remote(id, base, false, Live), true, multiset{Watching(0)}, []))
  {
  }

  lemma ClosedByHand(next: nat, id: nat, base: Path)
    ensures Becomes(Once(next, Remote(id, base, false, Live), true, multiset{Watching(0)}, []), Close(id, false),
                    Once(next, Remote(id, base, false, Closing(false)), false,
                         multiset{Watching(0), Announcing(0, false)}, []))
  {
    assert map[id := 0] - {id} == map[];
    assert multiset{Watching(0)} + multiset{Announcing(0, false)} == multiset{Watching(0), Announcing(0, false)};
  }

  lemma ToldOnce(next: nat, id: nat, base: Path)
    ensures Becomes(Once(next, Remote(id, base, false, Closing(false)), false,
                         multiset{Watching(0), Announcing(0, false)}, []),
                    Announce(Announcing(0, false)),
                    Once(next, Remote(id, base, true, Told(false)), false,
                         multiset{Watching(0), Tearing(0, false)}, [Closed(0, id)]))
  {
    var s := Once(next, Remote(id, base, false, Closing(false)), false,
                  multiset{Watching(0), Announcing(0, false)}, []);
    assert s.threads - multiset{Announcing(0, false)} == multiset{Watching(0)};
    assert multiset{Watching(0)} + multiset{Tearing(0, false)} == multiset{Watching(0), Tearing(0, false)};
    assert [] + [Closed(0, id)] == [Closed(0, id)];
  }

  /** Under the same id as before: nothing is registered there now. */
  lemma AdoptedAgain(next: nat, id: nat, base: Path)
    requires id < next
    ensures Becomes(Once(next, Remote(id, base, true, Told(false)), false,
                         multiset{Watching(0), Tearing(0, false)}, [Closed(0, id)]),
                    Taking(id, base),
                    Returned(next, id, base, Watching(0)))
  {
    var s := Once(next, Remote(id, base, true, Told(false)), false, multiset{Watching(0), Tearing(0, false)},
                  [Closed(0, id)]);
    assert s.threads + multiset{Watching(1)} == multiset{Watching(0), Tearing(0, false), Watching(1)};
    assert s.log + [] == s.log;
    assert [Remote(id, base, true, Told(false))] + [Remote(id, base, false, Live)]
        == [Remote(id, base, true, Told(false)), Remote(id, base, false, Live)];
  }

  function Back(id: nat, base: Path, rest: seq<Action>): seq<Action> {
    [Taking(id, base)] + ([Close(id, false)] + ([Announce(Announcing(0, false))] + ([Taking(id, base)] + rest)))
  }

  lemma ComesBack(next: nat, id: nat, base: Path, rest: seq<Action>, end: State) returns (run: seq<Action>)
    requires id < next
    requires Reaches(Returned(next, id, base, Watching(0)), rest, end)
    ensures Reaches(Initial(next), run, end) && run == Back(id, base, rest)
  {
    Adopted(next, id, base);
    ClosedByHand(next, id, base);
    ToldOnce(next, id, base);
    AdoptedAgain(next, id, base);
    run := Then(Once(next, Remote(id, base, true, Told(false)), false, multiset{Watching(0), Tearing(0, false)},
                     [Closed(0, id)]),
                Taking(id, base),
                Returned(next, id, base, Watching(0)), rest, end);
    run := Then(Once(next, Remote(id, base, false, Closing(false)), false,
                     multiset{Watching(0), Announcing(0, false)}, []),
                Announce(Announcing(0, false)),
                Once(next, Remote(id, base, true, Told(false)), false, multiset{Watching(0), Tearing(0, false)},
                     [Closed(0, id)]), run, end);
    run := Then(Once(next, Remote(id, base, false, Live), true, multiset{Watching(0)}, []), Close(id, false),
                Once(next, Remote(id, base, false, Closing(false)), false,
                     multiset{Watching(0), Announcing(0, false)}, []), run, end);
    run := Then(Initial(next), Taking(id, base),
                Once(next, Remote(id, base, false, Live), true, multiset{Watching(0)}, []), run, end);
  }

  // ---- the late watcher of the first session ----

  lemma LooksLate(next: nat, id: nat, base: Path)
    ensures Becomes(Returned(next, id, base, Watching(0)),
                    Notice(Watching(0)),
                    Returned(next, id, base, Noticed(0, id)))
  {
    var s := Returned(next, id, base, Watching(0));
    assert s.states[0].exited && s.states[0].id == id && Subject(s, Notice(Watching(0))) == 0;
    assert s.states[0 := s.states[0]] == s.states;
    assert s.threads - multiset{Watching(0)} + multiset{Noticed(0, id)}
        == multiset{Noticed(0, id), Tearing(0, false), Watching(1)};
    assert s.log + [] == s.log;
  }

  lemma ClosesAnother(next: nat, id: nat, base: Path)
    ensures Becomes(Returned(next, id, base, Noticed(0, id)),
                    CloseDead(Noticed(0, id)),
                    Struck(next, id, base))
  {
    var s := Returned(next, id, base, Noticed(0, id));
    assert s.threads - multiset{Noticed(0, id)} + multiset{Announcing(1, false)}
        == multiset{Announcing(1, false), Tearing(0, false), Watching(1)};
    assert map[id := 1] - {id} == map[];
    assert s.log + [] == s.log;
  }

  lemma ToldTwice(next: nat, id: nat, base: Path)
    ensures Becomes(Struck(next, id, base),
                    Announce(Announcing(1, false)),
                    Twice(next, Remote(id, base, true, Told(false)), false,
                          multiset{Tearing(1, false), Tearing(0, false), Watching(1)}, [Closed(0, id), Closed(1, id)]))
  {
    var s := Struck(next, id, base);
    assert s.threads - multiset{Announcing(1, false)} + multiset{Tearing(1, false)}
        == multiset{Tearing(1, false), Tearing(0, false), Watching(1)};
    assert s.log + [Closed(1, id)] == [Closed(0, id), Closed(1, id)];
  }

  lemma StrikesLate(next: nat, id: nat, base: Path) returns (run: seq<Action>)
    requires id < next
    ensures run == Back(id, base, [Notice(Watching(0))] + ([CloseDead(Noticed(0, id))] + []))
    ensures Reaches(Initial(next), run, Struck(next, id, base))
  {
    LooksLate(next, id, base);
    ClosesAnother(next, id, base);
    var end := Struck(next, id, base);
    run := Then(Returned(next, id, base, Noticed(0, id)), CloseDead(Noticed(0, id)), end, [], end);
    run := Then(Returned(next, id, base, Watching(0)), Notice(Watching(0)),
                Returned(next, id, base, Noticed(0, id)), run, end);
    run := ComesBack(next, id, base, run, end);
  }

  lemma SameIdTwice(next: nat, id: nat, base: Path)
    ensures !Distinct(Struck(next, id, base))
  {
    assert Struck(next, id, base).states[0].id == Struck(next, id, base).states[1].id;
  }

  /**
   Adopted again under its id, a running conversation is closed by the watcher of its first, closed session;
   nobody asked for that, and the id is told closed for the second time.
   */
  lemma LateWatcherCloses(next: nat, id: nat, base: Path) returns (run: seq<Action>)
    requires id < next
    ensures run == Back(id, base, [Notice(Watching(0))] + ([CloseDead(Noticed(0, id))] + []))
    ensures Possible(Initial(next), run) && !NeverReadopts(Initial(next), run)
    ensures var s := Exec(Initial(next), run);
            && |s.states| == 2 && !s.states[1].exited && s.states[1].phase == Closing(false)
            && Enabled(s, Announce(Announcing(1, false)))
            && Apply(s, Announce(Announcing(1, false))).log == [Closed(0, id), Closed(1, id)]
  {
    run := StrikesLate(next, id, base);
    ToldTwice(next, id, base);
    SameIdTwice(next, id, base);
    NotNever(next, run);
  }

  lemma NotNever(next: nat, run: seq<Action>)
    requires Possible(Initial(next), run) && !Distinct(Exec(Initial(next), run))
    ensures !NeverReadopts(Initial(next), run)
  {
    if NeverReadopts(Initial(next), run) {
      InitialInv(next);
      StaysDistinct(Initial(next), run);
    }
  }
}
