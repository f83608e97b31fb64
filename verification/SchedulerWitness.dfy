/** router/scheduler.go: runs from the start in which a job is wedged, is finished twice, or overlaps itself. */
module SchedulerWitnesses {
  import opened Schedulers
  import opened SchedulerWedges
  import opened SchedulerOverlaps

  /** One job alone, with its first conversation. */
  function Alone(job: Job, marked: bool, inflight: bool, v: Conversations, threads: multiset<Thread>,
                 events: multiset<Terminal>, runs: nat): State {
    State(Maps(if marked then {job.name} else {},
               if job.reuse then map[job.name := 0] else map[],
               if inflight then map[0 := job] else map[]),
          v, threads, events, map[0 := job.name], runs)
  }

  /** The conversation before its handshake, after it, and after a restart. */
  const STARTING := Conversations(1, {0}, {0}, map[0 := 0], {0}, {}, multiset{})
  const STARTED := Conversations(1, {0}, {0}, map[0 := 0], {}, {}, multiset{})
  const FAILED := Conversations(1, {0}, {0}, map[0 := 0], {}, {0}, multiset{})
  const REKEYED := Conversations(2, {0}, {0}, map[0 := 1], {1}, {}, multiset{})

  function Waiting(job: Job): State {
    Alone(job, true, true, STARTING, multiset{Blocked(job, 0, 0)}, multiset{}, 1)
  }

  ghost predicate Becomes(s: State, a: Action, next: State) {
    Enabled(s, a) && Apply(s, a) == next
  }

  lemma Then(s: State, a: Action, next: State, rest: seq<Action>, end: State) returns (run: seq<Action>)
    requires Becomes(s, a, next) && Leads(next, rest, end)
    ensures Leads(s, run, end) && run == [a] + rest
  {
    Prepend(s, a, rest, end);
    run := [a] + rest;
  }

  lemma Begin(job: Job)
    ensures Becomes(Initial(), Tick(job),
                    Initial().(maps := Maps({job.name}, map[], map[]), threads := multiset{Acquiring(job, 0)},
                               runs := 1))
  {
  }

  lemma Make(job: Job)
    ensures Becomes(Initial().(maps := Maps({job.name}, map[], map[]), threads := multiset{Acquiring(job, 0)},
                               runs := 1),
                    Acquire(Acquiring(job, 0)),
                    Alone(job, true, false, STARTING, multiset{Acquired(job, 0, 0)}, multiset{}, 1))
  {
  }

  lemma Hand(job: Job)
    ensures Becomes(Alone(job, true, false, STARTING, multiset{Acquired(job, 0, 0)}, multiset{}, 1),
                    HandOver(Acquired(job, 0, 0)),
                    Alone(job, true, true, STARTING, multiset{HandedOff(job, 0, 0)}, multiset{}, 1))
  {
    var s := Alone(job, true, false, STARTING, multiset{Acquired(job, 0, 0)}, multiset{}, 1);
    assert s.events + multiset{} == s.events;
  }

  lemma Look(job: Job)
    ensures Becomes(Alone(job, true, true, STARTING, multiset{HandedOff(job, 0, 0)}, multiset{}, 1),
                    LookUp(HandedOff(job, 0, 0)), Waiting(job))
  {
    var s := Alone(job, true, true, STARTING, multiset{HandedOff(job, 0, 0)}, multiset{}, 1);
    assert s.events + multiset{} == s.events;
  }

  function Starting(job: Job, rest: seq<Action>): seq<Action> {
    [Tick(job)]
        + ([Acquire(Acquiring(job, 0))] + ([HandOver(Acquired(job, 0, 0))] + ([LookUp(HandedOff(job, 0, 0))] + rest)))
  }

  /** Every first run of a job gets to wait for its conversation's handshake. */
  lemma FromStart(job: Job, rest: seq<Action>, end: State) returns (run: seq<Action>)
    requires Leads(Waiting(job), rest, end)
    ensures Leads(Initial(), run, end)
    ensures run == Starting(job, rest)
  {
    Begin(job);
    Make(job);
    Hand(job);
    Look(job);
    run := Then(Alone(job, true, true, STARTING, multiset{HandedOff(job, 0, 0)}, multiset{}, 1),
                LookUp(HandedOff(job, 0, 0)),
                Waiting(job), rest, end);
    run := Then(Alone(job, true, false, STARTING, multiset{Acquired(job, 0, 0)}, multiset{}, 1),
                HandOver(Acquired(job, 0, 0)),
                Alone(job, true, true, STARTING, multiset{HandedOff(job, 0, 0)}, multiset{}, 1), run, end);
    run := Then(Initial().(maps := Maps({job.name}, map[], map[]), threads := multiset{Acquiring(job, 0)}, runs := 1),
                Acquire(Acquiring(job, 0)),
                Alone(job, true, false, STARTING, multiset{Acquired(job, 0, 0)}, multiset{}, 1), run, end);
    run := Then(Initial(), Tick(job),
                Initial().(maps := Maps({job.name}, map[], map[]), threads := multiset{Acquiring(job, 0)}, runs := 1),
                run, end);
  }

  // ---- a prompt is sent ----

  function Up(job: Job, turns: multiset<Turn>, t: Thread, runs: nat): State {
    Alone(job, true, true, STARTED.(turns := turns), multiset{t}, multiset{}, runs)
  }

  function Asking(job: Job, turns: multiset<Turn>, runs: nat): State {
    Alone(job, true, true, STARTED.(turns := turns), multiset{}, multiset{}, runs)
  }

  lemma Wakes(job: Job, k: nat, turns: multiset<Turn>, runs: nat)
    ensures Becomes(Up(job, turns, Blocked(job, k, 0), runs), Wake(Blocked(job, k, 0)),
                    Up(job, turns, Ready(job, k, 0, 0), runs))
  {
    assert Woken(STARTED.(turns := turns), Blocked(job, k, 0)) == Ready(job, k, 0, 0);
  }

  lemma Dispatches(job: Job, k: nat, turns: multiset<Turn>, runs: nat)
    ensures Becomes(Up(job, turns, Ready(job, k, 0, 0), runs), Dispatch(Ready(job, k, 0, 0)),
                    Up(job, turns, Sending(job, k, 0), runs))
  {
    assert Dispatched(STARTED.(turns := turns), Ready(job, k, 0, 0)) == Sending(job, k, 0);
  }

  lemma Sends(job: Job, k: nat, turns: multiset<Turn>, runs: nat)
    ensures Becomes(Up(job, turns, Sending(job, k, 0), runs), SendOut(Sending(job, k, 0), true),
                    Asking(job, turns + multiset{Turn(0, JobRun(job.name, k))}, runs))
  {
  }

  function Prompting(job: Job, k: nat, rest: seq<Action>): seq<Action> {
    [Wake(Blocked(job, k, 0))] + ([Dispatch(Ready(job, k, 0, 0))] + ([SendOut(Sending(job, k, 0), true)] + rest))
  }

  lemma PromptsFrom(job: Job, k: nat, turns: multiset<Turn>, runs: nat, rest: seq<Action>, end: State)
    returns (run: seq<Action>)
    requires Leads(Asking(job, turns + multiset{Turn(0, JobRun(job.name, k))}, runs), rest, end)
    ensures Leads(Up(job, turns, Blocked(job, k, 0), runs), run, end)
    ensures run == Prompting(job, k, rest)
  {
    Wakes(job, k, turns, runs);
    Dispatches(job, k, turns, runs);
    Sends(job, k, turns, runs);
    run := Then(Up(job, turns, Sending(job, k, 0), runs), SendOut(Sending(job, k, 0), true),
                Asking(job, turns + multiset{Turn(0, JobRun(job.name, k))}, runs), rest, end);
    run := Then(Up(job, turns, Ready(job, k, 0, 0), runs), Dispatch(Ready(job, k, 0, 0)),
                Up(job, turns, Sending(job, k, 0), runs), run, end);
    run := Then(Up(job, turns, Blocked(job, k, 0), runs), Wake(Blocked(job, k, 0)),
                Up(job, turns, Ready(job, k, 0, 0), runs), run, end);
  }

  lemma Shakes(job: Job)
    ensures Becomes(Waiting(job), HandshakeEnds(0, true), Up(job, multiset{}, Blocked(job, 0, 0), 1))
  {
    assert STARTED.(turns := multiset{}) == STARTED;
  }

  // ---- a restart, and the job is wedged ----

  /** A restart of the only conversation of a running job, its prompt sent and unanswered: the job never runs again. */
  lemma RestartWedges(s: State, c: nat)
    requires Owned(s) && Sane(s) && s.conv.Active(c) && Inflight(s.maps, c, s.owner[c])
    requires !Told(s.events, c) && s.owner[c] in s.maps.running
    requires forall t :: t in s.threads && t.job.name == s.owner[c] ==> t.Closing?
    requires forall d :: Inflight(s.maps, d, s.owner[c]) ==> d == c
    ensures LosesTrack(s, Restart(c)) && Wedged(Apply(s, Restart(c)), s.owner[c])
  {
    NobodyNotices(s, c);
    RekeyedAway(s, c);
    assert Wedged(Apply(s, Restart(c)), s.owner[c]);
  }

  lemma NobodyNotices(s: State, c: nat)
    requires Owned(s) && c in s.owner && forall t :: t in s.threads && t.job.name == s.owner[c] ==> t.Closing?
    ensures forall t :: t in s.threads ==> !SeesRekeying(s.conv, t, c)
  {
    forall t | t in s.threads
      ensures !SeesRekeying(s.conv, t, c)
    {
      assert !t.Acquiring? ==> Owns(s, t.conv, t.job.name);
    }
  }

  lemma RekeyedAway(s: State, c: nat)
    requires Sane(s) && s.conv.Active(c)
    ensures var s' := Apply(s, Restart(c));
            s'.events == s.events && s'.threads == s.threads && s'.maps == s.maps && !s'.conv.Speaks(c)
  {
    assert OwnId(s, c);
  }

  /** Every job can get there in its first run. */
  lemma EveryJobCanWedge(job: Job) returns (run: seq<Action>)
    ensures run == Starting(job, [HandshakeEnds(0, true)] + Prompting(job, 0, []))
    ensures Possible(Initial(), run) && Enabled(Exec(Initial(), run), Restart(0))
    ensures LosesTrack(Exec(Initial(), run), Restart(0)) && Wedged(Apply(Exec(Initial(), run), Restart(0)), job.name)
  {
    var turns := multiset{} + multiset{Turn(0, JobRun(job.name, 0))};
    var end := Asking(job, turns, 1);
    StartHere(end);
    run := PromptsFrom(job, 0, multiset{}, 1, [], end);
    Shakes(job);
    run := Then(Waiting(job), HandshakeEnds(0, true), Up(job, multiset{}, Blocked(job, 0, 0), 1), run, end);
    run := FromStart(job, run, end);
    InitialInv();
    GuardNeverLeaks(Initial(), run);
    RestartWedges(end, 0);
  }

  /**
   The restart comes while the call, its handshake over, has not read the id yet: it sends its prompt under the
   new one.
   */
  function Rekeyed0(job: Job, threads: multiset<Thread>, turns: multiset<Turn>): State {
    Alone(job, true, true, REKEYED.(turns := turns), threads, multiset{}, 1)
  }

  lemma RestartsEarly(job: Job)
    ensures Becomes(Up(job, multiset{}, Blocked(job, 0, 0), 1), Restart(0),
                    Rekeyed0(job, multiset{Blocked(job, 0, 0)}, multiset{}))
    ensures LosesTrack(Up(job, multiset{}, Blocked(job, 0, 0), 1), Restart(0))
  {
    var s := Up(job, multiset{}, Blocked(job, 0, 0), 1);
    assert s.conv.now[0 := 1] == map[0 := 1];
  }

  lemma WakesLate(job: Job)
    ensures Becomes(Rekeyed0(job, multiset{Blocked(job, 0, 0)}, multiset{}), Wake(Blocked(job, 0, 0)),
                    Rekeyed0(job, multiset{Ready(job, 0, 0, 1)}, multiset{}))
  {
  }

  lemma DispatchesLate(job: Job)
    ensures Becomes(Rekeyed0(job, multiset{Ready(job, 0, 0, 1)}, multiset{}), Dispatch(Ready(job, 0, 0, 1)),
                    Rekeyed0(job, multiset{Sending(job, 0, 0)}, multiset{}))
  {
  }

  lemma SendsLate(job: Job)
    ensures Becomes(Rekeyed0(job, multiset{Sending(job, 0, 0)}, multiset{}), SendOut(Sending(job, 0, 0), true),
                    Rekeyed0(job, multiset{}, multiset{Turn(0, JobRun(job.name, 0))}))
  {
  }

  lemma WedgedLate(job: Job)
    ensures Wedged(Rekeyed0(job, multiset{}, multiset{Turn(0, JobRun(job.name, 0))}), job.name)
  {
  }

  function Late(job: Job): seq<Action> {
    [Wake(Blocked(job, 0, 0))] + ([Dispatch(Ready(job, 0, 0, 1))] + ([SendOut(Sending(job, 0, 0), true)] + []))
  }

  lemma PromptsLate(job: Job)
    ensures Leads(Rekeyed0(job, multiset{Blocked(job, 0, 0)}, multiset{}), Late(job),
                  Rekeyed0(job, multiset{}, multiset{Turn(0, JobRun(job.name, 0))}))
  {
    var end := Rekeyed0(job, multiset{}, multiset{Turn(0, JobRun(job.name, 0))});
    WakesLate(job);
    DispatchesLate(job);
    SendsLate(job);
    StartHere(end);
    var run := Then(Rekeyed0(job, multiset{Sending(job, 0, 0)}, multiset{}), SendOut(Sending(job, 0, 0), true), end,
                    [], end);
    run := Then(Rekeyed0(job, multiset{Ready(job, 0, 0, 1)}, multiset{}), Dispatch(Ready(job, 0, 0, 1)),
                Rekeyed0(job, multiset{Sending(job, 0, 0)}, multiset{}), run, end);
    run := Then(Rekeyed0(job, multiset{Blocked(job, 0, 0)}, multiset{}), Wake(Blocked(job, 0, 0)),
                Rekeyed0(job, multiset{Ready(job, 0, 0, 1)}, multiset{}), run, end);
  }

  lemma NotTracked(job: Job, run: seq<Action>)
    requires Possible(Initial(), run) && Wedged(Exec(Initial(), run), job.name)
    ensures !Tracked(Initial(), run)
  {
    if Tracked(Initial(), run) {
      TrackedFromStart(run);
      NotWedged(Exec(Initial(), run), job.name);
    }
  }

  /** The second way to be wedged. */
  lemma WokenTooLate(job: Job) returns (run: seq<Action>)
    ensures run == Starting(job, [HandshakeEnds(0, true)] + ([Restart(0)] + Late(job)))
    ensures Possible(Initial(), run) && Wedged(Exec(Initial(), run), job.name)
    ensures !Tracked(Initial(), run)
  {
    var end := Rekeyed0(job, multiset{}, multiset{Turn(0, JobRun(job.name, 0))});
    WedgedLate(job);
    PromptsLate(job);
    RestartsEarly(job);
    Shakes(job);
    run := Then(Up(job, multiset{}, Blocked(job, 0, 0), 1), Restart(0),
                Rekeyed0(job, multiset{Blocked(job, 0, 0)}, multiset{}), Late(job), end);
    run := Then(Waiting(job), HandshakeEnds(0, true), Up(job, multiset{}, Blocked(job, 0, 0), 1), run, end);
    run := FromStart(job, run, end);
    NotTracked(job, run);
  }

  // ---- a run finished twice ----

  lemma FailsHandshake(job: Job)
    ensures Becomes(Waiting(job), HandshakeEnds(0, false),
                    Alone(job, true, true, FAILED, multiset{Blocked(job, 0, 0)}, multiset{Terminal(0, NoSession)}, 1))
  {
  }

  lemma WakesFailed(job: Job)
    ensures Becomes(Alone(job, true, true, FAILED, multiset{Blocked(job, 0, 0)}, multiset{Terminal(0, NoSession)}, 1),
                    Wake(Blocked(job, 0, 0)),
                    Alone(job, true, true, FAILED, multiset{Finishing(job, 0)}, multiset{Terminal(0, NoSession)}, 1))
  {
    assert Woken(FAILED, Blocked(job, 0, 0)) == Finishing(job, 0);
  }

  lemma HearsFailure(job: Job)
    ensures Becomes(Alone(job, true, true, FAILED, multiset{Finishing(job, 0)}, multiset{Terminal(0, NoSession)}, 1),
                    Deliver(Terminal(0, NoSession)),
                    Alone(job, true, true, FAILED, multiset{Finishing(job, 0), Finishing(job, 0)}, multiset{}, 1))
  {
    var t, e := Finishing(job, 0), Terminal(0, NoSession);
    assert multiset{t} + multiset{t} == multiset{t, t} && multiset{e} - multiset{e} == multiset{};
  }

  /** A failed handshake is seen by the waiting call and by Receive: both finish the run. */
  lemma DoubleFinishHappens(job: Job) returns (run: seq<Action>)
    ensures Possible(Initial(), run) && Exec(Initial(), run).threads[Finishing(job, 0)] == 2
  {
    var end := Alone(job, true, true, FAILED, multiset{Finishing(job, 0), Finishing(job, 0)}, multiset{}, 1);
    FailsHandshake(job);
    WakesFailed(job);
    HearsFailure(job);
    StartHere(end);
    run := Then(Alone(job, true, true, FAILED, multiset{Finishing(job, 0)}, multiset{Terminal(0, NoSession)}, 1),
                Deliver(Terminal(0, NoSession)), end, [], end);
    run := Then(Alone(job, true, true, FAILED, multiset{Blocked(job, 0, 0)}, multiset{Terminal(0, NoSession)}, 1),
                Wake(Blocked(job, 0, 0)),
                Alone(job, true, true, FAILED, multiset{Finishing(job, 0)}, multiset{Terminal(0, NoSession)}, 1), run,
                end);
    run := Then(Waiting(job), HandshakeEnds(0, false),
                Alone(job, true, true, FAILED, multiset{Blocked(job, 0, 0)}, multiset{Terminal(0, NoSession)}, 1),
                run, end);
    run := FromStart(job, run, end);
  }

  lemma StartsRun(s: State, job: Job)
    requires job.name !in s.maps.running
    ensures Acquiring(job, s.runs) in Apply(s, Tick(job)).threads && Carries(Apply(s, Tick(job)), job.name, s.runs)
  {
    Goes(s, Tick(job), Acquiring(job, s.runs));
    assert AtRun(Acquiring(job, s.runs), s.runs);
  }

  /** Two finishes of one run are enough: the first releases the job, it starts again, and the second is stale. */
  lemma SecondFinishIsStale(s: State, t: Thread)
    requires t.Finishing? && s.threads[t] >= 2
    ensures Enabled(s, Finish(t))
    ensures var s1 := Apply(s, Finish(t));
            var s2 := Apply(s1, Tick(t.job));
            && Early(s1, Tick(t.job), t.job.name) && Enabled(s2, Finish(t)) && Stale(s2, Finish(t))
            && !Single(Apply(Apply(s2, Finish(t)), Tick(t.job)), t.job.name)
  {
    var n := t.job.name;
    var s1 := Apply(s, Finish(t));
    assert t in s1.threads && IsDue(s1, t, n);
    var s2 := Apply(s1, Tick(t.job));
    StartsRun(s1, t.job);
    var s3 := Apply(s2, Finish(t));
    FinishMovesNoRun(s2, Finish(t), n, s1.runs);
    var s4 := Apply(s3, Tick(t.job));
    FinishMovesNoRun(s3, Tick(t.job), n, s1.runs);
    StartsRun(s3, t.job);
    assert Carries(s4, n, s1.runs) && Carries(s4, n, s3.runs) && s3.runs == s1.runs + 1;
  }

  // ---- a call that waits on a closed conversation wakes late ----

  /** The job's first conversation, closed while its process goes on for a while. */
  function Closed(handshaking: set<nat>): Conversations {
    Conversations(1, {}, {0}, map[0 := 0], handshaking, {}, multiset{})
  }

  /** What a finish leaves behind: the conversation is closed once more, unless the job keeps it. */
  function Left(job: Job): multiset<Thread> {
    if job.reuse then multiset{} else multiset{Closing(job, 0)}
  }

  /** The job as it stands, its first conversation closed, with a call of the first run and maybe one of the second. */
  function After(job: Job, marked: bool, handshaking: set<nat>, threads: multiset<Thread>, runs: nat): State {
    Alone(job, marked, false, Closed(handshaking), threads, multiset{}, runs)
  }

  const ENDED := Terminal(0, Ended)

  lemma ClosesWaiting(job: Job)
    ensures Becomes(Waiting(job), Gone(0),
                    Alone(job, true, true, Closed({0}), multiset{Blocked(job, 0, 0)}, multiset{ENDED}, 1))
  {
    assert multiset{} + multiset{ENDED} == multiset{ENDED};
  }

  lemma HearsClose(job: Job)
    ensures Becomes(Alone(job, true, true, Closed({0}), multiset{Blocked(job, 0, 0)}, multiset{ENDED}, 1),
                    Deliver(ENDED),
                    Alone(job, true, true, Closed({0}), multiset{Blocked(job, 0, 0)} + multiset{Finishing(job, 0)},
                          multiset{}, 1))
  {
    assert multiset{ENDED} - multiset{ENDED} == multiset{};
  }

  lemma FinishesClosed(job: Job)
    ensures Becomes(Alone(job, true, true, Closed({0}), multiset{Blocked(job, 0, 0)} + multiset{Finishing(job, 0)},
                          multiset{}, 1),
                    Finish(Finishing(job, 0)),
                    After(job, false, {0}, multiset{Blocked(job, 0, 0)} + Left(job), 1))
  {
    assert map[0 := job] - {0} == map[];
    assert {job.name} - {job.name} == {};
  }

  /** The second run is started while the first one's call still waits. */
  lemma StartsBeside(job: Job)
    ensures Becomes(After(job, false, {0}, multiset{Blocked(job, 0, 0)} + Left(job), 1), Tick(job),
                    After(job, true, {0}, multiset{Blocked(job, 0, 0)} + Left(job) + multiset{Acquiring(job, 1)}, 2))
  {
    var s := After(job, false, {0}, multiset{Blocked(job, 0, 0)} + Left(job), 1);
    assert s.events + multiset{} == s.events;
    assert {} + {job.name} == {job.name};
    assert s.threads - multiset{} + multiset{Acquiring(job, 1)} == s.threads + multiset{Acquiring(job, 1)};
  }

  lemma BesideIsEarly(job: Job)
    ensures Early(After(job, false, {0}, multiset{Blocked(job, 0, 0)} + Left(job), 1), Tick(job), job.name)
  {
    var s := After(job, false, {0}, multiset{Blocked(job, 0, 0)} + Left(job), 1);
    assert Blocked(job, 0, 0) in s.threads && IsDue(s, Blocked(job, 0, 0), job.name);
  }

  function Beside(job: Job, handshaking: set<nat>, t: Thread): State {
    After(job, true, handshaking, multiset{t} + Left(job) + multiset{Acquiring(job, 1)}, 2)
  }

  lemma ShakesLate(job: Job)
    ensures Becomes(Beside(job, {0}, Blocked(job, 0, 0)), HandshakeEnds(0, true), Beside(job, {}, Blocked(job, 0, 0)))
  {
    assert {0} - {0} == {};
  }

  lemma WakesClosed(job: Job)
    ensures Becomes(Beside(job, {}, Blocked(job, 0, 0)), Wake(Blocked(job, 0, 0)), Beside(job, {}, Ready(job, 0, 0, 0)))
  {
    assert Woken(Closed({}), Blocked(job, 0, 0)) == Ready(job, 0, 0, 0);
  }

  lemma MissesClosed(job: Job)
    ensures Becomes(Beside(job, {}, Ready(job, 0, 0, 0)), Dispatch(Ready(job, 0, 0, 0)),
                    Beside(job, {}, Finishing(job, 0)))
  {
    assert Dispatched(Closed({}), Ready(job, 0, 0, 0)) == Finishing(job, 0);
  }

  lemma FinishesBeside(job: Job)
    ensures Becomes(Beside(job, {}, Finishing(job, 0)), Finish(Finishing(job, 0)),
                    After(job, false, {}, Left(job) + multiset{Acquiring(job, 1)} + Left(job), 2))
  {
    assert {job.name} - {job.name} == {};
  }

  function TooLate(job: Job): seq<Action> {
    [HandshakeEnds(0, true)]
        + ([Wake(Blocked(job, 0, 0))] + ([Dispatch(Ready(job, 0, 0, 0))] + ([Finish(Finishing(job, 0))] + [])))
  }

  lemma FinishesLate(job: Job, end: State)
    requires end == After(job, false, {}, Left(job) + multiset{Acquiring(job, 1)} + Left(job), 2)
    ensures Leads(Beside(job, {0}, Blocked(job, 0, 0)), TooLate(job), end)
  {
    ShakesLate(job);
    WakesClosed(job);
    MissesClosed(job);
    FinishesBeside(job);
    StartHere(end);
    var run := Then(Beside(job, {}, Finishing(job, 0)), Finish(Finishing(job, 0)), end, [], end);
    run := Then(Beside(job, {}, Ready(job, 0, 0, 0)), Dispatch(Ready(job, 0, 0, 0)),
                Beside(job, {}, Finishing(job, 0)), run, end);
    run := Then(Beside(job, {}, Blocked(job, 0, 0)), Wake(Blocked(job, 0, 0)), Beside(job, {}, Ready(job, 0, 0, 0)),
                run, end);
    run := Then(Beside(job, {0}, Blocked(job, 0, 0)), HandshakeEnds(0, true), Beside(job, {}, Blocked(job, 0, 0)),
                run, end);
  }

  function ClosedEarly(job: Job): seq<Action> {
    [Gone(0)] + ([Deliver(ENDED)] + ([Finish(Finishing(job, 0))] + ([Tick(job)] + TooLate(job))))
  }

  /**
   The conversation is closed while the run waits for its handshake, the job is released and starts again;
   then the handshake ends after all, the first call fails to send, and finishes the second run.
   */
  lemma LateWakeOverlaps(job: Job) returns (run: seq<Action>)
    ensures run == Starting(job, ClosedEarly(job))
    ensures Possible(Initial(), run) && !Single(Exec(Initial(), run), job.name) && !NoneEarly(Initial(), run, job.name)
    ensures var end := Apply(Exec(Initial(), run), Tick(job)); Carries(end, job.name, 1) && Carries(end, job.name, 2)
  {
    var end := After(job, false, {}, Left(job) + multiset{Acquiring(job, 1)} + Left(job), 2);
    ClosesWaiting(job);
    HearsClose(job);
    FinishesClosed(job);
    StartsBeside(job);
    FinishesLate(job, end);
    run := Then(After(job, false, {0}, multiset{Blocked(job, 0, 0)} + Left(job), 1), Tick(job),
                Beside(job, {0}, Blocked(job, 0, 0)), TooLate(job), end);
    run := Then(Alone(job, true, true, Closed({0}), multiset{Blocked(job, 0, 0)} + multiset{Finishing(job, 0)},
                      multiset{}, 1),
                Finish(Finishing(job, 0)),
                After(job, false, {0}, multiset{Blocked(job, 0, 0)} + Left(job), 1), run, end);
    run := Then(Alone(job, true, true, Closed({0}), multiset{Blocked(job, 0, 0)}, multiset{ENDED}, 1), Deliver(ENDED),
                Alone(job, true, true, Closed({0}), multiset{Blocked(job, 0, 0)} + multiset{Finishing(job, 0)},
                      multiset{}, 1), run, end);
    run := Then(Waiting(job), Gone(0),
                Alone(job, true, true, Closed({0}), multiset{Blocked(job, 0, 0)}, multiset{ENDED}, 1), run, end);
    run := FromStart(job, run, end);
    UnmarkedRun(job, end);
    NotNoneEarly(job, run);
  }

  lemma UnmarkedRun(job: Job, s: State)
    requires Acquiring(job, 1) in s.threads && job.name !in s.maps.running && s.runs == 2
    ensures !Single(s, job.name)
    ensures Carries(Apply(s, Tick(job)), job.name, 1) && Carries(Apply(s, Tick(job)), job.name, 2)
  {
    assert AtRun(Acquiring(job, 1), 1) && Carries(s, job.name, 1);
    FinishMovesNoRun(s, Tick(job), job.name, 1);
    StartsRun(s, job);
  }

  // ---- another prompt's answer releases the job ----

  function Own(job: Job, k: nat): Turn {
    Turn(0, JobRun(job.name, k))
  }

  const OTHER := Turn(0, Someone)
  const HEARD := Terminal(0, Answer(Someone))

  lemma SomeonePrompts(job: Job)
    ensures Becomes(Up(job, multiset{}, Blocked(job, 0, 0), 1), Prompt(0),
                    Up(job, multiset{OTHER}, Blocked(job, 0, 0), 1))
  {
    assert multiset{} + multiset{OTHER} == multiset{OTHER};
  }

  lemma SomeoneIsAnswered(job: Job)
    ensures Becomes(Asking(job, multiset{OTHER} + multiset{Own(job, 0)}, 1), TurnEnds(OTHER, true),
                    Alone(job, true, true, STARTED.(turns := multiset{Own(job, 0)}), multiset{}, multiset{HEARD}, 1))
  {
    assert multiset{OTHER} + multiset{Own(job, 0)} - multiset{OTHER} == multiset{Own(job, 0)};
  }

  lemma HearsAnother(job: Job)
    ensures Becomes(Alone(job, true, true, STARTED.(turns := multiset{Own(job, 0)}), multiset{}, multiset{HEARD}, 1),
                    Deliver(HEARD),
                    Up(job, multiset{Own(job, 0)}, Finishing(job, 0), 1))
    ensures Early(Alone(job, true, true, STARTED.(turns := multiset{Own(job, 0)}), multiset{}, multiset{HEARD}, 1),
                  Deliver(HEARD), job.name)
  {
    var s := Alone(job, true, true, STARTED.(turns := multiset{Own(job, 0)}), multiset{}, multiset{HEARD}, 1);
    assert Own(job, 0) in s.conv.turns;
    assert Carries(s, job.name, 0);
    assert Inflight(s.maps, 0, job.name);
  }

  lemma FinishesEarly(job: Job)
    requires job.reuse
    ensures Becomes(Up(job, multiset{Own(job, 0)}, Finishing(job, 0), 1), Finish(Finishing(job, 0)),
                    Alone(job, false, false, STARTED.(turns := multiset{Own(job, 0)}), multiset{}, multiset{}, 1))
  {
    var s := Up(job, multiset{Own(job, 0)}, Finishing(job, 0), 1);
    assert map[0 := job] - {0} == map[];
    assert s.events + multiset{} == s.events;
  }

  function Again(job: Job, inflight: bool, t: Thread): State {
    Alone(job, true, inflight, STARTED.(turns := multiset{Own(job, 0)}), multiset{t}, multiset{}, 2)
  }

  lemma StartsAgain(job: Job)
    ensures Becomes(Alone(job, false, false, STARTED.(turns := multiset{Own(job, 0)}), multiset{}, multiset{}, 1),
                    Tick(job),
                    Again(job, false, Acquiring(job, 1)))
  {
  }

  lemma ReusesConversation(job: Job)
    requires job.reuse
    ensures Becomes(Again(job, false, Acquiring(job, 1)), Acquire(Acquiring(job, 1)),
                    Again(job, false, Acquired(job, 1, 0)))
  {
    assert Reuses(Again(job, false, Acquiring(job, 1)), job);
  }

  lemma HandsOverAgain(job: Job)
    ensures Becomes(Again(job, false, Acquired(job, 1, 0)), HandOver(Acquired(job, 1, 0)),
                    Again(job, true, HandedOff(job, 1, 0)))
  {
  }

  lemma LooksAgain(job: Job)
    ensures Becomes(Again(job, true, HandedOff(job, 1, 0)), LookUp(HandedOff(job, 1, 0)),
                    Again(job, true, Blocked(job, 1, 0)))
  {
  }

  function Second(job: Job): seq<Action> {
    [Tick(job)]
        + ([Acquire(Acquiring(job, 1))]
           + ([HandOver(Acquired(job, 1, 0))] + ([LookUp(HandedOff(job, 1, 0))] + Prompting(job, 1, []))))
  }

  /** The second half: the job, released early, sends its next prompt beside the unanswered one. */
  lemma RunsAgain(job: Job) returns (run: seq<Action>)
    requires job.reuse
    ensures Leads(Alone(job, false, false, STARTED.(turns := multiset{Own(job, 0)}), multiset{}, multiset{}, 1), run,
                  Asking(job, multiset{Own(job, 0)} + multiset{Own(job, 1)}, 2))
    ensures run == Second(job)
  {
    var end := Asking(job, multiset{Own(job, 0)} + multiset{Own(job, 1)}, 2);
    StartsAgain(job);
    ReusesConversation(job);
    HandsOverAgain(job);
    LooksAgain(job);
    StartHere(end);
    run := PromptsFrom(job, 1, multiset{Own(job, 0)}, 2, [], end);
    run := Then(Again(job, true, HandedOff(job, 1, 0)), LookUp(HandedOff(job, 1, 0)),
                Again(job, true, Blocked(job, 1, 0)), run, end);
    run := Then(Again(job, false, Acquired(job, 1, 0)), HandOver(Acquired(job, 1, 0)),
                Again(job, true, HandedOff(job, 1, 0)), run, end);
    run := Then(Again(job, false, Acquiring(job, 1)), Acquire(Acquiring(job, 1)),
                Again(job, false, Acquired(job, 1, 0)), run, end);
    run := Then(Alone(job, false, false, STARTED.(turns := multiset{Own(job, 0)}), multiset{}, multiset{}, 1),
                Tick(job),
                Again(job, false, Acquiring(job, 1)), run, end);
  }

  function Interrupted(job: Job, rest: seq<Action>): seq<Action> {
    [Prompt(0)] + Prompting(job, 0, [TurnEnds(OTHER, true)] + ([Deliver(HEARD)] + ([Finish(Finishing(job, 0))] + rest)))
  }

  /** The first half: a user's prompt is answered while the job's own is not, and the job is released. */
  lemma ReleasedEarly(job: Job, rest: seq<Action>, end: State) returns (run: seq<Action>)
    requires job.reuse
    requires Leads(Alone(job, false, false, STARTED.(turns := multiset{Own(job, 0)}), multiset{}, multiset{}, 1),
                   rest, end)
    ensures Leads(Up(job, multiset{}, Blocked(job, 0, 0), 1), run, end)
    ensures run == Interrupted(job, rest)
  {
    SomeonePrompts(job);
    SomeoneIsAnswered(job);
    HearsAnother(job);
    FinishesEarly(job);
    run := Then(Up(job, multiset{Own(job, 0)}, Finishing(job, 0), 1), Finish(Finishing(job, 0)),
                Alone(job, false, false, STARTED.(turns := multiset{Own(job, 0)}), multiset{}, multiset{}, 1), rest,
                end);
    run := Then(Alone(job, true, true, STARTED.(turns := multiset{Own(job, 0)}), multiset{}, multiset{HEARD}, 1),
                Deliver(HEARD),
                Up(job, multiset{Own(job, 0)}, Finishing(job, 0), 1), run, end);
    run := Then(Asking(job, multiset{OTHER} + multiset{Own(job, 0)}, 1), TurnEnds(OTHER, true),
                Alone(job, true, true, STARTED.(turns := multiset{Own(job, 0)}), multiset{}, multiset{HEARD}, 1), run,
                end);
    run := PromptsFrom(job, 0, multiset{OTHER}, 1, run, end);
    run := Then(Up(job, multiset{}, Blocked(job, 0, 0), 1), Prompt(0),
                Up(job, multiset{OTHER}, Blocked(job, 0, 0), 1), run, end);
  }

  lemma RunsTwice(job: Job, end: State) returns (run: seq<Action>)
    requires job.reuse && end == Asking(job, multiset{Own(job, 0)} + multiset{Own(job, 1)}, 2)
    ensures Leads(Initial(), run, end) && run == Starting(job, [HandshakeEnds(0, true)] + Interrupted(job, Second(job)))
  {
    run := RunsAgain(job);
    run := ReleasedEarly(job, run, end);
    Shakes(job);
    run := Then(Waiting(job), HandshakeEnds(0, true), Up(job, multiset{}, Blocked(job, 0, 0), 1), run, end);
    run := FromStart(job, run, end);
  }

  /** So a job that keeps its conversation can have two prompts of its own unanswered: here is a run from the start. */
  lemma AnotherAnswerOverlaps(job: Job) returns (run: seq<Action>)
    requires job.reuse
    ensures run == Starting(job, [HandshakeEnds(0, true)] + Interrupted(job, Second(job)))
    ensures Possible(Initial(), run) && !Single(Exec(Initial(), run), job.name)
    ensures Exec(Initial(), run).conv.turns == multiset{Own(job, 0), Own(job, 1)} && Exec(Initial(), run).conv.Active(0)
    ensures !NoneEarly(Initial(), run, job.name)
  {
    var end := Asking(job, multiset{Own(job, 0)} + multiset{Own(job, 1)}, 2);
    run := RunsTwice(job, end);
    TwoRuns(job, end);
    NotNoneEarly(job, run);
  }

  lemma TwoRuns(job: Job, s: State)
    requires Own(job, 0) in s.conv.turns && Own(job, 1) in s.conv.turns && 0 in s.conv.live
    ensures !Single(s, job.name)
  {
    assert Carries(s, job.name, 0) && Carries(s, job.name, 1);
  }

  lemma NotNoneEarly(job: Job, run: seq<Action>)
    requires Possible(Initial(), run) && !Single(Exec(Initial(), run), job.name)
    ensures !NoneEarly(Initial(), run, job.name)
  {
    if NoneEarly(Initial(), run, job.name) {
      NeverOverlaps(run, job.name);
    }
  }
}
