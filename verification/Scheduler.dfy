/** router/scheduler.go: the guard against overlapping runs of a scheduled job, in every interleaving. */
module Schedulers {
  import opened Wrappers

  datatype Job = Job(name: string, reuse: bool)

  /** The scheduler's own maps, guarded by its mutex. Conversations are numbered. */
  datatype Maps = Maps(running: set<string>, reusable: map<string, nat>, inflight: map<nat, Job>)

  function Start(m: Maps, job: Job): Maps { m.(running := m.running + {job.name}) }

  function Clear(m: Maps, job: Job): Maps { m.(running := m.running - {job.name}) }

  function HandTo(m: Maps, job: Job, conv: nat): Maps { m.(inflight := m.inflight[conv := job]) }

  function Keep(m: Maps, job: Job, conv: nat): Maps {
    if job.reuse then m.(reusable := m.reusable[job.name := conv]) else m
  }

  function Finished(m: Maps, job: Job, conv: nat): Maps {
    m.(inflight := m.inflight - {conv}, running := m.running - {job.name})
  }

  /** What the router publishes about a conversation, as far as the scheduler looks. */
  datatype Published = PromptResponse | ResponseError | ConversationClosed | Anything

  /** Each method is one stretch of code under the mutex. */
  class Scheduler {
    var running: set<string>
    var reusable: map<string, nat>
    var inflight: map<nat, Job>

    function Value(): Maps
      reads this
    {
      Maps(running, reusable, inflight)
    }

    constructor ()
      ensures Value() == Maps({}, map[], map[])
    {
      running, reusable, inflight := {}, map[], map[];
    }

    /** runJob, up to the point where the job is marked running: false when it is skipped. */
    method TryStart(job: Job) returns (started: bool)
      modifies this
      ensures started == (job.name !in old(running))
      ensures Value() == if started then Start(old(Value()), job) else old(Value())
    {
      if job.name in running {
        return false;
      }
      running := running + {job.name};
      return true;
    }

    method ClearRunning(job: Job)
      modifies this
      ensures Value() == Clear(old(Value()), job)
    {
      running := running - {job.name};
    }

    /** acquireConversation, around its calls into the router: what Active answered, and what Create returned. */
    method AcquireConversation(job: Job, active: set<nat>, created: nat) returns (conv: nat, isNew: bool)
      modifies this
      ensures isNew == !(job.reuse && job.name in old(reusable) && old(reusable)[job.name] in active)
      ensures conv == if isNew then created else old(reusable)[job.name]
      ensures Value() == if isNew then Keep(old(Value()), job, created) else old(Value())
    {
      if job.reuse && job.name in reusable && reusable[job.name] in active {
        return reusable[job.name], false;
      }
      if job.reuse {
        reusable := reusable[job.name := created];
      }
      return created, true;
    }

    method HandOff(job: Job, conv: nat)
      modifies this
      ensures Value() == HandTo(old(Value()), job, conv)
    {
      inflight := inflight[conv := job];
    }

    method Finish(job: Job, conv: nat)
      modifies this
      ensures Value() == Finished(old(Value()), job, conv)
    {
      inflight := inflight - {conv};
      running := running - {job.name};
    }

    /**
     Receive, and the finish it calls: the end of a turn, or of the conversation, releases the job it was
     prompted for, and asks for the conversation to be closed unless the job reuses it.
     */
    method Receive(id: nat, m: Published) returns (close: Option<nat>)
      modifies this
      ensures m.Anything? || id !in old(inflight) ==> Value() == old(Value()) && close == None
      ensures !m.Anything? && id in old(inflight) ==>
                && id !in inflight && old(inflight)[id].name !in running
                && Value() == Finished(old(Value()), old(inflight)[id], id)
                && (close == Some(id) <==> !old(inflight)[id].reuse)
    {
      if m.Anything? || id !in inflight {
        return None;
      }
      var job := inflight[id];
      Finish(job, id);
      return if job.reuse then None else Some(id);
    }

    /**
     runJob from end to end, with nothing in between: what the prompt file, Active, Create, WaitReady and
     Send answer are parameters. The guard stays up exactly when the prompt was sent.
     */
    method RunJob(job: Job, readable: bool, active: set<nat>, created: Option<nat>, ready: bool, sendable: bool)
      returns (prompted: Option<nat>)
      modifies this
      ensures job.name in old(running) ==> prompted == None && Value() == old(Value())
      ensures job.name !in old(running) ==> (job.name in running <==> prompted.Some?)
      ensures prompted.Some? ==>
                running == old(running) + {job.name} && inflight == old(inflight)[prompted.value := job]
      ensures prompted.None? ==> running == old(running) && inflight.Keys <= old(inflight).Keys
      ensures prompted.Some? ==> readable && ready && sendable && (prompted == created || prompted.value in active)
    {
      var started := TryStart(job);
      if !started {
        return None;
      }
      if !readable {
        ClearRunning(job);
        return None;
      }
      var reusing := job.reuse && job.name in reusable && reusable[job.name] in active;
      if !reusing && created.None? {
        ClearRunning(job);
        return None;
      }
      var conv, isNew := AcquireConversation(job, active, if created.Some? then created.value else 0);
      HandOff(job, conv);
      if !ready || !sendable {
        Finish(job, conv);
        return None;
      }
      return Some(conv);
    }
  }

  // ---- every interleaving ----

  /**
   Where a call of runJob or of finish is. A call that may come to send a prompt carries the number of
   its run; `conv` is the conversation it was given, by the id it had then.
   */
  datatype Thread =
    | Acquiring(job: Job, run: nat)
    | Acquired(job: Job, run: nat, conv: nat)
    | HandedOff(job: Job, run: nat, conv: nat)
    | Blocked(job: Job, run: nat, conv: nat)         // in WaitReady, on the ready channel it found
    | Ready(job: Job, run: nat, conv: nat, to: nat)  // about to Send, to the id WaitReady read at its end
    | Sending(job: Job, run: nat, conv: nat)         // in Send, past its look-up
    | Finishing(job: Job, conv: nat)
    | Closing(job: Job, conv: nat)                   // finish, past its critical section

  /** Who asked: a run of a job, or anybody else (a user, a hook). */
  datatype Asker = JobRun(name: string, run: nat) | Someone

  /** A prompt sent and not answered. */
  datatype Turn = Turn(conv: nat, asker: Asker)

  /** Why a terminal event was sent, and the id it carries. */
  datatype Cause = Answer(asker: Asker) | NoSession | Ended
  datatype Terminal = Terminal(id: nat, cause: Cause)

  /**
   The conversations of the router, each named by its first id: the registered ones, those whose process may
   still send (a closed one's is given time to end), the id each carries now, the ids whose ready channel is
   open, those with a handshake error, and the prompts they were sent.
   */
  datatype Conversations = Conversations(
    next: nat, live: set<nat>, talking: set<nat>, now: map<nat, nat>, handshaking: set<nat>, failed: set<nat>,
    turns: multiset<Turn>)
  {
    function IdOf(c: nat): nat {
      if c in now then now[c] else c
    }

    /** Router.Active, asked by the conversation's first id. */
    predicate Active(c: nat) {
      c in live && IdOf(c) == c
    }

    /** Something may still be told under the conversation's first id. */
    predicate Speaks(c: nat) {
      IdOf(c) == c && (c in live || c in talking)
    }
  }

  /** `events` are not yet delivered; `owner` remembers for which job a conversation was made; runs are numbered. */
  datatype State = State(
    maps: Maps, conv: Conversations, threads: multiset<Thread>, events: multiset<Terminal>, owner: map<nat, string>,
    runs: nat)

  function Initial(): State {
    State(Maps({}, map[], map[]), Conversations(0, {}, {}, map[], {}, {}, multiset{}), multiset{}, multiset{}, map[], 0)
  }

  datatype Action =
    | Tick(job: Job)                    // cron fires
    | Abort(t: Thread)                  // prompt unreadable, no router, or Create failed
    | Acquire(t: Thread)
    | HandOver(t: Thread)
    | LookUp(t: Thread)                 // WaitReady, its first read
    | Wake(t: Thread)                   // WaitReady, its second read, the channel closed
    | Dispatch(t: Thread)               // Send, its look-up
    | SendOut(t: Thread, ok: bool)      // Send, the message itself
    | Finish(t: Thread)
    | CloseConversation(t: Thread)
    | Deliver(e: Terminal)              // Receive, for a terminal event
    | HandshakeEnds(c: nat, ok: bool)
    | TurnEnds(u: Turn, ok: bool)       // answered, or refused with an error
    | Prompt(c: nat)                    // somebody else prompts the conversation
    | Gone(c: nat)                      // closed by a user, or its process died
    | Exits(c: nat)                     // nothing more comes from its process
    | Restart(c: nat)                   // re-keyed under a new id

  predicate Enabled(s: State, a: Action) {
    match a
    case Tick(_) => true
    case Abort(t) => t in s.threads && t.Acquiring?
    case Acquire(t) => t in s.threads && t.Acquiring?
    case HandOver(t) => t in s.threads && t.Acquired?
    case LookUp(t) => t in s.threads && t.HandedOff?
    case Wake(t) => t in s.threads && t.Blocked? && t.conv !in s.conv.handshaking
    case Dispatch(t) => t in s.threads && t.Ready?
    case SendOut(t, _) => t in s.threads && t.Sending?
    case Finish(t) => t in s.threads && t.Finishing?
    case CloseConversation(t) => t in s.threads && t.Closing?
    case Deliver(e) => e in s.events
    case HandshakeEnds(c, _) => c in s.conv.talking && s.conv.IdOf(c) in s.conv.handshaking
    case TurnEnds(u, _) => u in s.conv.turns && u.conv in s.conv.talking
    case Prompt(c) => c in s.conv.live || c in s.conv.talking
    case Gone(c) => c in s.conv.live
    case Exits(c) => c in s.conv.talking
    case Restart(c) => c in s.conv.live
  }

  predicate Reuses(s: State, job: Job) {
    job.reuse && job.name in s.maps.reusable && s.conv.Active(s.maps.reusable[job.name])
  }

  /** The conversation acquireConversation comes back with. */
  function Conversation(s: State, job: Job): nat {
    if Reuses(s, job) then s.maps.reusable[job.name] else s.conv.next
  }

  /** WaitReady's caller after the second read: an error, or the id the conversation carries by then. */
  function Woken(v: Conversations, t: Thread): Thread
    requires t.Blocked?
  {
    if t.conv in v.failed then Finishing(t.job, t.conv) else Ready(t.job, t.run, t.conv, v.IdOf(t.conv))
  }

  /** Send's caller after its look-up: the id it asks for leads to the conversation, or to none. */
  function Dispatched(v: Conversations, t: Thread): Thread
    requires t.Ready?
  {
    if t.conv in v.live && v.IdOf(t.conv) == t.to then Sending(t.job, t.run, t.conv) else Finishing(t.job, t.conv)
  }

  /** The call that moves in a step, as it was. */
  function Leaves(a: Action): multiset<Thread> {
    match a
    case Abort(t) => multiset{t}
    case Acquire(t) => multiset{t}
    case HandOver(t) => multiset{t}
    case LookUp(t) => multiset{t}
    case Wake(t) => multiset{t}
    case Dispatch(t) => multiset{t}
    case SendOut(t, _) => multiset{t}
    case Finish(t) => multiset{t}
    case CloseConversation(t) => multiset{t}
    case _ => multiset{}
  }

  /** The call that moves or starts in a step, as it is afterwards. */
  function Enters(s: State, a: Action): multiset<Thread>
    requires Enabled(s, a)
  {
    match a
    case Tick(job) => if job.name in s.maps.running then multiset{} else multiset{Acquiring(job, s.runs)}
    case Acquire(t) => multiset{Acquired(t.job, t.run, Conversation(s, t.job))}
    case HandOver(t) => multiset{HandedOff(t.job, t.run, t.conv)}
    case LookUp(t) => multiset{if s.conv.Active(t.conv) then Blocked(t.job, t.run, t.conv)
                               else Finishing(t.job, t.conv)}
    case Wake(t) => multiset{Woken(s.conv, t)}
    case Dispatch(t) => multiset{Dispatched(s.conv, t)}
    case SendOut(t, ok) => if ok then multiset{} else multiset{Finishing(t.job, t.conv)}
    case Finish(t) => if t.job.reuse then multiset{} else multiset{Closing(t.job, t.conv)}
    case Deliver(e) => if e.id in s.maps.inflight then multiset{Finishing(s.maps.inflight[e.id], e.id)} else multiset{}
    case _ => multiset{}
  }

  function MapsAfter(s: State, a: Action): Maps
    requires Enabled(s, a)
  {
    match a
    case Tick(job) => if job.name in s.maps.running then s.maps else Start(s.maps, job)
    case Abort(t) => Clear(s.maps, t.job)
    case Acquire(t) => if Reuses(s, t.job) then s.maps else Keep(s.maps, t.job, s.conv.next)
    case HandOver(t) => HandTo(s.maps, t.job, t.conv)
    case Finish(t) => Finished(s.maps, t.job, t.conv)
    case _ => s.maps
  }

  function Made(v: Conversations): Conversations {
    v.(next := v.next + 1, live := v.live + {v.next}, talking := v.talking + {v.next}, now := v.now[v.next := v.next],
       handshaking := v.handshaking + {v.next})
  }

  /**
   The session goes on under a new id, with a ready channel of its own; prompts under way are answered under
   that id.
   */
  function Rekeyed(v: Conversations, c: nat): Conversations {
    v.(next := v.next + 1, now := v.now[c := v.next], handshaking := v.handshaking + {v.next})
  }

  /** An error while a ready channel is open, whatever it answers, is taken for the handshake's. */
  function Refused(v: Conversations, c: nat): Conversations {
    if v.IdOf(c) in v.handshaking then v.(handshaking := v.handshaking - {v.IdOf(c)}, failed := v.failed + {c}) else v
  }

  function ConvAfter(s: State, a: Action): Conversations
    requires Enabled(s, a)
  {
    var v := s.conv;
    match a
    case Acquire(t) => if Reuses(s, t.job) then v else Made(v)
    case SendOut(t, ok) => if ok then v.(turns := v.turns + multiset{Turn(t.conv, JobRun(t.job.name, t.run))}) else v
    case CloseConversation(t) => if v.Active(t.conv) then v.(live := v.live - {t.conv}) else v
    case Gone(c) => v.(live := v.live - {c})
    case HandshakeEnds(c, ok) => if ok then v.(handshaking := v.handshaking - {v.IdOf(c)}) else Refused(v, c)
    case TurnEnds(u, ok) => (if ok then v else Refused(v, u.conv)).(turns := v.turns - multiset{u})
    case Prompt(c) => v.(turns := v.turns + multiset{Turn(c, Someone)})
    case Exits(c) => v.(talking := v.talking - {c})
    case Restart(c) => Rekeyed(v, c)
    case _ => v
  }

  /** The terminal event a step gives rise to, under the id its conversation carries. */
  function Raises(s: State, a: Action): multiset<Terminal>
    requires Enabled(s, a)
  {
    match a
    case HandshakeEnds(c, ok) => if ok then multiset{} else multiset{Terminal(s.conv.IdOf(c), NoSession)}
    case TurnEnds(u, _) => multiset{Terminal(s.conv.IdOf(u.conv), Answer(u.asker))}
    case Gone(c) => multiset{Terminal(s.conv.IdOf(c), Ended)}
    case CloseConversation(t) => if s.conv.Active(t.conv) then multiset{Terminal(t.conv, Ended)} else multiset{}
    case _ => multiset{}
  }

  function EventsAfter(s: State, a: Action): multiset<Terminal>
    requires Enabled(s, a)
  {
    if a.Deliver? then s.events - multiset{a.e} else s.events + Raises(s, a)
  }

  function OwnerAfter(s: State, a: Action): map<nat, string>
    requires Enabled(s, a)
  {
    if a.Acquire? && !Reuses(s, a.t.job) then s.owner[s.conv.next := a.t.job.name] else s.owner
  }

  function Apply(s: State, a: Action): State
    requires Enabled(s, a)
  {
    State(MapsAfter(s, a), ConvAfter(s, a), s.threads - Leaves(a) + Enters(s, a), EventsAfter(s, a), OwnerAfter(s, a),
          if a.Tick? && a.job.name !in s.maps.running then s.runs + 1 else s.runs)
  }

  // ---- whole runs ----

  ghost predicate Possible(s: State, run: seq<Action>)
    decreases |run|
  {
    run == [] || (Enabled(s, run[0]) && Possible(Apply(s, run[0]), run[1..]))
  }

  function Exec(s: State, run: seq<Action>): State
    requires Possible(s, run)
    decreases |run|
  {
    if run == [] then s else Exec(Apply(s, run[0]), run[1..])
  }

  /** The run leads from one state to the other. */
  ghost predicate Leads(s: State, run: seq<Action>, end: State) {
    Possible(s, run) && Exec(s, run) == end
  }

  lemma StartHere(s: State)
    ensures Leads(s, [], s)
  {
  }

  lemma Prepend(s: State, a: Action, rest: seq<Action>, end: State)
    requires Enabled(s, a) && Leads(Apply(s, a), rest, end)
    ensures Leads(s, [a] + rest, end)
  {
    assert ([a] + rest)[1..] == rest;
  }

  // ---- what every step keeps ----

  lemma Stays(s: State, a: Action, t: Thread)
    requires Enabled(s, a) && t in s.threads && t !in Leaves(a)
    ensures t in Apply(s, a).threads
  {
  }

  lemma Came(s: State, a: Action, t: Thread)
    requires Enabled(s, a) && t in Apply(s, a).threads
    ensures t in s.threads || t in Enters(s, a)
  {
  }

  lemma Goes(s: State, a: Action, t: Thread)
    requires Enabled(s, a) && t in Enters(s, a)
    ensures t in Apply(s, a).threads
  {
  }

  /** Ids are given out once: a conversation carries its first id, or one that was never anybody's first. */
  ghost predicate OwnId(s: State, c: nat) {
    s.conv.IdOf(c) < s.conv.next && (s.conv.IdOf(c) == c || s.conv.IdOf(c) !in s.owner)
  }

  ghost predicate Sane(s: State) {
    && (forall c :: c in s.owner ==> c < s.conv.next && OwnId(s, c))
    && (forall c :: c in s.conv.live || c in s.conv.talking ==> c in s.owner)
    && (forall c :: c in s.conv.handshaking ==> c < s.conv.next)
  }

  /** Which steps give out an id. */
  lemma IdsAfter(s: State, a: Action)
    requires Enabled(s, a)
    ensures var v := ConvAfter(s, a);
            if a.Acquire? && !Reuses(s, a.t.job) then v == Made(s.conv)
            else if a.Restart? then v == Rekeyed(s.conv, a.c)
            else v.next == s.conv.next && v.now == s.conv.now
  {
    if !a.Acquire? && !a.Restart? {
      SameIds(s, a);
    }
  }

  lemma SameIds(s: State, a: Action)
    requires Enabled(s, a) && !a.Acquire? && !a.Restart?
    ensures ConvAfter(s, a).next == s.conv.next && ConvAfter(s, a).now == s.conv.now
  {
    match a
    case HandshakeEnds(c, _) => assert Refused(s.conv, c).now == s.conv.now;
    case TurnEnds(u, _) => assert Refused(s.conv, u.conv).now == s.conv.now;
    case _ =>
  }

  lemma OwnIdKept(s: State, a: Action, c: nat)
    requires Sane(s) && Enabled(s, a) && c in s.owner
    ensures c < Apply(s, a).conv.next && OwnId(Apply(s, a), c)
  {
    assert OwnId(s, c);
    IdsAfter(s, a);
  }

  lemma IdsKept(s: State, a: Action)
    requires Sane(s) && Enabled(s, a)
    ensures forall c :: c in OwnerAfter(s, a) ==> c < ConvAfter(s, a).next && OwnId(Apply(s, a), c)
  {
    forall c | c in OwnerAfter(s, a)
      ensures c < ConvAfter(s, a).next && OwnId(Apply(s, a), c)
    {
      if c in s.owner {
        OwnIdKept(s, a, c);
      }
    }
  }

  lemma SpeakersOwned(s: State, a: Action)
    requires Sane(s) && Enabled(s, a)
    ensures var v := ConvAfter(s, a); forall c :: c in v.live || c in v.talking ==> c in OwnerAfter(s, a)
  {
  }

  lemma ChannelsKept(s: State, a: Action)
    requires Sane(s) && Enabled(s, a)
    ensures forall c :: c in ConvAfter(s, a).handshaking ==> c < ConvAfter(s, a).next
  {
  }

  lemma SaneKept(s: State, a: Action)
    requires Sane(s) && Enabled(s, a)
    ensures Sane(Apply(s, a))
  {
    IdsKept(s, a);
    SpeakersOwned(s, a);
    ChannelsKept(s, a);
  }

  /** A conversation serves the one job it was made for. */
  ghost predicate Owns(s: State, c: nat, n: string) {
    c in s.owner && s.owner[c] == n
  }

  ghost predicate Owned(s: State) {
    && (forall t :: t in s.threads && !t.Acquiring? ==> Owns(s, t.conv, t.job.name))
    && (forall c :: c in s.maps.inflight ==> Owns(s, c, s.maps.inflight[c].name))
    && (forall n :: n in s.maps.reusable ==> Owns(s, s.maps.reusable[n], n))
    && (forall u :: u in s.conv.turns ==> u.conv in s.owner)
  }

  lemma OwnsKept(s: State, a: Action, c: nat, n: string)
    requires Sane(s) && Owns(s, c, n) && Enabled(s, a)
    ensures Owns(Apply(s, a), c, n)
  {
  }

  lemma EntersOwned(s: State, a: Action, t: Thread)
    requires Sane(s) && Owned(s) && Enabled(s, a) && t in Enters(s, a) && !t.Acquiring?
    ensures Owns(Apply(s, a), t.conv, t.job.name)
  {
    if a.Acquire? {
      if Reuses(s, a.t.job) {
        OwnsKept(s, a, t.conv, t.job.name);
      }
    } else if a.Deliver? {
      OwnsKept(s, a, t.conv, t.job.name);
    } else {
      assert t.conv == a.t.conv && t.job == a.t.job;
      OwnsKept(s, a, t.conv, t.job.name);
    }
  }

  lemma MapsOwned(s: State, a: Action)
    requires Sane(s) && Owned(s) && Enabled(s, a)
    ensures forall c :: c in MapsAfter(s, a).inflight ==> Owns(Apply(s, a), c, MapsAfter(s, a).inflight[c].name)
    ensures forall n :: n in MapsAfter(s, a).reusable ==> Owns(Apply(s, a), MapsAfter(s, a).reusable[n], n)
  {
    var m := MapsAfter(s, a);
    forall c | c in m.inflight
      ensures Owns(Apply(s, a), c, m.inflight[c].name)
    {
      OwnsKept(s, a, c, m.inflight[c].name);
    }
    forall n | n in m.reusable
      ensures Owns(Apply(s, a), m.reusable[n], n)
    {
      if n in s.maps.reusable && m.reusable[n] == s.maps.reusable[n] {
        OwnsKept(s, a, m.reusable[n], n);
      }
    }
  }

  lemma OwnedKept(s: State, a: Action)
    requires Sane(s) && Owned(s) && Enabled(s, a)
    ensures Owned(Apply(s, a))
  {
    var s' := Apply(s, a);
    MapsOwned(s, a);
    forall t | t in s'.threads && !t.Acquiring?
      ensures Owns(s', t.conv, t.job.name)
    {
      Came(s, a, t);
      if t in s.threads {
        OwnsKept(s, a, t.conv, t.job.name);
      } else {
        EntersOwned(s, a, t);
      }
    }
    TurnsOwned(s, a);
  }

  lemma TurnsOwned(s: State, a: Action)
    requires Sane(s) && Owned(s) && Enabled(s, a)
    ensures forall u :: u in ConvAfter(s, a).turns ==> u.conv in OwnerAfter(s, a)
  {
    if a.SendOut? {
      assert Owns(s, a.t.conv, a.t.job.name);
    }
  }

  // ---- the guard ----

  /** A call of runJob that has not been handed off. */
  ghost predicate IsPending(t: Thread, n: string) {
    (t.Acquiring? || t.Acquired?) && t.job.name == n
  }

  ghost predicate Inflight(m: Maps, c: nat, n: string) {
    c in m.inflight && m.inflight[c].name == n
  }

  ghost predicate Pending(s: State, n: string) {
    exists t :: t in s.threads && IsPending(t, n)
  }

  ghost predicate InFlight(m: Maps, n: string) {
    exists c :: Inflight(m, c, n)
  }

  /** A job marked running has a runJob call not yet handed off, or an inflight conversation. */
  ghost predicate Guarded(s: State) {
    forall n :: n in s.maps.running ==> Pending(s, n) || InFlight(s.maps, n)
  }

  lemma PendingKept(s: State, a: Action, n: string)
    requires Enabled(s, a) && Pending(s, n)
    requires !((a.Abort? || a.HandOver?) && a.t.job.name == n)
    ensures Pending(Apply(s, a), n)
  {
    var t :| t in s.threads && IsPending(t, n);
    if t in Leaves(a) {
      var u := Acquired(t.job, t.run, Conversation(s, t.job));
      Goes(s, a, u);
      assert IsPending(u, n);
    } else {
      Stays(s, a, t);
    }
  }

  lemma InFlightKept(s: State, a: Action, n: string)
    requires Owned(s) && Enabled(s, a) && InFlight(s.maps, n)
    requires !(a.Finish? && a.t.job.name == n)
    ensures InFlight(Apply(s, a).maps, n)
  {
    var c :| Inflight(s.maps, c, n);
    assert Owns(s, c, n);
    assert Inflight(Apply(s, a).maps, c, n);
  }

  lemma GuardedKept(s: State, a: Action)
    requires Owned(s) && Guarded(s) && Enabled(s, a)
    ensures Guarded(Apply(s, a))
  {
    var s' := Apply(s, a);
    forall n | n in s'.maps.running
      ensures Pending(s', n) || InFlight(s'.maps, n)
    {
      if n !in s.maps.running {
        Goes(s, a, Acquiring(a.job, s.runs));
        assert IsPending(Acquiring(a.job, s.runs), n);
      } else if InFlight(s.maps, n) {
        InFlightKept(s, a, n);
      } else if a.HandOver? && a.t.job.name == n {
        assert Inflight(s'.maps, a.t.conv, n);
      } else {
        PendingKept(s, a, n);
      }
    }
  }

  ghost predicate Inv(s: State) {
    Sane(s) && Owned(s) && Guarded(s)
  }

  lemma InitialInv()
    ensures Inv(Initial())
  {
  }

  lemma InvKept(s: State, a: Action)
    requires Inv(s) && Enabled(s, a)
    ensures Inv(Apply(s, a))
  {
    SaneKept(s, a);
    OwnedKept(s, a);
    GuardedKept(s, a);
  }

  /** In every interleaving, re-keyings included, the guard is backed by a call or by an inflight conversation. */
  lemma {:induction false} GuardNeverLeaks(s: State, run: seq<Action>)
    requires Inv(s) && Possible(s, run)
    ensures Inv(Exec(s, run))
    decreases |run|
  {
    if run != [] {
      InvKept(s, run[0]);
      GuardNeverLeaks(Apply(s, run[0]), run[1..]);
    }
  }

  /** Delivering a terminal event for an inflight conversation starts a finish for its job. */
  lemma TerminalEventFinishes(s: State, e: Terminal)
    requires Owned(s) && e in s.events && e.id in s.maps.inflight
    ensures var t := Finishing(s.maps.inflight[e.id], e.id);
            t in Apply(s, Deliver(e)).threads && t.job.name == s.owner[e.id]
  {
    Goes(s, Deliver(e), Finishing(s.maps.inflight[e.id], e.id));
    assert Owns(s, e.id, s.maps.inflight[e.id].name);
  }
}
