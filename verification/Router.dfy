/** router/router.go: the router's methods, each run from end to end, on the heap the callers share. */
module Routers {
  import opened Wrappers
  import opened Registries
  import opened Seqs

  /** What the rest of the program sees, here by conversation id. */
  datatype Notice = ClosedNotice(id: nat, err: string) | CleanedUp(cleanup: nat, force: bool)

  function LastFirst(cleanups: seq<nat>, force: bool): seq<Notice> {
    if cleanups == [] then []
    else [CleanedUp(cleanups[|cleanups| - 1], force)] + LastFirst(cleanups[..|cleanups| - 1], force)
  }

  /** The same cleanups in the same order as the registry's interleavings have it. */
  lemma {:induction false} LastFirstAt(r: nat, cleanups: seq<nat>, force: bool, k: nat)
    requires k < |cleanups|
    ensures |LastFirst(cleanups, force)| == |cleanups| == |Backwards(r, cleanups, force)|
    ensures LastFirst(cleanups, force)[k] == CleanedUp(cleanups[|cleanups| - 1 - k], force)
    ensures Backwards(r, cleanups, force)[k] == Ran(r, cleanups[|cleanups| - 1 - k], force)
    decreases |cleanups|
  {
    BackwardsAt(r, cleanups, force, k);
    var front := cleanups[..|cleanups| - 1];
    if front != [] {
      LastFirstAt(r, front, force, if k > 0 then k - 1 else 0);
    }
  }

  /** cleanupOnce, and the force the cleanups were run with. */
  function Once(cleaned: Option<bool>, force: bool): Option<bool> {
    if cleaned.Some? then cleaned else Some(force)
  }

  /** What a crash says of its conversation. */
  const CRASHED := "agent subprocess exited before completing the turn"

  /** No cleanup among them was told to discard work. */
  ghost predicate Unforced(notices: seq<Notice>) {
    forall n :: n in notices && n.CleanedUp? ==> !n.force
  }

  lemma {:induction false} CleanupsUnforced(cleanups: seq<nat>)
    ensures Unforced(LastFirst(cleanups, false))
    decreases |cleanups|
  {
    if cleanups != [] {
      CleanupsUnforced(cleanups[..|cleanups| - 1]);
    }
  }

  lemma Shift(a: seq<Notice>, x: Notice, b: seq<Notice>)
    ensures a + ([x] + b) == (a + [x]) + b
  {
  }

  /** What closing a conversation says, its cleanups run before or not. */
  function Said(id: nat, err: string, cleaned: Option<bool>, cleanups: seq<nat>, force: bool): seq<Notice> {
    [ClosedNotice(id, err)] + if cleaned.None? then LastFirst(cleanups, force) else []
  }

  /** How many times the end of a conversation is told. */
  function Count(notices: seq<Notice>, id: nat): nat {
    if notices == [] then 0
    else
      var last := notices[|notices| - 1];
      Count(notices[..|notices| - 1], id) + if last.ClosedNotice? && last.id == id then 1 else 0
  }

  lemma {:induction false} CountBoth(a: seq<Notice>, b: seq<Notice>, id: nat)
    ensures Count(a + b, id) == Count(a, id) + Count(b, id)
    decreases |b|
  {
    if b == [] {
      assert a + b == a;
    } else {
      CountBoth(a, b[..|b| - 1], id);
      assert (a + b)[..|a + b| - 1] == a + b[..|b| - 1];
    }
  }

  lemma {:induction false} CountCleanups(cleanups: seq<nat>, force: bool, id: nat)
    ensures Count(LastFirst(cleanups, force), id) == 0
    decreases |cleanups|
  {
    if cleanups != [] {
      var head := [CleanedUp(cleanups[|cleanups| - 1], force)];
      CountCleanups(cleanups[..|cleanups| - 1], force, id);
      CountBoth(head, LastFirst(cleanups[..|cleanups| - 1], force), id);
      assert head[..0] == [];
    }
  }

  lemma CountSaid(id: nat, err: string, cleaned: Option<bool>, cleanups: seq<nat>, force: bool, k: nat)
    ensures Count(Said(id, err, cleaned, cleanups, force), k) == if k == id then 1 else 0
  {
    var head := [ClosedNotice(id, err)];
    CountCleanups(cleanups, force, k);
    CountBoth(head, if cleaned.None? then LastFirst(cleanups, force) else [], k);
    assert head[..0] == [];
  }

  /** One conversation more is told of, once, and nothing forced. */
  lemma SaidMore(before: seq<Notice>, said: seq<Notice>, id: nat, cleaned: Option<bool>, cleanups: seq<nat>)
    requires Unforced(said)
    ensures var more := said + Said(id, "", cleaned, cleanups, false);
            && (before + said) + Said(id, "", cleaned, cleanups, false) == before + more && Unforced(more)
            && forall k :: Count(more, k) == Count(said, k) + if k == id then 1 else 0
  {
    CleanupsUnforced(cleanups);
    Regroup(before, said, Said(id, "", cleaned, cleanups, false));
    forall k
      ensures Count(said + Said(id, "", cleaned, cleanups, false), k) == Count(said, k) + if k == id then 1 else 0
    {
      CountBoth(said, Said(id, "", cleaned, cleanups, false), k);
      CountSaid(id, "", cleaned, cleanups, false, k);
    }
  }

  /** What a session hook's SetupSession comes to: a cleanup, nothing to clean up, or an error. */
  datatype Setup = Sets(cleanup: nat) | SetsNothing | SetupFails

  /** The cleanups of the hooks set up, in order, up to the first that fails. */
  function Collected(setups: seq<Setup>): seq<nat> {
    if setups == [] || setups[0].SetupFails? then []
    else (if setups[0].Sets? then [setups[0].cleanup] else []) + Collected(setups[1..])
  }

  lemma CollectedFrom(setups: seq<Setup>, i: nat)
    requires i < |setups|
    ensures Collected(setups[i..]) == if setups[i].SetupFails? then []
        else (if setups[i].Sets? then [setups[i].cleanup] else []) + Collected(setups[i + 1..])
  {
    assert setups[i..][0] == setups[i] && setups[i..][1..] == setups[i + 1..];
  }

  lemma NothingAdded(before: seq<nat>, rest: seq<nat>)
    ensures before + [] == before && [] + rest == rest
  {
  }

  /** One hook more: where the loop of Create stands once it is set up. */
  lemma CollectedSoFar(setups: seq<Setup>, i: nat, before: seq<nat>)
    requires i < |setups| && Collected(setups) == before + Collected(setups[i..])
    ensures setups[i] in setups
    ensures Collected(setups) == if setups[i].SetupFails? then before
        else (if setups[i].Sets? then before + [setups[i].cleanup] else before) + Collected(setups[i + 1..])
  {
    CollectedFrom(setups, i);
    if setups[i].Sets? {
      Regroup(before, [setups[i].cleanup], Collected(setups[i + 1..]));
    } else {
      NothingAdded(before, Collected(setups[i + 1..]));
    }
  }

  class SessionState {
    var id: nat
    var closed: bool            // the process
    var cleaned: Option<bool>   // cleanupOnce
    const cleanups: seq<nat>
    const location: string
    const baseDir: Path
    const remote: bool

    constructor (id: nat, location: string, baseDir: Path, remote: bool, cleanups: seq<nat>)
      ensures this.id == id && !closed && cleaned == None
      ensures this.location == location && this.baseDir == baseDir && this.remote == remote && this.cleanups == cleanups
    {
      this.id, closed, cleaned := id, false, None;
      this.location, this.baseDir, this.remote, this.cleanups := location, baseDir, remote, cleanups;
    }

    /** What was run: everything, last first, the first time; nothing after that. */
    method RunCleanups(force: bool) returns (ran: seq<Notice>)
      modifies this`cleaned
      ensures old(cleaned).None? ==> ran == LastFirst(cleanups, force) && cleaned == Some(force)
      ensures old(cleaned).Some? ==> ran == [] && cleaned == old(cleaned)
    {
      ran := [];
      if cleaned.Some? {
        return;
      }
      cleaned := Some(force);
      var i := |cleanups|;
      assert cleanups[..i] == cleanups;
      while i > 0
        invariant 0 <= i <= |cleanups| && cleaned == Some(force)
        invariant LastFirst(cleanups, force) == ran + LastFirst(cleanups[..i], force)
      {
        i := i - 1;
        assert cleanups[..i + 1][..i] == cleanups[..i];
        Shift(ran, CleanedUp(cleanups[i], force), LastFirst(cleanups[..i], force));
        ran := ran + [CleanedUp(cleanups[i], force)];
      }
    }
  }

  class Router {
    var sessions: map<nat, SessionState>
    var next: nat   // ids below are taken
    var notices: seq<Notice>

    /** Each key is the id its session carries. */
    ghost predicate Valid()
      reads this, sessions.Values
    {
      forall id :: id in sessions ==> id < next && sessions[id].id == id
    }

    constructor (next: nat)
      ensures Valid() && sessions == map[] && notices == [] && this.next == next
    {
      sessions, this.next, notices := map[], next, [];
    }

    /** Create, from the minting of the id to the registration. */
    method Register(location: string, baseDir: Path, remote: bool, cleanups: seq<nat>) returns (state: SessionState)
      requires Valid()
      modifies this
      ensures Valid() && fresh(state) && state.id == old(next) && state.id !in old(sessions)
      ensures sessions == old(sessions)[state.id := state] && notices == old(notices)
      ensures state.location == location && state.baseDir == baseDir && state.remote == remote
              && state.cleanups == cleanups
      ensures state.cleaned == None
    {
      state := new SessionState(next, location, baseDir, remote, cleanups);
      sessions := sessions[next := state];
      next := next + 1;
    }

    /** The loop of Create over the session hooks. */
    static method SetUp(setups: seq<Setup>) returns (cleanups: seq<nat>, ok: bool)
      ensures cleanups == Collected(setups)
      ensures ok <==> SetupFails !in setups
    {
      cleanups := [];
      for i := 0 to |setups|
        invariant forall j :: 0 <= j < i ==> !setups[j].SetupFails?
        invariant Collected(setups) == cleanups + Collected(setups[i..])
      {
        CollectedSoFar(setups, i, cleanups);
        if setups[i].SetupFails? {
          return cleanups, false;
        }
        if setups[i].Sets? {
          cleanups := cleanups + [setups[i].cleanup];
        }
      }
      return cleanups, true;
    }

    /**
     Create, with what its hooks, host.Start and the first message of the handshake do. One that fails
     leaves no conversation, tells nobody of an end, and undoes what the hooks set up, last first.
     */
    method Create(location: string, baseDir: Path, remote: bool, setups: seq<Setup>, startOk: bool, sendOk: bool)
      returns (state: SessionState?)
      requires Valid()
      modifies this
      ensures Valid()
      ensures state != null <==> SetupFails !in setups && startOk && sendOk
      ensures state == null ==>
                sessions == old(sessions) && notices == old(notices) + LastFirst(Collected(setups), false)
      ensures state != null ==> fresh(state) && state.id !in old(sessions) && state.cleaned == None
      ensures state != null ==> sessions == old(sessions)[state.id := state] && notices == old(notices)
      ensures state != null ==>
          state.location == location && state.baseDir == baseDir && state.remote == remote
              && state.cleanups == Collected(setups)
    {
      var cleanups, ready := SetUp(setups);
      if !ready || !startOk {
        notices := notices + LastFirst(cleanups, false);
        return null;
      }
      state := Register(location, baseDir, remote, cleanups);
      if !sendOk {
        sessions := sessions - {state.id};
        state.closed := true;
        var ran := state.RunCleanups(false);
        notices := notices + ran;
        return null;
      }
    }

    /** runningSessionsForDir: it counts the conversations on the location that were asked for in the directory. */
    method RunningSessionsForDir(location: string, dir: Path) returns (n: nat)
      requires Valid()
      ensures n == |set id | id in sessions && sessions[id].baseDir == dir && sessions[id].location == location|
      ensures n == 0 <==>
                forall id :: id in sessions ==> !(sessions[id].baseDir == dir && sessions[id].location == location)
    {
      n := 0;
      var todo := sessions.Keys;
      ghost var counted: set<nat> := {};
      while todo != {}
        invariant todo <= sessions.Keys
        invariant counted == set id | id in sessions && id !in todo
                                      && sessions[id].baseDir == dir && sessions[id].location == location
        invariant n == |counted|
        decreases todo
      {
        var id :| id in todo;
        todo := todo - {id};
        if sessions[id].baseDir == dir && sessions[id].location == location {
          counted := counted + {id};
          n := n + 1;
        }
      }
      assert counted == set id | id in sessions && sessions[id].baseDir == dir && sessions[id].location == location;
      assert n == 0 <==> counted == {};
      assert forall id :: id in sessions && sessions[id].baseDir == dir && sessions[id].location == location ==>
          id in counted;
    }

    /** Restart, up to the new registration: the same session, under a new id. */
    method Restart(id: nat) returns (newId: Option<nat>)
      requires Valid()
      modifies this, if id in sessions then {sessions[id]} else {}
      ensures Valid() && notices == old(notices)
      ensures id !in old(sessions) ==> newId == None && sessions == old(sessions)
      ensures id in old(sessions) ==>
                newId == Some(old(next)) && sessions == (old(sessions) - {id})[old(next) := old(sessions[id])]
      ensures id in old(sessions) ==> sessions[old(next)].cleaned == old(sessions[id].cleaned)
    {
      if id !in sessions {
        return None;
      }
      var state := sessions[id];
      sessions := sessions - {id};
      state.id := next;
      sessions := sessions[next := state];
      newId := Some(next);
      next := next + 1;
    }

    /** closeConversation: whoever removes the conversation tells of it once and tears it down once. */
    method CloseConversation(id: nat, err: string, force: bool)
      requires Valid()
      modifies this, if id in sessions then {sessions[id]} else {}
      ensures Valid() && sessions == old(sessions) - {id} && next == old(next)
      ensures id !in old(sessions) ==> notices == old(notices)
      ensures id in old(sessions) ==>
          notices == old(notices) + Said(id, err, old(sessions[id].cleaned), old(sessions[id]).cleanups, force)
      ensures id in old(sessions) && old(sessions[id].cleaned).None? ==>
          notices == old(notices) + ([ClosedNotice(id, err)] + LastFirst(old(sessions[id]).cleanups, force))
      ensures id in old(sessions) && old(sessions[id].cleaned).Some? ==>
          notices == old(notices) + [ClosedNotice(id, err)]
      ensures id in old(sessions) ==>
          old(sessions[id]).closed && old(sessions[id]).cleaned == Once(old(sessions[id].cleaned), force)
    {
      if id !in sessions {
        return;
      }
      var state := sessions[id];
      sessions := sessions - {id};
      notices := notices + [ClosedNotice(state.id, err)];
      state.closed := true;
      var ran := state.RunCleanups(force);
      notices := notices + ran;
    }

    /** TryCloseConversation, with what its close guards answer: the first veto stops it, and nothing is touched. */
    method TryCloseConversation(id: nat, answers: seq<string>) returns (refused: Option<string>)
      requires Valid()
      modifies this, if id in sessions then {sessions[id]} else {}
      ensures Valid()
      ensures refused.Some? <==> id in old(sessions) && exists k :: 0 <= k < |answers| && answers[k] != ""
      ensures refused.Some? ==>
          exists k :: 0 <= k < |answers| && refused.value == answers[k] != ""
                      && forall j :: 0 <= j < k ==> answers[j] == ""
      ensures refused.Some? ==> sessions == old(sessions) && notices == old(notices) && unchanged(old(sessions)[id])
      ensures refused.None? ==> sessions == old(sessions) - {id}
      ensures refused.None? && id in old(sessions) ==>
          notices == old(notices) + Said(id, "", old(sessions[id].cleaned), old(sessions[id]).cleanups, false)
    {
      if id !in sessions {
        return None;
      }
      for i := 0 to |answers|
        invariant forall j :: 0 <= j < i ==> answers[j] == ""
      {
        if answers[i] != "" {
          return Some(answers[i]);
        }
      }
      CloseConversation(id, "", false);
      return None;
    }

    /** watchProcess once the process is gone: it reads the id the session carries now. */
    method WatchProcess(state: SessionState)
      requires Valid()
      modifies this, if state.id in sessions then {sessions[state.id]} else {}
      ensures Valid() && sessions == old(sessions) - {old(state.id)}
      ensures forall id :: id in sessions ==> sessions[id] != state
      ensures old(state.id) !in old(sessions) ==> notices == old(notices)
      ensures old(state.id) in old(sessions) ==>
          var s := old(sessions[state.id]);
          s.closed && s.cleaned == Once(old(sessions[state.id].cleaned), false)
      ensures old(state.id) in old(sessions) && old(sessions[state.id].cleaned).None? ==>
          notices == old(notices)
            + ([ClosedNotice(old(state.id), CRASHED)] + LastFirst(old(sessions[state.id]).cleanups, false))
      ensures old(state.id) in old(sessions) && old(sessions[state.id].cleaned).Some? ==>
          notices == old(notices) + [ClosedNotice(old(state.id), CRASHED)]
      ensures CRASHED != "" && Unforced(notices[|old(notices)|..])
    {
      var id := state.id;
      if id !in sessions {
        return;
      }
      CleanupsUnforced(sessions[id].cleanups);
      CloseConversation(id, CRASHED, false);
    }

    /** The first half of Close: conversations on remote hosts are let go without a word. */
    method DetachRemote()
      requires Valid()
      modifies this`sessions
      ensures Valid()
      ensures sessions == map id | id in old(sessions) && !old(sessions)[id].remote :: old(sessions)[id]
    {
      ghost var all := sessions;
      var todo := sessions.Keys;
      while todo != {}
        invariant todo <= all.Keys
        invariant sessions == map id | id in all && (id in todo || !all[id].remote) :: all[id]
        decreases todo
      {
        var id :| id in todo;
        todo := todo - {id};
        if sessions[id].remote {
          sessions := sessions - {id};
        }
      }
    }

    /** One turn of the loop of Close, on what was told before it and in it. */
    method CloseNext(id: nat, ghost before: seq<Notice>, ghost said: seq<Notice>) returns (ghost more: seq<Notice>)
      requires Valid() && id in sessions && notices == before + said && Unforced(said)
      modifies this, sessions[id]
      ensures Valid() && sessions == old(sessions) - {id}
      ensures old(sessions)[id].closed && old(sessions)[id].cleaned == Once(old(sessions[id].cleaned), false)
      ensures notices == before + more && Unforced(more)
      ensures forall k :: Count(more, k) == Count(said, k) + if k == id then 1 else 0
    {
      SaidMore(before, said, id, sessions[id].cleaned, sessions[id].cleanups);
      more := said + Said(id, "", sessions[id].cleaned, sessions[id].cleanups, false);
      CloseConversation(id, "", false);
    }

    /** The second half: the others are closed one by one, through the guarded path. */
    method CloseAll()
      requires Valid()
      modifies this, sessions.Values
      ensures sessions == map[]
      ensures forall id :: id in old(sessions) ==>
          old(sessions)[id].closed && old(sessions)[id].cleaned == Once(old(sessions[id].cleaned), false)
      ensures old(notices) <= notices && Unforced(notices[|old(notices)|..])
      ensures forall id :: Count(notices[|old(notices)|..], id) == if id in old(sessions) then 1 else 0
    {
      ghost var all, before := sessions, notices;
      var metas := sessions.Keys;
      ghost var said: seq<Notice> := [];
      while metas != {}
        invariant Valid()
        invariant sessions.Keys == metas <= all.Keys && forall id :: id in metas ==> sessions[id] == all[id]
        invariant forall id :: id in metas ==> all[id].cleaned == old(all[id].cleaned)
        invariant forall id :: id in all && id !in metas ==>
            all[id].closed && all[id].cleaned == Once(old(all[id].cleaned), false)
        invariant notices == before + said && Unforced(said)
        invariant forall id :: Count(said, id) == if id in all && id !in metas then 1 else 0
        decreases metas
      {
        var id :| id in metas;
        said := CloseNext(id, before, said);
        metas := metas - {id};
      }
      assert notices[|before|..] == said;
    }

    /** Close: every local conversation ends, told of exactly once; remote ones are left running for the next server. */
    method Close()
      requires Valid()
      modifies this, sessions.Values
      ensures sessions == map[]
      ensures forall id :: id in old(sessions) && !old(sessions)[id].remote ==>
                old(sessions)[id].closed && old(sessions)[id].cleaned == Once(old(sessions[id].cleaned), false)
      ensures forall id :: id in old(sessions) && old(sessions)[id].remote ==> unchanged(old(sessions)[id])
      ensures old(notices) <= notices && Unforced(notices[|old(notices)|..])
      ensures forall id ::
                Count(notices[|old(notices)|..], id) ==
                if id in old(sessions) && !old(sessions)[id].remote then 1 else 0
    {
      ghost var all := sessions;
      DetachRemote();
      assert forall id :: id in all && !all[id].remote ==> id in sessions && sessions[id] == all[id];
      CloseAll();
    }
  }
}
