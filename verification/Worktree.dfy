/** hook/worktree.go: an isolated git worktree for every session after the first on a repository. */
module Worktrees {
  import opened Wrappers
  import opened Registries
  import opened RegistryRuns

  /** Where worktrees go: under the repository, or at an absolute path. */
  datatype Place = Under(path: Path) | Absolute(path: Path)

  function WorktreePath(place: Place, repo: Path, id: nat): Path {
    (if place.Absolute? then place.path else repo + place.path) + [Id(id)]
  }

  /** A relative place lies under the repository, an absolute one nowhere near it; no two sessions share a path. */
  lemma PathLies(place: Place, repo: Path, other: Path, a: nat, b: nat)
    ensures place.Under? ==> repo < WorktreePath(place, repo, a)
                             && WorktreePath(place, repo, a)[|repo|..] == WorktreePath(place, [], a)
    ensures place.Absolute? ==> WorktreePath(place, repo, a) == WorktreePath(place, other, a)
    ensures place.path + [Id(a)] == WorktreePath(place, [], a)
    ensures WorktreePath(place, repo, a) == WorktreePath(place, repo, b) ==> a == b
  {
    var p, q := WorktreePath(place, repo, a), WorktreePath(place, repo, b);
    assert p[|p| - 1] == Id(a) && q[|q| - 1] == Id(b);
    assert [] + place.path == place.path;
    assert place.Under? ==> p == repo + (place.path + [Id(a)]);
  }

  // ---- one session's hook ----

  /** What `git status --porcelain` gave: nothing when git could not be run in time. */
  datatype Status = Unknown | Changes(paths: seq<string>)

  datatype Setup = Unchanged | Redirected(cwd: Path, bind: Path) | AddFailed

  /** What SessionState hands to the next server. */
  datatype Saved = Saved(repo: Path, wt: Path, branch: nat)

  /** The worktrees git knows of, each with whether it holds uncommitted changes, and the branches. */
  class Repository {
    var worktrees: map<Path, bool>
    var branches: set<nat>

    constructor ()
      ensures worktrees == map[] && branches == {}
    {
      worktrees, branches := map[], {};
    }

    /** An answer of git about a worktree, if there is one, is the truth. */
    ghost predicate Honest(wt: Path, status: Status)
      reads this
    {
      status.Changes? && wt in worktrees ==> (worktrees[wt] <==> status.paths != [])
    }
  }

  class WorktreeHook {
    const place: Place
    var made: Option<Saved>   // repo, wt and branch, set together

    constructor (place: Place)
      ensures this.place == place && made == None
    {
      this.place, made := place, None;
    }

    /** SetupSession, given what git and the router answer. */
    method SetupSession(git: Repository, isRepo: bool, running: nat, addOk: bool, id: nat, cwd: Path) returns (r: Setup)
      modifies this, git
      ensures r.Redirected? <==> isRepo && running > 0 && addOk
      ensures r.AddFailed? <==> isRepo && running > 0 && !addOk
      ensures r.Redirected? ==>
                r == Redirected(WorktreePath(place, cwd, id), cwd) && made == Some(Saved(cwd, r.cwd, id))
      ensures r.Redirected? ==>
                git.worktrees == old(git.worktrees)[r.cwd := false] && git.branches == old(git.branches) + {id}
      ensures !r.Redirected? ==>
                made == old(made) && git.worktrees == old(git.worktrees) && git.branches == old(git.branches)
    {
      if !isRepo || running == 0 {
        return Unchanged;
      }
      var wt := WorktreePath(place, cwd, id);
      if !addOk {
        return AddFailed;
      }
      git.worktrees, git.branches := git.worktrees[wt := false], git.branches + {id};
      made := Some(Saved(cwd, wt, id));
      return Redirected(wt, cwd);
    }

    /** ResumeSession: the next server's hook stands where this one stood. */
    method ResumeSession(saved: Option<Saved>) returns (tearsDown: bool)
      modifies this
      ensures tearsDown == saved.Some?
      ensures made == if saved.Some? then saved else old(made)
    {
      if saved.None? {
        return false;
      }
      made := saved;
      return true;
    }

    /** CanClose: a veto when git says that the worktree holds changes; none when it cannot tell. */
    method CanClose(status: Status) returns (veto: bool)
      ensures veto <==> made.Some? && status.Changes? && status.paths != []
    {
      if made.None? || status.Unknown? {
        return false;
      }
      return status.paths != [];
    }

    /**
     teardown: an unforced one keeps a worktree that git says is dirty, and one git fails to remove stays
     too; the branch always stays.
     */
    method Teardown(git: Repository, force: bool, status: Status, removeOk: bool)
      requires made.Some? && git.Honest(made.value.wt, status)
      modifies git
      ensures git.branches == old(git.branches)
      ensures forall p :: p != made.value.wt ==> (p in git.worktrees <==> p in old(git.worktrees))
      ensures forall p :: p in git.worktrees ==> p in old(git.worktrees) && git.worktrees[p] == old(git.worktrees)[p]
      ensures made.value.wt in old(git.worktrees) ==>
          (made.value.wt !in git.worktrees <==>
             removeOk && (force || status.Unknown? || !old(git.worktrees)[made.value.wt]))
    {
      if !force {
        var veto := CanClose(status);
        if veto {
          return;
        }
      }
      if removeOk {
        git.worktrees := git.worktrees - {made.value.wt};
      }
    }
  }

  /**
   Uncommitted work is destroyed without the user saying so exactly when git could not be asked, and then could
   remove: not knowing counts as clean, for the guard as for the teardown.
   */
  method UnforcedTeardown(hook: WorktreeHook, git: Repository, status: Status, removeOk: bool) returns (lost: bool)
    requires hook.made.Some? && git.Honest(hook.made.value.wt, status)
    requires hook.made.value.wt in git.worktrees && git.worktrees[hook.made.value.wt]
    modifies git
    ensures lost <==> hook.made.value.wt !in git.worktrees
    ensures lost <==> status.Unknown? && removeOk
  {
    hook.Teardown(git, false, status, removeOk);
    lost := hook.made.value.wt !in git.worktrees;
  }

  // ---- all sessions of one server ----

  /** Live sessions with a process that were asked for in `base` on `location`. */
  ghost predicate There(s: State, r: nat, location: string, base: Path) {
    r < |s.states| && IsLive(s, r) && s.states[r].location == location && s.states[r].base == base
  }

  /** They work in pairwise distinct directories. */
  ghost predicate Isolated(s: State, location: string, base: Path) {
    forall q: nat, r: nat :: There(s, q, location, base) && There(s, r, location, base) && q != r ==>
        s.states[q].cwd != s.states[r].cwd
  }

  ghost predicate Taken(s: State, location: string, base: Path, cwd: Path) {
    exists r: nat :: There(s, r, location, base) && s.states[r].cwd == cwd
  }

  /** Directories name no conversation yet to come. */
  ghost predicate Old(p: Path, next: nat) {
    forall id: nat :: Id(id) in p ==> id < next
  }

  ghost predicate AllOld(s: State) {
    forall r :: 0 <= r < |s.states| ==> Old(s.states[r].cwd, s.next)
  }

  /**
   What Create makes of a directory, by the hook's rule: `git` says whether the hook is there and finds a
   repository.
   */
  ghost function Directory(s: State, location: string, base: Path, place: Place, git: bool): Path {
    if git && exists r: nat :: There(s, r, location, base) then WorktreePath(place, base, s.next) else base
  }

  /** The first session on a directory works in it, and so does every session the hook finds no repository for. */
  lemma DirectoryIsOwnIff(s: State, location: string, base: Path, place: Place, git: bool)
    requires Old(base, s.next)
    ensures Directory(s, location, base, place, git) == base <==> !git || forall r: nat :: !There(s, r, location, base)
    ensures Directory(s, location, base, place, git) != base ==>
              Directory(s, location, base, place, git) == WorktreePath(place, base, s.next)
  {
    var p := WorktreePath(place, base, s.next);
    assert p[|p| - 1] == Id(s.next) && Id(s.next) in p;
  }

  lemma NewPath(s: State, place: Place, base: Path, r: nat)
    requires AllOld(s) && r < |s.states|
    ensures s.states[r].cwd != WorktreePath(place, base, s.next)
  {
    var p := WorktreePath(place, base, s.next);
    assert p[|p| - 1] == Id(s.next);
    assert Id(s.next) in p;
  }

  /** A new session joins those in its directory: they are still where they were. */
  lemma JoinedBy(s: State, a: Action, location: string, base: Path)
    requires Inv(s) && Enabled(s, a) && (a.Create? || a.Adopt?) && a.location == location && a.base == base
    ensures var s' := Apply(s, a);
      && (forall r: nat :: r < |s.states| ==>
          (There(s', r, location, base) <==> There(s, r, location, base)) && s'.states[r] == s.states[r])
      && There(s', |s.states|, location, base) && s'.states[|s.states|].cwd == a.cwd
      && (forall r: nat :: There(s', r, location, base) ==> r <= |s.states|)
  {
    forall r: nat | r < |s.states|
      ensures There(Apply(s, a), r, location, base) <==> There(s, r, location, base)
    {
      OthersLive(s, a, r);
    }
  }

  lemma IsolatedIffFree(s: State, a: Action, location: string, base: Path)
    requires Inv(s) && Enabled(s, a) && (a.Create? || a.Adopt?) && a.location == location && a.base == base
    requires Isolated(s, location, base)
    ensures Isolated(Apply(s, a), location, base) <==> !Taken(s, location, base, a.cwd)
  {
    JoinedBy(s, a, location, base);
    var s', n := Apply(s, a), |s.states|;
    if Taken(s, location, base, a.cwd) {
      var r: nat :| There(s, r, location, base) && s.states[r].cwd == a.cwd;
      assert There(s', r, location, base) && There(s', n, location, base) && r != n;
    } else {
      forall q: nat, r: nat | There(s', q, location, base) && There(s', r, location, base) && q != r
        ensures s'.states[q].cwd != s'.states[r].cwd
      {
        if q < n && r < n {
          assert There(s, q, location, base) && There(s, r, location, base);
        } else if q < n {
          assert There(s, q, location, base);
        } else {
          assert There(s, r, location, base);
        }
      }
    }
  }

  /**
   A Create keeps the sessions of a directory apart exactly when the hook finds a repository, or nobody works
   there.
   */
  lemma CreateIsolatesIff(s: State, a: Action, place: Place, git: bool)
    requires Inv(s) && AllOld(s) && a.Create? && a.cwd == Directory(s, a.location, a.base, place, git)
    requires Isolated(s, a.location, a.base)
    ensures Isolated(Apply(s, a), a.location, a.base) <==> git || !Taken(s, a.location, a.base, a.base)
  {
    IsolatedIffFree(s, a, a.location, a.base);
    if git && exists r: nat :: There(s, r, a.location, a.base) {
      forall r: nat | There(s, r, a.location, a.base)
        ensures s.states[r].cwd != a.cwd
      {
        NewPath(s, place, a.base, r);
      }
    }
  }

  /** A step that starts nothing in the directory. */
  predicate Elsewhere(a: Action, location: string, base: Path) {
    && !((a.Create? || a.Adopt?) && a.location == location && a.base == base)
    && !(a.CreateError? && location == LOCAL && base == [])
  }

  lemma ThereBefore(s: State, a: Action, location: string, base: Path, r: nat)
    requires Inv(s) && Enabled(s, a) && Elsewhere(a, location, base) && There(Apply(s, a), r, location, base)
    ensures There(s, r, location, base) && Apply(s, a).states[r].cwd == s.states[r].cwd
  {
    if r < |s.states| {
      WasLive(s, a, r);
      if r != Subject(s, a) {
        OthersLive(s, a, r);
      }
    }
  }

  /** Closes, crashes, restarts and re-keyings keep them apart. */
  lemma ElsewhereKeeps(s: State, a: Action, location: string, base: Path)
    requires Inv(s) && Enabled(s, a) && Elsewhere(a, location, base) && Isolated(s, location, base)
    ensures Isolated(Apply(s, a), location, base)
  {
    var s' := Apply(s, a);
    forall q: nat, r: nat | There(s', q, location, base) && There(s', r, location, base) && q != r
      ensures s'.states[q].cwd != s'.states[r].cwd
    {
      ThereBefore(s, a, location, base, q);
      ThereBefore(s, a, location, base, r);
    }
  }

  /** The directories a run starts sessions in are known when it does. */
  ghost predicate Plain(s: State, a: Action) {
    (a.Create? || a.Adopt? || a.CreateError? ==> Old(a.cwd, if a.Adopt? then s.next else s.next + 1))
  }

  lemma AllOldKept(s: State, a: Action)
    requires Inv(s) && AllOld(s) && Enabled(s, a) && Plain(s, a)
    ensures AllOld(Apply(s, a))
  {
    var s' := Apply(s, a);
    forall r | 0 <= r < |s'.states|
      ensures Old(s'.states[r].cwd, s'.next)
    {
      if r < |s.states| {
        assert s'.states[r].cwd == s.states[r].cwd && Old(s.states[r].cwd, s.next);
      }
    }
  }

  /**
   Every Create there goes by the hook on a repository, or finds the directory free; every Adopt finds its
   directory free.
   */
  ghost predicate Guarded(s: State, a: Action, location: string, base: Path) {
    && Plain(s, a) && !(a.CreateError? && location == LOCAL && base == [])
    && (a.Create? && a.location == location && a.base == base ==>
          exists place, git ::
              a.cwd == Directory(s, location, base, place, git) && (git || !Taken(s, location, base, base)))
    && (a.Adopt? && a.location == location && a.base == base ==> !Taken(s, location, base, a.cwd))
  }

  ghost predicate AllGuarded(s: State, run: seq<Action>, location: string, base: Path)
    requires Possible(s, run)
    decreases |run|
  {
    run == [] || (Guarded(s, run[0], location, base) && AllGuarded(Apply(s, run[0]), run[1..], location, base))
  }

  lemma GuardedKeeps(s: State, a: Action, location: string, base: Path)
    requires Inv(s) && AllOld(s) && Enabled(s, a) && Guarded(s, a, location, base) && Isolated(s, location, base)
    ensures Isolated(Apply(s, a), location, base)
  {
    if Elsewhere(a, location, base) {
      ElsewhereKeeps(s, a, location, base);
    } else if a.Create? {
      var place, git :| a.cwd == Directory(s, location, base, place, git) && (git || !Taken(s, location, base, base));
      CreateIsolatesIff(s, a, place, git);
    } else {
      IsolatedIffFree(s, a, location, base);
    }
  }

  /** Over any such run the live sessions of a directory work apart. */
  lemma {:induction false} StayApart(s: State, run: seq<Action>, location: string, base: Path)
    requires Inv(s) && AllOld(s) && Possible(s, run) && AllGuarded(s, run, location, base)
             && Isolated(s, location, base)
    ensures Isolated(Exec(s, run), location, base)
    decreases |run|
  {
    if run != [] {
      InvKept(s, run[0]);
      AllOldKept(s, run[0]);
      GuardedKeeps(s, run[0], location, base);
      StayApart(Apply(s, run[0]), run[1..], location, base);
    }
  }

  // ---- over a restart of the server ----

  /** The next server takes sessions of the old one back, one after the other. */
  function AdoptAll(earlier: seq<Session>): seq<Action> {
    if earlier == [] then []
    else
      var e := earlier[0];
      [Adopt(e.id, e.location, e.base, e.cwd, e.cleanups)] + AdoptAll(earlier[1..])
  }

  ghost predicate Apart(earlier: seq<Session>, location: string, base: Path) {
    forall i, j ::
      && 0 <= i < j < |earlier|
      && earlier[i].location == earlier[j].location == location
      && earlier[i].base == earlier[j].base == base
      ==> earlier[i].cwd != earlier[j].cwd
  }

  ghost predicate Unlike(s: State, earlier: seq<Session>, location: string, base: Path) {
    forall i :: 0 <= i < |earlier| && earlier[i].location == location && earlier[i].base == base ==>
        !Taken(s, location, base, earlier[i].cwd)
  }

  ghost predicate Adoptable(s: State, earlier: seq<Session>) {
    && (forall i :: 0 <= i < |earlier| ==> earlier[i].id < s.next && earlier[i].id !in s.used)
    && (forall i, j :: 0 <= i < j < |earlier| ==> earlier[i].id != earlier[j].id)
  }

  lemma TakenAfter(s: State, a: Action, location: string, base: Path, cwd: Path)
    requires Inv(s) && Enabled(s, a) && a.Adopt? && !Taken(s, location, base, cwd)
    requires a.location == location && a.base == base ==> a.cwd != cwd
    ensures !Taken(Apply(s, a), location, base, cwd)
  {
    if a.location == location && a.base == base {
      JoinedBy(s, a, location, base);
    } else {
      forall r: nat | There(Apply(s, a), r, location, base)
        ensures Apply(s, a).states[r].cwd != cwd
      {
        ThereBefore(s, a, location, base, r);
      }
    }
  }

  /** Sessions that worked apart under the old server do so under the next, whichever of them come back. */
  lemma {:induction false} AdoptedStayApart(s: State, earlier: seq<Session>, location: string, base: Path)
    requires Inv(s) && Adoptable(s, earlier) && Isolated(s, location, base)
    requires Apart(earlier, location, base) && Unlike(s, earlier, location, base)
    ensures Possible(s, AdoptAll(earlier)) && Isolated(Exec(s, AdoptAll(earlier)), location, base)
    decreases |earlier|
  {
    if earlier != [] {
      var a := Adopt(earlier[0].id, earlier[0].location, earlier[0].base, earlier[0].cwd, earlier[0].cleanups);
      var s', rest := Apply(s, a), earlier[1..];
      InvKept(s, a);
      if Elsewhere(a, location, base) {
        ElsewhereKeeps(s, a, location, base);
      } else {
        IsolatedIffFree(s, a, location, base);
      }
      forall i | 0 <= i < |rest| && rest[i].location == location && rest[i].base == base
        ensures !Taken(s', location, base, rest[i].cwd)
      {
        assert rest[i] == earlier[i + 1];
        TakenAfter(s, a, location, base, rest[i].cwd);
      }
      AdoptedStayApart(s', rest, location, base);
      Prepend(s, a, AdoptAll(rest));
    }
  }
}
