/** sandbox/bbwrap.go: configuration fragments that extend each other, flattened depth first. */
module Fragments {
  import opened Seqs

  datatype Fragment = Fragment(
    extend: seq<string>,
    roBind: seq<string>, bind: seq<string>, devBind: seq<string>,
    env: map<string, string>, passEnv: seq<string>)

  datatype Resolved = Resolved(
    roBind: seq<string>, bind: seq<string>, devBind: seq<string>,
    env: map<string, string>, passEnv: seq<string>)

  type Fragments = map<string, Fragment>

  datatype ResolveResult = Ok(value: Resolved) | NotFound(name: string)

  const NOTHING := Resolved([], [], [], map[], [])

  /** mergeResolved */
  function Merge(base: Resolved, overlay: Resolved): Resolved {
    Resolved(base.roBind + overlay.roBind, base.bind + overlay.bind, base.devBind + overlay.devBind,
             base.env + overlay.env, base.passEnv + overlay.passEnv)
  }

  function Own(f: Fragment): Resolved {
    Resolved(f.roBind, f.bind, f.devBind, f.env, f.passEnv)
  }

  predicate Defined(frags: Fragments, order: seq<string>) {
    forall n :: n in order ==> n in frags
  }

  /** The entries of the named fragments, in that order; a later fragment's variables win. */
  function Collect(frags: Fragments, order: seq<string>): Resolved
    requires Defined(frags, order)
  {
    if order == [] then NOTHING
    else Merge(Collect(frags, order[..|order| - 1]), Own(frags[order[|order| - 1]]))
  }

  lemma MergeAssociates(a: Resolved, b: Resolved, c: Resolved)
    ensures Merge(Merge(a, b), c) == Merge(a, Merge(b, c))
  {
    assert (a.env + b.env) + c.env == a.env + (b.env + c.env);
    forall x: seq<string>, y: seq<string>, z: seq<string>
      ensures (x + y) + z == x + (y + z)
    {
    }
  }

  lemma MergeNothing(a: Resolved)
    ensures Merge(a, NOTHING) == a
  {
    assert a.roBind + [] == a.roBind && a.bind + [] == a.bind && a.devBind + [] == a.devBind
        && a.passEnv + [] == a.passEnv;
  }

  lemma {:induction false} CollectConcat(frags: Fragments, a: seq<string>, b: seq<string>)
    requires Defined(frags, a) && Defined(frags, b)
    ensures Defined(frags, a + b) && Collect(frags, a + b) == Merge(Collect(frags, a), Collect(frags, b))
    decreases |b|
  {
    if b == [] {
      assert a + b == a;
      MergeNothing(Collect(frags, a));
    } else {
      var last := |b| - 1;
      var ab := a + b;
      assert ab[..|ab| - 1] == a + b[..last] && ab[|ab| - 1] == b[last];
      CollectConcat(frags, a, b[..last]);
      MergeAssociates(Collect(frags, a), Collect(frags, b[..last]), Own(frags[b[last]]));
    }
  }

  // ---- reachability ----

  /** Each name of the path extends to the next. */
  ghost predicate IsPath(frags: Fragments, path: seq<string>) {
    && path != []
    && forall i :: 0 <= i < |path| - 1 ==> path[i] in frags && path[i + 1] in frags[path[i]].extend
  }

  ghost predicate Reaches(frags: Fragments, a: string, b: string) {
    exists path :: IsPath(frags, path) && path[0] == a && path[|path| - 1] == b
  }

  lemma ReachesSelf(frags: Fragments, a: string)
    ensures Reaches(frags, a, a)
  {
    assert IsPath(frags, [a]);
  }

  lemma ReachesThrough(frags: Fragments, a: string, b: string, c: string)
    requires a in frags && b in frags[a].extend && Reaches(frags, b, c)
    ensures Reaches(frags, a, c)
  {
    var path :| IsPath(frags, path) && path[0] == b && path[|path| - 1] == c;
    assert IsPath(frags, [a] + path);
    assert ([a] + path)[|path|] == c;
  }

  lemma ReachesTransitive(frags: Fragments, a: string, b: string, c: string)
    requires Reaches(frags, a, b) && Reaches(frags, b, c)
    ensures Reaches(frags, a, c)
  {
    var p :| IsPath(frags, p) && p[0] == a && p[|p| - 1] == b;
    var q :| IsPath(frags, q) && q[0] == b && q[|q| - 1] == c;
    var r := p + q[1..];
    assert IsPath(frags, r) && r[0] == a && r[|r| - 1] == c;
  }

  /** A set closed under extend holds everything its members reach. */
  lemma ClosedHoldsReachable(frags: Fragments, s: set<string>, a: string, b: string)
    requires a in s && Reaches(frags, a, b)
    requires forall n, e :: n in s && n in frags && e in frags[n].extend ==> e in s
    ensures b in s
  {
    var path :| IsPath(frags, path) && path[0] == a && path[|path| - 1] == b;
    var i := 0;
    while i < |path| - 1
      invariant 0 <= i < |path| && path[i] in s
    {
      i := i + 1;
    }
  }

  // ---- the walk ----

  /** The names resolved so far: one map shared by the whole recursion. */
  class Visited {
    var names: set<string>

    constructor ()
      ensures names == {}
    {
      names := {};
    }
  }

  ghost predicate NoRepeat(order: seq<string>) {
    forall i, j :: 0 <= i < j < |order| ==> order[i] != order[j]
  }

  /**
   Why `e`, which order[i] extends, is not missing: it comes earlier, or was done before this walk
   began, or the two extend each other.
   */
  ghost predicate Settled(frags: Fragments, done: set<string>, order: seq<string>, i: nat, e: string)
    requires i < |order|
  {
    e in order[..i] || e in done || Reaches(frags, e, order[i])
  }

  /**
   What walking from `root` adds to the visited names: the names in `order`, each once, each defined
   and reachable, with everything they extend visited by then. `open` holds the names whose own walk
   is still under way.
   */
  ghost predicate Walked(frags: Fragments, root: string, open: set<string>, before: set<string>, after: set<string>,
                         order: seq<string>) {
    && after == before + (set n | n in order)
    && NoRepeat(order) && Defined(frags, order)
    && (forall n :: n in order ==> n !in before && Reaches(frags, root, n))
    && (forall n, e :: n in order && e in frags[n].extend ==> e in after)
    && (forall i, e :: 0 <= i < |order| && e in frags[order[i]].extend ==> Settled(frags, before - open, order, i, e))
  }

  /** Walking on to one more name that `root` extends. */
  lemma WalkedMore(frags: Fragments, root: string, ext: string, open: set<string>,
                   before: set<string>, mid: set<string>, after: set<string>, done: seq<string>, more: seq<string>)
    requires Walked(frags, root, open, before, mid, done)
    requires Walked(frags, ext, open, mid, after, more) && open <= before
    requires root in frags && ext in frags[root].extend
    ensures Walked(frags, root, open, before, after, done + more)
  {
    var order := done + more;
    forall i, j | 0 <= i < j < |order|
      ensures order[i] != order[j]
    {
      if i < |done| <= j {
        assert order[i] in done && order[j] in more;
      }
    }
    forall n | n in order
      ensures n !in before && Reaches(frags, root, n)
    {
      if n in more {
        ReachesThrough(frags, root, ext, n);
      }
    }
    forall i, e | 0 <= i < |order| && e in frags[order[i]].extend
      ensures Settled(frags, before - open, order, i, e)
    {
      if i < |done| {
        assert order[i] == done[i] && order[..i] == done[..i];
        assert Settled(frags, before - open, done, i, e);
      } else {
        var k := i - |done|;
        assert order[i] == more[k] && order[..i] == done + more[..k];
        assert Settled(frags, mid - open, more, k, e);
      }
    }
  }

  /** The root itself, after everything it extends. */
  lemma WalkedRoot(frags: Fragments, root: string, open: set<string>, before: set<string>, mid: set<string>,
                   order: seq<string>)
    requires root in frags && root !in before && open <= before
    requires Walked(frags, root, open + {root}, before + {root}, mid, order)
    requires forall e :: e in frags[root].extend ==> e in mid
    requires forall o :: o in open ==> Reaches(frags, o, root)
    ensures Walked(frags, root, open, before, mid, order + [root])
  {
    var full := order + [root];
    ReachesSelf(frags, root);
    assert (set n | n in full) == (set n | n in order) + {root};
    forall i, e | 0 <= i < |full| && e in frags[full[i]].extend
      ensures Settled(frags, before - open, full, i, e)
    {
      if i < |order| {
        assert full[i] == order[i] && full[..i] == order[..i];
        assert Settled(frags, (before + {root}) - (open + {root}), order, i, e);
      } else {
        assert full[i] == root && full[..i] == order;
        assert e in order || e == root || e in before;
      }
    }
  }

  /** Every fragment whose walk is under way reaches `name`. */
  ghost predicate Chain(frags: Fragments, open: set<string>, name: string) {
    forall o :: o in open ==> Reaches(frags, o, name)
  }

  lemma ChainNext(frags: Fragments, open: set<string>, name: string, ext: string)
    requires Chain(frags, open, name) && name in frags && ext in frags[name].extend
    ensures Chain(frags, open + {name}, ext)
  {
    ReachesSelf(frags, ext);
    ReachesThrough(frags, name, ext, ext);
    forall o | o in open
      ensures Reaches(frags, o, ext)
    {
      ReachesTransitive(frags, o, name, ext);
    }
  }

  /** The walk from `root` so far: its first n extends are done, and `order` lists what they added. */
  ghost predicate Progress(frags: Fragments, root: string, open: set<string>, before: set<string>, now: set<string>,
                           order: seq<string>, n: nat)
    requires root in frags && n <= |frags[root].extend|
  {
    && Walked(frags, root, open + {root}, before + {root}, now, order)
    && (forall e :: e in frags[root].extend[..n] ==> e in now)
  }

  lemma ProgressMore(frags: Fragments, root: string, open: set<string>, before: set<string>,
                     mid: set<string>, now: set<string>, order: seq<string>, more: seq<string>, n: nat)
    requires root in frags && n < |frags[root].extend| && open <= before
    requires Progress(frags, root, open, before, mid, order, n)
    requires Walked(frags, frags[root].extend[n], open + {root}, mid, now, more) && frags[root].extend[n] in now
    ensures Progress(frags, root, open, before, now, order + more, n + 1)
    ensures Defined(frags, order) && Defined(frags, more)
    ensures Collect(frags, order + more) == Merge(Collect(frags, order), Collect(frags, more))
  {
    var list := frags[root].extend;
    WalkedMore(frags, root, list[n], open + {root}, before + {root}, mid, now, order, more);
    assert list[..n + 1] == list[..n] + [list[n]];
    CollectConcat(frags, order, more);
  }

  lemma ProgressDone(frags: Fragments, root: string, open: set<string>, before: set<string>, now: set<string>,
                     order: seq<string>)
    requires root in frags && root !in before && open <= before && Chain(frags, open, root)
    requires Progress(frags, root, open, before, now, order, |frags[root].extend|)
    ensures Walked(frags, root, open, before, now, order + [root])
    ensures Collect(frags, order + [root]) == Merge(Collect(frags, order), Own(frags[root]))
  {
    assert frags[root].extend[..|frags[root].extend|] == frags[root].extend;
    WalkedRoot(frags, root, open, before, now, order);
    assert (order + [root])[..|order|] == order;
  }

  /** resolveFragment, with the visited map it shares. `open` is the chain of fragments being resolved. */
  method ResolveFragment(name: string, frags: Fragments, visited: Visited, ghost open: set<string>)
    returns (res: ResolveResult, ghost order: seq<string>)
    requires open <= visited.names && Chain(frags, open, name)
    modifies visited
    ensures old(visited.names) <= visited.names
    ensures res.Ok? ==>
              && Walked(frags, name, open, old(visited.names), visited.names, order)
              && name in visited.names && res.value == Collect(frags, order)
              && (name !in old(visited.names) ==> order != [] && order[|order| - 1] == name)
    ensures res.NotFound? ==> Reaches(frags, name, res.name) && res.name !in frags
    decreases frags.Keys - visited.names
  {
    ReachesSelf(frags, name);
    ghost var before := visited.names;
    order := [];
    if name in visited.names {
      return Ok(NOTHING), [];
    }
    visited.names := visited.names + {name};
    if name !in frags {
      return NotFound(name), [];
    }
    var frag := frags[name];
    var result := NOTHING;
    for i := 0 to |frag.extend|
      invariant before + {name} <= visited.names
      invariant Progress(frags, name, open, before, visited.names, order, i)
      invariant result == Collect(frags, order)
    {
      ghost var mid := visited.names;
      ChainNext(frags, open, name, frag.extend[i]);
      var child, more := ResolveFragment(frag.extend[i], frags, visited, open + {name});
      if child.NotFound? {
        ReachesThrough(frags, name, frag.extend[i], child.name);
        return child, [];
      }
      ProgressMore(frags, name, open, before, mid, visited.names, order, more, i);
      result := Merge(result, child.value);
      order := order + more;
    }
    ProgressDone(frags, name, open, before, visited.names, order);
    order := order + [name];
    return Ok(Merge(result, Own(frag))), order;
  }

  /**
   Each reachable fragment exactly once, the root last, and what it extends before it unless they extend each
   other.
   */
  ghost predicate Flattens(frags: Fragments, root: string, order: seq<string>) {
    && NoRepeat(order) && Defined(frags, order)
    && (forall n :: n in order <==> Reaches(frags, root, n))
    && order != [] && order[|order| - 1] == root
    && (forall i, e :: 0 <= i < |order| && e in frags[order[i]].extend ==> Settled(frags, {}, order, i, e))
  }

  lemma WalkedFlattens(frags: Fragments, root: string, after: set<string>, order: seq<string>)
    requires Walked(frags, root, {}, {}, after, order) && root in after
    requires order != [] && order[|order| - 1] == root
    ensures Flattens(frags, root, order)
  {
    forall n | Reaches(frags, root, n)
      ensures n in order
    {
      ClosedHoldsReachable(frags, after, root, n);
    }
    forall i, e | 0 <= i < |order| && e in frags[order[i]].extend
      ensures Settled(frags, {}, order, i, e)
    {
      assert Settled(frags, {} - {}, order, i, e);
    }
  }

  /**
   resolveFragment from scratch: it terminates even when fragments extend each other in a circle, it
   fails exactly when an undefined fragment is reachable, and otherwise collects the entries of every
   reachable fragment exactly once.
   */
  method Resolve(name: string, frags: Fragments) returns (res: ResolveResult, ghost order: seq<string>)
    ensures res.NotFound? <==> exists n :: Reaches(frags, name, n) && n !in frags
    ensures res.NotFound? ==> Reaches(frags, name, res.name) && res.name !in frags
    ensures res.Ok? ==> Flattens(frags, name, order) && res.value == Collect(frags, order)
  {
    var visited := new Visited();
    res, order := ResolveFragment(name, frags, visited, {});
    if res.Ok? {
      WalkedFlattens(frags, name, visited.names, order);
    }
  }

  // ---- what a flattening gives ----

  /** The value of a variable is that of the last fragment in the order that sets it. */
  lemma {:induction false} LastSetterWins(frags: Fragments, order: seq<string>, i: nat, key: string)
    requires Defined(frags, order)
    requires i < |order| && order[i] in frags && key in frags[order[i]].env
    requires forall j :: i < j < |order| ==> order[j] in frags && key !in frags[order[j]].env
    ensures key in Collect(frags, order).env && Collect(frags, order).env[key] == frags[order[i]].env[key]
    decreases |order|
  {
    var last := |order| - 1;
    if i < last {
      assert order[last] in order;
      LastSetterWins(frags, order[..last], i, key);
    }
  }

  /** A fragment's own variables override what it inherits. */
  lemma OwnVariablesWin(frags: Fragments, root: string, order: seq<string>, key: string)
    requires Flattens(frags, root, order) && key in frags[root].env
    ensures key in Collect(frags, order).env && Collect(frags, order).env[key] == frags[root].env[key]
  {
    LastSetterWins(frags, order, |order| - 1, key);
  }

  datatype Kind = RoBind | Bind | DevBind | PassEnv

  function Entries(r: Resolved, kind: Kind): seq<string> {
    match kind
    case RoBind => r.roBind
    case Bind => r.bind
    case DevBind => r.devBind
    case PassEnv => r.passEnv
  }

  /** What a fragment's own text lists under a kind. */
  function Listed(f: Fragment, kind: Kind): seq<string> {
    match kind
    case RoBind => f.roBind
    case Bind => f.bind
    case DevBind => f.devBind
    case PassEnv => f.passEnv
  }

  /** The entries of each kind are exactly those of the fragments in the order. */
  lemma {:induction false} EntriesOf(frags: Fragments, order: seq<string>, kind: Kind, entry: string)
    requires Defined(frags, order)
    ensures entry in Entries(Collect(frags, order), kind) <==>
              exists n :: n in order && entry in Listed(frags[n], kind)
    decreases |order|
  {
    if order != [] {
      var last := |order| - 1;
      assert order == order[..last] + [order[last]];
      EntriesOf(frags, order[..last], kind, entry);
      assert order[last] in order;
    }
  }

  /** The entries of an order are those of its parts, one after the other. */
  lemma {:induction false} EntriesConcat(frags: Fragments, a: seq<string>, b: seq<string>, kind: Kind)
    requires Defined(frags, a) && Defined(frags, b)
    ensures Defined(frags, a + b)
    ensures Entries(Collect(frags, a + b), kind) == Entries(Collect(frags, a), kind) + Entries(Collect(frags, b), kind)
    decreases |b|
  {
    if b == [] {
      assert a + b == a;
    } else {
      var last := |b| - 1;
      var ab := a + b;
      assert ab[..|ab| - 1] == a + b[..last] && ab[|ab| - 1] == b[last];
      EntriesConcat(frags, a, b[..last], kind);
      Regroup(Entries(Collect(frags, a), kind), Entries(Collect(frags, b[..last]), kind),
              Listed(frags[b[last]], kind));
    }
  }

  lemma EntriesOfOne(frags: Fragments, n: string, kind: Kind)
    requires n in frags
    ensures Defined(frags, [n]) && Entries(Collect(frags, [n]), kind) == Listed(frags[n], kind)
  {
    assert [n][..0] == [];
    assert Entries(Collect(frags, [n]), kind) == [] + Listed(frags[n], kind);
  }

  lemma EntriesAt(frags: Fragments, order: seq<string>, i: nat, kind: Kind)
    requires Defined(frags, order) && i < |order| && order[i] in frags
    requires Defined(frags, order[..i]) && Defined(frags, order[i + 1..])
    ensures Entries(Collect(frags, order), kind) ==
            Entries(Collect(frags, order[..i]), kind)
            + (Listed(frags[order[i]], kind) + Entries(Collect(frags, order[i + 1..]), kind))
  {
    var one, rest := [order[i]], order[i + 1..];
    EntriesOfOne(frags, order[i], kind);
    EntriesConcat(frags, one, rest, kind);
    EntriesConcat(frags, order[..i], one + rest, kind);
    assert order == order[..i] + (one + rest);
  }

  /** `late` comes after `early` in `list`. */
  ghost predicate ComesAfter(list: seq<string>, early: seq<string>, late: seq<string>) {
    exists a, b, c :: list == a + (early + (b + (late + c)))
  }

  lemma InOrder(frags: Fragments, order: seq<string>, i: nat, j: nat, kind: Kind)
    requires Defined(frags, order) && i < j < |order| && order[i] in frags && order[j] in frags
    ensures ComesAfter(Entries(Collect(frags, order), kind),
                       Listed(frags[order[i]], kind), Listed(frags[order[j]], kind))
  {
    var rest := order[i + 1..];
    var k := j - i - 1;
    assert rest[k] == order[j];
    EntriesAt(frags, order, i, kind);
    EntriesAt(frags, rest, k, kind);
  }

  /** A fragment's own entries come after those of what it extends, unless the two extend each other. */
  lemma InheritedComeFirst(frags: Fragments, root: string, order: seq<string>, n: string, e: string, kind: Kind)
    requires Flattens(frags, root, order) && n in order && e in frags[n].extend && !Reaches(frags, e, n)
    ensures e in frags
    ensures ComesAfter(Entries(Collect(frags, order), kind), Listed(frags[e], kind), Listed(frags[n], kind))
  {
    var j: nat :| j < |order| && order[j] == n;
    assert Settled(frags, {}, order, j, e);
    var i: nat :| i < j && order[i] == e;
    assert order[i] in order;
    InOrder(frags, order, i, j, kind);
  }

  // ---- the sandbox: a base fragment plus profiles ----

  /** A fragment takes part in the sandbox: reachable from the base or from a named profile. */
  ghost predicate TakesPart(frags: Fragments, name: string, profiles: seq<string>, n: string) {
    Reaches(frags, name, n) || exists p :: p in profiles && p != "" && Reaches(frags, p, n)
  }

  function Named(profiles: seq<string>): seq<string> {
    if profiles == [] then []
    else
      var last := |profiles| - 1;
      Named(profiles[..last]) + if profiles[last] == "" then [] else [profiles[last]]
  }

  lemma {:induction false} NamedAre(profiles: seq<string>, p: string)
    ensures p in Named(profiles) <==> p in profiles && p != ""
    decreases |profiles|
  {
    if profiles != [] {
      var last := |profiles| - 1;
      NamedAre(profiles[..last], p);
      assert profiles == profiles[..last] + [profiles[last]];
    }
  }

  function Concat(orders: seq<seq<string>>): seq<string> {
    if orders == [] then [] else Concat(orders[..|orders| - 1]) + orders[|orders| - 1]
  }

  lemma {:induction false} InConcat(orders: seq<seq<string>>, n: string)
    ensures n in Concat(orders) <==> exists i :: 0 <= i < |orders| && n in orders[i]
    decreases |orders|
  {
    if orders != [] {
      InConcat(orders[..|orders| - 1], n);
    }
  }

  /** `r` holds the entries of each root's flattening, one after the other. */
  ghost predicate Merged(frags: Fragments, roots: seq<string>, orders: seq<seq<string>>, r: Resolved) {
    && |orders| == |roots| && (forall i :: 0 <= i < |roots| ==> Flattens(frags, roots[i], orders[i]))
    && Defined(frags, Concat(orders)) && r == Collect(frags, Concat(orders))
  }

  lemma MergedOne(frags: Fragments, root: string, order: seq<string>)
    requires Flattens(frags, root, order)
    ensures Merged(frags, [root], [order], Collect(frags, order))
  {
    assert [order][..0] == [];
    assert Concat([order]) == [] + order;
    assert [] + order == order;
  }

  lemma MergedMore(frags: Fragments, roots: seq<string>, orders: seq<seq<string>>, r: Resolved, root: string,
                   order: seq<string>)
    requires Merged(frags, roots, orders, r) && Flattens(frags, root, order)
    ensures Merged(frags, roots + [root], orders + [order], Merge(r, Collect(frags, order)))
  {
    assert (orders + [order])[..|orders|] == orders;
    CollectConcat(frags, Concat(orders), order);
  }

  /** The fragments merged are exactly those that take part. */
  lemma MergedTakePart(frags: Fragments, name: string, profiles: seq<string>, orders: seq<seq<string>>, r: Resolved,
                       n: string)
    requires Merged(frags, [name] + Named(profiles), orders, r)
    ensures n in Concat(orders) <==> TakesPart(frags, name, profiles, n)
  {
    var roots := [name] + Named(profiles);
    InConcat(orders, n);
    if n in Concat(orders) {
      var i :| 0 <= i < |orders| && n in orders[i];
      assert Flattens(frags, roots[i], orders[i]) && roots[i] in roots;
      NamedAre(profiles, roots[i]);
    }
    if TakesPart(frags, name, profiles, n) {
      var p :| (p == name || (p in profiles && p != "")) && Reaches(frags, p, n);
      NamedAre(profiles, p);
      assert p in roots;
      var i :| 0 <= i < |roots| && roots[i] == p;
      assert Flattens(frags, roots[i], orders[i]);
    }
  }

  /** A variable has the value of the last root, base or profile, that sets it, directly or by what it extends. */
  lemma {:induction false} LastProfileWins(frags: Fragments, roots: seq<string>, orders: seq<seq<string>>, r: Resolved,
                                           i: nat, key: string)
    requires Merged(frags, roots, orders, r)
    requires i < |orders| && forall j :: i <= j < |orders| ==> Defined(frags, orders[j])
    requires key in Collect(frags, orders[i]).env
    requires forall j :: i < j < |orders| ==> key !in Collect(frags, orders[j]).env
    ensures key in r.env && r.env[key] == Collect(frags, orders[i]).env[key]
    decreases |orders|
  {
    var last := |orders| - 1;
    MergedFront(frags, roots, orders, r);
    MergeLooksUp(Collect(frags, Concat(orders[..last])), Collect(frags, orders[last]), key);
    if i < last {
      var front := Collect(frags, Concat(orders[..last]));
      FrontOrders(frags, orders, i, key);
      LastProfileWins(frags, roots[..last], orders[..last], front, i, key);
    }
  }

  /** The variables of a merge: those of the second, then those of the first. */
  lemma MergeLooksUp(a: Resolved, b: Resolved, key: string)
    ensures var env := Merge(a, b).env;
            && (key in b.env ==> key in env && env[key] == b.env[key])
            && (key !in b.env && key in a.env ==> key in env && env[key] == a.env[key])
  {
  }

  lemma FrontOrders(frags: Fragments, orders: seq<seq<string>>, i: nat, key: string)
    requires i < |orders| - 1 && forall j :: i <= j < |orders| ==> Defined(frags, orders[j])
    requires forall j :: i < j < |orders| ==> key !in Collect(frags, orders[j]).env
    ensures var front := orders[..|orders| - 1];
            && front[i] == orders[i]
            && (forall j :: i <= j < |front| ==> Defined(frags, front[j]))
            && (forall j :: i < j < |front| ==> key !in Collect(frags, front[j]).env)
  {
  }

  lemma MergedFront(frags: Fragments, roots: seq<string>, orders: seq<seq<string>>, r: Resolved)
    requires Merged(frags, roots, orders, r) && orders != []
    ensures var last := |orders| - 1;
            && Defined(frags, Concat(orders[..last])) && Defined(frags, orders[last])
            && Merged(frags, roots[..last], orders[..last], Collect(frags, Concat(orders[..last])))
            && r == Merge(Collect(frags, Concat(orders[..last])), Collect(frags, orders[last]))
  {
    var last := |orders| - 1;
    assert Flattens(frags, roots[last], orders[last]);
    assert forall n :: n in Concat(orders[..last]) ==> n in Concat(orders);
    CollectConcat(frags, Concat(orders[..last]), orders[last]);
  }

  /** What the order of the merge leaves to see of it: every kind's entries, by the fragments that take part. */
  lemma MergedEntries(frags: Fragments, name: string, profiles: seq<string>, orders: seq<seq<string>>, r: Resolved,
                      kind: Kind, entry: string)
    requires Merged(frags, [name] + Named(profiles), orders, r)
    ensures forall n :: TakesPart(frags, name, profiles, n) ==> n in frags
    ensures entry in Entries(r, kind) <==>
              exists n :: TakesPart(frags, name, profiles, n) && entry in Listed(frags[n], kind)
  {
    forall n
      ensures n in Concat(orders) <==> TakesPart(frags, name, profiles, n)
    {
      MergedTakePart(frags, name, profiles, orders, r, n);
    }
    EntriesOf(frags, Concat(orders), kind, entry);
  }

  /**
   The merge in NewBwrapSandbox: fails exactly when an undefined fragment takes part; otherwise it holds the
   flattening of the base and then of each named profile, which fixes every entry, its place and every variable.
   */
  method ResolveAll(name: string, profiles: seq<string>, frags: Fragments)
    returns (res: ResolveResult, ghost orders: seq<seq<string>>)
    ensures res.NotFound? <==> exists n :: TakesPart(frags, name, profiles, n) && n !in frags
    ensures res.Ok? ==> Merged(frags, [name] + Named(profiles), orders, res.value)
    ensures res.Ok? ==> forall kind, entry ::
              entry in Entries(res.value, kind) <==>
              exists n :: TakesPart(frags, name, profiles, n) && entry in Listed(frags[n], kind)
  {
    ReachesSelf(frags, name);
    orders := [];
    if name !in frags {
      assert TakesPart(frags, name, profiles, name);
      return NotFound(name), orders;
    }
    ghost var order;
    res, order := Resolve(name, frags);
    if res.NotFound? {
      assert TakesPart(frags, name, profiles, res.name);
      return;
    }
    var resolved := res.value;
    orders := [order];
    MergedOne(frags, name, order);
    assert [name] + Named(profiles[..0]) == [name];
    for i := 0 to |profiles|
      invariant Merged(frags, [name] + Named(profiles[..i]), orders, resolved)
    {
      var profile := profiles[i];
      NamedMore(name, profiles, i);
      if profile == "" {
        continue;
      }
      ReachesSelf(frags, profile);
      if profile !in frags {
        assert TakesPart(frags, name, profiles, profile);
        return NotFound(profile), [];
      }
      var r, o := Resolve(profile, frags);
      if r.NotFound? {
        assert TakesPart(frags, name, profiles, r.name);
        return r, [];
      }
      MergedMore(frags, [name] + Named(profiles[..i]), orders, resolved, profile, o);
      resolved, orders := Merge(resolved, r.value), orders + [o];
    }
    assert profiles[..|profiles|] == profiles;
    forall n
      ensures n in Concat(orders) <==> TakesPart(frags, name, profiles, n)
    {
      MergedTakePart(frags, name, profiles, orders, resolved, n);
    }
    forall kind, entry
      ensures entry in Entries(resolved, kind) <==>
                exists n :: TakesPart(frags, name, profiles, n) && entry in Listed(frags[n], kind)
    {
      MergedEntries(frags, name, profiles, orders, resolved, kind, entry);
    }
    return Ok(resolved), orders;
  }

  lemma NamedMore(name: string, profiles: seq<string>, i: nat)
    requires i < |profiles|
    ensures [name] + Named(profiles[..i + 1]) ==
            if profiles[i] == "" then [name] + Named(profiles[..i]) else ([name] + Named(profiles[..i])) + [profiles[i]]
  {
    assert profiles[..i + 1][..i] == profiles[..i];
  }
}
