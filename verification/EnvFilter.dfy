/** sandbox/env.go: which host environment variables cross into the sandbox. */
module EnvFilter {
  import opened Strings
  import opened Fragments
  import Glob

  const DEFAULT_PASS_ENV: seq<string> := [
    "PATH", "HOME", "USER", "LOGNAME", "SHELL", "TERM",
    "LANG", "LC_*", "TZ",
    "XDG_CONFIG_HOME", "XDG_CACHE_HOME", "XDG_DATA_HOME",
    "HTTP_PROXY", "HTTPS_PROXY", "NO_PROXY", "http_proxy", "https_proxy", "no_proxy",
    "SSL_CERT_FILE", "SSL_CERT_DIR", "NODE_EXTRA_CA_CERTS", "CURL_CA_BUNDLE",
    "ANTHROPIC_*", "CLAUDE_CODE_*", "CLAUDE_CONFIG_DIR"]

  /** A trailing star is a prefix wildcard; there is no other. */
  predicate MatchEnvName(pattern: string, name: string) {
    if pattern != "" && pattern[|pattern| - 1] == '*' then pattern[..|pattern| - 1] <= name
    else pattern == name
  }

  /** What the star means: any rest; and a pattern without one is a name. */
  lemma StarIsAnyRest(p: string, name: string)
    requires '*' !in p
    ensures MatchEnvName(p + "*", name) <==> exists rest :: name == p + rest
    ensures MatchEnvName(p, name) <==> name == p
  {
    assert (p + "*")[..|p|] == p;
    if p <= name {
      assert name == p + name[|p|..];
    }
    if p != "" {
      assert p[|p| - 1] in p;
    }
  }

  /** A star that is not the last character, which the matcher takes literally. */
  predicate InnerStar(pattern: string) {
    exists i :: 0 <= i < |pattern| - 1 && pattern[i] == '*'
  }

  function Blanks(n: nat): (fill: seq<string>)
    ensures |fill| == n && forall i :: 0 <= i < n ==> fill[i] == ""
  {
    seq(n, _ => "")
  }

  lemma {:induction false} ExpandBlank(p: string)
    ensures |Glob.Expand(p, Blanks(Glob.Stars(p)))| == |p| - Glob.Stars(p)
  {
    if p != "" {
      ExpandBlank(p[1..]);
      if p[0] == '*' {
        assert Blanks(Glob.Stars(p))[1..] == Blanks(Glob.Stars(p[1..]));
      }
    }
  }

  lemma {:induction false} NoStars(p: string)
    requires '*' !in p
    ensures Glob.Stars(p) == 0 && Glob.Expand(p, []) == p
  {
    Glob.StarsIff(p);
    if p != "" {
      NoStars(p[1..]);
    }
  }

  lemma {:induction false} ExpandLast(p: string, rest: string)
    requires '*' !in p
    ensures Glob.Stars(p + "*") == 1 && Glob.Expand(p + "*", [rest]) == p + rest
  {
    if p == "" {
      assert "" + "*" == "*" && "*"[1..] == "" && Glob.Expand("", []) == "";
    } else {
      assert (p + "*")[0] == p[0] && (p + "*")[1..] == p[1..] + "*";
      ExpandLast(p[1..], rest);
    }
  }

  lemma {:induction false} StarsAt(p: string, i: nat)
    requires i < |p| && p[i] == '*'
    ensures Glob.Stars(p) >= 1 && (i < |p| - 1 && p[|p| - 1] == '*' ==> Glob.Stars(p) >= 2)
  {
    if i > 0 {
      StarsAt(p[1..], i - 1);
    } else if |p| > 1 && p[|p| - 1] == '*' {
      StarsAt(p[1..], |p| - 2);
    }
  }

  lemma OuterStarAgrees(pattern: string, name: string)
    requires !InnerStar(pattern)
    ensures MatchEnvName(pattern, name) <==> Glob.Matches(pattern, name)
  {
    if pattern != "" && pattern[|pattern| - 1] == '*' {
      var p := pattern[..|pattern| - 1];
      assert pattern == p + "*";
      forall fill: seq<string> | |fill| == 1
        ensures Glob.Stars(pattern) == 1 && Glob.Expand(pattern, fill) == p + fill[0]
      {
        ExpandLast(p, fill[0]);
        assert fill == [fill[0]];
      }
      StarIsAnyRest(p, name);
      ExpandLast(p, "");
      if rest :| name == p + rest {
        assert Glob.Expand(pattern, [rest]) == name;
      }
    } else {
      NoStars(pattern);
      assert forall fill: seq<string> :: |fill| == 0 ==> fill == [];
    }
  }

  /** So it is the matcher of the permission rules exactly on the patterns whose only star is the last character. */
  lemma AgreesWithGlobIff(pattern: string)
    ensures (forall name :: MatchEnvName(pattern, name) <==> Glob.Matches(pattern, name)) <==> !InnerStar(pattern)
  {
    if InnerStar(pattern) {
      var i :| 0 <= i < |pattern| - 1 && pattern[i] == '*';
      StarsAt(pattern, i);
      ExpandBlank(pattern);
      var name := Glob.Expand(pattern, Blanks(Glob.Stars(pattern)));
      assert Glob.Matches(pattern, name) && !MatchEnvName(pattern, name);
    } else {
      forall name
        ensures MatchEnvName(pattern, name) <==> Glob.Matches(pattern, name)
      {
        OuterStarAgrees(pattern, name);
      }
    }
  }

  predicate AnyMatches(patterns: seq<string>, name: string) {
    exists p :: p in patterns && MatchEnvName(p, name)
  }

  datatype EnvMatcher = EnvMatcher(allow: seq<string>, deny: seq<string>)
  {
    predicate Allows(name: string) {
      !AnyMatches(deny, name) && AnyMatches(allow, name)
    }
  }

  // ---- what one entry says ----

  predicate Denies(entry: string, name: string) {
    var t := TrimSpace(entry);
    t != "" && t[0] == '-' && MatchEnvName(t[1..], name)
  }

  predicate Grants(entry: string, name: string) {
    var t := TrimSpace(entry);
    t != "" && t[0] != '-' && MatchEnvName(t, name)
  }

  predicate Default(name: string) {
    AnyMatches(DEFAULT_PASS_ENV, name)
  }

  /** What an entry means, whatever space is around it: a leading minus denies, else it grants; blank is nothing. */
  lemma EntrySays(a: string, p: string, b: string, name: string)
    requires Spaces(a) && Spaces(b)
    ensures Trimmed("-" + p) ==>
              !Grants(a + ("-" + p) + b, name) && (Denies(a + ("-" + p) + b, name) <==> MatchEnvName(p, name))
    ensures Trimmed(p) && p != "" && p[0] != '-' ==>
              !Denies(a + p + b, name) && (Grants(a + p + b, name) <==> MatchEnvName(p, name))
    ensures !Denies(a, name) && !Grants(a, name)
  {
    if Trimmed("-" + p) {
      TrimSpaceIs(a, "-" + p, b);
      assert ("-" + p)[1..] == p;
    }
    if Trimmed(p) {
      TrimSpaceIs(a, p, b);
    }
    SpaceAround("", a, "");
  }

  lemma ThreeStarred(i: nat)
    requires i < |DEFAULT_PASS_ENV|
    ensures DEFAULT_PASS_ENV[i] != ""
    ensures DEFAULT_PASS_ENV[i][|DEFAULT_PASS_ENV[i]| - 1] == '*' <==> i in {7, 22, 23}
  {
  }

  lemma TheStarred()
    ensures DEFAULT_PASS_ENV[7] == "LC_" + "*"
    ensures DEFAULT_PASS_ENV[22] == "ANTHROPIC_" + "*"
    ensures DEFAULT_PASS_ENV[23] == "CLAUDE_CODE_" + "*"
  {
  }

  lemma StarMatches(p: string, name: string)
    requires '*' !in p
    ensures MatchEnvName(p + "*", name) <==> p <= name
  {
    assert (p + "*")[..|p|] == p;
  }

  /** What crosses with no entries at all: the names of the list, and what begins with one of its three prefixes. */
  lemma BaselineIs(name: string)
    ensures Default(name) <==>
            name in DEFAULT_PASS_ENV || "LC_" <= name || "ANTHROPIC_" <= name || "CLAUDE_CODE_" <= name
  {
    TheStarred();
    StarMatches("LC_", name);
    StarMatches("ANTHROPIC_", name);
    StarMatches("CLAUDE_CODE_", name);
    forall i: nat | i < |DEFAULT_PASS_ENV| && i !in {7, 22, 23}
      ensures MatchEnvName(DEFAULT_PASS_ENV[i], name) <==> name == DEFAULT_PASS_ENV[i]
    {
      ThreeStarred(i);
    }
  }

  lemma FirstTwo(i: nat)
    requires i < |DEFAULT_PASS_ENV|
    ensures |DEFAULT_PASS_ENV[i]| >= 2
    ensures DEFAULT_PASS_ENV[i][0] != 'G' && (DEFAULT_PASS_ENV[i][0] == 'A' ==> DEFAULT_PASS_ENV[i][1] == 'N')
  {
  }

  lemma NotListed(name: string)
    requires |name| >= 2 && (name[0] == 'G' || (name[0] == 'A' && name[1] == 'W'))
    ensures name !in DEFAULT_PASS_ENV
  {
    forall i: nat | i < |DEFAULT_PASS_ENV|
      ensures DEFAULT_PASS_ENV[i] != name
    {
      FirstTwo(i);
    }
  }

  /** So nothing of AWS or GitHub crosses until an entry grants it. */
  lemma SecretsKeptOut(name: string)
    requires "AWS_" <= name || "GITHUB_" <= name
    ensures !Default(name)
  {
    assert name[0] in {'A', 'G'} && (name[0] == 'A' ==> name[1] == 'W');
    NotListed(name);
    BaselineIs(name);
  }

  predicate AnyDenies(entries: seq<string>, name: string) {
    exists e :: e in entries && Denies(e, name)
  }

  predicate AnyGrants(entries: seq<string>, name: string) {
    exists e :: e in entries && Grants(e, name)
  }

  lemma OneMorePattern(patterns: seq<string>, p: string, name: string)
    ensures AnyMatches(patterns + [p], name) <==> AnyMatches(patterns, name) || MatchEnvName(p, name)
  {
    if AnyMatches(patterns, name) {
      var q :| q in patterns && MatchEnvName(q, name);
      assert q in patterns + [p];
    }
    assert p in patterns + [p];
  }

  lemma OneMoreEntry(entries: seq<string>, e: string, name: string)
    ensures AnyDenies(entries + [e], name) <==> AnyDenies(entries, name) || Denies(e, name)
    ensures AnyGrants(entries + [e], name) <==> AnyGrants(entries, name) || Grants(e, name)
  {
    assert e in entries + [e];
    assert forall x :: x in entries ==> x in entries + [e];
  }

  /**
   newEnvMatcher: a name passes when no entry denies it and the baseline or some entry grants it;
   the order of the entries, and how often each is repeated, says nothing.
   */
  method NewEnvMatcher(passEnv: seq<string>) returns (m: EnvMatcher)
    ensures forall name :: m.Allows(name) <==> !AnyDenies(passEnv, name) && (Default(name) || AnyGrants(passEnv, name))
  {
    var allow, deny := DEFAULT_PASS_ENV, [];
    for i := 0 to |passEnv|
      invariant forall name :: AnyMatches(deny, name) <==> AnyDenies(passEnv[..i], name)
      invariant forall name :: AnyMatches(allow, name) <==> Default(name) || AnyGrants(passEnv[..i], name)
    {
      var entry := TrimSpace(passEnv[i]);
      assert passEnv[..i + 1] == passEnv[..i] + [passEnv[i]];
      forall name
        ensures AnyDenies(passEnv[..i + 1], name) <==> AnyDenies(passEnv[..i], name) || Denies(passEnv[i], name)
        ensures AnyGrants(passEnv[..i + 1], name) <==> AnyGrants(passEnv[..i], name) || Grants(passEnv[i], name)
        ensures AnyMatches(allow + [entry], name) <==> AnyMatches(allow, name) || MatchEnvName(entry, name)
        ensures entry != "" ==>
                  (AnyMatches(deny + [entry[1..]], name) <==> AnyMatches(deny, name) || MatchEnvName(entry[1..], name))
      {
        OneMoreEntry(passEnv[..i], passEnv[i], name);
        OneMorePattern(allow, entry, name);
        if entry != "" {
          OneMorePattern(deny, entry[1..], name);
        }
      }
      if entry == "" {
        continue;
      }
      if entry[0] == '-' {
        deny := deny + [entry[1..]];
        continue;
      }
      allow := allow + [entry];
    }
    assert passEnv[..|passEnv|] == passEnv;
    m := EnvMatcher(allow, deny);
  }

  /** A KEY=VALUE entry whose key passes. */
  predicate Keeps(m: EnvMatcher, entry: string) {
    match Cut(entry, '=')
    case NotFound => false
    case Found(name, _) => m.Allows(name)
  }

  lemma KeepsIff(m: EnvMatcher, entry: string)
    ensures Keeps(m, entry) <==> exists name, value :: '=' !in name && entry == name + ['='] + value && m.Allows(name)
  {
    var cut := Cut(entry, '=');
    if cut.Found? {
      forall name: string, value | '=' !in name && entry == name + ['='] + value
        ensures cut == Found(name, value)
      {
        CutFirst(name, value, '=');
      }
    }
  }

  function Filtered(m: EnvMatcher, hostEnv: seq<string>): seq<string> {
    if hostEnv == [] then []
    else
      var front := Filtered(m, hostEnv[..|hostEnv| - 1]);
      if Keeps(m, hostEnv[|hostEnv| - 1]) then front + [hostEnv[|hostEnv| - 1]] else front
  }

  /** filterEnv: the entries that pass, in their order. */
  method FilterEnv(m: EnvMatcher, hostEnv: seq<string>) returns (filtered: seq<string>)
    ensures filtered == Filtered(m, hostEnv)
  {
    filtered := [];
    for i := 0 to |hostEnv|
      invariant filtered == Filtered(m, hostEnv[..i])
    {
      assert hostEnv[..i + 1][..i] == hostEnv[..i];
      if Keeps(m, hostEnv[i]) {
        filtered := filtered + [hostEnv[i]];
      }
    }
    assert hostEnv[..|hostEnv|] == hostEnv;
  }

  /** Filtering keeps exactly the passing entries, and filtering in two parts is filtering the whole. */
  lemma {:induction false} FilteredIs(m: EnvMatcher, a: seq<string>, b: seq<string>)
    ensures Filtered(m, a + b) == Filtered(m, a) + Filtered(m, b)
    ensures forall e :: e in Filtered(m, b) <==> e in b && Keeps(m, e)
    decreases |b|
  {
    if b == [] {
      assert a + b == a;
    } else {
      var last := |b| - 1;
      var ab := a + b;
      assert ab[..|ab| - 1] == a + b[..last] && ab[|ab| - 1] == b[last];
      assert b == b[..last] + [b[last]];
      FilteredIs(m, a, b[..last]);
    }
  }

  /**
   The filter of a whole sandbox depends only on which entries the fragments that take part carry,
   not on the order or the number of times they were merged; deny beats allow wherever it comes from.
   */
  method SandboxEnv(name: string, profiles: seq<string>, frags: Fragments) returns (res: ResolveResult, m: EnvMatcher)
    ensures res.NotFound? <==> exists n :: TakesPart(frags, name, profiles, n) && n !in frags
    ensures res.Ok? ==> forall v :: m.Allows(v) <==>
              && !(exists n, e :: TakesPart(frags, name, profiles, n) && e in frags[n].passEnv && Denies(e, v))
              && (Default(v)
                  || exists n, e :: TakesPart(frags, name, profiles, n) && e in frags[n].passEnv && Grants(e, v))
  {
    ghost var orders;
    res, orders := ResolveAll(name, profiles, frags);
    if res.NotFound? {
      m := EnvMatcher([], []);
      return;
    }
    assert Entries(res.value, PassEnv) == res.value.passEnv;
    m := NewEnvMatcher(res.value.passEnv);
  }
}
