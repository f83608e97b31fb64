/** config/config.go: the greedy wildcard matcher of tool permission rules. */
module Glob {
  import opened Strings

  // ---- what a pattern means ----

  function Stars(p: string): nat {
    if p == "" then 0 else (if p[0] == '*' then 1 else 0) + Stars(p[1..])
  }

  /** The pattern with its i-th star replaced by fill[i]. */
  function Expand(p: string, fill: seq<string>): string
    requires |fill| == Stars(p)
  {
    if p == "" then ""
    else if p[0] == '*' then fill[0] + Expand(p[1..], fill[1..])
    else [p[0]] + Expand(p[1..], fill)
  }

  /** `s` is the pattern with each star standing for some string. */
  ghost predicate Matches(p: string, s: string) {
    exists fill: seq<string> :: |fill| == Stars(p) && Expand(p, fill) == s
  }

  // ---- the string functions the matcher calls ----

  predicate HasPrefix(s: string, t: string) {
    |t| <= |s| && s[..|t|] == t
  }

  predicate HasSuffix(s: string, t: string) {
    |t| <= |s| && s[|s| - |t|..] == t
  }

  predicate At(s: string, t: string, i: nat) {
    i + |t| <= |s| && s[i..i + |t|] == t
  }

  /** strings.Index: the leftmost occurrence of t in s, or -1. */
  function Index(s: string, t: string): (idx: int)
    ensures idx >= 0 ==> At(s, t, idx) && forall i: nat :: i < idx ==> !At(s, t, i)
    ensures idx < 0 ==> forall i: nat :: !At(s, t, i)
  {
    IndexFrom(s, t, 0)
  }

  function IndexFrom(s: string, t: string, from: nat): (idx: int)
    requires from <= |s|
    ensures idx >= 0 ==> idx >= from && At(s, t, idx) && forall i: nat :: from <= i < idx ==> !At(s, t, i)
    ensures idx < 0 ==> forall i: nat :: from <= i ==> !At(s, t, i)
    decreases |s| - from
  {
    if At(s, t, from) then from
    else if from == |s| then -1
    else IndexFrom(s, t, from + 1)
  }

  /** The pieces of the pattern between its stars. */
  function Pieces(p: string): seq<string> {
    Split(p, '*')
  }

  lemma {:induction false} PieceCount(p: string)
    ensures |Pieces(p)| == Stars(p) + 1
  {
    if p != "" {
      PieceCount(p[1..]);
    }
  }

  lemma {:induction false} StarsIff(p: string)
    ensures Stars(p) > 0 <==> '*' in p
  {
    if p != "" {
      StarsIff(p[1..]);
      assert p == [p[0]] + p[1..];
    }
  }

  // ---- the pattern as a list of pieces ----

  /** `s` ends in: anything, the first piece, anything, the second piece, ..., the last piece. */
  ghost predicate Ends(parts: seq<string>, s: string)
    requires parts != []
    decreases |parts|
  {
    if |parts| == 1 then HasSuffix(s, parts[0])
    else exists i: nat :: At(s, parts[0], i) && Ends(parts[1..], s[i + |parts[0]|..])
  }

  /** `s` is the pieces in order with anything in between. */
  ghost predicate Laid(parts: seq<string>, s: string)
    requires parts != []
  {
    if |parts| == 1 then s == parts[0]
    else HasPrefix(s, parts[0]) && Ends(parts[1..], s[|parts[0]|..])
  }

  lemma EndsIsLaidAfterAnything(parts: seq<string>, s: string)
    requires parts != []
    ensures Ends(parts, s) <==> exists k: nat :: k <= |s| && Laid(parts, s[k..])
  {
    if |parts| == 1 {
      if HasSuffix(s, parts[0]) {
        assert Laid(parts, s[|s| - |parts[0]|..]);
      }
    } else {
      if Ends(parts, s) {
        var i: nat :| At(s, parts[0], i) && Ends(parts[1..], s[i + |parts[0]|..]);
        assert s[i..][..|parts[0]|] == s[i..i + |parts[0]|];
        assert s[i..][|parts[0]|..] == s[i + |parts[0]|..];
        assert Laid(parts, s[i..]);
      }
      if k: nat :| k <= |s| && Laid(parts, s[k..]) {
        assert s[k..][..|parts[0]|] == s[k..k + |parts[0]|];
        assert s[k..][|parts[0]|..] == s[k + |parts[0]|..];
        assert At(s, parts[0], k);
      }
    }
  }

  /** The pieces say what the pattern means. */
  lemma {:induction false} MatchesIsLaid(p: string, s: string)
    ensures Matches(p, s) <==> Laid(Pieces(p), s)
    decreases |p|
  {
    if p == "" {
      if s == "" {
        assert Expand(p, []) == s;
      }
    } else if p[0] == '*' {
      forall k: nat | k <= |s|
        ensures Matches(p[1..], s[k..]) <==> Laid(Pieces(p[1..]), s[k..])
      {
        MatchesIsLaid(p[1..], s[k..]);
      }
      StarMatches(p, s);
      StarLaid(p, s);
    } else {
      LiteralMatches(p, s);
      LiteralLaid(p, s);
      if s != "" {
        MatchesIsLaid(p[1..], s[1..]);
      }
    }
  }

  lemma StarMatches(p: string, s: string)
    requires p != "" && p[0] == '*'
    ensures Matches(p, s) <==> exists k: nat :: k <= |s| && Matches(p[1..], s[k..])
  {
    var q := p[1..];
    if Matches(p, s) {
      var fill :| |fill| == Stars(p) && Expand(p, fill) == s;
      assert s[|fill[0]|..] == Expand(q, fill[1..]);
      assert Matches(q, s[|fill[0]|..]);
    }
    if k: nat :| k <= |s| && Matches(q, s[k..]) {
      var fill :| |fill| == Stars(q) && Expand(q, fill) == s[k..];
      assert ([s[..k]] + fill)[1..] == fill;
      assert Expand(p, [s[..k]] + fill) == s[..k] + s[k..] == s;
    }
  }

  lemma StarLaid(p: string, s: string)
    requires p != "" && p[0] == '*'
    ensures Laid(Pieces(p), s) <==> exists k: nat :: k <= |s| && Laid(Pieces(p[1..]), s[k..])
  {
    var q := p[1..];
    assert Pieces(p)[1..] == Pieces(q) && Pieces(p)[0] == "" && s[0..] == s;
    EndsIsLaidAfterAnything(Pieces(q), s);
  }

  lemma LiteralMatches(p: string, s: string)
    requires p != "" && p[0] != '*'
    ensures Matches(p, s) <==> s != "" && s[0] == p[0] && Matches(p[1..], s[1..])
  {
    var q := p[1..];
    if Matches(p, s) {
      var fill :| |fill| == Stars(p) && Expand(p, fill) == s;
      assert s[1..] == Expand(q, fill);
    }
    if s != "" && s[0] == p[0] && Matches(q, s[1..]) {
      var fill :| |fill| == Stars(q) && Expand(q, fill) == s[1..];
      assert Expand(p, fill) == [s[0]] + s[1..] == s;
    }
  }

  lemma LiteralLaid(p: string, s: string)
    requires p != "" && p[0] != '*'
    ensures Laid(Pieces(p), s) <==> s != "" && s[0] == p[0] && Laid(Pieces(p[1..]), s[1..])
  {
    var a, b := Pieces(p), Pieces(p[1..]);
    assert a[0] == [p[0]] + b[0] && a[1..] == b[1..] && |a| == |b|;
    if s != "" && |a[0]| <= |s| {
      var t := s[1..];
      assert s == [s[0]] + t;
      assert s[..|a[0]|] == [s[0]] + t[..|b[0]|];
      assert s[|a[0]|..] == t[|b[0]|..];
      if HasPrefix(s, a[0]) {
        assert a[0][0] == p[0] && a[0][1..] == b[0];
      }
      assert HasPrefix(s, a[0]) <==> s[0] == p[0] && HasPrefix(t, b[0]);
    }
  }

  // ---- why leftmost is enough ----

  /** More text in front never hurts. */
  lemma EndsExtends(parts: seq<string>, s: string, k: nat)
    requires parts != [] && k <= |s| && Ends(parts, s[k..])
    ensures Ends(parts, s)
  {
    EndsIsLaidAfterAnything(parts, s[k..]);
    var m: nat :| m <= |s[k..]| && Laid(parts, s[k..][m..]);
    assert s[k..][m..] == s[k + m..];
    EndsIsLaidAfterAnything(parts, s);
  }

  /** Taking the leftmost occurrence of the first piece leaves the most text for the others. */
  lemma LeftmostSuffices(parts: seq<string>, s: string)
    requires |parts| > 1
    ensures var idx := Index(s, parts[0]);
            Ends(parts, s) <==> idx >= 0 && Ends(parts[1..], s[idx + |parts[0]|..])
  {
    var idx := Index(s, parts[0]);
    if Ends(parts, s) {
      var i: nat :| At(s, parts[0], i) && Ends(parts[1..], s[i + |parts[0]|..]);
      assert idx >= 0 && idx <= i;
      var t := s[idx + |parts[0]|..];
      assert t[i - idx..] == s[i + |parts[0]|..];
      EndsExtends(parts[1..], t, i - idx);
    }
  }

  /** wildcardMatch says yes exactly when the text is the pattern with its stars filled in. */
  method WildcardMatch(pattern: string, text: string) returns (ok: bool)
    ensures ok <==> Matches(pattern, text)
  {
    StarsIff(pattern);
    PieceCount(pattern);
    ghost var meant := Laid(Pieces(pattern), text);
    assert meant <==> Matches(pattern, text) by {
      MatchesIsLaid(pattern, text);
    }
    if '*' !in pattern {
      SplitNone(pattern, '*');
      return pattern == text;
    }
    var parts := Pieces(pattern);
    var s := text;
    if !HasPrefix(s, parts[0]) {
      return false;
    }
    s := s[|parts[0]|..];
    var i := 1;
    while i < |parts| - 1
      invariant 1 <= i < |parts|
      invariant meant <==> Ends(parts[i..], s)
    {
      LeftmostSuffices(parts[i..], s);
      assert parts[i..][1..] == parts[i + 1..];
      var idx := Index(s, parts[i]);
      if idx < 0 {
        return false;
      }
      s := s[idx + |parts[i]|..];
      i := i + 1;
    }
    ok := HasSuffix(s, parts[|parts| - 1]);
  }
}
