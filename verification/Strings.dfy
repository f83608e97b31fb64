/** The string functions of Go's strings package that the modelled code calls. */
module Strings {

  /** unicode.IsSpace */
  predicate IsSpace(c: char) {
    var n := c as int;
    9 <= n <= 13 || n == 0x20 || n == 0x85 || n == 0xA0 || n == 0x1680 || 0x2000 <= n <= 0x200A
    || n == 0x2028 || n == 0x2029 || n == 0x202F || n == 0x205F || n == 0x3000
  }

  /** Of the ASCII characters: tab, the four that end lines or pages, and the blank. */
  lemma AsciiSpaces(c: char)
    requires c as int < 0x80
    ensures IsSpace(c) <==> c in {'\t', '\n', 11 as char, 12 as char, '\r', ' '}
  {
  }

  /** Nothing for TrimSpace to take off. */
  predicate Trimmed(s: string) {
    s == "" || (!IsSpace(s[0]) && !IsSpace(s[|s| - 1]))
  }

  /** strings.TrimSpace */
  function TrimSpace(s: string): (t: string)
    ensures Trimmed(t) && |t| <= |s|
    ensures forall c :: c in t ==> c in s
  {
    if s == "" then s
    else if IsSpace(s[0]) then TrimSpace(s[1..])
    else if IsSpace(s[|s| - 1]) then TrimSpace(s[..|s| - 1])
    else s
  }

  /** Nothing but space. */
  predicate Spaces(s: string) {
    forall c :: c in s ==> IsSpace(c)
  }

  /** TrimSpace takes off all outer space and nothing else: it gives the trimmed text that is left in between. */
  lemma {:induction false} TrimSpaceIs(a: string, t: string, b: string)
    requires Spaces(a) && Trimmed(t) && Spaces(b)
    ensures TrimSpace(a + t + b) == t
    decreases |a| + |b|
  {
    var s := a + t + b;
    if a != "" {
      assert s[0] == a[0] && a[0] in a && s[1..] == a[1..] + t + b;
      TrimSpaceIs(a[1..], t, b);
    } else if b != "" {
      assert s[|s| - 1] == b[|b| - 1] && b[|b| - 1] in b && b[0] in b;
      if t == "" {
        assert s == b && s[1..] == "" + t + b[1..];
        TrimSpaceIs("", t, b[1..]);
      } else {
        assert s[0] == t[0] && s[..|s| - 1] == "" + t + b[..|b| - 1];
        TrimSpaceIs("", t, b[..|b| - 1]);
      }
    } else {
      assert s == t;
      TrimmedStays(t);
    }
  }

  /** Every text is outer space around a trimmed one. */
  lemma {:induction false} OuterSpace(s: string) returns (a: string, b: string)
    ensures Spaces(a) && Spaces(b) && s == a + TrimSpace(s) + b
  {
    a, b := "", "";
    if s != "" && IsSpace(s[0]) {
      var rest := s[1..];
      a, b := OuterSpace(rest);
      assert s == [s[0]] + (a + TrimSpace(rest) + b);
      a := [s[0]] + a;
    } else if s != "" && IsSpace(s[|s| - 1]) {
      var rest := s[..|s| - 1];
      a, b := OuterSpace(rest);
      assert s == (a + TrimSpace(rest) + b) + [s[|s| - 1]];
      b := b + [s[|s| - 1]];
    }
  }

  /** Space around a text makes no difference; a text is blank when there is nothing else. */
  lemma SpaceAround(a: string, s: string, b: string)
    requires Spaces(a) && Spaces(b)
    ensures TrimSpace(a + s + b) == TrimSpace(s)
    ensures TrimSpace(s) == "" <==> Spaces(s)
  {
    var c, d := OuterSpace(s);
    assert a + s + b == (a + c) + TrimSpace(s) + (d + b);
    TrimSpaceIs(a + c, TrimSpace(s), d + b);
    if Spaces(s) {
      TrimSpaceIs(s, "", "");
      assert s + "" + "" == s;
    }
  }

  lemma {:induction false} TrimmedStays(s: string)
    requires Trimmed(s)
    ensures TrimSpace(s) == s
  {
  }

  /** strings.Split(s, sep) for a one-character separator. */
  function Split(s: string, sep: char): (parts: seq<string>)
    ensures |parts| > 0
    ensures forall i :: 0 <= i < |parts| ==> sep !in parts[i]
  {
    if s == "" then [""]
    else
      var rest := Split(s[1..], sep);
      if s[0] == sep then [""] + rest else [[s[0]] + rest[0]] + rest[1..]
  }

  /** What is not in the whole is in no piece. */
  lemma {:induction false} SplitHasNoMore(s: string, sep: char, c: char)
    requires c !in s
    ensures forall i :: 0 <= i < |Split(s, sep)| ==> c !in Split(s, sep)[i]
    decreases |s|
  {
    if s != "" {
      assert s == [s[0]] + s[1..];
      SplitHasNoMore(s[1..], sep, c);
    }
  }

  /** strings.Join(parts, sep) for a one-character separator. */
  function Join(parts: seq<string>, sep: char): string {
    if parts == [] then ""
    else if |parts| == 1 then parts[0]
    else parts[0] + [sep] + Join(parts[1..], sep)
  }

  /** Splitting gives back the pieces that were joined, when none holds the separator. */
  lemma {:induction false} SplitJoin(parts: seq<string>, sep: char)
    requires parts != [] && forall i :: 0 <= i < |parts| ==> sep !in parts[i]
    ensures Split(Join(parts, sep), sep) == parts
    decreases |parts|
  {
    if |parts| == 1 {
      SplitNone(parts[0], sep);
    } else {
      SplitJoin(parts[1..], sep);
      SplitFirst(parts[0], Join(parts[1..], sep), sep);
    }
  }

  lemma {:induction false} SplitNone(s: string, sep: char)
    requires sep !in s
    ensures Split(s, sep) == [s]
  {
    if s != "" {
      SplitNone(s[1..], sep);
      assert s == [s[0]] + s[1..];
    }
  }

  lemma {:induction false} SplitFirst(a: string, b: string, sep: char)
    requires sep !in a
    ensures Split(a + [sep] + b, sep) == [a] + Split(b, sep)
    decreases |a|
  {
    var s := a + [sep] + b;
    if a == "" {
      assert s[1..] == b;
    } else {
      assert s[0] == a[0] && s[1..] == a[1..] + [sep] + b;
      SplitFirst(a[1..], b, sep);
      assert a == [a[0]] + a[1..];
    }
  }

  datatype CutResult = Found(before: string, after: string) | NotFound

  /** strings.Cut(s, sep) for a one-character separator: around its first occurrence. */
  function Cut(s: string, sep: char): (r: CutResult)
    ensures r.Found? <==> sep in s
    ensures r.Found? ==> s == r.before + [sep] + r.after && sep !in r.before
  {
    if s == "" then NotFound
    else if s[0] == sep then Found("", s[1..])
    else
      match Cut(s[1..], sep)
      case NotFound => NotFound
      case Found(before, after) => Found([s[0]] + before, after)
  }

  lemma {:induction false} CutFirst(a: string, b: string, sep: char)
    requires sep !in a
    ensures Cut(a + [sep] + b, sep) == Found(a, b)
  {
    var s := a + [sep] + b;
    var r := Cut(s, sep);
    assert s[|a|] == sep;
    var k := |r.before|;
    assert s[k] == sep && forall i :: 0 <= i < k ==> s[i] == r.before[i];
    assert forall i :: 0 <= i < |a| ==> s[i] == a[i];
    assert k == |a|;
    assert r.before == s[..k] == a && r.after == s[k + 1..] == b;
  }
}
