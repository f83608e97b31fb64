/** discord/output.go: cutting a message into chunks that Discord accepts, and plain fences. */
module MessageSplits {
  import opened Seqs
  import opened Strings

  const MAX: nat := 2000

  /** strings.HasPrefix(s, "```") */
  predicate FenceFirst(s: string) {
    |s| >= 3 && s[0] == s[1] == s[2] == '`'
  }

  /** strings.Count(s, "```"): occurrences that do not overlap, left to right. */
  function Fences(s: string): nat {
    if |s| < 3 then 0
    else if FenceFirst(s) then 1 + Fences(s[3..])
    else Fences(s[1..])
  }

  // ---- one round of the loop, on what is left of the message ----

  function CutAt(s: string): (cut: nat)
    requires |s| > MAX
    ensures 0 < cut <= MAX - 4
    ensures cut < MAX - 4 ==> s[cut] == '\n'
  {
    var i := LastIndex(s[..MAX - 4], '\n');
    if i <= 0 then MAX - 4 else i
  }

  /** Does the part before the cut end inside a code block? */
  predicate OpenAt(s: string)
    requires |s| > MAX
  {
    Fences(s[..CutAt(s)]) % 2 != 0
  }

  predicate NewlineAt(s: string)
    requires |s| > MAX
  {
    s[CutAt(s)] == '\n'
  }

  function Chunk(s: string): string
    requires |s| > MAX
  {
    s[..CutAt(s)] + if OpenAt(s) then "\n```" else ""
  }

  function Remainder(s: string): string
    requires |s| > MAX
  {
    (if OpenAt(s) then "```\n" else "") + s[CutAt(s) + if NewlineAt(s) then 1 else 0..]
  }

  // ---- termination ----

  /** A fence line followed by a line too long to reach the next place to cut. */
  predicate Stuck(s: string) {
    |s| > MAX && s[..4] == "```\n" && '\n' !in s[4..MAX - 4]
  }

  lemma StuckCut(s: string)
    requires |s| > MAX
    ensures Stuck(s) <==> OpenAt(s) && CutAt(s) == 3
  {
    var head := s[..MAX - 4];
    if Stuck(s) {
      assert head[3] == s[..4][3] == '\n';
      assert forall j :: 4 <= j < MAX - 4 ==> head[j] == s[4..MAX - 4][j - 4];
      assert CutAt(s) == 3;
      assert s[0] == s[..4][0] && s[1] == s[..4][1] && s[2] == s[..4][2];
      assert FenceFirst(s[..3]) && Fences(s[..3][3..]) == 0;
    }
    if CutAt(s) == 3 && OpenAt(s) {
      assert Fences(s[..3][1..]) == 0;
      assert FenceFirst(s[..3]);
      assert s[0] == s[1] == s[2] == '`' && s[3] == '\n';
      var line := s[4..MAX - 4];
      assert forall j :: 0 <= j < |line| ==> line[j] == head[4 + j];
    }
  }

  /** A round makes what is left shorter, unless it is stuck: then the round gives it back unchanged. */
  lemma Progress(s: string)
    requires |s| > MAX
    ensures Stuck(s) ==> Remainder(s) == s
    ensures !Stuck(s) ==> |Remainder(s)| < |s|
  {
    StuckCut(s);
    if Stuck(s) {
      assert s == s[..4] + s[4..];
    }
  }

  /** What is left after n rounds. */
  function After(s: string, n: nat): string
    decreases n
  {
    if n == 0 || |s| <= MAX then s else After(Remainder(s), n - 1)
  }

  predicate GetsStuck(s: string)
    decreases |s|
  {
    if |s| <= MAX then false
    else if Stuck(s) then true
    else
      Progress(s);
      GetsStuck(Remainder(s))
  }

  lemma {:induction false} StaysStuck(s: string, n: nat)
    requires GetsStuck(s)
    ensures |After(s, n)| > MAX
    decreases n
  {
    if n > 0 {
      Progress(s);
      StaysStuck(Remainder(s), n - 1);
    }
  }

  lemma {:induction false} Finishes(s: string) returns (n: nat)
    requires !GetsStuck(s)
    ensures |After(s, n)| <= MAX && n <= |s|
    decreases |s|
  {
    if |s| <= MAX {
      n := 0;
    } else {
      Progress(s);
      var m := Finishes(Remainder(s));
      n := m + 1;
    }
  }

  /** The loop runs forever exactly when some round meets a stuck remainder. */
  lemma DivergesIff(s: string)
    ensures (forall n: nat :: |After(s, n)| > MAX) <==> GetsStuck(s)
  {
    if GetsStuck(s) {
      forall n: nat
        ensures |After(s, n)| > MAX
      {
        StaysStuck(s, n);
      }
    } else {
      var n := Finishes(s);
    }
  }

  predicate Stretch(s: string, i: int, j: int) {
    0 <= i <= j <= |s| && forall k :: i <= k < j ==> s[k] != '\n'
  }

  /** No stretch without a newline is longer than n. */
  ghost predicate LinesAtMost(s: string, n: nat) {
    forall i, j :: Stretch(s, i, j) ==> j - i <= n
  }

  const SHORT: nat := 1991

  lemma ShortCut(s: string)
    requires |s| > MAX && LinesAtMost(s, SHORT)
    ensures NewlineAt(s) && 4 <= CutAt(s) < MAX - 4
  {
    var head := s[..MAX - 4];
    var i := LastIndex(head, '\n');
    assert forall k :: i < k < MAX - 4 ==> s[k] == head[k];
    assert Stretch(s, i + 1, MAX - 4);
  }

  lemma SuffixLines(s: string, k: nat, n: nat)
    requires k <= |s| && LinesAtMost(s, n)
    ensures LinesAtMost(s[k..], n)
  {
    forall i, j | Stretch(s[k..], i, j)
      ensures j - i <= n
    {
      assert forall m :: k + i <= m < k + j ==> s[m] == s[k..][m - k];
      assert Stretch(s, k + i, k + j);
    }
  }

  /** A line and a newline before some lines. */
  lemma LineBefore(line: string, s: string, n: nat)
    requires LinesAtMost(s, n) && |line| <= n
    ensures LinesAtMost(line + "\n" + s, n)
  {
    var t := line + "\n" + s;
    var l := |line|;
    assert t[l] == '\n';
    forall i, j | Stretch(t, i, j)
      ensures j - i <= n
    {
      if i > l {
        assert forall m :: i - l - 1 <= m < j - l - 1 ==> s[m] == t[m + l + 1];
        assert Stretch(s, i - l - 1, j - l - 1);
      }
    }
  }

  lemma ShortRemainder(s: string)
    requires |s| > MAX && LinesAtMost(s, SHORT)
    ensures LinesAtMost(Remainder(s), SHORT) && !Stuck(s)
  {
    ShortCut(s);
    StuckCut(s);
    var tail := s[CutAt(s) + 1..];
    SuffixLines(s, CutAt(s) + 1, SHORT);
    LineBefore("```", tail, SHORT);
    assert "" + tail == tail && "```\n" + tail == "```" + "\n" + tail;
  }

  /** With lines of at most 1991 characters the loop always ends. */
  lemma {:induction false} ShortLinesFinish(s: string)
    requires LinesAtMost(s, SHORT)
    ensures !GetsStuck(s)
    decreases |s|
  {
    if |s| > MAX {
      ShortRemainder(s);
      Progress(s);
      ShortLinesFinish(Remainder(s));
    }
  }

  /** The bound is the best possible: one character more, under a fence, and the loop never ends. */
  lemma LongerLineSticks(line: string, rest: string)
    requires |line| == SHORT + 1 && '\n' !in line && |rest| >= 4
    ensures GetsStuck("```" + "\n" + (line + "\n" + rest))
    ensures LinesAtMost(rest, SHORT + 1) ==> LinesAtMost("```" + "\n" + (line + "\n" + rest), SHORT + 1)
  {
    var s := "```" + "\n" + (line + "\n" + rest);
    assert s[..4] == "```\n";
    assert s[4..MAX - 4] == line;
    if LinesAtMost(rest, SHORT + 1) {
      LineBefore(line, rest, SHORT + 1);
      LineBefore("```", line + "\n" + rest, SHORT + 1);
    }
  }

  // ---- the chunks ----

  function Chunks(s: string): (chunks: seq<string>)
    requires !GetsStuck(s)
    ensures |chunks| > 0
    decreases |s|
  {
    if |s| <= MAX then [s]
    else
      Progress(s);
      [Chunk(s)] + Chunks(Remainder(s))
  }

  /** Every chunk fits, whatever the message. */
  lemma {:induction false} ChunksFit(s: string)
    requires !GetsStuck(s)
    ensures forall i :: 0 <= i < |Chunks(s)| ==> |Chunks(s)[i]| <= MAX
    decreases |s|
  {
    if |s| > MAX {
      Progress(s);
      ChunksFit(Remainder(s));
    }
  }

  /** A newline keeps the fences on its two sides apart. */
  lemma {:induction false} FencesOverNewline(a: string, b: string)
    ensures Fences(a + "\n" + b) == Fences(a) + Fences(b)
    decreases |a|
  {
    var s := a + "\n" + b;
    assert s[|a|] == '\n';
    if a == "" {
      assert s[1..] == b;
      assert !FenceFirst(s);
    } else if FenceFirst(a) {
      assert s[3..] == a[3..] + "\n" + b;
      FencesOverNewline(a[3..], b);
    } else {
      assert s[1..] == a[1..] + "\n" + b;
      FencesOverNewline(a[1..], b);
      NotAFence(a, b);
    }
  }

  lemma NotAFence(a: string, b: string)
    requires a != "" && !FenceFirst(a)
    ensures var s := a + "\n" + b; Fences(s) == Fences(s[1..]) && Fences(a) == Fences(a[1..])
  {
    var s := a + "\n" + b;
    assert s[|a|] == '\n' && forall k :: 0 <= k < |a| ==> s[k] == a[k];
    assert !FenceFirst(s);
  }

  lemma ChunkEven(s: string)
    requires |s| > MAX
    ensures Fences(Chunk(s)) % 2 == 0
  {
    var head := s[..CutAt(s)];
    if OpenAt(s) {
      FencesOverNewline(head, "```");
      assert Fences("```") == 1 + Fences("```"[3..]) && Fences("```"[3..]) == 0;
      assert Chunk(s) == head + "\n" + "```";
    } else {
      assert Chunk(s) == head;
    }
  }

  /** Every chunk but the last closes the code blocks it opens, whatever the message. */
  lemma {:induction false} ChunksEven(s: string)
    requires !GetsStuck(s)
    ensures forall i :: 0 <= i < |Chunks(s)| - 1 ==> Fences(Chunks(s)[i]) % 2 == 0
    decreases |s|
  {
    if |s| > MAX {
      Progress(s);
      ChunkEven(s);
      ChunksEven(Remainder(s));
    }
  }

  lemma FenceBefore(s: string)
    ensures Fences("```\n" + s) == 1 + Fences(s)
  {
    FencesOverNewline("```", s);
    assert Fences("```") == 1 + Fences("```"[3..]) && Fences("```"[3..]) == 0;
    assert "```\n" + s == "```" + "\n" + s;
  }

  lemma AroundNewline(s: string, c: nat)
    requires c < |s| && s[c] == '\n'
    ensures s == s[..c] + "\n" + s[c + 1..]
  {
  }

  lemma FencesAround(s: string, c: nat)
    requires c < |s| && s[c] == '\n'
    ensures Fences(s) == Fences(s[..c]) + Fences(s[c + 1..])
  {
    AroundNewline(s, c);
    FencesOverNewline(s[..c], s[c + 1..]);
  }

  lemma FencesLeft(s: string)
    requires |s| > MAX && NewlineAt(s)
    ensures Fences(Remainder(s)) == Fences(s[CutAt(s) + 1..]) + if OpenAt(s) then 1 else 0
  {
    var tail := s[CutAt(s) + 1..];
    if OpenAt(s) {
      FenceBefore(tail);
    } else {
      assert Remainder(s) == tail;
    }
  }

  lemma SameParity(before: nat, after: nat, open: bool, left: nat, whole: nat)
    requires open <==> before % 2 != 0
    requires left == after + (if open then 1 else 0) && whole == before + after
    ensures left % 2 == whole % 2
  {
  }

  lemma RemainderParity(s: string)
    requires |s| > MAX && NewlineAt(s)
    ensures Fences(Remainder(s)) % 2 == Fences(s) % 2
  {
    FencesAround(s, CutAt(s));
    FencesLeft(s);
    var before, after := Fences(s[..CutAt(s)]), Fences(s[CutAt(s) + 1..]);
    var left, whole := Fences(Remainder(s)), Fences(s);
    SameParity(before, after, OpenAt(s), left, whole);
  }

  /** With short lines the last chunk has the parity of the whole message: a block left open stays open. */
  lemma {:induction false} LastParity(s: string)
    requires LinesAtMost(s, SHORT) && !GetsStuck(s)
    ensures var c := Chunks(s); Fences(c[|c| - 1]) % 2 == Fences(s) % 2
    decreases |s|
  {
    if |s| > MAX {
      Progress(s);
      ShortCut(s);
      ShortRemainder(s);
      RemainderParity(s);
      LastParity(Remainder(s));
    }
  }

  // ---- putting the message back together ----

  /** What happened at a cut: was a newline dropped there, and was a code block closed and reopened? */
  datatype CutMark = CutMark(newline: bool, reopened: bool)

  function Marks(s: string): seq<CutMark>
    requires !GetsStuck(s)
    decreases |s|
  {
    if |s| <= MAX then []
    else
      Progress(s);
      [CutMark(NewlineAt(s), OpenAt(s))] + Marks(Remainder(s))
  }

  /** Undo one cut; none if the fences to be taken out are not there. */
  function Unite(chunk: string, mark: CutMark, rest: string): string {
    var glue := if mark.newline then "\n" else "";
    if !mark.reopened then chunk + glue + rest
    else if |chunk| >= 4 && chunk[|chunk| - 4..] == "\n```" && |rest| >= 4 && rest[..4] == "```\n"
    then chunk[..|chunk| - 4] + glue + rest[4..]
    else ""
  }

  function United(chunks: seq<string>, marks: seq<CutMark>): string
    requires |chunks| == |marks| + 1
  {
    if marks == [] then chunks[0] else Unite(chunks[0], marks[0], United(chunks[1..], marks[1..]))
  }

  lemma UniteUndoesCut(s: string)
    requires |s| > MAX
    ensures Unite(Chunk(s), CutMark(NewlineAt(s), OpenAt(s)), Remainder(s)) == s
  {
    var cut := CutAt(s);
    var head, tail := s[..cut], s[cut + if NewlineAt(s) then 1 else 0..];
    if NewlineAt(s) {
      assert s == head + "\n" + tail;
    } else {
      assert s == head + "" + tail;
    }
    if OpenAt(s) {
      assert Chunk(s) == head + "\n```" && Remainder(s) == "```\n" + tail;
      assert Chunk(s)[..|Chunk(s)| - 4] == head && Remainder(s)[4..] == tail;
    } else {
      assert Chunk(s) == head && Remainder(s) == tail;
    }
  }

  /** Nothing is lost: taking out the fences put in at the cuts and joining gives the message back. */
  lemma {:induction false} UnitedIsMessage(s: string)
    requires !GetsStuck(s)
    ensures |Chunks(s)| == |Marks(s)| + 1
    ensures United(Chunks(s), Marks(s)) == s
    decreases |s|
  {
    if |s| > MAX {
      Progress(s);
      UnitedIsMessage(Remainder(s));
      UniteUndoesCut(s);
      assert Chunks(s)[1..] == Chunks(Remainder(s)) && Marks(s)[1..] == Marks(Remainder(s));
    }
  }

  /** With short lines every cut is at a newline. */
  lemma {:induction false} ShortLinesCutAtNewlines(s: string)
    requires LinesAtMost(s, SHORT) && !GetsStuck(s)
    ensures forall i :: 0 <= i < |Marks(s)| ==> Marks(s)[i].newline
    decreases |s|
  {
    if |s| > MAX {
      Progress(s);
      ShortCut(s);
      ShortRemainder(s);
      ShortLinesCutAtNewlines(Remainder(s));
    }
  }

  // ---- closed and reopened just where the message is inside a code block ----

  /** A chunk's own text: without the fence line put before it. */
  function Own(x: string, fenced: bool): string {
    if fenced && |x| >= 4 then x[4..] else x
  }

  ghost predicate Opened(s: string, fenced: bool) {
    fenced ==> |s| >= 4 && s[..4] == "```\n"
  }

  /** The message's own text, chunk by chunk. */
  function Segments(s: string, fenced: bool): (segs: seq<string>)
    requires !GetsStuck(s)
    ensures segs != []
    decreases |s|
  {
    if |s| <= MAX then [Own(s, fenced)]
    else
      Progress(s);
      [Own(s[..CutAt(s)], fenced)] + Segments(Remainder(s), OpenAt(s))
  }

  lemma {:induction false} OneMarkPerCut(s: string, fenced: bool)
    requires !GetsStuck(s)
    ensures |Segments(s, fenced)| == |Marks(s)| + 1
    decreases |s|
  {
    if |s| > MAX {
      Progress(s);
      OneMarkPerCut(Remainder(s), OpenAt(s));
    }
  }

  function Total(segs: seq<string>): nat {
    if segs == [] then 0 else Fences(segs[0]) + Total(segs[1..])
  }

  lemma {:induction false} TotalJoin(segs: seq<string>)
    requires segs != []
    ensures Fences(Join(segs, '\n')) == Total(segs)
    decreases |segs|
  {
    if |segs| > 1 {
      TotalJoin(segs[1..]);
      FencesOverNewline(segs[0], Join(segs[1..], '\n'));
    }
  }

  lemma OwnFences(x: string, fenced: bool)
    requires Opened(x, fenced)
    ensures Fences(x) == Fences(Own(x, fenced)) + CarryOf(fenced)
  {
    if fenced {
      FenceBefore(x[4..]);
      assert x == "```\n" + x[4..];
    }
  }

  lemma RemainderOpened(s: string)
    requires |s| > MAX
    ensures Opened(Remainder(s), OpenAt(s))
            && Own(Remainder(s), OpenAt(s)) == s[CutAt(s) + if NewlineAt(s) then 1 else 0..]
  {
  }

  /** The chunks' own text is the message, cut at newlines. */
  lemma {:induction false} SegmentsAreMessage(s: string, fenced: bool)
    requires LinesAtMost(s, SHORT) && !GetsStuck(s) && Opened(s, fenced)
    ensures Join(Segments(s, fenced), '\n') == Own(s, fenced)
    decreases |s|
  {
    if |s| > MAX {
      ShortCut(s);
      ShortRound(s, fenced);
      SegmentsFrom(s, fenced);
      RemainderOpened(s);
      SegmentsAreMessage(Remainder(s), OpenAt(s));
      JoinFirst(Own(s[..CutAt(s)], fenced), Segments(Remainder(s), OpenAt(s)));
      OwnCut(s, CutAt(s), fenced);
    }
  }

  lemma JoinFirst(first: string, rest: seq<string>)
    requires rest != []
    ensures Join([first] + rest, '\n') == first + "\n" + Join(rest, '\n')
  {
    assert ([first] + rest)[1..] == rest;
  }

  lemma OwnCut(s: string, c: nat, fenced: bool)
    requires 4 <= c < |s| && s[c] == '\n'
    ensures Own(s[..c], fenced) + "\n" + s[c + 1..] == Own(s, fenced)
  {
  }

  function CarryOf(fenced: bool): nat {
    if fenced then 1 else 0
  }

  predicate Odd(n: nat) {
    n % 2 == 1
  }

  lemma Carry(fenced: bool, own: nat, head: nat, left: nat)
    requires head == own + CarryOf(fenced)
    ensures Odd(CarryOf(head % 2 != 0) + left) <==> Odd(CarryOf(fenced) + (own + left))
  {
  }

  lemma FirstTotal(own: string, later: seq<string>, n: nat)
    requires n <= |later|
    ensures Total(([own] + later)[..n + 1]) == Fences(own) + Total(later[..n])
  {
    assert ([own] + later)[..n + 1] == [own] + later[..n];
    assert ([own] + later[..n])[1..] == later[..n];
  }

  /** Past the first segment, an open code block stands for its fences. */
  lemma FencesShift(fenced: bool, own: string, head: string, later: seq<string>, n: nat)
    requires Fences(head) == Fences(own) + CarryOf(fenced) && n <= |later|
    ensures Odd(CarryOf(fenced) + Total(([own] + later)[..n + 1])) <==>
              Odd(CarryOf(Fences(head) % 2 != 0) + Total(later[..n]))
  {
    FirstTotal(own, later, n);
    Carry(fenced, Fences(own), Fences(head), Total(later[..n]));
  }

  lemma HeadFences(s: string, fenced: bool)
    requires |s| > MAX && Opened(s, fenced) && CutAt(s) >= 4
    ensures Fences(s[..CutAt(s)]) == Fences(Own(s[..CutAt(s)], fenced)) + CarryOf(fenced)
  {
    var head := s[..CutAt(s)];
    assert head[..4] == s[..4];
    OwnFences(head, fenced);
  }

  /** Behind its first n segments the message is inside a code block, a reopened one in front counted. */
  predicate InsideAfter(s: string, fenced: bool, n: nat)
    requires !GetsStuck(s) && n <= |Segments(s, fenced)|
  {
    Odd(CarryOf(fenced) + Total(Segments(s, fenced)[..n]))
  }

  lemma SegmentsFrom(s: string, fenced: bool)
    requires |s| > MAX && !GetsStuck(s)
    ensures !GetsStuck(Remainder(s))
    ensures Segments(s, fenced) == [Own(s[..CutAt(s)], fenced)] + Segments(Remainder(s), OpenAt(s))
    ensures Marks(s) == [CutMark(NewlineAt(s), OpenAt(s))] + Marks(Remainder(s))
  {
    Progress(s);
  }

  lemma InsideFrom(s: string, fenced: bool, n: nat)
    requires |s| > MAX && !GetsStuck(s) && !GetsStuck(Remainder(s)) && Opened(s, fenced) && CutAt(s) >= 4
    requires n < |Segments(s, fenced)| == |Segments(Remainder(s), OpenAt(s))| + 1
    ensures InsideAfter(s, fenced, n + 1) <==> InsideAfter(Remainder(s), OpenAt(s), n)
  {
    SegmentsFrom(s, fenced);
    HeadFences(s, fenced);
    var head := s[..CutAt(s)];
    FencesShift(fenced, Own(head, fenced), head, Segments(Remainder(s), OpenAt(s)), n);
  }

  lemma InsideAtFirst(s: string, fenced: bool)
    requires !GetsStuck(s)
    ensures InsideAfter(s, fenced, 0) <==> fenced
  {
    assert Segments(s, fenced)[..0] == [];
  }

  /** A round on short lines: it gets shorter, and what is left is again such a message. */
  lemma ShortRound(s: string, fenced: bool)
    requires |s| > MAX && LinesAtMost(s, SHORT) && !GetsStuck(s)
    ensures CutAt(s) >= 4 && |Remainder(s)| < |s|
    ensures !GetsStuck(Remainder(s)) && LinesAtMost(Remainder(s), SHORT) && Opened(Remainder(s), OpenAt(s))
    ensures |Segments(s, fenced)| == |Segments(Remainder(s), OpenAt(s))| + 1
    ensures |Segments(Remainder(s), OpenAt(s))| == |Marks(Remainder(s))| + 1
  {
    Progress(s);
    ShortCut(s);
    ShortRemainder(s);
    RemainderOpened(s);
    SegmentsFrom(s, fenced);
    OneMarkPerCut(Remainder(s), OpenAt(s));
  }

  lemma MarksFrom(s: string, i: nat)
    requires !GetsStuck(s) && i < |Marks(s)|
    ensures |s| > MAX && !GetsStuck(Remainder(s)) && i <= |Marks(Remainder(s))|
    ensures Marks(s)[i].reopened == if i == 0 then OpenAt(s) else Marks(Remainder(s))[i - 1].reopened
  {
    Progress(s);
  }

  lemma {:induction false} ReopenedIff(s: string, fenced: bool, i: nat)
    requires LinesAtMost(s, SHORT) && !GetsStuck(s) && Opened(s, fenced) && i < |Marks(s)|
    ensures |Segments(s, fenced)| > i + 1
    ensures Marks(s)[i].reopened <==> InsideAfter(s, fenced, i + 1)
    decreases |s|
  {
    MarksFrom(s, i);
    ShortRound(s, fenced);
    InsideFrom(s, fenced, i);
    if i == 0 {
      InsideAtFirst(Remainder(s), OpenAt(s));
    } else {
      ReopenedIff(Remainder(s), OpenAt(s), i - 1);
    }
  }

  /** With short lines, a cut closes and reopens a code block exactly when the message up to there is inside one. */
  lemma ReopenedIffInside(message: string, i: nat)
    requires LinesAtMost(message, SHORT) && !GetsStuck(message) && i < |Marks(message)|
    ensures var segs := Segments(message, false);
      && Join(segs, '\n') == message && |segs| > i + 1
      && (Marks(message)[i].reopened <==> Fences(Join(segs[..i + 1], '\n')) % 2 == 1)
  {
    SegmentsAreMessage(message, false);
    ReopenedIff(message, false, i);
    TotalJoin(Segments(message, false)[..i + 1]);
  }

  // ---- the code ----

  /** The loop's body, past the test for the last chunk: a chunk, and what is left. */
  method Round(s: string, inCodeBlock: bool) returns (chunk: string, rest: string)
    requires |s| > MAX && !inCodeBlock
    ensures chunk == Chunk(s) && rest == Remainder(s)
  {
    var limit := if inCodeBlock then MAX - 4 else MAX;
    var searchLimit := if inCodeBlock then limit else limit - 4;
    if searchLimit > |s| {
      searchLimit := |s|;
    }
    var cut := LastIndex(s[..searchLimit], '\n');
    if cut <= 0 {
      cut := searchLimit;
    }
    assert cut == CutAt(s);
    chunk := s[..cut];
    var endsInCodeBlock := inCodeBlock != (Fences(chunk) % 2 != 0);
    if endsInCodeBlock {
      chunk := chunk + "\n```";
    }
    assert chunk == Chunk(s);
    rest := s[cut..];
    if |rest| > 0 && rest[0] == '\n' {
      rest := rest[1..];
    }
    assert rest == s[cut + if NewlineAt(s) then 1 else 0..];
    if endsInCodeBlock {
      rest := "```\n" + rest;
    }
    assert rest == Remainder(s);
  }

  lemma OneMoreChunk(chunks: seq<string>, s: string)
    requires |s| > MAX && !GetsStuck(s)
    ensures !GetsStuck(Remainder(s)) && |Remainder(s)| < |s| && Remainder(s) != ""
    ensures chunks + Chunks(s) == (chunks + [Chunk(s)]) + Chunks(Remainder(s))
  {
    Progress(s);
  }

  /** splitMessage, on the messages for which it ends. */
  method SplitMessage(message: string) returns (chunks: seq<string>)
    requires !GetsStuck(message)
    ensures chunks == Chunks(message)
  {
    if |message| <= MAX {
      return [message];
    }
    var s := message;
    chunks := [];
    var inCodeBlock := false;
    while |s| > 0
      invariant !inCodeBlock && !GetsStuck(s) && s != ""
      invariant Chunks(message) == chunks + Chunks(s)
      decreases |s|
    {
      var limit := if inCodeBlock then MAX - 4 else MAX;
      if |s| <= limit {
        chunks := chunks + [s];
        break;
      }
      OneMoreChunk(chunks, s);
      var chunk, rest := Round(s, inCodeBlock);
      chunks, s := chunks + [chunk], rest;
      inCodeBlock := false;
    }
  }

  // ---- stripCodeBlockLanguage ----

  /** How many of the lines are fence lines. */
  function FenceLines(lines: seq<string>): nat {
    if lines == [] then 0
    else FenceLines(lines[..|lines| - 1]) + if FenceFirst(lines[|lines| - 1]) then 1 else 0
  }

  /** Does line i start inside a code block? The fence lines before it are then odd in number. */
  predicate Inside(lines: seq<string>, i: nat)
    requires i <= |lines|
  {
    FenceLines(lines[..i]) % 2 == 1
  }

  lemma InsideNext(lines: seq<string>, i: nat)
    requires i < |lines|
    ensures Inside(lines, i + 1) <==> (if FenceFirst(lines[i]) then !Inside(lines, i) else Inside(lines, i))
  {
    assert lines[..i + 1][..i] == lines[..i];
  }

  /** The length of the run of backticks a line starts with. */
  function Run(line: string): (n: nat)
    ensures n <= |line|
    ensures forall i :: 0 <= i < n ==> line[i] == '`'
    ensures n < |line| ==> line[n] != '`'
  {
    if line == "" || line[0] != '`' then 0 else 1 + Run(line[1..])
  }

  /** A fence line outside a block opens one; only such a line changes. */
  function StripLine(lines: seq<string>, i: nat): string
    requires i < |lines|
  {
    if FenceFirst(lines[i]) && !Inside(lines, i) then lines[i][..Run(lines[i])] else lines[i]
  }

  function StripLines(lines: seq<string>): (r: seq<string>)
    ensures |r| == |lines|
  {
    seq(|lines|, i requires 0 <= i < |lines| => StripLine(lines, i))
  }

  function Strip(s: string): string {
    Join(StripLines(Split(s, '\n')), '\n')
  }

  lemma {:induction false} RunOfRun(line: string, n: nat)
    requires n == Run(line)
    ensures Run(line[..n]) == n
    decreases |line|
  {
    if n > 0 {
      RunOfRun(line[1..], n - 1);
      assert line[..n][1..] == line[1..][..n - 1];
    }
  }

  lemma StripLineKeeps(lines: seq<string>, i: nat)
    requires i < |lines|
    ensures FenceFirst(StripLine(lines, i)) == FenceFirst(lines[i])
    ensures FenceFirst(lines[i]) ==> Run(StripLine(lines, i)) == Run(lines[i])
  {
    var line := lines[i];
    if FenceFirst(line) {
      assert Run(line) >= 3;
      RunOfRun(line, Run(line));
    }
  }

  /** The opening fence lines, and only they, change: each to the backticks it starts with. */
  lemma StripsOpeningFences(lines: seq<string>, i: nat)
    requires i < |lines|
    ensures var r := StripLines(lines)[i];
            if FenceFirst(lines[i]) && !Inside(lines, i) then
              && |r| >= 3 && (forall c :: c in r ==> c == '`')
              && r <= lines[i] && (r < lines[i] ==> lines[i][|r|] != '`')
            else r == lines[i]
  {
    if FenceFirst(lines[i]) {
      assert Run(lines[i]) >= 3;
    }
  }

  /** Stripping leaves every fence line one, so blocks open and close where they did. */
  lemma {:induction false} SameFenceLines(lines: seq<string>, i: nat)
    requires i <= |lines|
    ensures FenceLines(StripLines(lines)[..i]) == FenceLines(lines[..i])
    decreases i
  {
    if i > 0 {
      SameFenceLines(lines, i - 1);
      StripLineKeeps(lines, i - 1);
      assert StripLines(lines)[..i][..i - 1] == StripLines(lines)[..i - 1];
      assert lines[..i][..i - 1] == lines[..i - 1];
    }
  }

  lemma StripLinesTwice(lines: seq<string>)
    ensures StripLines(StripLines(lines)) == StripLines(lines)
  {
    var once := StripLines(lines);
    forall i | 0 <= i < |lines|
      ensures StripLine(once, i) == once[i]
    {
      SameFenceLines(lines, i);
      StripLineKeeps(lines, i);
      if FenceFirst(once[i]) && !Inside(once, i) {
        RunOfRun(lines[i], Run(lines[i]));
      }
    }
  }

  /** A second pass changes nothing. */
  lemma StripTwice(s: string)
    ensures Strip(Strip(s)) == Strip(s)
  {
    var lines := Split(s, '\n');
    var once := StripLines(lines);
    forall i | 0 <= i < |once|
      ensures '\n' !in once[i]
    {
      assert '\n' !in lines[i];
    }
    SplitJoin(once, '\n');
    StripLinesTwice(lines);
  }

  method CountRun(line: string) returns (n: nat)
    ensures n == Run(line)
  {
    n := 0;
    while n < |line| && line[n] == '`'
      invariant 0 <= n <= |line|
      invariant n <= Run(line)
    {
      n := n + 1;
    }
  }

  lemma AllStripped(lines: seq<string>, was: seq<string>)
    requires |lines| == |was| && forall k :: 0 <= k < |was| ==> lines[k] == StripLine(was, k)
    ensures lines == StripLines(was)
  {
  }

  method StripCodeBlockLanguage(s: string) returns (r: string)
    ensures r == Strip(s)
  {
    ghost var was := Split(s, '\n');
    var parts := Split(s, '\n');
    var lines := new string[|parts|](i requires 0 <= i < |parts| => parts[i]);
    var inCodeBlock := false;
    for i := 0 to lines.Length
      invariant lines.Length == |was|
      invariant inCodeBlock <==> Inside(was, i)
      invariant forall k :: 0 <= k < i ==> lines[k] == StripLine(was, k)
      invariant forall k :: i <= k < |was| ==> lines[k] == was[k]
    {
      InsideNext(was, i);
      var line := lines[i];
      if !FenceFirst(line) {
        continue;
      }
      if inCodeBlock {
        inCodeBlock := false;
        continue;
      }
      inCodeBlock := true;
      var n := CountRun(line);
      lines[i] := line[..n];
    }
    AllStripped(lines[..], was);
    r := Join(lines[..], '\n');
  }
}
