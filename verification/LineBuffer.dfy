/** acp/helpers/line_buffer.go: fragments in, whole lines out, with a timer that shows partial lines early. */
module LineBuffers {
  import opened Seqs
  import opened Strings

  const NL: char := '\n'

  /** The lines of a text: split at newlines, without the empty piece after a final newline. */
  function Lines(text: string): seq<string> {
    Shown(Split(text, NL))
  }

  /** Complete lines, and the open line if it has text. */
  function Shown(parts: seq<string>): seq<string>
    requires parts != []
  {
    if parts[|parts| - 1] == "" then parts[..|parts| - 1] else parts
  }

  /** Splitting a text that arrives in two parts: the second continues the open line of the first. */
  lemma {:induction false} SplitContinues(a: string, b: string)
    ensures var parts := Split(a, NL);
            Split(a + b, NL) == parts[..|parts| - 1] + Split(parts[|parts| - 1] + b, NL)
    decreases |a|
  {
    if a == "" {
      assert a + b == b && Split(a, NL) == [""];
      assert "" + b == b;
    } else {
      SplitContinues(a[1..], b);
      assert (a + b)[0] == a[0] && (a + b)[1..] == a[1..] + b;
      SplitHeadContinues(a[0], Split(a[1..], NL), Split(a, NL), Split(a[1..] + b, NL), Split(a + b, NL), b);
    }
  }

  /** One character in front of both. */
  lemma SplitHeadContinues(c: char, rest: seq<string>, parts: seq<string>, restB: seq<string>, partsB: seq<string>,
                           b: string)
    requires rest != [] && restB == rest[..|rest| - 1] + Split(rest[|rest| - 1] + b, NL)
    requires parts == if c == NL then [""] + rest else [[c] + rest[0]] + rest[1..]
    requires restB != [] && partsB == if c == NL then [""] + restB else [[c] + restB[0]] + restB[1..]
    ensures partsB == parts[..|parts| - 1] + Split(parts[|parts| - 1] + b, NL)
  {
    if c == NL {
      NewlineBefore(rest, Split(rest[|rest| - 1] + b, NL));
    } else if |rest| == 1 {
      var t := parts[0] + b;
      assert t[0] == c && t[1..] == rest[0] + b;
      assert parts[..0] == [];
    } else {
      HeadBefore(c, rest, Split(rest[|rest| - 1] + b, NL));
    }
  }

  lemma NewlineBefore(rest: seq<string>, tail: seq<string>)
    requires rest != []
    ensures var parts := [""] + rest;
      parts[|parts| - 1] == rest[|rest| - 1] && [""] + (rest[..|rest| - 1] + tail) == parts[..|parts| - 1] + tail
  {
    var parts := [""] + rest;
    assert parts[..|parts| - 1] == [""] + rest[..|rest| - 1];
  }

  lemma HeadBefore(c: char, rest: seq<string>, tail: seq<string>)
    requires |rest| > 1
    ensures var parts, restB := [[c] + rest[0]] + rest[1..], rest[..|rest| - 1] + tail;
      && parts[|parts| - 1] == rest[|rest| - 1]
      && [[c] + restB[0]] + restB[1..] == parts[..|parts| - 1] + tail
  {
    var last := |rest| - 1;
    var parts, restB := [[c] + rest[0]] + rest[1..], rest[..last] + tail;
    assert parts[..last] == [[c] + rest[0]] + rest[1..last];
    assert restB[0] == rest[0] && restB[1..] == rest[1..last] + tail;
  }

  lemma {:induction false} SplitNoNewline(s: string)
    requires NL !in s
    ensures Split(s, NL) == [s]
  {
    SplitNone(s, NL);
  }

  // ---- the buffer as a value, over an output that may refuse ----

  /** `accepts(k)`: the k-th call of the output function succeeds. */
  type Verdicts = nat -> bool

  datatype State = State(buffer: string, currentLine: string, hasOutput: bool, display: seq<string>, calls: nat)
  {
    ghost predicate Valid() {
      NL !in buffer && Tidy()
    }

    ghost predicate Tidy() {
      && NL !in currentLine
      && (hasOutput <==> currentLine != "")
      && (hasOutput ==> display != [] && display[|display| - 1] == currentLine)
    }

    /** The text of the open line. */
    function Open(): string {
      currentLine + buffer
    }

    /** Lines that will not change any more. */
    function Done(): seq<string>
      requires hasOutput ==> display != []
    {
      if hasOutput then display[..|display| - 1] else display
    }

    /** output(line, hasOutput): append a line, or replace the one shown last. */
    function Output(line: string, accepts: Verdicts): (State, bool)
      requires hasOutput ==> display != []
    {
      if accepts(calls) then (this.(display := Done() + [line], calls := calls + 1), true)
      else (this.(calls := calls + 1), false)
    }

    /** processBuffer on the unprocessed `content`; false when an output was refused. */
    function Process(content: string, accepts: Verdicts): (State, bool)
      requires hasOutput ==> display != []
      decreases |content|
    {
      match Cut(content, NL)
      case NotFound => (this.(buffer := content), true)
      case Found(line, rest) =>
        var (s, ok) := Output(currentLine + line, accepts);
        if !ok then (s.(buffer := currentLine + rest), false)
        else s.(currentLine := "", hasOutput := false).Process(rest, accepts)
    }

    function Write(fragment: string, accepts: Verdicts): (State, bool)
      requires hasOutput ==> display != []
    {
      this.(buffer := "").Process(buffer + fragment, accepts)
    }

    function TimerFlush(accepts: Verdicts): State
      requires hasOutput ==> display != []
    {
      if buffer == "" then this
      else
        var (s, ok) := Output(Open(), accepts);
        if !ok then s else s.(currentLine := Open(), hasOutput := true, buffer := "")
    }

    function Flush(accepts: Verdicts): (State, bool)
      requires hasOutput ==> display != []
    {
      if buffer == "" then (this, true)
      else
        var (s, ok) := Output(Open(), accepts);
        if !ok then (s, false) else (s.(currentLine := "", hasOutput := false, buffer := ""), true)
    }
  }

  const FRESH := State("", "", false, [], 0)

  // ---- one operation ----

  /** One accepted line: it joins the done lines, and the rest of the text starts a new one. */
  lemma LineOut(s: State, line: string, rest: string, accepts: Verdicts)
    requires s.Tidy() && NL !in line && accepts(s.calls)
    ensures var u := s.Output(s.currentLine + line, accepts).0.(currentLine := "", hasOutput := false);
            && u.Tidy() && u.currentLine + rest == rest
            && u.Done() + Split(rest, NL) == s.Done() + Split(s.currentLine + (line + [NL] + rest), NL)
  {
    var full := s.currentLine + line;
    assert s.currentLine + (line + [NL] + rest) == full + [NL] + rest;
    SplitFirst(full, rest, NL);
    assert (s.Done() + [full]) + Split(rest, NL) == s.Done() + ([full] + Split(rest, NL));
  }

  /** Accepted lines go out whole: done lines and open line are the old ones with `content` split in. */
  lemma {:induction false} ProcessSplits(s: State, content: string, accepts: Verdicts)
    requires s.Tidy()
    ensures var (t, ok) := s.Process(content, accepts);
            ok ==> t.Valid() && t.Done() + [t.Open()] == s.Done() + Split(s.currentLine + content, NL)
    decreases |content|
  {
    var cut := Cut(content, NL);
    if cut.NotFound? {
      SplitNoNewline(s.currentLine + content);
    } else if accepts(s.calls) {
      var u := s.Output(s.currentLine + cut.before, accepts).0.(currentLine := "", hasOutput := false);
      LineOut(s, cut.before, cut.after, accepts);
      assert s.Process(content, accepts) == u.Process(cut.after, accepts);
      ProcessSplits(u, cut.after, accepts);
    }
  }

  lemma TimerKeeps(s: State, accepts: Verdicts)
    requires s.Valid()
    ensures var t := s.TimerFlush(accepts); t.Valid() && t.Done() == s.Done() && t.Open() == s.Open()
  {
    if s.buffer != "" {
      assert s.Open() + "" == s.Open();
    }
  }

  /** An accepted timer flush shows the open line, all of it, behind the done lines, and nothing is left to show. */
  lemma TimerShows(s: State, accepts: Verdicts)
    requires s.Valid() && s.buffer != "" && accepts(s.calls)
    ensures var t := s.TimerFlush(accepts);
            && t.display == s.Done() + [s.Open()] && t.buffer == "" && t.hasOutput && t.currentLine == s.Open()
            && t.calls == s.calls + 1 && t.TimerFlush(accepts) == t
  {
  }

  // ---- runs ----

  datatype Event = WriteText(fragment: string) | TimerFires

  function Apply(s: State, e: Event, accepts: Verdicts): (State, bool)
    requires s.hasOutput ==> s.display != []
  {
    match e
    case WriteText(f) => s.Write(f, accepts)
    case TimerFires => (s.TimerFlush(accepts), true)
  }

  /** The state after the events, and whether every Write among them succeeded. */
  ghost function Exec(events: seq<Event>, accepts: Verdicts): (r: (State, bool))
    ensures r.1 ==> r.0.Valid() && r.0.Done() + [r.0.Open()] == Split(Text(events), NL)
    decreases |events|
  {
    if events == [] then
      assert FRESH.Open() == "" && FRESH.Done() == [];
      (FRESH, true)
    else
      var last := |events| - 1;
      var (s, ok) := Exec(events[..last], accepts);
      if !ok then (s, false)
      else
        EventSplits(s, events[last], Text(events[..last]), accepts);
        Apply(s, events[last], accepts)
  }

  /** Everything written. */
  function Text(events: seq<Event>): string {
    if events == [] then ""
    else
      var last := |events| - 1;
      Text(events[..last]) + (if events[last].WriteText? then events[last].fragment else "")
  }

  /** More text continues the open line. */
  lemma TextContinues(done: seq<string>, open: string, text: string, f: string)
    requires done + [open] == Split(text, NL)
    ensures Split(text + f, NL) == done + Split(open + f, NL)
  {
    var parts := Split(text, NL);
    assert parts[|parts| - 1] == open && parts[..|parts| - 1] == done;
    SplitContinues(text, f);
  }

  lemma OpenContinues(s: State, f: string, text: string)
    requires s.Tidy() && s.Done() + [s.Open()] == Split(text, NL)
    ensures Split(text + f, NL) == s.Done() + Split(s.currentLine + (s.buffer + f), NL)
  {
    TextContinues(s.Done(), s.Open(), text, f);
    Regroup(s.currentLine, s.buffer, f);
  }

  lemma WriteSplits(s: State, f: string, text: string, accepts: Verdicts)
    requires s.Tidy() && s.Done() + [s.Open()] == Split(text, NL)
    ensures var (t, ok) := s.Write(f, accepts);
            ok ==> t.Valid() && t.Done() + [t.Open()] == Split(text + f, NL)
  {
    OpenContinues(s, f, text);
    ProcessSplits(s.(buffer := ""), s.buffer + f, accepts);
  }

  lemma EventSplits(s: State, e: Event, text: string, accepts: Verdicts)
    requires s.Valid() && s.Done() + [s.Open()] == Split(text, NL)
    ensures var (t, ok) := Apply(s, e, accepts);
            ok ==> t.Valid() && t.Done() + [t.Open()] == Split(text + (if e.WriteText? then e.fragment else ""), NL)
  {
    match e
    case TimerFires =>
      TimerKeeps(s, accepts);
      assert text + "" == text;
    case WriteText(f) =>
      WriteSplits(s, f, text, accepts);
  }

  /** A Flush that is accepted completes the display. */
  lemma FlushShows(s: State, accepts: Verdicts)
    requires s.Valid()
    ensures var (t, flushed) := s.Flush(accepts); flushed ==> t.display == Shown(s.Done() + [s.Open()])
  {
    var parts := s.Done() + [s.Open()];
    assert parts[|parts| - 1] == s.Open() && parts[..|parts| - 1] == s.Done();
    if s.buffer == "" {
      assert s.Open() == s.currentLine;
      if s.hasOutput {
        assert s.display == s.Done() + [s.currentLine];
      }
    }
  }

  /** Flush succeeds unless its output is refused; one that showed something leaves nothing open. */
  lemma FlushEndsLine(s: State, accepts: Verdicts)
    requires s.Valid()
    ensures var (t, flushed) := s.Flush(accepts);
            && (flushed <==> s.buffer == "" || accepts(s.calls))
            && (s.buffer == "" ==> t == s)
            && (s.buffer != "" && flushed ==>
                  && t.Valid() && t.Open() == "" && t.Done() == s.Done() + [s.Open()] && t.calls == s.calls + 1)
  {
  }

  /**
   However the text is cut into writes and wherever the timer fires (and even if a timer's output is
   refused), as long as every Write succeeded: after one successful Flush the display is the text's
   lines.
   */
  lemma StreamingRefinesSplit(events: seq<Event>, accepts: Verdicts)
    ensures var (s, ok) := Exec(events, accepts);
            ok ==>
              var (t, flushed) := s.Flush(accepts);
              flushed ==> t.display == Lines(Text(events))
  {
    var (s, ok) := Exec(events, accepts);
    if ok {
      FlushShows(s, accepts);
    }
  }

  // ---- refused outputs ----

  /** A refused timer flush or Flush keeps the text for a retry: only the call count moves. */
  lemma RefusedFlushKeeps(s: State, accepts: Verdicts)
    requires s.Valid() && !accepts(s.calls)
    ensures s.TimerFlush(accepts) == s.(calls := s.TimerFlush(accepts).calls)
    ensures s.Flush(accepts).0 == s.(calls := s.Flush(accepts).0.calls)
  {
  }

  /**
   A refused line inside Write is lost, and the part of it already shown is queued a second time:
   the open text afterwards is never what it was before, whatever the line.
   */
  lemma RefusedLineIsLost(s: State, content: string, accepts: Verdicts)
    requires s.Valid() && NL in content && !accepts(s.calls)
    ensures var (t, ok) := s.Process(content, accepts);
            && !ok && t.display == s.display && t.currentLine == s.currentLine
            && t.Open() == s.currentLine + s.currentLine + Cut(content, NL).after
            && t.Open() != s.currentLine + content
  {
    var r := Cut(content, NL);
    var cl, was := s.currentLine, s.currentLine + content;
    var t := s.Process(content, accepts).0;
    assert t.Open() == cl + cl + r.after;
    if |t.Open()| == |was| {
      assert was[|cl| + |r.before|] == content[|r.before|] == NL;
      assert t.Open()[|cl| + |r.before|] == cl[|r.before|];
    }
  }

  /** A start without newlines lengthens the first piece and adds none. */
  lemma {:induction false} SplitBehind(p: string, x: string)
    requires NL !in p
    ensures |Split(p + x, NL)| == |Split(x, NL)|
    decreases |p|
  {
    if p == "" {
      assert "" + x == x;
    } else {
      assert (p + x)[0] == p[0] && (p + x)[1..] == p[1..] + x;
      SplitBehind(p[1..], x);
    }
  }

  /** One refused line: nothing is done, and one line less is left to do. */
  lemma RefusalLosesOne(s: State, line: string, rest: string)
    requires s.Tidy() && NL !in line
    ensures |Split(s.currentLine + (s.currentLine + rest), NL)| == |Split(s.currentLine + (line + [NL] + rest), NL)| - 1
  {
    SplitBehind(s.currentLine, s.currentLine + rest);
    SplitBehind(s.currentLine, rest);
    SplitBehind(s.currentLine, line + [NL] + rest);
    SplitFirst(line, rest, NL);
  }

  /** The outputs of a call are one for each line, up to the first that is refused. */
  lemma {:induction false} ProcessAcceptsIff(s: State, content: string, accepts: Verdicts)
    requires s.hasOutput ==> s.display != []
    ensures var (t, ok) := s.Process(content, accepts);
            && (t.hasOutput ==> t.display != [])
            && (ok <==> forall k :: s.calls <= k < s.calls + |Split(content, NL)| - 1 ==> accepts(k))
    decreases |content|
  {
    var cut := Cut(content, NL);
    if cut.NotFound? {
      SplitNoNewline(content);
    } else {
      SplitFirst(cut.before, cut.after, NL);
      if accepts(s.calls) {
        var u := s.Output(s.currentLine + cut.before, accepts).0.(currentLine := "", hasOutput := false);
        assert s.Process(content, accepts) == u.Process(cut.after, accepts);
        ProcessAcceptsIff(u, cut.after, accepts);
      }
    }
  }

  lemma {:induction false} RefusalShortens(s: State, content: string, accepts: Verdicts)
    requires s.Tidy() && !s.Process(content, accepts).1
    ensures var t := s.Process(content, accepts).0;
            && (t.hasOutput ==> t.display != [])
            && |t.Done()| + |Split(t.Open(), NL)| == |s.Done()| + |Split(s.currentLine + content, NL)| - 1
    decreases |content|
  {
    var cut := Cut(content, NL);
    if accepts(s.calls) {
      var u := s.Output(s.currentLine + cut.before, accepts).0.(currentLine := "", hasOutput := false);
      LineOut(s, cut.before, cut.after, accepts);
      assert s.Process(content, accepts) == u.Process(cut.after, accepts);
      RefusalShortens(u, cut.after, accepts);
      assert |u.Done() + Split(cut.after, NL)| == |s.Done() + Split(s.currentLine + content, NL)|;
    } else {
      RefusalLosesOne(s, cut.before, cut.after);
      assert s.currentLine + (s.currentLine + cut.after) == (s.currentLine + s.currentLine) + cut.after;
      assert s.Process(content, accepts).0.Open() == s.currentLine + (s.currentLine + cut.after);
    }
  }

  /**
   The text is kept, as done lines and open text, if and only if no line of the call was refused; a refusal
   costs exactly one line, whichever line it is.
   */
  lemma ProcessKeepsIff(s: State, content: string, accepts: Verdicts)
    requires s.Tidy()
    ensures var (t, ok) := s.Process(content, accepts);
            && (t.hasOutput ==> t.display != [])
            && (ok <==> forall k :: s.calls <= k < s.calls + |Split(content, NL)| - 1 ==> accepts(k))
            && (ok <==> t.Done() + Split(t.Open(), NL) == s.Done() + Split(s.currentLine + content, NL))
            && (!ok ==> |t.Done() + Split(t.Open(), NL)| == |s.Done() + Split(s.currentLine + content, NL)| - 1)
  {
    var (t, ok) := s.Process(content, accepts);
    ProcessAcceptsIff(s, content, accepts);
    if ok {
      ProcessSplits(s, content, accepts);
      SplitNoNewline(t.Open());
    } else {
      RefusalShortens(s, content, accepts);
    }
  }

  /** LineBuffer, as the program keeps it, with the display its output function draws. */
  class LineBuffer {
    var buffer: string
    var currentLine: string
    var hasOutput: bool
    var timerRunning: bool
    var display: seq<string>
    var calls: nat
    const accepts: Verdicts

    ghost function View(): State
      reads this
    {
      State(buffer, currentLine, hasOutput, display, calls)
    }

    ghost predicate Valid()
      reads this
    {
      hasOutput ==> display != []
    }

    constructor (accepts: Verdicts)
      ensures Valid() && View() == FRESH && !timerRunning && this.accepts == accepts
    {
      buffer, currentLine, hasOutput, timerRunning := "", "", false, false;
      display, calls, this.accepts := [], 0, accepts;
    }

    method Output(line: string) returns (ok: bool)
      requires Valid()
      modifies this`display, this`calls
      ensures Valid() && (View(), ok) == old(View()).Output(line, accepts)
    {
      ok := accepts(calls);
      calls := calls + 1;
      if ok {
        display := (if hasOutput then display[..|display| - 1] else display) + [line];
      }
    }

    method Write(fragment: string) returns (ok: bool)
      requires Valid()
      modifies this
      ensures Valid()
      ensures (View(), ok) == old(View()).Write(fragment, accepts)
      ensures ok ==> (timerRunning <==> buffer != "")
    {
      ghost var before := View();
      buffer := buffer + fragment;
      assert View().(buffer := "") == before.(buffer := "");
      ok := ProcessBuffer();
    }

    method ProcessBuffer() returns (ok: bool)
      requires Valid()
      modifies this
      ensures Valid()
      ensures (View(), ok) == old(View().(buffer := "").Process(buffer, accepts))
      ensures ok ==> (timerRunning <==> buffer != "")
    {
      var content := buffer;
      ghost var goal := View().(buffer := "").Process(buffer, accepts);
      buffer := "";
      while true
        invariant Valid() && buffer == ""
        invariant View().Process(content, accepts) == goal
        decreases |content|
      {
        var cut := Cut(content, NL);
        if cut.NotFound? {
          break;
        }
        var line := cut.before;
        content := cut.after;
        var fullLine := currentLine + line;
        ok := Output(fullLine);
        if !ok {
          buffer := currentLine + content;
          return false;
        }
        currentLine, hasOutput := "", false;
      }
      buffer := content;
      timerRunning := content != "";
      return true;
    }

    method TimerFlush()
      requires Valid()
      modifies this
      ensures Valid() && View() == old(View()).TimerFlush(accepts) && !timerRunning
    {
      timerRunning := false;
      var content := buffer;
      if content == "" {
        return;
      }
      var fullLine := currentLine + content;
      var ok := Output(fullLine);
      if !ok {
        return;
      }
      currentLine, hasOutput, buffer := fullLine, true, "";
    }

    method Flush() returns (ok: bool)
      requires Valid()
      modifies this
      ensures Valid() && (View(), ok) == old(View()).Flush(accepts) && !timerRunning
    {
      timerRunning := false;
      var content := buffer;
      if content == "" {
        return true;
      }
      var fullLine := currentLine + content;
      ok := Output(fullLine);
      if !ok {
        return false;
      }
      currentLine, hasOutput, buffer := "", false, "";
      return true;
    }
  }
}
