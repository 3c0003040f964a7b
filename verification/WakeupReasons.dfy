/** Parsing of /sys/kernel/wakeup_reasons/last_resume_reason (readWakeupReasons). */
module WakeupReasons {
  import opened Common

  const UNKNOWN := "unknown"
  const ERROR := "error"

  /** isspace in the C locale. */
  predicate Space(ch: char): (b: bool)
    ensures b <==> ch as int == 32 || 9 <= ch as int <= 13
  {
    ch == ' ' || ch == '\t' || ch == '\n' || ch == '\r' || ch == '\U{0B}' || ch == '\U{0C}'
  }

  function TrimLeft(s: string): string {
    if s != [] && Space(s[0]) then TrimLeft(s[1..]) else s
  }

  function TrimRight(s: string): string {
    if s != [] && Space(s[|s| - 1]) then TrimRight(s[..|s| - 1]) else s
  }

  /** android::base::Trim. */
  function Trim(s: string): string {
    TrimRight(TrimLeft(s))
  }

  /** Where the first newline is, or the length of s. */
  function LineEnd(s: string): (n: nat)
    ensures n <= |s|
    ensures n < |s| ==> s[n] == '\n'
    ensures forall i :: 0 <= i < n ==> s[i] != '\n'
  {
    if s == [] || s[0] == '\n' then 0 else 1 + LineEnd(s[1..])
  }

  /** What is left of s after its first line. */
  function AfterLine(s: string): (r: string)
    requires s != []
    ensures |r| < |s|
  {
    var n := LineEnd(s);
    if n == |s| then [] else s[n + 1..]
  }

  /** The lines std::getline yields: a final newline ends a line and starts none. */
  function Lines(s: string): seq<string>
    decreases |s|
  {
    if s == [] then [] else [s[..LineEnd(s)]] + Lines(AfterLine(s))
  }

  function Unless(line: string): seq<string> {
    if line == [] then [] else [line]
  }

  /** The trimmed, nonempty ones among some lines. */
  function Kept(lines: seq<string>): seq<string> {
    if lines == [] then [] else Unless(Trim(lines[0])) + Kept(lines[1..])
  }

  /** What the first line of s contributes. */
  lemma KeptStep(s: string)
    requires s != []
    ensures Kept(Lines(s)) == Unless(Trim(s[..LineEnd(s)])) + Kept(Lines(AfterLine(s)))
  {
    var line, more := s[..LineEnd(s)], Lines(AfterLine(s));
    assert Lines(s) == [line] + more;
    assert ([line] + more)[1..] == more;
  }

  /** What the wakeup-reason file says; None is a failed read. */
  function Reasons(content: Option<string>): seq<string> {
    match content
    case None => [ERROR]
    case Some(text) =>
      var kept := Kept(Lines(text));
      if kept == [] then [UNKNOWN] else kept
  }

  lemma Shift(reasons: seq<string>, line: string, after: seq<string>)
    ensures reasons + (Unless(line) + after) == (if line == [] then reasons else reasons + [line]) + after
  {
  }

  /** The loop over the lines. */
  method ReadLines(text: string) returns (reasons: seq<string>)
    ensures reasons == Kept(Lines(text))
  {
    reasons := [];
    var rest := text;
    ghost var after := Kept(Lines(text));
    while rest != []
      invariant after == Kept(Lines(rest))
      invariant reasons + after == Kept(Lines(text))
      decreases |rest|
    {
      KeptStep(rest);
      var line := Trim(rest[..LineEnd(rest)]);
      rest := AfterLine(rest);
      after := Kept(Lines(rest));
      Shift(reasons, line, after);
      if line != [] {
        reasons := reasons + [line];
      }
    }
    assert reasons + [] == reasons;
  }

  method ReadWakeupReasons(content: Option<string>) returns (reasons: seq<string>)
    ensures reasons == Reasons(content)
  {
    if content.None? {
      return [ERROR];
    }
    if content.value == [] {
      return [UNKNOWN];
    }
    reasons := ReadLines(content.value);
    if reasons == [] {
      reasons := [UNKNOWN];
    }
  }

  // ----- joining

  /** android::base::Join with a one-character separator. */
  function Join(parts: seq<string>, separator: char): string {
    if parts == [] then []
    else if |parts| == 1 then parts[0]
    else parts[0] + [separator] + Join(parts[1..], separator)
  }

  /** s is the parts one after the other, with a separator between each and the next. */
  predicate Joined(s: string, parts: seq<string>, separator: char) {
    if parts == [] then s == []
    else
      var n := |parts[0]|;
      if |parts| == 1 then s == parts[0]
      else n < |s| && s[..n] == parts[0] && s[n] == separator && Joined(s[n + 1..], parts[1..], separator)
  }

  lemma {:induction false} JoinIsJoined(parts: seq<string>, separator: char)
    ensures Joined(Join(parts, separator), parts, separator)
  {
    if |parts| > 1 {
      var s, rest := Join(parts, separator), Join(parts[1..], separator);
      JoinIsJoined(parts[1..], separator);
      assert s == parts[0] + ([separator] + rest);
      assert s[|parts[0]| + 1..] == rest;
    }
  }

  /** Nothing else is. */
  lemma {:induction false} JoinedIsUnique(s: string, t: string, parts: seq<string>, separator: char)
    requires Joined(s, parts, separator) && Joined(t, parts, separator)
    ensures s == t
  {
    if |parts| > 1 {
      var n := |parts[0]|;
      JoinedIsUnique(s[n + 1..], t[n + 1..], parts[1..], separator);
      assert s == parts[0] + [separator] + s[n + 1..] && t == parts[0] + [separator] + t[n + 1..];
    }
  }

  // ----- the parser, step by step

  /** Trimming takes off all white space at both ends and nothing else. */
  lemma {:induction false} TrimLeftIs(s: string) returns (a: string)
    ensures s == a + TrimLeft(s) && forall i :: 0 <= i < |a| ==> Space(a[i])
    ensures TrimLeft(s) != [] ==> !Space(TrimLeft(s)[0])
  {
    a := [];
    if s != [] && Space(s[0]) {
      var rest := TrimLeftIs(s[1..]);
      a := [s[0]] + rest;
      assert s == [s[0]] + s[1..];
    }
  }

  lemma {:induction false} TrimRightIs(s: string) returns (b: string)
    ensures s == TrimRight(s) + b && forall i :: 0 <= i < |b| ==> Space(b[i])
    ensures TrimRight(s) != [] ==> !Space(TrimRight(s)[|TrimRight(s)| - 1])
  {
    b := [];
    if s != [] && Space(s[|s| - 1]) {
      var rest := TrimRightIs(s[..|s| - 1]);
      b := rest + [s[|s| - 1]];
      assert s == s[..|s| - 1] + [s[|s| - 1]];
    }
  }

  lemma TrimIs(s: string) returns (a: string, b: string)
    ensures s == a + Trim(s) + b
    ensures forall i :: 0 <= i < |a| ==> Space(a[i])
    ensures forall i :: 0 <= i < |b| ==> Space(b[i])
    ensures Trim(s) != [] ==> !Space(Trim(s)[0]) && !Space(Trim(s)[|Trim(s)| - 1])
  {
    a := TrimLeftIs(s);
    b := TrimRightIs(TrimLeft(s));
  }

  /** Without the newline at its end, if there is one. */
  function Body(s: string): string {
    if s != [] && s[|s| - 1] == '\n' then s[..|s| - 1] else s
  }

  lemma BodyOfLast(s: string)
    requires s != [] && AfterLine(s) == []
    ensures s[..LineEnd(s)] == Body(s)
  {
    assert LineEnd(s) < |s| ==> s[|s| - 1] == '\n';
  }

  lemma SliceOfPrefix(s: string, n: nat, m: nat)
    requires n < m <= |s|
    ensures s[..m][..n] == s[..n] && s[..m][n] == s[n] && s[..m][n + 1..] == s[n + 1..][..m - n - 1]
  {
  }

  lemma BodyOfMore(s: string)
    requires s != [] && AfterLine(s) != []
    ensures var n := LineEnd(s);
            n < |Body(s)| && Body(s)[..n] == s[..n] && Body(s)[n] == '\n' && Body(s)[n + 1..] == Body(AfterLine(s))
  {
    var n, rest, m := LineEnd(s), AfterLine(s), |Body(s)|;
    assert rest == s[n + 1..];
    assert |rest| == |s| - n - 1 && rest[|rest| - 1] == s[|s| - 1];
    BodyIsPrefix(s);
    BodyIsPrefix(rest);
    assert |Body(rest)| == m - n - 1;
    SliceOfPrefix(s, n, m);
  }

  lemma BodyIsPrefix(s: string)
    requires s != []
    ensures |Body(s)| == (if s[|s| - 1] == '\n' then |s| - 1 else |s|) && Body(s) == s[..|Body(s)|]
  {
  }

  /** The lines are what newlines separate; a newline at the end ends the last one. */
  lemma {:induction false} LinesAre(s: string)
    requires s != []
    ensures Lines(s) != [] && Joined(Body(s), Lines(s), '\n')
    decreases |s|
  {
    var line, rest := s[..LineEnd(s)], AfterLine(s);
    if rest == [] {
      BodyOfLast(s);
      assert Lines(s) == [line];
    } else {
      BodyOfMore(s);
      LinesAre(rest);
      assert Lines(s) == [line] + Lines(rest);
      assert ([line] + Lines(rest))[1..] == Lines(rest);
    }
  }

  /** What is kept of some lines: each line trimmed, in order, unless nothing is left of it. */
  ghost predicate IsKept(lines: seq<string>, kept: seq<string>, at: seq<nat>) {
    && |at| == |kept| && Positions(at, |lines|)
    && (forall i :: 0 <= i < |at| ==> kept[i] == Trim(lines[at[i]]) != [])
    && (forall j :: 0 <= j < |lines| && Trim(lines[j]) != [] ==> j in at)
  }

  lemma IsKeptStep(line: string, lines: seq<string>, kept: seq<string>, at: seq<nat>) returns (at': seq<nat>)
    requires IsKept(lines, kept, at)
    ensures IsKept(lines + [line], kept + Unless(Trim(line)), at')
  {
    var more := lines + [line];
    assert forall j :: 0 <= j < |lines| ==> more[j] == lines[j];
    if Trim(line) == [] {
      at' := at;
    } else {
      at' := at + [|lines|];
      forall j | 0 <= j < |more| && Trim(more[j]) != [] ensures j in at' {
        if j < |lines| { assert j in at; } else { assert at'[|at|] == j; }
      }
    }
  }

  lemma {:induction false} KeptOfMore(lines: seq<string>, line: string)
    ensures Kept(lines + [line]) == Kept(lines) + Unless(Trim(line))
  {
    if lines == [] {
      assert lines + [line] == [line] && [line][1..] == [];
    } else {
      KeptOfMore(lines[1..], line);
      assert (lines + [line])[1..] == lines[1..] + [line];
    }
  }

  lemma {:induction false} KeptAre(lines: seq<string>) returns (at: seq<nat>)
    ensures IsKept(lines, Kept(lines), at)
  {
    if lines == [] {
      at := [];
    } else {
      var p, line := lines[..|lines| - 1], lines[|lines| - 1];
      at := KeptAre(p);
      KeptOfMore(p, line);
      at := IsKeptStep(line, p, Kept(p), at);
      assert p + [line] == lines;
    }
  }

  predicate White(s: string) {
    forall i :: 0 <= i < |s| ==> Space(s[i])
  }

  lemma {:induction false} TrimOfWhite(s: string)
    requires White(s)
    ensures Trim(s) == []
  {
    if s != [] { TrimOfWhite(s[1..]); }
  }

  lemma TrimOfOther(s: string)
    ensures Trim(s) == [] ==> White(s)
  {
    var a, b := TrimIs(s);
    assert Trim(s) == [] ==> s == a + b;
  }

  /** The lines of a file, all but the newlines. */
  lemma WhiteByLines(s: string)
    requires s != []
    ensures White(s) <==> White(s[..LineEnd(s)]) && White(AfterLine(s))
  {
    var n := LineEnd(s);
    if n < |s| {
      assert s == s[..n] + [s[n]] + AfterLine(s);
    } else {
      assert s[..n] == s;
    }
  }

  lemma {:induction false} NothingKeptIff(s: string)
    ensures Kept(Lines(s)) == [] <==> White(s)
    decreases |s|
  {
    if s != [] {
      var line := s[..LineEnd(s)];
      KeptStep(s);
      NothingKeptIff(AfterLine(s));
      WhiteByLines(s);
      TrimOfOther(line);
      if White(line) { TrimOfWhite(line); }
    }
  }

  /** A failed read is an error; a file of white space, or none at all, is unknown; any other gives its
      nonempty trimmed lines. */
  lemma ReasonsAre(content: Option<string>)
    ensures content.None? ==> Reasons(content) == ["error"]
    ensures content.Some? && White(content.value) ==> Reasons(content) == ["unknown"]
    ensures content.Some? && !White(content.value) ==> Reasons(content) == Kept(Lines(content.value))
  {
    if content.Some? { NothingKeptIff(content.value); }
  }

  // ----- every reason is a clean line

  /** Nonempty, free of newlines, no white space at either end. */
  predicate Clean(s: string) {
    s != [] && !Space(s[0]) && !Space(s[|s| - 1]) && '\n' !in s
  }

  lemma {:induction false} TrimLeftEnds(s: string)
    ensures var t := TrimLeft(s); (t != [] ==> !Space(t[0]) && t[|t| - 1] == s[|s| - 1]) && multiset(t) <= multiset(s)
  {
    if s != [] && Space(s[0]) {
      assert s == [s[0]] + s[1..];
      TrimLeftEnds(s[1..]);
    }
  }

  lemma {:induction false} TrimRightEnds(s: string)
    ensures var t := TrimRight(s); (t != [] ==> !Space(t[|t| - 1]) && t[0] == s[0]) && multiset(t) <= multiset(s)
  {
    if s != [] && Space(s[|s| - 1]) {
      assert s == s[..|s| - 1] + [s[|s| - 1]];
      TrimRightEnds(s[..|s| - 1]);
    }
  }

  lemma TrimCleans(s: string)
    requires '\n' !in s
    ensures Trim(s) == [] || Clean(Trim(s))
  {
    TrimLeftEnds(s);
    TrimRightEnds(TrimLeft(s));
    var t := Trim(s);
    assert multiset(t) <= multiset(s);
    assert forall ch :: ch in t ==> ch in multiset(s);
  }

  lemma TrimOfClean(s: string)
    requires Clean(s)
    ensures Trim(s) == s
  {
  }

  lemma {:induction false} LinesHaveNoNewline(s: string)
    ensures forall i :: 0 <= i < |Lines(s)| ==> '\n' !in Lines(s)[i]
    decreases |s|
  {
    if s != [] {
      LinesHaveNoNewline(AfterLine(s));
    }
  }

  predicate AllClean(lines: seq<string>) {
    forall i :: 0 <= i < |lines| ==> Clean(lines[i])
  }

  lemma {:induction false} KeptAreClean(lines: seq<string>)
    requires forall i :: 0 <= i < |lines| ==> '\n' !in lines[i]
    ensures AllClean(Kept(lines))
  {
    if lines != [] {
      KeptAreClean(lines[1..]);
      TrimCleans(lines[0]);
    }
  }

  /** Whatever the file holds, the reasons are a nonempty list of clean lines. */
  lemma ReasonsAreClean(content: Option<string>)
    ensures Reasons(content) != [] && AllClean(Reasons(content))
  {
    if content.Some? {
      LinesHaveNoNewline(content.value);
      KeptAreClean(Lines(content.value));
    }
  }

  // ----- round trip

  lemma FirstLine(a: string, rest: string)
    requires '\n' !in a
    ensures var s := a + ['\n'] + rest;
            LineEnd(s) == |a| && s[..|a|] == a && AfterLine(s) == rest
  {
    var s := a + ['\n'] + rest;
    assert s[|a|] == '\n';
    assert forall i :: 0 <= i < |a| ==> s[i] == a[i] && s[i] != '\n';
  }

  lemma LinesOfFirst(a: string, rest: string)
    requires '\n' !in a
    ensures Lines(a + ['\n'] + rest) == [a] + Lines(rest)
  {
    FirstLine(a, rest);
  }

  lemma OnlyLine(s: string)
    requires s != [] && '\n' !in s
    ensures Lines(s) == [s]
  {
    assert LineEnd(s) == |s|;
    assert s[..|s|] == s;
  }

  lemma {:induction false} LinesOfJoin(parts: seq<string>)
    requires AllClean(parts)
    ensures Lines(Join(parts, '\n')) == parts
  {
    if |parts| == 1 {
      OnlyLine(parts[0]);
    } else if |parts| > 1 {
      var more := parts[1..];
      LinesOfJoin(more);
      LinesOfFirst(parts[0], Join(more, '\n'));
      assert Lines(Join(parts, '\n')) == [parts[0]] + more;
    }
  }

  lemma {:induction false} KeptOfClean(lines: seq<string>)
    requires AllClean(lines)
    ensures Kept(lines) == lines
  {
    if lines != [] {
      KeptOfClean(lines[1..]);
      TrimOfClean(lines[0]);
      assert lines == [lines[0]] + lines[1..];
    }
  }

  /** Joining the parsed reasons with newlines and parsing again gives them back. */
  lemma ReasonsRoundTrip(content: Option<string>)
    ensures Reasons(Some(Join(Reasons(content), '\n'))) == Reasons(content)
  {
    ReasonsAreClean(content);
    LinesOfJoin(Reasons(content));
    KeptOfClean(Reasons(content));
  }
}
