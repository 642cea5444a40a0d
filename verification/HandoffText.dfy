/**
  Documents of ops/local/handoff_rotate.py: lines, code fences, headings and the
  splitter.  A document is a string; its lines keep their terminators.
*/
module HandoffText {
  import opened Wrappers

  // ---------------------------------------------------------------- lines

  /** The characters that end a line. */
  predicate IsBreak(c: char) {
    c in {'\n', '\r', '\U{0B}', '\U{0C}', '\U{1C}', '\U{1D}', '\U{1E}', '\U{85}', '\U{2028}', '\U{2029}'}
  }

  predicate IsSpace(c: char) {
    || IsBreak(c)
    || c in {'\t', '\U{1F}', ' ', '\U{A0}', '\U{1680}', '\U{202F}', '\U{205F}', '\U{3000}'}
    || '\U{2000}' <= c <= '\U{200A}'
  }

  /** The line breaks and the white space of Python, by code point. */
  predicate BreakCode(n: int) {
    10 <= n <= 13 || 28 <= n <= 30 || n in {133, 8232, 8233}
  }

  predicate SpaceCode(n: int) {
    9 <= n <= 13 || 28 <= n <= 32 || 8192 <= n <= 8202 || n in {133, 160, 5760, 8232, 8233, 8239, 8287, 12288}
  }

  lemma CodesMean(c: char)
    ensures IsBreak(c) <==> BreakCode(c as int)
    ensures IsSpace(c) <==> SpaceCode(c as int)
  {
    assert '\n' as int == 10 && '\r' as int == 13 && '\t' as int == 9 && ' ' as int == 32;
    BreakOfCode(c);
    SpaceOfCode(c);
  }

  lemma BreakOfCode(c: char)
    ensures BreakCode(c as int) ==> IsBreak(c)
  {
    var n := c as int;
    assert n == 10 ==> c == '\n';
    assert n == 11 ==> c == '\U{0B}';
    assert n == 12 ==> c == '\U{0C}';
    assert n == 13 ==> c == '\r';
    assert n == 28 ==> c == '\U{1C}';
    assert n == 29 ==> c == '\U{1D}';
    assert n == 30 ==> c == '\U{1E}';
    assert n == 133 ==> c == '\U{85}';
    assert n == 8232 ==> c == '\U{2028}';
    assert n == 8233 ==> c == '\U{2029}';
  }

  lemma SpaceOfCode(c: char)
    ensures SpaceCode(c as int) ==> IsSpace(c)
  {
    BreakOfCode(c);
    hide IsBreak;
    var n := c as int;
    assert n == 9 ==> c == '\t';
    assert n == 31 ==> c == '\U{1F}';
    assert n == 32 ==> c == ' ';
    assert n == 160 ==> c == '\U{A0}';
    assert n == 5760 ==> c == '\U{1680}';
    assert n == 8239 ==> c == '\U{202F}';
    assert n == 8287 ==> c == '\U{205F}';
    assert n == 12288 ==> c == '\U{3000}';
  }

  /** Length of the first line, its terminator included; a carriage return takes a newline with it. */
  function FirstLine(t: string): (n: nat)
    requires t != ""
    ensures 1 <= n <= |t|
    decreases |t|
  {
    if t[0] == '\r' && |t| > 1 && t[1] == '\n' then 2
    else if IsBreak(t[0]) || |t| == 1 then 1
    else 1 + FirstLine(t[1..])
  }

  /** The first line ends with the first break, where carriage return and newline are one break, or with the text. */
  lemma {:induction false} FirstLineMeans(t: string)
    requires t != ""
    ensures var n := FirstLine(t);
      && (n == |t| || IsBreak(t[n - 1])) && (t[n - 1] == '\r' && n < |t| ==> t[n] != '\n')
      && (forall i :: 0 <= i < n - 2 ==> !IsBreak(t[i]))
      && (n > 1 && IsBreak(t[n - 2]) ==> t[n - 2] == '\r' && t[n - 1] == '\n')
    decreases |t|
  {
    if !IsBreak(t[0]) && |t| > 1 {
      FirstLineMeans(t[1..]);
      var n := FirstLine(t);
      assert FirstLine(t[1..]) == n - 1;
      forall i | 0 <= i < n - 2 ensures !IsBreak(t[i]) {
        if i > 0 { assert t[i] == t[1..][i - 1]; }
      }
      assert n > 2 ==> t[n - 2] == t[1..][n - 3];
    }
  }

  function Lines(t: string): (r: seq<string>)
    ensures t == "" <==> r == []
    decreases |t|
  {
    if t == "" then [] else [t[..FirstLine(t)]] + Lines(t[FirstLine(t)..])
  }

  function Join(lines: seq<string>): string {
    if lines == [] then "" else lines[0] + Join(lines[1..])
  }

  predicate Terminated(t: string) {
    t == "" || IsBreak(t[|t| - 1])
  }

  lemma {:induction false} JoinConcat(a: seq<string>, b: seq<string>)
    ensures Join(a + b) == Join(a) + Join(b)
  {
    if a == [] {
      assert a + b == b;
    } else {
      JoinConcat(a[1..], b);
      assert (a + b)[1..] == a[1..] + b;
    }
  }

  /** Cutting into lines loses nothing. */
  lemma {:induction false} JoinLines(t: string)
    ensures Join(Lines(t)) == t
    decreases |t|
  {
    if t != "" {
      JoinLines(t[FirstLine(t)..]);
    }
  }

  /** The first line depends only on the text up to its end, unless that splits a carriage return from its newline. */
  lemma {:induction false} FirstLineLocal(t: string, u: string)
    requires t != "" && |u| >= FirstLine(t) && u[..FirstLine(t)] == t[..FirstLine(t)]
    requires FirstLine(t) == |t| ==> Terminated(t) || |u| == |t|
    requires |u| > FirstLine(t) && t[FirstLine(t) - 1] == '\r' ==> u[FirstLine(t)] != '\n'
    ensures FirstLine(u) == FirstLine(t)
    decreases |t|
  {
    var n := FirstLine(t);
    assert u[0] == t[0];
    if n > 1 && !(t[0] == '\r' && |t| > 1 && t[1] == '\n') {
      assert FirstLine(t[1..]) == n - 1;
      assert t[1..][..n - 1] == t[..n][1..] == u[..n][1..] == u[1..][..n - 1];
      assert t[1..][n - 2] == t[n - 1];
      FirstLineLocal(t[1..], u[1..]);
    } else if n == 2 {
      assert u[1] == t[1] by { assert u[..2][1] == t[..2][1]; }
    }
  }

  /** A first line that is followed by more text ends in a break. */
  lemma {:induction false} FirstLineTerminated(t: string)
    requires t != "" && FirstLine(t) < |t|
    ensures IsBreak(t[FirstLine(t) - 1])
    ensures t[FirstLine(t) - 1] == '\r' ==> t[FirstLine(t)] != '\n'
    decreases |t|
  {
    if !(t[0] == '\r' && |t| > 1 && t[1] == '\n') && !IsBreak(t[0]) {
      FirstLineTerminated(t[1..]);
    }
  }

  lemma Assoc<T>(a: seq<T>, b: seq<T>, c: seq<T>)
    ensures (a + b) + c == a + (b + c)
  {
  }

  lemma LinesUnfold(t: string, n: nat)
    requires t != "" && n == FirstLine(t)
    ensures Lines(t) == [t[..n]] + Lines(t[n..])
  {
  }

  lemma TerminatedTail(t: string, n: nat)
    requires n <= |t| && Terminated(t)
    ensures Terminated(t[n..])
  {
  }

  /** The first line of a text that goes on after a line end. */
  lemma FirstLineOfConcat(a: string, b: string)
    requires a != "" && Terminated(a) && (b != "" ==> b[0] != '\n')
    ensures FirstLine(a + b) == FirstLine(a)
  {
    if FirstLine(a) < |a| { FirstLineTerminated(a); }
    FirstLineLocal(a, a + b);
  }

  /** Splitting distributes over a concatenation at a line end. */
  lemma {:induction false} LinesConcat(a: string, b: string)
    requires Terminated(a) && (b != "" ==> b[0] != '\n')
    ensures Lines(a + b) == Lines(a) + Lines(b)
    decreases |a|
  {
    hide *;
    if a == "" {
      assert a + b == b;
      NoLines();
      assert [] + Lines(b) == Lines(b);
    } else {
      var n := FirstLine(a);
      FirstLineOfConcat(a, b);
      assert (a + b)[..n] == a[..n] && (a + b)[n..] == a[n..] + b;
      TerminatedTail(a, n);
      LinesConcat(a[n..], b);
      LinesUnfold(a, n);
      LinesUnfold(a + b, n);
      Assoc([a[..n]], Lines(a[n..]), Lines(b));
    }
  }

  lemma NoLines()
    ensures Lines("") == []
  {
  }

  /** A first line followed by part of what follows it in the text is still the first line. */
  lemma FirstLineOfPart(t: string, front: string)
    requires t != "" && front <= t[FirstLine(t)..]
    ensures FirstLine(t[..FirstLine(t)] + front) == FirstLine(t)
    ensures front == "" && FirstLine(t) < |t| ==> Terminated(t[..FirstLine(t)] + front)
  {
    var n := FirstLine(t);
    if n < |t| { FirstLineTerminated(t); }
    var u := t[..n] + front;
    assert front != "" ==> u[n] == front[0] == t[n];
    FirstLineLocal(t, u);
  }

  /** A document cut after m lines has exactly those lines. */
  lemma {:induction false} LinesPrefix(t: string, m: nat)
    requires m <= |Lines(t)|
    ensures Lines(Join(Lines(t)[..m])) == Lines(t)[..m]
    ensures Join(Lines(t)[..m]) <= t
    ensures m < |Lines(t)| ==> Terminated(Join(Lines(t)[..m]))
    decreases |t|
  {
    hide *;
    if m > 0 {
      LinesNonempty(t);
      var n := FirstLine(t);
      LinesUnfold(t, n);
      var rest := t[n..];
      LinesPrefix(rest, m - 1);
      var front := Join(Lines(rest)[..m - 1]);
      assert Lines(t)[..m] == [t[..n]] + Lines(rest)[..m - 1];
      var u := t[..n] + front;
      JoinFirst(t[..n], Lines(rest)[..m - 1]);
      FirstLineOfPart(t, front);
      assert u[..n] == t[..n] && u[n..] == front;
      assert t == t[..n] + rest;
      LinesUnfold(u, n);
      if m < |Lines(t)| {
        NoLines();
        PartTerminated(t, n, front);
      }
    } else {
      assert Lines(t)[..0] == [];
      NoLines();
      JoinNone();
    }
  }

  lemma LinesNonempty(t: string)
    requires Lines(t) != []
    ensures t != ""
  {
  }

  lemma JoinFirst(line: string, lines: seq<string>)
    ensures Join([line] + lines) == line + Join(lines)
  {
    assert ([line] + lines)[1..] == lines;
  }

  lemma JoinNone()
    ensures Join([]) == "" && Terminated("")
  {
  }

  lemma PartTerminated(t: string, n: nat, front: string)
    requires t != "" && n == FirstLine(t) && front <= t[n..] && Terminated(front)
    requires t[n..] != ""
    ensures Terminated(t[..n] + front)
  {
    FirstLineOfPart(t, front);
    assert front != "" ==> (t[..n] + front)[|t[..n] + front| - 1] == front[|front| - 1];
  }

  // ---------------------------------------------------------------- fences and headings

  function LStrip(s: string): string {
    if s != "" && IsSpace(s[0]) then LStrip(s[1..]) else s
  }

  /** Length of the leading run of c. */
  function RunOf(s: string, c: char): nat {
    if s != "" && s[0] == c then 1 + RunOf(s[1..], c) else 0
  }

  /** The text begins with exactly `n` times c. */
  predicate BeginsWith(s: string, c: char, n: nat) {
    n <= |s| && (forall i :: 0 <= i < n ==> s[i] == c) && (n < |s| ==> s[n] != c)
  }

  lemma {:induction false} RunMeans(s: string, c: char)
    ensures BeginsWith(s, c, RunOf(s, c)) && forall n: nat :: BeginsWith(s, c, n) ==> n == RunOf(s, c)
  {
    if s != "" && s[0] == c {
      RunMeans(s[1..], c);
      forall n: nat | BeginsWith(s, c, n) ensures n == RunOf(s, c) {
        assert n > 0 && BeginsWith(s[1..], c, n - 1);
      }
    }
  }

  datatype Fence = Closed | Open(mark: char, width: nat)

  /** The fence token that a line starts with after its indentation: three or more backticks or tildes. */
  function Token(line: string): Option<(char, nat)> {
    var s := LStrip(line);
    if RunOf(s, '`') >= 3 then Some(('`', RunOf(s, '`')))
    else if RunOf(s, '~') >= 3 then Some(('~', RunOf(s, '~')))
    else None
  }

  /** A fence closes on a token of the same mark that is at least as wide. */
  function NextFence(f: Fence, line: string): Fence {
    match Token(line)
    case None => f
    case Some((c, n)) =>
      match f
      case Closed => Open(c, n)
      case Open(d, w) => if c == d && n >= w then Closed else f
  }

  /** The line is indented by white space, then has exactly `n` marks, at least three, of one kind. */
  ghost predicate IsToken(line: string, c: char, n: nat) {
    c in {'`', '~'} && n >= 3 && exists k: nat :: Indented(line, k) && BeginsWith(line[k..], c, n)
  }

  predicate Indented(line: string, k: nat) {
    k <= |line| && forall i :: 0 <= i < k ==> IsSpace(line[i])
  }

  lemma {:induction false} LStripMeans(line: string) returns (k: nat)
    ensures Indented(line, k) && LStrip(line) == line[k..] && (LStrip(line) != "" ==> !IsSpace(LStrip(line)[0]))
  {
    hide IsSpace;
    if line != "" && IsSpace(line[0]) {
      k := LStripMeans(line[1..]);
      assert line[1..][k..] == line[k + 1..];
      assert forall i :: 0 < i < k + 1 ==> line[i] == line[1..][i - 1];
      k := k + 1;
    } else {
      k := 0;
    }
  }

  /** Stripping a line that is indented up to something else finds that. */
  lemma {:induction false} LStripFinds(line: string, k: nat)
    requires Indented(line, k) && k < |line| && !IsSpace(line[k])
    ensures LStrip(line) == line[k..]
  {
    hide IsSpace;
    if k > 0 {
      assert forall i :: 0 <= i < k - 1 ==> line[1..][i] == line[i + 1];
      LStripFinds(line[1..], k - 1);
      assert line[1..][k - 1..] == line[k..];
    }
  }

  /** A fence token is three or more backticks or tildes after any indentation. */
  lemma TokenMeans(line: string, c: char, n: nat)
    ensures Token(line) == Some((c, n)) <==> IsToken(line, c, n)
  {
    var s := LStrip(line);
    var k := LStripMeans(line);
    RunMeans(s, '`');
    RunMeans(s, '~');
    if Token(line) == Some((c, n)) {
      assert Indented(line, k) && BeginsWith(line[k..], c, n);
    }
    if IsToken(line, c, n) {
      var j: nat :| Indented(line, j) && BeginsWith(line[j..], c, n);
      assert line[j..][0] == line[j] == c && !IsSpace(c);
      LStripFinds(line, j);
      if c == '~' { assert BeginsWith(s, '`', 0); }
    }
  }

  /** A section heading is "## " and a character that is not white space. */
  lemma HeadingMeans(line: string)
    ensures Heading(line) <==> exists c, rest :: !IsSpace(c) && line == "## " + [c] + rest
  {
    if Heading(line) { assert line == "## " + [line[3]] + line[4..]; }
  }

  /** Outside a fence a token opens one, which only a token of the same mark, as wide or wider, closes. */
  lemma FenceMeans(f: Fence, line: string)
    ensures (forall c, n: nat :: !IsToken(line, c, n)) ==> NextFence(f, line) == f
    ensures forall c, n: nat :: IsToken(line, c, n) && f == Closed ==> NextFence(f, line) == Open(c, n)
    ensures forall c, n: nat, d, w: nat :: IsToken(line, c, n) && f == Open(d, w) ==>
      NextFence(f, line) == if c == d && w <= n then Closed else f
  {
    hide IsToken, Token;
    forall c, n: nat ensures Token(line) == Some((c, n)) <==> IsToken(line, c, n) { TokenMeans(line, c, n); }
    if Token(line).Some? { assert Token(line) == Some((Token(line).value.0, Token(line).value.1)); }
  }

  function FenceAfter(f: Fence, lines: seq<string>): Fence
    decreases |lines|
  {
    if lines == [] then f else FenceAfter(NextFence(f, lines[0]), lines[1..])
  }

  predicate Heading(line: string) {
    |line| > 3 && line[..3] == "## " && !IsSpace(line[3])
  }

  /** A line starts a section when it is a heading outside every fence. */
  predicate Starts(f: Fence, line: string) {
    Token(line).None? && f.Closed? && Heading(line)
  }

  lemma {:induction false} FenceConcat(f: Fence, a: seq<string>, b: seq<string>)
    ensures FenceAfter(f, a + b) == FenceAfter(FenceAfter(f, a), b)
    decreases |a|
  {
    if a == [] {
      assert a + b == b;
    } else {
      assert (a + b)[1..] == a[1..] + b;
      FenceConcat(NextFence(f, a[0]), a[1..], b);
    }
  }

  // ---------------------------------------------------------------- the splitter

  datatype Document = Document(preamble: seq<string>, sections: seq<seq<string>>)

  /** A section is its starting line and everything up to the next start. */
  function Split(f: Fence, lines: seq<string>): Document
    decreases |lines|
  {
    if lines == [] then Document([], [])
    else
      var d := Split(NextFence(f, lines[0]), lines[1..]);
      if Starts(f, lines[0]) then Document([], [[lines[0]] + d.preamble] + d.sections)
      else Document([lines[0]] + d.preamble, d.sections)
  }

  /** The section starts at or after line i. */
  function StartsFrom(lines: seq<string>, i: nat, f: Fence): (r: seq<nat>)
    requires i <= |lines|
    ensures Ascending(r, i, |lines|)
    decreases |lines| - i
  {
    if i == |lines| then []
    else (if Starts(f, lines[i]) then [i] else []) + StartsFrom(lines, i + 1, NextFence(f, lines[i]))
  }

  predicate Ascending(starts: seq<nat>, from: nat, end: nat) {
    && (forall k :: 0 <= k < |starts| ==> from <= starts[k] < end)
    && (forall j, k :: 0 <= j < k < |starts| ==> starts[j] < starts[k])
  }

  /** Where the k-th section of the list ends. */
  function EndOf(starts: seq<nat>, k: nat, end: nat): nat {
    if k < |starts| then starts[k] else end
  }

  /** The slices between consecutive starts. */
  function Slices(lines: seq<string>, starts: seq<nat>): seq<seq<string>>
    requires Ascending(starts, 0, |lines|)
  {
    if starts == [] then []
    else [lines[starts[0]..EndOf(starts, 1, |lines|)]] + Slices(lines, starts[1..])
  }

  /** The recursive splitter cuts at the collected starts. */
  lemma {:induction false} SplitBySlices(lines: seq<string>, i: nat, f: Fence)
    requires i <= |lines|
    ensures Split(f, lines[i..]).preamble == lines[i..EndOf(StartsFrom(lines, i, f), 0, |lines|)]
    ensures Split(f, lines[i..]).sections == Slices(lines, StartsFrom(lines, i, f))
    decreases |lines| - i
  {
    hide *;
    StartsUnfold(lines, i, f);
    if i < |lines| {
      var f1 := NextFence(f, lines[i]);
      SplitBySlices(lines, i + 1, f1);
      assert lines[i..][1..] == lines[i + 1..];
      SplitUnfold(f, lines[i..]);
      var st1 := StartsFrom(lines, i + 1, f1);
      if Starts(f, lines[i]) {
        SlicesUnfold(lines, i, st1);
      }
      SliceStart(lines, i, st1);
    } else {
      NoSlices(lines);
      NothingToSplit(f);
      assert lines[i..] == [] && lines[i..|lines|] == [];
      EndOfNone(|lines|);
    }
  }

  lemma StartsUnfold(lines: seq<string>, i: nat, f: Fence)
    requires i <= |lines|
    ensures StartsFrom(lines, i, f) ==
      if i == |lines| then []
      else if Starts(f, lines[i]) then [i] + StartsFrom(lines, i + 1, NextFence(f, lines[i]))
      else StartsFrom(lines, i + 1, NextFence(f, lines[i]))
    ensures Ascending(StartsFrom(lines, i, f), 0, |lines|)
  {
    hide Starts, NextFence;
  }

  lemma SplitUnfold(f: Fence, lines: seq<string>)
    requires lines != []
    ensures var d := Split(NextFence(f, lines[0]), lines[1..]);
      Split(f, lines) ==
        if Starts(f, lines[0]) then Document([], [[lines[0]] + d.preamble] + d.sections)
        else Document([lines[0]] + d.preamble, d.sections)
  {
    hide Starts, NextFence;
  }

  lemma SlicesUnfold(lines: seq<string>, i: nat, st: seq<nat>)
    requires i < |lines| && Ascending(st, i + 1, |lines|)
    ensures Ascending(st, 0, |lines|) && Ascending([i] + st, 0, |lines|)
    ensures Slices(lines, [i] + st) == [lines[i..EndOf(st, 0, |lines|)]] + Slices(lines, st)
    ensures EndOf([i] + st, 0, |lines|) == i
    ensures lines[i..i] == []
  {
    assert ([i] + st)[1..] == st;
  }

  lemma SliceStart(lines: seq<string>, i: nat, st: seq<nat>)
    requires i < |lines| && Ascending(st, i + 1, |lines|)
    ensures [lines[i]] + lines[i + 1..EndOf(st, 0, |lines|)] == lines[i..EndOf(st, 0, |lines|)]
  {
  }

  lemma NothingToSplit(f: Fence)
    ensures Split(f, []) == Document([], [])
  {
  }

  lemma EndOfNone(n: nat)
    ensures EndOf([], 0, n) == n
  {
  }

  lemma {:induction false} SlicesAt(lines: seq<string>, starts: seq<nat>, k: nat)
    requires Ascending(starts, 0, |lines|) && k < |starts|
    ensures Slices(lines, starts[k..]) ==
            [lines[starts[k]..EndOf(starts, k + 1, |lines|)]] + Slices(lines, starts[k + 1..])
  {
    assert starts[k..][1..] == starts[k + 1..];
  }

  /** The starts are exactly the heading lines that no fence before them leaves inside code. */
  lemma {:induction false} StartsExactly(lines: seq<string>, i: nat, f: Fence, k: nat)
    requires i <= k < |lines|
    ensures k in StartsFrom(lines, i, f) <==> Starts(FenceAfter(f, lines[i..k]), lines[k])
    decreases k - i
  {
    hide Starts, NextFence;
    if i < k {
      assert lines[i..k][0] == lines[i] && lines[i..k][1..] == lines[i + 1..k];
      StartsExactly(lines, i + 1, NextFence(f, lines[i]), k);
    } else {
      assert lines[i..k] == [];
    }
  }

  /** A line is listed if and only if it is a heading outside the fences open before it. */
  ghost predicate AreStarts(lines: seq<string>, starts: seq<nat>) {
    forall k :: 0 <= k < |lines| ==> (k in starts <==> Starts(FenceAfter(Closed, lines[..k]), lines[k]))
  }

  lemma AllStarts(lines: seq<string>)
    ensures AreStarts(lines, StartsFrom(lines, 0, Closed))
  {
    hide Starts, StartsFrom, FenceAfter;
    forall k | 0 <= k < |lines|
      ensures k in StartsFrom(lines, 0, Closed) <==> Starts(FenceAfter(Closed, lines[..k]), lines[k])
    {
      StartsExactly(lines, 0, Closed, k);
      assert lines[0..k] == lines[..k];
    }
  }

  /** Collects the starts with one pass over the fences. */
  method CollectStarts(lines: seq<string>) returns (starts: seq<nat>)
    ensures starts == StartsFrom(lines, 0, Closed)
    ensures Ascending(starts, 0, |lines|) && AreStarts(lines, starts)
  {
    hide Token, Heading, Ascending, StartsFrom, FenceAfter, AreStarts;
    AllStarts(lines);
    starts := [];
    var fenced := Closed;
    for index := 0 to |lines|
      invariant starts + StartsFrom(lines, index, fenced) == StartsFrom(lines, 0, Closed)
    {
      StartsUnfold(lines, index, fenced);
      var raw := lines[index];
      var fence := Token(raw);
      if fence.Some? {
        var (mark, width) := fence.value;
        if fenced.Closed? {
          fenced := Open(mark, width);
        } else if mark == fenced.mark && width >= fenced.width {
          fenced := Closed;
        }
        continue;
      }
      if fenced.Closed? && Heading(raw) {
        Assoc(starts, [index], StartsFrom(lines, index + 1, fenced));
        starts := starts + [index];
      }
    }
    StartsUnfold(lines, |lines|, fenced);
  }

  /** Splits a text into a preamble and sections, ignoring headings inside fenced code. */
  method SplitDocument(text: string) returns (d: Document)
    ensures d == Split(Closed, Lines(text))
  {
    hide Split, Lines, StartsFrom, Slices;
    var lines := Lines(text);
    var starts := CollectStarts(lines);
    SplitBySlices(lines, 0, Closed);
    assert lines[0..] == lines;
    if starts == [] {
      NoSlices(lines);
      return Document(lines, []);
    }
    var preamble := lines[..starts[0]];
    var sections: seq<seq<string>> := [];
    assert starts[0..] == starts;
    for position := 0 to |starts|
      invariant sections + Slices(lines, starts[position..]) == Slices(lines, starts)
    {
      SlicesAt(lines, starts, position);
      var end := if position + 1 < |starts| then starts[position + 1] else |lines|;
      sections := sections + [lines[starts[position]..end]];
    }
    NoSlices(lines);
    assert starts[|starts|..] == [];
    d := Document(preamble, sections);
  }

  lemma NoSlices(lines: seq<string>)
    ensures Slices(lines, []) == []
  {
  }

  // ---------------------------------------------------------------- lossless and compositional

  function Flatten(sections: seq<seq<string>>): seq<string> {
    if sections == [] then [] else sections[0] + Flatten(sections[1..])
  }

  lemma {:induction false} FlattenConcat(a: seq<seq<string>>, b: seq<seq<string>>)
    ensures Flatten(a + b) == Flatten(a) + Flatten(b)
  {
    if a == [] {
      assert a + b == b;
    } else {
      assert (a + b)[1..] == a[1..] + b;
      FlattenConcat(a[1..], b);
    }
  }

  /** Preamble and sections are the lines of the document, in order. */
  lemma {:induction false} SplitLossless(f: Fence, lines: seq<string>)
    ensures Split(f, lines).preamble + Flatten(Split(f, lines).sections) == lines
    decreases |lines|
  {
    if lines != [] {
      var d := Split(NextFence(f, lines[0]), lines[1..]);
      SplitLossless(NextFence(f, lines[0]), lines[1..]);
      if Starts(f, lines[0]) {
        var first := [lines[0]] + d.preamble;
        assert ([first] + d.sections)[1..] == d.sections;
        assert first + Flatten(d.sections) == [lines[0]] + (d.preamble + Flatten(d.sections));
      } else {
        assert ([lines[0]] + d.preamble) + Flatten(d.sections) == [lines[0]] + (d.preamble + Flatten(d.sections));
      }
    }
  }

  /** What follows a cut belongs to the last section before it, up to the next start. */
  function Append(a: Document, b: Document): Document {
    if a.sections == [] then Document(a.preamble + b.preamble, b.sections)
    else
      var n := |a.sections| - 1;
      Document(a.preamble, a.sections[..n] + [a.sections[n] + b.preamble] + b.sections)
  }

  lemma {:induction false} SplitConcat(f: Fence, a: seq<string>, b: seq<string>)
    ensures Split(f, a + b) == Append(Split(f, a), Split(FenceAfter(f, a), b))
    decreases |a|
  {
    hide *;
    var db := Split(FenceAfter(f, a), b);
    if a == [] {
      assert a + b == b;
      NothingToSplit(f);
      FenceNothing(f);
      AppendToNothing(db);
    } else {
      assert (a + b)[1..] == a[1..] + b && (a + b)[0] == a[0];
      var f1 := NextFence(f, a[0]);
      FenceUnfold(f, a);
      SplitConcat(f1, a[1..], b);
      SplitUnfold(f, a);
      SplitUnfold(f, a + b);
      AppendLine(a[0], Split(f1, a[1..]), db);
    }
  }

  lemma FenceNothing(f: Fence)
    ensures FenceAfter(f, []) == f
  {
  }

  lemma FenceUnfold(f: Fence, a: seq<string>)
    requires a != []
    ensures FenceAfter(f, a) == FenceAfter(NextFence(f, a[0]), a[1..])
  {
    hide NextFence;
  }

  lemma AppendToNothing(b: Document)
    ensures Append(Document([], []), b) == b
  {
    assert [] + b.preamble == b.preamble;
  }

  /** Putting a line in front of a document commutes with appending to it. */
  lemma AppendLine(line: string, a: Document, b: Document)
    ensures var d := Append(a, b);
      && Append(Document([line] + a.preamble, a.sections), b) == Document([line] + d.preamble, d.sections)
      && Append(Document([], [[line] + a.preamble] + a.sections), b) == Document([], [[line] + d.preamble] + d.sections)
  {
    var first := [line] + a.preamble;
    var s := [first] + a.sections;
    if a.sections == [] {
      Assoc([line], a.preamble, b.preamble);
      assert s == [first] && s[..0] == [];
      assert [] + [first + b.preamble] + b.sections == [first + b.preamble] + b.sections;
    } else {
      var n := |a.sections| - 1;
      assert s[..n + 1] == [first] + a.sections[..n] && s[n + 1] == a.sections[n];
      assert [first] + a.sections[..n] + [a.sections[n] + b.preamble] + b.sections
          == [first] + (a.sections[..n] + [a.sections[n] + b.preamble] + b.sections);
    }
  }
}
