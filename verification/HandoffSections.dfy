/**
  What the splitter of ops/local/handoff_rotate.py guarantees about texts: nothing
  is lost, a document can be cut before any section, and sections appended to a
  text are found again exactly when the text ends at a boundary.
*/
module HandoffSections {
  import opened Wrappers
  import opened HandoffText

  function Texts(sections: seq<seq<string>>): (r: seq<string>)
    ensures |r| == |sections|
  {
    if sections == [] then [] else [Join(sections[0])] + Texts(sections[1..])
  }

  function Preamble(t: string): string { Join(Split(Closed, Lines(t)).preamble) }

  /** The section texts of a document; a section's digest stands for its text. */
  function Sections(t: string): seq<string> { Texts(Split(Closed, Lines(t)).sections) }

  /** The text ends after a line end and outside every fence. */
  predicate Boundary(t: string) {
    Terminated(t) && FenceAfter(Closed, Lines(t)).Closed?
  }

  /** The text begins with the heading of a section. */
  predicate Begins(t: string) {
    t != "" && Starts(Closed, Lines(t)[0])
  }

  lemma {:induction false} TextsConcat(a: seq<seq<string>>, b: seq<seq<string>>)
    ensures Texts(a + b) == Texts(a) + Texts(b)
  {
    if a == [] {
      assert a + b == b;
    } else {
      assert (a + b)[1..] == a[1..] + b;
      TextsConcat(a[1..], b);
    }
  }

  lemma TextsTake(a: seq<seq<string>>, k: nat)
    requires k <= |a|
    ensures Texts(a[..k]) == Texts(a)[..k] && Texts(a[k..]) == Texts(a)[k..]
  {
    TextsConcat(a[..k], a[k..]);
    assert a[..k] + a[k..] == a;
  }

  lemma {:induction false} JoinTexts(a: seq<seq<string>>)
    ensures Join(Texts(a)) == Join(Flatten(a))
  {
    if a != [] {
      JoinTexts(a[1..]);
      JoinConcat(a[0], Flatten(a[1..]));
      assert Texts(a)[1..] == Texts(a[1..]);
    }
  }

  /** Preamble and sections together are the document. */
  lemma SplitLosesNothing(t: string)
    ensures Preamble(t) + Join(Sections(t)) == t
  {
    hide *;
    var d := Split(Closed, Lines(t));
    SplitLossless(Closed, Lines(t));
    JoinTexts(d.sections);
    JoinConcat(d.preamble, Flatten(d.sections));
    JoinLines(t);
    Definitions(t);
  }

  lemma Definitions(t: string)
    ensures var d := Split(Closed, Lines(t)); Preamble(t) == Join(d.preamble) && Sections(t) == Texts(d.sections)
    ensures Boundary(t) <==> Terminated(t) && FenceAfter(Closed, Lines(t)).Closed?
    ensures Begins(t) <==> t != "" && Starts(Closed, Lines(t)[0])
  {
    hide Split, Lines, FenceAfter, Starts;
  }

  lemma HeadingFirst(line: string)
    requires Starts(Closed, line)
    ensures line != "" && line[0] == '#'
  {
    assert line[..3][0] == line[0];
  }

  lemma BeginsWithHash(t: string)
    requires Begins(t)
    ensures t != "" && t[0] == '#' && Lines(t) != []
  {
    hide Starts;
    HeadingFirst(Lines(t)[0]);
  }

  lemma {:induction false} BeginsSplit(lines: seq<string>)
    requires lines != []
    ensures Starts(Closed, lines[0]) <==> Split(Closed, lines).preamble == []
  {
    hide Starts, NextFence;
  }

  // ---------------------------------------------------------------- cutting before a section

  /** Line level: before its k-th section a document can be cut into two documents. */
  lemma {:induction false} CutLines(f: Fence, lines: seq<string>, k: nat) returns (m: nat)
    requires k < |Split(f, lines).sections|
    ensures m < |lines| && Starts(Closed, lines[m]) && FenceAfter(f, lines[..m]) == Closed
    ensures var d := Split(f, lines);
      Split(f, lines[..m]) == Document(d.preamble, d.sections[..k]) &&
      Split(Closed, lines[m..]) == Document([], d.sections[k..])
    decreases |lines|
  {
    hide *;
    if lines == [] { NothingToSplit(f); }
    SplitUnfold(f, lines);
    var l, rest, f1 := lines[0], lines[1..], NextFence(f, lines[0]);
    var d := Split(f1, rest);
    if Starts(f, l) && k == 0 {
      m := 0;
      assert lines[..0] == [] && lines[0..] == lines;
      NothingToSplit(f);
      FenceNothing(f);
      StartsMeans(f, l);
      assert Split(f, lines).sections[..0] == [] && Split(f, lines).sections[0..] == Split(f, lines).sections;
    } else {
      var j := if Starts(f, l) then k - 1 else k;
      m := CutLines(f1, rest, j);
      m := m + 1;
      assert lines[..m] == [l] + rest[..m - 1] && lines[m..] == rest[m - 1..] && lines[m] == rest[m - 1];
      assert lines[..m][1..] == rest[..m - 1];
      SplitUnfold(f, lines[..m]);
      FenceUnfold(f, lines[..m]);
      if Starts(f, l) {
        var first := [l] + d.preamble;
        assert ([first] + d.sections)[..k] == [first] + d.sections[..k - 1];
        assert ([first] + d.sections)[k..] == d.sections[k - 1..];
      }
    }
  }

  lemma StartsMeans(f: Fence, l: string)
    requires Starts(f, l)
    ensures f == Closed
  {
  }

  /**
    Cutting a document before its k-th section.  What is kept ends at a boundary
    and splits into the same preamble and exactly the first k sections; what is
    removed begins with a heading and splits into exactly the rest.
  */
  lemma CutBeforeSection(t: string, k: nat)
    requires k < |Sections(t)|
    ensures var kept, removed := Preamble(t) + Join(Sections(t)[..k]), Join(Sections(t)[k..]);
      && t == kept + removed
      && Boundary(kept) && Preamble(kept) == Preamble(t) && Sections(kept) == Sections(t)[..k]
      && Begins(removed) && Preamble(removed) == "" && Sections(removed) == Sections(t)[k..]
  {
    hide *;
    var lines := Lines(t);
    var d := Split(Closed, lines);
    Definitions(t);
    var m := CutLines(Closed, lines, k);
    var kept, removed := Join(lines[..m]), Join(lines[m..]);
    LinesPrefix(t, m);
    assert lines == lines[..m] + lines[m..];
    JoinConcat(lines[..m], lines[m..]);
    JoinLines(t);
    // the two halves, as lines and as section lists
    assert lines[m..] == [lines[m]] + lines[m + 1..];
    JoinFirst(lines[m], lines[m + 1..]);
    HeadingFirst(lines[m]);
    LinesConcat(kept, removed);
    assert Lines(removed) == lines[m..];
    Definitions(kept);
    Definitions(removed);
    TextsTake(d.sections, k);
    SplitLosesNothing(kept);
    SplitLosesNothing(removed);
    JoinNone();
    assert "" + Join(Sections(removed)) == Join(Sections(removed));
  }

  // ---------------------------------------------------------------- appending at a boundary

  lemma BoundaryConcat(a: string, b: string)
    requires Boundary(a) && Begins(b)
    ensures Lines(a + b) == Lines(a) + Lines(b)
    ensures Sections(a + b) == Sections(a) + Sections(b) && Preamble(a + b) == Preamble(a)
    ensures Boundary(a + b) <==> Boundary(b)
  {
    hide *;
    Definitions(a);
    Definitions(b);
    Definitions(a + b);
    BeginsWithHash(b);
    LinesConcat(a, b);
    SplitConcat(Closed, Lines(a), Lines(b));
    FenceConcat(Closed, Lines(a), Lines(b));
    BeginsSplit(Lines(b));
    TerminatedEnd(a, b);
    AppendSections(Split(Closed, Lines(a)), Split(Closed, Lines(b)));
    TextsConcat(Split(Closed, Lines(a)).sections, Split(Closed, Lines(b)).sections);
  }

  lemma TerminatedEnd(a: string, b: string)
    requires b != ""
    ensures Terminated(a + b) <==> Terminated(b)
  {
    assert (a + b)[|a + b| - 1] == b[|b| - 1];
  }

  lemma AppendSections(a: Document, b: Document)
    requires b.preamble == []
    ensures Append(a, b) == Document(a.preamble, a.sections + b.sections)
  {
    if a.sections != [] {
      var n := |a.sections| - 1;
      assert a.sections[n] + [] == a.sections[n];
      assert a.sections[..n] + [a.sections[n]] == a.sections;
    } else {
      assert a.preamble + [] == a.preamble;
    }
  }

  /** Sections appended to a text are found again, after those of the text, exactly when the text ends at a boundary. */
  lemma AppendedSectionsAreFound(a: string, b: string)
    requires Begins(b)
    ensures Sections(a + b) == Sections(a) + Sections(b) <==> Boundary(a)
  {
    if Sections(a + b) == Sections(a) + Sections(b) {
      FoundMeansBoundary(a, b);
    }
    if Boundary(a) {
      BoundaryConcat(a, b);
    }
  }

  lemma FoundMeansBoundary(a: string, b: string)
    requires Begins(b) && Sections(a + b) == Sections(a) + Sections(b)
    ensures Boundary(a)
  {
    hide *;
    var t, k := a + b, |Sections(a)|;
    SectionsNonempty(b);
    CutBeforeSection(t, k);
    assert Sections(t)[k..] == Sections(b) && Sections(t)[..k] == Sections(a);
    SplitLosesNothing(b);
    NoPreamble(b);
    assert "" + Join(Sections(b)) == b;
    var kept := Preamble(t) + Join(Sections(a));
    assert kept + b == a + b;
    assert kept == a by {
      assert |kept| == |a| && (kept + b)[..|a|] == kept && (a + b)[..|a|] == a;
    }
  }

  lemma SectionsNonempty(t: string)
    requires Begins(t)
    ensures |Sections(t)| > 0
  {
    hide Starts, NextFence;
    SplitUnfold(Closed, Lines(t));
  }

  lemma NoPreamble(t: string)
    requires Begins(t)
    ensures Preamble(t) == ""
  {
    hide Starts;
    BeginsSplit(Lines(t));
  }

  // ---------------------------------------------------------------- single sections

  /** A text that is one complete section. */
  predicate WholeSection(x: string) {
    Begins(x) && Boundary(x) && Sections(x) == [x]
  }

  /** Every section of a document that ends at a boundary is complete by itself. */
  lemma SectionsAreWhole(t: string, k: nat)
    requires Boundary(t) && k < |Sections(t)|
    ensures WholeSection(Sections(t)[k])
  {
    hide *;
    var s := Sections(t);
    var x := s[k];
    CutBeforeSection(t, k);
    var kept, r := Preamble(t) + Join(s[..k]), Join(s[k..]);
    BoundaryConcat(kept, r);
    assert s[k..] == [x] + s[k + 1..];
    JoinFirst(x, s[k + 1..]);
    if k + 1 == |s| {
      assert s[k + 1..] == [];
      JoinNone();
      assert x + "" == x && r == x;
      assert Sections(r) == [x];
    } else {
      CutBeforeSection(r, 1);
      assert Sections(r)[..1] == [x] && Sections(r)[1..] == s[k + 1..];
      JoinFirst(x, []);
      JoinNone();
      assert [x] + [] == [x] && x + "" == x && "" + x == x;
      EmptyText();
      assert x != "";
      FirstLineKept(x, Join(s[k + 1..]));
    }
    WholeMeans(x);
  }

  lemma EmptyText()
    ensures Sections("") == []
  {
  }

  lemma WholeMeans(x: string)
    ensures WholeSection(x) <==> Begins(x) && Boundary(x) && Sections(x) == [x]
  {
  }

  lemma FirstLineKept(a: string, b: string)
    requires Boundary(a) && Begins(b) && Begins(a + b) && a != ""
    ensures Begins(a)
  {
    hide Split, Starts, FenceAfter;
    BoundaryConcat(a, b);
    assert Lines(a) != [];
  }

  /** Complete sections in a row split into exactly themselves. */
  lemma {:induction false} WholeSectionsSplit(xs: seq<string>)
    requires xs != [] && forall i :: 0 <= i < |xs| ==> WholeSection(xs[i])
    ensures Begins(Join(xs)) && Boundary(Join(xs)) && Sections(Join(xs)) == xs
  {
    hide *;
    WholeMeans(xs[0]);
    assert xs == [xs[0]] + xs[1..];
    JoinFirst(xs[0], xs[1..]);
    if |xs| == 1 {
      JoinNone();
      assert xs[1..] == [] && xs[0] + "" == xs[0] && [xs[0]] == xs;
    } else {
      WholeSectionsSplit(xs[1..]);
      BoundaryConcat(xs[0], Join(xs[1..]));
      BeginsConcat(xs[0], Join(xs[1..]));
    }
  }

  lemma BeginsConcat(a: string, b: string)
    requires Begins(a) && Lines(a + b) == Lines(a) + Lines(b)
    ensures Begins(a + b)
  {
    hide Starts, Lines;
    BeginsWithHash(a);
  }

  /** Appending complete sections to a text that ends at a boundary. */
  lemma AppendWholeSections(a: string, xs: seq<string>)
    requires Boundary(a) && forall i :: 0 <= i < |xs| ==> WholeSection(xs[i])
    ensures Sections(a + Join(xs)) == Sections(a) + xs && Boundary(a + Join(xs)) &&
      Preamble(a + Join(xs)) == Preamble(a)
  {
    hide *;
    if xs == [] {
      JoinNone();
      assert a + "" == a && Sections(a) + xs == Sections(a);
    } else {
      WholeSectionsSplit(xs);
      BoundaryConcat(a, Join(xs));
    }
  }
}
