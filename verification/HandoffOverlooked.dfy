/**
  A concrete run of ops/local/handoff_rotate.py that loses a section: an agent prepends it
  after the second comparison and before the replacement.
*/
module HandoffOverlooked {
  import opened Wrappers
  import opened HandoffText
  import opened HandoffSections
  import opened HandoffStore
  import opened HandoffRotate
  import opened HandoffRuns

  /** A heading line alone is a complete section. */
  lemma HeadingIsWhole(title: string)
    requires title != "" && !IsSpace(title[0]) && forall i :: 0 <= i < |title| ==> !IsBreak(title[i])
    ensures WholeSection("## " + title + "\n")
  {
    hide *;
    var t := "## " + title + "\n";
    HeadingLines(title);
    HeadingStarts(title);
    FenceUnfold(Closed, [t]);
    FenceNothing(Closed);
    SplitUnfold(Closed, [t]);
    NothingToSplit(Closed);
    assert [t][0] == t && [t][1..] == [] && [t] + [] == [t] && [[t]] + [] == [[t]];
    OneSection(t);
    Definitions(t);
    BeginsMeans(t);
    WholeMeans(t);
  }

  lemma HeadingLines(title: string)
    requires forall i :: 0 <= i < |title| ==> !IsBreak(title[i])
    ensures Lines("## " + title + "\n") == ["## " + title + "\n"]
  {
    var x := "## " + title;
    forall i | 0 <= i < |x| ensures !IsBreak(x[i]) { NoBreakAt(title, i); }
    OneLine(x);
  }

  lemma NoBreakAt(title: string, i: nat)
    requires i < 3 + |title| && forall k :: 0 <= k < |title| ==> !IsBreak(title[k])
    ensures !IsBreak(("## " + title)[i])
  {
    if i >= 3 { assert ("## " + title)[i] == title[i - 3]; }
  }

  lemma OneLine(x: string)
    requires forall i :: 0 <= i < |x| ==> !IsBreak(x[i])
    ensures Lines(x + "\n") == [x + "\n"]
  {
    hide IsBreak, Lines, FirstLine;
    var t := x + "\n";
    assert t + "" == t;
    FirstLineIs(x, "");
    LinesUnfold(t, |t|);
    NoLines();
    assert t[..|t|] == t && t[|t|..] == "" && [t] + [] == [t];
  }

  lemma HeadingStarts(title: string)
    requires title != "" && !IsSpace(title[0])
    ensures var t := "## " + title + "\n";
      Starts(Closed, t) && NextFence(Closed, t) == Closed && Terminated(t) && t != ""
  {
    var t := "## " + title + "\n";
    assert t[0] == '#' && t[3] == title[0] && t[..3] == "## ";
    assert LStrip(t) == t;
  }

  lemma OneSection(t: string)
    ensures Texts([[t]]) == [t]
  {
    hide Join;
    JoinNone();
    JoinFirst(t, []);
    assert [[t]][1..] == [] && [t] + [] == [t] && t + "" == t;
  }

  lemma BeginsMeans(t: string)
    requires t != ""
    ensures Begins(t) <==> Starts(Closed, Lines(t)[0])
  {
    hide Lines, Starts;
  }

  lemma TitleOk(title: string, c: char)
    requires 'a' <= c <= 'z' && title == [c]
    ensures WholeSection("## " + title + "\n")
  {
    hide WholeSection;
    HeadingIsWhole(title);
  }

  const SEEN := "## b\n## a\n"
  const OVERLOOKED := "## c\n"

  lemma SmallDocument()
    ensures Sections(SEEN) == ["## b\n", "## a\n"] && Boundary(SEEN) && WholeSection(OVERLOOKED)
  {
    hide Sections, Boundary, WholeSection;
    TwoSections();
  }

  lemma TwoSections()
    ensures Sections("## b\n## a\n") == ["## b\n", "## a\n"] && Boundary("## b\n## a\n") && WholeSection("## c\n")
  {
    hide *;
    TitleOk("a", 'a');
    TitleOk("b", 'b');
    TitleOk("c", 'c');
    assert "## " + "a" + "\n" == "## a\n" && "## " + "b" + "\n" == "## b\n" && "## " + "c" + "\n" == "## c\n";
    var xs := ["## b\n", "## a\n"];
    WholeSectionsSplit(xs);
    JoinFirst("## b\n", ["## a\n"]);
    JoinFirst("## a\n", []);
    JoinNone();
    assert ["## b\n"] + ["## a\n"] == xs && ["## a\n"] + [] == ["## a\n"];
    assert "## a\n" + "" == "## a\n" && "## b\n" + "## a\n" == "## b\n## a\n";
  }

  /** Nobody writes but one agent, who prepends a section right before the replacement. */
  function LateWriter(): Agents {
    Agents((t: string) => t, (t: string) => Prepended(t, [OVERLOOKED]), (t: string) => t)
  }

  lemma LateWriterIsSound(d: Disk)
    requires d == Disk(SEEN, map[], [], [])
    ensures Inv(d) && |Sections(SEEN)| == 2 && AgentsBounded(LateWriter(), SEEN, 1)
    ensures OVERLOOKED in Sections(LateWriter().write(SEEN)) && !Findable(d, OVERLOOKED)
  {
    hide Sections, Preamble, Boundary, WholeSection, Prepended, Inv, Join, Lines, Split;
    SmallDocument();
    EmptyStore(d);
    CutBeforeSection(SEEN, 1);
    LatePrepend(SEEN, [OVERLOOKED]);
  }

  /** The rotation reports success, the verifier accepts, and the prepended section is nowhere. */
  method LosingRotation(cal: Calendar) returns (store: Store, r: Outcome)
    requires NamesMonths(cal)
    ensures r == Rotated && AllArchived(store.State()) && !Findable(store.State(), OVERLOOKED)
  {
    hide Sections, Preamble, Boundary, WholeSection, RotationEffect, Archived, Inv, Join, NamesMonths, AllArchived,
      Findable;
    store := new Store(SEEN);
    ghost var d0 := store.State();
    LateWriterIsSound(d0);
    r := store.RotateLocked(SEEN, LateWriter(), 1, cal, Never);
    OverlookedIsGone(d0, store.State(), r);
  }

  lemma OverlookedIsGone(d0: Disk, d: Disk, r: Outcome)
    requires d0 == Disk(SEEN, map[], [], []) && |Sections(SEEN)| == 2
    requires RotationEffect(d0, d, SEEN, LateWriter(), 1, r)
    ensures r in {Rotated, Interrupted}
    ensures r == Rotated ==> AllArchived(d) && !Findable(d, OVERLOOKED)
  {
    hide Sections, Preamble, Boundary, WholeSection, Archived, Inv, Join, Prepended, Findable, AllArchived, Digests,
      Found, OnlyAdds;
    LateWriterIsSound(d0);
    CutBeforeSection(SEEN, 1);
    InvMeansVerified(d);
    if r == Rotated { OverwrittenIsFoundExactly(d0, d, SEEN, LateWriter(), 1, r, OVERLOOKED); }
  }
}
