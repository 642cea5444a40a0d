/**
  The files of ops/local/handoff_rotate.py as values: the handoff, the monthly
  archives and the index, the invariant that nothing is ever lost, and what each
  single file write does to it.
*/
module HandoffStore {
  import opened Wrappers
  import opened HandoffText
  import opened HandoffSections

  /** One archived section: where it went and its digest, which stands for its text. */
  datatype Record = Record(archive: string, digest: string)

  /**
    The files of the private area.  `moved` is history: every section that a
    rewrite of the handoff removed from it, with the archive it went to.
  */
  datatype Disk = Disk(handoff: string, archives: map<string, string>, index: seq<seq<Record>>, moved: seq<Record>)

  function SectionsOf(archives: map<string, string>, name: string): seq<string> {
    if name in archives then Sections(archives[name]) else []
  }

  function Digests(records: seq<Record>): (r: seq<string>)
    ensures |r| == |records|
  {
    if records == [] then [] else Digests(records[..|records| - 1]) + [records[|records| - 1].digest]
  }

  /** The digests recorded for one archive, with multiplicity. */
  function Wanted(records: seq<Record>, name: string): multiset<string> {
    if records == [] then multiset{}
    else
      var last := records[|records| - 1];
      Wanted(records[..|records| - 1], name) + (if last.archive == name then multiset{last.digest} else multiset{})
  }

  function Recorded(index: seq<seq<Record>>): seq<Record> {
    if index == [] then [] else Recorded(index[..|index| - 1]) + index[|index| - 1]
  }

  /** Every record's section is in its archive, counting repetitions. */
  ghost predicate Held(archives: map<string, string>, records: seq<Record>) {
    forall name :: Wanted(records, name) <= multiset(SectionsOf(archives, name))
  }

  /** Every text of the store ends at a boundary. */
  predicate Bounded(d: Disk) {
    Boundary(d.handoff) && forall name :: name in d.archives ==> Boundary(d.archives[name])
  }

  /** Everything that was ever in the handoff: what is still there and what was moved out. */
  function Ever(d: Disk): multiset<string> {
    multiset(Sections(d.handoff)) + multiset(Digests(d.moved))
  }

  /**
    The store invariant: every text ends at a boundary, the archives hold
    everything that was moved, and the index records only what was moved.
  */
  ghost predicate Inv(d: Disk) {
    && Bounded(d)
    && Held(d.archives, d.moved)
    && multiset(Recorded(d.index)) <= multiset(d.moved)
  }

  lemma {:induction false} WantedConcat(a: seq<Record>, b: seq<Record>, name: string)
    ensures Wanted(a + b, name) == Wanted(a, name) + Wanted(b, name)
    decreases |b|
  {
    if b == [] {
      assert a + b == a;
    } else {
      assert (a + b)[..|a + b| - 1] == a + b[..|b| - 1];
      WantedConcat(a, b[..|b| - 1], name);
    }
  }

  lemma {:induction false} DigestsConcat(a: seq<Record>, b: seq<Record>)
    ensures Digests(a + b) == Digests(a) + Digests(b)
    decreases |b|
  {
    if b == [] {
      assert a + b == a;
    } else {
      assert (a + b)[..|a + b| - 1] == a + b[..|b| - 1];
      DigestsConcat(a, b[..|b| - 1]);
    }
  }

  /** Fewer records want less. */
  lemma {:induction false} WantedMonotone(a: seq<Record>, b: seq<Record>, name: string)
    requires multiset(a) <= multiset(b)
    ensures Wanted(a, name) <= Wanted(b, name)
    decreases |a|
  {
    hide Wanted;
    if a == [] {
      WantedNone(name);
    } else {
      var r, a0 := a[|a| - 1], a[..|a| - 1];
      assert a == a0 + [r];
      assert multiset(a) == multiset(a0) + multiset{r};
      assert r in multiset(a) && r in multiset(b);
      var i :| 0 <= i < |b| && b[i] == r;
      var b0 := TakeOut(b, i);
      Cancel(multiset(a0), multiset(b0), r);
      WantedMonotone(a0, b0, name);
      WantedTakeOut(b, i, name);
      WantedConcat(a0, [r], name);
    }
  }

  lemma Cancel(a: multiset<Record>, b: multiset<Record>, r: Record)
    requires a + multiset{r} <= b + multiset{r}
    ensures a <= b
  {
    forall x ensures a[x] <= b[x] {
      assert (a + multiset{r})[x] <= (b + multiset{r})[x];
    }
  }

  function TakeOut(b: seq<Record>, i: nat): (r: seq<Record>)
    requires i < |b|
    ensures multiset(b) == multiset(r) + multiset{b[i]}
  {
    assert b == b[..i] + [b[i]] + b[i + 1..];
    b[..i] + b[i + 1..]
  }

  lemma WantedNone(name: string)
    ensures Wanted([], name) == multiset{}
  {
  }

  lemma WantedTakeOut(b: seq<Record>, i: nat, name: string)
    requires i < |b|
    ensures Wanted(b, name) == Wanted(TakeOut(b, i), name) + Wanted([b[i]], name)
  {
    hide Wanted;
    assert b == b[..i] + ([b[i]] + b[i + 1..]);
    WantedConcat(b[..i], [b[i]] + b[i + 1..], name);
    WantedConcat([b[i]], b[i + 1..], name);
    WantedConcat(b[..i], b[i + 1..], name);
  }

  lemma WantedOne(r: Record, name: string)
    ensures Wanted([r], name) == if r.archive == name then multiset{r.digest} else multiset{}
  {
    assert [r][..0] == [];
  }

  /** The records of one group. */
  function GroupRecords(name: string, items: seq<string>): (r: seq<Record>)
    ensures |r| == |items|
  {
    if items == [] then [] else GroupRecords(name, items[..|items| - 1]) + [Record(name, items[|items| - 1])]
  }

  lemma {:induction false} GroupWanted(name: string, items: seq<string>, other: string)
    ensures Wanted(GroupRecords(name, items), other) == if other == name then multiset(items) else multiset{}
    ensures Digests(GroupRecords(name, items)) == items
  {
    if items != [] {
      var n := |items| - 1;
      GroupWanted(name, items[..n], other);
      assert items == items[..n] + [items[n]];
      assert GroupRecords(name, items)[..n] == GroupRecords(name, items[..n]);
    }
  }

  // ---------------------------------------------------------------- the single writes

  predicate MonthName(m: string) {
    forall i :: 0 <= i < |m| ==> '0' <= m[i] <= '9' || m[i] == '-'
  }

  function Header(month: string): string {
    ("# docich handoff archive — " + month + " (private, gitignored; do not commit)") + "\n" + "\n"
  }

  lemma {:induction false} FirstLineIs(x: string, y: string)
    requires forall i :: 0 <= i < |x| ==> !IsBreak(x[i])
    ensures FirstLine(x + "\n" + y) == |x| + 1
  {
    var t := x + "\n" + y;
    if x == "" {
      assert t[0] == '\n';
    } else {
      assert t[0] == x[0] && t[1..] == x[1..] + "\n" + y;
      FirstLineIs(x[1..], y);
    }
  }

  /** A fresh archive ends at a boundary and holds no section. */
  lemma HeaderIsBoundary(month: string)
    requires MonthName(month)
    ensures Boundary(Header(month)) && Sections(Header(month)) == []
  {
    hide Lines, FenceAfter, NextFence, Token, Split, Texts;
    var x := "# docich handoff archive — " + month + " (private, gitignored; do not commit)";
    assert x[0] == '#';
    forall i | 0 <= i < |x| ensures !IsBreak(x[i]) {
      NoBreakInHeader(month, i);
    }
    var t := x + "\n" + "\n";
    assert Header(month) == t && Terminated(t);
    FirstLineIs(x, "\n");
    LinesUnfold(t, |x| + 1);
    assert t[..|x| + 1] == x + "\n" && t[|x| + 1..] == "\n";
    NewlineLine();
    var lines := Lines(t);
    assert lines == [x + "\n", "\n"];
    NoTokenOnText(x + "\n");
    TwoPlainLines(x + "\n", "\n");
    Definitions(t);
  }

  lemma TwoPlainLines(a: string, b: string)
    requires NextFence(Closed, a) == Closed == NextFence(Closed, b) && !Heading(a) && !Heading(b)
    ensures FenceAfter(Closed, [a, b]) == Closed && Texts(Split(Closed, [a, b]).sections) == []
  {
    hide Lines, FenceAfter, NextFence, Token, Heading, Split;
    assert [a, b][1..] == [b] && [b][1..] == [];
    FenceUnfold(Closed, [a, b]);
    FenceUnfold(Closed, [b]);
    FenceNothing(Closed);
    SplitUnfold(Closed, [a, b]);
    SplitUnfold(Closed, [b]);
    NothingToSplit(Closed);
  }

  lemma NoBreakInHeader(month: string, i: nat)
    requires MonthName(month)
    requires i < |"# docich handoff archive — " + month + " (private, gitignored; do not commit)"|
    ensures !IsBreak(("# docich handoff archive — " + month + " (private, gitignored; do not commit)")[i])
  {
    var a, c := "# docich handoff archive — ", " (private, gitignored; do not commit)";
    if |a| <= i < |a| + |month| {
      assert (a + month + c)[i] == month[i - |a|];
    }
  }

  lemma NewlineLine()
    ensures Lines("\n") == ["\n"] && NextFence(Closed, "\n") == Closed
  {
    NoLines();
    LinesUnfold("\n", 1);
    assert "\n"[..1] == "\n" && "\n"[1..] == "" && LStrip("") == "";
    assert ["\n"] + [] == ["\n"];
    assert LStrip("\n") == "";
  }

  lemma NoTokenOnText(line: string)
    requires line != "" && line[0] == '#'
    ensures NextFence(Closed, line) == Closed
  {
    assert LStrip(line) == line;
  }

  function Existing(archives: map<string, string>, name: string, month: string): string {
    if name in archives then archives[name] else Header(month)
  }

  /** Appending a group of complete sections to its archive adds exactly those sections. */
  lemma ArchiveWriteHolds(archives: map<string, string>, records: seq<Record>, name: string, month: string,
    items: seq<string>)
    requires Held(archives, records) && MonthName(month)
    requires forall n :: n in archives ==> Boundary(archives[n])
    requires forall i :: 0 <= i < |items| ==> WholeSection(items[i])
    ensures var archives' := archives[name := Existing(archives, name, month) + Join(items)];
      && Held(archives', records + GroupRecords(name, items))
      && (forall n :: n in archives' ==> Boundary(archives'[n]))
      && SectionsOf(archives', name) == SectionsOf(archives, name) + items
  {
    hide *;
    HeaderIsBoundary(month);
    SectionsOfMeans(archives, name);
    var old_ := Existing(archives, name, month);
    var archives' := archives[name := old_ + Join(items)];
    ExistingMeans(archives, name, month);
    AppendWholeSections(old_, items);
    SectionsOfMeans(archives', name);
    forall n ensures Wanted(records + GroupRecords(name, items), n) <= multiset(SectionsOf(archives', n)) {
      HeldAt(archives, records, n);
      WantedConcat(records, GroupRecords(name, items), n);
      GroupWanted(name, items, n);
      SectionsOfMeans(archives, n);
      SectionsOfMeans(archives', n);
    }
    HeldAll(archives', records + GroupRecords(name, items));
  }

  lemma ExistingMeans(archives: map<string, string>, name: string, month: string)
    ensures Existing(archives, name, month) == if name in archives then archives[name] else Header(month)
  {
    hide Header;
  }

  lemma SectionsOfMeans(archives: map<string, string>, name: string)
    ensures SectionsOf(archives, name) == if name in archives then Sections(archives[name]) else []
  {
    hide Sections;
  }

  lemma HeldAt(archives: map<string, string>, records: seq<Record>, name: string)
    requires Held(archives, records)
    ensures Wanted(records, name) <= multiset(SectionsOf(archives, name))
  {
  }

  lemma HeldAll(archives: map<string, string>, records: seq<Record>)
    requires forall name :: Wanted(records, name) <= multiset(SectionsOf(archives, name))
    ensures Held(archives, records)
  {
  }

  /** Some archive holds this section. */
  ghost predicate Archived(archives: map<string, string>, x: string) {
    exists name :: name in archives && x in Sections(archives[name])
  }

  lemma ArchivedMeans(archives: map<string, string>, x: string)
    ensures Archived(archives, x) <==> exists name :: x in SectionsOf(archives, name)
  {
    hide Sections;
    if name :| x in SectionsOf(archives, name) { SectionsOfMeans(archives, name); }
    if name :| name in archives && x in Sections(archives[name]) { SectionsOfMeans(archives, name); }
  }

  /** Leaving the handoff to other agents keeps the invariant as long as they leave it at a boundary. */
  lemma AgentWriteKeepsInv(d: Disk, handoff: string)
    requires Inv(d) && Boundary(handoff)
    ensures Inv(d.(handoff := handoff))
  {
    hide Sections, Boundary, Held, Digests, Recorded;
  }

  /** Writing archives alone, however far it got, keeps the invariant: duplicates are never a loss. */
  lemma ArchiveWritesKeepInv(d: Disk, archives: map<string, string>, records: seq<Record>)
    requires Inv(d)
    requires Held(archives, d.moved + records)
    requires forall n :: n in archives ==> Boundary(archives[n])
    ensures Inv(d.(archives := archives))
  {
    hide Sections, Boundary, SectionsOf, Wanted, Digests, Recorded;
    forall name ensures Wanted(d.moved, name) <= multiset(SectionsOf(archives, name)) {
      HeldAt(archives, d.moved + records, name);
      WantedConcat(d.moved, records, name);
    }
  }

  /** Rewriting the handoff to its first `cut` sections, once the archives hold the rest. */
  lemma HandoffWriteKeepsInv(d: Disk, records: seq<Record>, cut: nat)
    requires Inv(d) && cut < |Sections(d.handoff)|
    requires Held(d.archives, d.moved + records)
    requires multiset(Digests(records)) == multiset(Sections(d.handoff)[cut..])
    ensures var kept := Preamble(d.handoff) + Join(Sections(d.handoff)[..cut]);
      && Sections(kept) == Sections(d.handoff)[..cut]
      && Inv(d.(handoff := kept, moved := d.moved + records))
      && Ever(d.(handoff := kept, moved := d.moved + records)) == Ever(d)
  {
    hide Sections, Preamble, Boundary, SectionsOf, Wanted, Digests, Recorded, Held;
    var s := Sections(d.handoff);
    CutBeforeSection(d.handoff, cut);
    assert s == s[..cut] + s[cut..];
    DigestsConcat(d.moved, records);
  }

  /** Appending the index entry of a finished rotation. */
  lemma IndexWriteKeepsInv(d: Disk, records: seq<Record>)
    requires Inv(d)
    requires multiset(Recorded(d.index)) + multiset(records) <= multiset(d.moved)
    ensures Inv(d.(index := d.index + [records]))
  {
    hide Sections, Boundary, Held, Digests;
    assert (d.index + [records])[..|d.index|] == d.index;
  }

  // ---------------------------------------------------------------- other agents

  /** The document with complete sections put in front of its sections. */
  function Prepended(t: string, xs: seq<string>): string {
    Preamble(t) + Join(xs + Sections(t))
  }

  lemma PreambleIsBoundary(t: string)
    requires Boundary(t)
    ensures Boundary(Preamble(t)) && Sections(Preamble(t)) == [] && Preamble(Preamble(t)) == Preamble(t)
  {
    hide *;
    SplitLosesNothing(t);
    JoinNone();
    if Sections(t) == [] {
      assert Preamble(t) + "" == Preamble(t);
    } else {
      CutBeforeSection(t, 0);
      assert Sections(t)[..0] == [] && Preamble(t) + "" == Preamble(t);
    }
  }

  /** Prepending complete sections adds exactly those sections and keeps the invariant. */
  lemma PrependKeepsInv(d: Disk, xs: seq<string>)
    requires Inv(d) && forall i :: 0 <= i < |xs| ==> WholeSection(xs[i])
    ensures Sections(Prepended(d.handoff, xs)) == xs + Sections(d.handoff)
    ensures Inv(d.(handoff := Prepended(d.handoff, xs)))
    ensures Ever(d.(handoff := Prepended(d.handoff, xs))) == Ever(d) + multiset(xs)
  {
    hide Sections, Preamble, Boundary, Held, Digests, Recorded, WholeSection;
    var t := d.handoff;
    PreambleIsBoundary(t);
    forall i | 0 <= i < |xs + Sections(t)| ensures WholeSection((xs + Sections(t))[i]) {
      if i >= |xs| { SectionsAreWhole(t, i - |xs|); }
    }
    AppendWholeSections(Preamble(t), xs + Sections(t));
    assert [] + (xs + Sections(t)) == xs + Sections(t);
  }

  // ---------------------------------------------------------------- verify

  /** What `verify` checks: everything recorded is still archived, counting repetitions. */
  ghost predicate AllArchived(d: Disk) { Held(d.archives, Recorded(d.index)) }

  lemma InvMeansVerified(d: Disk)
    requires Inv(d)
    ensures AllArchived(d)
  {
    hide Sections, Boundary, SectionsOf, Wanted, Digests;
    forall name ensures Wanted(Recorded(d.index), name) <= multiset(SectionsOf(d.archives, name)) {
      HeldAt(d.archives, d.moved, name);
      WantedMonotone(Recorded(d.index), d.moved, name);
    }
  }

  lemma {:induction false} DigestInWanted(records: seq<Record>, i: nat)
    requires i < |records|
    ensures records[i].digest in Wanted(records, records[i].archive)
    decreases |records|
  {
    if i < |records| - 1 { DigestInWanted(records[..|records| - 1], i); }
  }

  /** Every section counted by `Ever` is in the handoff or in an archive. */
  lemma NothingIsLost(d: Disk, x: string)
    requires Inv(d) && x in Ever(d)
    ensures x in Sections(d.handoff) || Archived(d.archives, x)
  {
    hide Sections, Boundary, Wanted;
    if x !in Sections(d.handoff) {
      assert x in Digests(d.moved);
      var i :| 0 <= i < |Digests(d.moved)| && Digests(d.moved)[i] == x;
      DigestAt(d.moved, i);
      DigestInWanted(d.moved, i);
      HeldAt(d.archives, d.moved, d.moved[i].archive);
    }
  }

  lemma {:induction false} DigestAt(records: seq<Record>, i: nat)
    requires i < |records|
    ensures Digests(records)[i] == records[i].digest
    decreases |records|
  {
    if i < |records| - 1 { DigestAt(records[..|records| - 1], i); }
  }
}
