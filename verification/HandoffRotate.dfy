/**
  The rotation, the prefix selection and the verifier of ops/local/handoff_rotate.py
  over the files of the private area.  A run may stop between any two file writes.
*/
module HandoffRotate {
  import opened Wrappers
  import opened HandoffText
  import opened HandoffSections
  import opened HandoffStore
  import opened Strings

  /** What a run takes from the section headings and from the day it runs on. */
  datatype Calendar = Calendar(
    instant: string -> Option<nat>,            // the timestamp in a section's heading, from the earliest one on
    month: string -> string,                   // the archive month, today's for an undated section
    digestBefore: (string, string) -> bool)    // the order of the sections' digests

  /** Months are names like `2026-10`, and digests have an order. */
  ghost predicate NamesMonths(cal: Calendar) { (forall x :: MonthName(cal.month(x))) && IsOrder(cal.digestBefore) }

  /** Where a run is interrupted, by an error of the system or by death: at a month's archive or a later point. */
  datatype Stop = Never | AtArchive(group: nat) | BeforeRewrite | AfterRewrite | AfterCheck | AfterIndex

  datatype Outcome = NothingToDo | DryRun | Rotated | Changed | ArchiveCheckFailed | HandoffCheckFailed | Interrupted

  // ---------------------------------------------------------------- how much to keep

  function Min(a: int, b: int): int { if a < b then a else b }
  function Max(a: int, b: int): int { if a > b then a else b }

  /** The newest timestamp among the sections. */
  ghost predicate Newest(sections: seq<string>, cal: Calendar, r: Option<nat>) {
    && (forall i :: 0 <= i < |sections| && cal.instant(sections[i]).Some? ==>
          r.Some? && cal.instant(sections[i]).value <= r.value)
    && (r.Some? ==> exists i :: 0 <= i < |sections| && cal.instant(sections[i]) == r)
  }

  method Reference(sections: seq<string>, cal: Calendar) returns (r: Option<nat>)
    ensures Newest(sections, cal, r)
  {
    r := None;
    for i := 0 to |sections|
      invariant Newest(sections[..i], cal, r)
    {
      assert sections[..i + 1] == sections[..i] + [sections[i]];
      var t := cal.instant(sections[i]);
      if t.Some? && (r.None? || t.value > r.value) {
        r := t;
        assert cal.instant(sections[..i + 1][i]) == r;
      } else if r.Some? {
        var k :| 0 <= k < |sections[..i]| && cal.instant(sections[..i][k]) == r;
        assert cal.instant(sections[..i + 1][k]) == r;
      }
    }
    assert sections[..|sections|] == sections;
  }

  /** Section i is recent: dated within the window before the newest timestamp. */
  ghost predicate Recent(sections: seq<string>, cal: Calendar, within: int, i: nat)
    requires i < |sections|
  {
    within > 0 && cal.instant(sections[i]).Some? &&
    forall r: nat :: Newest(sections, cal, Some(r)) ==> cal.instant(sections[i]).value >= r - within
  }

  /** The newest `keep` sections, extended to the last recent section, at least one and at most all. */
  ghost predicate KeepsPrefix(sections: seq<string>, cal: Calendar, keep: int, within: int, cut: nat) {
    && (sections == [] ==> cut == 0)
    && (sections != [] ==> 1 <= cut <= |sections|)
    && cut >= Min(keep, |sections|)
    && (forall i :: 0 <= i < |sections| && Recent(sections, cal, within, i) ==> i < cut)
    && (cut > Max(1, Min(keep, |sections|)) ==> Recent(sections, cal, within, cut - 1))
  }

  /** Only one prefix is kept. */
  lemma PrefixUnique(sections: seq<string>, cal: Calendar, keep: int, within: int, a: nat, b: nat)
    requires KeepsPrefix(sections, cal, keep, within, a) && KeepsPrefix(sections, cal, keep, within, b)
    ensures a == b
  {
    hide Recent;
  }

  lemma PrefixBounds(sections: seq<string>, cal: Calendar, keep: int, within: int, cut: nat)
    requires KeepsPrefix(sections, cal, keep, within, cut)
    ensures cut <= |sections| && (cut < |sections| ==> !KeepsPrefix(sections, cal, keep, within, |sections|))
  {
    hide Recent;
    if KeepsPrefix(sections, cal, keep, within, |sections|) {
      PrefixUnique(sections, cal, keep, within, cut, |sections|);
    }
  }

  /** How many leading sections to keep. */
  method SelectPrefix(sections: seq<string>, cal: Calendar, keep: int, within: int) returns (cut: nat)
    ensures KeepsPrefix(sections, cal, keep, within, cut)
  {
    hide Newest, Recent;
    if sections == [] {
      return 0;
    }
    var n := Min(keep, |sections|);
    var reference := Reference(sections, cal);
    RecentMeans(sections, cal, within, reference);
    if within > 0 && reference.Some? {
      var floor := reference.value - within;
      for index := 0 to |sections|
        invariant Min(keep, |sections|) <= n <= |sections|
        invariant forall i :: 0 <= i < index && Recent(sections, cal, within, i) ==> i < n
        invariant n > Min(keep, |sections|) ==> 0 < n && Recent(sections, cal, within, n - 1)
      {
        var t := cal.instant(sections[index]);
        if t.Some? && t.value >= floor {
          n := Max(n, index + 1);
        }
      }
    }
    cut := Max(1, Min(n, |sections|));
  }

  /** Against the newest timestamp, the window is a plain comparison. */
  lemma RecentMeans(sections: seq<string>, cal: Calendar, within: int, reference: Option<nat>)
    requires Newest(sections, cal, reference)
    ensures forall i :: 0 <= i < |sections| ==>
      (Recent(sections, cal, within, i) <==>
        within > 0 && reference.Some? && cal.instant(sections[i]).Some? &&
          cal.instant(sections[i]).value >= reference.value - within)
  {
    if reference.Some? { NewestUnique(sections, cal, reference.value); }
  }

  lemma NewestUnique(sections: seq<string>, cal: Calendar, r: nat)
    requires Newest(sections, cal, Some(r))
    ensures forall q :: Newest(sections, cal, Some(q)) ==> q == r
  {
    forall q | Newest(sections, cal, Some(q)) ensures q == r {
      var i :| 0 <= i < |sections| && cal.instant(sections[i]) == Some(r);
      var j :| 0 <= j < |sections| && cal.instant(sections[j]) == Some(q);
    }
  }

  // ---------------------------------------------------------------- grouping by month

  datatype Group = Group(month: string, items: seq<string>)

  function FileName(month: string): string { month + ".md" }

  lemma FileNameInjective(a: string, b: string)
    requires FileName(a) == FileName(b)
    ensures a == b
  {
    assert |a| == |b|;
    assert FileName(a)[..|a|] == a && FileName(b)[..|b|] == b;
  }

  /** The sort key: an undated section counts as the earliest, ties go by digest. */
  function Key(cal: Calendar, x: string): nat {
    match cal.instant(x) case None => 0 case Some(t) => t
  }

  predicate Earlier(cal: Calendar, x: string, y: string) {
    Key(cal, x) < Key(cal, y) || (Key(cal, x) == Key(cal, y) && cal.digestBefore(x, y))
  }

  /** Undated sections come first, then by timestamp; the digest decides only where these agree. */
  lemma EarlierMeans(cal: Calendar, x: string, y: string)
    ensures cal.instant(x).Some? && cal.instant(y).Some? && cal.instant(x).value != cal.instant(y).value ==>
      (Earlier(cal, x, y) <==> cal.instant(x).value < cal.instant(y).value)
    ensures cal.instant(x) == cal.instant(y) ==> (Earlier(cal, x, y) <==> cal.digestBefore(x, y))
    ensures cal.instant(x).None? && cal.instant(y).Some? && cal.instant(y).value > 0 ==>
      Earlier(cal, x, y) && !Earlier(cal, y, x)
  {
  }

  /** Earlier(cal, _, _) as a value. */
  function Order(cal: Calendar): (string, string) -> bool {
    (x: string, y: string) => Earlier(cal, x, y)
  }

  /** Every item lies in the group of its own month. */
  ghost predicate Filed(groups: seq<Group>, cal: Calendar) {
    forall g, i :: 0 <= g < |groups| && 0 <= i < |groups[g].items| ==> cal.month(groups[g].items[i]) == groups[g].month
  }

  /** Within each group the timestamps ascend, and ties by digest if digests are ordered. */
  ghost predicate Dated(items: seq<string>, cal: Calendar) {
    && (forall i, j :: 0 <= i < j < |items| ==> Key(cal, items[i]) <= Key(cal, items[j]))
    && forall i, j :: 0 <= i < j < |items| ==> !Earlier(cal, items[j], items[i])
  }

  lemma OrderedMeans(items: seq<string>, cal: Calendar)
    requires Ordered(items, Order(cal))
    ensures Dated(items, cal)
  {
    assert forall i, j :: 0 <= i < j < |items| ==> !Order(cal)(items[j], items[i]);
    forall i, j | 0 <= i < j < |items| ensures !Earlier(cal, items[j], items[i]) {
      assert !Order(cal)(items[j], items[i]);
    }
  }

  lemma OrderIsOrder(cal: Calendar)
    requires IsOrder(cal.digestBefore)
    ensures IsOrder(Order(cal))
  {
    hide Key;
  }

  /** Inserts a section behind those that come before it or tie with it. */
  function InsertItem(items: seq<string>, x: string, before: (string, string) -> bool): (r: seq<string>)
    ensures multiset(r) == multiset(items) + multiset{x}
  {
    if items == [] || before(x, items[0]) then [x] + items
    else
      assert items == [items[0]] + items[1..];
      [items[0]] + InsertItem(items[1..], x, before)
  }

  function SortItems(items: seq<string>, before: (string, string) -> bool): (r: seq<string>)
    ensures multiset(r) == multiset(items)
  {
    if items == [] then []
    else
      var n := |items| - 1;
      assert items == items[..n] + [items[n]];
      InsertItem(SortItems(items[..n], before), items[n], before)
  }

  /** The comparison is a strict weak order, as a comparison of keys is. */
  ghost predicate IsOrder(before: (string, string) -> bool) {
    && (forall x, y :: before(x, y) ==> !before(y, x))
    && (forall x, y, z :: !before(x, y) && !before(y, z) ==> !before(x, z))
  }

  ghost predicate Ordered(items: seq<string>, before: (string, string) -> bool) {
    forall i, j :: 0 <= i < j < |items| ==> !before(items[j], items[i])
  }

  lemma {:induction false} InsertOrdered(items: seq<string>, x: string, before: (string, string) -> bool)
    requires IsOrder(before) && Ordered(items, before)
    ensures Ordered(InsertItem(items, x, before), before)
  {
    if items != [] && !before(x, items[0]) {
      var rest := InsertItem(items[1..], x, before);
      InsertOrdered(items[1..], x, before);
      forall y | y in rest ensures !before(y, items[0]) {
        assert y in multiset(rest);
        assert y == x || y in items[1..];
      }
    }
  }

  lemma {:induction false} SortOrdered(items: seq<string>, before: (string, string) -> bool)
    requires IsOrder(before)
    ensures Ordered(SortItems(items, before), before)
  {
    if items != [] {
      var n := |items| - 1;
      SortOrdered(items[..n], before);
      InsertOrdered(SortItems(items[..n], before), items[n], before);
    }
  }

  /** Months ascend strictly. */
  ghost predicate Ascends(groups: seq<Group>) {
    forall i, j :: 0 <= i < j < |groups| ==>
      StringLeq(groups[i].month, groups[j].month) && groups[i].month != groups[j].month
  }

  /** Inserts a group before the first one of a later month. */
  function InsertGroup(groups: seq<Group>, g: Group): (r: seq<Group>)
    ensures multiset(r) == multiset(groups) + multiset{g}
  {
    if groups == [] || StringLeq(g.month, groups[0].month) then [g] + groups
    else
      assert groups == [groups[0]] + groups[1..];
      [groups[0]] + InsertGroup(groups[1..], g)
  }

  lemma {:induction false} InsertAscends(groups: seq<Group>, g: Group)
    requires Ascends(groups) && forall i :: 0 <= i < |groups| ==> groups[i].month != g.month
    ensures Ascends(InsertGroup(groups, g))
  {
    hide StringLeq;
    if groups == [] {
    } else if StringLeq(g.month, groups[0].month) {
      forall i | 0 <= i < |groups| ensures StringLeq(g.month, groups[i].month) {
        if i > 0 { StringLeqTransitive(g.month, groups[0].month, groups[i].month); }
      }
    } else {
      var rest := InsertGroup(groups[1..], g);
      InsertAscends(groups[1..], g);
      StringLeqTotal(g.month, groups[0].month);
      forall y | y in rest ensures StringLeq(groups[0].month, y.month) && groups[0].month != y.month {
        assert y in multiset(rest);
        assert y == g || y in groups[1..];
      }
    }
  }

  function AllItems(groups: seq<Group>): seq<string> {
    if groups == [] then [] else AllItems(groups[..|groups| - 1]) + groups[|groups| - 1].items
  }

  /** Distinct valid months, holding together exactly the given sections. */
  ghost predicate Grouped(groups: seq<Group>, sections: seq<string>) {
    && (forall i, j :: 0 <= i < j < |groups| ==> groups[i].month != groups[j].month)
    && (forall i :: 0 <= i < |groups| ==> MonthName(groups[i].month))
    && multiset(AllItems(groups)) == multiset(sections)
  }

  lemma {:induction false} AllItemsUpdate(groups: seq<Group>, i: nat, g: Group, extra: multiset<string>)
    requires i < |groups| && multiset(g.items) == multiset(groups[i].items) + extra
    ensures multiset(AllItems(groups[i := g])) == multiset(AllItems(groups)) + extra
    decreases |groups|
  {
    hide AllItems;
    var init, last := groups[..|groups| - 1], groups[|groups| - 1];
    assert groups == init + [last];
    AllItemsSnoc(init, last);
    if i == |init| {
      assert groups[i := g] == init + [g];
      AllItemsSnoc(init, g);
    } else {
      assert groups[i := g] == init[i := g] + [last];
      AllItemsSnoc(init[i := g], last);
      AllItemsUpdate(init, i, g, extra);
    }
  }

  lemma AllItemsSnoc(groups: seq<Group>, g: Group)
    ensures AllItems(groups + [g]) == AllItems(groups) + g.items
  {
    assert (groups + [g])[..|groups|] == groups;
  }

  lemma {:induction false} AllItemsCons(g: Group, groups: seq<Group>)
    ensures AllItems([g] + groups) == g.items + AllItems(groups)
    decreases |groups|
  {
    if groups == [] {
      assert [g] + groups == [] + [g];
      AllItemsSnoc([], g);
      assert AllItems([]) == [] && [] + g.items == g.items + [];
    } else {
      var n := |groups| - 1;
      assert ([g] + groups)[..|[g] + groups| - 1] == [g] + groups[..n];
      AllItemsCons(g, groups[..n]);
      assert (g.items + AllItems(groups[..n])) + groups[n].items == g.items + (AllItems(groups[..n]) + groups[n].items);
    }
  }

  lemma {:induction false} InsertAllItems(groups: seq<Group>, g: Group)
    ensures multiset(AllItems(InsertGroup(groups, g))) == multiset(AllItems(groups)) + multiset(g.items)
  {
    hide StringLeq, AllItems;
    if groups == [] || StringLeq(g.month, groups[0].month) {
      AllItemsCons(g, groups);
    } else {
      InsertAllItems(groups[1..], g);
      AllItemsCons(groups[0], InsertGroup(groups[1..], g));
      AllItemsCons(groups[0], groups[1..]);
      assert groups == [groups[0]] + groups[1..];
    }
  }

  /** Sorts sections into months, then each month's list, then the months. */
  method ArchiveGroups(sections: seq<string>, cal: Calendar) returns (groups: seq<Group>)
    requires NamesMonths(cal)
    ensures Grouped(groups, sections) && Ascends(groups) && Filed(groups, cal)
    ensures forall g :: 0 <= g < |groups| ==> Dated(groups[g].items, cal)
  {
    hide AllItems, MonthName, IsOrder, Ordered, StringLeq, Dated, Order, Filed, SortItems;
    groups := CollectMonths(sections, cal);
    OrderIsOrder(cal);
    ghost var n := |groups|;
    for i := 0 to |groups|
      invariant |groups| == n && Grouped(groups, sections) && Filed(groups, cal)
      invariant forall g :: 0 <= g < i ==> Dated(groups[g].items, cal)
    {
      var g := Group(groups[i].month, SortItems(groups[i].items, Order(cal)));
      AllItemsUpdate(groups, i, g, multiset{});
      SortOrdered(groups[i].items, Order(cal));
      OrderedMeans(g.items, cal);
      FiledUpdate(groups, cal, i, g);
      groups := groups[i := g];
    }
    groups := SortMonths(groups, sections, cal);
  }

  lemma FiledUpdate(groups: seq<Group>, cal: Calendar, i: nat, g: Group)
    requires i < |groups| && Filed(groups, cal)
    requires g.month == groups[i].month && multiset(g.items) == multiset(groups[i].items)
    ensures Filed(groups[i := g], cal)
  {
    forall k | 0 <= k < |g.items| ensures cal.month(g.items[k]) == g.month {
      assert g.items[k] in multiset(groups[i].items);
    }
  }

  method CollectMonths(sections: seq<string>, cal: Calendar) returns (groups: seq<Group>)
    requires NamesMonths(cal)
    ensures Grouped(groups, sections) && Filed(groups, cal)
  {
    hide AllItems, MonthName;
    groups := [];
    NoItems();
    for s := 0 to |sections|
      invariant Grouped(groups, sections[..s]) && Filed(groups, cal)
    {
      assert sections[..s + 1] == sections[..s] + [sections[s]];
      assert multiset([sections[s]]) == multiset{sections[s]};
      var month := cal.month(sections[s]);
      var at := 0;
      while at < |groups| && groups[at].month != month
        invariant 0 <= at <= |groups|
        invariant forall i :: 0 <= i < at ==> groups[i].month != month
      {
        at := at + 1;
      }
      if at < |groups| {
        var g := Group(month, groups[at].items + [sections[s]]);
        AllItemsUpdate(groups, at, g, multiset{sections[s]});
        groups := groups[at := g];
      } else {
        AllItemsSnoc(groups, Group(month, [sections[s]]));
        groups := groups + [Group(month, [sections[s]])];
      }
    }
    assert sections[..|sections|] == sections;
  }

  /** The groups in the order of their months. */
  method SortMonths(groups: seq<Group>, ghost sections: seq<string>, ghost cal: Calendar) returns (sorted: seq<Group>)
    requires Grouped(groups, sections) && Filed(groups, cal)
    requires forall g :: 0 <= g < |groups| ==> Dated(groups[g].items, cal)
    ensures Grouped(sorted, sections) && Ascends(sorted) && Filed(sorted, cal)
    ensures forall g :: 0 <= g < |sorted| ==> Dated(sorted[g].items, cal)
  {
    hide AllItems, MonthName, Dated, StringLeq, InsertGroup;
    sorted := [];
    NoItems();
    assert groups[..0] == [];
    for i := 0 to |groups|
      invariant Ascends(sorted) && multiset(sorted) == multiset(groups[..i])
      invariant multiset(AllItems(sorted)) == multiset(AllItems(groups[..i]))
    {
      assert groups[..i + 1] == groups[..i] + [groups[i]];
      SameGroups(sorted, groups[..i]);
      InsertAscends(sorted, groups[i]);
      InsertAllItems(sorted, groups[i]);
      AllItemsSnoc(groups[..i], groups[i]);
      sorted := InsertGroup(sorted, groups[i]);
    }
    assert groups[..|groups|] == groups;
    SameGroups(sorted, groups);
    forall g | 0 <= g < |sorted| ensures Dated(sorted[g].items, cal) { assert sorted[g] in groups; }
  }

  lemma SameGroups(a: seq<Group>, b: seq<Group>)
    requires multiset(a) == multiset(b)
    ensures forall i :: 0 <= i < |a| ==> a[i] in b
  {
    forall i | 0 <= i < |a| ensures a[i] in b { assert a[i] in multiset(a); }
  }

  lemma NoItems()
    ensures AllItems([]) == []
  {
  }

  /** The archives after the groups were appended, each to the file of its month. */
  function Appended(archives: map<string, string>, groups: seq<Group>): map<string, string> {
    if groups == [] then archives
    else
      var init, last := Appended(archives, groups[..|groups| - 1]), groups[|groups| - 1];
      init[FileName(last.month) := Existing(init, FileName(last.month), last.month) + Join(last.items)]
  }

  /** The groups are the sections by month, in the order of their timestamps. */
  ghost predicate ByMonth(groups: seq<Group>, sections: seq<string>, cal: Calendar) {
    && Grouped(groups, sections) && Ascends(groups) && Filed(groups, cal)
    && forall g :: 0 <= g < |groups| ==> Dated(groups[g].items, cal)
  }

  /**
    The first months' sections, or all months' if `all`, were appended to their archives:
    nothing else was written there.  The new records name each section's own archive.
  */
  ghost predicate Files(d0: Disk, d: Disk, sections: seq<string>, cal: Calendar) {
    && (exists groups, n ::
          ByMonth(groups, sections, cal) && 0 <= n <= |groups| && d.archives == Appended(d0.archives, groups[..n])
          && (d.moved != d0.moved ==> n == |groups|))
    && d0.moved <= d.moved
    && forall i :: |d0.moved| <= i < |d.moved| ==> d.moved[i].archive == FileName(cal.month(d.moved[i].digest))
  }

  // ---------------------------------------------------------------- counting

  /** Counts section texts, duplicates included. */
  method DigestCounts(sections: seq<string>) returns (counts: map<string, nat>)
    ensures forall x :: (if x in counts then counts[x] else 0) == multiset(sections)[x]
  {
    counts := map[];
    for i := 0 to |sections|
      invariant forall x :: (if x in counts then counts[x] else 0) == multiset(sections[..i])[x]
    {
      assert sections[..i + 1] == sections[..i] + [sections[i]];
      counts := counts[sections[i] := (if sections[i] in counts then counts[sections[i]] else 0) + 1];
    }
    assert sections[..|sections|] == sections;
  }

  // ---------------------------------------------------------------- the store

  /** Archives only grow at their end. */
  ghost predicate Grown(a: map<string, string>, b: map<string, string>) {
    forall name :: name in a ==> name in b && a[name] <= b[name]
  }

  /** Every record was found again by parsing its archive. */
  ghost predicate Found(archives: map<string, string>, records: seq<Record>) {
    forall i :: 0 <= i < |records| ==>
      records[i].archive in archives && records[i].digest in Sections(archives[records[i].archive])
  }

  ghost predicate DistinctMonths(groups: seq<Group>) {
    && (forall i, j :: 0 <= i < j < |groups| ==> groups[i].month != groups[j].month)
    && (forall i :: 0 <= i < |groups| ==> MonthName(groups[i].month))
  }

  ghost predicate WholeItems(groups: seq<Group>) {
    forall g :: 0 <= g < |groups| ==> forall i :: 0 <= i < |groups[g].items| ==> WholeSection(groups[g].items[i])
  }

  ghost predicate AllBounded(archives: map<string, string>) {
    forall n :: n in archives ==> Boundary(archives[n])
  }

  /** The state of the archive loop after g groups. */
  ghost predicate Archiving(a0: map<string, string>, a: map<string, string>, moved: seq<Record>, records: seq<Record>,
    groups: seq<Group>, g: nat, good: bool)
  {
    && g <= |groups|
    && Grown(a0, a)
    && Digests(records) == AllItems(groups[..g])
    && Found(a, records)
    && (forall i :: 0 <= i < |records| ==> FromGroups(records[i], groups, g))
    && (good ==> Held(a, moved + records) && AllBounded(a) && OnlyAdds(a0, a, AllItems(groups[..g])))
  }

  /** The archives hold the sections they held before, and no others but the given ones. */
  ghost predicate OnlyAdds(a0: map<string, string>, a: map<string, string>, items: seq<string>) {
    forall x :: (Archived(a0, x) ==> Archived(a, x)) && (Archived(a, x) ==> Archived(a0, x) || x in items)
  }

  ghost predicate FromGroups(r: Record, groups: seq<Group>, g: nat)
    requires g <= |groups|
  {
    exists k :: 0 <= k < g && r.archive == FileName(groups[k].month) && r.digest in groups[k].items
  }

  /**
    What other agents make of the handoff while archives are written, between the
    second comparison and the replacement, and between the replacement and the check.
  */
  datatype Agents = Agents(look: string -> string, write: string -> string, check: string -> string)

  predicate AgentsBounded(agents: Agents, seen: string, cut: nat)
    requires cut <= |Sections(seen)|
  {
    Boundary(agents.look(seen)) && Boundary(agents.write(seen)) && Boundary(agents.check(Kept(seen, cut)))
  }

  /** What the rotation writes: the preamble and the kept sections of the handoff it read. */
  function Kept(seen: string, cut: nat): string
    requires cut <= |Sections(seen)|
  {
    Preamble(seen) + Join(Sections(seen)[..cut])
  }

  /**
    What a rotation may have done to the files when it ends or is interrupted.
    Archives only grow.  The handoff is rewritten only if it was unchanged at both
    comparisons and after every removed section was found again in its archive.  On a
    sound store that agents keep sound, archiving does not fail, the store stays
    sound, and the archives lose nothing and gain nothing but removed sections.
  */
  ghost predicate RotationEffect(d0: Disk, d: Disk, seen: string, agents: Agents, cut: nat, r: Outcome)
    requires cut < |Sections(seen)|
  {
    && Grown(d0.archives, d.archives)
    && (d0.handoff != seen ==> d == d0 && r == Changed)
    && (d0.handoff == seen ==> Untouched(d0, d, seen, agents, r) || Rewritten(d0, d, seen, agents, cut, r))
    && (Inv(d0) && AgentsBounded(agents, seen, cut) ==>
          Inv(d) && r != ArchiveCheckFailed && OnlyAdds(d0.archives, d.archives, Sections(seen)[cut..]))
  }

  /** The run ended before the handoff was rewritten: it is as the agents left it. */
  ghost predicate Untouched(d0: Disk, d: Disk, seen: string, agents: Agents, r: Outcome) {
    && d.index == d0.index && d.moved == d0.moved
    && (|| (d.handoff == agents.look(seen) &&
      (r in {Interrupted, ArchiveCheckFailed} || (r == Changed && agents.look(seen) != seen)))
        || (d.handoff == agents.write(seen) && r == Interrupted && agents.look(seen) == seen))
  }

  /**
    The handoff was rewritten to exactly the preamble and the kept sections, whatever
    it held at that moment, and then left to the agents again.  The archived records are exactly the removed sections.
  */
  ghost predicate Rewritten(d0: Disk, d: Disk, seen: string, agents: Agents, cut: nat, r: Outcome)
    requires cut < |Sections(seen)|
  {
    agents.look(seen) == seen && d.handoff == agents.check(Kept(seen, cut)) &&
      exists records :: MovedRecords(d0, d, records, seen, agents, cut, r)
  }

  /**
    The final check fails exactly when the sections found are not the kept ones; only a passed check is indexed,
    and a finished run always is.  A run may also be interrupted right after its index entry was written.
  */
  ghost predicate MovedRecords(d0: Disk, d: Disk, records: seq<Record>, seen: string, agents: Agents, cut: nat,
    r: Outcome)
    requires cut < |Sections(seen)|
  {
    && d.moved == d0.moved + records
    && multiset(Digests(records)) == multiset(Sections(seen)[cut..])
    && Found(d.archives, records)
    && r in {Rotated, HandoffCheckFailed, Interrupted}
    && (r == HandoffCheckFailed ==> Sections(agents.check(Kept(seen, cut))) != Sections(seen)[..cut])
    && (d.index == d0.index ||
          (d.index == d0.index + [records] && Sections(agents.check(Kept(seen, cut))) == Sections(seen)[..cut]))
    && (r == Rotated ==> d.index == d0.index + [records])
    && (r == HandoffCheckFailed ==> d.index == d0.index)
  }

  lemma SplitTexts(t: string)
    ensures Texts(Split(Closed, Lines(t)).sections) == Sections(t) &&
      Join(Split(Closed, Lines(t)).preamble) == Preamble(t)
  {
    hide Split, Lines;
  }

  lemma ArchiveStart(d: Disk, groups: seq<Group>)
    ensures Archiving(d.archives, d.archives, d.moved, [], groups, 0, Inv(d) && WholeItems(groups))
  {
    hide Boundary, Sections, SectionsOf, Archived;
    assert groups[..0] == [] && d.moved + [] == d.moved;
  }

  lemma ArchiveStop(a0: map<string, string>, a: map<string, string>, moved: seq<Record>, records: seq<Record>,
    groups: seq<Group>, g: nat, good: bool)
    requires Archiving(a0, a, moved, records, groups, g, good)
    ensures Grown(a0, a) && Found(a, records)
    ensures forall i :: 0 <= i < |records| ==> FromGroups(records[i], groups, |groups|)
    ensures g == |groups| ==> Digests(records) == AllItems(groups)
    ensures good ==> Held(a, moved + records) && AllBounded(a) && OnlyAdds(a0, a, AllItems(groups))
  {
    hide Held, AllBounded, Found, Grown, AllItems, Digests, Archived;
    assert groups[..|groups|] == groups;
    if good {
      forall x | x in AllItems(groups[..g]) ensures x in AllItems(groups) { AllItemsPrefix(groups, g, x); }
    }
  }

  lemma ArchivingRecords(a0: map<string, string>, a: map<string, string>, moved: seq<Record>, records: seq<Record>,
    groups: seq<Group>, g: nat, good: bool)
    requires Archiving(a0, a, moved, records, groups, g, good)
    ensures forall i :: 0 <= i < |records| ==> FromGroups(records[i], groups, g)
  {
    hide FromGroups, Held, Found, Grown, OnlyAdds;
  }

  lemma NoneAppended(archives: map<string, string>, groups: seq<Group>)
    ensures archives == Appended(archives, groups[..0])
  {
  }

  lemma OneAppended(a0: map<string, string>, before: map<string, string>, a: map<string, string>, groups: seq<Group>,
    g: nat)
    requires g < |groups| && before == Appended(a0, groups[..g])
    requires var name := FileName(groups[g].month);
      a == before[name := Existing(before, name, groups[g].month) + Join(groups[g].items)]
    ensures a == Appended(a0, groups[..g + 1])
  {
    hide Existing, Join;
    assert groups[..g + 1][..g] == groups[..g];
  }

  lemma RecordsFromGroups(records: seq<Record>, groups: seq<Group>, g: nat, all: seq<Record>)
    requires g < |groups| && forall i :: 0 <= i < |records| ==> FromGroups(records[i], groups, g)
    requires all == records + GroupRecords(FileName(groups[g].month), groups[g].items)
    ensures forall i :: 0 <= i < |all| ==> FromGroups(all[i], groups, |groups|)
  {
    hide FileName;
    forall i | 0 <= i < |all| ensures FromGroups(all[i], groups, |groups|) {
      if i >= |records| { GroupRecordAt(FileName(groups[g].month), groups[g].items, i - |records|); }
    }
  }

  /** A record of a group of its own month names the archive of that month. */
  lemma RecordsByMonth(records: seq<Record>, groups: seq<Group>, cal: Calendar)
    requires Filed(groups, cal) && forall i :: 0 <= i < |records| ==> FromGroups(records[i], groups, |groups|)
    ensures forall i :: 0 <= i < |records| ==> records[i].archive == FileName(cal.month(records[i].digest))
  {
  }

  lemma FilesAs(d0: Disk, d: Disk, sections: seq<string>, cal: Calendar, groups: seq<Group>, n: nat,
    records: seq<Record>)
    requires ByMonth(groups, sections, cal) && n <= |groups| && d.archives == Appended(d0.archives, groups[..n])
    requires d.moved == d0.moved || (d.moved == d0.moved + records && n == |groups|)
    requires forall i :: 0 <= i < |records| ==> FromGroups(records[i], groups, |groups|)
    ensures Files(d0, d, sections, cal)
  {
    hide ByMonth, Appended, FileName;
    assert Filed(groups, cal) by { assert ByMonth(groups, sections, cal); ByMonthFiled(groups, sections, cal); }
    RecordsByMonth(records, groups, cal);
  }

  lemma IsByMonth(groups: seq<Group>, sections: seq<string>, cal: Calendar)
    requires Grouped(groups, sections) && Ascends(groups) && Filed(groups, cal)
    requires forall g :: 0 <= g < |groups| ==> Dated(groups[g].items, cal)
    ensures ByMonth(groups, sections, cal)
  {
  }

  lemma ByMonthFiled(groups: seq<Group>, sections: seq<string>, cal: Calendar)
    requires ByMonth(groups, sections, cal)
    ensures Filed(groups, cal) && Grouped(groups, sections)
  {
  }

  lemma ArchiveStep(a0: map<string, string>, before: map<string, string>, moved: seq<Record>, records: seq<Record>,
    groups: seq<Group>, g: nat, a: map<string, string>, good: bool, ok: bool)
    requires g < |groups| && DistinctMonths(groups)
    requires Archiving(a0, before, moved, records, groups, g, good)
    requires good ==> WholeItems(groups)
    requires var name := FileName(groups[g].month);
      && a == before[name := Existing(before, name, groups[g].month) + Join(groups[g].items)]
      && (ok <==> forall i :: 0 <= i < |groups[g].items| ==> groups[g].items[i] in Sections(a[name]))
    ensures Grown(a0, a)
    ensures good ==> ok && AllBounded(a)
    ensures good ==> Held(a, moved + (records + GroupRecords(FileName(groups[g].month), groups[g].items)))
    ensures ok ==> Archiving(a0, a, moved, records + GroupRecords(FileName(groups[g].month), groups[g].items),
      groups, g + 1, good)
  {
    hide Held, AllBounded, Found, Grown, AllItems, Digests, FromGroups, Sections, Join, Existing, WholeItems,
      MonthName, FileName, Archived, OnlyAdds;
    var group := groups[g];
    var name := FileName(group.month);
    var more := GroupRecords(name, group.items);
    GrownByAppend(a0, before, a, name, group.month, Join(group.items));
    if good {
      GoodStep(before, moved, records, name, groups, g, a);
      OnlyAddsStep(a0, before, a, AllItems(groups[..g]), name, group.items);
    }
    if ok {
      assert groups[..g + 1][..g] == groups[..g] && groups[..g + 1][g] == group;
      AllItemsSnoc(groups[..g], group);
      assert groups[..g + 1] == groups[..g] + [group];
      DigestsConcat(records, more);
      GroupWanted(name, group.items, name);
      FoundStep(before, a, records, groups, g, name);
    }
  }

  lemma GrownByAppend(a0: map<string, string>, before: map<string, string>, a: map<string, string>, name: string,
    month: string, text: string)
    requires Grown(a0, before) && a == before[name := Existing(before, name, month) + text]
    ensures Grown(a0, a)
  {
    hide Header;
  }

  lemma GoodStep(before: map<string, string>, moved: seq<Record>, records: seq<Record>, name: string,
    groups: seq<Group>, g: nat, a: map<string, string>)
    requires g < |groups| && DistinctMonths(groups) && WholeItems(groups)
    requires Held(before, moved + records) && AllBounded(before)
    requires a == before[name := Existing(before, name, groups[g].month) + Join(groups[g].items)]
    ensures Held(a, moved + (records + GroupRecords(name, groups[g].items))) && AllBounded(a)
    ensures forall i :: 0 <= i < |groups[g].items| ==> groups[g].items[i] in Sections(a[name])
    ensures SectionsOf(a, name) == SectionsOf(before, name) + groups[g].items
  {
    hide Held, Sections, SectionsOf, Join, Existing, Boundary, WholeSection, MonthName;
    ArchiveWriteHolds(before, moved + records, name, groups[g].month, groups[g].items);
    Assoc(moved, records, GroupRecords(name, groups[g].items));
    SectionsOfMeans(a, name);
  }

  lemma OnlyAddsStep(a0: map<string, string>, before: map<string, string>, a: map<string, string>, done: seq<string>,
    name: string, items: seq<string>)
    requires OnlyAdds(a0, before, done) && SectionsOf(a, name) == SectionsOf(before, name) + items
    requires forall n :: n != name ==> (n in a <==> n in before) && (n in a ==> a[n] == before[n])
    ensures OnlyAdds(a0, a, done + items)
  {
    hide Sections, Archived;
    forall x ensures (Archived(before, x) ==> Archived(a, x)) &&
      (Archived(a, x) ==> Archived(before, x) || x in items) {
      ArchivedMeans(a, x);
      ArchivedMeans(before, x);
      if n :| x in SectionsOf(a, n) {
        if n != name { assert x in SectionsOf(before, n); }
      }
      if n :| x in SectionsOf(before, n) { assert x in SectionsOf(a, n); }
    }
  }

  lemma {:induction false} AllItemsPrefix(groups: seq<Group>, g: nat, x: string)
    requires g <= |groups| && x in AllItems(groups[..g])
    ensures x in AllItems(groups)
    decreases |groups|
  {
    if g == |groups| {
      assert groups[..g] == groups;
    } else {
      assert groups[..|groups| - 1][..g] == groups[..g];
      AllItemsPrefix(groups[..|groups| - 1], g, x);
    }
  }

  lemma {:induction false} GroupRecordAt(name: string, items: seq<string>, i: nat)
    requires i < |items|
    ensures GroupRecords(name, items)[i] == Record(name, items[i])
    decreases |items|
  {
    if i < |items| - 1 { GroupRecordAt(name, items[..|items| - 1], i); }
  }

  /** Months are distinct, so a later group leaves the archives of the earlier ones alone. */
  lemma FoundStep(before: map<string, string>, a: map<string, string>, records: seq<Record>, groups: seq<Group>,
    g: nat, name: string)
    requires g < |groups| && DistinctMonths(groups) && name == FileName(groups[g].month)
    requires Found(before, records) && forall i :: 0 <= i < |records| ==> FromGroups(records[i], groups, g)
    requires name in a && forall n :: n in before && n != name ==> n in a && a[n] == before[n]
    requires forall i :: 0 <= i < |groups[g].items| ==> groups[g].items[i] in Sections(a[name])
    ensures Found(a, records + GroupRecords(name, groups[g].items))
    ensures forall i :: 0 <= i < |records + GroupRecords(name, groups[g].items)| ==>
      FromGroups((records + GroupRecords(name, groups[g].items))[i], groups, g + 1)
  {
    hide Sections, FileName, MonthName;
    var all := records + GroupRecords(name, groups[g].items);
    forall i | 0 <= i < |all|
      ensures all[i].archive in a && all[i].digest in Sections(a[all[i].archive]) && FromGroups(all[i], groups, g + 1)
    {
      if i < |records| {
        var k :| 0 <= k < g && records[i].archive == FileName(groups[k].month) && records[i].digest in groups[k].items;
        if records[i].archive == name { FileNameInjective(groups[k].month, groups[g].month); }
      } else {
        GroupRecordAt(name, groups[g].items, i - |records|);
      }
    }
  }

  lemma {:induction false} ItemInAll(groups: seq<Group>, g: nat, i: nat)
    requires g < |groups| && i < |groups[g].items|
    ensures groups[g].items[i] in AllItems(groups)
    decreases |groups|
  {
    if g < |groups| - 1 { ItemInAll(groups[..|groups| - 1], g, i); }
  }

  /** The removed sections of a document that ends at a boundary are complete. */
  lemma GroupsWhole(seen: string, cut: nat, groups: seq<Group>, removed: seq<string>)
    requires cut < |Sections(seen)| && removed == Sections(seen)[cut..] && Grouped(groups, removed)
    ensures DistinctMonths(groups)
    ensures Boundary(seen) ==> WholeItems(groups)
  {
    hide Sections, Boundary, WholeSection, AllItems, MonthName;
    if Boundary(seen) {
      forall g, i | 0 <= g < |groups| && 0 <= i < |groups[g].items| ensures WholeSection(groups[g].items[i]) {
        ItemInAll(groups, g, i);
        assert groups[g].items[i] in multiset(removed);
        var k :| 0 <= k < |removed| && removed[k] == groups[g].items[i];
        SectionsAreWhole(seen, cut + k);
      }
    }
  }

  lemma NothingWritten(d0: Disk, seen: string, agents: Agents, cut: nat)
    requires cut < |Sections(seen)| && d0.handoff != seen
    ensures RotationEffect(d0, d0, seen, agents, cut, Changed)
  {
    hide Sections, Inv, Preamble, Archived;
  }

  /** What archiving leaves, in the terms of the sections that are removed. */
  ghost predicate ArchivedWell(d0: Disk, a: map<string, string>, records: seq<Record>, groups: seq<Group>,
    removed: seq<string>)
  {
    && Grown(d0.archives, a)
    && Grouped(groups, removed)
    && (Boundary(d0.handoff) ==> WholeItems(groups))
    && (Inv(d0) && WholeItems(groups) ==>
          Held(a, d0.moved + records) && AllBounded(a) && OnlyAdds(d0.archives, a, AllItems(groups)))
  }

  lemma ArchivedOnlyRemoved(d0: Disk, a: map<string, string>, records: seq<Record>, groups: seq<Group>,
    removed: seq<string>)
    requires ArchivedWell(d0, a, records, groups, removed) && Inv(d0)
    ensures OnlyAdds(d0.archives, a, removed) && Held(a, d0.moved + records) && AllBounded(a)
  {
    hide Archived, Held, AllBounded, Grown, WholeItems, AllItems, MonthName, Boundary;
    forall x ensures x in AllItems(groups) <==> x in removed {
      assert multiset(AllItems(groups))[x] == multiset(removed)[x];
    }
  }

  /** Interrupted or refused after some archives were written. */
  lemma StoppedBeforeRewrite(d0: Disk, d: Disk, groups: seq<Group>, records: seq<Record>, seen: string,
    agents: Agents, cut: nat, r: Outcome)
    requires cut < |Sections(seen)| && d0.handoff == seen
    requires d == d0.(archives := d.archives, handoff := d.handoff)
    requires ArchivedWell(d0, d.archives, records, groups, Sections(seen)[cut..])
    requires Inv(d0) && WholeItems(groups) ==> r != ArchiveCheckFailed
    requires Untouched(d0, d, seen, agents, r)
    ensures RotationEffect(d0, d, seen, agents, cut, r)
  {
    hide Sections, Boundary, Held, Digests, Recorded, Grown, WholeItems, Rewritten, OnlyAdds, Grouped;
    if Inv(d0) && AgentsBounded(agents, seen, cut) {
      ArchivedOnlyRemoved(d0, d.archives, records, groups, Sections(seen)[cut..]);
      ArchiveWritesKeepInv(d0, d.archives, records);
      AgentWriteKeepsInv(d0.(archives := d.archives), d.handoff);
    }
  }

  /** The handoff was rewritten and possibly the index too. */
  lemma HandoffWritten(d0: Disk, d: Disk, groups: seq<Group>, records: seq<Record>, seen: string, agents: Agents,
    cut: nat, r: Outcome, indexed: bool)
    requires cut < |Sections(seen)| && d0.handoff == seen && agents.look(seen) == seen &&
      d.handoff == agents.check(Kept(seen, cut))
    requires ArchivedWell(d0, d.archives, records, groups, Sections(seen)[cut..])
    requires Found(d.archives, records) && Digests(records) == AllItems(groups)
    requires d.moved == d0.moved + records
    requires r in {Rotated, HandoffCheckFailed, Interrupted}
    requires r == HandoffCheckFailed ==> Sections(agents.check(Kept(seen, cut))) != Sections(seen)[..cut]
    requires indexed ==> r != HandoffCheckFailed && Sections(agents.check(Kept(seen, cut))) == Sections(seen)[..cut]
    requires r == Rotated ==> indexed
    requires d.index == if indexed then d0.index + [records] else d0.index
    ensures RotationEffect(d0, d, seen, agents, cut, r)
  {
    hide Sections, Preamble, Boundary, Held, Digests, Recorded, Grown, WholeItems, Found, AllItems, MonthName, Join,
      OnlyAdds;
    assert MovedRecords(d0, d, records, seen, agents, cut, r);
    if Inv(d0) && AgentsBounded(agents, seen, cut) {
      ArchivedOnlyRemoved(d0, d.archives, records, groups, Sections(seen)[cut..]);
      WrittenKeepsInv(d0, d, records, seen, cut, indexed);
    }
  }

  lemma WrittenKeepsInv(d0: Disk, d: Disk, records: seq<Record>, seen: string, cut: nat, indexed: bool)
    requires cut < |Sections(seen)| && d0.handoff == seen && Inv(d0) && Boundary(d.handoff)
    requires Held(d.archives, d0.moved + records) && AllBounded(d.archives)
    requires multiset(Digests(records)) == multiset(Sections(seen)[cut..])
    requires d.moved == d0.moved + records && d.index == if indexed then d0.index + [records] else d0.index
    ensures Inv(d)
  {
    hide Sections, Preamble, Boundary, Held, Digests, Recorded, Join;
    var d1 := d0.(archives := d.archives);
    ArchiveWritesKeepInv(d0, d.archives, records);
    HandoffWriteKeepsInv(d1, records, cut);
    var d2 := d1.(handoff := Kept(seen, cut), moved := d.moved);
    AgentWriteKeepsInv(d2, d.handoff);
    if indexed {
      MovedAndRecorded(d0, records);
      IndexWriteKeepsInv(d2.(handoff := d.handoff), records);
    }
  }

  lemma MovedAndRecorded(d0: Disk, records: seq<Record>)
    requires multiset(Recorded(d0.index)) <= multiset(d0.moved)
    ensures multiset(Recorded(d0.index)) + multiset(records) <= multiset(d0.moved + records)
  {
  }

  class Store {
    var handoff: string
    var archives: map<string, string>
    var index: seq<seq<Record>>
    ghost var moved: seq<Record>

    /** A private area in which nothing was rotated yet. */
    constructor (handoff: string)
      ensures State() == Disk(handoff, map[], [], [])
    {
      this.handoff, archives, index, moved := handoff, map[], [], [];
    }

    ghost function State(): Disk
      reads this
    {
      Disk(handoff, archives, index, moved)
    }

    /** Appends one group to its archive and parses it back; false when a section is not found. */
    method AppendGroup(g: Group) returns (ok: bool)
      modifies this`archives
      ensures archives == old(archives)[FileName(g.month) :=
                Existing(old(archives), FileName(g.month), g.month) + Join(g.items)]
      ensures ok <==> forall i :: 0 <= i < |g.items| ==> g.items[i] in Sections(archives[FileName(g.month)])
    {
      hide Join, Sections, Header, FileName, Texts, Split, Lines;
      var name := FileName(g.month);
      var existing := if name in archives then archives[name] else Header(g.month);
      archives := archives[name := existing + Join(g.items)];
      var parsed := SplitDocument(archives[name]);
      SplitTexts(archives[name]);
      var counts := DigestCounts(Texts(parsed.sections));
      for i := 0 to |g.items|
        invariant forall k :: 0 <= k < i ==> g.items[k] in Sections(archives[name])
      {
        if (if g.items[i] in counts then counts[g.items[i]] else 0) < 1 {
          return false;
        }
      }
      return true;
    }

    /** Archives all groups; stops at a failed check or, at any group, when the run is interrupted. */
    method ArchiveAll(groups: seq<Group>, stop: Stop) returns (r: Outcome, records: seq<Record>, ghost done: nat)
      requires DistinctMonths(groups)
      modifies this`archives
      ensures r in {Rotated, ArchiveCheckFailed, Interrupted}
      ensures r == Interrupted ==> stop.AtArchive?
      ensures Grown(old(archives), archives)
      ensures done <= |groups| && archives == Appended(old(archives), groups[..done])
      ensures r == Rotated ==> done == |groups| && Digests(records) == AllItems(groups) && Found(archives, records)
      ensures forall i :: 0 <= i < |records| ==> FromGroups(records[i], groups, |groups|)
      ensures Inv(old(State())) && WholeItems(groups) ==>
        && r != ArchiveCheckFailed
        && Held(archives, moved + records) && AllBounded(archives) &&
          OnlyAdds(old(archives), archives, AllItems(groups))
    {
      hide OnlyAdds, Archiving, Inv, WholeItems, DistinctMonths, Held, AllBounded, Grown, Found, Digests, AllItems,
        GroupRecords, Existing, Join, Sections, FileName, Appended, FromGroups;
      ghost var good := Inv(old(State())) && WholeItems(groups);
      records, done := [], 0;
      ArchiveStart(State(), groups);
      NoneAppended(archives, groups);
      for g := 0 to |groups|
        invariant Archiving(old(archives), archives, moved, records, groups, g, good)
        invariant done == g && archives == Appended(old(archives), groups[..g])
      {
        if stop == AtArchive(g) {
          ArchiveStop(old(archives), archives, moved, records, groups, g, good);
          return Interrupted, records, g;
        }
        ghost var before := archives;
        var ok := AppendGroup(groups[g]);
        ArchiveStep(old(archives), before, moved, records, groups, g, archives, good, ok);
        OneAppended(old(archives), before, archives, groups, g);
        ArchivingRecords(old(archives), before, moved, records, groups, g, good);
        ghost var earlier := records;
        records, done := records + GroupRecords(FileName(groups[g].month), groups[g].items), g + 1;
        RecordsFromGroups(earlier, groups, g, records);
        if !ok {
          return ArchiveCheckFailed, records, g + 1;
        }
      }
      ArchiveStop(old(archives), archives, moved, records, groups, |groups|, good);
      r := Rotated;
    }

    /** The locked part of a rotation; `seen` is the handoff as it was read before the lock. */
    method RotateLocked(seen: string, agents: Agents, cut: nat, cal: Calendar, stop: Stop) returns (r: Outcome)
      requires NamesMonths(cal) && cut < |Sections(seen)|
      modifies this
      ensures r == Interrupted ==> stop != Never
      ensures RotationEffect(old(State()), State(), seen, agents, cut, r)
      ensures old(handoff) == seen ==> Files(old(State()), State(), Sections(seen)[cut..], cal)
    {
      hide Inv, WholeItems, DistinctMonths, Held, AllBounded, Grown, Found, Digests, AllItems, Join, Sections,
        Preamble, Grouped, Texts, Split, Lines, Boundary, RotationEffect, NamesMonths, OnlyAdds, Archived,
        Files, ByMonth, Appended, FromGroups;
      ghost var d0 := State();
      if handoff != seen {
        NothingWritten(d0, seen, agents, cut);
        return Changed;
      }
      SplitTexts(seen);
      var document := SplitDocument(seen);
      var sections := Texts(document.sections);
      var groups := ArchiveGroups(sections[cut..], cal);
      assert ByMonth(groups, sections[cut..], cal) by { IsByMonth(groups, sections[cut..], cal); }
      GroupsWhole(seen, cut, groups, sections[cut..]);
      var records;
      ghost var done;
      r, records, done := ArchiveAll(groups, stop);
      FilesAs(d0, State(), sections[cut..], cal, groups, done, records);
      handoff := agents.look(handoff);
      if r != Rotated {
        StoppedBeforeRewrite(d0, State(), groups, records, seen, agents, cut, r);
        FilesAs(d0, State(), sections[cut..], cal, groups, done, records);
        return;
      }
      if handoff != seen {
        StoppedBeforeRewrite(d0, State(), groups, records, seen, agents, cut, Changed);
        FilesAs(d0, State(), sections[cut..], cal, groups, done, records);
        return Changed;
      }
      handoff := agents.write(handoff);
      if stop == BeforeRewrite {
        StoppedBeforeRewrite(d0, State(), groups, records, seen, agents, cut, Interrupted);
        FilesAs(d0, State(), sections[cut..], cal, groups, done, records);
        return Interrupted;
      }
      handoff := Join(document.preamble) + Join(sections[..cut]);
      assert handoff == Kept(seen, cut);
      moved := moved + records;
      handoff := agents.check(handoff);
      if stop == AfterRewrite {
        HandoffWritten(d0, State(), groups, records, seen, agents, cut, Interrupted, false);
        FilesAs(d0, State(), sections[cut..], cal, groups, done, records);
        return Interrupted;
      }
      var check := SplitDocument(handoff);
      SplitTexts(handoff);
      if Texts(check.sections) != sections[..cut] {
        HandoffWritten(d0, State(), groups, records, seen, agents, cut, HandoffCheckFailed, false);
        FilesAs(d0, State(), sections[cut..], cal, groups, done, records);
        return HandoffCheckFailed;
      }
      if stop == AfterCheck {
        HandoffWritten(d0, State(), groups, records, seen, agents, cut, Interrupted, false);
        FilesAs(d0, State(), sections[cut..], cal, groups, done, records);
        return Interrupted;
      }
      index := index + [records];
      if stop == AfterIndex {
        HandoffWritten(d0, State(), groups, records, seen, agents, cut, Interrupted, true);
        FilesAs(d0, State(), sections[cut..], cal, groups, done, records);
        return Interrupted;
      }
      HandoffWritten(d0, State(), groups, records, seen, agents, cut, Rotated, true);
      FilesAs(d0, State(), sections[cut..], cal, groups, done, records);
      return Rotated;
    }

    /**
      A rotation.  Other agents may change the handoff until the lock is taken
      (`atLock`) and at every later moment the source looks at it or replaces it.
    */
    method Rotate(keep: int, within: int, dryRun: bool, cal: Calendar, atLock: string, agents: Agents, stop: Stop)
      returns (r: Outcome)
      requires NamesMonths(cal) && keep >= 1
      modifies this
      ensures r == Interrupted ==> stop != Never
      ensures r in {NothingToDo, DryRun} || dryRun ==> State() == old(State())
      ensures dryRun <==> r == DryRun || (dryRun && r == NothingToDo)
      ensures r == NothingToDo <==>
        KeepsPrefix(Sections(old(handoff)), cal, keep, within, |Sections(old(handoff))|)
      ensures r !in {NothingToDo, DryRun} ==> exists cut ::
        && 0 <= cut < |Sections(old(handoff))| && KeepsPrefix(Sections(old(handoff)), cal, keep, within, cut)
        && RotationEffect(old(State()).(handoff := atLock), State(), old(handoff), agents, cut, r)
        && (atLock == old(handoff) ==> Files(old(State()), State(), Sections(atLock)[cut..], cal))
    {
      hide Split, Lines, Sections, RotationEffect, KeepsPrefix, Texts, NamesMonths, Files;
      var seen := handoff;
      SplitTexts(seen);
      var document := SplitDocument(seen);
      var sections := Texts(document.sections);
      var cut := SelectPrefix(sections, cal, keep, within);
      PrefixBounds(sections, cal, keep, within, cut);
      if sections[cut..] == [] {
        return NothingToDo;
      }
      if dryRun {
        return DryRun;
      }
      handoff := atLock;
      r := RotateLocked(seen, agents, cut, cal, stop);
      OutcomeOf(old(State()).(handoff := atLock), State(), seen, agents, cut, r);
    }

    /** Counts the recorded digests per archive. */
    method Tally() returns (names: seq<string>, expected: map<string, multiset<string>>)
      ensures Expected(expected, names, Recorded(index))
    {
      hide Wanted, Recorded, Expected;
      names := [];
      expected := map[];
      ghost var records: seq<Record> := [];
      RecordedNone();
      ExpectNone();
      for e := 0 to |index|
        invariant Expected(expected, names, records) && records == Recorded(index[..e])
      {
        ghost var before := records;
        assert before + index[e][..0] == records;
        for k := 0 to |index[e]|
          invariant Expected(expected, names, records) && records == before + index[e][..k]
        {
          var record := index[e][k];
          ExpectOne(expected, names, records, record);
          var count := if record.archive in expected then expected[record.archive] else multiset{};
          names := if record.archive in expected then names else names + [record.archive];
          expected := expected[record.archive := count + multiset{record.digest}];
          records := records + [record];
          assert index[e][..k + 1] == index[e][..k] + [record];
        }
        assert index[e][..|index[e]|] == index[e];
        RecordedSnoc(index, e);
      }
      assert index[..|index|] == index;
    }

    /** Re-checks that everything recorded is still archived, counting repetitions. */
    method Verify() returns (ok: bool)
      ensures ok <==> AllArchived(State())
    {
      hide Wanted, Sections, Split, Lines, Texts, Recorded, SectionsOf;
      var names, expected := Tally();
      ghost var records := Recorded(index);
      var missing := 0;
      for i := 0 to |names|
        invariant missing >= 0
        invariant missing == 0 <==> forall k :: 0 <= k < i ==>
          Wanted(records, names[k]) <= multiset(SectionsOf(archives, names[k]))
      {
        SectionsOfMeans(archives, names[i]);
        var available := multiset{};
        if names[i] in archives {
          SplitTexts(archives[names[i]]);
          var parsed := SplitDocument(archives[names[i]]);
          available := multiset(Texts(parsed.sections));
        }
        MissingNone(expected[names[i]], available);
        missing := missing + |expected[names[i]] - available|;
      }
      EveryName(expected, names, records, archives);
      ok := missing == 0;
    }
  }

  lemma ExpectNone()
    ensures Expected(map[], [], [])
  {
  }

  /** The tally of the records read so far; `names` lists its keys in order. */
  ghost predicate Expected(expected: map<string, multiset<string>>, names: seq<string>, records: seq<Record>) {
    && (forall n :: n in expected <==> n in names)
    && (forall n :: n in expected ==> expected[n] == Wanted(records, n))
    && (forall n :: n !in expected ==> Wanted(records, n) == multiset{})
  }

  lemma RecordedNone()
    ensures Recorded([]) == []
  {
  }

  lemma RecordedSnoc(index: seq<seq<Record>>, e: nat)
    requires e < |index|
    ensures Recorded(index[..e + 1]) == Recorded(index[..e]) + index[e]
  {
    assert index[..e + 1][..e] == index[..e];
  }

  lemma ExpectOne(expected: map<string, multiset<string>>, names: seq<string>, records: seq<Record>, r: Record)
    requires Expected(expected, names, records)
    ensures var old_ := if r.archive in expected then expected[r.archive] else multiset{};
      Expected(expected[r.archive := old_ + multiset{r.digest}],
        if r.archive in expected then names else names + [r.archive], records + [r])
  {
    hide Wanted;
    forall n ensures Wanted(records + [r], n) == Wanted(records,
      n) + (if r.archive == n then multiset{r.digest} else multiset{}) {
      WantedConcat(records, [r], n);
      WantedOne(r, n);
    }
  }

  lemma MissingNone(wanted: multiset<string>, available: multiset<string>)
    ensures |wanted - available| == 0 <==> wanted <= available
  {
    if |wanted - available| == 0 {
      assert wanted - available == multiset{};
      forall x ensures wanted[x] <= available[x] {
        assert (wanted - available)[x] == 0;
      }
    }
    if wanted <= available {
      assert wanted - available == multiset{};
    }
  }

  lemma EveryName(expected: map<string, multiset<string>>, names: seq<string>, records: seq<Record>,
    archives: map<string, string>)
    requires Expected(expected, names, records)
    ensures Held(archives, records) <==>
      forall k :: 0 <= k < |names| ==> Wanted(records, names[k]) <= multiset(SectionsOf(archives, names[k]))
  {
    hide Wanted, SectionsOf;
  }

  lemma OutcomeOf(d0: Disk, d: Disk, seen: string, agents: Agents, cut: nat, r: Outcome)
    requires cut < |Sections(seen)| && RotationEffect(d0, d, seen, agents, cut, r)
    ensures r !in {NothingToDo, DryRun}
  {
    hide Sections, Preamble, Inv, Ever, Found, Archived;
  }
}
