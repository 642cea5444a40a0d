/**
  Runs of ops/local/handoff_rotate.py among agents that prepend to the handoff: what is
  conserved, and exactly when a section is lost.
*/
module HandoffRuns {
  import opened Wrappers
  import opened HandoffText
  import opened HandoffSections
  import opened HandoffStore
  import opened HandoffRotate

  // ---------------------------------------------------------------- one rewrite

  /** A rewrite exchanges the kept sections for what the agents made of them, and loses nothing it had read. */
  lemma RewriteAccounts(d0: Disk, d: Disk, seen: string, agents: Agents, cut: nat, r: Outcome)
    requires cut < |Sections(seen)| && d0.handoff == seen && Rewritten(d0, d, seen, agents, cut, r)
    ensures Sections(Kept(seen, cut)) == Sections(seen)[..cut]
    ensures Ever(d) + multiset(Sections(seen)[..cut]) == Ever(d0) + multiset(Sections(d.handoff))
  {
    hide Sections, Preamble, Digests, Join, Found;
    CutBeforeSection(seen, cut);
    var records :| MovedRecords(d0, d, records, seen, agents, cut, r);
    var s := Sections(seen);
    assert s == s[..cut] + s[cut..];
    DigestsConcat(d0.moved, records);
  }

  /**
    The handoff that the replacement overwrites was last compared before `agents.write`.
    Nothing is lost in that window exactly when it then held no more than was read.
  */
  lemma OverwriteLosesExactly(d0: Disk, d: Disk, seen: string, agents: Agents, cut: nat, r: Outcome)
    requires cut < |Sections(seen)| && d0.handoff == seen && Rewritten(d0, d, seen, agents, cut, r)
    ensures Ever(d0.(handoff := agents.write(seen))) <= Ever(d.(handoff := Kept(seen, cut)))
      <==> multiset(Sections(agents.write(seen))) <= multiset(Sections(seen))
  {
    hide Sections, Preamble, Digests, Join, Found, Rewritten;
    RewriteAccounts(d0, d, seen, agents, cut, r);
    var after, moved := multiset(Digests(d.moved)), multiset(Digests(d0.moved));
    assert multiset(Sections(seen)[..cut]) + after == multiset(Sections(seen)) + moved by {
      assert Ever(d) == multiset(Sections(d.handoff)) + after;
      assert Ever(d0) == multiset(Sections(seen)) + moved;
      Cancel3(multiset(Sections(d.handoff)), after, multiset(Sections(seen)[..cut]), multiset(Sections(seen)) + moved);
    }
    Common(multiset(Sections(agents.write(seen))), multiset(Sections(seen)), moved);
  }

  lemma Cancel3(a: multiset<string>, b: multiset<string>, c: multiset<string>, d: multiset<string>)
    requires (a + b) + c == d + a
    ensures c + b == d
  {
    forall x ensures (c + b)[x] == d[x] {
      assert ((a + b) + c)[x] == (d + a)[x];
    }
  }

  lemma Common(a: multiset<string>, b: multiset<string>, c: multiset<string>)
    ensures a + c <= b + c <==> a <= b
  {
    if a + c <= b + c {
      forall x ensures a[x] <= b[x] { assert (a + c)[x] <= (b + c)[x]; }
    }
  }

  /** A section can still be read somewhere. */
  ghost predicate Findable(d: Disk, x: string) {
    x in Sections(d.handoff) || Archived(d.archives, x)
  }

  /**
    As texts: after a rewrite of a sound store that nobody touches afterwards, what the
    replacement overwrote can be found again exactly when it had been read or archived before.
  */
  lemma OverwrittenIsFoundExactly(d0: Disk, d: Disk, seen: string, agents: Agents, cut: nat, r: Outcome, x: string)
    requires cut < |Sections(seen)| && d0.handoff == seen && Inv(d0) && AgentsBounded(agents, seen, cut)
    requires RotationEffect(d0, d, seen, agents, cut, r) && Rewritten(d0, d, seen, agents, cut, r)
    requires agents.check(Kept(seen, cut)) == Kept(seen, cut)
    ensures Findable(d, x) <==> Findable(d0, x)
  {
    hide Sections, Preamble, Join, Inv, Archived, Digests, Found;
    RewriteAccounts(d0, d, seen, agents, cut, r);
    var s := Sections(seen);
    assert s == s[..cut] + s[cut..];
    if x in s[cut..] { RemovedIsArchived(d0, d, seen, agents, cut, r, x); }
  }

  lemma RemovedIsArchived(d0: Disk, d: Disk, seen: string, agents: Agents, cut: nat, r: Outcome, x: string)
    requires cut < |Sections(seen)| && Rewritten(d0, d, seen, agents, cut, r) && x in Sections(seen)[cut..]
    ensures Archived(d.archives, x)
  {
    hide Sections, Preamble, Join, Digests;
    var records :| MovedRecords(d0, d, records, seen, agents, cut, r);
    assert x in multiset(Digests(records));
    var i :| 0 <= i < |records| && Digests(records)[i] == x;
    DigestAt(records, i);
  }

  // ---------------------------------------------------------------- runs

  ghost predicate AllWhole(xs: seq<string>) { forall i :: 0 <= i < |xs| ==> WholeSection(xs[i]) }

  /**
    One event of the private area's life.  An agent prepends complete sections; or a
    rotation runs, to its end or interrupted anywhere, while agents prepend `early`
    sections before the second comparison, `overlooked` ones between it and the
    replacement, and `late` ones before the final check.
  */
  datatype Event =
    | Prepend(xs: seq<string>)
    | Rotation(early: seq<string>, overlooked: seq<string>, late: seq<string>, cut: nat, result: Outcome)

  ghost function AgentsOf(e: Event): Agents
    requires e.Rotation?
  {
    Agents((t: string) => Prepended(t, e.early), (t: string) => Prepended(t, e.overlooked),
      (t: string) => Prepended(t, e.late))
  }

  ghost predicate Step(d: Disk, e: Event, d': Disk) {
    match e
    case Prepend(xs) => AllWhole(xs) && d' == d.(handoff := Prepended(d.handoff, xs))
    case Rotation(early, overlooked, late, cut, r) =>
      && AllWhole(early) && AllWhole(overlooked) && AllWhole(late) && cut < |Sections(d.handoff)|
      && RotationEffect(d, d', d.handoff, AgentsOf(e), cut, r)
  }

  /** The event replaced the handoff: only then does history grow. */
  predicate Replaced(d: Disk, d': Disk) { |d'.moved| > |d.moved| }

  /** The sections that agents put into the handoff during the event. */
  ghost function Arrived(d: Disk, e: Event, d': Disk): multiset<string> {
    match e
    case Prepend(xs) => multiset(xs)
    case Rotation(early, overlooked, late, _, _) =>
      if Replaced(d, d') then multiset(overlooked) + multiset(late)
      else if d'.handoff == Prepended(d.handoff, early) then multiset(early)
      else multiset(overlooked)
  }

  /** The sections that the replacement overwrote unseen. */
  ghost function Overwritten(d: Disk, e: Event, d': Disk): multiset<string> {
    if e.Rotation? && Replaced(d, d') then multiset(e.overlooked) else multiset{}
  }

  /** Every event conserves: what was ever in the handoff grows by what arrived and is not overwritten. */
  lemma StepConserves(d: Disk, e: Event, d': Disk)
    requires Inv(d) && Step(d, e, d')
    ensures Inv(d') && Ever(d') + Overwritten(d, e, d') == Ever(d) + Arrived(d, e, d')
  {
    hide Inv, Sections, Prepended, Preamble, WholeSection, RotationEffect, Digests, Join;
    match e
    case Prepend(xs) =>
      PrependKeepsInv(d, xs);
    case Rotation(early, overlooked, late, cut, r) =>
      RotationConserves(d, e, d');
  }

  lemma RotationConserves(d: Disk, e: Event, d': Disk)
    requires Inv(d) && e.Rotation? && Step(d, e, d')
    ensures Inv(d') && Ever(d') + Overwritten(d, e, d') == Ever(d) + Arrived(d, e, d')
  {
    hide Inv, Sections, Prepended, Preamble, WholeSection, Digests, Join, Found, Grown, Ever, Archived;
    var agents, seen := AgentsOf(e), d.handoff;
    PrependKeepsInv(d, e.early);
    PrependKeepsInv(d, e.overlooked);
    InvBounded(d.(handoff := agents.look(seen)));
    InvBounded(d.(handoff := agents.write(seen)));
    InvBounded(d);
    CutBeforeSection(seen, e.cut);
    LatePrepend(Kept(seen, e.cut), e.late);
    if Rewritten(d, d', seen, agents, e.cut, e.result) {
      RewriteIsReplaced(d, d', seen, agents, e.cut, e.result);
      RewriteAccounts(d, d', seen, agents, e.cut, e.result);
      Rebalance(Ever(d'), multiset(Sections(seen)[..e.cut]), Ever(d), multiset(Sections(d'.handoff)), multiset(e.late));
    } else {
      UntouchedEver(d, d', seen, agents, e.result);
    }
  }

  lemma InvBounded(d: Disk)
    requires Inv(d)
    ensures Boundary(d.handoff)
  {
    hide Boundary, Held, Recorded;
  }

  lemma Rebalance(a: multiset<string>, kept: multiset<string>, b: multiset<string>, found: multiset<string>,
    late: multiset<string>)
    requires a + kept == b + found && found == late + kept
    ensures a == b + late
  {
    forall x ensures a[x] == (b + late)[x] { assert (a + kept)[x] == (b + found)[x]; }
  }

  lemma LatePrepend(kept: string, late: seq<string>)
    requires Boundary(kept) && AllWhole(late)
    ensures Boundary(Prepended(kept, late)) && Sections(Prepended(kept, late)) == late + Sections(kept)
    ensures multiset(Sections(Prepended(kept, late))) == multiset(late) + multiset(Sections(kept))
  {
    hide Sections, Prepended, Preamble, Boundary, WholeSection;
    var d := Disk(kept, map[], [], []);
    assert Inv(d) by { EmptyStore(d); }
    PrependKeepsInv(d, late);
    InvBounded(d.(handoff := Prepended(kept, late)));
  }

  lemma EmptyStore(d: Disk)
    requires d.archives == map[] && d.index == [] && d.moved == [] && Boundary(d.handoff)
    ensures Inv(d)
  {
    hide Sections, Boundary;
  }

  lemma RewriteIsReplaced(d: Disk, d': Disk, seen: string, agents: Agents, cut: nat, r: Outcome)
    requires cut < |Sections(seen)| && Rewritten(d, d', seen, agents, cut, r)
    ensures Replaced(d, d')
  {
    hide Sections, Preamble, Join, Found;
    var records :| MovedRecords(d, d', records, seen, agents, cut, r);
    assert |multiset(Digests(records))| == |multiset(Sections(seen)[cut..])|;
  }

  lemma UntouchedEver(d: Disk, d': Disk, seen: string, agents: Agents, r: Outcome)
    requires seen == d.handoff && Untouched(d, d', seen, agents, r)
    ensures Ever(d') == Ever(d.(handoff := d'.handoff)) && !Replaced(d, d')
  {
    hide Sections, Digests;
  }

  /**
    A rotation that replaced the handoff and was not interrupted fails its final check
    exactly when an agent prepended before it; then nothing is indexed and nothing is lost.
  */
  lemma CheckFailsExactly(d: Disk, e: Event, d': Disk)
    requires Inv(d) && e.Rotation? && Step(d, e, d') && Replaced(d, d') && e.result != Interrupted
    ensures e.result == HandoffCheckFailed <==> e.late != []
    ensures e.result == HandoffCheckFailed ==> d'.index == d.index
    ensures Inv(d')
  {
    hide Inv, Sections, Prepended, Preamble, WholeSection, Digests, Join, Found, Grown, Ever, Archived, OnlyAdds;
    StepConserves(d, e, d');
    InvBounded(d);
    CutBeforeSection(d.handoff, e.cut);
    LatePrepend(Kept(d.handoff, e.cut), e.late);
    var kept := Sections(d.handoff)[..e.cut];
    assert |e.late + kept| == |e.late| + |kept| && ([] + kept == kept);
    assert Rewritten(d, d', d.handoff, AgentsOf(e), e.cut, e.result);
  }

  /** The totals over the first n events of a run. */
  ghost function TotalArrived(run: seq<Disk>, events: seq<Event>, n: nat): multiset<string>
    requires n <= |events| < |run|
  {
    if n == 0 then multiset{} else TotalArrived(run, events, n - 1) + Arrived(run[n - 1], events[n - 1], run[n])
  }

  ghost function TotalOverwritten(run: seq<Disk>, events: seq<Event>, n: nat): multiset<string>
    requires n <= |events| < |run|
  {
    if n == 0 then multiset{} else TotalOverwritten(run, events, n - 1) + Overwritten(run[n - 1], events[n - 1], run[n])
  }

  ghost predicate Run(run: seq<Disk>, events: seq<Event>) {
    && |run| == |events| + 1 && Inv(run[0])
    && forall k :: 0 <= k < |events| ==> Step(run[k], events[k], run[k + 1])
  }

  /**
    Over any run: everything that was ever in the handoff, plus everything overwritten, is what was there and
    what arrived.
  */
  lemma {:induction false} RunConserves(run: seq<Disk>, events: seq<Event>, n: nat)
    requires Run(run, events) && n <= |events|
    ensures Inv(run[n])
    ensures Ever(run[n]) + TotalOverwritten(run, events, n) == Ever(run[0]) + TotalArrived(run, events, n)
    decreases n
  {
    hide Inv, Step, Ever, Arrived, Overwritten;
    if n == 0 {
      assert TotalOverwritten(run, events, 0) == multiset{} == TotalArrived(run, events, 0);
    } else {
      RunConserves(run, events, n - 1);
      StepConserves(run[n - 1], events[n - 1], run[n]);
      Telescope(Ever(run[0]), Ever(run[n - 1]), Ever(run[n]), TotalArrived(run, events, n - 1),
        TotalOverwritten(run, events, n - 1),
        Arrived(run[n - 1], events[n - 1], run[n]), Overwritten(run[n - 1], events[n - 1], run[n]));
    }
  }

  lemma Telescope(e0: multiset<string>, e1: multiset<string>, e2: multiset<string>, a: multiset<string>,
    o: multiset<string>, a': multiset<string>, o': multiset<string>)
    requires e1 + o == e0 + a && e2 + o' == e1 + a'
    ensures e2 + (o + o') == e0 + (a + a')
  {
    forall x ensures (e2 + (o + o'))[x] == (e0 + (a + a'))[x] {
      assert (e1 + o)[x] == (e0 + a)[x] && (e2 + o')[x] == (e1 + a')[x];
    }
  }

  /** Until event n no rotation replaced a handoff into which an agent had written unseen. */
  ghost predicate NothingOverlooked(run: seq<Disk>, events: seq<Event>, n: nat)
    requires n <= |events| < |run|
  {
    forall k :: 0 <= k < n && events[k].Rotation? && Replaced(run[k], run[k + 1]) ==> events[k].overlooked == []
  }

  lemma {:induction false} OverwrittenExactly(run: seq<Disk>, events: seq<Event>, n: nat)
    requires n <= |events| < |run|
    ensures TotalOverwritten(run, events, n) == multiset{} <==> NothingOverlooked(run, events, n)
    decreases n
  {
    hide Replaced, Overwritten;
    if n == 0 {
      assert NothingOverlooked(run, events, 0);
    } else {
      OverwrittenExactly(run, events, n - 1);
      EmptySum(TotalOverwritten(run, events, n - 1), Overwritten(run[n - 1], events[n - 1], run[n]));
      OverwritesNothing(run[n - 1], events[n - 1], run[n]);
      OverlookedSnoc(run, events, n - 1);
      hide NothingOverlooked;
    }
  }

  lemma OverwritesNothing(d: Disk, e: Event, d': Disk)
    ensures Overwritten(d, e, d') == multiset{} <==> (e.Rotation? && Replaced(d, d') ==> e.overlooked == [])
  {
    if e.Rotation? { EmptySeq(e.overlooked); }
  }

  lemma OverlookedSnoc(run: seq<Disk>, events: seq<Event>, n: nat)
    requires n < |events| < |run|
    ensures NothingOverlooked(run, events, n + 1) <==>
      NothingOverlooked(run, events, n) &&
        (events[n].Rotation? && Replaced(run[n], run[n + 1]) ==> events[n].overlooked == [])
  {
    hide Replaced;
  }

  lemma EmptySum(a: multiset<string>, b: multiset<string>)
    ensures a + b == multiset{} <==> a == multiset{} && b == multiset{}
  {
    assert |a + b| == |a| + |b|;
  }

  lemma EmptySeq(s: seq<string>)
    ensures multiset(s) == multiset{} <==> s == []
  {
    assert |multiset(s)| == |s|;
  }

  /**
    The run theorem.  The verifier accepts the store at every moment.  The history of the
    handoff, what it holds and what was moved out of it, is complete, counting repetitions,
    exactly when no rotation replaced a handoff into which an agent had written after the
    second comparison.  Then every section that was in the handoff or arrived in it is still
    in it or in an archive.  Otherwise an occurrence is missing from the history, though an
    archive may hold the same text as a copy left by an interrupted run.
  */
  lemma RunLosesNothing(run: seq<Disk>, events: seq<Event>, n: nat)
    requires Run(run, events) && n <= |events|
    ensures Inv(run[n]) && AllArchived(run[n])
    ensures Ever(run[0]) + TotalArrived(run, events, n) <= Ever(run[n]) <==> NothingOverlooked(run, events, n)
    ensures NothingOverlooked(run, events, n) ==>
      forall x :: x in Ever(run[0]) + TotalArrived(run, events, n) ==> Findable(run[n], x)
  {
    hide Inv, Sections, Digests, Step, Ever, Archived, Findable, NothingOverlooked, Held;
    RunConserves(run, events, n);
    OverwrittenExactly(run, events, n);
    InvMeansVerified(run[n]);
    Gone(Ever(run[n]), TotalOverwritten(run, events, n), Ever(run[0]) + TotalArrived(run, events, n));
    forall x | x in Ever(run[n]) ensures Findable(run[n], x) { StillFindable(run[n], x); }
  }

  lemma Gone(now: multiset<string>, gone: multiset<string>, all: multiset<string>)
    requires now + gone == all
    ensures all <= now <==> gone == multiset{}
    ensures gone == multiset{} ==> all == now
  {
    if all <= now {
      forall x ensures gone[x] == 0 { assert (now + gone)[x] <= now[x]; }
    }
  }

  lemma StillFindable(d: Disk, x: string)
    requires Inv(d) && x in Ever(d)
    ensures Findable(d, x)
  {
    hide Inv, Sections, Ever, Archived;
    NothingIsLost(d, x);
  }

  lemma StepGrows(d: Disk, e: Event, d': Disk)
    requires Inv(d) && Step(d, e, d')
    ensures Inv(d') && Ever(d) <= Ever(d')
  {
    hide Inv, Step, Ever;
    StepConserves(d, e, d');
    OverwrittenArrived(d, e, d');
    hide Overwritten, Arrived;
    forall x ensures Ever(d)[x] <= Ever(d')[x] {
      assert (Ever(d') + Overwritten(d, e, d'))[x] == (Ever(d) + Arrived(d, e, d'))[x];
    }
  }

  lemma OverwrittenArrived(d: Disk, e: Event, d': Disk)
    ensures Overwritten(d, e, d') <= Arrived(d, e, d')
  {
  }

  lemma {:induction false} EverGrows(run: seq<Disk>, events: seq<Event>, i: nat, j: nat)
    requires Run(run, events) && i <= j <= |events|
    ensures Inv(run[j]) && Ever(run[i]) <= Ever(run[j])
    decreases j
  {
    hide Inv, Step, Ever;
    RunConserves(run, events, i);
    if i < j {
      EverGrows(run, events, i, j - 1);
      StepGrows(run[j - 1], events[j - 1], run[j]);
    }
  }

  /** Whatever is overlooked, a section that was in the handoff between two events stays in it or in an archive. */
  lemma SeenSectionsStay(run: seq<Disk>, events: seq<Event>, i: nat, j: nat)
    requires Run(run, events) && i <= j <= |events|
    ensures multiset(Sections(run[i].handoff)) <= Ever(run[j])
    ensures forall x :: x in Sections(run[i].handoff) ==> Findable(run[j], x)
  {
    hide Inv, Step, Sections, Digests, Findable;
    EverGrows(run, events, i, j);
    forall x | x in Sections(run[i].handoff) ensures Findable(run[j], x) {
      assert x in Ever(run[i]);
      StillFindable(run[j], x);
    }
  }
}
