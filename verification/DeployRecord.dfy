/**
 * The state file of ops/vm_actions/gateway.py: what each operation may leave in it, which baseline
 * it stands for, and what is checked and recorded around a deployment.
 */
module DeployRecord {
  import opened Wrappers
  import opened DeployPlan
  import opened DeployFiles

  datatype Intent = Intent(from: nat, to: nat, predeploy: nat, recovery: bool)
  datatype Move = Move(from: nat, to: nat, target: nat, auto: bool)

  /** `managed` flattens the source's dictionary of dictionaries, `watched` keeps its outer keys. */
  datatype Record = Record(
    sha: nat, previous: Option<nat>, base: Option<nat>, intent: Option<Intent>, pending: seq<Repair>,
    watched: set<string>, managed: map<Path, Content>, history: seq<Move>)

  const HISTORY_LIMIT := 10

  /** The commit whose projections the live files were last converged to. */
  function Effective(r: Record): nat {
    if r.base.Some? then r.base.value else r.sha
  }

  function Fresh(head: nat): Record {
    Record(head, None, None, None, [], {}, map[], [])
  }

  function Remember(history: seq<Move>, move: Move): (r: seq<Move>)
    ensures |history| <= HISTORY_LIMIT ==> |r| <= HISTORY_LIMIT
    ensures |r| > 0 && r[|r| - 1] == move && (|history| < HISTORY_LIMIT ==> r == history + [move])
  {
    (if |history| < HISTORY_LIMIT then history else history[|history| - (HISTORY_LIMIT - 1)..]) + [move]
  }

  /** Adopt the checkout as recorded commit, keeping the baseline of the live files. */
  function Rebased(r: Record, head: nat, target: nat, auto: bool): Record {
    r.(sha := head, previous := Some(r.sha), base := Some(Effective(r)),
       history := Remember(r.history, Move(r.sha, head, target, auto)))
  }

  /** The new move comes last, and before it the newest of the old ones, at most nine, in their order. */
  lemma RememberMeans(history: seq<Move>, move: Move)
    ensures var r := Remember(history, move);
      && |r| == (if |history| <= 9 then |history| else 9) + 1 && r[|r| - 1] == move
      && r[..|r| - 1] == history[|history| - (|r| - 1)..]
  {
  }

  /** Adopting a checkout changes which commit is recorded, and nothing that says what the live files are. */
  lemma RebasedMeans(r: Record, head: nat, target: nat, auto: bool)
    ensures var t := Rebased(r, head, target, auto);
      && t.sha == head && t.previous == Some(r.sha) && Effective(t) == Effective(r) && t.base.Some?
      && t.intent == r.intent && t.pending == r.pending && t.watched == r.watched && t.managed == r.managed
      && t.history[|t.history| - 1].from == r.sha && t.history[|t.history| - 1].to == head
      && t.history[|t.history| - 1].target == target && t.history[|t.history| - 1].auto == auto
  {
  }

  /** The intent says from which baseline to which commit, and which commit to go back to. */
  lemma WithIntentMeans(saved: Record, sha: nat, head: nat, recovery: bool)
    ensures var t := WithIntent(saved, sha, head, recovery);
      && t.intent.Some? && t.intent.value.from == Effective(saved) && t.intent.value.to == sha
      && t.intent.value.predeploy == head && t.intent.value.recovery == recovery
      && t.(intent := saved.intent) == saved
  {
  }

  // ---------------------------------------------------------------- what operations leave behind

  ghost predicate BootstrapLeaves(before: Option<Record>, after: Option<Record>) {
    after == before || (before.None? && exists head :: after == Some(Fresh(head)))
  }

  ghost predicate RebaselineLeaves(commits: Commits, before: Option<Record>, after: Option<Record>, sha: nat) {
    || after == before
    || (before.Some? && before.value.intent.None? && before.value.pending == [] &&
        exists head :: Ancestor(commits, head, sha) && after == Some(Rebased(before.value, head, sha, false)))
  }

  /** The record a deploy works from: the recorded one, or with a clean newer checkout adopted. */
  ghost predicate Adopted(commits: Commits, r: Record, saved: Record, sha: nat) {
    || saved == r
    || exists head :: AdoptedFrom(commits, r, saved, sha, head)
  }

  ghost predicate AdoptedFrom(commits: Commits, r: Record, saved: Record, sha: nat, head: nat) {
    Ancestor(commits, r.sha, head) && Ancestor(commits, head, sha) && saved == Rebased(r, head, sha, true)
  }

  function WithIntent(saved: Record, sha: nat, head: nat, recovery: bool): Record {
    saved.(intent := Some(Intent(Effective(saved), sha, head, recovery)))
  }

  ghost predicate Intended(saved: Record, after: Record, sha: nat) {
    exists head, recovery :: after == WithIntent(saved, sha, head, recovery)
  }

  ghost predicate Finalized(commits: Commits, saved: Record, after: Record, sha: nat) {
    && Ancestor(commits, Effective(saved), sha)
    && after.sha == sha && after.previous == Some(saved.sha) && after.base.None? && after.intent.None?
    && after.history == saved.history
  }

  ghost predicate DeployLeaves(commits: Commits, before: Option<Record>, after: Option<Record>, sha: nat) {
    || after == before
    || (before.Some? && before.value.intent.None? && after.Some? &&
        exists saved :: Adopted(commits, before.value, saved, sha) &&
          (after.value == saved || Intended(saved, after.value, sha) || Finalized(commits, saved, after.value, sha)))
  }

  /** Staging a repair and attaching its pull request rewrite the list of pending repairs only. */
  ghost predicate RepairLeaves(before: Option<Record>, after: Option<Record>) {
    before.Some? && after.Some? && after.value == before.value.(pending := after.value.pending)
  }

  ghost predicate OperationLeaves(commits: Commits, before: Option<Record>, after: Option<Record>) {
    || BootstrapLeaves(before, after)
    || (exists sha :: RebaselineLeaves(commits, before, after, sha))
    || (exists sha :: DeployLeaves(commits, before, after, sha))
    || RepairLeaves(before, after)
  }

  // ---------------------------------------------------------------- the baseline only moves forward

  /** A recorded baseline is never forgotten and only replaced by a descendant. */
  ghost predicate Advances(commits: Commits, before: Option<Record>, after: Option<Record>) {
    before.Some? ==> after.Some? && Ancestor(commits, Effective(before.value), Effective(after.value))
  }

  lemma DeployAdvances(commits: Commits, before: Option<Record>, after: Option<Record>, sha: nat)
    requires DeployLeaves(commits, before, after, sha)
    ensures Advances(commits, before, after)
  {
    hide Ancestor, Remember;
    if after != before {
      var saved :| Adopted(commits, before.value, saved, sha) &&
        (after.value == saved || Intended(saved, after.value, sha) || Finalized(commits, saved, after.value, sha));
      assert Effective(saved) == Effective(before.value);
    }
    AncestorReflexive(commits);
  }

  lemma AncestorReflexive(commits: Commits)
    ensures forall c :: Ancestor(commits, c, c)
  {
  }

  lemma OperationAdvances(commits: Commits, before: Option<Record>, after: Option<Record>)
    requires OperationLeaves(commits, before, after)
    ensures Advances(commits, before, after)
  {
    hide Remember, Ancestor;
    AncestorReflexive(commits);
    if sha :| DeployLeaves(commits, before, after, sha) { DeployAdvances(commits, before, after, sha); }
  }

  ghost predicate Run(commits: Commits, states: seq<Option<Record>>) {
    forall i :: 0 < i < |states| ==> OperationLeaves(commits, states[i - 1], states[i])
  }

  /** Over any run of operations the effective baseline only moves to descendants. */
  lemma {:induction false} BaselineOnlyMovesForward(commits: Commits, states: seq<Option<Record>>, i: nat, j: nat)
    requires Run(commits, states) && i <= j < |states|
    ensures Advances(commits, states[i], states[j])
    decreases j
  {
    hide OperationLeaves, Ancestor;
    if i == j {
      AncestorReflexive(commits);
    } else {
      BaselineOnlyMovesForward(commits, states, i, j - 1);
      OperationAdvances(commits, states[j - 1], states[j]);
      if states[i].Some? {
        AncestorTransitive(commits, Effective(states[i].value), Effective(states[j - 1].value),
          Effective(states[j].value));
      }
    }
  }

  /** An intent on disk stays: every later operation leaves the record as it is, but for its pending repairs. */
  lemma {:induction false} IntentStays(commits: Commits, states: seq<Option<Record>>, i: nat, j: nat)
    requires Run(commits, states) && i <= j < |states| && states[i].Some? && states[i].value.intent.Some?
    ensures states[j].Some? && states[j].value == states[i].value.(pending := states[j].value.pending)
    decreases j
  {
    hide Adopted, Intended, Finalized, Ancestor, Remember;
    if i < j {
      IntentStays(commits, states, i, j - 1);
      assert OperationLeaves(commits, states[j - 1], states[j]);
    }
  }

  // ---------------------------------------------------------------- the recorded commit does not

  /** The recorded commit stays or moves to a descendant. */
  ghost predicate MovesForward(commits: Commits, r: Record, after: Option<Record>) {
    after.Some? && Ancestor(commits, r.sha, after.value.sha)
  }

  /** A record left by a deploy is forward of the old one exactly if it is not at an unrelated requested commit. */
  lemma DeployMovesForwardExactly(commits: Commits, r: Record, after: Option<Record>, sha: nat)
    requires DeployLeaves(commits, Some(r), after, sha)
    ensures after.Some?
    ensures MovesForward(commits, r, after) <==> (after.value.sha == sha ==> Ancestor(commits, r.sha, sha))
  {
    hide Ancestor, Remember;
    AncestorReflexive(commits);
  }

  /**
    Known before the call: every outcome is forward exactly if the request is refused outright, or fails the
    lineage check, or descends from the recorded commit and not only from the baseline, which is what is checked.
  */
  lemma EveryOutcomeForwardExactly(commits: Commits, r: Record, sha: nat)
    ensures (forall after :: DeployLeaves(commits, Some(r), after, sha) ==> MovesForward(commits, r, after)) <==>
      r.intent.Some? || !Ancestor(commits, Effective(r), sha) || Ancestor(commits, r.sha, sha)
  {
    hide Ancestor, Remember;
    AncestorReflexive(commits);
    if r.intent.None? && Ancestor(commits, Effective(r), sha) && !Ancestor(commits, r.sha, sha) {
      var after := r.(sha := sha, previous := Some(r.sha), base := None);
      assert Adopted(commits, r, r, sha) && Finalized(commits, r, after, sha);
      assert DeployLeaves(commits, Some(r), Some(after), sha) && !MovesForward(commits, r, Some(after));
    }
    forall after | DeployLeaves(commits, Some(r), after, sha)
      ensures r.intent.Some? || !Ancestor(commits, Effective(r), sha) || Ancestor(commits, r.sha, sha) ==>
        MovesForward(commits, r, after)
    {
      FinalMeansLineage(commits, r, after, sha);
    }
  }

  /** The requested commit is recorded only by a deploy that passed the lineage check, or was recorded before. */
  lemma FinalMeansLineage(commits: Commits, r: Record, after: Option<Record>, sha: nat)
    requires DeployLeaves(commits, Some(r), after, sha)
    ensures r.intent.Some? ==> after == Some(r)
    ensures !MovesForward(commits, r, after) ==>
      Ancestor(commits, Effective(r), sha) && !Ancestor(commits, r.sha, sha) && Sidesteps(commits, r, after.value)
  {
    hide Ancestor, Remember;
    AncestorReflexive(commits);
    if after != Some(r) {
      var saved :| Adopted(commits, r, saved, sha) &&
        (after.value == saved || Intended(saved, after.value, sha) || Finalized(commits, saved, after.value, sha));
      if saved != r {
        var head :| AdoptedFrom(commits, r, saved, sha, head);
        AncestorTransitive(commits, r.sha, head, sha);
      }
    }
  }

  /** A manual rebaseline moves forward exactly if the checkout it adopts descends from the recorded commit. */
  lemma RebaselineMovesForwardExactly(commits: Commits, r: Record, after: Option<Record>, sha: nat)
    requires RebaselineLeaves(commits, Some(r), after, sha)
    ensures after.Some?
    ensures MovesForward(commits, r, after) <==> !Rewinds(commits, r, after.value)
    ensures after != Some(r) ==> Ancestor(commits, after.value.sha, sha)
  {
    hide Ancestor, Remember;
    AncestorReflexive(commits);
  }

  /** A manual rebaseline of a checkout that does not descend from the recorded commit. */
  ghost predicate Rewinds(commits: Commits, r: Record, after: Record) {
    && r.intent.None? && r.pending == [] && !Ancestor(commits, r.sha, after.sha)
    && exists sha :: Ancestor(commits, after.sha, sha) && after == Rebased(r, after.sha, sha, false)
  }

  /** A finished deploy of a commit that descends from the baseline but not from the recorded commit. */
  ghost predicate Sidesteps(commits: Commits, r: Record, after: Record) {
    && r.intent.None? && Finalized(commits, r, after, after.sha)
    && !Ancestor(commits, r.sha, after.sha)
  }

  /** The recorded commit moves forward in every operation but these two. */
  lemma OperationMovesForwardExactly(commits: Commits, r: Record, after: Option<Record>)
    requires OperationLeaves(commits, Some(r), after)
    ensures after.Some?
    ensures MovesForward(commits, r, after) <==>
      !Rewinds(commits, r, after.value) && !Sidesteps(commits, r, after.value)
  {
    hide Ancestor, Remember, Finalized, Adopted, Intended, DeployLeaves, RebaselineLeaves, Rewinds, Sidesteps;
    OperationAdvances(commits, Some(r), after);
    AncestorReflexive(commits);
    BackwardMeans(commits, r, after);
    if sha :| DeployLeaves(commits, Some(r), after, sha) {
      DeployMovesForwardExactly(commits, r, after, sha);
      FinalMeansLineage(commits, r, after, sha);
    } else if sha :| RebaselineLeaves(commits, Some(r), after, sha) {
      RebaselineMovesForwardExactly(commits, r, after, sha);
    }
  }

  lemma BackwardMeans(commits: Commits, r: Record, after: Option<Record>)
    requires after.Some?
    ensures Rewinds(commits, r, after.value) || Sidesteps(commits, r, after.value) ==> !MovesForward(commits, r, after)
  {
  }

  /** So over any run without those two the recorded commit only moves to descendants. */
  lemma {:induction false} RecordedMovesForward(commits: Commits, states: seq<Option<Record>>, i: nat, j: nat)
    requires Run(commits, states) && i <= j < |states| && states[i].Some?
    requires forall k :: i < k <= j && states[k - 1].Some? && states[k].Some? ==>
      && !Rewinds(commits, states[k - 1].value, states[k].value)
      && !Sidesteps(commits, states[k - 1].value, states[k].value)
    ensures MovesForward(commits, states[i].value, states[j])
    decreases j
  {
    hide OperationLeaves, Ancestor, Rewinds, Sidesteps;
    AncestorReflexive(commits);
    if i < j {
      RecordedMovesForward(commits, states, i, j - 1);
      OperationMovesForwardExactly(commits, states[j - 1].value, states[j]);
      AncestorTransitive(commits, states[i].value.sha, states[j - 1].value.sha, states[j].value.sha);
    }
  }

  /**
    Both happen.  A manual rebaseline adopts the older checkout 0 below a recorded commit 1; and after a manual
    rebaseline from 0 to 1 a deploy of commit 2, a sibling of 1, finishes, since only the kept baseline 0 is
    compared with it.
  */
  lemma RecordedCommitMayMoveBack()
    ensures exists commits: Commits, before: Record, after: Record ::
      && RebaselineLeaves(commits, Some(before), Some(after), 1)
      && after.sha < before.sha && Ancestor(commits, after.sha, before.sha)
      && !Ancestor(commits, before.sha, after.sha) && Effective(after) == Effective(before)
    ensures exists commits: Commits, first: Record, second: Record, third: Record ::
      && RebaselineLeaves(commits, Some(first), Some(second), 1) && DeployLeaves(commits, Some(second), Some(third), 2)
      && (first.sha, second.sha, third.sha) == (0, 1, 2) && third.intent.None? && Sidesteps(commits, second, third)
      && !Ancestor(commits, 1, 2) && !Ancestor(commits, 2, 1)
  {
    hide Remember;
    var root, child := CommitInfo({}, map[], Missing), CommitInfo({0}, map[], Missing);
    var two: Commits := [root, child];
    var before := Fresh(1);
    var after := Rebased(before, 0, 1, false);
    assert 0 in two[1].parents && Ancestor(two, 0, 0);
    assert Ancestor(two, 0, 1) && !Ancestor(two, 1, 0);
    assert RebaselineLeaves(two, Some(before), Some(after), 1);
    Siblings([root, child, child]);
  }

  lemma SiblingLines(commits: Commits)
    requires |commits| == 3 && commits[0].parents == {} && commits[1].parents == {0} && commits[2].parents == {0}
    ensures Ancestor(commits, 0, 1) && Ancestor(commits, 0, 2) && Ancestor(commits, 1, 1)
    ensures !Ancestor(commits, 1, 2) && !Ancestor(commits, 2, 1)
  {
    assert 0 in commits[1].parents && 0 in commits[2].parents && Ancestor(commits, 0, 0);
    assert !Ancestor(commits, 1, 0) && !Ancestor(commits, 2, 0);
  }

  lemma Siblings(commits: Commits)
    requires |commits| == 3 && commits[0].parents == {} && commits[1].parents == {0} && commits[2].parents == {0}
    ensures exists first: Record, second: Record, third: Record ::
      && RebaselineLeaves(commits, Some(first), Some(second), 1) && DeployLeaves(commits, Some(second), Some(third), 2)
      && (first.sha, second.sha, third.sha) == (0, 1, 2) && third.intent.None? && Sidesteps(commits, second, third)
    ensures !Ancestor(commits, 1, 2) && !Ancestor(commits, 2, 1)
  {
    hide Remember, Ancestor, Adopted, Finalized, DeployLeaves, RebaselineLeaves, Sidesteps;
    SiblingLines(commits);
    var first := Fresh(0);
    var second := Rebased(first, 1, 1, false);
    var third := second.(sha := 2, previous := Some(1), base := None);
    SiblingSteps(commits, first, second, third);
  }

  lemma SiblingSteps(commits: Commits, first: Record, second: Record, third: Record)
    requires Ancestor(commits, 0, 2) && Ancestor(commits, 1, 1) && !Ancestor(commits, 1, 2)
    requires first == Fresh(0) && second == Rebased(first, 1, 1, false)
    requires third == second.(sha := 2, previous := Some(1), base := None)
    ensures RebaselineLeaves(commits, Some(first), Some(second), 1)
    ensures DeployLeaves(commits, Some(second), Some(third), 2) && Sidesteps(commits, second, third)
  {
    hide Remember, Ancestor;
    assert Adopted(commits, second, second, 2) && Finalized(commits, second, third, 2);
  }

  // ---------------------------------------------------------------- checks

  predicate IsPending(pending: seq<Repair>, p: Path) {
    exists i :: 0 <= i < |pending| && pending[i].projection == p.projection && p.rel in pending[i].files
  }

  lemma PendingExactly(pending: seq<Repair>, p: Path)
    ensures IsPending(pending, p) <==> Repaired(pending, p)
  {
    if IsPending(pending, p) {
      var i :| 0 <= i < |pending| && pending[i].projection == p.projection && p.rel in pending[i].files;
      assert PatchAt(pending, p, pending[i].files[p.rel]);
    }
  }

  /** `_verify_pending_live`. */
  predicate PendingLive(live: map<Path, Meta>, pending: seq<Repair>) {
    forall i :: 0 <= i < |pending| ==>
      forall rel :: rel in pending[i].files ==>
        Look(live, Path(pending[i].projection, rel)) == pending[i].files[rel].after
  }

  /** `_verify_ops_brief`. */
  predicate BriefOk(commits: Commits, projections: set<string>, live: map<Path, Meta>, c: nat) {
    match BriefAt(commits, c)
    case Missing => true
    case Invalid => false
    case Rendered(text) => BRIEF.projection in projections && Look(live, BRIEF) == Some(Meta(text, BRIEF_MODE))
  }

  /** `_verify_managed_projections`. */
  predicate ManagedOk(commits: Commits, projections: set<string>, live: map<Path, Meta>, r: Record) {
    && r.watched <= projections
    && (forall p :: p in r.managed && !IsPending(r.pending, p) ==> Look(live, p) == r.managed[p])
    && BriefOk(commits, projections, live, Effective(r))
  }

  /** Every file that a pending repair patches is live as patched. */
  lemma PendingLiveMeans(live: map<Path, Meta>, pending: seq<Repair>)
    ensures PendingLive(live, pending) <==>
      forall p, patch :: PatchAt(pending, p, patch) ==> Look(live, p) == patch.after
  {
    if forall p, patch :: PatchAt(pending, p, patch) ==> Look(live, p) == patch.after {
      forall i, rel | 0 <= i < |pending| && rel in pending[i].files
        ensures Look(live, Path(pending[i].projection, rel)) == pending[i].files[rel].after
      {
        assert PatchAt(pending, Path(pending[i].projection, rel), pending[i].files[rel]);
      }
    }
  }

  /** A commit without a brief asks for nothing; an invalid one fails; a valid one must be live in full, mode 0644. */
  lemma BriefOkMeans(commits: Commits, projections: set<string>, live: map<Path, Meta>, c: nat)
    ensures BriefAt(commits, c).Missing? ==> BriefOk(commits, projections, live, c)
    ensures BriefAt(commits, c).Invalid? ==> !BriefOk(commits, projections, live, c)
    ensures BriefAt(commits, c).Rendered? ==>
      var p := Path("games/soviet_now", "prompts/ops_brief.md");
      BriefOk(commits, projections, live, c) <==>
        "games/soviet_now" in projections && p in live && live[p] == Meta(BriefAt(commits, c).text, 420)
  {
  }

  /**
    The check fails exactly if the projection of a managed file is not configured, a managed
    file that no pending repair owns is not live as recorded, or the brief of the baseline is not.
  */
  lemma ManagedFailsExactly(commits: Commits, projections: set<string>, live: map<Path, Meta>, r: Record)
    ensures !ManagedOk(commits, projections, live, r) <==>
      || (exists name :: name in r.watched && name !in projections)
      || (exists p :: p in r.managed && !Repaired(r.pending, p) && Look(live, p) != r.managed[p])
      || !BriefOk(commits, projections, live, Effective(r))
  {
    hide BriefOk, Look, Effective;
    forall p ensures IsPending(r.pending, p) <==> Repaired(r.pending, p) { PendingExactly(r.pending, p); }
    hide IsPending, Repaired;
  }

  /** The paths of a projection that the two gitlinks differ in. */
  function Differing(q: Request, name: string): set<string> {
    Changed(TreeOf(Before(q, name)), TreeOf(After(q, name)))
  }

  /** `_verify_projection_convergence`. */
  predicate Converged(q: Request, live: map<Path, Meta>) {
    forall name :: name in q.projections ==>
      || Before(q, name) == After(q, name)
      || (&& Before(q, name).Some? && After(q, name).Some?
          && forall rel :: rel in Differing(q, name) && Path(name, rel) != BRIEF ==>
               Look(live, Path(name, rel)) == At(TreeOf(After(q, name)), rel))
  }

  /**
    Every file the request is about holds exactly what the requested commit says, bytes and mode, the brief
    included.
  */
  ghost predicate AllWanted(q: Request, live: map<Path, Meta>) {
    forall p :: Concerned(q, p) ==> Look(live, p) == WantedAfter(q, p)
  }

  /** No planned change touches a pending repair's file. */
  lemma PatchesAreNotTouched(q: Request, live: map<Path, Meta>, changes: seq<Change>, remaining: seq<Repair>, p: Path)
    requires PlanOk(q, live, changes, remaining) && Repaired(q.pending, p)
    ensures !Touched(changes, p)
  {
    hide Concerned, PatchFits, WantedAfter, WantedBefore, Look, PatchAt;
  }

  /** Planning and applying converges: no other outcome is left for any file the request is about. */
  lemma PlanConverges(q: Request, before: map<Path, Meta>, live: map<Path, Meta>, changes: seq<Change>,
    remaining: seq<Repair>)
    requires PlanOk(q, before, changes, remaining) && Applied(before, live, changes)
    ensures AllWanted(q, live)
    ensures forall p, patch :: PatchAt(q.pending, p, patch) ==> Look(live, p) == Look(before, p) == patch.after
  {
    hide WantedAfter, WantedBefore, Look, PatchAt;
    forall p | Repaired(q.pending, p) ensures Look(live, p) == Look(before, p) {
      PatchesAreNotTouched(q, before, changes, remaining, p);
    }
    forall p | Concerned(q, p) ensures Look(live, p) == WantedAfter(q, p) {
      if Touched(changes, p) {
        var i :| 0 <= i < |changes| && changes[i].path == p;
        assert Justified(q, before, changes[i]);
      } else if Repaired(q.pending, p) {
        var patch :| PatchAt(q.pending, p, patch);
        assert PatchFits(q, before, p, patch);
      } else {
        assert Settled(q, before, changes, p);
      }
    }
  }

  /** So the pending check and the convergence check after a calm application cannot fail. */
  lemma ChecksCannotFail(q: Request, before: map<Path, Meta>, live: map<Path, Meta>, changes: seq<Change>,
    remaining: seq<Repair>)
    requires RequestPlannable(q, before) && PlanOk(q, before, changes, remaining) && Applied(before, live, changes)
    ensures Converged(q, live) && PendingLive(live, q.pending) && PendingLive(live, remaining)
  {
    hide PlanOk, Applied, Look, BriefPlannable, Plannable, LinkAt, PatchAt;
    PlanConverges(q, before, live, changes, remaining);
    PatchesLive(q.pending, live);
    forall p, patch | PatchAt(remaining, p, patch) ensures Look(live, p) == patch.after {
      RemainingArePending(q, before, changes, remaining, p, patch);
    }
    PatchesLive(remaining, live);
    forall name | name in q.projections && Before(q, name) != After(q, name)
      ensures Before(q, name).Some? && After(q, name).Some?
      ensures forall rel :: rel in Differing(q, name) && Path(name, rel) != BRIEF ==>
                Look(live, Path(name, rel)) == At(TreeOf(After(q, name)), rel)
    {
      assert ProjectionPlannable(q, before, name);
      forall rel | rel in Changed(TreeOf(Before(q, name)), TreeOf(After(q, name))) && Path(name, rel) != BRIEF
        ensures Look(live, Path(name, rel)) == At(TreeOf(After(q, name)), rel)
      {
        assert Concerned(q, Path(name, rel));
      }
    }
  }

  lemma PatchesLive(pending: seq<Repair>, live: map<Path, Meta>)
    requires forall p, patch :: PatchAt(pending, p, patch) ==> Look(live, p) == patch.after
    ensures PendingLive(live, pending)
  {
    hide Look;
    forall i, rel | 0 <= i < |pending| && rel in pending[i].files
      ensures Look(live, Path(pending[i].projection, rel)) == pending[i].files[rel].after
    {
      assert PatchAt(pending, Path(pending[i].projection, rel), pending[i].files[rel]);
    }
  }

  lemma RemainingArePending(q: Request, live: map<Path, Meta>, changes: seq<Change>, remaining: seq<Repair>, p: Path,
    patch: Patch)
    requires PlanOk(q, live, changes, remaining)
    ensures PatchAt(remaining, p, patch) <==> PatchAt(q.pending, p, patch) && WantedAfter(q, p) != patch.after
  {
    hide PatchAt, WantedAfter, Justified, Settled, PatchFits, Concerned;
  }

  // ---------------------------------------------------------------- managed files

  function PatchedPaths(repairs: seq<Repair>): set<Path> {
    set i, rel | 0 <= i < |repairs| && rel in repairs[i].files :: Path(repairs[i].projection, rel)
  }

  lemma PatchedPathsExactly(repairs: seq<Repair>, p: Path)
    ensures p in PatchedPaths(repairs) <==> IsPending(repairs, p)
  {
    if IsPending(repairs, p) {
      var i :| 0 <= i < |repairs| && repairs[i].projection == p.projection && p.rel in repairs[i].files;
      assert p == Path(repairs[i].projection, p.rel);
    }
  }

  /** The repair of this file was adopted: it was pending and no longer is. */
  predicate IsAdopted(pending: seq<Repair>, remaining: seq<Repair>, p: Path) {
    IsPending(pending, p) && !IsPending(remaining, p)
  }

  /** The record kept of a managed file after a deployment. */
  ghost predicate Monitored(managed: map<Path, Content>, changes: seq<Change>, pending: seq<Repair>,
    remaining: seq<Repair>, p: Path, record: Content)
  {
    if IsAdopted(pending, remaining, p) then exists patch :: PatchAt(pending, p, patch) && record == patch.after
    else Recorded(managed, changes, p, record)
  }

  /** Files that were managed, and files whose repair this deployment adopted, are monitored from now on. */
  method Monitor(managed: map<Path, Content>, changes: seq<Change>, pending: seq<Repair>, remaining: seq<Repair>)
    returns (m: map<Path, Content>)
    ensures forall p :: p in m <==> p in managed || IsAdopted(pending, remaining, p)
    ensures forall p :: p in m ==> Monitored(managed, changes, pending, remaining, p, m[p])
  {
    m := managed;
    for k := 0 to |changes|
      invariant m.Keys == managed.Keys
      invariant forall p :: p in m ==> Recorded(managed, changes[..k], p, m[p])
    {
      ghost var before := m;
      if changes[k].path in m { m := m[changes[k].path := changes[k].after]; }
      RecordedNext(managed, changes, k, before, m);
    }
    assert changes[..|changes|] == changes;
    var watched := PatchedPaths(remaining);
    for k := 0 to |pending|
      invariant forall p :: p in m <==> p in managed || IsAdopted(pending[..k], remaining, p)
      invariant forall p :: p in m ==> Monitored(managed, changes, pending[..k], remaining, p, m[p])
    {
      hide Monitored, IsAdopted, Recorded;
      ghost var before := m;
      var r := pending[k];
      m := m + map p: Path | p in Files(r) && p !in watched :: r.files[p.rel].after;
      MonitoredNext(managed, changes, pending, remaining, k, before, m);
    }
    assert pending[..|pending|] == pending;
  }

  function Files(r: Repair): set<Path> {
    set rel | rel in r.files :: Path(r.projection, rel)
  }

  ghost predicate Recorded(managed: map<Path, Content>, changes: seq<Change>, p: Path, record: Content) {
    if Touched(changes, p) then exists i :: 0 <= i < |changes| && changes[i].path == p && record == changes[i].after
    else p in managed && record == managed[p]
  }

  lemma RecordedNext(managed: map<Path, Content>, changes: seq<Change>, k: nat, before: map<Path, Content>,
    m: map<Path, Content>)
    requires k < |changes| && forall p :: p in before ==> Recorded(managed, changes[..k], p, before[p])
    requires m == if changes[k].path in before then before[changes[k].path := changes[k].after] else before
    ensures forall p :: p in m ==> Recorded(managed, changes[..k + 1], p, m[p])
  {
    forall p | p in m ensures Recorded(managed, changes[..k + 1], p, m[p]) {
      if p == changes[k].path {
        assert changes[..k + 1][k].path == p;
      } else if Touched(changes[..k], p) {
        var i :| 0 <= i < k && changes[..k][i].path == p && before[p] == changes[..k][i].after;
        assert changes[..k + 1][i] == changes[..k][i];
      } else {
        assert forall i :: 0 <= i < k ==> changes[..k][i] == changes[..k + 1][i];
      }
    }
  }

  lemma MonitoredNext(managed: map<Path, Content>, changes: seq<Change>, pending: seq<Repair>, remaining: seq<Repair>,
    k: nat, before: map<Path, Content>, m: map<Path, Content>)
    requires k < |pending|
    requires forall p :: p in before <==> p in managed || IsAdopted(pending[..k], remaining, p)
    requires forall p :: p in before ==> Monitored(managed, changes, pending[..k], remaining, p, before[p])
    requires m == before + map p: Path | p in Files(pending[k]) &&
      p !in PatchedPaths(remaining) :: pending[k].files[p.rel].after
    ensures forall p :: p in m <==> p in managed || IsAdopted(pending[..k + 1], remaining, p)
    ensures forall p :: p in m ==> Monitored(managed, changes, pending[..k + 1], remaining, p, m[p])
  {
    hide Monitored, Files, PatchedPaths, IsPending, IsAdopted;
    forall p ensures IsAdopted(pending[..k + 1], remaining, p) <==>
      IsAdopted(pending[..k], remaining, p) || (p in Files(pending[k]) && p !in PatchedPaths(remaining))
    {
      AdoptedSnoc(pending, remaining, k, p);
    }
    forall p | p in m ensures Monitored(managed, changes, pending[..k + 1], remaining, p, m[p]) {
      AdoptedSnoc(pending, remaining, k, p);
      if p in Files(pending[k]) && p !in PatchedPaths(remaining) {
        NewlyMonitored(managed, changes, pending, remaining, k, p);
      } else {
        StillMonitored(managed, changes, pending, remaining, k, p, before[p]);
      }
    }
  }

  lemma AdoptedSnoc(pending: seq<Repair>, remaining: seq<Repair>, k: nat, p: Path)
    requires k < |pending|
    ensures IsAdopted(pending[..k + 1], remaining, p) <==>
      IsAdopted(pending[..k], remaining, p) || (p in Files(pending[k]) && p !in PatchedPaths(remaining))
  {
    PendingSnoc(pending, k, p);
    PatchedPathsExactly(remaining, p);
    hide IsPending, PatchedPaths, Files;
  }

  lemma NewlyMonitored(managed: map<Path, Content>, changes: seq<Change>, pending: seq<Repair>,
    remaining: seq<Repair>, k: nat, p: Path)
    requires k < |pending| && p in Files(pending[k]) && IsAdopted(pending[..k + 1], remaining, p)
    ensures Monitored(managed, changes, pending[..k + 1], remaining, p, pending[k].files[p.rel].after)
  {
    Snoc(pending, k);
    PatchAtOne(pending[k], p, pending[k].files[p.rel]);
    PatchAtConcat(pending[..k], [pending[k]], p, pending[k].files[p.rel]);
    hide PatchAt, IsAdopted;
  }

  lemma StillMonitored(managed: map<Path, Content>, changes: seq<Change>, pending: seq<Repair>,
    remaining: seq<Repair>, k: nat, p: Path, record: Content)
    requires k < |pending| && Monitored(managed, changes, pending[..k], remaining, p, record)
    requires IsAdopted(pending[..k + 1], remaining, p) <==> IsAdopted(pending[..k], remaining, p)
    ensures Monitored(managed, changes, pending[..k + 1], remaining, p, record)
  {
    hide PatchAt, IsAdopted;
    Snoc(pending, k);
    if IsAdopted(pending[..k], remaining, p) {
      var patch :| PatchAt(pending[..k], p, patch) && record == patch.after;
      PatchAtConcat(pending[..k], [pending[k]], p, patch);
    }
  }

  lemma PendingSnoc(pending: seq<Repair>, k: nat, p: Path)
    requires k < |pending|
    ensures IsPending(pending[..k + 1], p) <==> IsPending(pending[..k], p) || p in Files(pending[k])
  {
    Snoc(pending, k);
    if IsPending(pending[..k], p) {
      var i :| 0 <= i < k && pending[..k][i].projection == p.projection && p.rel in pending[..k][i].files;
      assert pending[..k + 1][i] == pending[..k][i];
    }
    if p in Files(pending[k]) { assert pending[..k + 1][k] == pending[k]; }
    if IsPending(pending[..k + 1], p) {
      var i :| 0 <= i <= k && pending[..k + 1][i].projection == p.projection && p.rel in pending[..k + 1][i].files;
      if i < k {
        assert pending[..k][i] == pending[..k + 1][i];
      } else {
        assert p == Path(pending[k].projection, p.rel);
      }
    }
  }

  /** The state file a completed deployment writes. */
  function Final(q: Request, saved: Record, remaining: seq<Repair>, managed: map<Path, Content>): Record {
    saved.(sha := q.sha, previous := Some(saved.sha), base := None, pending := remaining,
           watched := saved.watched + q.projections + (if BriefManaged(q) then {BRIEF.projection} else {}),
           managed := if BriefManaged(q) then managed[BRIEF := BriefContent(BriefAt(q.commits, q.sha))] else managed)
  }

  /**
    The final record is at the requested commit, with its own baseline and no intent added;
    watched from now on are also all configured projections, and the brief if there is one.
  */
  lemma FinalMeans(q: Request, saved: Record, remaining: seq<Repair>, managed: map<Path, Content>, p: Path)
    ensures var t := Final(q, saved, remaining, managed);
      && t.sha == q.sha && t.previous == Some(saved.sha) && Effective(t) == q.sha && t.base.None?
      && t.pending == remaining && t.intent == saved.intent && t.history == saved.history
      && saved.watched <= t.watched && q.projections <= t.watched
      && (forall name :: name in t.watched ==>
            name in saved.watched || name in q.projections || (name == BRIEF.projection && BriefManaged(q)))
      && (BriefManaged(q) ==> BRIEF.projection in t.watched)
      && (BriefManaged(q) ==> BRIEF in t.managed)
      && (BriefManaged(q) ==> t.managed[BRIEF] == Some(Meta(BriefAt(q.commits, q.sha).text, 420)))
      && (p != BRIEF || !BriefManaged(q) ==>
            (p in t.managed <==> p in managed) && (p in managed ==> t.managed[p] == managed[p]))
  {
  }

  /** The check of managed files is inductive: it holds of what a calm deployment records. */
  lemma ManagedStaysOk(q: Request, before: map<Path, Meta>, live: map<Path, Meta>, changes: seq<Change>,
    remaining: seq<Repair>, saved: Record, m: map<Path, Content>)
    requires PlanOk(q, before, changes, remaining) && BriefPlannable(q, before) && Applied(before, live, changes)
    requires saved.pending == q.pending && ManagedOk(q.commits, q.projections, before, saved)
    requires forall p :: p in m <==> p in saved.managed || IsAdopted(q.pending, remaining, p)
    requires forall p :: p in m ==> Monitored(saved.managed, changes, q.pending, remaining, p, m[p])
    ensures ManagedOk(q.commits, q.projections, live, Final(q, saved, remaining, m))
  {
    hide PatchAt, IsPending, WantedBefore;
    PlanConverges(q, before, live, changes, remaining);
    if BriefManaged(q) {
      assert Concerned(q, BRIEF) && Look(live, BRIEF) == WantedAfter(q, BRIEF);
    }
    hide Look, WantedAfter, Concerned, AllWanted, Settled, Justified, PatchFits, Remember, BriefContent;
    forall p | p in m && !IsPending(remaining, p) ensures Look(live, p) == m[p] {
      PendingExactly(q.pending, p);
      if IsAdopted(q.pending, remaining, p) {
        var patch :| PatchAt(q.pending, p, patch) && m[p] == patch.after;
      } else if Touched(changes, p) {
        var i :| 0 <= i < |changes| && changes[i].path == p && m[p] == changes[i].after;
        assert Look(live, changes[i].path) == changes[i].after;
      } else {
        assert p in saved.managed && !IsPending(saved.pending, p);
      }
    }
  }

  // ---------------------------------------------------------------- any number of deployments

  /** The record after a deployment with these changes and remaining repairs. */
  ghost predicate Records(q: Request, saved: Record, changes: seq<Change>, remaining: seq<Repair>, after: Record) {
    exists m :: MonitoredAll(saved.managed, changes, q.pending, remaining, m) && after == Final(q, saved, remaining, m)
  }

  ghost predicate MonitoredAll(managed: map<Path, Content>, changes: seq<Change>, pending: seq<Repair>,
    remaining: seq<Repair>, m: map<Path, Content>)
  {
    && (forall p :: p in m <==> p in managed || IsAdopted(pending, remaining, p))
    && (forall p :: p in m ==> Monitored(managed, changes, pending, remaining, p, m[p]))
  }

  lemma RecordsFinal(q: Request, saved: Record, changes: seq<Change>, remaining: seq<Repair>, m: map<Path, Content>)
    requires forall p :: p in m <==> p in saved.managed || IsAdopted(q.pending, remaining, p)
    requires forall p :: p in m ==> Monitored(saved.managed, changes, q.pending, remaining, p, m[p])
    ensures Records(q, saved, changes, remaining, Final(q, saved, remaining, m))
  {
    hide Monitored, IsAdopted, Final;
    assert MonitoredAll(saved.managed, changes, q.pending, remaining, m);
  }

  /** A deployment during which nobody else acted: planned, applied and recorded. */
  ghost predicate CalmDeploy(commits: Commits, projections: set<string>, live: map<Path, Meta>, r: Record,
    live': map<Path, Meta>, r': Record)
  {
    exists q: Request, saved, changes, remaining ::
      && q == Request(commits, projections, Effective(saved), q.sha, saved.pending) && Adopted(commits, r, saved, q.sha)
      && BriefPlannable(q, live) && PlanOk(q, live, changes, remaining) && Applied(live, live', changes)
      && Records(q, saved, changes, remaining, r')
  }

  /** Between deployments the game may rewrite any file that is neither managed nor the brief. */
  ghost predicate Runtime(live: map<Path, Meta>, r: Record, live': map<Path, Meta>, r': Record) {
    r' == r && forall p :: p in r.managed || p == BRIEF ==> Look(live', p) == Look(live, p)
  }

  datatype Site = Site(live: map<Path, Meta>, record: Record)

  lemma CalmDeployKeepsManaged(commits: Commits, projections: set<string>, live: map<Path, Meta>, r: Record,
    live': map<Path, Meta>, r': Record)
    requires ManagedOk(commits, projections, live, r) && CalmDeploy(commits, projections, live, r, live', r')
    ensures ManagedOk(commits, projections, live', r')
  {
    hide PlanOk, Applied, BriefPlannable, Final, Ancestor, Monitored, IsAdopted, Remember, BriefOk, IsPending, Look;
    var q: Request, saved, changes, remaining :|
      && q == Request(commits, projections, Effective(saved), q.sha, saved.pending) && Adopted(commits, r, saved, q.sha)
      && BriefPlannable(q, live) && PlanOk(q, live, changes, remaining) && Applied(live, live', changes)
      && Records(q, saved, changes, remaining, r');
    var m :| MonitoredAll(saved.managed, changes, q.pending, remaining, m) && r' == Final(q, saved, remaining, m);
    assert ManagedOk(commits, projections, live, saved);
    ManagedStaysOk(q, live, live', changes, remaining, saved, m);
  }

  /** Staging a repair appends it to the pending ones and changes no file but its own, which never include the brief. */
  ghost predicate Staging(live: map<Path, Meta>, r: Record, live': map<Path, Meta>, r': Record) {
    exists repair: Repair ::
      && r' == r.(pending := r.pending + [repair]) && BRIEF !in Files(repair)
      && forall p :: p !in Files(repair) ==> Look(live', p) == Look(live, p)
  }

  /** A rebaseline, or a deployment that was rolled back, leaves the files and at most adopts the checkout. */
  ghost predicate Readjusted(commits: Commits, live: map<Path, Meta>, r: Record, live': map<Path, Meta>, r': Record) {
    && live' == live
    && exists sha :: Adopted(commits, r, r', sha) || RebaselineLeaves(commits, Some(r), Some(r'), sha)
  }

  ghost predicate SiteStep(commits: Commits, projections: set<string>, a: Site, b: Site) {
    || CalmDeploy(commits, projections, a.live, a.record, b.live, b.record)
    || Runtime(a.live, a.record, b.live, b.record)
    || Staging(a.live, a.record, b.live, b.record)
    || Readjusted(commits, a.live, a.record, b.live, b.record)
  }

  lemma StagingKeepsManaged(commits: Commits, projections: set<string>, a: Site, b: Site)
    requires ManagedOk(commits, projections, a.live, a.record) && Staging(a.live, a.record, b.live, b.record)
    ensures ManagedOk(commits, projections, b.live, b.record)
  {
    hide Look;
    var repair: Repair :|
      && b.record == a.record.(pending := a.record.pending + [repair]) && BRIEF !in Files(repair)
      && forall p :: p !in Files(repair) ==> Look(b.live, p) == Look(a.live, p);
    var n := |a.record.pending|;
    assert b.record.pending[..n] == a.record.pending && b.record.pending[n] == repair &&
      b.record.pending[..n + 1] == b.record.pending;
    forall p ensures IsPending(b.record.pending, p) <==> IsPending(a.record.pending, p) || p in Files(repair) {
      PendingSnoc(b.record.pending, n, p);
    }
    hide IsPending, Files;
  }

  lemma ReadjustedKeepsManaged(commits: Commits, projections: set<string>, a: Site, b: Site)
    requires ManagedOk(commits, projections, a.live, a.record) &&
      Readjusted(commits, a.live, a.record, b.live, b.record)
    ensures ManagedOk(commits, projections, b.live, b.record)
  {
    hide Ancestor, Remember, IsPending, Look, BriefOk;
  }

  /**
    Across any number of calm deployments, staged repairs, rebaselines and rolled-back
    deployments, with the game running in between, the managed files stay as recorded.
  */
  lemma {:induction false} ManagedOverAnyRun(commits: Commits, projections: set<string>, sites: seq<Site>, i: nat)
    requires i < |sites| && ManagedOk(commits, projections, sites[0].live, sites[0].record)
    requires forall k :: 0 < k < |sites| ==> SiteStep(commits, projections, sites[k - 1], sites[k])
    ensures ManagedOk(commits, projections, sites[i].live, sites[i].record)
    decreases i
  {
    hide CalmDeploy, Staging, Readjusted, IsPending, Look;
    if i > 0 {
      ManagedOverAnyRun(commits, projections, sites, i - 1);
      var a, b := sites[i - 1], sites[i];
      if CalmDeploy(commits, projections, a.live, a.record, b.live, b.record) {
        CalmDeployKeepsManaged(commits, projections, a.live, a.record, b.live, b.record);
      } else if Staging(a.live, a.record, b.live, b.record) {
        StagingKeepsManaged(commits, projections, a, b);
      } else if Readjusted(commits, a.live, a.record, b.live, b.record) {
        ReadjustedKeepsManaged(commits, projections, a, b);
      }
    }
  }
}
