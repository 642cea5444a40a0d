/**
 * Deployment planning of ops/vm_actions/gateway.py: what a deploy from one commit to another
 * intends to do to the live projected files, and when it refuses to try.
 *
 * A content is the bytes and the mode of a regular file, or nothing. The source compares SHA-256
 * digests; here the bytes themselves are compared.
 */
module DeployPlan {
  import opened Wrappers

  datatype Meta = Meta(data: string, mode: nat)
  type Content = Option<Meta>

  /** A live file: the projection that owns it and its path below the projection's destination. */
  datatype Path = Path(projection: string, rel: string)

  type Tree = map<string, Meta>
  datatype Submodule = Submodule(id: string, tree: Tree)

  /** The parent-owned ops brief of a commit: no artifact, an invalid one, or its rendering. */
  datatype Artifact = Missing | Invalid | Rendered(text: string)

  datatype CommitInfo = CommitInfo(parents: set<nat>, links: map<string, Submodule>, brief: Artifact)

  /** The object store, commits listed in a topological order. */
  type Commits = s: seq<CommitInfo> | forall c, p :: 0 <= c < |s| && p in s[c].parents ==> p < c witness []

  datatype Change = Change(path: Path, before: Content, after: Content)
  datatype Patch = Patch(before: Content, after: Content)
  datatype Repair = Repair(id: string, active: bool, projection: string, files: map<string, Patch>)
  datatype Plan = Plan(changes: seq<Change>, remaining: seq<Repair>)
  datatype Plans = Plans(groups: seq<seq<Change>>, remaining: seq<Repair>)

  /** One projection between two submodule trees. */
  datatype Target = Target(projection: string, source: Tree, goal: Tree, repairs: seq<Repair>, excluded: set<string>)

  /** A deploy of commit `sha` over the live files last converged at `base`. */
  datatype Request = Request(commits: Commits, projections: set<string>, base: nat, sha: nat, pending: seq<Repair>)

  const BRIEF := Path("games/soviet_now", "prompts/ops_brief.md")
  const BRIEF_MODE: nat := 420

  // ---------------------------------------------------------------- commits

  /** `git merge-base --is-ancestor a b`. */
  predicate Ancestor(commits: Commits, a: nat, b: nat)
    decreases b
  {
    a == b || (b < |commits| && exists p :: p in commits[b].parents && Ancestor(commits, a, p))
  }

  lemma {:induction false} AncestorTransitive(commits: Commits, a: nat, b: nat, c: nat)
    requires Ancestor(commits, a, b) && Ancestor(commits, b, c)
    ensures Ancestor(commits, a, c)
    decreases c
  {
    if b != c {
      var p :| p in commits[c].parents && Ancestor(commits, b, p);
      AncestorTransitive(commits, a, b, p);
    }
  }

  function LinkAt(commits: Commits, c: nat, projection: string): Option<Submodule> {
    if c < |commits| && projection in commits[c].links then Some(commits[c].links[projection]) else None
  }

  function BriefAt(commits: Commits, c: nat): Artifact {
    if c < |commits| then commits[c].brief else Missing
  }

  function At(tree: Tree, rel: string): Content {
    if rel in tree then Some(tree[rel]) else None
  }

  function Look(live: map<Path, Meta>, p: Path): Content {
    if p in live then Some(live[p]) else None
  }

  /** `git diff --name-only --no-renames`: the paths whose bytes or mode differ. */
  function Changed(source: Tree, goal: Tree): set<string> {
    set rel | rel in source.Keys + goal.Keys && At(source, rel) != At(goal, rel)
  }

  lemma ChangedExactly(source: Tree, goal: Tree, rel: string)
    ensures rel in Changed(source, goal) <==> At(source, rel) != At(goal, rel)
  {
  }

  // ---------------------------------------------------------------- one projection

  function Patched(repairs: seq<Repair>): set<string> {
    if |repairs| == 0 then {} else Patched(repairs[..|repairs| - 1]) + repairs[|repairs| - 1].files.Keys
  }

  predicate Disjoint(repairs: seq<Repair>) {
    |repairs| == 0 ||
    (Disjoint(repairs[..|repairs| - 1]) && repairs[|repairs| - 1].files.Keys !! Patched(repairs[..|repairs| - 1]))
  }

  /** What is left to watch of a repair: the files whose new blob is not what the repair wrote. */
  function Kept(r: Repair, goal: Tree): Repair {
    r.(files := map rel | rel in r.files && At(goal, rel) != r.files[rel].after :: r.files[rel])
  }

  function Remaining(repairs: seq<Repair>, goal: Tree): seq<Repair> {
    if |repairs| == 0 then []
    else
      var rest := Remaining(repairs[..|repairs| - 1], goal);
      var kept := Kept(repairs[|repairs| - 1], goal);
      if kept.files == map[] then rest else rest + [kept]
  }

  /** A patched file is live as patched, was patched from the old blob, and the new blob is one of the two. */
  predicate FileFits(live: map<Path, Meta>, t: Target, rel: string, patch: Patch) {
    && rel !in t.excluded
    && Look(live, Path(t.projection, rel)) == patch.after
    && At(t.source, rel) == patch.before
    && (At(t.goal, rel) == patch.after || At(t.goal, rel) == patch.before)
  }

  ghost predicate RepairFits(live: map<Path, Meta>, t: Target, r: Repair) {
    r.active && forall rel :: rel in r.files ==> FileFits(live, t, rel, r.files[rel])
  }

  /** Exactly when a projection can be planned: every deviation from the old blobs is explained. */
  ghost predicate Plannable(live: map<Path, Meta>, t: Target) {
    && RepairsFit(live, t)
    && forall rel :: rel in Free(t) ==> Explained(live, t, rel)
  }

  function Free(t: Target): set<string> {
    Changed(t.source, t.goal) - Patched(t.repairs) - t.excluded
  }

  ghost predicate Explained(live: map<Path, Meta>, t: Target, rel: string) {
    Look(live, Path(t.projection, rel)) == At(t.goal, rel) || Look(live, Path(t.projection, rel)) == At(t.source, rel)
  }

  ghost predicate Distinct(changes: seq<Change>) {
    forall i, j :: 0 <= i < j < |changes| ==> changes[i].path != changes[j].path
  }

  ghost predicate Touched(changes: seq<Change>, p: Path) {
    exists i :: 0 <= i < |changes| && changes[i].path == p
  }

  ghost predicate ChangeFits(live: map<Path, Meta>, t: Target, c: Change) {
    && c.path.projection == t.projection
    && c.path.rel in Free(t)
    && c.before == At(t.source, c.path.rel)
    && c.after == At(t.goal, c.path.rel)
    && Look(live, c.path) == c.before
  }

  /** The changes are exactly the free paths that are not yet as the new commit wants them, each once. */
  ghost predicate ChangesFit(live: map<Path, Meta>, t: Target, changes: seq<Change>) {
    && (forall i :: 0 <= i < |changes| ==> ChangeFits(live, t, changes[i]))
    && Distinct(changes)
    && forall rel :: rel in Free(t) ==> Planned(live, t, rel, changes)
  }

  ghost predicate RepairsFit(live: map<Path, Meta>, t: Target) {
    (forall i :: 0 <= i < |t.repairs| ==> RepairFits(live, t, t.repairs[i])) && Disjoint(t.repairs)
  }

  method PlanRepaired(live: map<Path, Meta>, t: Target) returns (r: Option<Plan>)
    ensures r.Some? <==> Plannable(live, t)
    ensures r.Some? ==> ChangesFit(live, t, r.value.changes) && r.value.remaining == Remaining(t.repairs, t.goal)
  {
    hide Disjoint, RepairFits, Free, Explained, ChangesFit;
    var remaining := PlanRepairs(live, t);
    if remaining.None? { return None; }
    var changes := PlanChanges(live, t);
    if changes.None? { return None; }
    r := Some(Plan(changes.value, remaining.value));
  }

  /** The first `i` repairs fit, `seen` are their files and `remaining` what stays pending of them. */
  ghost predicate FitsUpTo(live: map<Path, Meta>, t: Target, i: nat, seen: set<string>, remaining: seq<Repair>)
    requires i <= |t.repairs|
  {
    && (forall k :: 0 <= k < i ==> RepairFits(live, t, t.repairs[k]))
    && Disjoint(t.repairs[..i]) && seen == Patched(t.repairs[..i]) && remaining == Remaining(t.repairs[..i], t.goal)
  }

  lemma RepairsSnoc(init: seq<Repair>, last: Repair, goal: Tree)
    ensures Patched(init + [last]) == Patched(init) + last.files.Keys
    ensures Disjoint(init + [last]) <==> Disjoint(init) && last.files.Keys !! Patched(init)
    ensures Remaining(init + [last], goal) ==
      Remaining(init, goal) + (if Kept(last, goal).files == map[] then [] else [Kept(last, goal)])
  {
    hide Kept;
    assert (init + [last])[..|init + [last]| - 1] == init;
  }

  lemma FitsNext(live: map<Path, Meta>, t: Target, i: nat, seen: set<string>, remaining: seq<Repair>)
    requires i < |t.repairs| && FitsUpTo(live, t, i, seen, remaining)
    ensures RepairFits(live, t, t.repairs[i]) && t.repairs[i].files.Keys !! seen ==>
      FitsUpTo(live, t, i + 1, seen + t.repairs[i].files.Keys,
               if Kept(t.repairs[i], t.goal).files == map[] then remaining
               else remaining + [Kept(t.repairs[i], t.goal)])
    ensures RepairsFit(live, t) ==> RepairFits(live, t, t.repairs[i]) && t.repairs[i].files.Keys !! seen
  {
    hide RepairFits, Kept, Patched, Disjoint, Remaining;
    Snoc(t.repairs, i);
    RepairsSnoc(t.repairs[..i], t.repairs[i], t.goal);
    if Disjoint(t.repairs) { DisjointPrefix(t.repairs, i + 1); }
  }

  /** The loop of the source over the pending repairs. */
  method PlanRepairs(live: map<Path, Meta>, t: Target) returns (r: Option<seq<Repair>>)
    ensures r.Some? <==> RepairsFit(live, t)
    ensures r.Some? ==> r.value == Remaining(t.repairs, t.goal)
  {
    hide FileFits, Kept, Disjoint, Patched, Remaining;
    var seen: set<string>, remaining := {}, [];
    assert FitsUpTo(live, t, 0, seen, remaining) by { FitsNone(live, t); }
    for i := 0 to |t.repairs|
      invariant FitsUpTo(live, t, i, seen, remaining)
    {
      hide FitsUpTo, RepairsFit;
      var repair := t.repairs[i];
      FitsNext(live, t, i, seen, remaining);
      if !repair.active { return None; }
      var kept := PlanRepair(live, t, repair, seen);
      if kept.None? { return None; }
      seen := seen + repair.files.Keys;
      if kept.value.files != map[] { remaining := remaining + [kept.value]; }
    }
    assert t.repairs[..|t.repairs|] == t.repairs;
    r := Some(remaining);
  }

  lemma FitsNone(live: map<Path, Meta>, t: Target)
    ensures FitsUpTo(live, t, 0, {}, [])
  {
  }

  /** The loop of the source over the paths that differ between the two trees. */
  method PlanChanges(live: map<Path, Meta>, t: Target) returns (r: Option<seq<Change>>)
    ensures r.Some? <==> forall rel :: rel in Free(t) ==> Explained(live, t, rel)
    ensures r.Some? ==> ChangesFit(live, t, r.value)
  {
    var todo, changes: seq<Change> := Free(t), [];
    while todo != {}
      invariant todo <= Free(t)
      invariant forall i :: 0 <= i < |changes| ==> ChangeFits(live, t, changes[i]) && changes[i].path.rel !in todo
      invariant Distinct(changes)
      invariant forall rel :: rel in Free(t) - todo ==> Explained(live, t, rel) && Planned(live, t, rel, changes)
    {
      hide At, Look, Free, Planned;
      var rel :| rel in todo;
      todo := todo - {rel};
      var path := Path(t.projection, rel);
      var now := Look(live, path);
      if now != At(t.goal, rel) && now != At(t.source, rel) { return None; }
      ghost var before := changes;
      if now != At(t.goal, rel) {
        changes := changes + [Change(path, At(t.source, rel), At(t.goal, rel))];
      }
      PlannedGrows(live, t, rel, before, changes);
    }
    hide Free, ChangeFits, Distinct, Explained;
    r := Some(changes);
  }

  ghost predicate Planned(live: map<Path, Meta>, t: Target, rel: string, changes: seq<Change>) {
    Look(live, Path(t.projection, rel)) == At(t.goal, rel) || Touched(changes, Path(t.projection, rel))
  }

  lemma PlannedGrows(live: map<Path, Meta>, t: Target, rel: string, before: seq<Change>, changes: seq<Change>)
    requires changes == before || (|changes| == |before| + 1 && before == changes[..|before|]
                                   && changes[|before|].path == Path(t.projection, rel))
    requires changes == before ==> Look(live, Path(t.projection, rel)) == At(t.goal, rel)
    ensures Planned(live, t, rel, changes)
    ensures forall other :: Planned(live, t, other, before) ==> Planned(live, t, other, changes)
  {
    hide Look, At;
    forall other | Planned(live, t, other, before) ensures Planned(live, t, other, changes) {
      var p := Path(t.projection, other);
      if Touched(before, p) {
        var i :| 0 <= i < |before| && before[i].path == p;
        assert changes[i] == changes[..|before|][i];
      }
    }
  }

  /** The inner loop of the source over the files of one repair. */
  method PlanRepair(live: map<Path, Meta>, t: Target, repair: Repair, seen: set<string>) returns (r: Option<Repair>)
    ensures r.Some? <==> repair.files.Keys !! seen && forall rel :: rel in repair.files ==>
      FileFits(live, t, rel, repair.files[rel])
    ensures r.Some? ==> r.value == Kept(repair, t.goal)
  {
    hide At, Look;
    var todo, keep := repair.files.Keys, map[];
    while todo != {}
      invariant todo <= repair.files.Keys
      invariant forall rel :: rel in repair.files && rel !in todo ==>
        rel !in seen && FileFits(live, t, rel, repair.files[rel])
      invariant keep == map rel | rel in repair.files && rel !in todo &&
        At(t.goal, rel) != repair.files[rel].after :: repair.files[rel]
    {
      var rel :| rel in todo;
      todo := todo - {rel};
      var patch := repair.files[rel];
      if rel in t.excluded || rel in seen { return None; }
      if Look(live, Path(t.projection, rel)) != patch.after { return None; }
      if At(t.source, rel) != patch.before { return None; }
      if At(t.goal, rel) != patch.after {
        if At(t.goal, rel) != patch.before { return None; }
        keep := keep[rel := patch];
      }
    }
    r := Some(repair.(files := keep));
  }

  lemma Snoc<T>(s: seq<T>, i: nat)
    requires i < |s|
    ensures s[..i + 1][..i] == s[..i] && s[..i + 1] == s[..i] + [s[i]]
  {
  }

  lemma {:induction false} DisjointPrefix(repairs: seq<Repair>, n: nat)
    requires n <= |repairs| && Disjoint(repairs)
    ensures Disjoint(repairs[..n])
    decreases |repairs|
  {
    if n < |repairs| {
      DisjointPrefix(repairs[..|repairs| - 1], n);
      assert repairs[..|repairs| - 1][..n] == repairs[..n];
    } else {
      assert repairs[..n] == repairs;
    }
  }

  // ---------------------------------------------------------------- the whole request

  function TreeOf(link: Option<Submodule>): Tree {
    if link.Some? then link.value.tree else map[]
  }

  function Before(q: Request, projection: string): Option<Submodule> {
    LinkAt(q.commits, q.base, projection)
  }

  function After(q: Request, projection: string): Option<Submodule> {
    LinkAt(q.commits, q.sha, projection)
  }

  function ForProjection(pending: seq<Repair>, projection: string): seq<Repair> {
    if |pending| == 0 then []
    else
      var rest := ForProjection(pending[..|pending| - 1], projection);
      if pending[|pending| - 1].projection == projection then rest + [pending[|pending| - 1]] else rest
  }

  /** The requested commit carries an ops brief, so the brief's file is not planned from the submodule. */
  predicate BriefManaged(q: Request) {
    BriefAt(q.commits, q.sha).Rendered?
  }

  function TargetOf(q: Request, projection: string): Target {
    Target(projection, TreeOf(Before(q, projection)), TreeOf(After(q, projection)),
      ForProjection(q.pending, projection),
           if BriefManaged(q) && projection == BRIEF.projection then {BRIEF.rel} else {})
  }

  function BriefContent(a: Artifact): Content {
    if a.Rendered? then Some(Meta(a.text, BRIEF_MODE)) else None
  }

  /** What the baseline and the requested commit say a live file should hold. */
  function WantedBefore(q: Request, p: Path): Content {
    if p == BRIEF && BriefManaged(q) && BriefAt(q.commits, q.base).Rendered?
    then BriefContent(BriefAt(q.commits, q.base))
    else At(TreeOf(Before(q, p.projection)), p.rel)
  }

  function WantedAfter(q: Request, p: Path): Content {
    if p == BRIEF && BriefManaged(q) then BriefContent(BriefAt(q.commits, q.sha))
    else At(TreeOf(After(q, p.projection)), p.rel)
  }

  predicate BriefPlannable(q: Request, live: map<Path, Meta>) {
    var was, now := BriefAt(q.commits, q.base), BriefAt(q.commits, q.sha);
    && was != Invalid && now != Invalid
    && (was.Rendered? ==> now.Rendered?)
    && (now.Rendered? ==> && BRIEF.projection in q.projections
                          && (was.Rendered? || Before(q, BRIEF.projection).Some?)
                          && Look(live, BRIEF) == WantedBefore(q, BRIEF))
  }

  ghost predicate ProjectionPlannable(q: Request, live: map<Path, Meta>, projection: string) {
    || Skipped(q, projection)
    || (Before(q, projection).Some? && After(q, projection).Some? && Plannable(live, TargetOf(q, projection)))
  }

  predicate Skipped(q: Request, projection: string) {
    Before(q, projection) == After(q, projection) && ForProjection(q.pending, projection) == []
  }

  /** Exactly when a deploy can be planned over the live files. */
  ghost predicate RequestPlannable(q: Request, live: map<Path, Meta>) {
    && BriefPlannable(q, live)
    && (forall i :: 0 <= i < |q.pending| ==> q.pending[i].projection in q.projections)
    && forall name :: name in q.projections ==> ProjectionPlannable(q, live, name)
  }

  function Flat(groups: seq<seq<Change>>): seq<Change> {
    if |groups| == 0 then [] else Flat(groups[..|groups| - 1]) + groups[|groups| - 1]
  }

  /** A pending repair records this patch for this live file. */
  ghost predicate PatchAt(repairs: seq<Repair>, p: Path, patch: Patch) {
    exists i :: 0 <= i < |repairs| && repairs[i].projection == p.projection && p.rel in repairs[i].files
                && repairs[i].files[p.rel] == patch
  }

  ghost predicate Repaired(repairs: seq<Repair>, p: Path) {
    exists patch :: PatchAt(repairs, p, patch)
  }

  /** The requested commit and the baseline differ here: in a gitlink's tree or in the parent-owned brief. */
  ghost predicate Concerned(q: Request, p: Path) {
    p.projection in q.projections && (IsBrief(q, p) || WantedBefore(q, p) != WantedAfter(q, p))
  }

  ghost predicate Justified(q: Request, live: map<Path, Meta>, c: Change) {
    && Concerned(q, c.path) && !Repaired(q.pending, c.path)
    && c.before == WantedBefore(q, c.path) == Look(live, c.path)
    && c.after == WantedAfter(q, c.path)
  }

  /**
    A pending patch is live, was made from the baseline, and agrees with the requested commit or stays on top
    of it.
  */
  ghost predicate PatchFits(q: Request, live: map<Path, Meta>, p: Path, patch: Patch) {
    && Look(live, p) == patch.after && WantedBefore(q, p) == patch.before
    && (WantedAfter(q, p) == patch.after || WantedAfter(q, p) == patch.before)
    && !IsBrief(q, p)
  }

  predicate IsBrief(q: Request, p: Path) {
    p == BRIEF && BriefManaged(q)
  }

  /** Nothing more to plan here. */
  ghost predicate Settled(q: Request, live: map<Path, Meta>, changes: seq<Change>, p: Path) {
    Look(live, p) == WantedAfter(q, p) || Repaired(q.pending, p) || Touched(changes, p)
  }

  /** What a plan for the request over these live files promises about all its changes. */
  ghost predicate PlanOk(q: Request, live: map<Path, Meta>, changes: seq<Change>, remaining: seq<Repair>) {
    && (forall i :: 0 <= i < |changes| ==> Justified(q, live, changes[i]))
    && Distinct(changes)
    && (forall p :: Concerned(q, p) ==> Settled(q, live, changes, p))
    && (BriefManaged(q) ==> Touched(changes, BRIEF))
    && (forall p, patch :: PatchAt(q.pending, p, patch) ==>
      p.projection in q.projections && PatchFits(q, live, p, patch))
    && (forall p, patch :: PatchAt(remaining, p, patch) <==>
      PatchAt(q.pending, p, patch) && WantedAfter(q, p) != patch.after)
  }

  // ---------------------------------------------------------------- patches

  lemma {:induction false} PatchAtForProjection(pending: seq<Repair>, projection: string, p: Path, patch: Patch)
    ensures PatchAt(ForProjection(pending, projection), p, patch) <==>
      p.projection == projection && PatchAt(pending, p, patch)
    decreases |pending|
  {
    if |pending| > 0 {
      var init, last := pending[..|pending| - 1], pending[|pending| - 1];
      PatchAtForProjection(init, projection, p, patch);
      PatchAtConcat(init, [last], p, patch);
      assert init + [last] == pending;
      PatchAtConcat(ForProjection(init, projection), [last], p, patch);
      assert PatchAt([last], p, patch) ==> last.projection == p.projection;
    }
  }

  lemma PatchAtConcat(a: seq<Repair>, b: seq<Repair>, p: Path, patch: Patch)
    ensures PatchAt(a + b, p, patch) <==> PatchAt(a, p, patch) || PatchAt(b, p, patch)
  {
    if PatchAt(a, p, patch) {
      var i :| 0 <= i < |a| && a[i].projection == p.projection && p.rel in a[i].files && a[i].files[p.rel] == patch;
      assert (a + b)[i] == a[i];
    }
    if PatchAt(b, p, patch) {
      var i :| 0 <= i < |b| && b[i].projection == p.projection && p.rel in b[i].files && b[i].files[p.rel] == patch;
      assert (a + b)[|a| + i] == b[i];
    }
  }

  lemma PatchAtOne(r: Repair, p: Path, patch: Patch)
    ensures PatchAt([r], p, patch) <==> r.projection == p.projection && p.rel in r.files && r.files[p.rel] == patch
  {
    assert [r][0] == r;
  }

  lemma {:induction false} PatchAtRemaining(repairs: seq<Repair>, goal: Tree, p: Path, patch: Patch)
    ensures PatchAt(Remaining(repairs, goal), p, patch) <==>
      PatchAt(repairs, p, patch) && At(goal, p.rel) != patch.after
    decreases |repairs|
  {
    if |repairs| > 0 {
      var init, last := repairs[..|repairs| - 1], repairs[|repairs| - 1];
      PatchAtRemaining(init, goal, p, patch);
      assert init + [last] == repairs;
      PatchAtConcat(init, [last], p, patch);
      PatchAtConcat(Remaining(init, goal), [Kept(last, goal)], p, patch);
      PatchAtOne(last, p, patch);
      PatchAtOne(Kept(last, goal), p, patch);
    }
  }

  lemma {:induction false} PatchedExactly(repairs: seq<Repair>, projection: string, rel: string)
    requires forall i :: 0 <= i < |repairs| ==> repairs[i].projection == projection
    ensures rel in Patched(repairs) <==> Repaired(repairs, Path(projection, rel))
    decreases |repairs|
  {
    if |repairs| > 0 {
      var init, last, p := repairs[..|repairs| - 1], repairs[|repairs| - 1], Path(projection, rel);
      PatchedExactly(init, projection, rel);
      assert init + [last] == repairs;
      forall patch ensures PatchAt(repairs, p, patch) <==> PatchAt(init, p, patch) || PatchAt([last], p, patch) {
        PatchAtConcat(init, [last], p, patch);
      }
      forall patch ensures PatchAt([last], p, patch) <==> rel in last.files && last.files[rel] == patch {
        PatchAtOne(last, p, patch);
      }
      if rel in last.files { assert PatchAt([last], p, last.files[rel]); }
    }
  }

  lemma {:induction false} ForProjectionNamed(pending: seq<Repair>, projection: string)
    ensures forall i :: 0 <= i < |ForProjection(pending, projection)| ==>
      ForProjection(pending, projection)[i].projection == projection
    decreases |pending|
  {
    if |pending| > 0 { ForProjectionNamed(pending[..|pending| - 1], projection); }
  }

  /** Planning one projection sees exactly the pending patches of that projection. */
  lemma TargetPatches(q: Request, projection: string, rel: string)
    ensures rel in Patched(TargetOf(q, projection).repairs) <==> Repaired(q.pending, Path(projection, rel))
  {
    var repairs, p := ForProjection(q.pending, projection), Path(projection, rel);
    ForProjectionNamed(q.pending, projection);
    PatchedExactly(repairs, projection, rel);
    forall patch ensures PatchAt(repairs, p, patch) <==> PatchAt(q.pending, p, patch) {
      PatchAtForProjection(q.pending, projection, p, patch);
    }
  }

  // ---------------------------------------------------------------- planning the projections one by one

  /** What planning promises once the projections in `done` have been visited, before the brief. */
  ghost predicate PartOk(q: Request, live: map<Path, Meta>, done: set<string>, changes: seq<Change>,
    remaining: seq<Repair>)
  {
    && (forall i :: 0 <= i < |changes| ==>
      Justified(q, live, changes[i]) && changes[i].path.projection in done && !IsBrief(q, changes[i].path))
    && Distinct(changes)
    && (forall p: Path :: p.projection in done && Concerned(q, p) && !IsBrief(q, p) ==> Settled(q, live, changes, p))
    && (forall p: Path, patch :: p.projection in done && PatchAt(q.pending, p, patch) ==> PatchFits(q, live, p, patch))
    && (forall p, patch :: PatchAt(remaining, p, patch) <==>
          p.projection in done && PatchAt(q.pending, p, patch) && WantedAfter(q, p) != patch.after)
  }

  lemma SettledGrows(q: Request, live: map<Path, Meta>, a: seq<Change>, b: seq<Change>, p: Path)
    requires Settled(q, live, a, p) || Settled(q, live, b, p)
    ensures Settled(q, live, a + b, p)
  {
    hide Look, WantedAfter, Repaired;
    if Touched(a, p) {
      var i :| 0 <= i < |a| && a[i].path == p;
      assert (a + b)[i] == a[i];
    }
    if Touched(b, p) {
      var i :| 0 <= i < |b| && b[i].path == p;
      assert (a + b)[|a| + i] == b[i];
    }
  }

  /** A fitting plan for one projection, in the terms of the whole request. */
  lemma ProjectionPart(q: Request, live: map<Path, Meta>, projection: string, changes: seq<Change>)
    requires projection in q.projections
    requires ChangesFit(live, TargetOf(q, projection), changes)
    requires RepairsFit(live, TargetOf(q, projection))
    ensures PartOk(q, live, {projection}, changes,
      Remaining(TargetOf(q, projection).repairs, TargetOf(q, projection).goal))
  {
    var t := TargetOf(q, projection);
    forall i | 0 <= i < |changes|
      ensures Justified(q, live, changes[i]) && changes[i].path.projection == projection && !IsBrief(q, changes[i].path)
    {
      TargetPatches(q, projection, changes[i].path.rel);
      ChangedExactly(t.source, t.goal, changes[i].path.rel);
      assert changes[i].path == Path(projection, changes[i].path.rel);
    }
    forall p: Path | p.projection == projection && Concerned(q, p) && !IsBrief(q, p)
      ensures Settled(q, live, changes, p)
    {
      TargetPatches(q, projection, p.rel);
      ChangedExactly(t.source, t.goal, p.rel);
      assert p == Path(projection, p.rel);
      if !Repaired(q.pending, p) { assert p.rel in Free(t) && Planned(live, t, p.rel, changes); }
    }
    forall p: Path, patch | p.projection == projection && PatchAt(q.pending, p, patch)
      ensures PatchFits(q, live, p, patch)
    {
      PatchAtForProjection(q.pending, projection, p, patch);
      PatchInFits(q, live, projection, p, patch);
    }
    forall p, patch
      ensures PatchAt(Remaining(t.repairs, t.goal), p, patch) <==>
        p.projection == projection && PatchAt(q.pending, p, patch) && WantedAfter(q, p) != patch.after
    {
      PatchAtForProjection(q.pending, projection, p, patch);
      PatchAtRemaining(t.repairs, t.goal, p, patch);
      if PatchAt(t.repairs, p, patch) { PatchInFits(q, live, projection, p, patch); }
    }
  }

  lemma PatchInFits(q: Request, live: map<Path, Meta>, projection: string, p: Path, patch: Patch)
    requires RepairsFit(live, TargetOf(q, projection))
    requires p.projection == projection && PatchAt(TargetOf(q, projection).repairs, p, patch)
    ensures PatchFits(q, live, p, patch) && WantedAfter(q, p) == At(TargetOf(q, projection).goal, p.rel)
  {
    var t := TargetOf(q, projection);
    var i :| 0 <= i < |t.repairs| && t.repairs[i].projection == p.projection && p.rel in t.repairs[i].files
      && t.repairs[i].files[p.rel] == patch;
    assert RepairFits(live, t, t.repairs[i]) && FileFits(live, t, p.rel, patch);
    assert p == Path(projection, p.rel);
  }

  lemma PartsJoin(q: Request, live: map<Path, Meta>, done: set<string>, changes: seq<Change>, remaining: seq<Repair>,
    projection: string, more: seq<Change>, kept: seq<Repair>)
    requires projection !in done && PartOk(q, live, done, changes, remaining) &&
      PartOk(q, live, {projection}, more, kept)
    ensures PartOk(q, live, done + {projection}, changes + more, remaining + kept)
  {
    hide Justified, Concerned, IsBrief, Settled, PatchFits, PatchAt, WantedAfter;
    forall p: Path | p.projection in done + {projection} && Concerned(q, p) && !IsBrief(q, p)
      ensures Settled(q, live, changes + more, p)
    {
      SettledGrows(q, live, changes, more, p);
    }
    forall p, patch
      ensures PatchAt(remaining + kept, p, patch) <==> PatchAt(remaining, p, patch) || PatchAt(kept, p, patch)
    {
      PatchAtConcat(remaining, kept, p, patch);
    }
  }

  /** A projection whose gitlink did not move and that has no pending repair needs nothing. */
  lemma SkippedPart(q: Request, live: map<Path, Meta>, projection: string)
    requires Skipped(q, projection)
    ensures PartOk(q, live, {projection}, [], [])
  {
    hide ForProjection;
    forall p: Path, patch | p.projection == projection ensures !PatchAt(q.pending, p, patch) {
      PatchAtForProjection(q.pending, projection, p, patch);
    }
  }

  lemma NoParts(q: Request, live: map<Path, Meta>)
    ensures PartOk(q, live, {}, [], [])
  {
  }

  // ---------------------------------------------------------------- planning the request

  /** The parent-owned brief: refused, nothing to do, or one change. */
  function PlanBrief(q: Request, live: map<Path, Meta>): (r: Option<seq<Change>>)
    ensures r.Some? <==> BriefPlannable(q, live)
    ensures r.Some? ==>
      r.value == (if BriefManaged(q) then [Change(BRIEF, Look(live, BRIEF), WantedAfter(q, BRIEF))] else [])
  {
    var was, now := BriefAt(q.commits, q.base), BriefAt(q.commits, q.sha);
    if was == Invalid || now == Invalid then None
    else if was.Rendered? && !now.Rendered? then None
    else if !now.Rendered? then Some([])
    else if BRIEF.projection !in q.projections then None
    else if !was.Rendered? && Before(q, BRIEF.projection).None? then None
    else
      var before := if was.Rendered? then BriefContent(was) else At(TreeOf(Before(q, BRIEF.projection)), BRIEF.rel);
      if Look(live, BRIEF) != before then None else Some([Change(BRIEF, before, BriefContent(now))])
  }

  method PlanProjections(q: Request, live: map<Path, Meta>) returns (r: Option<Plans>)
    ensures r.Some? <==> RequestPlannable(q, live)
    ensures r.Some? ==> PlanOk(q, live, Flat(r.value.groups), r.value.remaining)
  {
    hide PartOk, PlanOk, BriefPlannable, Plannable, ChangesFit, TargetOf, Remaining, ForProjection, LinkAt,
      BriefManaged, Look, WantedAfter;
    var brief := PlanBrief(q, live);
    if brief.None? { return None; }
    if exists i :: 0 <= i < |q.pending| && q.pending[i].projection !in q.projections { return None; }
    var todo, groups, remaining := q.projections, [], [];
    NoParts(q, live);
    assert q.projections - todo == {};
    while todo != {}
      invariant todo <= q.projections
      invariant PartOk(q, live, q.projections - todo, Flat(groups), remaining)
      invariant forall name :: name in q.projections - todo ==> ProjectionPlannable(q, live, name)
    {
      var name :| name in todo;
      ghost var done := q.projections - todo;
      todo := todo - {name};
      assert q.projections - todo == done + {name};
      if Skipped(q, name) {
        SkippedPart(q, live, name);
        PartsJoin(q, live, done, Flat(groups), remaining, name, [], []);
        assert Flat(groups) + [] == Flat(groups) && remaining + [] == remaining;
      } else {
        if Before(q, name).None? || After(q, name).None? { return None; }
        var plan := PlanRepaired(live, TargetOf(q, name));
        if plan.None? { return None; }
        PlannableParts(q, live, name, plan.value.changes);
        PartsJoin(q, live, done, Flat(groups), remaining, name, plan.value.changes, plan.value.remaining);
        FlatSnoc(groups, plan.value.changes);
        groups, remaining := groups + [plan.value.changes], remaining + plan.value.remaining;
      }
    }
    assert q.projections - todo == q.projections;
    PartsMakePlan(q, live, Flat(groups), remaining, brief.value);
    FlatSnoc(groups, brief.value);
    if brief.value != [] { groups := groups + [brief.value]; } else { assert Flat(groups) + [] == Flat(groups); }
    r := Some(Plans(groups, remaining));
  }

  lemma FlatSnoc(groups: seq<seq<Change>>, last: seq<Change>)
    ensures Flat(groups + [last]) == Flat(groups) + last
  {
    assert (groups + [last])[..|groups + [last]| - 1] == groups;
  }

  lemma PlannableParts(q: Request, live: map<Path, Meta>, projection: string, changes: seq<Change>)
    requires projection in q.projections && Plannable(live, TargetOf(q, projection)) &&
      ChangesFit(live, TargetOf(q, projection), changes)
    ensures PartOk(q, live, {projection}, changes,
      Remaining(TargetOf(q, projection).repairs, TargetOf(q, projection).goal))
  {
    hide PartOk, RepairsFit, ChangesFit, TargetOf, Remaining;
    ProjectionPart(q, live, projection, changes);
  }

  lemma PartsMakePlan(q: Request, live: map<Path, Meta>, changes: seq<Change>, remaining: seq<Repair>,
    brief: seq<Change>)
    requires PartOk(q, live, q.projections, changes, remaining) && BriefPlannable(q, live)
    requires brief == if BriefManaged(q) then [Change(BRIEF, Look(live, BRIEF), WantedAfter(q, BRIEF))] else []
    requires forall i :: 0 <= i < |q.pending| ==> q.pending[i].projection in q.projections
    ensures PlanOk(q, live, changes + brief, remaining)
  {
    hide WantedAfter, WantedBefore, Look, Before;
    var all := changes + brief;
    forall p, patch | PatchAt(q.pending, p, patch)
      ensures p.projection in q.projections && PatchFits(q, live, p, patch)
    {
      hide PatchFits;
    }
    if BriefManaged(q) {
      assert all[|changes|].path == BRIEF && Touched(all, BRIEF);
      assert !Repaired(q.pending, BRIEF);
    }
    forall p | Concerned(q, p) ensures Settled(q, live, all, p) {
      if !IsBrief(q, p) {
        hide Settled, Concerned;
        SettledGrows(q, live, changes, brief, p);
      }
    }
  }
}
