/**
 * The production deploy transaction of ops/vm_actions/gateway.py: bootstrap, deploy and rebaseline
 * over a checkout, a state file and the live projected files.
 *
 * One operation runs at a time (the source holds an exclusive lock), so nobody else writes the state
 * file; the checkout and the live files can change between any two steps unless the world is calm,
 * and every step can fail or kill the process unless it is sound.
 */
module DeployGateway {
  import opened Wrappers
  import opened DeployPlan
  import opened DeployFiles
  import opened DeployRecord

  datatype Outcome = Refused | Deployed | RolledBack | RecoveryRequired | Crashed

  /**
    The commit checks of a deploy: a descendant of the baseline, and a checkout that is as recorded or can be
    adopted.
  */
  predicate LineageOk(commits: Commits, projections: set<string>, live: map<Path, Meta>, r: Record, sha: nat,
    head: nat)
  {
    && sha < |commits| && Ancestor(commits, Effective(r), sha)
    && (head == r.sha ||
        (Ancestor(commits, r.sha, head) && BriefOk(commits, projections, live, head) && Ancestor(commits, head, sha)))
  }

  function Ask(commits: Commits, projections: set<string>, r: Record, sha: nat): Request {
    Request(commits, projections, Effective(r), sha, r.pending)
  }

  /** The record a deploy works from once the lineage is fine. */
  function Saved(r: Record, sha: nat, head: nat): Record {
    if head == r.sha then r else Rebased(r, head, sha, true)
  }

  /** The changes are what the request wants of these files, none of which a pending repair owns. */
  ghost predicate PlannedChanges(q: Request, changes: seq<Change>) {
    forall i :: 0 <= i < |changes| ==>
      && Concerned(q, changes[i].path) && !Repaired(q.pending, changes[i].path)
      && changes[i].before == WantedBefore(q, changes[i].path) && changes[i].after == WantedAfter(q, changes[i].path)
  }

  /**
    A write is on a file the request is about and no repair owns, and puts there what the request, or before
    it the baseline, wants.
  */
  ghost predicate WriteWanted(q: Request, escrow: seq<(Path, Meta)>, write: Write) {
    && Concerned(q, write.path) && !Repaired(q.pending, write.path)
    && (write.Put? ==> || (write.path, write.content) in escrow
                       || Some(write.content) in {WantedBefore(q, write.path), WantedAfter(q, write.path)})
  }

  /** Escrow and log of the live files only grew, the log by writes that the request wants. */
  ghost predicate WantedWrites(q: Request, escrow: seq<(Path, Meta)>, log: seq<Write>, escrow': seq<(Path, Meta)>,
    log': seq<Write>)
  {
    && escrow <= escrow' && log <= log'
    && forall i :: |log| <= i < |log'| ==> WriteWanted(q, escrow', log'[i])
  }

  lemma PlannedWrites(q: Request, changes: seq<Change>, e0: seq<(Path, Meta)>, l0: seq<Write>, e1: seq<(Path, Meta)>,
    l1: seq<Write>)
    requires PlannedChanges(q, changes) && Extends(changes, e0, l0, e1, l1)
    ensures WantedWrites(q, e0, l0, e1, l1)
  {
    hide Concerned, Repaired, WantedBefore, WantedAfter;
  }

  lemma WantedWritesJoin(q: Request, e0: seq<(Path, Meta)>, l0: seq<Write>, e1: seq<(Path, Meta)>, l1: seq<Write>,
    e2: seq<(Path, Meta)>, l2: seq<Write>)
    requires WantedWrites(q, e0, l0, e1, l1) && WantedWrites(q, e1, l1, e2, l2)
    ensures WantedWrites(q, e0, l0, e2, l2)
  {
    hide Concerned, Repaired, WantedBefore, WantedAfter;
    forall i | |l0| <= i < |l2| ensures WriteWanted(q, e2, l2[i]) {
      if i < |l1| { assert l2[i] == l1[i] && WriteWanted(q, e1, l1[i]); }
    }
  }

  /** What a step found of the checkout, and how many writes of live files were made before. */
  datatype Mark = Mark(head: nat, clean: bool, writes: nat)

  /**
    What a finished projection has looked at, in this order and from the third point on after its
    last write: files for which this is the plan; the clean checkout of the commit; files with the
    pending repairs in place; files that converged; each planned file with its new content and its
    escrow intact; and files with the pending repairs in place once more.
  */
  ghost predicate ProjectSaw(q: Request, changes: seq<Change>, remaining: seq<Repair>, looks: seq<Glance>,
    marks: seq<Mark>, from: nat, fromMark: nat, writes: nat)
  {
    exists i, m, j, k, l :: ProjectSawAt(q, changes, remaining, looks, marks, from, fromMark, writes, i, m, j, k, l)
  }

  ghost predicate ProjectSawAt(q: Request, changes: seq<Change>, remaining: seq<Repair>, looks: seq<Glance>,
    marks: seq<Mark>, from: nat, fromMark: nat, writes: nat, i: int, m: int, j: int, k: int, l: int)
  {
    && from <= i < j < k < l < |looks| && fromMark <= m < |marks|
    && RequestPlannable(q, looks[i].snap.live) && PlanOk(q, looks[i].snap.live, changes, remaining)
    && marks[m] == Mark(q.sha, true, writes)
    && looks[j].writes == writes && PendingLive(looks[j].snap.live, q.pending)
    && looks[k].writes == writes && Converged(q, looks[k].snap.live)
    && (forall c :: 0 <= c < |changes| ==> Glimpsed(looks, k, changes[c].path, changes[c].after))
    && looks[l].writes == writes && PendingLive(looks[l].snap.live, q.pending)
  }

  /** The part of it after the last write. */
  ghost predicate InspectSaw(q: Request, changes: seq<Change>, looks: seq<Glance>, marks: seq<Mark>, from: nat,
    fromMark: nat, writes: nat)
  {
    exists m, j, k, l :: InspectSawAt(q, changes, looks, marks, from, fromMark, writes, m, j, k, l)
  }

  ghost predicate InspectSawAt(q: Request, changes: seq<Change>, looks: seq<Glance>, marks: seq<Mark>, from: nat,
    fromMark: nat, writes: nat, m: int, j: int, k: int, l: int)
  {
    && from <= j < k < l < |looks| && fromMark <= m < |marks|
    && marks[m] == Mark(q.sha, true, writes)
    && looks[j].writes == writes && PendingLive(looks[j].snap.live, q.pending)
    && looks[k].writes == writes && Converged(q, looks[k].snap.live)
    && (forall c :: 0 <= c < |changes| ==> Glimpsed(looks, k, changes[c].path, changes[c].after))
    && looks[l].writes == writes && PendingLive(looks[l].snap.live, q.pending)
  }

  lemma InspectedProject(q: Request, changes: seq<Change>, remaining: seq<Repair>, looks: seq<Glance>,
    marks: seq<Mark>, from: nat, fromMark: nat, writes: nat, i: nat, later: nat, laterMark: nat)
    requires from <= i < later <= |looks| && fromMark <= laterMark
    requires RequestPlannable(q, looks[i].snap.live) && PlanOk(q, looks[i].snap.live, changes, remaining)
    requires InspectSaw(q, changes, looks, marks, later, laterMark, writes)
    ensures ProjectSaw(q, changes, remaining, looks, marks, from, fromMark, writes)
  {
    hide RequestPlannable, PlanOk, PendingLive, Converged, Glimpsed;
    var m, j, k, l :| InspectSawAt(q, changes, looks, marks, later, laterMark, writes, m, j, k, l);
    assert ProjectSawAt(q, changes, remaining, looks, marks, from, fromMark, writes, i, m, j, k, l);
  }

  lemma ProjectSawStays(q: Request, changes: seq<Change>, remaining: seq<Repair>, looks: seq<Glance>,
    marks: seq<Mark>, from: nat, fromMark: nat, writes: nat, looks': seq<Glance>, marks': seq<Mark>, from': nat,
    fromMark': nat)
    requires ProjectSaw(q, changes, remaining, looks, marks, from, fromMark, writes)
    requires looks <= looks' && marks <= marks' && from' <= from && fromMark' <= fromMark
    ensures ProjectSaw(q, changes, remaining, looks', marks', from', fromMark', writes)
  {
    hide RequestPlannable, PlanOk, PendingLive, Converged, Glimpsed;
    var i, m, j, k, l :|
      ProjectSawAt(q, changes, remaining, looks, marks, from, fromMark, writes, i, m, j, k, l);
    forall c | 0 <= c < |changes| ensures Glimpsed(looks', k, changes[c].path, changes[c].after) {
      GlimpsedStays(looks, looks', k, changes[c].path, changes[c].after);
    }
    assert ProjectSawAt(q, changes, remaining, looks', marks', from', fromMark', writes, i, m, j, k, l);
  }

  /** What a finished deploy has looked at after its final record: managed files, repairs that stay, planned files. */
  ghost predicate CommitSaw(commits: Commits, projections: set<string>, final: Record, changes: seq<Change>,
    looks: seq<Glance>, from: nat)
  {
    exists j, k :: CommitSawAt(commits, projections, final, changes, looks, from, j, k)
  }

  ghost predicate CommitSawAt(commits: Commits, projections: set<string>, final: Record, changes: seq<Change>,
    looks: seq<Glance>, from: nat, j: int, k: int)
  {
    && from <= j < k < |looks|
    && ManagedOk(commits, projections, looks[j].snap.live, final) && PendingLive(looks[k].snap.live, final.pending)
    && forall c :: 0 <= c < |changes| ==> Glimpsed(looks, k, changes[c].path, changes[c].after)
  }

  lemma CommitSawStays(commits: Commits, projections: set<string>, final: Record, changes: seq<Change>,
    looks: seq<Glance>, from: nat, looks': seq<Glance>, from': nat)
    requires CommitSaw(commits, projections, final, changes, looks, from) && looks <= looks' && from' <= from
    ensures CommitSaw(commits, projections, final, changes, looks', from')
  {
    hide ManagedOk, PendingLive, Glimpsed;
    var j, k :| CommitSawAt(commits, projections, final, changes, looks, from, j, k);
    forall c | 0 <= c < |changes| ensures Glimpsed(looks', k, changes[c].path, changes[c].after) {
      GlimpsedStays(looks, looks', k, changes[c].path, changes[c].after);
    }
    assert CommitSawAt(commits, projections, final, changes, looks', from', j, k);
  }

  /** A look since `from` found the managed files of the record in order. */
  ghost predicate SawManaged(commits: Commits, projections: set<string>, r: Record, looks: seq<Glance>, from: nat) {
    exists k :: from <= k < |looks| && ManagedOk(commits, projections, looks[k].snap.live, r)
  }

  /** A look since `from` found the brief of the commit in place. */
  ghost predicate SawBrief(commits: Commits, projections: set<string>, c: nat, looks: seq<Glance>, from: nat) {
    exists k :: from <= k < |looks| && BriefOk(commits, projections, looks[k].snap.live, c)
  }

  /** A look at the checkout since `from` found it clean and at this commit. */
  ghost predicate SawClean(marks: seq<Mark>, from: nat, head: nat) {
    exists k :: from <= k < |marks| && marks[k].clean && marks[k].head == head
  }

  /** The commit checks, the brief of an adopted checkout having been looked at. */
  ghost predicate LineageSeen(commits: Commits, projections: set<string>, r: Record, sha: nat, head: nat,
    looks: seq<Glance>, from: nat)
  {
    && sha < |commits| && Ancestor(commits, Effective(r), sha)
    && (head == r.sha ||
        (Ancestor(commits, r.sha, head) && Ancestor(commits, head, sha) &&
         SawBrief(commits, projections, head, looks, from)))
  }

  lemma BriefSeen(commits: Commits, projections: set<string>, c: nat, looks: seq<Glance>, from: nat)
    requires from < |looks| && BriefOk(commits, projections, looks[|looks| - 1].snap.live, c)
    ensures SawBrief(commits, projections, c, looks, from)
  {
  }

  lemma BriefStays(commits: Commits, projections: set<string>, c: nat, looks: seq<Glance>, from: nat,
    looks': seq<Glance>)
    requires SawBrief(commits, projections, c, looks, from) && looks <= looks'
    ensures SawBrief(commits, projections, c, looks', from)
  {
    hide BriefOk;
    var k :| from <= k < |looks| && BriefOk(commits, projections, looks[k].snap.live, c);
    assert looks'[k] == looks[k];
  }

  lemma LineageStays(commits: Commits, projections: set<string>, r: Record, sha: nat, head: nat,
    looks: seq<Glance>, from: nat, looks': seq<Glance>)
    requires LineageSeen(commits, projections, r, sha, head, looks, from) && looks <= looks'
    ensures LineageSeen(commits, projections, r, sha, head, looks', from)
  {
    hide SawBrief, Ancestor;
    if head != r.sha { BriefStays(commits, projections, head, looks, from, looks'); }
  }

  /** Everything that a finished deploy has looked at, through to its final record. */
  ghost predicate DeploySaw(q: Request, changes: seq<Change>, final: Record, looks: seq<Glance>, marks: seq<Mark>,
    from: nat, fromMark: nat)
  {
    && (exists writes :: ProjectSaw(q, changes, final.pending, looks, marks, from, fromMark, writes))
    && CommitSaw(q.commits, q.projections, final, changes, looks, from)
  }

  lemma DeploySawAll(q: Request, changes: seq<Change>, final: Record, looks: seq<Glance>, marks: seq<Mark>,
    from: nat, fromMark: nat, writes: nat, looks': seq<Glance>, marks': seq<Mark>, from': nat, fromMark': nat)
    requires ProjectSaw(q, changes, final.pending, looks, marks, from, fromMark, writes)
    requires CommitSaw(q.commits, q.projections, final, changes, looks', |looks|)
    requires from' <= from <= |looks| && fromMark' <= fromMark && looks <= looks' && marks <= marks'
    ensures DeploySaw(q, changes, final, looks', marks', from', fromMark')
  {
    hide ProjectSaw, CommitSaw;
    ProjectSawStays(q, changes, final.pending, looks, marks, from, fromMark, writes, looks', marks', from', fromMark');
    CommitSawStays(q.commits, q.projections, final, changes, looks', |looks|, looks', from');
  }

  /** Before anything is written the managed files were in order, and the checkout was clean at `head`. */
  ghost predicate Admitted(commits: Commits, projections: set<string>, r: Record, head: nat, looks: seq<Glance>,
    from: nat, marks: seq<Mark>, fromMark: nat)
  {
    SawManaged(commits, projections, r, looks, from) && SawClean(marks, fromMark, head)
  }

  /** What a rebaseline has looked at before it makes the commit `head` the recorded one. */
  ghost predicate Adoption(commits: Commits, projections: set<string>, r: Record, head: nat, looks: seq<Glance>,
    from: nat, marks: seq<Mark>, fromMark: nat)
  {
    && Admitted(commits, projections, r, head, looks, from, marks, fromMark)
    && SawBrief(commits, projections, head, looks, from)
  }

  lemma AdmittedStays(commits: Commits, projections: set<string>, r: Record, head: nat, looks: seq<Glance>,
    from: nat, marks: seq<Mark>, fromMark: nat, looks': seq<Glance>, marks': seq<Mark>)
    requires Admitted(commits, projections, r, head, looks, from, marks, fromMark)
    requires looks <= looks' && marks <= marks'
    ensures Admitted(commits, projections, r, head, looks', from, marks', fromMark)
  {
    hide ManagedOk;
    var k :| from <= k < |looks| && ManagedOk(commits, projections, looks[k].snap.live, r);
    var m :| fromMark <= m < |marks| && marks[m].clean && marks[m].head == head;
    assert looks'[k] == looks[k] && marks'[m] == marks[m];
  }

  /** Everything that a deploy checks before it reports success, whatever other programs did meanwhile. */
  ghost predicate DeployChecked(commits: Commits, projections: set<string>, r: Record, sha: nat, final: Record,
    at: nat, changes: seq<Change>, looks: seq<Glance>, from: nat, marks: seq<Mark>, fromMark: nat)
  {
    && Admitted(commits, projections, r, at, looks, from, marks, fromMark)
    && LineageSeen(commits, projections, r, sha, at, looks, from)
    && DeploySaw(Ask(commits, projections, r, sha), changes, final, looks, marks, from, fromMark)
  }

  lemma DeploySawStays(q: Request, changes: seq<Change>, final: Record, looks: seq<Glance>, marks: seq<Mark>,
    from: nat, fromMark: nat, from': nat, fromMark': nat)
    requires DeploySaw(q, changes, final, looks, marks, from, fromMark) && from' <= from && fromMark' <= fromMark
    ensures DeploySaw(q, changes, final, looks, marks, from', fromMark')
  {
    hide ProjectSaw, CommitSaw;
    var writes :| ProjectSaw(q, changes, final.pending, looks, marks, from, fromMark, writes);
    ProjectSawStays(q, changes, final.pending, looks, marks, from, fromMark, writes, looks, marks, from', fromMark');
    CommitSawStays(q.commits, q.projections, final, changes, looks, from, looks, from');
  }

  lemma LineageEarlier(commits: Commits, projections: set<string>, r: Record, sha: nat, head: nat,
    looks: seq<Glance>, from: nat, from': nat)
    requires LineageSeen(commits, projections, r, sha, head, looks, from) && from' <= from
    ensures LineageSeen(commits, projections, r, sha, head, looks, from')
  {
    hide Ancestor, BriefOk;
  }

  /** A checkout that moved is recorded by itself before the intent is. */
  function Adopting(r: Record, saved: Record): seq<Record> {
    if saved == r then [] else [saved]
  }

  predicate HasIntent(state: Option<Record>) {
    state.Some? && state.value.intent.Some?
  }

  ghost predicate AllRestorable(a: Snap, changes: seq<Change>) {
    forall i :: 0 <= i < |changes| ==> Restorable(a, changes[i])
  }

  /**
    What the exception handler does to the files and reports, when nobody else acts during
    it: `a` is what the deploy left, however other programs had interfered until then.
  */
  ghost predicate AbortEffect(a: Snap, b: Snap, changes: seq<Change>, v: World, o: Outcome) {
    && Elsewhere(a.live, b.live, changes)
    && (forall i :: 0 <= i < |changes| && !Restorable(a, changes[i]) ==>
          o != RolledBack && Look(b.live, changes[i].path) == Look(a.live, changes[i].path))
    && (o == RolledBack ==> AllBefore(b.live, changes))
    && (v.sound && Clear(a.tampered, changes) ==>
          && (forall i :: 0 <= i < |changes| && Restorable(a, changes[i]) ==>
            Look(b.live, changes[i].path) == changes[i].before)
          && o == if AllRestorable(a, changes) then RolledBack else RecoveryRequired)
  }

  class Gateway {
    const commits: Commits
    const projections: set<string>
    const files: LiveFiles
    var head: nat
    var clean: bool
    var state: Option<Record>
    /** What each step found of the checkout. */
    ghost var marks: seq<Mark>
    /** What was written to the state file, in order. */
    ghost var records: seq<Record>

    constructor (commits: Commits, projections: set<string>, files: LiveFiles, head: nat)
      ensures this.commits == commits && this.projections == projections && this.files == files
      ensures this.head == head && clean && state.None? && marks == [] && records == []
    {
      this.commits, this.projections, this.files := commits, projections, files;
      this.head, clean, state, marks, records := head, true, None, [], [];
    }

    /** Everything outside the state file is as it was. */
    twostate predicate Same()
      reads this, files
    {
      files.State() == old(files.State()) && head == old(head) && clean == old(clean)
    }

    method Step(w: World) returns (s: Status)
      requires !files.dead
      modifies this`head, this`clean, this`marks, files
      ensures files.dead <==> s == Killed
      ensures files.escrow == old(files.escrow) && files.ledger == old(files.ledger)
      ensures files.looks == old(files.looks) + [files.Now()]
      ensures marks == old(marks) + [Mark(head, clean, |files.ledger.log|)]
      ensures w.calm ==> Same()
      ensures w.sound ==> s == Done
    {
      s := files.Tick(w);
      if !w.calm { head, clean := *, *; }
      marks := marks + [Mark(head, clean, |files.ledger.log|)];
    }

    /** `write_json`: an atomic replacement, which may be reported as failed although it happened. */
    method Save(r: Record, w: World) returns (s: Status)
      requires !files.dead
      modifies this, files
      ensures files.dead <==> s == Killed
      ensures old(files.looks) <= files.looks && old(marks) <= marks
      ensures files.escrow == old(files.escrow) && files.ledger == old(files.ledger)
      ensures w.calm ==> Same()
      ensures (state == old(state) && records == old(records)) || (state == Some(r) && records == old(records) + [r])
      ensures s == Done ==> state == Some(r) && records == old(records) + [r]
      ensures w.sound ==> s == Done
    {
      s := Step(w);
      if s != Done { return; }
      state, records := Some(r), records + [r];
      if !w.sound {
        if * { s := Failed; } else if * { s := Killed; }
      }
      files.dead := s == Killed;
    }

    /** `git reset --hard` and the submodule update; a failure leaves some checkout. */
    method Reset(c: nat, w: World) returns (s: Status)
      requires !files.dead
      modifies this`head, this`clean, this`marks, files
      ensures files.dead <==> s == Killed
      ensures old(files.looks) <= files.looks && old(marks) <= marks
      ensures files.escrow == old(files.escrow) && files.ledger == old(files.ledger)
      ensures w.calm ==> files.State() == old(files.State())
      ensures w.calm && s == Done ==> head == c && clean
      ensures w.sound ==> s == Done
    {
      s := Step(w);
      if s == Done {
        head, clean := c, true;
        s := Step(w);
      }
      if s != Done {
        head, clean := *, *;
      }
    }

    /**
      Import the objects, check the lineage, adopt a newer clean checkout, record the intent and check out the
      commit.
    */
    method Prepare(r: Record, sha: nat, at: nat, w: World) returns (s: Status, saved: Record, intentWritten: bool)
      requires state == Some(r) && r.intent.None?
      requires !files.dead
      modifies this, files
      ensures files.dead <==> s == Killed
      ensures old(files.looks) <= files.looks && old(marks) <= marks
      ensures files.escrow == old(files.escrow) && files.ledger == old(files.ledger)
      ensures Adopted(commits, r, saved, sha) && saved.intent.None? && (saved == r || saved == Saved(r, sha, at))
      ensures state in {Some(r), Some(saved)} || (state.Some? && Intended(saved, state.value, sha))
      ensures intentWritten ==> state == Some(WithIntent(saved, sha, at, false))
      ensures s == Done ==> intentWritten && saved == Saved(r, sha, at) && Ancestor(commits, Effective(r), sha)
      ensures old(records) <= records <= old(records) + Adopting(r, saved) + [WithIntent(saved, sha, at, false)]
      ensures intentWritten ==> records == old(records) + Adopting(r, saved) + [WithIntent(saved, sha, at, false)]
      ensures s == Done ==> LineageSeen(commits, projections, r, sha, at, files.looks, |old(files.looks)|)
      ensures w.calm && (head != old(head) || clean != old(clean)) ==> HasIntent(state)
      ensures w.calm ==> files.State() == old(files.State())
      ensures w.calm && s == Done ==>
        head == sha && clean && LineageOk(commits, projections, old(files.live), r, sha, at)
      ensures w.calm && w.sound ==> (s == Done <==> LineageOk(commits, projections, old(files.live), r, sha, at))
      ensures w.sound ==> s != Killed && (s == Done <==> intentWritten)
      ensures w.sound ==> state == Some(r) || state == Some(saved) || intentWritten
    {
      hide Ancestor, BriefOk, Remember, SawBrief;
      ghost var seen := files.looks;
      saved, intentWritten := r, false;
      s := Step(w);
      if s != Done { return; }
      if sha >= |commits| { s := Failed; return; }
      if Effective(r) != sha && !Ancestor(commits, Effective(r), sha) { s := Failed; return; }
      AncestorReflexive(commits);
      if at != r.sha {
        if !Ancestor(commits, r.sha, at) { s := Failed; return; }
        s := Step(w);
        if s != Done { return; }
        if !BriefOk(commits, projections, files.live, at) || !Ancestor(commits, at, sha) { s := Failed; return; }
        seen := files.looks;
        assert SawBrief(commits, projections, at, seen, |old(files.looks)|) by {
          BriefSeen(commits, projections, at, seen, |old(files.looks)|);
        }
        saved := Rebased(r, at, sha, true);
        assert AdoptedFrom(commits, r, saved, sha, at);
        s := Save(saved, w);
        if s != Done { return; }
      }
      s := Save(WithIntent(saved, sha, at, false), w);
      if s != Done { return; }
      intentWritten := true;
      s := Reset(sha, w);
      if at != r.sha { BriefStays(commits, projections, at, seen, |old(files.looks)|, files.looks); }
    }

    /** Plan over the live files, apply, and check that everything arrived. */
    method Project(q: Request, healthy: bool, w: World)
      returns (s: Status, applied: seq<seq<Change>>, remaining: seq<Repair>)
      requires files.NothingDestroyed()
      requires !files.dead
      modifies this`head, this`clean, this`marks, files
      ensures files.dead <==> s == Killed
      ensures old(files.looks) <= files.looks && old(marks) <= marks
      ensures files.NothingDestroyed() && old(files.escrow) <= files.escrow
      ensures Distinct(Flat(applied)) && PlannedChanges(q, Flat(applied))
      ensures WantedWrites(q, old(files.escrow), old(files.ledger.log), files.escrow, files.ledger.log)
      ensures w.calm ==> head == old(head) && clean == old(clean) && files.tampered == {}
      ensures w.calm ==> Elsewhere(old(files.live), files.live, Flat(applied))
      ensures w.calm ==> AllBefore(old(files.live), Flat(applied))
      ensures w.calm && s == Done ==>
        RequestPlannable(q, old(files.live)) && PlanOk(q, old(files.live), Flat(applied), remaining)
      ensures s == Done ==> healthy
      ensures s == Done ==>
        ProjectSaw(q, Flat(applied), remaining, files.looks, marks, |old(files.looks)|, |old(marks)|,
          |files.ledger.log|)
      ensures s == Done ==> files.ledger.log == old(files.ledger.log) + WritesOf(Flat(applied))
      ensures w.calm && s == Done ==> Applied(old(files.live), files.live, Flat(applied))
      ensures w.calm && s == Done ==> Converged(q, files.live) && PendingLive(files.live, q.pending)
      ensures w.calm && w.sound && old(head) == q.sha && old(clean) ==>
        (s == Done <==> healthy && RequestPlannable(q, old(files.live)))
      ensures w.calm && w.sound ==> forall i :: 0 <= i < |Flat(applied)| ==> Restorable(files.State(), Flat(applied)[i])
      ensures w.sound ==> s != Killed
    {
      hide RequestPlannable, PlanOk, Applied, Progress, Flat, Converged, PendingLive, Restorable, Elsewhere,
        AllBefore, AllAfter, Distinct, PlannedChanges, WriteWanted, Extends, WritesOf, AllGlimpsed, Glimpsed, Clear,
        ProjectSaw, InspectSaw, Look;
      applied, remaining := [], [];
      EmptyWrites(q);
      EmptyPlan(files.live);
      files.Bind();
      s := Step(w);
      if s != Done { return; }
      ghost var before := files.State();
      if head != q.sha || !clean {
        if * { s := Failed; return; }
      }
      var plans := PlanProjections(q, files.live);
      if plans.None? { s := Failed; return; }
      remaining := plans.value.remaining;
      ghost var planned := |files.looks| - 1;
      PlannedBefore(q, before.live, plans.value.groups, remaining);
      var n;
      s, n := files.ApplyAll(plans.value.groups, w);
      PlannedWrites(q, Flat(plans.value.groups), old(files.escrow), old(files.ledger.log), files.escrow,
        files.ledger.log);
      PlannedPrefix(q, plans.value.groups, n);
      applied := plans.value.groups[..n];
      PlanPrefix(before.live, plans.value.groups, n);
      if s != Done { return; }
      assert applied == plans.value.groups;
      if w.calm {
        ProgressMeans(before, files.State(), Flat(applied));
        ChecksCannotFail(q, before.live, files.live, Flat(applied), remaining);
        AppliedMeans(before.live, files.live, Flat(applied));
      }
      ghost var before', fromMark := |files.looks|, |marks|;
      s := Inspect(q, Flat(applied), healthy, w);
      if s == Done {
        InspectedProject(q, Flat(applied), remaining, files.looks, marks, |old(files.looks)|, |old(marks)|,
          |files.ledger.log|, planned, before', fromMark);
      }
    }

    /** The checks after the last write: checkout, repairs, convergence, health, every planned file, repairs again. */
    method Inspect(q: Request, changes: seq<Change>, healthy: bool, w: World) returns (s: Status)
      requires !files.dead
      modifies this`head, this`clean, this`marks, files
      ensures files.dead <==> s == Killed
      ensures old(files.looks) <= files.looks && old(marks) <= marks
      ensures files.escrow == old(files.escrow) && files.ledger == old(files.ledger)
      ensures w.calm ==> Same()
      ensures s == Done ==> healthy
      ensures s == Done ==>
        InspectSaw(q, changes, files.looks, marks, |old(files.looks)|, |old(marks)|, |files.ledger.log|)
      ensures w.calm && w.sound && files.tampered == {} && AllAfter(files.live, changes) ==>
        PendingLive(files.live, q.pending) && Converged(q, files.live) ==>
        (s == Done <==> head == q.sha && clean && healthy)
      ensures w.sound ==> s != Killed
    {
      hide Converged, PendingLive, Glimpsed;
      s := Step(w);
      if s != Done { return; }
      if head != q.sha || !clean { s := Failed; return; }
      ghost var m := |marks| - 1;
      s := Step(w);
      if s != Done { return; }
      if !PendingLive(files.live, q.pending) { s := Failed; return; }
      ghost var j := |files.looks| - 1;
      s := Step(w);
      if s != Done { return; }
      if !Converged(q, files.live) { s := Failed; return; }
      ghost var k := |files.looks| - 1;
      s := Step(w);
      if s != Done { return; }
      if !healthy { s := Failed; return; }
      s := files.AssertNew(changes, w);
      if s != Done { return; }
      ghost var looks := files.looks;
      ghost var from := k + 2;
      s := Step(w);
      if s != Done { return; }
      if !PendingLive(files.live, q.pending) { s := Failed; return; }
      AfterAssert(changes, looks, from, files.looks, k);
      assert InspectSawAt(q, changes, files.looks, marks, |old(files.looks)|, |old(marks)|, |files.ledger.log|, m, j, k,
        |files.looks| - 1);
    }

    /** Record what is managed from now on, replace the state file, and check once more. */
    method Commit(q: Request, saved: Record, applied: seq<seq<Change>>, remaining: seq<Repair>,
      ghost before: map<Path, Meta>, w: World)
      returns (s: Status)
      requires q == Ask(commits, projections, saved, q.sha) && saved.intent.None? && Ancestor(commits, q.base, q.sha)
      requires !files.dead
      modifies this, files
      ensures files.dead <==> s == Killed
      ensures old(files.looks) <= files.looks && old(marks) <= marks
      ensures files.escrow == old(files.escrow) && files.ledger == old(files.ledger)
      ensures state == old(state) || (state.Some? && Finalized(commits, saved, state.value, q.sha))
      ensures s == Done ==> state != None && Finalized(commits, saved, state.value, q.sha)
      ensures s == Done ==> records == old(records) + [state.value]
      ensures records == old(records) || (state.Some? && records == old(records) + [state.value])
      ensures s == Done ==> state.value.pending == remaining
      ensures s == Done ==>
        CommitSaw(commits, projections, state.value, Flat(applied), files.looks, |old(files.looks)|)
      ensures s == Done ==> Records(q, saved, Flat(applied), remaining, state.value)
      ensures w.calm ==> Same()
      ensures w.calm && s == Done ==>
        ManagedOk(commits, projections, files.live, state.value) && PendingLive(files.live, remaining)
      ensures w.calm && w.sound && files.tampered == {} && ManagedOk(commits, projections, before, saved) ==>
        RequestPlannable(q, before) && PlanOk(q, before, Flat(applied), remaining) ==>
        Applied(before, files.live, Flat(applied)) ==> s == Done
      ensures w.sound ==> s != Killed
    {
      hide PlanOk, Applied, Flat, PendingLive, ManagedOk, Monitored, Ancestor, BriefPlannable, ProjectionPlannable,
        Records, CommitSaw, AllAfter, Look;
      var managed := Monitor(saved.managed, Flat(applied), q.pending, remaining);
      var final := Final(q, saved, remaining, managed);
      RecordsFinal(q, saved, Flat(applied), remaining, managed);
      if PlanOk(q, before, Flat(applied), remaining) && RequestPlannable(q, before) &&
        Applied(before, files.live, Flat(applied)) {
        ChecksCannotFail(q, before, files.live, Flat(applied), remaining);
        AppliedMeans(before, files.live, Flat(applied));
        if ManagedOk(commits, projections, before, saved) {
          ManagedStaysOk(q, before, files.live, Flat(applied), remaining, saved, managed);
        }
      }
      s := Save(final, w);
      if s != Done { return; }
      ghost var from := |files.looks|;
      s := Recheck(final, Flat(applied), w);
      if s == Done {
        CommitSawStays(commits, projections, final, Flat(applied), files.looks, from, files.looks, |old(files.looks)|);
      }
    }

    /** The checks after the final record: managed files, the repairs that stay, every planned file. */
    method Recheck(final: Record, changes: seq<Change>, w: World) returns (s: Status)
      requires !files.dead
      modifies this`head, this`clean, this`marks, files
      ensures files.dead <==> s == Killed
      ensures old(files.looks) <= files.looks && old(marks) <= marks
      ensures files.escrow == old(files.escrow) && files.ledger == old(files.ledger)
      ensures w.calm ==> Same()
      ensures s == Done ==> CommitSaw(commits, projections, final, changes, files.looks, |old(files.looks)|)
      ensures w.calm && s == Done ==>
        ManagedOk(commits, projections, files.live, final) && PendingLive(files.live, final.pending)
      ensures w.calm && w.sound && files.tampered == {} && AllAfter(files.live, changes) ==>
        ManagedOk(commits, projections, files.live, final) && PendingLive(files.live, final.pending) ==> s == Done
      ensures w.sound ==> s != Killed
    {
      hide ManagedOk, PendingLive, Glimpsed;
      s := Step(w);
      if s != Done { return; }
      if !ManagedOk(commits, projections, files.live, final) { s := Failed; return; }
      ghost var j := |files.looks| - 1;
      s := Step(w);
      if s != Done { return; }
      if !PendingLive(files.live, final.pending) { s := Failed; return; }
      ghost var k := |files.looks| - 1;
      s := files.AssertNew(changes, w);
      if s != Done { return; }
      AfterAssert(changes, files.looks, k + 1, files.looks, k);
      assert CommitSawAt(commits, projections, final, changes, files.looks, |old(files.looks)|, j, k);
    }

    /**
     * The exception handler: roll the begun groups back, check the previous commit out again, and
     * record either the state from before or an intent that asks for recovery.
     */
    method Abort(applied: seq<seq<Change>>, saved: Record, sha: nat, at: nat, intentWritten: bool, v: World)
      returns (o: Outcome)
      requires files.NothingDestroyed() && Distinct(Flat(applied)) && saved.intent.None?
      requires !files.dead
      modifies this, files
      ensures files.dead ==> o == Crashed
      ensures old(files.looks) <= files.looks && old(marks) <= marks
      ensures files.NothingDestroyed() && old(files.escrow) <= files.escrow
      ensures o in {RolledBack, RecoveryRequired, Crashed}
      ensures o == RolledBack ==> state == if intentWritten then Some(saved) else old(state)
      ensures o == RolledBack ==> AllGlimpsed(files.looks, |old(files.looks)|, Flat(applied))
      ensures o == RolledBack ==> records == old(records) + (if intentWritten then [saved] else [])
      ensures o == RecoveryRequired ==> records == old(records) + [WithIntent(saved, sha, at, true)]
      ensures records == old(records) || (state.Some? && records == old(records) + [state.value])
      ensures o == RolledBack ==> (HasIntent(state) <==> !intentWritten && HasIntent(old(state)))
      ensures o == RecoveryRequired ==> state == Some(WithIntent(saved, sha, at, true))
      ensures o == Crashed ==> state in {old(state), Some(saved), Some(WithIntent(saved, sha, at, true))}
      ensures v.calm && o == RolledBack ==> head == at && clean
      ensures v.calm && state == Some(saved) && old(state) != state ==> AllBefore(files.live, Flat(applied))
      ensures v.calm ==> AbortEffect(old(files.State()), files.State(), Flat(applied), v, o)
      ensures files.WroteOnly(Flat(applied))
    {
      hide Flat, Restorable, AllBefore, Look, Distinct, Touched, SameAt;
      var s := files.RollBackAll(applied, v);
      ghost var after, seen := files.State(), files.looks;
      hide Extends, AllGlimpsed;
      if v.calm { RolledBackMeans(old(files.State()), after, Flat(applied), v, s); }
      if s == Killed { return Crashed; }
      var r := Reset(at, v);
      if r == Killed { return Crashed; }
      if s == Done { AllGlimpsedStays(seen, files.looks, |old(files.looks)|, |old(files.looks)|, Flat(applied)); }
      ghost var reset := files.looks;
      if s != Done || r != Done {
        s := Save(WithIntent(saved, sha, at, true), v);
        return if s == Done then RecoveryRequired else Crashed;
      }
      if intentWritten {
        s := Save(saved, v);
        if s != Done { return Crashed; }
        AllGlimpsedStays(reset, files.looks, |old(files.looks)|, |old(files.looks)|, Flat(applied));
      }
      o := RolledBack;
    }

    /** What a deploy of `sha` needs to find in order to go through, apart from its bundle and a healthy outcome. */
    ghost predicate Ready(sha: nat)
      reads this, files
    {
      && state.Some? && state.value.intent.None? && clean
      && ManagedOk(commits, projections, files.live, state.value)
      && LineageOk(commits, projections, files.live, state.value, sha, head)
      && RequestPlannable(Ask(commits, projections, state.value, sha), files.live)
    }

    /** The live files, the state file and the checkout agree on commit `sha`. */
    ghost predicate Consistent(q: Request)
      reads this, files
    {
      && head == q.sha && clean
      && AllWanted(q, files.live) && Converged(q, files.live)
      && state.Some? && state.value.sha == q.sha && state.value.base.None? && state.value.intent.None?
      && ManagedOk(commits, projections, files.live, state.value)
      && PendingLive(files.live, state.value.pending)
    }

    /** The body of the deploy's `try`. */
    method Transact(r: Record, sha: nat, at: nat, healthy: bool, w: World)
      returns (s: Status, saved: Record, intentWritten: bool, applied: seq<seq<Change>>)
      requires state == Some(r) && r.intent.None? && files.NothingDestroyed()
      requires !files.dead
      modifies this, files
      ensures files.dead <==> s == Killed
      ensures old(files.looks) <= files.looks && old(marks) <= marks
      ensures files.NothingDestroyed() && Distinct(Flat(applied)) &&
        PlannedChanges(Ask(commits, projections, r, sha), Flat(applied))
      ensures WantedWrites(Ask(commits, projections, r, sha), old(files.escrow), old(files.ledger.log), files.escrow,
        files.ledger.log)
      ensures DeployLeaves(commits, Some(r), state, sha) && state.Some?
      ensures Adopted(commits, r, saved, sha) && saved.intent.None? && (saved == r || saved == Saved(r, sha, at))
      ensures intentWritten ==>
        state == Some(WithIntent(saved, sha, at, false)) || Finalized(commits, saved, state.value, sha)
      ensures s == Done ==> Finalized(commits, saved, state.value, sha)
      ensures old(records) <= records
      ensures s == Done ==>
        records == old(records) + Adopting(r, saved) + [WithIntent(saved, sha, at, false)] + [state.value]
      ensures s == Done ==> healthy && LineageSeen(commits, projections, r, sha, at, files.looks, |old(files.looks)|)
      ensures s == Done ==>
        DeploySaw(Ask(commits, projections, r, sha), Flat(applied), state.value, files.looks, marks,
          |old(files.looks)|, |old(marks)|)
      ensures w.calm && (head != old(head) || clean != old(clean)) ==> intentWritten || HasIntent(state)
      ensures w.calm ==> Elsewhere(old(files.live), files.live, Flat(applied))
      ensures w.calm ==> AllBefore(old(files.live), Flat(applied))
      ensures w.calm && !intentWritten ==> files.live == old(files.live) && Flat(applied) == []
      ensures w.calm && s == Done ==> Consistent(Ask(commits, projections, r, sha))
      ensures w.calm && s == Done ==> CalmDeploy(commits, projections, old(files.live), r, files.live, state.value)
      ensures w.calm && s == Done ==> forall p :: Repaired(r.pending, p) ==>
        Look(files.live, p) == Look(old(files.live), p)
      ensures w.calm && w.sound && old(ManagedOk(commits, projections, files.live, r)) ==>
        (s == Done <==> healthy && LineageOk(commits, projections, old(files.live), r, sha, at)
                        && RequestPlannable(Ask(commits, projections, r, sha), old(files.live)))
      ensures w.calm && w.sound ==> forall i :: 0 <= i < |Flat(applied)| ==> Restorable(files.State(), Flat(applied)[i])
      ensures w.calm && w.sound ==> Clear(files.tampered, Flat(applied))
      ensures w.sound ==> state in {Some(r), Some(saved)} || intentWritten
      ensures !intentWritten && HasIntent(state) ==> Intended(saved, state.value, sha)
      ensures w.calm && intentWritten && !HasIntent(state) ==>
        AllWanted(Ask(commits, projections, r, sha), files.live)
      ensures w.sound ==> s != Killed
    {
      hide Ancestor, Remember, RequestPlannable, PlanOk, Applied, Flat, Converged, PendingLive, ManagedOk, LineageOk,
        AllWanted, Elsewhere, AllBefore, Distinct, Restorable, PlannedChanges, WriteWanted, ProjectSaw,
        CommitSaw, DeploySaw, WritesOf, Adopted, Records, CalmDeploy, Look, Repaired, SawBrief;
      applied := [];
      EmptyPlan(files.live);
      EmptyWrites(Ask(commits, projections, r, sha));
      s, saved, intentWritten := Prepare(r, sha, at, w);
      AskSame(commits, projections, files.live, r, saved, sha);
      if s != Done { return; }
      ghost var prepared, preparedMarks := files.looks, marks;
      ghost var before := files.live;
      var q := Ask(commits, projections, saved, sha);
      var remaining;
      s, applied, remaining := Project(q, healthy, w);
      if s != Done { return; }
      if w.calm { PlanConverged(q, before, files.live, Flat(applied), remaining); }
      ghost var looks', marks', writes := files.looks, marks, |files.ledger.log|;
      s := Commit(q, saved, applied, remaining, before, w);
      if s == Done {
        LineageStays(commits, projections, r, sha, at, prepared, |old(files.looks)|, files.looks);
        DeploySawAll(q, Flat(applied), state.value, looks', marks', |prepared|, |preparedMarks|, writes, files.looks,
          marks, |old(files.looks)|, |old(marks)|);
      }
      if w.calm && s == Done { CalmlyDeployed(q, r, saved, before, files.live, Flat(applied), remaining, state.value); }
    }

    /** The checks before anything is written: the managed files, a clean checkout, the bundle. */
    method Admit(r: Record, bundled: bool, w: World) returns (s: Status, at: nat)
      requires !files.dead
      modifies this`head, this`clean, this`marks, files
      ensures files.dead <==> s == Killed
      ensures old(files.looks) <= files.looks && old(marks) <= marks
      ensures files.escrow == old(files.escrow) && files.ledger == old(files.ledger)
      ensures w.calm ==> Same()
      ensures s == Done ==>
        bundled && Admitted(commits, projections, r, at, files.looks, |old(files.looks)|, marks, |old(marks)|)
      ensures w.calm && s == Done ==> at == head && clean && ManagedOk(commits, projections, files.live, r)
      ensures w.calm && w.sound ==>
        (s == Done <==> bundled && clean && ManagedOk(commits, projections, files.live, r))
      ensures w.sound ==> s != Killed
    {
      hide ManagedOk;
      at := head;
      s := Step(w);
      if s != Done { return; }
      if !ManagedOk(commits, projections, files.live, r) { s := Failed; return; }
      ghost var j := |files.looks| - 1;
      s := Step(w);
      if s != Done { return; }
      if !clean { s := Failed; return; }
      at := head;
      ghost var m := |marks| - 1;
      s := Step(w);
      if s != Done { return; }
      if !bundled { s := Failed; return; }
      assert ManagedOk(commits, projections, files.looks[j].snap.live, r) && marks[m].clean && marks[m].head == at;
    }

    /**
      `deploy_git`: `w` is the world up to a failure, `v` the world of the exception
      handler, and `failed` what the handler found and which changes were begun, if it ran.
    */
    method Deploy(sha: nat, bundled: bool, healthy: bool, w: World, v: World)
      returns (o: Outcome, ghost failed: Option<(Snap, seq<Change>)>)
      requires files.NothingDestroyed()
      requires !files.dead
      modifies this, files
      ensures files.dead ==> o == Crashed
      ensures old(files.looks) <= files.looks && old(marks) <= marks
      ensures files.NothingDestroyed() && old(files.escrow) <= files.escrow
      ensures old(state).Some? ==>
        WantedWrites(Ask(commits, projections, old(state).value, sha), old(files.escrow), old(files.ledger.log),
          files.escrow, files.ledger.log)
      ensures o == RolledBack || o == RecoveryRequired ==> failed.Some?
      ensures o == RolledBack ==> AllGlimpsed(files.looks, |old(files.looks)|, failed.value.1)
      ensures v.calm && failed.Some? ==> AbortEffect(failed.value.0, files.State(), failed.value.1, v, o)
      ensures DeployLeaves(commits, old(state), state, sha)
      ensures old(state).None? || old(state).value.intent.Some? ==>
        o == Refused && Same() && files.escrow == old(files.escrow)
      ensures o == Refused ==> state == old(state)
      ensures o == RecoveryRequired ==> state.Some? && state.value.intent.Some? && state.value.intent.value.recovery
      ensures o == Deployed ==> state.Some? && state.value.sha == sha && state.value.intent.None?
      ensures o == Deployed ==> bundled && healthy && exists at: nat, changes ::
        DeployChecked(commits, projections, old(state).value, sha, state.value, at, changes, files.looks,
          |old(files.looks)|, marks, |old(marks)|)
      ensures o == Deployed ==> exists at: nat, saved ::
        Adopted(commits, old(state).value, saved, sha) && records == old(records) + Adopting(old(state).value, saved) +
          [WithIntent(saved, sha, at, false)] + [state.value]
      ensures o == Crashed && failed.None? ==> files.dead
      ensures w.calm && o == Crashed && failed.None? ==>
        head == old(head) || HasIntent(state) || (state.Some? && state.value.sha == sha)
      ensures w.calm && o == Deployed ==> Consistent(Ask(commits, projections, old(state).value, sha))
      ensures w.calm && o == Deployed ==>
        CalmDeploy(commits, projections, old(files.live), old(state).value, files.live, state.value)
      ensures w.calm && o == Deployed ==> forall p :: Repaired(old(state).value.pending, p) ==>
        Look(files.live, p) == Look(old(files.live), p)
      ensures w.calm && v.calm && (o == Refused || o == RolledBack) ==>
        files.live == old(files.live) && head == old(head)
      ensures w.calm && v.calm && o == Crashed && files.live != old(files.live) ==>
        HasIntent(state) || (state.Some? && state.value.sha == sha)
      ensures w.calm && o == Crashed && failed.None? ==>
        || files.live == old(files.live) || HasIntent(state)
        || AllWanted(Ask(commits, projections, old(state).value, sha), files.live)
      ensures w.sound && o == RolledBack ==> !HasIntent(state)
      ensures o == RolledBack && HasIntent(state) ==>
        exists saved :: Adopted(commits, old(state).value, saved, sha) && Intended(saved, state.value, sha)
      ensures w.calm && v.calm && o == RolledBack && HasIntent(state) ==> files.live == old(files.live)
      ensures w.calm && w.sound && v.calm && v.sound ==> (o == Deployed <==> bundled && healthy && old(Ready(sha)))
      ensures w.calm && w.sound && v.calm && v.sound && o != Deployed ==> o == Refused || o == RolledBack
      ensures w.calm && w.sound && v.calm && v.sound && o == RolledBack ==>
        state == old(state) || state == Some(Saved(old(state).value, sha, old(head)))
    {
      hide Ancestor, Remember, RequestPlannable, PlanOk, Applied, Flat, Converged, PendingLive, ManagedOk, LineageOk,
        AllWanted, Elsewhere, AllBefore, Distinct, Restorable, Look, Repaired, Ask, Adopted, Rebased, Clear,
        CalmDeploy, PlannedChanges, WriteWanted, Extends, Admitted, LineageSeen, DeploySaw, AllGlimpsed;
      if state.None? || state.value.intent.Some? { return Refused, None; }
      var r := state.value;
      var s, at := Admit(r, bundled, w);
      if s != Done { return if s == Killed then Crashed else Refused, None; }
      ghost var looks', marks' := files.looks, marks;
      var saved, intentWritten, applied;
      ghost var a := files.live;
      s, saved, intentWritten, applied := Transact(r, sha, at, healthy, w);
      AdmittedStays(commits, projections, r, at, looks', |old(files.looks)|, marks', |old(marks)|, files.looks, marks);
      if s == Done {
        DeploySawStays(Ask(commits, projections, r, sha), Flat(applied), state.value, files.looks, marks, |looks'|,
          |marks'|, |old(files.looks)|, |old(marks)|);
        LineageEarlier(commits, projections, r, sha, at, files.looks, |looks'|, |old(files.looks)|);
        assert DeployChecked(commits, projections, r, sha, state.value, at, Flat(applied), files.looks,
          |old(files.looks)|, marks, |old(marks)|);
      }
      if s != Failed { return if s == Done then Deployed else Crashed, None; }
      ghost var b, e, l := files.live, files.escrow, files.ledger.log;
      failed := Some((files.State(), Flat(applied)));
      ghost var seen := files.looks;
      o := Abort(applied, saved, sha, at, intentWritten, v);
      if o == RolledBack {
        AllGlimpsedStays(files.looks, files.looks, |seen|, |old(files.looks)|, Flat(applied));
      }
      PlannedWrites(Ask(commits, projections, r, sha), Flat(applied), e, l, files.escrow, files.ledger.log);
      WantedWritesJoin(Ask(commits, projections, r, sha), old(files.escrow), old(files.ledger.log), e, l,
        files.escrow, files.ledger.log);
      if w.calm && v.calm { Restored(a, b, files.live, Flat(applied)); }
    }

    /**
      The other crash.  A deployment of two files is through and its final record written; the handler of a
      later failure rolls the second file back and dies.  For any two planned changes the site is left half
      restored, neither old nor as requested, with a record of the finished deployment and no intent.
    */
    method DieRollingBack(c: Change, d: Change, saved: Record, final: Record, sha: nat)
      requires files.NothingDestroyed() && c.path != d.path && AllBefore(files.live, [c, d])
      requires HasIntent(state) && Finalized(commits, saved, final, sha)
      requires PlannedChanges(Ask(commits, projections, saved, sha), [c, d])
      requires !files.dead
      modifies this, files
      ensures state == Some(final) && final.sha == sha && !HasIntent(state)
      ensures Look(files.live, c.path) == c.after && Look(files.live, d.path) == d.before
      ensures Elsewhere(old(files.live), files.live, [c, d])
      ensures c.before != c.after ==> files.live != old(files.live)
      ensures d.before != d.after ==> !AllWanted(Ask(commits, projections, saved, sha), files.live)
    {
      hide Ancestor, Look, Extends, Concerned, Repaired, WantedBefore, WantedAfter;
      var calm := World(true, true);
      files.Bind();
      var applied := files.Apply([c, d], calm);
      ghost var a := files.State();
      assert applied == Done && Progress(Snap(old(files.live), {}, {}, {}), a, [c, d]);
      var written := Save(final, calm);
      var undone := files.RollBackOne(d, calm);
      HalfRestored(old(files.live), a, files.State(), c, d, undone);
      ghost var planned := [c, d];
      assert planned[0] == c && planned[1] == d && Look(old(files.live), planned[0].path) == c.before;
    }

    /** What a manual rebaseline towards `sha` needs to find. */
    ghost predicate Adoptable(sha: nat)
      reads this, files
    {
      && state.Some? && state.value.intent.None? && state.value.pending == [] && clean
      && ManagedOk(commits, projections, files.live, state.value)
      && BriefOk(commits, projections, files.live, head)
      && sha < |commits| && Ancestor(commits, head, sha)
    }

    /** `rebaseline_git`: adopt the clean checkout, keep the baseline of the live files. */
    method Rebaseline(sha: nat, bundled: bool, w: World) returns (s: Status)
      requires !files.dead
      modifies this, files
      ensures files.dead <==> s == Killed
      ensures old(files.looks) <= files.looks && old(marks) <= marks
      ensures files.escrow == old(files.escrow) && files.ledger == old(files.ledger)
      ensures RebaselineLeaves(commits, old(state), state, sha)
      ensures old(state).None? || old(state).value.intent.Some? || old(state).value.pending != [] ==>
        s == Failed && state == old(state) && Same()
      ensures s == Done ==> state.Some? && Effective(state.value) == Effective(old(state).value)
      ensures s == Done ==> records == old(records) + [state.value]
      ensures s == Done ==> bundled && Ancestor(commits, state.value.sha, sha)
      ensures s == Done ==>
        Adoption(commits, projections, old(state).value, state.value.sha, files.looks, |old(files.looks)|, marks,
          |old(marks)|)
      ensures w.calm ==> Same()
      ensures w.calm && s == Done ==> state.value.sha == head
      ensures w.calm && w.sound ==>
        (s == Done <==> bundled && old(Adoptable(sha))) && (s != Done ==> state == old(state))
    {
      hide Ancestor, Remember, ManagedOk, BriefOk;
      if state.None? || state.value.intent.Some? || state.value.pending != [] { return Failed; }
      var r := state.value;
      s := Step(w);
      if s != Done { return; }
      if !ManagedOk(commits, projections, files.live, r) { return Failed; }
      ghost var j := |files.looks| - 1;
      s := Step(w);
      if s != Done { return; }
      if !clean { return Failed; }
      var at := head;
      ghost var m := |marks| - 1;
      s := Step(w);
      if s != Done { return; }
      if !BriefOk(commits, projections, files.live, at) || !bundled { return Failed; }
      ghost var k := |files.looks| - 1;
      s := Step(w);
      if s != Done { return; }
      if sha >= |commits| || !Ancestor(commits, at, sha) { return Failed; }
      s := Save(Rebased(r, at, sha, false), w);
      assert ManagedOk(commits, projections, files.looks[j].snap.live, r) && marks[m].clean && marks[m].head == at;
      assert BriefOk(commits, projections, files.looks[k].snap.live, at);
    }

    /** `bootstrap_git`: record the clean checkout once. */
    method Bootstrap(bundled: bool, w: World) returns (s: Status)
      requires !files.dead
      modifies this, files
      ensures files.dead <==> s == Killed
      ensures old(files.looks) <= files.looks && old(marks) <= marks
      ensures files.escrow == old(files.escrow) && files.ledger == old(files.ledger)
      ensures BootstrapLeaves(old(state), state)
      ensures s == Done ==> state.Some? && records == old(records) + [state.value]
      ensures old(state).Some? ==> s == Failed && Same()
      ensures s == Done ==> old(state).None? && state.Some? && Effective(state.value) == state.value.sha
      ensures s == Done ==>
        && bundled && SawClean(marks, |old(marks)|, state.value.sha)
        && SawBrief(commits, projections, state.value.sha, files.looks, |old(files.looks)|)
      ensures w.calm ==> Same()
      ensures w.calm && w.sound ==>
        (s == Done <==> old(state).None? && bundled && clean && BriefOk(commits, projections, files.live, head)) &&
          (s == Done ==> state == Some(Fresh(head)))
    {
      hide BriefOk;
      if state.Some? { return Failed; }
      s := Step(w);
      if s != Done { return; }
      if !bundled { return Failed; }
      if !clean { return Failed; }
      var at := head;
      ghost var m := |marks| - 1;
      s := Step(w);
      if s != Done { return; }
      if !BriefOk(commits, projections, files.live, at) { return Failed; }
      ghost var k := |files.looks| - 1;
      s := Save(Fresh(at), w);
      assert marks[m].clean && marks[m].head == at && BriefOk(commits, projections, files.looks[k].snap.live, at);
    }
  }

  lemma HalfRestored(was: map<Path, Meta>, a: Snap, b: Snap, c: Change, d: Change, s: Status)
    requires c.path != d.path && a.tampered == {} && Progress(Snap(was, {}, {}, {}), a, [c, d])
    requires OneUndone(a, b, d, World(true, true), s)
    ensures Look(b.live, c.path) == c.after && Look(b.live, d.path) == d.before && Elsewhere(was, b.live, [c, d])
  {
    hide Look;
    assert Went(Snap(was, {}, {}, {}), a, [c, d][0]) && Went(Snap(was, {}, {}, {}), a, [c, d][1]);
    assert SameAt(a, b, c.path);
    forall p | !Touched([c, d], p) ensures Look(b.live, p) == Look(was, p) {
      assert [c, d][1].path != p && SameAt(a, b, p);
    }
  }

  lemma AfterAssert(changes: seq<Change>, looks: seq<Glance>, from: nat, looks': seq<Glance>, k: nat)
    requires k <= from && looks <= looks'
    requires forall i :: 0 <= i < |changes| ==> Glimpsed(looks, from, changes[i].path, changes[i].after)
    ensures forall i :: 0 <= i < |changes| ==> Glimpsed(looks', k, changes[i].path, changes[i].after)
  {
    hide Glimpsed;
    forall i | 0 <= i < |changes| ensures Glimpsed(looks', k, changes[i].path, changes[i].after) {
      GlimpsedStays(looks, looks', from, changes[i].path, changes[i].after);
      GlimpsedEarlier(looks', k, from, changes[i].path, changes[i].after);
    }
  }

  lemma RolledBackMeans(a: Snap, b: Snap, changes: seq<Change>, w: World, s: Status)
    requires RestoresOrPreserves(a, b, changes, w, s)
    ensures b.tampered == a.tampered && Elsewhere(a.live, b.live, changes)
  {
    hide Restorable;
  }

  lemma EmptyPlan(live: map<Path, Meta>)
    ensures Distinct(Flat([])) && AllBefore(live, Flat([])) && Elsewhere(live, live, Flat([])) && Flat([]) == []
  {
  }

  lemma PlannedBefore(q: Request, live: map<Path, Meta>, groups: seq<seq<Change>>, remaining: seq<Repair>)
    requires PlanOk(q, live, Flat(groups), remaining)
    ensures Distinct(Flat(groups)) && AllBefore(live, Flat(groups)) && PlannedChanges(q, Flat(groups))
  {
    hide Flat, Concerned, Repaired, WantedBefore, WantedAfter, Settled, PatchAt, PatchFits, Look;
    assert forall i :: 0 <= i < |Flat(groups)| ==> Justified(q, live, Flat(groups)[i]);
  }

  lemma EmptyWrites(q: Request)
    ensures PlannedChanges(q, []) && Flat([]) == []
  {
  }

  lemma PlannedPrefix(q: Request, groups: seq<seq<Change>>, n: nat)
    requires n <= |groups| && PlannedChanges(q, Flat(groups))
    ensures PlannedChanges(q, Flat(groups[..n]))
  {
    var rest := FlatSplit(groups, n);
    hide Flat, Concerned, Repaired, WantedBefore, WantedAfter;
    assert forall i :: 0 <= i < |Flat(groups[..n])| ==> Flat(groups)[i] == Flat(groups[..n])[i];
  }

  lemma PlanPrefix(live: map<Path, Meta>, groups: seq<seq<Change>>, n: nat)
    requires n <= |groups| && Distinct(Flat(groups)) && AllBefore(live, Flat(groups))
    ensures Distinct(Flat(groups[..n])) && AllBefore(live, Flat(groups[..n]))
  {
    var rest := FlatSplit(groups, n);
    DistinctParts(Flat(groups[..n]), rest);
    hide Flat, Look, Distinct;
    assert forall i :: 0 <= i < |Flat(groups[..n])| ==> Flat(groups)[i] == Flat(groups[..n])[i];
  }

  lemma AppliedMeans(before: map<Path, Meta>, live: map<Path, Meta>, changes: seq<Change>)
    requires Applied(before, live, changes)
    ensures Elsewhere(before, live, changes) && AllAfter(live, changes)
    ensures forall i :: 0 <= i < |changes| ==> Look(live, changes[i].path) == changes[i].after
  {
  }

  lemma AskSame(commits: Commits, projections: set<string>, live: map<Path, Meta>, r: Record, saved: Record, sha: nat)
    requires Adopted(commits, r, saved, sha)
    ensures ManagedOk(commits, projections, live, r) <==> ManagedOk(commits, projections, live, saved)
    ensures Ask(commits, projections, saved, sha) == Ask(commits, projections, r, sha)
  {
    hide Ancestor, Remember;
  }

  /** Files that are old again at every planned path and untouched elsewhere are the old files. */
  lemma Restored(a: map<Path, Meta>, b: map<Path, Meta>, d: map<Path, Meta>, changes: seq<Change>)
    requires Elsewhere(a, b, changes) && Elsewhere(b, d, changes) && AllBefore(a, changes)
    ensures AllBefore(d, changes) || changes == [] ==> d == a
  {
    if AllBefore(d, changes) {
      forall p ensures Look(d, p) == Look(a, p) {
        hide Look;
        if Touched(changes, p) {
          var i :| 0 <= i < |changes| && changes[i].path == p;
          assert Look(d, changes[i].path) == Look(a, changes[i].path);
        }
      }
      assert forall p :: p in d <==> Look(d, p).Some?;
      assert forall p :: p in a <==> Look(a, p).Some?;
    }
  }

  lemma PlanConverged(q: Request, before: map<Path, Meta>, live: map<Path, Meta>, changes: seq<Change>,
    remaining: seq<Repair>)
    requires PlanOk(q, before, changes, remaining) && Applied(before, live, changes)
    ensures AllWanted(q, live)
    ensures forall p :: Repaired(q.pending, p) ==> Look(live, p) == Look(before, p)
  {
    PlanConverges(q, before, live, changes, remaining);
    hide PlanOk, Applied, Look, PatchAt;
  }

  lemma CalmlyDeployed(q: Request, r: Record, saved: Record, before: map<Path, Meta>, live: map<Path, Meta>,
    changes: seq<Change>, remaining: seq<Repair>, after: Record)
    requires q == Ask(q.commits, q.projections, saved, q.sha) && Adopted(q.commits, r, saved, q.sha)
    requires PlanOk(q, before, changes, remaining) && RequestPlannable(q, before) && Applied(before, live, changes)
    requires Records(q, saved, changes, remaining, after)
    ensures CalmDeploy(q.commits, q.projections, before, r, live, after)
  {
    hide PlanOk, Applied, ProjectionPlannable, BriefPlannable, Adopted, Records;
  }
}
