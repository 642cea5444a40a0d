/**
 * The live projected files: ops/vm_actions/projection_io.py and the apply and rollback loops of
 * ops/vm_actions/gateway.py.
 *
 * Every system call is a step between which other programs may act and at which the call, or the
 * whole process, may fail. Writes are only two: take a live file into private escrow, and link a
 * file into a name that must be free.
 */
module DeployFiles {
  import opened Wrappers
  import opened DeployPlan

  /** What may happen besides the program's own steps during one stretch of an operation. */
  datatype World = World(calm: bool, sound: bool)

  /** A step is done, failed with an exception the source catches, or the process died in it. */
  datatype Status = Done | Failed | Killed

  /** The contents that one write made disappear from live names. */
  ghost function Lost(before: map<Path, Meta>, after: map<Path, Meta>): set<(Path, Meta)> {
    set p | p in before && (p !in after || after[p] != before[p]) :: (p, before[p])
  }

  /** The live files hold every change's new content, and nothing else moved. */
  ghost predicate Applied(before: map<Path, Meta>, live: map<Path, Meta>, changes: seq<Change>) {
    && (forall i :: 0 <= i < |changes| ==> Look(live, changes[i].path) == changes[i].after)
    && Elsewhere(before, live, changes)
  }

  ghost predicate Elsewhere(before: map<Path, Meta>, live: map<Path, Meta>, changes: seq<Change>) {
    forall p :: !Touched(changes, p) ==> Look(live, p) == Look(before, p)
  }

  ghost predicate AllAfter(live: map<Path, Meta>, changes: seq<Change>) {
    forall i :: 0 <= i < |changes| ==> Look(live, changes[i].path) == changes[i].after
  }

  ghost predicate AllBefore(live: map<Path, Meta>, changes: seq<Change>) {
    forall i :: 0 <= i < |changes| ==> Look(live, changes[i].path) == changes[i].before
  }

  /** The content is the old one, or the new one and we made it so. */
  predicate Ours(now: Content, mutated: bool, c: Change) {
    now == c.before || (mutated && now == c.after)
  }

  /** The files and what the program knows about each path it planned to change. */
  datatype Snap = Snap(live: map<Path, Meta>, mutated: set<Path>, recorded: set<Path>, tampered: set<Path>)

  /** Rollback may act: the escrow still holds what was recorded, and the file is old, or new and made so by us. */
  predicate Restorable(a: Snap, c: Change) {
    !(c.path in a.recorded && c.path in a.tampered) && Ours(Look(a.live, c.path), c.path in a.mutated, c)
  }

  /** One change after its turn: untouched if it was not ours, else old again unless the step failed. */
  ghost predicate Undone(a: Snap, b: Snap, c: Change, w: World, s: Status) {
    && (!Restorable(a, c) ==> s != Done && Look(b.live, c.path) == Look(a.live, c.path))
    && (Restorable(a, c) && (s == Done || (w.sound && c.path !in a.tampered)) ==> Look(b.live, c.path) == c.before)
  }

  /**
   * Holding the new content is not enough to be rolled back: a file that somebody else brought to the
   * new content, before the deploy got to it, counts as drift and keeps that content.
   */
  lemma NewContentAloneIsDrift()
    ensures exists a: Snap, c: Change ::
              && Look(a.live, c.path) == c.after && c.after != c.before && !Restorable(a, c)
              && (forall b, w, s :: Undone(a, b, c, w, s) ==> s != Done && Look(b.live, c.path) == c.after)
  {
    var p := Path("games", "a");
    var a, c := Snap(map[p := Meta("new", 0)], {}, {}, {}), Change(p, Some(Meta("old", 0)), Some(Meta("new", 0)));
    assert Look(a.live, c.path) == c.after && !Restorable(a, c);
    assert c.before.value.data[0] == 'o' && c.after.value.data[0] == 'n';
  }

  /** A rollback of the changes from `i` on, when nobody else acts. */
  ghost predicate UndoneFrom(a: Snap, b: Snap, changes: seq<Change>, i: nat, w: World, s: Status) {
    && b.tampered == a.tampered
    && (forall p :: (forall k :: i <= k < |changes| ==> changes[k].path != p) ==> SameAt(a, b, p))
    && (forall k :: i <= k < |changes| ==> Undone(a, b, changes[k], w, s))
    && (w.sound && s != Done && (forall k :: i <= k < |changes| ==> changes[k].path !in a.tampered) ==>
          exists k :: i <= k < |changes| && !Restorable(a, changes[k]))
  }

  ghost predicate SameAt(a: Snap, b: Snap, p: Path) {
    Look(b.live, p) == Look(a.live, p) && (p in b.mutated <==> p in a.mutated) && (p in b.recorded <==> p in a.recorded)
  }

  ghost predicate OneUndone(a: Snap, b: Snap, c: Change, w: World, s: Status) {
    && b.tampered == a.tampered
    && (forall p :: p != c.path ==> SameAt(a, b, p))
    && Undone(a, b, c, w, s)
    && (w.sound && c.path !in a.tampered && Restorable(a, c) ==> s == Done)
  }

  lemma UndoneNext(a: Snap, b: Snap, d: Snap, changes: seq<Change>, i: nat, w: World, s: Status, one: Status)
    requires i < |changes| && Distinct(changes)
    requires UndoneFrom(a, b, changes, i + 1, w, s) && OneUndone(b, d, changes[i], w, one)
    ensures UndoneFrom(a, d, changes, i, w, if one == Done then s else one)
  {
    hide Ours;
    assert SameAt(a, b, changes[i].path);
    forall k | i < k < |changes| ensures Undone(a, d, changes[k], w, if one == Done then s else one) {
      assert SameAt(b, d, changes[k].path);
    }
    hide SameAt, Undone;
    if w.sound && (one != Done || s != Done) && (forall k :: i <= k < |changes| ==> changes[k].path !in a.tampered) {
      if one != Done { assert !Restorable(a, changes[i]); }
    }
    forall p | forall k :: i <= k < |changes| ==> changes[k].path != p ensures SameAt(a, d, p) {
      SameTwice(a, b, d, p);
    }
  }

  /** The same for a whole group of changes rolled back at once, ending early only if the process died. */
  lemma UndoneJoin(a: Snap, b: Snap, d: Snap, changes: seq<Change>, i: nat, group: seq<Change>, j: nat, w: World,
    s: Status, one: Status)
    requires i + |group| <= |changes| && changes[i..i + |group|] == group && Distinct(changes) && j <= |group|
    requires UndoneFrom(a, b, changes, i + |group|, w, s) && UndoneFrom(b, d, group, j, w, one)
    ensures UndoneFrom(a, d, changes, i + j, w, if one == Done then s else one)
  {
    var r := if one == Done then s else one;
    assert forall k :: 0 <= k < |group| ==> group[k] == changes[i + k];
    hide Ours, Restorable;
    forall k | i + j <= k < |changes| ensures Undone(a, d, changes[k], w, r) {
      GroupUndone(a, b, d, changes, i, group, j, w, s, one, k);
    }
    forall p | forall k :: i + j <= k < |changes| ==> changes[k].path != p ensures SameAt(a, d, p) {
      assert SameAt(a, b, p);
      assert forall k :: j <= k < |group| ==> group[k].path == changes[i + k].path != p;
      SameTwice(a, b, d, p);
    }
    if w.sound && r != Done && (forall k :: i + j <= k < |changes| ==> changes[k].path !in a.tampered) {
      if one != Done {
        assert forall k :: j <= k < |group| ==> group[k].path == changes[i + k].path;
        var k :| j <= k < |group| && !Restorable(b, group[k]);
        RestorableSame(a, b, changes, i + |group|, i + k, w, s);
        assert !Restorable(a, changes[i + k]);
      }
    }
  }

  /** A change not rolled back yet is as restorable as it was. */
  lemma RestorableSame(a: Snap, b: Snap, changes: seq<Change>, i: nat, k: nat, w: World, s: Status)
    requires k < i <= |changes| && Distinct(changes) && UndoneFrom(a, b, changes, i, w, s)
    ensures SameAt(a, b, changes[k].path) && (Restorable(a, changes[k]) <==> Restorable(b, changes[k]))
  {
    hide Undone;
    assert forall j :: i <= j < |changes| ==> changes[j].path != changes[k].path;
  }

  lemma GroupUndone(a: Snap, b: Snap, d: Snap, changes: seq<Change>, i: nat, group: seq<Change>, j: nat, w: World,
    s: Status, one: Status, k: nat)
    requires i + |group| <= |changes| && changes[i..i + |group|] == group && Distinct(changes) && j <= |group|
    requires UndoneFrom(a, b, changes, i + |group|, w, s) && UndoneFrom(b, d, group, j, w, one)
    requires i + j <= k < |changes|
    ensures Undone(a, d, changes[k], w, if one == Done then s else one)
  {
    hide Ours;
    assert forall k :: 0 <= k < |group| ==> group[k] == changes[i + k];
    if k < i + |group| {
      RestorableSame(a, b, changes, i + |group|, k, w, s);
      assert Undone(b, d, group[k - i], w, one);
    } else {
      assert forall j :: 0 <= j < |group| ==> group[j].path == changes[i + j].path != changes[k].path;
      assert SameAt(b, d, changes[k].path) && Undone(a, b, changes[k], w, s);
    }
  }

  lemma SameTwice(a: Snap, b: Snap, d: Snap, p: Path)
    ensures SameAt(a, b, p) && SameAt(b, d, p) ==> SameAt(a, d, p)
  {
  }

  /** Restores or preserves: what a whole rollback does to the planned paths when nobody else acts. */
  ghost predicate RestoresOrPreserves(a: Snap, b: Snap, changes: seq<Change>, w: World, s: Status) {
    && b.tampered == a.tampered
    && (forall p :: !Touched(changes, p) ==> SameAt(a, b, p))
    && (forall i :: 0 <= i < |changes| && !Restorable(a, changes[i]) ==>
      Look(b.live, changes[i].path) == Look(a.live, changes[i].path))
    && (s == Done ==> AllBefore(b.live, changes) && forall i :: 0 <= i < |changes| ==> Restorable(a, changes[i]))
    && (w.sound && Clear(a.tampered, changes) ==>
          && (forall i :: 0 <= i < |changes| && Restorable(a, changes[i]) ==>
            Look(b.live, changes[i].path) == changes[i].before)
          && (s == Done <==> forall i :: 0 <= i < |changes| ==> Restorable(a, changes[i])))
  }

  /** Nobody wrote to an escrowed file of these changes. */
  ghost predicate Clear(tampered: set<Path>, changes: seq<Change>) {
    forall i :: 0 <= i < |changes| ==> changes[i].path !in tampered
  }

  lemma UndoneMeansRolledBack(a: Snap, b: Snap, changes: seq<Change>, i: nat, w: World, s: Status)
    requires Distinct(changes) && i <= |changes| && UndoneFrom(a, b, changes, i, w, s)
    requires i == 0 || (s == Killed && !w.sound)
    ensures RestoresOrPreserves(a, b, changes, w, s)
  {
    hide Restorable;
    forall k | 0 <= k < i ensures SameAt(a, b, changes[k].path) {
      assert forall j :: i <= j < |changes| ==> changes[j].path != changes[k].path;
    }
  }

  lemma FlatNext(groups: seq<seq<Change>>, n: nat)
    requires n < |groups|
    ensures Flat(groups[..n + 1]) == Flat(groups[..n]) + groups[n]
    ensures Distinct(Flat(groups)) ==> Distinct(Flat(groups[..n + 1]))
  {
    assert groups[..n + 1][..n] == groups[..n];
    var rest := FlatSplit(groups, n + 1);
    if Distinct(Flat(groups)) {
      hide Distinct, Flat;
      DistinctParts(Flat(groups[..n + 1]), rest);
    }
  }

  lemma DistinctParts(a: seq<Change>, b: seq<Change>)
    requires Distinct(a + b)
    ensures Distinct(a) && Distinct(b)
    ensures forall i, j :: 0 <= i < |a| && 0 <= j < |b| ==> a[i].path != b[j].path
  {
    var all := a + b;
    assert forall i :: 0 <= i < |a| ==> a[i] == all[i];
    assert forall j :: 0 <= j < |b| ==> b[j] == all[|a| + j];
  }

  /** Changes that went through, when nobody else acted: each from its old to its new content, and known to be ours. */
  ghost predicate Progress(a: Snap, b: Snap, changes: seq<Change>) {
    && b.tampered == a.tampered && a.mutated <= b.mutated
    && Elsewhere(a.live, b.live, changes)
    && forall i :: 0 <= i < |changes| ==> Went(a, b, changes[i])
  }

  ghost predicate Went(a: Snap, b: Snap, c: Change) {
    Look(a.live, c.path) == c.before && Look(b.live, c.path) == c.after && (c.path in b.mutated || c.before == c.after)
  }

  lemma ProgressJoin(a: Snap, b: Snap, d: Snap, xs: seq<Change>, ys: seq<Change>)
    requires Distinct(xs + ys) && Progress(a, b, xs) && Progress(b, d, ys)
    ensures Progress(a, d, xs + ys)
  {
    DistinctParts(xs, ys);
    ElsewhereJoin(a.live, b.live, d.live, xs, ys);
    hide Distinct, Look;
    forall i | 0 <= i < |xs + ys| ensures Went(a, d, (xs + ys)[i]) {
      if i < |xs| {
        assert (xs + ys)[i] == xs[i] && Went(a, b, xs[i]) && !Touched(ys, xs[i].path);
      } else {
        assert (xs + ys)[i] == ys[i - |xs|] && Went(b, d, ys[i - |xs|]) && !Touched(xs, ys[i - |xs|].path);
      }
    }
  }

  lemma ElsewhereJoin(a: map<Path, Meta>, b: map<Path, Meta>, d: map<Path, Meta>, xs: seq<Change>, ys: seq<Change>)
    requires Elsewhere(a, b, xs) && Elsewhere(b, d, ys)
    ensures Elsewhere(a, d, xs + ys)
  {
    hide Look, Touched;
    forall p | !Touched(xs + ys, p) ensures Look(d, p) == Look(a, p) { TouchedConcat(xs, ys, p); }
  }

  lemma TouchedConcat(xs: seq<Change>, ys: seq<Change>, p: Path)
    ensures Touched(xs + ys, p) <==> Touched(xs, p) || Touched(ys, p)
  {
    if Touched(xs, p) {
      var i :| 0 <= i < |xs| && xs[i].path == p;
      assert (xs + ys)[i] == xs[i];
    }
    if Touched(ys, p) {
      var i :| 0 <= i < |ys| && ys[i].path == p;
      assert (xs + ys)[|xs| + i] == ys[i];
    }
  }

  lemma ProgressMeans(a: Snap, b: Snap, changes: seq<Change>)
    requires Progress(a, b, changes)
    ensures b.tampered == a.tampered && Elsewhere(a.live, b.live, changes)
    ensures Applied(a.live, b.live, changes) && AllBefore(a.live, changes)
    ensures forall i :: 0 <= i < |changes| && changes[i].path !in b.tampered ==> Restorable(b, changes[i])
  {
    hide Look;
    assert forall i :: 0 <= i < |changes| ==> Went(a, b, changes[i]);
  }

  /** After progress on the first groups, the next group still finds its old contents. */
  lemma NextStillBefore(a: Snap, b: Snap, xs: seq<Change>, ys: seq<Change>)
    requires Distinct(xs + ys) && Progress(a, b, xs)
    requires AllBefore(a.live, ys)
    ensures AllBefore(b.live, ys)
  {
    DistinctParts(xs, ys);
    hide Look, Distinct;
    forall i | 0 <= i < |ys| ensures Look(b.live, ys[i].path) == ys[i].before { assert !Touched(xs, ys[i].path); }
  }

  lemma {:induction false} FlatSplit(groups: seq<seq<Change>>, n: nat) returns (rest: seq<Change>)
    requires n <= |groups|
    ensures Flat(groups) == Flat(groups[..n]) + rest
    decreases |groups|
  {
    if n == |groups| {
      rest := [];
      assert groups[..n] == groups;
    } else {
      var init, last := groups[..|groups| - 1], groups[|groups| - 1];
      var some := FlatSplit(init, n);
      assert init[..n] == groups[..n];
      rest := some + last;
    }
  }

  lemma GroupOf(groups: seq<seq<Change>>, k: nat)
    requires k < |groups|
    ensures |Flat(groups[..k + 1])| == |Flat(groups[..k])| + |groups[k]| <= |Flat(groups)|
    ensures Flat(groups)[|Flat(groups[..k])|..|Flat(groups[..k])| + |groups[k]|] == groups[k]
    ensures Distinct(Flat(groups)) ==> Distinct(groups[k])
  {
    var rest := FlatSplit(groups, k + 1);
    FlatNext(groups, k);
    if Distinct(Flat(groups)) {
      hide Distinct, Flat;
      DistinctParts(Flat(groups[..k]), groups[k]);
    }
  }

  lemma GroupAmong(groups: seq<seq<Change>>, n: nat)
    requires n < |groups|
    ensures Among(groups[n], Flat(groups)) && Among(Flat(groups), Flat(groups))
  {
    GroupOf(groups, n);
    hide Flat, Among;
    PieceAmong(Flat(groups), |Flat(groups[..n])|, groups[n]);
  }

  lemma PieceAmong(all: seq<Change>, from: nat, piece: seq<Change>)
    requires from + |piece| <= |all| && all[from..from + |piece|] == piece
    ensures Among(piece, all) && Among(all, all)
  {
    forall i | 0 <= i < |piece| ensures piece[i] in all { assert all[from + i] == all[from..from + |piece|][i]; }
  }

  lemma BeforeOfMiddle(live: map<Path, Meta>, xs: seq<Change>, ys: seq<Change>, rest: seq<Change>)
    requires AllBefore(live, xs + ys + rest)
    ensures AllBefore(live, ys)
  {
    hide Look;
    assert forall i :: 0 <= i < |ys| ==> (xs + ys + rest)[|xs| + i] == ys[i];
  }

  lemma GroupApplied(a: Snap, b: Snap, d: Snap, groups: seq<seq<Change>>, n: nat, s: Status)
    requires n < |groups| && Distinct(Flat(groups)) && Progress(a, b, Flat(groups[..n]))
    requires d.tampered == b.tampered && Elsewhere(b.live, d.live, groups[n])
    requires s == Done ==> Progress(b, d, groups[n])
    ensures d.tampered == a.tampered && Elsewhere(a.live, d.live, Flat(groups[..n + 1]))
    ensures s == Done ==> Progress(a, d, Flat(groups[..n + 1]))
    ensures AllBefore(a.live, Flat(groups)) ==> AllBefore(b.live, groups[n])
  {
    var xs, ys := Flat(groups[..n]), groups[n];
    FlatNext(groups, n);
    var rest := FlatSplit(groups, n + 1);
    hide Flat, Look, Distinct, Progress, Elsewhere;
    ElsewhereJoin(a.live, b.live, d.live, xs, ys);
    if s == Done { ProgressJoin(a, b, d, xs, ys); }
    if AllBefore(a.live, Flat(groups)) {
      BeforeOfMiddle(a.live, xs, ys, rest);
      NextStillBefore(a, b, xs, ys);
    }
  }

  /** A write of ours: a content taken from a live name, or put at a free one. */
  datatype Write = Took(path: Path, content: Meta) | Put(path: Path, content: Meta)

  /** All our writes in order, and the contents they made disappear from live names. */
  datatype Ledger = Ledger(taken: set<(Path, Meta)>, log: seq<Write>)

  /** One of the changes puts this content at this path, forward or back. */
  ghost predicate Intends(changes: seq<Change>, x: (Path, Meta)) {
    exists i :: 0 <= i < |changes| && changes[i].path == x.0 && Some(x.1) in {changes[i].before, changes[i].after}
  }

  /** The write is to a path of these changes, and puts there its old or new content or one taken from it before. */
  ghost predicate WriteFits(changes: seq<Change>, escrow: seq<(Path, Meta)>, write: Write) {
    Touched(changes, write.path) &&
    (write.Put? ==> (write.path, write.content) in escrow || Intends(changes, (write.path, write.content)))
  }

  /** Escrow and log only grew, the log by justified writes. */
  ghost predicate Extends(changes: seq<Change>, escrow: seq<(Path, Meta)>, log: seq<Write>, escrow': seq<(Path,
    Meta)>, log': seq<Write>)
  {
    && escrow <= escrow' && log <= log'
    && forall i :: |log| <= i < |log'| ==> WriteFits(changes, escrow', log'[i])
  }

  /** Consecutive stretches of justified writes, each for some of the changes. */
  lemma ExtendsJoin(all: seq<Change>, a: seq<Change>, b: seq<Change>, e0: seq<(Path, Meta)>, l0: seq<Write>,
    e1: seq<(Path, Meta)>, l1: seq<Write>, e2: seq<(Path, Meta)>, l2: seq<Write>)
    requires Extends(a, e0, l0, e1, l1) && Extends(b, e1, l1, e2, l2) && Among(a, all) && Among(b, all)
    ensures Extends(all, e0, l0, e2, l2)
  {
    forall i | |l0| <= i < |l2| ensures WriteFits(all, e2, l2[i]) {
      if i < |l1| {
        assert l2[i] == l1[i] && WriteFits(a, e1, l1[i]);
        WriteFitsAmong(a, all, e1, e2, l1[i]);
      } else {
        WriteFitsAmong(b, all, e2, e2, l2[i]);
      }
    }
  }

  lemma OneChange(p: Path, before: Content, after: Content)
    ensures Touched([Change(p, before, after)], p)
    ensures after.Some? ==> Intends([Change(p, before, after)], (p, after.value))
  {
    assert [Change(p, before, after)][0].path == p;
  }

  ghost predicate Among(some: seq<Change>, all: seq<Change>) {
    forall i :: 0 <= i < |some| ==> some[i] in all || Change(some[i].path, some[i].after, some[i].before) in all
  }

  lemma ExtendsAmong(all: seq<Change>, a: seq<Change>, e0: seq<(Path, Meta)>, l0: seq<Write>, e1: seq<(Path, Meta)>,
    l1: seq<Write>)
    requires Extends(a, e0, l0, e1, l1) && Among(a, all)
    ensures Extends(all, e0, l0, e1, l1)
  {
    forall i | |l0| <= i < |l1| ensures WriteFits(all, e1, l1[i]) { WriteFitsAmong(a, all, e1, e1, l1[i]); }
  }

  lemma WriteFitsAmong(some: seq<Change>, all: seq<Change>, e: seq<(Path, Meta)>, e': seq<(Path, Meta)>, write: Write)
    requires WriteFits(some, e, write) && Among(some, all) && e <= e'
    ensures WriteFits(all, e', write)
  {
    var i :| 0 <= i < |some| && some[i].path == write.path;
    assert Touched(all, write.path) by {
      var j :| 0 <= j < |all| && (all[j] == some[i] || all[j] == Change(some[i].path, some[i].after, some[i].before));
      assert all[j].path == write.path;
    }
    if write.Put? && Intends(some, (write.path, write.content)) {
      var k :| 0 <= k < |some| && some[k].path == write.path && Some(write.content) in {some[k].before, some[k].after};
      var j :| 0 <= j < |all| && (all[j] == some[k] || all[j] == Change(some[k].path, some[k].after, some[k].before));
      assert all[j].path == write.path && Some(write.content) in {all[j].before, all[j].after};
    }
  }

  /** What one step found, and how many writes were made before. */
  datatype Glance = Glance(snap: Snap, writes: nat)

  /** Look k found the escrow of the path intact, and the next one this content. */
  ghost predicate SeenAt(looks: seq<Glance>, k: nat, p: Path, c: Content)
    requires k + 1 < |looks|
  {
    !(p in looks[k].snap.recorded && p in looks[k].snap.tampered) && Look(looks[k + 1].snap.live, p) == c
  }

  ghost predicate Glimpsed(looks: seq<Glance>, from: nat, p: Path, c: Content) {
    exists k :: from <= k < |looks| - 1 && SeenAt(looks, k, p, c)
  }

  lemma GlimpsedStays(looks: seq<Glance>, more: seq<Glance>, from: nat, p: Path, c: Content)
    requires Glimpsed(looks, from, p, c) && looks <= more
    ensures Glimpsed(more, from, p, c)
  {
    hide Look;
    var k :| from <= k < |looks| - 1 && SeenAt(looks, k, p, c);
    assert SeenAt(more, k, p, c);
  }

  lemma JustSeen(before: seq<Glance>, looks: seq<Glance>, p: Path, c: Content)
    requires before <= looks && |looks| == |before| + 2 && SeenAt(looks, |before|, p, c)
    ensures Glimpsed(looks, |before|, p, c)
  {
  }

  lemma LooksShow(before: seq<Glance>, looks: seq<Glance>, p: Path, c: Content)
    requires |looks| == |before| + 2
    requires !(p in looks[|before|].snap.recorded && p in looks[|before|].snap.tampered)
    requires Look(looks[|before| + 1].snap.live, p) == c
    ensures SeenAt(looks, |before|, p, c)
  {
  }

  lemma StillSeen(changes: seq<Change>, i: nat, from: nat, before: seq<Glance>, looks: seq<Glance>)
    requires i < |changes| && from <= |before| && before <= looks
    requires forall k :: 0 <= k < i ==> Glimpsed(before, from, changes[k].path, changes[k].before)
    requires Glimpsed(looks, |before|, changes[i].path, changes[i].before)
    ensures forall k :: 0 <= k <= i ==> Glimpsed(looks, from, changes[k].path, changes[k].before)
  {
    forall k | 0 <= k < i ensures Glimpsed(looks, from, changes[k].path, changes[k].before) {
      GlimpsedStays(before, looks, from, changes[k].path, changes[k].before);
    }
    GlimpsedEarlier(looks, from, |before|, changes[i].path, changes[i].before);
  }

  lemma AllStillSeen(changes: seq<Change>, i: nat, from: nat, before: seq<Glance>, looks: seq<Glance>)
    requires i < |changes| && from <= |before| && before <= looks
    requires forall k :: 0 <= k < i ==> Glimpsed(before, from, changes[k].path, changes[k].after)
    requires Glimpsed(looks, |before|, changes[i].path, changes[i].after)
    ensures forall k :: 0 <= k <= i ==> Glimpsed(looks, from, changes[k].path, changes[k].after)
  {
    forall k | 0 <= k < i ensures Glimpsed(looks, from, changes[k].path, changes[k].after) {
      GlimpsedStays(before, looks, from, changes[k].path, changes[k].after);
    }
    GlimpsedEarlier(looks, from, |before|, changes[i].path, changes[i].after);
  }

  lemma GlimpsedEarlier(looks: seq<Glance>, from: nat, later: nat, p: Path, c: Content)
    requires from <= later
    ensures Glimpsed(looks, later, p, c) ==> Glimpsed(looks, from, p, c)
  {
  }

  /** For each change, looks since `from` found its escrow intact and its old content. */
  ghost predicate AllGlimpsed(looks: seq<Glance>, from: nat, changes: seq<Change>) {
    forall i :: 0 <= i < |changes| ==> Glimpsed(looks, from, changes[i].path, changes[i].before)
  }

  lemma AllGlimpsedStays(looks: seq<Glance>, more: seq<Glance>, from: nat, from': nat, changes: seq<Change>)
    requires AllGlimpsed(looks, from, changes) && looks <= more && from' <= from
    ensures AllGlimpsed(more, from', changes)
  {
    hide Glimpsed;
    forall i | 0 <= i < |changes| ensures Glimpsed(more, from', changes[i].path, changes[i].before) {
      GlimpsedStays(looks, more, from, changes[i].path, changes[i].before);
      GlimpsedEarlier(more, from', from, changes[i].path, changes[i].before);
    }
  }

  lemma GlimpsedConcat(before: seq<Glance>, looks: seq<Glance>, from: nat, xs: seq<Change>, ys: seq<Change>)
    requires from <= |before| && before <= looks && AllGlimpsed(before, from, xs)
    requires AllGlimpsed(looks, |before|, ys)
    ensures AllGlimpsed(looks, from, xs + ys)
  {
    hide Glimpsed;
    forall i | 0 <= i < |xs + ys| ensures Glimpsed(looks, from, (xs + ys)[i].path, (xs + ys)[i].before) {
      if i < |xs| {
        GlimpsedStays(before, looks, from, xs[i].path, xs[i].before);
      } else {
        GlimpsedEarlier(looks, from, |before|, ys[i - |xs|].path, ys[i - |xs|].before);
      }
    }
  }

  lemma NothingYet(looks: seq<Glance>, from: nat, a: Snap, groups: seq<seq<Change>>, escrow: seq<(Path, Meta)>,
    log: seq<Write>)
    ensures AllGlimpsed(looks, from, Flat([])) && WritesOf(Flat([])) == [] && Progress(a, a, Flat([]))
    ensures Extends(Flat(groups), escrow, log, escrow, log)
  {
  }

  lemma ReadyForGroup(a: Snap, b: Snap, groups: seq<seq<Change>>, n: nat)
    requires n < |groups| && Distinct(Flat(groups)) && Progress(a, b, Flat(groups[..n]))
    ensures AllBefore(a.live, Flat(groups)) ==> AllBefore(b.live, groups[n])
    ensures b.tampered == a.tampered && (b.tampered == {} ==> Clear(b.tampered, groups[n]))
  {
    hide Look, Distinct;
    var xs := Flat(groups[..n]);
    FlatNext(groups, n);
    var rest := FlatSplit(groups, n + 1);
    if AllBefore(a.live, Flat(groups)) {
      BeforeOfMiddle(a.live, xs, groups[n], rest);
      assert Distinct(xs + groups[n]);
      NextStillBefore(a, b, xs, groups[n]);
    }
  }

  /** Only this path was touched. */
  ghost predicate Local(a: Snap, b: Snap, p: Path) {
    && b.tampered == a.tampered && a.mutated <= b.mutated <= a.mutated + {p}
    && forall o :: o != p ==> Look(b.live, o) == Look(a.live, o)
  }

  /** What applying a change can leave behind in a calm world: old, new and known to be ours, or taken and kept. */
  ghost predicate HalfDone(b: Snap, escrow: seq<(Path, Meta)>, c: Change) {
    || Look(b.live, c.path) == c.before
    || (Look(b.live, c.path) == c.after && (c.path in b.mutated || c.before == None))
    || (Look(b.live, c.path) == None && c.path in b.mutated && c.before.Some? && (c.path, c.before.value) in escrow)
  }

  /** The first i changes went through, nobody else having acted, and nothing else was touched. */
  ghost predicate Applying(a: Snap, b: Snap, changes: seq<Change>, i: nat)
    requires i <= |changes|
  {
    && b.tampered == a.tampered && a.mutated <= b.mutated
    && (forall p :: p in b.mutated - a.mutated ==> Touched(changes, p))
    && (forall p :: (forall k :: 0 <= k < i ==> changes[k].path != p) ==> Look(b.live, p) == Look(a.live, p))
    && forall k :: 0 <= k < i ==> Went(a, b, changes[k])
  }

  lemma ApplyingStep(a: Snap, b: Snap, d: Snap, changes: seq<Change>, i: nat)
    requires i < |changes| && Distinct(changes) && Applying(a, b, changes, i)
    requires Local(b, d, changes[i].path) && Went(b, d, changes[i])
    ensures Applying(a, d, changes, i + 1)
  {
    hide Look;
    assert Look(b.live, changes[i].path) == Look(a.live, changes[i].path);
    forall k | 0 <= k < i ensures Went(a, d, changes[k]) { assert changes[k].path != changes[i].path; }
  }

  lemma ApplyingStops(a: Snap, b: Snap, d: Snap, changes: seq<Change>, i: nat, escrow: seq<(Path, Meta)>)
    requires i < |changes| && Distinct(changes) && Applying(a, b, changes, i) && Local(b, d, changes[i].path)
    requires Look(b.live, changes[i].path) == changes[i].before ==> HalfDone(d, escrow, changes[i])
    ensures d.tampered == a.tampered && a.mutated <= d.mutated
    ensures forall p :: p in d.mutated - a.mutated ==> Touched(changes, p)
    ensures Elsewhere(a.live, d.live, changes)
    ensures AllBefore(a.live, changes) ==> forall k :: 0 <= k < |changes| ==> HalfDone(d, escrow, changes[k])
  {
    hide Look;
    if AllBefore(a.live, changes) {
      forall k | 0 <= k < |changes| ensures HalfDone(d, escrow, changes[k]) {
        if k < i { assert Went(a, b, changes[k]); }
        assert k != i ==> changes[k].path != changes[i].path;
      }
    }
  }

  lemma ApplyingEnds(a: Snap, b: Snap, changes: seq<Change>, escrow: seq<(Path, Meta)>)
    requires Distinct(changes) && Applying(a, b, changes, |changes|)
    ensures Progress(a, b, changes)
    ensures forall k :: 0 <= k < |changes| ==> HalfDone(b, escrow, changes[k])
  {
    hide Look;
    forall k | 0 <= k < |changes| ensures HalfDone(b, escrow, changes[k]) { assert Went(a, b, changes[k]); }
  }

  lemma NothingApplied(a: Snap, changes: seq<Change>)
    ensures Applying(a, a, changes, 0)
  {
  }

  lemma ApplyingMutated(a: Snap, b: Snap, changes: seq<Change>)
    requires Applying(a, b, changes, |changes|)
    ensures b.tampered == a.tampered && a.mutated <= b.mutated
    ensures forall p :: p in b.mutated - a.mutated ==> Touched(changes, p)
    ensures Elsewhere(a.live, b.live, changes)
  {
    hide Look;
  }

  lemma NothingExtends(changes: seq<Change>, escrow: seq<(Path, Meta)>, log: seq<Write>)
    ensures Extends(changes, escrow, log, escrow, log) && WritesOf(changes[..0]) == []
  {
  }

  /** Only escrows of planned files were recorded. */
  ghost predicate RecordedOnly(was: set<Path>, recorded: set<Path>, changes: seq<Change>) {
    was <= recorded && forall p :: p in recorded - was ==> Touched(changes, p)
  }

  lemma RecordedStep(was: set<Path>, mid: set<Path>, recorded: set<Path>, changes: seq<Change>, i: nat)
    requires i < |changes| && RecordedOnly(was, mid, changes) && mid <= recorded <= mid + {changes[i].path}
    ensures RecordedOnly(was, recorded, changes)
  {
  }

  lemma NothingRecorded(was: set<Path>, changes: seq<Change>)
    ensures RecordedOnly(was, was, changes)
  {
  }

  lemma OneExtends(changes: seq<Change>, i: nat, e0: seq<(Path, Meta)>, l0: seq<Write>, e1: seq<(Path, Meta)>,
    l1: seq<Write>, e2: seq<(Path, Meta)>, l2: seq<Write>)
    requires i < |changes|
    requires Extends(changes, e0, l0, e1, l1) && Extends([changes[i]], e1, l1, e2, l2)
    ensures Extends(changes, e0, l0, e2, l2)
  {
    hide Extends, Among;
    PieceAmong(changes, i, [changes[i]]);
    ExtendsJoin(changes, changes, [changes[i]], e0, l0, e1, l1, e2, l2);
  }

  lemma StillBefore(a: Snap, b: Snap, changes: seq<Change>, i: nat)
    requires i < |changes| && Distinct(changes) && Applying(a, b, changes, i) && AllBefore(a.live, changes)
    ensures Look(b.live, changes[i].path) == changes[i].before
    ensures Clear(a.tampered, changes) ==> changes[i].path !in b.tampered
  {
    hide Look;
    assert forall k :: 0 <= k < i ==> changes[k].path != changes[i].path;
  }

  /** What one change writes when it goes through. */
  function WritesOfOne(c: Change): seq<Write> {
    if c.before == c.after then []
    else
      (if c.before.Some? then [Took(c.path, c.before.value)] else [])
        + (if c.after.Some? then [Put(c.path, c.after.value)] else [])
  }

  /** What applying the changes writes when all of them go through. */
  function WritesOf(changes: seq<Change>): seq<Write> {
    if changes == [] then [] else WritesOf(changes[..|changes| - 1]) + WritesOfOne(changes[|changes| - 1])
  }

  lemma {:induction false} WritesOfConcat(xs: seq<Change>, ys: seq<Change>)
    ensures WritesOf(xs + ys) == WritesOf(xs) + WritesOf(ys)
    decreases |ys|
  {
    hide WritesOfOne;
    if ys == [] {
      assert xs + ys == xs;
    } else {
      var n := |ys| - 1;
      assert (xs + ys)[..|xs + ys| - 1] == xs + ys[..n];
      WritesOfConcat(xs, ys[..n]);
    }
  }

  lemma WritesOfNext(changes: seq<Change>, i: nat)
    requires i < |changes|
    ensures WritesOf(changes[..i + 1]) == WritesOf(changes[..i]) + WritesOfOne(changes[i])
    ensures WritesOf(changes[..|changes|]) == WritesOf(changes)
  {
    assert changes[..i + 1][..i] == changes[..i] && changes[..|changes|] == changes;
  }

  /** The changes from `i` on were seen with their old content. */
  ghost predicate SeenFrom(looks: seq<Glance>, from: nat, changes: seq<Change>, i: nat) {
    forall k :: i <= k < |changes| ==> Glimpsed(looks, from, changes[k].path, changes[k].before)
  }

  lemma RestSeen(changes: seq<Change>, i: nat, from: nat, before: seq<Glance>, looks: seq<Glance>)
    requires i < |changes| && from <= |before| && before <= looks
    requires SeenFrom(before, from, changes, i + 1)
    requires Glimpsed(looks, |before|, changes[i].path, changes[i].before)
    ensures SeenFrom(looks, from, changes, i)
  {
    hide Glimpsed;
    forall k | i <= k < |changes| ensures Glimpsed(looks, from, changes[k].path, changes[k].before) {
      if k > i {
        GlimpsedStays(before, looks, from, changes[k].path, changes[k].before);
      } else {
        GlimpsedEarlier(looks, from, |before|, changes[i].path, changes[i].before);
      }
    }
  }

  lemma GroupSeen(groups: seq<seq<Change>>, k: nat, from: nat, before: seq<Glance>, looks: seq<Glance>)
    requires k < |groups| && from <= |before| && before <= looks
    requires SeenFrom(before, from, Flat(groups), |Flat(groups[..k + 1])|)
    requires AllGlimpsed(looks, |before|, groups[k])
    ensures |Flat(groups[..k])| <= |Flat(groups)| && SeenFrom(looks, from, Flat(groups), |Flat(groups[..k])|)
  {
    FlatNext(groups, k);
    var rest := FlatSplit(groups, k + 1);
    var xs, ys := Flat(groups[..k]), groups[k];
    assert Flat(groups) == xs + ys + rest;
    hide Glimpsed, Flat;
    forall i | |xs| <= i < |Flat(groups)|
      ensures Glimpsed(looks, from, Flat(groups)[i].path, Flat(groups)[i].before)
    {
      if i < |xs| + |ys| {
        assert Flat(groups)[i] == ys[i - |xs|];
        GlimpsedEarlier(looks, from, |before|, ys[i - |xs|].path, ys[i - |xs|].before);
      } else {
        GlimpsedStays(before, looks, from, Flat(groups)[i].path, Flat(groups)[i].before);
      }
    }
  }

  /** What a finished replacement saw last. */
  lemma ArrivedSeen(looks: seq<Glance>, from: nat, p: Path, c: Content, last: Glance)
    requires |looks| >= from + 2 && looks[|looks| - 1] == last && Look(last.snap.live, p) == c
    requires !(p in looks[|looks| - 2].snap.recorded && p in looks[|looks| - 2].snap.tampered)
    ensures Glimpsed(looks, from, p, c)
  {
    assert SeenAt(looks, |looks| - 2, p, c);
  }

  class LiveFiles {
    var live: map<Path, Meta>
    /** What was taken from live names; never deleted from. */
    var escrow: seq<(Path, Meta)>
    /** Per planned path: it was changed by us, and its taken content was checked and recorded. */
    var mutated: set<Path>
    var recorded: set<Path>
    /** Escrowed files that somebody still wrote to through an open descriptor. */
    var tampered: set<Path>
    /** Everything our writes did. */
    ghost var ledger: Ledger
    /** What each step found when it got its turn. */
    ghost var looks: seq<Glance>
    /** The process died. */
    ghost var dead: bool

    constructor (files: map<Path, Meta>)
      ensures live == files && escrow == [] && mutated == {} && recorded == {} && tampered == {} &&
        ledger == Ledger({}, []) && looks == [] && !dead
    {
      live, escrow, mutated, recorded, tampered, ledger, looks := files, [], {}, {}, {}, Ledger({}, []), [];
      dead := false;
    }

    ghost function Now(): Glance
      reads this
    {
      Glance(State(), |ledger.log|)
    }

    /** Every content that a write of ours removed from a live name is in escrow. */
    ghost predicate NothingDestroyed()
      reads this
    {
      forall x :: x in ledger.taken ==> x in escrow
    }

    /** Whatever other programs did: all our writes since are justified by these changes. */
    twostate predicate WroteOnly(changes: seq<Change>)
      reads this
    {
      Extends(changes, old(escrow), old(ledger.log), escrow, ledger.log)
    }

    /** The escrow of a path still holds what was recorded for it. */
    predicate EscrowHolds(p: Path)
      reads this
    {
      !(p in recorded && p in tampered)
    }

    ghost function State(): Snap
      reads this
    {
      Snap(live, mutated, recorded, tampered)
    }

    /** Fresh bindings for a plan. */
    method Bind()
      modifies this
      ensures live == old(live) && escrow == old(escrow) && ledger == old(ledger) && looks == old(looks)
      ensures dead == old(dead) && mutated == {} && recorded == {} && tampered == {}
    {
      mutated, recorded, tampered := {}, {}, {};
    }

    /**
      Between two steps anything can happen to the files, unless the world is calm; a call can fail, unless it
      is sound.
    */
    method Tick(w: World) returns (s: Status)
      requires !dead
      modifies this
      ensures dead <==> s == Killed
      ensures escrow == old(escrow) && mutated == old(mutated) && recorded == old(recorded) && ledger == old(ledger)
      ensures w.calm ==> live == old(live) && tampered == old(tampered)
      ensures looks == old(looks) + [Now()]
      ensures w.sound ==> s == Done
    {
      if !w.calm {
        live, tampered := *, *;
      }
      looks := looks + [Now()];
      s := Done;
      if !w.sound {
        if * { s := Failed; } else if * { s := Killed; }
      }
      dead := s == Killed;
    }

    /** `os.rename` of the live leaf into the private escrow, then the fsyncs. */
    method Capture(p: Path, w: World) returns (s: Status, got: Content)
      requires NothingDestroyed()
      requires !dead
      modifies this
      ensures dead <==> s == Killed
      ensures NothingDestroyed() && old(escrow) <= escrow && recorded == old(recorded)
      ensures s == Done ==> got.Some? && p in mutated
      ensures got.Some? ==> p in mutated && (p, got.value) in escrow
      ensures mutated <= old(mutated) + {p} && old(mutated) <= mutated
      ensures w.calm && got.Some? ==> p in old(live) && got == Some(old(live)[p]) && live == old(live) - {p}
      ensures w.calm && got.None? ==> live == old(live) && mutated == old(mutated)
      ensures w.calm ==> tampered == old(tampered)
      ensures w.calm && w.sound && p in old(live) ==> s == Done
      ensures old(looks) <= looks
      ensures w.sound ==> s != Killed
      ensures ledger.log == if got.Some? then old(ledger.log) + [Took(p, got.value)] else old(ledger.log)
      ensures ledger.taken == if got.Some? then old(ledger.taken) + {(p, got.value)} else old(ledger.taken)
    {
      got := None;
      s := Tick(w);
      if s != Done { return; }
      if p !in live { return Failed, None; }
      ghost var before := live;
      got := Some(live[p]);
      escrow := escrow + [(p, live[p])];
      live := live - {p};
      ledger := Ledger(ledger.taken + Lost(before, live), ledger.log + [Took(p, before[p])]);
      mutated := mutated + {p};
      if !w.sound {
        if * { s := Failed; } else if * { s := Killed; }
      }
      dead := s == Killed;
    }

    /** `os.link` never replaces an existing name; the fsync after it may still fail. */
    method Link(p: Path, m: Meta, w: World) returns (s: Status)
      requires NothingDestroyed()
      requires !dead
      modifies this
      ensures dead <==> s == Killed
      ensures NothingDestroyed() && escrow == old(escrow) && mutated == old(mutated) && recorded == old(recorded)
      ensures w.calm ==> live == old(live) || (p !in old(live) && live == old(live)[p := m])
      ensures w.calm && s == Done ==> Look(live, p) == Some(m) && p !in old(live)
      ensures w.calm && p in old(live) ==> s != Done
      ensures w.calm ==> tampered == old(tampered)
      ensures w.calm && w.sound && p !in old(live) ==> s == Done
      ensures old(looks) <= looks
      ensures w.sound ==> s != Killed
      ensures ledger.taken == old(ledger.taken) && (w.sound ==> p in live)
      ensures ledger.log == old(ledger.log) || ledger.log == old(ledger.log) + [Put(p, m)]
      ensures s == Done ==> ledger.log == old(ledger.log) + [Put(p, m)]
    {
      s := Tick(w);
      if s != Done { return; }
      if p in live { return Failed; }
      ghost var before := live;
      live := live[p := m];
      ledger := Ledger(ledger.taken + Lost(before, live), ledger.log + [Put(p, m)]);
      if !w.sound {
        if * { s := Failed; } else if * { s := Killed; }
      }
      dead := s == Killed;
    }

    method Current(p: Path, w: World) returns (s: Status, content: Content)
      requires !dead
      modifies this
      ensures dead <==> s == Killed
      ensures escrow == old(escrow) && mutated == old(mutated) && recorded == old(recorded) && ledger == old(ledger)
      ensures w.calm ==> live == old(live) && tampered == old(tampered)
      ensures w.sound ==> s == Done
      ensures looks == old(looks) + [Now()]
      ensures content == Look(live, p)
    {
      s := Tick(w);
      content := Look(live, p);
    }

    method VerifyEscrow(p: Path, w: World) returns (s: Status)
      requires !dead
      modifies this
      ensures dead <==> s == Killed
      ensures escrow == old(escrow) && mutated == old(mutated) && recorded == old(recorded) && ledger == old(ledger)
      ensures w.calm ==> live == old(live) && tampered == old(tampered)
      ensures looks == old(looks) + [Now()]
      ensures s == Done ==> EscrowHolds(p)
      ensures w.calm && w.sound ==> s == if EscrowHolds(p) then Done else Failed
      ensures w.sound ==> s != Killed
    {
      s := Tick(w);
      if s == Done && !EscrowHolds(p) { s := Failed; }
    }

    /** Where one replacement of `expected` by `desired` can leave the file when nobody else acts. */
    ghost predicate Between(p: Path, was: map<Path, Meta>, mine: set<Path>, expected: Content, desired: Content)
      reads this
    {
      && (forall o :: o != p ==> Look(live, o) == Look(was, o))
      && mine <= mutated <= mine + {p}
      && (Look(was, p) != expected ==> live == was && mutated == mine)
      && (Look(was, p) == expected ==>
            || Look(live, p) == expected
            || (Look(live, p) == desired && (p in mutated || expected == None))
            || (Look(live, p) == None && p in mutated && (p, expected.value) in escrow))
    }

    /**
      What one replacement may have written: the file is taken once, what is put in its
      place is the new content if the old one was found there, and otherwise only what
      was taken is put back.
    */
    ghost predicate Exchanges(p: Path, expected: Content, desired: Content, log: seq<Write>, log': seq<Write>) {
      || log' == log
      || (expected.None? && desired.Some? && log' == log + [Put(p, desired.value)])
      || (expected.Some? && exists x ::
            || log' == log + [Took(p, x)]
            || log' == log + [Took(p, x)] + [Put(p, x)]
            || (x == expected.value && desired.Some? && log' == log + [Took(p, x)] + [Put(p, desired.value)])
            || (x == expected.value && desired.Some? &&
                log' == log + [Took(p, x)] + [Put(p, desired.value)] + [Put(p, x)]))
    }

    /** What was written before anything is put back, `got` being what was taken. */
    ghost predicate TookAndPut(p: Path, expected: Content, desired: Content, got: Content, log: seq<Write>,
      log': seq<Write>)
    {
      match got
      case None => log' == log || (expected.None? && desired.Some? && log' == log + [Put(p, desired.value)])
      case Some(x) =>
        && expected.Some?
        && (|| log' == log + [Took(p, x)]
            || (got == expected && desired.Some? && log' == log + [Took(p, x)] + [Put(p, desired.value)]))
    }

    /** What a finished replacement wrote. */
    ghost predicate Exchanged(p: Path, expected: Content, desired: Content, log: seq<Write>, log': seq<Write>) {
      log' == log + (if expected.Some? then [Took(p, expected.value)] else [])
                  + (if desired.Some? then [Put(p, desired.value)] else [])
    }

    /** The last look but one since `from` found the escrow intact, and the last one this content, as it is now. */
    ghost predicate Arrived(p: Path, c: Content, from: nat)
      reads this
    {
      && |looks| >= from + 2 && !(p in looks[|looks| - 2].snap.recorded && p in looks[|looks| - 2].snap.tampered)
      && looks[|looks| - 1] == Now() && looks[|looks| - 2].writes == |ledger.log| && Look(live, p) == c
    }

    /** The name gets the new content, or must still be free. */
    method Occupy(p: Path, desired: Content, w: World) returns (s: Status)
      requires NothingDestroyed()
      requires !dead
      modifies this
      ensures dead <==> s == Killed
      ensures NothingDestroyed() && escrow == old(escrow) && recorded == old(recorded) && old(looks) <= looks
      ensures old(mutated) <= mutated <= old(mutated) + {p}
      ensures ledger.log == old(ledger.log) ||
        (desired.Some? && ledger.log == old(ledger.log) + [Put(p, desired.value)])
      ensures s == Done ==>
        ledger.log == old(ledger.log) + (if desired.Some? then [Put(p, desired.value)] else [])
      ensures s == Done && desired.Some? ==> p in mutated
      ensures w.calm ==> tampered == old(tampered)
      ensures w.calm ==>
        live == old(live) || (desired.Some? && p !in old(live) && live == old(live)[p := desired.value])
      ensures w.calm && s == Done ==> p !in old(live) && Look(live, p) == desired
      ensures w.calm && w.sound && p !in old(live) ==> s == Done
      ensures w.sound ==> s != Killed
    {
      if desired.Some? {
        s := Link(p, desired.value, w);
        if s != Done { return; }
        mutated := mutated + {p};
      } else {
        var now;
        s, now := Current(p, w);
        if s == Done && now != None { s := Failed; }
      }
    }

    /** The core of a replacement; `got` is what was captured, for the exception handler. */
    method Swap(p: Path, expected: Content, desired: Content, w: World) returns (s: Status, got: Content)
      requires NothingDestroyed()
      requires !dead
      modifies this
      ensures dead <==> s == Killed
      ensures NothingDestroyed() && old(escrow) <= escrow && old(recorded) <= recorded <= old(recorded) + {p}
      ensures got.Some? ==> p in mutated && (p, got.value) in escrow
      ensures recorded != old(recorded) ==> got.Some? && got == expected
      ensures old(looks) <= looks
      ensures TookAndPut(p, expected, desired, got, old(ledger.log), ledger.log)
      ensures s == Done ==> Exchanged(p, expected, desired, old(ledger.log), ledger.log)
      ensures s == Done ==> Arrived(p, desired, |old(looks)|)
      ensures w.calm ==> tampered == old(tampered)
      ensures w.calm && got.Some? ==> got == Look(old(live), p)
      ensures w.calm && Look(old(live), p) == expected && expected != desired ==>
        Between(p, old(live), old(mutated), expected, desired)
      ensures w.calm && Look(old(live), p) == expected && expected != desired && s == Done ==>
        Look(live, p) == desired && p in mutated
      ensures w.calm && w.sound && Look(old(live), p) == expected && p !in tampered ==> s == Done
      ensures w.sound ==> s != Killed
      ensures WroteOnly([Change(p, expected, desired)])
    {
      hide Touched, Intends;
      OneChange(p, expected, desired);
      got := None;
      if expected.Some? {
        s, got := Capture(p, w);
        if s != Done { return; }
        if got != expected { return Failed, got; }
        recorded := recorded + {p};
      }
      s := Occupy(p, desired, w);
      if s != Done { return; }
      s := VerifyEscrow(p, w);
      if s != Done { return; }
      var now;
      s, now := Current(p, w);
      if s == Done && now != desired { s := Failed; }
    }

    /** `ProjectionPath.replace`: compare, escrow, publish; put the captured file back if anything goes wrong. */
    method Replace(p: Path, expected: Content, desired: Content, w: World) returns (s: Status)
      requires NothingDestroyed()
      requires !dead
      modifies this
      ensures dead <==> s == Killed
      ensures NothingDestroyed() && old(escrow) <= escrow && old(recorded) <= recorded <= old(recorded) + {p}
      ensures |old(looks)| < |looks| && old(looks) <= looks
      ensures Exchanges(p, expected, desired, old(ledger.log), ledger.log)
      ensures ledger.log != old(ledger.log) ==> Look(looks[|old(looks)|].snap.live, p) == expected
      ensures w.sound && s == Failed && expected.Some? && ledger.log != old(ledger.log) ==> p in live
      ensures s == Done && expected != desired ==>
        Exchanged(p, expected, desired, old(ledger.log), ledger.log) && Arrived(p, desired, |old(looks)|)
      ensures s == Done && expected == desired ==> ledger.log == old(ledger.log) && Look(live, p) == desired
      ensures w.calm ==> tampered == old(tampered)
      ensures w.calm ==> Between(p, old(live), old(mutated), expected, desired)
      ensures w.calm && s == Done ==>
        Look(old(live), p) == expected && Look(live, p) == desired && (expected != desired ==> p in mutated)
      ensures w.calm && w.sound && p !in tampered ==> (s == Done <==> Look(old(live), p) == expected)
      ensures w.sound ==> s != Killed
      ensures WroteOnly([Change(p, expected, desired)])
    {
      hide Touched, Intends;
      OneChange(p, expected, desired);
      var now;
      s, now := Current(p, w);
      if s != Done { return; }
      if now != expected { return Failed; }
      if expected == desired { return; }
      s := Tick(w);
      if s != Done { return; }
      var got;
      s, got := Swap(p, expected, desired, w);
      if s == Failed && got.Some? {
        var back := Link(p, got.value, w);
        if back == Killed { s := Killed; }
      }
    }

    /** `_apply_projection`. */
    method Apply(changes: seq<Change>, w: World) returns (s: Status)
      requires NothingDestroyed() && Distinct(changes)
      requires !dead
      modifies this
      ensures dead <==> s == Killed
      ensures NothingDestroyed() && old(escrow) <= escrow
      ensures RecordedOnly(old(recorded), recorded, changes)
      ensures w.calm ==> tampered == old(tampered) && old(mutated) <= mutated
      ensures w.calm ==> forall p :: p in mutated - old(mutated) ==> Touched(changes, p)
      ensures w.calm ==> Elsewhere(old(live), live, changes)
      ensures w.calm && s == Done ==> Progress(old(State()), State(), changes)
      ensures w.calm && AllBefore(old(live), changes) ==>
        forall i :: 0 <= i < |changes| ==> HalfDone(State(), escrow, changes[i])
      ensures w.calm && w.sound && AllBefore(old(live), changes) && Clear(tampered, changes) ==> s == Done
      ensures w.sound ==> s != Killed
      ensures old(looks) <= looks
      ensures s == Done ==> ledger.log == old(ledger.log) + WritesOf(changes)
      ensures s == Done ==> AllGlimpsed(looks, |old(looks)|, changes)
      ensures WroteOnly(changes)
    {
      hide Look, SeenAt, Glimpsed, WriteFits, Extends, Applying, Local, HalfDone, Went, Progress, Elsewhere, AllBefore,
        Distinct, Among, RecordedOnly, WritesOf;
      s := Done;
      ghost var a := State();
      NothingApplied(a, changes);
      NothingRecorded(recorded, changes);
      NothingExtends(changes, escrow, ledger.log);
      for i := 0 to |changes|
        invariant s == Done && !dead
        invariant NothingDestroyed() && old(escrow) <= escrow
        invariant WroteOnly(changes) && old(looks) <= looks
        invariant ledger.log == old(ledger.log) + WritesOf(changes[..i])
        invariant forall k :: 0 <= k < i ==> Glimpsed(looks, |old(looks)|, changes[k].path, changes[k].before)
        invariant RecordedOnly(old(recorded), recorded, changes)
        invariant w.calm ==> Applying(a, State(), changes, i)
      {
        ghost var b, before, e, l, r := State(), looks, escrow, ledger.log, recorded;
        if w.calm && AllBefore(a.live, changes) { StillBefore(a, b, changes, i); }
        s := ApplyOne(changes[i], w);
        OneExtends(changes, i, old(escrow), old(ledger.log), e, l, escrow, ledger.log);
        RecordedStep(old(recorded), r, recorded, changes, i);
        if s != Done {
          if w.calm { ApplyingStops(a, b, State(), changes, i, escrow); }
          return;
        }
        if w.calm { ApplyingStep(a, b, State(), changes, i); }
        StillSeen(changes, i, |old(looks)|, before, looks);
        WritesOfNext(changes, i);
      }
      if changes != [] { WritesOfNext(changes, 0); }
      if w.calm {
        ApplyingEnds(a, State(), changes, escrow);
        ProgressMeans(a, State(), changes);
        ApplyingMutated(a, State(), changes);
      }
    }

    /** One round of the loop: the escrow and the old content are checked, then the file is replaced. */
    method ApplyOne(c: Change, w: World) returns (s: Status)
      requires NothingDestroyed()
      requires !dead
      modifies this
      ensures dead <==> s == Killed
      ensures NothingDestroyed() && old(escrow) <= escrow && old(recorded) <= recorded <= old(recorded) + {c.path}
      ensures WroteOnly([c]) && old(looks) <= looks
      ensures s == Done ==> ledger.log == old(ledger.log) + WritesOfOne(c)
      ensures s == Done ==> Glimpsed(looks, |old(looks)|, c.path, c.before)
      ensures w.calm ==> tampered == old(tampered)
      ensures w.calm ==> Local(old(State()), State(), c.path)
      ensures w.calm && Look(old(live), c.path) == c.before ==> HalfDone(State(), escrow, c)
      ensures w.calm && s == Done ==> Went(old(State()), State(), c)
      ensures w.calm && w.sound && Look(old(live), c.path) == c.before && c.path !in tampered ==> s == Done
      ensures w.sound ==> s != Killed
    {
      hide Look, Intends, SeenAt, Glimpsed;
      ghost var before := looks;
      s := VerifyEscrow(c.path, w);
      if s != Done { return; }
      var now;
      s, now := Current(c.path, w);
      if s != Done { return; }
      if now != c.before { return Failed; }
      assert SeenAt(looks, |before|, c.path, c.before) by { LooksShow(before, looks, c.path, c.before); }
      JustSeen(before, looks, c.path, c.before);
      ghost var seen := looks;
      s := Replace(c.path, c.before, c.after, w);
      GlimpsedStays(seen, looks, |before|, c.path, c.before);
    }

    /**
     * One iteration of `_rollback_projection`: leave an old file alone, put the old content in
     * place of a new one that is ours, and report anything else as drift without touching it.
     */
    method RollBackOne(c: Change, w: World) returns (s: Status)
      requires NothingDestroyed()
      requires !dead
      modifies this
      ensures dead <==> s == Killed
      ensures NothingDestroyed() && old(escrow) <= escrow
      ensures WroteOnly([c])
      ensures old(looks) <= looks
      ensures s == Done ==> Look(live, c.path) == c.before && Glimpsed(looks, |old(looks)|, c.path, c.before)
      ensures ledger.log != old(ledger.log) ==>
        c.path in old(mutated) && Glimpsed(looks, |old(looks)|, c.path, c.after) &&
        Exchanges(c.path, c.after, c.before, old(ledger.log), ledger.log)
      ensures w.calm ==> OneUndone(old(State()), State(), c, w, s)
      ensures w.sound ==> s != Killed
    {
      ghost var before := looks;
      s := VerifyEscrow(c.path, w);
      if s != Done { return; }
      var now;
      s, now := Current(c.path, w);
      if s != Done { return; }
      JustSeen(before, looks, c.path, now);
      if now == c.before { return; }
      if c.path !in mutated || now != c.after { return Failed; }
      ghost var seen := looks;
      s := Replace(c.path, c.after, c.before, w);
      if s == Done { ArrivedSeen(looks, |before|, c.path, c.before, Now()); }
      GlimpsedStays(seen, looks, |before|, c.path, c.after);
      ExtendsAmong([c], [Change(c.path, c.after, c.before)], old(escrow), old(ledger.log), escrow, ledger.log);
    }

    /** `_rollback_projection`: in reverse order, going on after a drift. */
    method RollBack(changes: seq<Change>, w: World) returns (s: Status, ghost reached: nat)
      requires NothingDestroyed() && Distinct(changes)
      requires !dead
      modifies this
      ensures dead <==> s == Killed
      ensures NothingDestroyed() && old(escrow) <= escrow && WroteOnly(changes)
      ensures old(looks) <= looks
      ensures w.calm ==> RestoresOrPreserves(old(State()), State(), changes, w, s)
      ensures s == Done ==> AllGlimpsed(looks, |old(looks)|, changes)
      ensures reached <= |changes| && (reached == 0 || s == Killed)
      ensures w.calm ==> UndoneFrom(old(State()), State(), changes, reached, w, s)
      ensures w.sound ==> s != Killed
    {
      s := Done;
      var i := |changes|;
      while i > 0
        invariant 0 <= i <= |changes|
        invariant NothingDestroyed() && old(escrow) <= escrow && s != Killed && WroteOnly(changes)
        invariant old(looks) <= looks && !dead
        invariant s == Done ==> SeenFrom(looks, |old(looks)|, changes, i)
        invariant w.calm ==> UndoneFrom(old(State()), State(), changes, i, w, s)
      {
        hide Undone, UndoneFrom, OneUndone, Distinct, RestoresOrPreserves, WriteFits, Extends, Glimpsed, SeenFrom;
        i := i - 1;
        ghost var seen := looks;
        ghost var b, e, l := State(), escrow, ledger.log;
        var one := RollBackOne(changes[i], w);
        ExtendsJoin(changes, changes, [changes[i]], old(escrow), old(ledger.log), e, l, escrow, ledger.log);
        if w.calm { UndoneNext(old(State()), b, State(), changes, i, w, s, one); }
        if s == Done && one == Done { RestSeen(changes, i, |old(looks)|, seen, looks); }
        if one != Done { s := one; }
        if s == Killed {
          reached := i;
          if w.calm { UndoneMeansRolledBack(old(State()), State(), changes, i, w, s); }
          return;
        }
      }
      reached := 0;
      if w.calm { UndoneMeansRolledBack(old(State()), State(), changes, 0, w, s); }
    }

    /** The groups of a plan one after the other; `n` of them were begun. */
    method ApplyAll(groups: seq<seq<Change>>, w: World) returns (s: Status, n: nat)
      requires NothingDestroyed() && Distinct(Flat(groups))
      requires !dead
      modifies this
      ensures dead <==> s == Killed
      ensures NothingDestroyed() && old(escrow) <= escrow && n <= |groups| && WroteOnly(Flat(groups))
      ensures old(looks) <= looks
      ensures s == Done ==> ledger.log == old(ledger.log) + WritesOf(Flat(groups))
      ensures s == Done ==> AllGlimpsed(looks, |old(looks)|, Flat(groups))
      ensures w.calm ==> tampered == old(tampered) && Elsewhere(old(live), live, Flat(groups[..n]))
      ensures s == Done ==> n == |groups|
      ensures w.calm && s == Done ==> Progress(old(State()), State(), Flat(groups))
      ensures w.calm && w.sound && AllBefore(old(live), Flat(groups)) && tampered == {} ==> s == Done
      ensures w.sound ==> s != Killed
    {
      hide Progress, Distinct, Flat, AllBefore, Elsewhere, Extends, WritesOf, AllGlimpsed, RecordedOnly, Glimpsed,
        HalfDone, Look, Touched, Clear;
      n, s := 0, Done;
      assert groups[..0] == [];
      ghost var a := State();
      NothingYet(looks, |looks|, a, groups, escrow, ledger.log);
      while n < |groups|
        invariant n <= |groups| && s == Done && NothingDestroyed() && old(escrow) <= escrow && WroteOnly(Flat(groups))
        invariant !dead && old(looks) <= looks && ledger.log == old(ledger.log) + WritesOf(Flat(groups[..n]))
        invariant AllGlimpsed(looks, |old(looks)|, Flat(groups[..n]))
        invariant w.calm ==> Progress(a, State(), Flat(groups[..n]))
      {
        ghost var before := looks;
        ghost var was, xs, e, l := State(), Flat(groups[..n]), escrow, ledger.log;
        if w.calm { ReadyForGroup(a, was, groups, n); }
        FlatNext(groups, n);
        DistinctParts(xs, groups[n]);
        s := Apply(groups[n], w);
        GroupAmong(groups, n);
        ExtendsJoin(Flat(groups), Flat(groups), groups[n], old(escrow), old(ledger.log), e, l, escrow, ledger.log);
        if w.calm { GroupApplied(a, was, State(), groups, n, s); }
        n := n + 1;
        if s != Done {
          return;
        }
        WritesOfConcat(xs, groups[n - 1]);
        GlimpsedConcat(before, looks, |old(looks)|, xs, groups[n - 1]);
      }
      assert groups[..n] == groups;
      if w.calm { ProgressMeans(a, State(), Flat(groups)); }
    }

    /** The exception handler of a deploy: every begun group, the last one first, going on after a drift. */
    method RollBackAll(groups: seq<seq<Change>>, w: World) returns (s: Status)
      requires NothingDestroyed() && Distinct(Flat(groups))
      requires !dead
      modifies this
      ensures dead <==> s == Killed
      ensures NothingDestroyed() && old(escrow) <= escrow && WroteOnly(Flat(groups))
      ensures old(looks) <= looks
      ensures s == Done ==> AllGlimpsed(looks, |old(looks)|, Flat(groups))
      ensures w.calm ==> RestoresOrPreserves(old(State()), State(), Flat(groups), w, s)
      ensures w.sound ==> s != Killed
    {
      s := Done;
      var k := |groups|;
      assert groups[..k] == groups;
      while k > 0
        invariant k <= |groups| && NothingDestroyed() && old(escrow) <= escrow && s != Killed && WroteOnly(Flat(groups))
        invariant old(looks) <= looks && !dead
        invariant s == Done ==> SeenFrom(looks, |old(looks)|, Flat(groups), |Flat(groups[..k])|)
        invariant |Flat(groups[..k])| <= |Flat(groups)|
        invariant w.calm ==> UndoneFrom(old(State()), State(), Flat(groups), |Flat(groups[..k])|, w, s)
      {
        hide Flat, UndoneFrom, Distinct, RestoresOrPreserves, Extends, Glimpsed, SeenFrom, AllGlimpsed;
        k := k - 1;
        ghost var seen := looks;
        ghost var b, e, l := State(), escrow, ledger.log;
        GroupOf(groups, k);
        var one;
        ghost var reached;
        one, reached := RollBack(groups[k], w);
        GroupAmong(groups, k);
        ExtendsJoin(Flat(groups), Flat(groups), groups[k], old(escrow), old(ledger.log), e, l, escrow, ledger.log);
        if w.calm {
          UndoneJoin(old(State()), b, State(), Flat(groups), |Flat(groups[..k])|, groups[k], reached, w, s, one);
        }
        if s == Done && one == Done { GroupSeen(groups, k, |old(looks)|, seen, looks); }
        if one != Done { s := one; }
        if s == Killed {
          if w.calm { UndoneMeansRolledBack(old(State()), State(), Flat(groups), |Flat(groups[..k])| + reached, w, s); }
          return;
        }
      }
      assert groups[..0] == [];
      if w.calm { UndoneMeansRolledBack(old(State()), State(), Flat(groups), 0, w, s); }
    }

    /** `_assert_projection_current(changes, 'new')`. */
    method AssertNew(changes: seq<Change>, w: World) returns (s: Status)
      requires !dead
      modifies this
      ensures dead <==> s == Killed
      ensures escrow == old(escrow) && ledger == old(ledger) && mutated == old(mutated) && recorded == old(recorded)
      ensures old(looks) <= looks
      ensures s == Done ==>
        forall i :: 0 <= i < |changes| ==> Glimpsed(looks, |old(looks)|, changes[i].path, changes[i].after)
      ensures w.calm ==> State() == old(State())
      ensures w.calm && s == Done ==> AllAfter(live, changes)
      ensures w.calm && w.sound && tampered == {} && AllAfter(live, changes) ==> s == Done
      ensures w.sound ==> s != Killed
    {
      s := Done;
      for i := 0 to |changes|
        invariant escrow == old(escrow) && ledger == old(ledger) && mutated == old(mutated) &&
          recorded == old(recorded) && s == Done && !dead
        invariant old(looks) <= looks
        invariant forall k :: 0 <= k < i ==> Glimpsed(looks, |old(looks)|, changes[k].path, changes[k].after)
        invariant w.calm ==> State() == old(State())
        invariant w.calm ==> forall k :: 0 <= k < i ==> Look(live, changes[k].path) == changes[k].after
      {
        hide Look, SeenAt, Glimpsed;
        ghost var before := looks;
        s := VerifyEscrow(changes[i].path, w);
        if s != Done { return; }
        var now;
        s, now := Current(changes[i].path, w);
        if s != Done { return; }
        if now != changes[i].after { return Failed; }
        JustSeen(before, looks, changes[i].path, changes[i].after);
        AllStillSeen(changes, i, |old(looks)|, before, looks);
      }
    }
  }
}
