/**
 * The multi-file policy installer of ops/hotfixes/apply_founding_policy_20260907.py: plan against
 * pinned digests, replace the files one by one, verify, and roll back in reverse on a failure.
 *
 * Digests are compared as the bytes they stand for. Between two steps other programs may change the
 * files unless the world is calm; a step may fail or kill the process unless it is sound.
 */
module PolicyInstall {
  import opened Wrappers

  datatype File = File(data: string, mode: nat)
  type Content = Option<File>

  /** The pinned manifest entry of one target. */
  datatype Spec = Spec(before: Option<string>, after: string, mode: nat)
  type Manifest = map<string, Spec>

  datatype Item = Item(rel: string, before: Content, after: File)
  datatype World = World(calm: bool, sound: bool)
  datatype Status = Done | Failed | Killed
  datatype Outcome = AlreadyApplied | Installed | Refused | RolledBack | RollbackStopped | Crashed

  /** A write: what it put where, and what the installer had last read there. */
  datatype Write = Write(rel: string, read: Content, written: Content)

  function Read(files: map<string, File>, rel: string): Content {
    if rel in files then Some(files[rel]) else None
  }

  function Put(files: map<string, File>, rel: string, c: Content): map<string, File> {
    if c.Some? then files[rel := c.value] else files - {rel}
  }

  function Old(spec: Spec): Content {
    if spec.before.Some? then Some(File(spec.before.value, spec.mode)) else None
  }

  function New(spec: Spec): Content {
    Some(File(spec.after, spec.mode))
  }

  /** Every target is exactly as before the installation or exactly as after it. */
  ghost predicate Mixed(specs: Manifest, files: map<string, File>) {
    forall rel :: rel in specs ==> Read(files, rel) == Old(specs[rel]) || Read(files, rel) == New(specs[rel])
  }

  predicate AllNew(specs: Manifest, files: map<string, File>) {
    forall rel :: rel in specs ==> Read(files, rel) == New(specs[rel])
  }

  /** The reviewed source delivered exactly the pinned bytes. */
  predicate Genuine(specs: Manifest, payload: map<string, string>) {
    forall rel :: rel in specs ==> rel in payload && payload[rel] == specs[rel].after
  }

  /** The write was made on a file last seen as its pinned preimage or as this run's postimage. */
  ghost predicate Justified(specs: Manifest, w: Write) {
    w.rel in specs && w.read in {Old(specs[w.rel]), New(specs[w.rel])} &&
      w.written in {Old(specs[w.rel]), New(specs[w.rel])}
  }

  ghost predicate AllJustified(specs: Manifest, log: seq<Write>) {
    forall i :: 0 <= i < |log| ==> Justified(specs, log[i])
  }

  ghost predicate Pinned(specs: Manifest, plans: seq<Item>) {
    forall k :: 0 <= k < |plans| ==>
      plans[k].rel in specs && plans[k].before == Old(specs[plans[k].rel]) &&
        Some(plans[k].after) == New(specs[plans[k].rel])
  }

  /** The plan: the targets that are not new yet, each once, with what they hold. */
  ghost predicate PlanOk(specs: Manifest, files: map<string, File>, plans: seq<Item>) {
    && Distinct(plans)
    && (forall k :: 0 <= k < |plans| ==> ItemOk(specs, files, plans[k]))
    && (forall rel :: rel in specs ==> Read(files, rel) == New(specs[rel]) || Planned(plans, rel))
  }

  ghost predicate Distinct(plans: seq<Item>) {
    forall i, j :: 0 <= i < j < |plans| ==> plans[i].rel != plans[j].rel
  }

  ghost predicate ItemOk(specs: Manifest, files: map<string, File>, item: Item) {
    && item.rel in specs && item.before == Read(files, item.rel) == Old(specs[item.rel])
    && Some(item.after) == New(specs[item.rel]) && item.before != Some(item.after)
  }

  ghost predicate Planned(plans: seq<Item>, rel: string) {
    exists k :: 0 <= k < |plans| && plans[k].rel == rel
  }

  /** Files of no item are as they were. */
  ghost predicate Elsewhere(was: map<string, File>, files: map<string, File>, plans: seq<Item>) {
    forall rel :: !Planned(plans, rel) ==> Read(files, rel) == Read(was, rel)
  }

  /** The items from `i` on hold their old content; the earlier ones their old or their new one. */
  ghost predicate Reverted(files: map<string, File>, plans: seq<Item>, i: nat) {
    forall k :: 0 <= k < |plans| ==>
      || Read(files, plans[k].rel) == plans[k].before
      || (k < i && Read(files, plans[k].rel) == Some(plans[k].after))
  }

  lemma FullyReverted(was: map<string, File>, files: map<string, File>, plans: seq<Item>)
    requires Elsewhere(was, files, plans) && Reverted(files, plans, 0)
    requires forall k :: 0 <= k < |plans| ==> plans[k].before == Read(was, plans[k].rel)
    ensures files == was
  {
    forall rel ensures Read(files, rel) == Read(was, rel) {
      hide Read;
      if Planned(plans, rel) {
        var k :| 0 <= k < |plans| && plans[k].rel == rel;
        assert Read(files, plans[k].rel) == plans[k].before;
      }
    }
    assert forall rel :: rel in files <==> Read(files, rel).Some?;
    assert forall rel :: rel in was <==> Read(was, rel).Some?;
  }

  /** Whatever prefix of the writes happened, every target is old or new. */
  lemma StillMixed(specs: Manifest, was: map<string, File>, files: map<string, File>, plans: seq<Item>)
    requires PlanOk(specs, was, plans) && Elsewhere(was, files, plans) && Reverted(files, plans, |plans|)
    ensures Mixed(specs, files)
  {
    hide Read, Old, New;
    forall rel | rel in specs ensures Read(files, rel) == Old(specs[rel]) || Read(files, rel) == New(specs[rel]) {
      if Planned(plans, rel) {
        var k :| 0 <= k < |plans| && plans[k].rel == rel;
        assert ItemOk(specs, was, plans[k]);
      }
    }
  }

  lemma AllWritten(specs: Manifest, was: map<string, File>, files: map<string, File>, plans: seq<Item>)
    requires PlanOk(specs, was, plans) && Elsewhere(was, files, plans)
    requires forall k :: 0 <= k < |plans| ==> Read(files, plans[k].rel) == Some(plans[k].after)
    ensures AllNew(specs, files)
  {
    hide Read, Old, New;
    forall rel | rel in specs ensures Read(files, rel) == New(specs[rel]) {
      if Planned(plans, rel) {
        var k :| 0 <= k < |plans| && plans[k].rel == rel;
        assert ItemOk(specs, was, plans[k]);
      }
    }
  }

  /** What a step found, and how many writes the installer had made before. */
  datatype Look = Look(files: map<string, File>, writes: nat)

  /** A look after exactly `writes` writes found this content. */
  ghost predicate Saw(looks: seq<Look>, writes: nat, rel: string, c: Content) {
    exists k :: 0 <= k < |looks| && looks[k].writes == writes && Read(looks[k].files, rel) == c
  }

  /** Every write was made after a look at its file that followed the write before it. */
  ghost predicate Considered(looks: seq<Look>, log: seq<Write>) {
    forall i :: 0 <= i < |log| ==> Saw(looks, i, log[i].rel, log[i].read)
  }

  /** Before the first write every target was looked at: the planned ones were old then, the others new. */
  ghost predicate Surveyed(specs: Manifest, targets: set<string>, plans: seq<Item>, looks: seq<Look>) {
    forall rel :: rel in specs && rel in targets ==>
      Saw(looks, 0, rel, if Planned(plans, rel) then Old(specs[rel]) else New(specs[rel]))
  }

  /** After that many writes every target was found new. */
  ghost predicate Verified(specs: Manifest, targets: set<string>, looks: seq<Look>, writes: nat) {
    forall rel :: rel in specs && rel in targets ==> Saw(looks, writes, rel, New(specs[rel]))
  }

  function Install(item: Item): Write {
    Write(item.rel, item.before, Some(item.after))
  }

  function Undo(item: Item): Write {
    Write(item.rel, Some(item.after), item.before)
  }

  /** The log holds the writes that install the items, in order, with or without the last one. */
  ghost predicate Installs(plans: seq<Item>, log: seq<Write>) {
    |plans| - 1 <= |log| <= |plans| && forall k :: 0 <= k < |log| ==> log[k] == Install(plans[k])
  }

  /** From write `begin` on the log puts items from the last down to item `i` back, some of them and in this order. */
  ghost predicate Undoes(plans: seq<Item>, i: nat, log: seq<Write>, begin: nat) {
    && begin <= |log| && i <= |plans|
    && (forall a :: begin <= a < |log| ==> UndoesOne(plans, i, log[a]))
    && (forall a, b :: begin <= a < b < |log| ==> Earlier(plans, log[b].rel, log[a].rel))
  }

  ghost predicate UndoesOne(plans: seq<Item>, i: nat, w: Write) {
    exists k :: i <= k < |plans| && w == Undo(plans[k])
  }

  ghost predicate Earlier(plans: seq<Item>, x: string, y: string) {
    exists k, l :: 0 <= k < l < |plans| && plans[k].rel == x && plans[l].rel == y
  }

  /** Since write `begin` the item was found as before the installation, or as installed and put back. */
  ghost predicate Handled(item: Item, looks: seq<Look>, log: seq<Write>, begin: nat) {
    || (exists i: nat :: begin <= i <= |log| && Saw(looks, i, item.rel, item.before))
    || exists i :: begin <= i < |log| && log[i] == Undo(item)
  }

  /** The last look found one of the items neither as before the installation nor as installed. */
  ghost predicate Foreign(plans: seq<Item>, looks: seq<Look>) {
    looks != [] && exists k :: 0 <= k < |plans| && IsForeign(looks[|looks| - 1].files, plans[k])
  }

  predicate IsForeign(files: map<string, File>, item: Item) {
    Read(files, item.rel) !in {item.before, Some(item.after)}
  }

  lemma SawStays(looks: seq<Look>, looks': seq<Look>, writes: nat, rel: string, c: Content)
    requires looks <= looks'
    ensures Saw(looks, writes, rel, c) ==> Saw(looks', writes, rel, c)
  {
    hide Read;
    if Saw(looks, writes, rel, c) {
      var k :| 0 <= k < |looks| && looks[k].writes == writes && Read(looks[k].files, rel) == c;
      assert looks'[k] == looks[k];
    }
  }

  lemma ConsideredStays(looks: seq<Look>, looks': seq<Look>, log: seq<Write>)
    requires looks <= looks' && Considered(looks, log)
    ensures Considered(looks', log)
  {
    hide Saw;
    forall i | 0 <= i < |log| ensures Saw(looks', i, log[i].rel, log[i].read) {
      SawStays(looks, looks', i, log[i].rel, log[i].read);
    }
  }

  lemma BegunStays(plans: seq<Item>, n: nat, looks: seq<Look>, looks': seq<Look>)
    requires n <= |plans| && looks <= looks'
    requires forall k :: 0 <= k < n ==> Saw(looks, k, plans[k].rel, plans[k].before)
    ensures forall k :: 0 <= k < n ==> Saw(looks', k, plans[k].rel, plans[k].before)
  {
    hide Saw;
    forall k | 0 <= k < n ensures Saw(looks', k, plans[k].rel, plans[k].before) {
      SawStays(looks, looks', k, plans[k].rel, plans[k].before);
    }
  }

  lemma ConsideredNext(looks: seq<Look>, log: seq<Write>, w: Write)
    requires Considered(looks, log) && Saw(looks, |log|, w.rel, w.read)
    ensures Considered(looks, log + [w])
  {
    hide Saw;
  }

  lemma VerifiedStays(specs: Manifest, targets: set<string>, looks: seq<Look>, looks': seq<Look>, writes: nat)
    requires looks <= looks' && Verified(specs, targets, looks, writes)
    ensures Verified(specs, targets, looks', writes)
  {
    hide Saw, New;
    forall rel | rel in specs && rel in targets ensures Saw(looks', writes, rel, New(specs[rel])) {
      SawStays(looks, looks', writes, rel, New(specs[rel]));
    }
  }

  /** One more target looked at, planned or not. */
  lemma SurveyedNext(specs: Manifest, targets: set<string>, plans: seq<Item>, looks: seq<Look>, rel: string,
    plans': seq<Item>, looks': seq<Look>)
    requires Surveyed(specs, targets, plans, looks) && looks <= looks' && rel !in targets
    requires plans' == plans || (|plans'| == |plans| + 1 && plans <= plans' && plans'[|plans|].rel == rel)
    requires rel in specs && !Planned(plans, rel)
    requires Saw(looks', 0, rel, if plans' == plans then New(specs[rel]) else Old(specs[rel]))
    ensures Surveyed(specs, targets + {rel}, plans', looks')
  {
    hide Saw, New, Old;
    if plans' != plans {
      PlannedGrows(plans, plans'[|plans|]);
      assert plans' == plans + [plans'[|plans|]];
    }
    forall r | r in specs && r in targets
      ensures Saw(looks', 0, r, if Planned(plans', r) then Old(specs[r]) else New(specs[r]))
    {
      SawStays(looks, looks', 0, r, if Planned(plans, r) then Old(specs[r]) else New(specs[r]));
    }
  }

  lemma HandledStays(item: Item, looks: seq<Look>, log: seq<Write>, begin: nat, looks': seq<Look>, log': seq<Write>)
    requires Handled(item, looks, log, begin) && looks <= looks' && log <= log'
    ensures Handled(item, looks', log', begin)
  {
    hide Saw;
    if i: nat :| begin <= i <= |log| && Saw(looks, i, item.rel, item.before) {
      SawStays(looks, looks', i, item.rel, item.before);
    } else {
      var i :| begin <= i < |log| && log[i] == Undo(item);
      assert log'[i] == log[i];
    }
  }

  lemma UndoesNext(plans: seq<Item>, i: nat, log: seq<Write>, begin: nat, log': seq<Write>)
    requires i < |plans| && Undoes(plans, i + 1, log, begin) && (log' == log || log' == log + [Undo(plans[i])])
    ensures Undoes(plans, i, log', begin)
  {
    forall a | begin <= a < |log'| ensures UndoesOne(plans, i, log'[a]) {
      if a < |log| { assert log'[a] == log[a] && UndoesOne(plans, i + 1, log[a]); }
    }
    forall a, b | begin <= a < b < |log'| ensures Earlier(plans, log'[b].rel, log'[a].rel) {
      assert log'[a] == log[a];
      if b < |log| {
        assert log'[b] == log[b];
      } else {
        assert UndoesOne(plans, i + 1, log[a]);
        var l :| i + 1 <= l < |plans| && log[a] == Undo(plans[l]);
        assert plans[i].rel == log'[b].rel && plans[l].rel == log'[a].rel;
      }
    }
  }

  lemma UndoesSome(plans: seq<Item>, i: nat, log: seq<Write>, begin: nat)
    requires Undoes(plans, i, log, begin)
    ensures Undoes(plans, 0, log, begin)
  {
    forall a | begin <= a < |log| ensures UndoesOne(plans, 0, log[a]) {
      assert UndoesOne(plans, i, log[a]);
    }
  }

  class Installer {
    var files: map<string, File>
    /** The writes of this run, and what its steps found. */
    ghost var log: seq<Write>
    ghost var looks: seq<Look>
    /** The process died. */
    ghost var killed: bool

    constructor (files: map<string, File>)
      ensures this.files == files && log == [] && looks == [] && !killed
    {
      this.files, log, looks, killed := files, [], [], false;
    }

    method Step(w: World) returns (s: Status)
      requires !killed
      modifies this`files, this`looks, this`killed
      ensures w.calm ==> files == old(files)
      ensures w.sound ==> s == Done
      ensures looks == old(looks) + [Look(files, |log|)] && (killed <==> s == Killed)
    {
      if !w.calm { files := *; }
      s := Done;
      if !w.sound {
        if * { s := Failed; } else if * { s := Killed; }
      }
      looks, killed := looks + [Look(files, |log|)], s == Killed;
    }

    /** `atomic_write` and `unlink`: all or nothing, but possibly reported as failed although done. */
    method Replace(rel: string, c: Content, w: World, ghost read: Content) returns (s: Status)
      requires !killed && Considered(looks, log) && Saw(looks, |log|, rel, read)
      modifies this
      ensures w.calm ==> files == old(files) || files == Put(old(files), rel, c)
      ensures s == Done ==> log == old(log) + [Write(rel, read, c)] && Read(files, rel) == c
      ensures w.calm && s == Done ==> files == Put(old(files), rel, c)
      ensures w.sound ==> s == Done
      ensures log == old(log) || log == old(log) + [Write(rel, read, c)]
      ensures w.calm && log == old(log) ==> files == old(files)
      ensures old(looks) <= looks && Considered(looks, log) && (killed <==> s == Killed)
    {
      hide Saw, Considered;
      s := Step(w);
      ConsideredStays(old(looks), looks, log);
      if s != Done { return; }
      SawStays(old(looks), looks, |log|, rel, read);
      ConsideredNext(looks, log, Write(rel, read, c));
      files := Put(files, rel, c);
      log := log + [Write(rel, read, c)];
      if !w.sound {
        if * { s := Failed; } else if * { s := Killed; }
      }
      killed := s == Killed;
    }

    /** The planning loop: refuse any target that is neither old nor new, skip the new ones. */
    method Plan(specs: Manifest, payload: map<string, string>, w: World) returns (s: Status, plans: seq<Item>)
      requires !killed && log == []
      modifies this`files, this`looks, this`killed
      ensures w.calm ==> files == old(files)
      ensures Distinct(plans) && Pinned(specs, plans)
      ensures s == Done ==> Genuine(specs, payload) && Surveyed(specs, specs.Keys, plans, looks)
      ensures w.calm && s == Done ==> PlanOk(specs, files, plans) && Mixed(specs, files)
      ensures w.calm && w.sound ==> (s == Done <==> Genuine(specs, payload) && Mixed(specs, files))
      ensures old(looks) <= looks && (killed <==> s == Killed)
      ensures w.sound ==> s != Killed
    {
      hide Saw, Surveyed, Scanned, Old, New, Read;
      plans, s := [], Done;
      var todo := specs.Keys;
      NothingSurveyed(specs, files, looks);
      while todo != {}
        invariant todo <= specs.Keys && s == Done && Distinct(plans) && Pinned(specs, plans)
        invariant !killed && old(looks) <= looks && Surveyed(specs, specs.Keys - todo, plans, looks)
        invariant w.calm ==> files == old(files)
        invariant forall rel :: rel in specs && rel !in todo ==> rel in payload && payload[rel] == specs[rel].after
        invariant forall k :: 0 <= k < |plans| ==> plans[k].rel !in todo
        invariant w.calm ==> Scanned(specs, specs.Keys - todo, files, plans)
      {
        var rel :| rel in todo;
        ghost var before, seen, targets := plans, looks, specs.Keys - todo;
        todo := todo - {rel};
        assert specs.Keys - todo == targets + {rel} && !Planned(plans, rel);
        var spec := specs[rel];
        if rel !in payload || payload[rel] != spec.after { return Failed, plans; }
        s := Step(w);
        if s != Done { return; }
        var now := Read(files, rel);
        assert Saw(looks, 0, rel, now) by { SawNow(seen, files, 0, rel); }
        Compared(spec, now);
        if w.calm && !(now in {Old(spec), New(spec)}) { assert !Mixed(specs, files); }
        if now.Some? && now.value.mode != spec.mode { return Failed, plans; }
        if now.Some? && now.value.data == spec.after {
        } else {
          if (if now.Some? then Some(now.value.data) else None) != spec.before { return Failed, plans; }
          plans := plans + [Item(rel, now, File(payload[rel], spec.mode))];
          PlannedGrows(before, plans[|before|]);
        }
        if w.calm { ScannedNext(specs, targets, files, before, rel, plans); }
        SurveyedNext(specs, targets, before, seen, rel, plans, looks);
      }
      assert specs.Keys - todo == specs.Keys;
      if w.calm { AllScanned(specs, files, plans); }
    }

    /** The writing loop; `n` items were begun. */
    method WriteAll(specs: Manifest, plans: seq<Item>, w: World) returns (s: Status, n: nat)
      requires !killed && log == [] && Distinct(plans) && Pinned(specs, plans)
      modifies this
      ensures n <= |plans| && AllJustified(specs, log) && Considered(looks, log)
      ensures Installs(plans[..n], log) && (s == Done ==> |log| == n == |plans|)
      ensures forall k :: 0 <= k < n ==> Saw(looks, k, plans[k].rel, plans[k].before)
      ensures w.calm ==> Elsewhere(old(files), files, plans)
      ensures w.calm && Reverted(old(files), plans, 0) ==> Reverted(files, plans, n)
      ensures w.calm && s == Done ==> forall k :: 0 <= k < |plans| ==>
        Read(files, plans[k].rel) == Some(plans[k].after)
      ensures w.calm && w.sound && Reverted(old(files), plans, 0) ==> s == Done
      ensures old(looks) <= looks && (killed <==> s == Killed)
      ensures w.sound ==> s != Killed
    {
      hide Saw, Considered;
      n, s := 0, Done;
      NothingConsidered(specs, looks);
      while n < |plans|
        invariant n <= |plans| && s == Done && AllJustified(specs, log) && Considered(looks, log)
        invariant Installs(plans[..n], log) && |log| == n && !killed && old(looks) <= looks
        invariant forall k :: 0 <= k < n ==> Saw(looks, k, plans[k].rel, plans[k].before)
        invariant w.calm ==> forall rel :: (forall k :: 0 <= k < n ==> plans[k].rel != rel) ==>
          Read(files, rel) == Read(old(files), rel)
        invariant w.calm ==> forall k :: 0 <= k < n ==> Read(files, plans[k].rel) == Some(plans[k].after)
      {
        ghost var seen := looks;
        s := Step(w);
        ConsideredStays(seen, looks, log);
        BegunStays(plans, n, seen, looks);
        if s != Done { return; }
        var item := plans[n];
        var now := Read(files, item.rel);
        assert Saw(looks, |log|, item.rel, now) by { SawNow(seen, files, |log|, item.rel); }
        if now != item.before { s := Failed; return; }
        n := n + 1;
        seen := looks;
        s := Replace(item.rel, Some(item.after), w, now);
        BegunStays(plans, n, seen, looks);
        if s != Done { return; }
      }
    }

    /** The verification loop over all targets. */
    method VerifyAll(specs: Manifest, w: World) returns (s: Status)
      requires !killed
      modifies this`files, this`looks, this`killed
      ensures w.calm ==> files == old(files)
      ensures s == Done ==> Verified(specs, specs.Keys, looks, |log|)
      ensures w.calm && s == Done ==> AllNew(specs, files)
      ensures w.calm && w.sound ==> (s == Done <==> AllNew(specs, files))
      ensures old(looks) <= looks && (killed <==> s == Killed)
      ensures w.sound ==> s != Killed
    {
      hide Saw;
      s := Done;
      var todo := specs.Keys;
      while todo != {}
        invariant todo <= specs.Keys && s == Done && !killed && old(looks) <= looks
        invariant Verified(specs, specs.Keys - todo, looks, |log|)
        invariant w.calm ==> files == old(files)
        invariant w.calm ==> forall rel :: rel in specs && rel !in todo ==> Read(files, rel) == New(specs[rel])
      {
        var rel :| rel in todo;
        ghost var seen := looks;
        s := Step(w);
        VerifiedStays(specs, specs.Keys - todo, seen, looks, |log|);
        if s != Done { return; }
        SawNow(seen, files, |log|, rel);
        todo := todo - {rel};
        if Read(files, rel) != New(specs[rel]) { return Failed; }
      }
    }

    /** The reverse loop of the exception handler: it stops at the first file that is neither old nor new. */
    method RollBack(specs: Manifest, plans: seq<Item>, v: World) returns (s: Status)
      requires !killed && Distinct(plans) && Pinned(specs, plans) && AllJustified(specs, log) && Considered(looks, log)
      modifies this
      ensures AllJustified(specs, log) && Considered(looks, log)
      ensures old(log) <= log && Undoes(plans, 0, log, |old(log)|)
      ensures s == Done ==> forall k :: 0 <= k < |plans| ==> Handled(plans[k], looks, log, |old(log)|)
      ensures v.calm ==> Elsewhere(old(files), files, plans)
      ensures v.calm && Reverted(old(files), plans, |plans|) ==>
        Reverted(files, plans, if s == Done then 0 else |plans|)
      ensures v.calm && v.sound && Reverted(old(files), plans, |plans|) ==> s == Done
      ensures old(looks) <= looks && (killed <==> s == Killed)
      ensures v.sound ==> s != Killed && (s == Failed ==> Foreign(plans, looks))
    {
      hide Saw, Considered, Handled, Undoes;
      s := Done;
      var i := |plans|;
      NothingUndone(plans, log);
      while i > 0
        invariant 0 <= i <= |plans| && s == Done && AllJustified(specs, log) && Considered(looks, log)
        invariant !killed && old(looks) <= looks && old(log) <= log && Undoes(plans, i, log, |old(log)|)
        invariant forall k :: i <= k < |plans| ==> Handled(plans[k], looks, log, |old(log)|)
        invariant v.calm ==> forall rel :: (forall k :: i <= k < |plans| ==> plans[k].rel != rel) ==>
          Read(files, rel) == Read(old(files), rel)
        invariant v.calm ==> forall k :: i <= k < |plans| ==> Read(files, plans[k].rel) == plans[k].before
      {
        ghost var seen, written := looks, log;
        i := i - 1;
        s := Step(v);
        ConsideredStays(seen, looks, log);
        UndoesNext(plans, i, log, |old(log)|, log);
        UndoesSome(plans, i, log, |old(log)|);
        if s != Done { return; }
        var item := plans[i];
        var now := Read(files, item.rel);
        assert Saw(looks, |log|, item.rel, now) by { SawNow(seen, files, |log|, item.rel); }
        if now != item.before {
          if now != Some(item.after) {
            assert IsForeign(looks[|looks| - 1].files, plans[i]);
            return Failed;
          }
          s := Replace(item.rel, item.before, v, now);
          UndoesNext(plans, i, written, |old(log)|, log);
          UndoesSome(plans, i, log, |old(log)|);
          if s != Done { return; }
        }
        HandledNow(plans, i, seen, looks, written, log, |old(log)|);
      }
    }

    /** The `try` of `apply` and its handler; `n` of the planned writes were begun. */
    method Install(specs: Manifest, plans: seq<Item>, w: World, v: World) returns (o: Outcome, ghost n: nat)
      requires !killed && log == [] && plans != [] && Distinct(plans) && Pinned(specs, plans)
      modifies this
      ensures old(looks) <= looks && AllJustified(specs, log) && Considered(looks, log) && (killed <==> o == Crashed)
      ensures o in {Installed, RolledBack, RollbackStopped, Crashed} && n <= |plans|
      ensures o == Installed ==> n == |log| == |plans| && Installs(plans, log)
      ensures forall k :: 0 <= k < n ==> Saw(looks, k, plans[k].rel, plans[k].before)
      ensures o == Installed ==> Verified(specs, specs.Keys, looks, |log|)
      ensures o in {RolledBack, RollbackStopped} ==> exists m: nat :: TakenBack(plans[..n], log, m, looks, o)
      ensures v.sound && o == RollbackStopped ==> Foreign(plans[..n], looks)
      ensures w.sound && v.sound ==> o != Crashed
      ensures w.calm && PlanOk(specs, old(files), plans) && o == Installed ==> AllNew(specs, files)
      ensures w.calm && w.sound && PlanOk(specs, old(files), plans) ==> o == Installed
      ensures w.calm && v.calm && PlanOk(specs, old(files), plans) ==>
        Mixed(specs, files) && (o == RolledBack ==> files == old(files)) && (v.sound ==> o != RollbackStopped)
    {
      hide *;
      var s, count := WriteAll(specs, plans, w);
      n := count;
      ghost var written, m, seen := files, |log|, looks;
      if w.calm && PlanOk(specs, old(files), plans) { AfterWriting(specs, old(files), files, plans, n, s); }
      PrefixItems(specs, files, plans, n);
      if s == Done { s := VerifyAll(specs, w); }
      ConsideredStays(seen, looks, log);
      BegunStays(plans, n, seen, looks);
      if s == Done { return Installed, n; }
      if s == Killed { return Crashed, n; }
      ghost var installs := log;
      seen := looks;
      s := RollBack(specs, plans[..count], v);
      BegunStays(plans, n, seen, looks);
      if w.calm && v.calm && PlanOk(specs, old(files), plans) {
        AfterRollback(specs, old(files), written, files, plans, n, s);
      }
      o := if s == Done then RolledBack else if s == Killed then Crashed else RollbackStopped;
      if s != Killed {
        assert log[..m] == installs;
        IsTakenBack(plans[..n], log, m, looks, o);
      }
    }

    /**
      `apply`: `w` is the world up to a failure, `v` the world of the exception handler,
      `plans` what was planned and `n` how many of these writes were begun.
    */
    method Apply(specs: Manifest, payload: map<string, string>, w: World, v: World)
      returns (o: Outcome, ghost plans: seq<Item>, ghost n: nat)
      requires !killed
      modifies this
      ensures AllJustified(specs, log) && Considered(looks, log) && (killed <==> o == Crashed)
      ensures Distinct(plans) && Pinned(specs, plans) && n <= |plans|
      ensures o !in {Refused, Crashed} ==> Genuine(specs, payload) && Surveyed(specs, specs.Keys, plans, looks)
      ensures o in {AlreadyApplied, Refused} ==> log == []
      ensures o == AlreadyApplied ==> plans == []
      ensures o == Installed ==> plans != [] && n == |log| == |plans| && Installs(plans, log)
      ensures forall k :: 0 <= k < n ==> Saw(looks, k, plans[k].rel, plans[k].before)
      ensures o == Installed ==> Verified(specs, specs.Keys, looks, |log|)
      ensures o in {RolledBack, RollbackStopped} ==>
        plans != [] && exists m: nat :: TakenBack(plans[..n], log, m, looks, o)
      ensures v.sound && o == RollbackStopped ==> Foreign(plans[..n], looks)
      ensures w.sound && v.sound ==> o != Crashed
      ensures w.calm && (o == AlreadyApplied || o == Installed) ==> AllNew(specs, files)
      ensures w.calm && v.calm && (o == Refused || o == RolledBack) ==> files == old(files)
      ensures w.calm && v.calm && v.sound ==> o != RollbackStopped
      ensures w.calm && v.calm && Mixed(specs, old(files)) ==> Mixed(specs, files)
      ensures w.calm && !Mixed(specs, old(files)) ==> files == old(files) && log == []
      ensures w.calm && w.sound ==>
        o == if !Genuine(specs, payload) || !Mixed(specs, old(files)) then Refused else if AllNew(specs,
          old(files)) then AlreadyApplied else Installed
    {
      hide *;
      log, looks, n := [], [], 0;
      NothingConsidered(specs, looks);
      var s, items := Plan(specs, payload, w);
      NothingConsidered(specs, looks);
      plans := items;
      if s != Done { return if s == Killed then Crashed else Refused, plans, n; }
      if w.calm { PlanSplits(specs, files, items); }
      if items == [] { return AlreadyApplied, plans, n; }
      ghost var planned := looks;
      s := Step(w);
      NothingConsidered(specs, looks);
      if s != Done { return if s == Killed then Crashed else Refused, plans, n; }
      o, n := Install(specs, items, w, v);
      SurveyedStays(specs, plans, planned, looks);
    }
  }

  /** `m` writes installed items in order; the others put these items back in reverse, all of them if rolled back. */
  ghost predicate TakenBack(plans: seq<Item>, log: seq<Write>, m: nat, looks: seq<Look>, o: Outcome) {
    && m <= |log| && Installs(plans, log[..m]) && Undoes(plans, 0, log, m)
    && (o == RolledBack ==> forall k :: 0 <= k < |plans| ==> Handled(plans[k], looks, log, m))
  }

  lemma IsTakenBack(plans: seq<Item>, log: seq<Write>, m: nat, looks: seq<Look>, o: Outcome)
    requires m <= |log| && Installs(plans, log[..m]) && Undoes(plans, 0, log, m)
    requires o == RolledBack ==> forall k :: 0 <= k < |plans| ==> Handled(plans[k], looks, log, m)
    ensures TakenBack(plans, log, m, looks, o)
  {
  }

  lemma NothingSurveyed(specs: Manifest, files: map<string, File>, looks: seq<Look>)
    ensures Surveyed(specs, specs.Keys - specs.Keys, [], looks) && Scanned(specs, specs.Keys - specs.Keys, files, [])
  {
  }

  /** The plan so far, when nobody else acts: the targets that are old are planned, the others are new. */
  ghost predicate Scanned(specs: Manifest, targets: set<string>, files: map<string, File>, plans: seq<Item>) {
    && (forall k :: 0 <= k < |plans| ==> ItemOk(specs, files, plans[k]))
    && forall rel :: rel in specs && rel in targets ==>
         Read(files, rel) == New(specs[rel]) || (Read(files, rel) == Old(specs[rel]) && Planned(plans, rel))
  }

  lemma ScannedNext(specs: Manifest, targets: set<string>, files: map<string, File>, plans: seq<Item>, rel: string,
    plans': seq<Item>)
    requires Scanned(specs, targets, files, plans) && rel in specs
    requires if Read(files, rel) == New(specs[rel]) then plans' == plans
             else plans' == plans + [Item(rel, Old(specs[rel]), New(specs[rel]).value)]
    requires Read(files, rel) in {Old(specs[rel]), New(specs[rel])}
    ensures Scanned(specs, targets + {rel}, files, plans')
  {
    hide Read, Old;
    if plans' != plans { PlannedGrows(plans, plans'[|plans|]); }
  }

  lemma AllScanned(specs: Manifest, files: map<string, File>, plans: seq<Item>)
    requires Scanned(specs, specs.Keys, files, plans) && Distinct(plans)
    ensures PlanOk(specs, files, plans) && Mixed(specs, files)
  {
    hide Read, Old, New, Planned, ItemOk;
  }

  /** The comparisons of the planning loop tell the old, the new and any other content apart. */
  lemma Compared(spec: Spec, now: Content)
    ensures now == New(spec) <==> now.Some? && now.value.mode == spec.mode && now.value.data == spec.after
    ensures now.None? ==> (now == Old(spec) <==> spec.before.None?)
    ensures now.Some? ==> (now == Old(spec) <==> now.value.mode == spec.mode && spec.before == Some(now.value.data))
    ensures New(spec) == Some(File(spec.after, spec.mode))
  {
  }

  lemma NothingConsidered(specs: Manifest, looks: seq<Look>)
    ensures Considered(looks, []) && AllJustified(specs, [])
  {
  }

  lemma PlanSplits(specs: Manifest, files: map<string, File>, plans: seq<Item>)
    requires PlanOk(specs, files, plans)
    ensures plans == [] <==> AllNew(specs, files)
  {
    hide Read, Old, New;
    if plans != [] { assert ItemOk(specs, files, plans[0]); }
  }

  lemma PrefixItems(specs: Manifest, files: map<string, File>, plans: seq<Item>, n: nat)
    requires n <= |plans| && Distinct(plans) && Pinned(specs, plans)
    ensures Distinct(plans[..n]) && Pinned(specs, plans[..n]) && |plans[..n]| == n && plans[..|plans|] == plans
    ensures Reverted(files, plans, n) ==> Reverted(files, plans[..n], n)
  {
  }

  lemma NothingUndone(plans: seq<Item>, log: seq<Write>)
    ensures Undoes(plans, |plans|, log, |log|)
  {
  }

  lemma SurveyedStays(specs: Manifest, plans: seq<Item>, looks: seq<Look>, looks': seq<Look>)
    requires looks <= looks' && Surveyed(specs, specs.Keys, plans, looks)
    ensures Surveyed(specs, specs.Keys, plans, looks')
  {
    hide Saw, New, Old;
    forall r | r in specs ensures Saw(looks', 0, r, if Planned(plans, r) then Old(specs[r]) else New(specs[r])) {
      SawStays(looks, looks', 0, r, if Planned(plans, r) then Old(specs[r]) else New(specs[r]));
    }
  }

  lemma SawNow(seen: seq<Look>, files: map<string, File>, writes: nat, rel: string)
    ensures Saw(seen + [Look(files, writes)], writes, rel, Read(files, rel))
  {
    hide Read;
    assert (seen + [Look(files, writes)])[|seen|] == Look(files, writes);
  }

  /** The item looked at last, and the later ones as before. */
  lemma HandledNow(plans: seq<Item>, i: nat, seen: seq<Look>, looks: seq<Look>, written: seq<Write>, log: seq<Write>,
    begin: nat)
    requires i < |plans| && seen <= looks && written <= log && begin <= |written|
    requires forall k :: i < k < |plans| ==> Handled(plans[k], seen, written, begin)
    requires Saw(looks, |written|, plans[i].rel, plans[i].before) || log == written + [Undo(plans[i])]
    ensures forall k :: i <= k < |plans| ==> Handled(plans[k], looks, log, begin)
  {
    hide Saw;
    forall k | i <= k < |plans| ensures Handled(plans[k], looks, log, begin) {
      if k > i {
        HandledStays(plans[k], seen, written, begin, looks, log);
      } else if log == written + [Undo(plans[i])] {
        assert log[|written|] == Undo(plans[i]);
      }
    }
  }

  lemma PlannedGrows(plans: seq<Item>, item: Item)
    ensures forall rel :: Planned(plans + [item], rel) <==> Planned(plans, rel) || rel == item.rel
  {
    assert (plans + [item])[|plans|] == item;
    forall rel | Planned(plans, rel) ensures Planned(plans + [item], rel) {
      var k :| 0 <= k < |plans| && plans[k].rel == rel;
      assert (plans + [item])[k] == plans[k];
    }
  }

  lemma AfterWriting(specs: Manifest, was: map<string, File>, files: map<string, File>, plans: seq<Item>, n: nat,
    s: Status)
    requires PlanOk(specs, was, plans) && Elsewhere(was, files, plans) && n <= |plans| && plans != []
    requires Reverted(was, plans, 0) ==> Reverted(files, plans, n)
    requires s == Done ==> forall k :: 0 <= k < |plans| ==> Read(files, plans[k].rel) == Some(plans[k].after)
    ensures Reverted(was, plans, 0) && Reverted(files, plans, n) && Mixed(specs, files) && !AllNew(specs, was)
    ensures s == Done ==> AllNew(specs, files)
  {
    assert ItemOk(specs, was, plans[0]);
    hide Read, Old, New;
    StillMixed(specs, was, files, plans);
    if s == Done { AllWritten(specs, was, files, plans); }
  }

  /** What is said of the first n items and of everything else is said of all items. */
  lemma RestUntouched(written: map<string, File>, files: map<string, File>, plans: seq<Item>, n: nat, m: nat)
    requires n <= |plans| && m <= n && Distinct(plans) && Elsewhere(written, files, plans[..n])
    requires Reverted(written, plans, n) && Reverted(files, plans[..n], m)
    ensures Elsewhere(written, files, plans) && Reverted(files, plans, m)
  {
    hide Read;
    forall rel | Planned(plans[..n], rel) ensures Planned(plans, rel) {
      var k :| 0 <= k < |plans[..n]| && plans[..n][k].rel == rel;
      assert plans[k].rel == rel;
    }
    forall k | 0 <= k < |plans|
      ensures Read(files, plans[k].rel) == plans[k].before ||
        (k < m && Read(files, plans[k].rel) == Some(plans[k].after))
    {
      if k < n {
        assert plans[..n][k] == plans[k];
      } else {
        assert !Planned(plans[..n], plans[k].rel);
      }
    }
  }

  lemma AfterRollback(specs: Manifest, was: map<string, File>, written: map<string, File>, files: map<string, File>,
    plans: seq<Item>, n: nat, s: Status)
    requires PlanOk(specs, was, plans) && Elsewhere(was, written, plans) && n <= |plans|
    requires Elsewhere(written, files, plans[..n]) && Reverted(written, plans, n)
    requires Reverted(files, plans[..n], if s == Done then 0 else n)
    ensures Mixed(specs, files)
    ensures s == Done ==> files == was
  {
    hide Read;
    RestUntouched(written, files, plans, n, if s == Done then 0 else n);
    assert Elsewhere(was, files, plans);
    StillMixed(specs, was, files, plans);
    if s == Done { FullyReverted(was, files, plans); }
  }
}
