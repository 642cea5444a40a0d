/**
  Breadth-first search over an arbitrary key-labelled transition system.

  Three programs of the repository run the same search with different
  bookkeeping (a parent map with keys, a parent map of cells, a queue carrying
  the first key).  This module states once what such a search keeps: every
  discovered state owns a key path, the queue is ordered by its paths, the
  shorter first and equally long ones by the first key in which they differ, and
  a state that left the queue has all its successors discovered.  Each program's
  loop calls the step lemmas below.
*/
module Search {
  import opened Wrappers

  /** One key pressed in one state, None when the key is illegal there; keys are tried in the order of their rank. */
  datatype Step<!S, !K> = Step(next: (S, K) -> Option<S>, rank: K -> nat)

  /** The state reached by pressing `keys` from `start`, None if some key is illegal. */
  ghost function Run<S, K>(step: Step<S, K>, start: S, keys: seq<K>): Option<S>
    decreases |keys|
  {
    if keys == [] then Some(start)
    else
      match Run(step, start, keys[..|keys| - 1])
      case None => None
      case Some(s) => step.next(s, keys[|keys| - 1])
  }

  /** Pressing one more key after a path. */
  lemma RunSnoc<S, K>(step: Step<S, K>, start: S, keys: seq<K>, k: K)
    ensures Run(step, start, keys + [k]) ==
            match Run(step, start, keys) case None => None case Some(s) => step.next(s, k)
  {
    assert (keys + [k])[..|keys + [k]| - 1] == keys;
  }

  /** A path that runs to its end also runs along each of its prefixes. */
  lemma {:induction false} RunPrefix<S, K>(step: Step<S, K>, start: S, keys: seq<K>, n: nat)
    requires n <= |keys| && Run(step, start, keys).Some?
    ensures Run(step, start, keys[..n]).Some?
    decreases |keys|
  {
    if n == |keys| {
      assert keys[..n] == keys;
    } else {
      assert keys[..|keys| - 1][..n] == keys[..n];
      RunPrefix(step, start, keys[..|keys| - 1], n);
    }
  }

  /** Runs compose. */
  lemma {:induction false} RunConcat<S, K>(step: Step<S, K>, start: S, first: seq<K>, second: seq<K>)
    requires Run(step, start, first).Some?
    ensures Run(step, start, first + second) == Run(step, Run(step, start, first).value, second)
    decreases |second|
  {
    if second == [] {
      assert first + second == first;
    } else {
      var n := |second| - 1;
      assert first + second == (first + second[..n]) + [second[n]];
      RunSnoc(step, start, first + second[..n], second[n]);
      RunConcat(step, start, first, second[..n]);
    }
  }

  /** Shorter, or equally long and with the earlier key where the two first differ. */
  ghost predicate Before<K(!new)>(rank: K -> nat, a: seq<K>, b: seq<K>) {
    |a| < |b| || (|a| == |b| && exists i :: Differ(rank, a, b, i))
  }

  ghost predicate Differ<K(!new)>(rank: K -> nat, a: seq<K>, b: seq<K>, i: int)
    requires |a| == |b|
  {
    0 <= i < |a| && a[..i] == b[..i] && rank(a[i]) < rank(b[i])
  }

  ghost predicate Ahead<K(!new)>(rank: K -> nat, a: seq<K>, b: seq<K>) {
    a == b || Before(rank, a, b)
  }

  lemma BeforeTransitive<K(!new)>(rank: K -> nat, a: seq<K>, b: seq<K>, c: seq<K>)
    requires Before(rank, a, b) && Before(rank, b, c)
    ensures Before(rank, a, c)
  {
    if |a| == |b| == |c| {
      var i, j :| Differ(rank, a, b, i) && Differ(rank, b, c, j);
      var n := if i < j then i else j;
      assert a[..n] == a[..i][..n] && b[..n] == b[..i][..n] && b[..n] == b[..j][..n] && c[..n] == c[..j][..n];
      assert i < j ==> b[i] == b[..j][i] && c[i] == c[..j][i];
      assert j < i ==> a[j] == a[..i][j] && b[j] == b[..i][j];
      assert Differ(rank, a, c, n);
    }
  }

  lemma NotBeforeItself<K(!new)>(rank: K -> nat, a: seq<K>)
    ensures !Before(rank, a, a)
  {
  }

  /** Of two different paths at most one is before the other, so a path ahead of all others is the only one. */
  lemma AheadUnique<K(!new)>(rank: K -> nat, a: seq<K>, b: seq<K>)
    requires Ahead(rank, a, b) && Ahead(rank, b, a)
    ensures a == b
  {
    if a != b {
      BeforeTransitive(rank, a, b, a);
    }
  }

  /** Pressing the same key after both keeps the order. */
  lemma AheadSnoc<K(!new)>(rank: K -> nat, a: seq<K>, b: seq<K>, k: K)
    requires Ahead(rank, a, b)
    ensures Ahead(rank, a + [k], b + [k])
  {
    if |a| == |b| && a != b { BeforeSnoc(rank, a, b, k, k); }
  }

  lemma BeforeSnoc<K(!new)>(rank: K -> nat, a: seq<K>, b: seq<K>, j: K, k: K)
    requires Before(rank, a, b)
    ensures Before(rank, a + [j], b + [k])
  {
    if |a| == |b| {
      var i :| Differ(rank, a, b, i);
      assert (a + [j])[..i] == a[..i] && (b + [k])[..i] == b[..i];
      assert Differ(rank, a + [j], b + [k], i);
    }
  }

  lemma AheadTransitive<K(!new)>(rank: K -> nat, a: seq<K>, b: seq<K>, c: seq<K>)
    requires Ahead(rank, a, b) && Ahead(rank, b, c)
    ensures Ahead(rank, a, c)
  {
    hide Before;
    if a != b && b != c { BeforeTransitive(rank, a, b, c); }
  }

  /** Every discovered state owns a legal key path from the start. */
  ghost predicate Sound<S(!new), K>(step: Step<S, K>, start: S, paths: map<S, seq<K>>) {
    && start in paths && paths[start] == []
    && forall s :: s in paths ==> Run(step, start, paths[s]) == Some(s)
  }

  /** The queue holds discovered states in the order of their paths. */
  ghost predicate Line<S(!new), K(!new)>(rank: K -> nat, paths: map<S, seq<K>>, queue: seq<S>) {
    && (forall i :: 0 <= i < |queue| ==> queue[i] in paths)
    && (forall i, j :: 0 <= i < j < |queue| ==> Before(rank, paths[queue[i]], paths[queue[j]]))
  }

  /** The last key of the path was pressed before the keys other than `done` are pressed after `at`. */
  ghost predicate Earlier<K(!new)>(rank: K -> nat, path: seq<K>, at: seq<K>, done: set<K>) {
    path == [] ||
    var n := |path| - 1;
    Before(rank, path[..n], at) || (path[..n] == at && path[n] in done)
  }

  /** Pressing `k` in `s` leads nowhere that is not reached at least as early. */
  ghost predicate Explored<S, K(!new)>(step: Step<S, K>, paths: map<S, seq<K>>, s: S, k: K)
    requires s in paths
  {
    match step.next(s, k)
    case None => true
    case Some(t) => t in paths && Ahead(step.rank, paths[t], paths[s] + [k])
  }

  ghost predicate Settled<S, K(!new)>(step: Step<S, K>, paths: map<S, seq<K>>, s: S)
    requires s in paths
  {
    forall k :: Explored(step, paths, s, k)
  }

  /** The search invariant between two iterations of the outer loop. */
  ghost predicate Frontier<S(!new), K(!new)>(step: Step<S, K>, start: S, paths: map<S, seq<K>>, queue: seq<S>) {
    && Sound(step, start, paths)
    && Line(step.rank, paths, queue)
    && (queue != [] ==> forall s :: s in paths ==> Earlier(step.rank, paths[s], paths[queue[0]], {}))
    && (queue != [] ==> forall s :: s in paths && s !in queue ==> Before(step.rank, paths[s], paths[queue[0]]))
    && forall s :: s in paths && s !in queue ==> Settled(step, paths, s)
  }

  /** The search invariant while `cur` is being expanded and the keys `done` were tried. */
  ghost predicate Expanding<S(!new), K(!new)>( step: Step<S, K>, start: S, paths: map<S, seq<K>>, queue: seq<S>,
    cur: S, done: set<K>)
  {
    && Sound(step, start, paths)
    && cur in paths
    && Line(step.rank, paths, queue)
    && (forall i :: 0 <= i < |queue| ==> Before(step.rank, paths[cur], paths[queue[i]]))
    && (forall s :: s in paths ==> Earlier(step.rank, paths[s], paths[cur], done))
    && (forall k :: k in done ==> Explored(step, paths, cur, k))
    && (forall s :: s in paths && s !in queue && s != cur ==> Before(step.rank, paths[s], paths[cur]))
    && forall s :: s in paths && s !in queue && s != cur ==> Settled(step, paths, s)
  }

  /** The keys in `done` are tried before `k`. */
  ghost predicate InTurn<K(!new)>(rank: K -> nat, done: set<K>, k: K) {
    forall j :: j in done ==> rank(j) < rank(k)
  }

  lemma Begin<S(!new), K(!new)>(step: Step<S, K>, start: S)
    ensures Frontier(step, start, map[start := []], [start])
  {
  }

  lemma Pop<S(!new), K(!new)>(step: Step<S, K>, start: S, paths: map<S, seq<K>>, queue: seq<S>)
    requires Frontier(step, start, paths, queue) && queue != []
    ensures Expanding(step, start, paths, queue[1..], queue[0], {})
  {
    hide Run, Before, Earlier, Explored;
    assert forall i :: 0 <= i < |queue[1..]| ==> queue[1..][i] == queue[i + 1];
    forall s | s in paths && s !in queue[1..] && s != queue[0]
      ensures Settled(step, paths, s) && Before(step.rank, paths[s], paths[queue[0]])
    {
      assert s !in queue;
    }
  }

  /** What is found so far comes before what `k` can find. */
  lemma EarlierBefore<K(!new)>(rank: K -> nat, path: seq<K>, at: seq<K>, done: set<K>, k: K)
    requires Earlier(rank, path, at, done) && InTurn(rank, done, k)
    ensures Before(rank, path, at + [k])
  {
    if path != [] {
      var n := |path| - 1;
      assert path == path[..n] + [path[n]];
      if Before(rank, path[..n], at) {
        BeforeSnoc(rank, path[..n], at, path[n], k);
      } else {
        assert path[..n] == (at + [k])[..n];
        assert Differ(rank, path, at + [k], n);
      }
    }
  }

  /** A key that is illegal, or leads to a state already discovered. */
  lemma Skip<S(!new), K(!new)>( step: Step<S, K>, start: S, paths: map<S, seq<K>>, queue: seq<S>, cur: S,
    done: set<K>, k: K)
    requires Expanding(step, start, paths, queue, cur, done) && InTurn(step.rank, done, k)
    requires step.next(cur, k).Some? ==> step.next(cur, k).value in paths
    ensures Expanding(step, start, paths, queue, cur, done + {k})
  {
    hide Run, Before, Settled;
    if step.next(cur, k).Some? {
      EarlierBefore(step.rank, paths[step.next(cur, k).value], paths[cur], done, k);
    }
  }

  /** A key that discovers a new state. */
  lemma Push<S(!new), K(!new)>( step: Step<S, K>, start: S, paths: map<S, seq<K>>, queue: seq<S>, cur: S,
    done: set<K>, k: K, t: S)
    requires Expanding(step, start, paths, queue, cur, done) && InTurn(step.rank, done, k)
    requires step.next(cur, k) == Some(t) && t !in paths
    ensures Expanding(step, start, paths[t := paths[cur] + [k]], queue + [t], cur, done + {k})
  {
    var path := paths[cur] + [k];
    var paths' := paths[t := path];
    RunSnoc(step, start, paths[cur], k);
    assert Before(step.rank, paths[cur], path);
    assert path[..|path| - 1] == paths[cur];
    hide Run, Before;
    forall s | s in paths ensures Before(step.rank, paths[s], path) {
      EarlierBefore(step.rank, paths[s], paths[cur], done, k);
    }
    forall s | s in paths' ensures Earlier(step.rank, paths'[s], paths'[cur], done + {k}) {
      assert s != t ==> Earlier(step.rank, paths[s], paths[cur], done);
    }
    forall s | s in paths' && s !in queue + [t] && s != cur
      ensures Settled(step, paths', s)
    {
      assert s in paths && s !in queue;
      forall k' ensures Explored(step, paths', s, k') {
        assert Explored(step, paths, s, k');
      }
    }
    forall k' | k' in done + {k} ensures Explored(step, paths', cur, k') {
      assert k' == k || Explored(step, paths, cur, k');
    }
  }

  lemma Close<S(!new), K(!new)>( step: Step<S, K>, start: S, paths: map<S, seq<K>>, queue: seq<S>, cur: S,
    done: set<K>)
    requires Expanding(step, start, paths, queue, cur, done)
    requires forall k: K :: k in done
    ensures Frontier(step, start, paths, queue)
  {
    hide Run, Before, Explored;
    if queue != [] {
      forall s | s in paths ensures Earlier(step.rank, paths[s], paths[queue[0]], {}) {
        assert Earlier(step.rank, paths[s], paths[cur], done);
        var n := |paths[s]| - 1;
        if paths[s] != [] && paths[s][..n] != paths[cur] {
          BeforeTransitive(step.rank, paths[s][..n], paths[cur], paths[queue[0]]);
        }
      }
      forall s | s in paths && s !in queue ensures Before(step.rank, paths[s], paths[queue[0]]) {
        if s != cur { BeforeTransitive(step.rank, paths[s], paths[cur], paths[queue[0]]); }
      }
    }
  }

  /**
    No key sequence beats the search: a state reached by `keys` is either
    discovered with these keys or a path before them, or `keys` is longer than the
    path of the state at the head of the queue.
  */
  lemma {:induction false} Shortest<S(!new), K(!new)>( step: Step<S, K>, start: S, paths: map<S, seq<K>>,
    queue: seq<S>, keys: seq<K>)
    requires Frontier(step, start, paths, queue)
    requires Run(step, start, keys).Some?
    ensures var t := Run(step, start, keys).value;
            || (t in paths && Ahead(step.rank, paths[t], keys))
            || (queue != [] && |paths[queue[0]]| < |keys|)
    decreases |keys|
  {
    if keys != [] {
      var n := |keys| - 1;
      Shortest(step, start, paths, queue, keys[..n]);
      var s := Run(step, start, keys[..n]).value;
      var t := Run(step, start, keys).value;
      if s in paths && Ahead(step.rank, paths[s], keys[..n]) {
        if s in queue {
          HeadFirst(step, start, paths, queue, s);
        } else {
          assert Explored(step, paths, s, keys[n]);
          AheadSnoc(step.rank, paths[s], keys[..n], keys[n]);
          assert keys == keys[..n] + [keys[n]];
          AheadTransitive(step.rank, paths[t], paths[s] + [keys[n]], keys);
        }
      }
    }
  }

  lemma HeadFirst<S(!new), K(!new)>(step: Step<S, K>, start: S, paths: map<S, seq<K>>, queue: seq<S>, s: S)
    requires Frontier(step, start, paths, queue) && s in queue
    ensures s in paths && Ahead(step.rank, paths[queue[0]], paths[s])
  {
    hide Run, Before;
    var i :| 0 <= i < |queue| && queue[i] == s;
    assert i > 0 ==> Before(step.rank, paths[queue[0]], paths[queue[i]]);
  }

  /** When the queue is empty the search has found exactly the reachable states, each by its first path. */
  lemma Exhausted<S(!new), K(!new)>(step: Step<S, K>, start: S, paths: map<S, seq<K>>, keys: seq<K>)
    requires Frontier(step, start, paths, [])
    requires Run(step, start, keys).Some?
    ensures Run(step, start, keys).value in paths
    ensures Ahead(step.rank, paths[Run(step, start, keys).value], keys)
  {
    Shortest(step, start, paths, [], keys);
  }

  /** The first goal taken from the queue is a nearest one, and reached by the first of all paths to a goal. */
  lemma NearestGoal<S(!new), K(!new)>( step: Step<S, K>, start: S, paths: map<S, seq<K>>, queue: seq<S>,
    goals: set<S>, keys: seq<K>)
    requires Frontier(step, start, paths, queue)
    requires forall s :: s in paths && s !in queue ==> s !in goals
    requires Run(step, start, keys).Some? && Run(step, start, keys).value in goals
    ensures queue != [] && queue[0] in paths && Ahead(step.rank, paths[queue[0]], keys)
  {
    hide Before, Earlier, Settled;
    Shortest(step, start, paths, queue, keys);
    var t := Run(step, start, keys).value;
    if t in paths && Ahead(step.rank, paths[t], keys) {
      HeadFirst(step, start, paths, queue, t);
      AheadTransitive(step.rank, paths[queue[0]], paths[t], keys);
    } else {
      ShorterBefore(step.rank, paths[queue[0]], keys);
    }
  }

  lemma ShorterBefore<K(!new)>(rank: K -> nat, a: seq<K>, b: seq<K>)
    requires |a| < |b|
    ensures Ahead(rank, a, b)
  {
  }
}
