/**
  The placement search of brains/bastet/brain.py: a breadth-first search over
  (x, orientation) at the spawn height with a hard drop from every visited state.
*/
module BastetSearch {
  import opened Wrappers
  import opened Search
  import opened BastetBoard

  datatype Key = Left | Right | Space | Up

  /** Anchor column, anchor row and orientation. */
  datatype State = State(x: int, y: int, o: int)

  datatype Placement = Placement(landing: State, path: seq<Key>)

  predicate Oriented(s: State) {
    0 <= s.o < 4
  }

  function Cells(piece: Piece, s: State): (r: seq<Offset>)
    requires Oriented(s)
    ensures Tetromino(r)
  {
    ShapesAreTetrominoes(piece, s.o);
    Shape(piece, s.o)
  }

  predicate Stands(board: Board, piece: Piece, s: State)
    requires WellFormed(board)
  {
    Oriented(s) && Fits(board, Cells(piece, s), s.x, s.y)
  }

  /** The raw effect of a key; turns wrap modulo 4. */
  function Move(s: State, key: Key): (t: State)
    requires Oriented(s)
    ensures Oriented(t) && t.y == s.y
  {
    match key
    case Left => s.(x := s.x - 1)
    case Right => s.(x := s.x + 1)
    case Space => s.(o := (s.o + 1) % 4)
    case Up => s.(o := (s.o + 3) % 4)
  }

  predicate Turn(key: Key) { key.Space? || key.Up? }

  /** A key press as the search takes it: no collision, and no turn that changes nothing. */
  function KeyStep(board: Board, piece: Piece, s: State, key: Key): Option<State>
    requires WellFormed(board)
  {
    if !Oriented(s) then None
    else
      var t := Move(s, key);
      if (Turn(key) && Cells(piece, t) == Cells(piece, s)) || !Stands(board, piece, t) then None
      else Some(t)
  }

  /** A key press as the game takes it: every fitting turn is legal. */
  function GameStep(board: Board, piece: Piece, s: State, key: Key): Option<State>
    requires WellFormed(board)
  {
    if Oriented(s) && Stands(board, piece, Move(s, key)) then Some(Move(s, key)) else None
  }

  /** The place of a key in the order in which the search tries them. */
  function KeyRank(key: Key): nat {
    match key case Left => 0 case Right => 1 case Space => 2 case Up => 3
  }

  ghost function Keys(board: Board, piece: Piece): Step<State, Key>
    requires WellFormed(board)
  {
    Step((s: State, key: Key) => KeyStep(board, piece, s, key), KeyRank)
  }

  ghost function Game(board: Board, piece: Piece): Step<State, Key>
    requires WellFormed(board)
  {
    Step((s: State, key: Key) => GameStep(board, piece, s, key), KeyRank)
  }

  /** `row` is where a piece released at s comes to rest. */
  ghost predicate RestsAt(board: Board, piece: Piece, s: State, row: int)
    requires WellFormed(board) && Oriented(s)
  {
    && s.y <= row
    && (forall r :: s.y < r <= row ==> Fits(board, Cells(piece, s), s.x, r))
    && !Fits(board, Cells(piece, s), s.x, row + 1)
  }

  lemma RestIsUnique(board: Board, piece: Piece, s: State, a: int, b: int)
    requires WellFormed(board) && Oriented(s)
    requires RestsAt(board, piece, s, a) && RestsAt(board, piece, s, b)
    ensures a == b
  {
    assert a < b ==> s.y < a + 1 <= b;
    assert b < a ==> s.y < b + 1 <= a;
  }

  /** The hard drop. */
  method Drop(board: Board, piece: Piece, s: State) returns (row: int)
    requires WellFormed(board) && Stands(board, piece, s)
    ensures RestsAt(board, piece, s, row)
    ensures Stands(board, piece, s.(y := row))
  {
    row := s.y;
    var shape := Cells(piece, s);
    assert CellFits(board, s.x + shape[0].0, s.y + shape[0].1);
    while Fits(board, shape, s.x, row + 1)
      invariant s.y <= row && Fits(board, shape, s.x, row)
      invariant forall r :: s.y < r <= row ==> Fits(board, shape, s.x, r)
      invariant row <= HEIGHT
      decreases HEIGHT - row
    {
      assert CellFits(board, s.x + shape[0].0, row + 1 + shape[0].1);
      row := row + 1;
    }
  }

  /** The landing reached by pressing `keys` and dropping: it must lie inside the well. */
  ghost predicate Lands(board: Board, piece: Piece, start: State, keys: seq<Key>, landing: State)
    requires WellFormed(board)
  {
    && Run(Keys(board, piece), start, keys).Some?
    && var s := Run(Keys(board, piece), start, keys).value;
       && Oriented(s)
       && landing == s.(y := landing.y)
       && RestsAt(board, piece, s, landing.y)
       && InWell(Cells(piece, s), landing.y)
  }

  /**
    The list is exact: one entry per landing, each entry's path is legal and lands
    there, every legal key sequence lands on a listed entry, whose path is the
    first of these, and the entries are in the order of their paths.
  */
  ghost predicate ExactPlacements(board: Board, piece: Piece, start: State, r: seq<Placement>)
    requires WellFormed(board)
  {
    && (forall i, j :: 0 <= i < j < |r| ==> r[i].landing != r[j].landing && Before(KeyRank, r[i].path, r[j].path))
    && (forall i :: 0 <= i < |r| ==> Lands(board, piece, start, r[i].path, r[i].landing))
    && (forall keys, landing :: Lands(board, piece, start, keys, landing) ==>
          exists i :: Listed(r, i, landing) && Ahead(KeyRank, r[i].path, keys))
  }

  ghost predicate Listed(r: seq<Placement>, i: int, landing: State) {
    0 <= i < |r| && r[i].landing == landing
  }

  /** What exactness leaves open: nothing. */
  lemma PlacementsUnique(board: Board, piece: Piece, start: State, r: seq<Placement>, q: seq<Placement>)
    requires WellFormed(board)
    requires ExactPlacements(board, piece, start, r) && ExactPlacements(board, piece, start, q)
    ensures r == q
  {
    hide Lands, Before;
    forall i | 0 <= i < |r| ensures r[i] in q { OnBoth(board, piece, start, r, q, i); }
    forall i | 0 <= i < |q| ensures q[i] in r { OnBoth(board, piece, start, q, r, i); }
    SortedUnique(r, q);
  }

  lemma OnBoth(board: Board, piece: Piece, start: State, r: seq<Placement>, q: seq<Placement>, i: nat)
    requires WellFormed(board) && i < |r|
    requires ExactPlacements(board, piece, start, r) && ExactPlacements(board, piece, start, q)
    ensures r[i] in q
  {
    hide Lands, Before, ExactPlacements, WellFormed;
    var landing := r[i].landing;
    EntryLands(board, piece, start, r, i);
    var j := EntryOf(board, piece, start, q, r[i].path, landing);
    EntryLands(board, piece, start, q, j);
    var k := EntryOf(board, piece, start, r, q[j].path, landing);
    OneEntry(board, piece, start, r, i, k);
    AheadUnique(KeyRank, q[j].path, r[i].path);
    assert q[j] == r[i];
  }

  lemma EntryLands(board: Board, piece: Piece, start: State, r: seq<Placement>, i: nat)
    requires WellFormed(board) && ExactPlacements(board, piece, start, r) && i < |r|
    ensures Lands(board, piece, start, r[i].path, r[i].landing)
  {
    hide Lands, Before, Ahead, WellFormed;
  }

  lemma EntryOf(board: Board, piece: Piece, start: State, r: seq<Placement>, keys: seq<Key>, landing: State)
    returns (i: nat)
    requires WellFormed(board) && ExactPlacements(board, piece, start, r)
    requires Lands(board, piece, start, keys, landing)
    ensures i < |r| && r[i].landing == landing && Ahead(KeyRank, r[i].path, keys)
  {
    hide Lands, Before, Ahead, WellFormed;
    i :| Listed(r, i, landing) && Ahead(KeyRank, r[i].path, keys);
  }

  lemma OneEntry(board: Board, piece: Piece, start: State, r: seq<Placement>, i: nat, j: nat)
    requires WellFormed(board) && ExactPlacements(board, piece, start, r)
    requires i < |r| && j < |r| && r[i].landing == r[j].landing
    ensures i == j
  {
    hide Lands, Before, Ahead, WellFormed;
  }

  ghost predicate Sorted(r: seq<Placement>) {
    forall i, j :: 0 <= i < j < |r| ==> Before(KeyRank, r[i].path, r[j].path)
  }

  /** Two lists in the order of their paths that hold the same entries are equal. */
  lemma {:induction false} SortedUnique(r: seq<Placement>, q: seq<Placement>)
    requires Sorted(r) && Sorted(q) && (forall p :: p in r <==> p in q)
    ensures r == q
    decreases |r|
  {
    hide Before;
    if r == [] {
      if q != [] { HoldsSome(q, r); }
    } else {
      HoldsSome(r, q);
      assert r[0] in q && q[0] in r;
      var i, j :| 0 <= i < |q| && q[i] == r[0] && 0 <= j < |r| && r[j] == q[0];
      if i > 0 && j > 0 {
        BeforeTransitive(KeyRank, r[0].path, q[0].path, r[0].path);
        NotBeforeItself(KeyRank, r[0].path);
      }
      assert r[0] == q[0];
      FirstOnly(r);
      FirstOnly(q);
      assert r == [r[0]] + r[1..] && q == [q[0]] + q[1..];
      forall p ensures p in r[1..] <==> p in q[1..] {
        assert p in r[1..] <==> p in r && p != r[0];
        assert p in q[1..] <==> p in q && p != q[0];
      }
      SortedUnique(r[1..], q[1..]);
    }
  }

  lemma HoldsSome(r: seq<Placement>, q: seq<Placement>)
    requires r != [] && forall p :: p in r ==> p in q
    ensures q != []
  {
    assert r[0] in q;
  }

  lemma FirstOnly(r: seq<Placement>)
    requires Sorted(r) && r != []
    ensures r[0] !in r[1..]
  {
    NotBeforeItself(KeyRank, r[0].path);
    hide Before;
    forall i | 0 <= i < |r[1..]| ensures r[1..][i] != r[0] {
      assert Before(KeyRank, r[0].path, r[i + 1].path);
    }
  }

  // ---------------------------------------------------------------- facts about the state space

  /** Every state of the search lies in this finite box. */
  ghost function Box(y: int): set<State> {
    set x, o | -3 <= x < WIDTH && 0 <= o < 4 :: State(x, y, o)
  }

  lemma StandingInBox(board: Board, piece: Piece, s: State)
    requires WellFormed(board) && Stands(board, piece, s)
    ensures s in Box(s.y)
  {
    var shape := Cells(piece, s);
    assert CellFits(board, s.x + shape[0].0, s.y + shape[0].1);
  }

  lemma {:induction false} RunStands(board: Board, piece: Piece, start: State, keys: seq<Key>)
    requires WellFormed(board) && Stands(board, piece, start)
    requires Run(Keys(board, piece), start, keys).Some?
    ensures var s := Run(Keys(board, piece), start, keys).value; Stands(board, piece, s) && s.y == start.y
    decreases |keys|
  {
    if keys != [] { RunStands(board, piece, start, keys[..|keys| - 1]); }
  }

  /** What the landing table holds while the search runs. */
  ghost predicate Table(board: Board, piece: Piece, start: State, paths: map<State, seq<Key>>, queue: seq<State>,
    landings: map<State, seq<Key>>, order: seq<State>)
    requires WellFormed(board)
  {
    && (forall l :: l in landings <==> l in order)
    && (forall i, j :: 0 <= i < j < |order| ==>
          order[i] != order[j] && Before(KeyRank, landings[order[i]], landings[order[j]]))
    && (forall l :: l in landings ==> Lands(board, piece, start, landings[l], l))
    && (forall l :: l in landings ==> l.(y := start.y) in paths && paths[l.(y := start.y)] == landings[l])
    && (forall l :: l in landings ==> l.(y := start.y) !in queue)
    && (forall s :: s in paths && s !in queue ==> Tabled(board, piece, s, landings))
  }

  ghost predicate Tabled(board: Board, piece: Piece, s: State, landings: map<State, seq<Key>>)
    requires WellFormed(board)
  {
    Oriented(s) ==> forall row :: RestsAt(board, piece, s, row) && InWell(Cells(piece, s), row) ==>
      s.(y := row) in landings
  }

  /** The parent map spells out the key paths. */
  ghost predicate Parents(start: State, paths: map<State, seq<Key>>, previous: map<State, Option<(State, Key)>>) {
    && previous.Keys == paths.Keys
    && (forall s {:trigger previous[s]} :: s in previous && previous[s].None? ==> s == start)
    && (forall s {:trigger previous[s]} :: s in previous && previous[s].Some? ==>
          previous[s].value.0 in paths && paths[s] == paths[previous[s].value.0] + [previous[s].value.1])
  }

  function Reversed(keys: seq<Key>): (r: seq<Key>)
    ensures |r| == |keys|
  {
    if keys == [] then [] else Reversed(keys[1..]) + [keys[0]]
  }

  lemma ReversedNone()
    ensures Reversed([]) == []
  {
  }

  lemma {:induction false} ReversedSnoc(keys: seq<Key>, k: Key)
    ensures Reversed(keys + [k]) == [k] + Reversed(keys)
  {
    if keys == [] {
      assert keys + [k] == [k];
    } else {
      assert (keys + [k])[1..] == keys[1..] + [k];
      ReversedSnoc(keys[1..], k);
    }
  }

  /** Reads a path back from the parent map. */
  method PathTo(start: State, state: State, previous: map<State, Option<(State, Key)>>, ghost paths: map<State,
    seq<Key>>)
    returns (path: seq<Key>)
    requires state in paths && Parents(start, paths, previous)
    requires start in paths && paths[start] == []
    ensures path == paths[state]
  {
    hide Reversed;
    ReversedNone();
    var backward: seq<Key> := [];
    var cursor := state;
    while previous[cursor].Some?
      invariant cursor in paths
      invariant paths[cursor] + Reversed(backward) == paths[state]
      decreases |paths[cursor]|
    {
      var (parent, key) := previous[cursor].value;
      ReversedSnoc(backward, key);
      assert paths[parent] + ([key] + Reversed(backward)) == (paths[parent] + [key]) + Reversed(backward);
      backward := backward + [key];
      cursor := parent;
    }
    path := Reversed(backward);
  }

  /** The order in which the search tries the keys. */
  function MoveKey(k: nat): Key {
    if k == 0 then Left else if k == 1 then Right else if k == 2 then Space else Up
  }

  /** The table and queue only grow, and whatever is new is queued. */
  ghost predicate Grown(paths: map<State, seq<Key>>, queue: seq<State>, paths': map<State, seq<Key>>,
    queue': seq<State>)
  {
    && (forall s :: s in paths ==> s in paths' && paths'[s] == paths[s])
    && (forall s :: s in paths' && s !in paths ==> s in queue')
    && (forall s :: s in queue ==> s in queue')
    && (forall s :: s in queue' && s in paths ==> s in queue)
    && (paths'.Keys == paths.Keys ==> queue' == queue)
  }

  /** One key of the inner loop: a legal key that leads to a new state is recorded and queued. */
  method TryKey(board: Board, piece: Piece, ghost step: Step<State, Key>, ghost start: State, state: State, key: Key,
    previous: map<State, Option<(State, Key)>>, queue: seq<State>, ghost paths: map<State, seq<Key>>,
    ghost done: set<Key>)
    returns (previous': map<State, Option<(State, Key)>>, queue': seq<State>, ghost paths': map<State, seq<Key>>)
    requires WellFormed(board) && Oriented(state)
    requires step.next(state, key) == KeyStep(board, piece, state, key)
    requires Parents(start, paths, previous)
    requires Expanding(step, start, paths, queue, state, done) && InTurn(step.rank, done, key)
    ensures Parents(start, paths', previous')
    ensures Expanding(step, start, paths', queue', state, done + {key})
    ensures Grown(paths, queue, paths', queue')
  {
    hide Run, Sound, Line, Earlier, Explored, Settled, Expanding, Parents, Grown, Stands, Cells, InTurn;
    previous', queue', paths' := previous, queue, paths;
    var next := Move(state, key);
    TableFacts(step, start, paths, queue, state, done, previous);
    if next in previous
    || (Turn(key) && Cells(piece, next) == Cells(piece, state))
    || !Stands(board, piece, next)
    {
      Skip(step, start, paths, queue, state, done, key);
    } else {
      Push(step, start, paths, queue, state, done, key, next);
      ExtendParents(start, paths, previous, state, key, next);
      GrownOne(paths, queue, next, paths[state] + [key]);
      previous' := previous[next := Some((state, key))];
      queue' := queue + [next];
      paths' := paths[next := paths[state] + [key]];
    }
  }

  lemma TableFacts(step: Step<State, Key>, start: State, paths: map<State, seq<Key>>, queue: seq<State>, state: State,
    done: set<Key>, previous: map<State, Option<(State, Key)>>)
    requires Parents(start, paths, previous)
    requires Expanding(step, start, paths, queue, state, done)
    ensures state in paths && start in paths && previous.Keys == paths.Keys
    ensures Grown(paths, queue, paths, queue)
  {
    hide Run;
  }

  lemma GrownOne(paths: map<State, seq<Key>>, queue: seq<State>, next: State, path: seq<Key>)
    requires next !in paths
    ensures Grown(paths, queue, paths[next := path], queue + [next])
  {
    assert next in paths[next := path].Keys;
  }

  lemma ExtendParents(start: State, paths: map<State, seq<Key>>, previous: map<State, Option<(State, Key)>>,
    state: State, key: Key, next: State)
    requires Parents(start, paths, previous)
    requires state in paths && start in paths && next !in paths
    ensures Parents(start, paths[next := paths[state] + [key]], previous[next := Some((state, key))])
  {
    var paths', previous' := paths[next := paths[state] + [key]], previous[next := Some((state, key))];
    assert previous'.Keys == paths'.Keys;
    forall s {:trigger previous'[s]} | s in previous' && previous'[s].Some?
      ensures previous'[s].value.0 in paths' && paths'[s] == paths'[previous'[s].value.0] + [previous'[s].value.1]
    {
      assert s == next || previous'[s] == previous[s];
    }
  }

  /** Expands one state with the four keys in order. */
  method Expand(board: Board, piece: Piece, ghost step: Step<State, Key>, ghost start: State, state: State,
    previous: map<State, Option<(State, Key)>>, queue: seq<State>, ghost paths: map<State, seq<Key>>)
    returns (previous': map<State, Option<(State, Key)>>, queue': seq<State>, ghost paths': map<State, seq<Key>>)
    requires WellFormed(board) && Oriented(state)
    requires step.rank == KeyRank && forall key :: step.next(state, key) == KeyStep(board, piece, state, key)
    requires Parents(start, paths, previous)
    requires Expanding(step, start, paths, queue, state, {})
    ensures Parents(start, paths', previous')
    ensures Frontier(step, start, paths', queue')
    ensures Grown(paths, queue, paths', queue')
  {
    hide *;
    previous', queue', paths' := previous, queue, paths;
    ghost var done: set<Key> := {};
    NoneTried();
    TableFacts(step, start, paths, queue, state, done, previous);
    for k := 0 to 4
      invariant TriedInOrder(done, k)
      invariant Parents(start, paths', previous')
      invariant Expanding(step, start, paths', queue', state, done)
      invariant Grown(paths, queue, paths', queue')
    {
      ghost var paths0, queue0 := paths', queue';
      NextInOrder(done, k);
      previous', queue', paths' := TryKey(board, piece, step, start, state, MoveKey(k), previous', queue', paths',
        done);
      GrownFurther(paths, queue, paths0, queue0, paths', queue');
      done := done + {MoveKey(k)};
    }
    AllKeys(done);
    Close(step, start, paths', queue', state, done);
  }

  lemma GrownFurther(a: map<State, seq<Key>>, p: seq<State>, b: map<State, seq<Key>>, q: seq<State>, c: map<State,
    seq<Key>>, r: seq<State>)
    requires Grown(a, p, b, q) && Grown(b, q, c, r)
    ensures Grown(a, p, c, r)
  {
  }

  /** The first `n` keys of the order. */
  ghost predicate TriedInOrder(done: set<Key>, n: nat) {
    (forall i :: 0 <= i < n ==> MoveKey(i) in done) && forall key :: key in done ==> KeyRank(key) < n
  }

  lemma NoneTried()
    ensures TriedInOrder({}, 0)
  {
  }

  lemma NextInOrder(done: set<Key>, n: nat)
    requires n < 4 && TriedInOrder(done, n)
    ensures InTurn(KeyRank, done, MoveKey(n)) && TriedInOrder(done + {MoveKey(n)}, n + 1)
  {
  }

  lemma AllKeys(done: set<Key>)
    requires TriedInOrder(done, 4)
    ensures forall k: Key :: k in done
  {
    forall k: Key ensures k in done {
      assert MoveKey(0) in done && MoveKey(1) in done && MoveKey(2) in done && MoveKey(3) in done;
      match k case Left => case Right => case Space => case Up =>
    }
  }

  // ---------------------------------------------------------------- the landing table

  /** Records the landing of the state taken from the queue unless a path at most as long is known. */
  method Record(board: Board, piece: Piece, ghost start: State, state: State, path: seq<Key>, landings: map<State,
    seq<Key>>, order: seq<State>, ghost paths: map<State, seq<Key>>, ghost queue: seq<State>)
    returns (landings': map<State, seq<Key>>, order': seq<State>)
    requires WellFormed(board) && Stands(board, piece, state) && state.y == start.y
    requires Run(Keys(board, piece), start, path) == Some(state)
    requires state in paths && paths[state] == path
    requires queue != [] && queue[0] == state && TakenInOrder(paths, queue)
    requires Table(board, piece, start, paths, queue, landings, order)
    ensures Table(board, piece, start, paths, queue[1..], landings', order')
  {
    hide *;
    StandsOriented(board, piece, state);
    var row := Drop(board, piece, state);
    landings', order' := landings, order;
    var landing := state.(y := row);
    if InWell(Cells(piece, state), row) {
      if landing !in landings || |path| < |landings[landing]| {
        if landing !in landings {
          order' := order + [landing];
        }
        landings' := landings[landing := path];
      }
      TableAdd(board, piece, start, state, path, row, paths, queue, landings, order);
    } else {
      TableSkip(board, piece, start, state, row, paths, queue, landings, order);
    }
  }

  /** The head of the queue is taken once, after the states with earlier paths. */
  ghost predicate TakenInOrder(paths: map<State, seq<Key>>, queue: seq<State>) {
    queue != [] ==>
      && queue[0] in paths && queue[0] !in queue[1..]
      && forall s :: s in paths && s !in queue ==> Before(KeyRank, paths[s], paths[queue[0]])
  }

  lemma HeadInOrder(board: Board, piece: Piece, start: State, paths: map<State, seq<Key>>, queue: seq<State>)
    requires WellFormed(board) && Frontier(Keys(board, piece), start, paths, queue)
    ensures TakenInOrder(paths, queue)
  {
    hide Run, Earlier, Settled, Before;
    if queue != [] {
      NotBeforeItself(KeyRank, paths[queue[0]]);
      forall i | 0 <= i < |queue[1..]| ensures queue[1..][i] != queue[0] {
        assert Before(KeyRank, paths[queue[0]], paths[queue[i + 1]]);
      }
    }
  }

  lemma StandsOriented(board: Board, piece: Piece, state: State)
    requires WellFormed(board) && Stands(board, piece, state)
    ensures Oriented(state)
  {
  }

  /** Every state that left the queue has its landing, the one taken now included. */
  lemma TabledAdd(board: Board, piece: Piece, state: State, row: int, paths: map<State, seq<Key>>, queue: seq<State>,
    landings: map<State, seq<Key>>, landings': map<State, seq<Key>>)
    requires WellFormed(board) && Oriented(state)
    requires queue != [] && queue[0] == state
    requires RestsAt(board, piece, state, row)
    requires landings.Keys <= landings'.Keys && state.(y := row) in landings'
    requires forall s :: s in paths && s !in queue ==> Tabled(board, piece, s, landings)
    ensures forall s :: s in paths && s !in queue[1..] ==> Tabled(board, piece, s, landings')
  {
    hide InWell, Cells, RestsAt;
    forall s | s in paths && s !in queue[1..] ensures Tabled(board, piece, s, landings') {
      if s == state {
        forall r | RestsAt(board, piece, s, r) ensures s.(y := r) in landings' {
          RestIsUnique(board, piece, s, r, row);
        }
      } else {
        assert s !in queue;
      }
    }
  }

  lemma LandsHere(board: Board, piece: Piece, start: State, state: State, path: seq<Key>, row: int)
    requires WellFormed(board) && Oriented(state)
    requires Run(Keys(board, piece), start, path) == Some(state)
    requires RestsAt(board, piece, state, row) && InWell(Cells(piece, state), row)
    ensures Lands(board, piece, start, path, state.(y := row))
  {
    hide Run, Cells, RestsAt, Keys, InWell;
  }

  /** A landing belongs to exactly one state, so a recorded landing keeps its first path. */
  lemma TableAdd(board: Board, piece: Piece, start: State, state: State, path: seq<Key>, row: int, paths: map<State,
    seq<Key>>, queue: seq<State>, landings: map<State, seq<Key>>, order: seq<State>)
    requires WellFormed(board) && Oriented(state) && state.y == start.y
    requires Run(Keys(board, piece), start, path) == Some(state)
    requires state in paths && paths[state] == path
    requires queue != [] && queue[0] == state && TakenInOrder(paths, queue)
    requires RestsAt(board, piece, state, row) && InWell(Cells(piece, state), row)
    requires Table(board, piece, start, paths, queue, landings, order)
    ensures var landing := state.(y := row);
            && (landing in landings ==> landings[landing] == path)
            && (landing in landings ==> Table(board, piece, start, paths, queue[1..], landings, order))
            && (landing !in landings ==>
                  Table(board, piece, start, paths, queue[1..], landings[landing := path], order + [landing]))
  {
    hide Run, Cells, RestsAt, Keys, InWell, Tabled, Before, Lands, Fits, WellFormed;
    var landing := state.(y := row);
    assert landing.(y := start.y) == state;
    var landings' := landings[landing := path];
    LandsHere(board, piece, start, state, path, row);
    TabledAdd(board, piece, state, row, paths, queue, landings, landings');
    assert landing in landings ==> landings' == landings;
  }

  lemma TableSkip(board: Board, piece: Piece, start: State, state: State, row: int, paths: map<State, seq<Key>>,
    queue: seq<State>, landings: map<State, seq<Key>>, order: seq<State>)
    requires WellFormed(board) && Oriented(state)
    requires queue != [] && queue[0] == state
    requires RestsAt(board, piece, state, row) && !InWell(Cells(piece, state), row)
    requires Table(board, piece, start, paths, queue, landings, order)
    ensures Table(board, piece, start, paths, queue[1..], landings, order)
  {
    hide Run, Lands, Cells, RestsAt, Before;
    forall s | s in paths && s !in queue[1..]
      ensures Tabled(board, piece, s, landings)
    {
      if s == state {
        forall r | RestsAt(board, piece, s, r) ensures r == row {
          RestIsUnique(board, piece, s, r, row);
        }
      } else {
        assert s !in queue;
      }
    }
  }

  lemma TableGrown(board: Board, piece: Piece, start: State, paths: map<State, seq<Key>>, queue: seq<State>,
    paths': map<State, seq<Key>>, queue': seq<State>, landings: map<State, seq<Key>>, order: seq<State>)
    requires WellFormed(board)
    requires Grown(paths, queue, paths', queue')
    requires Table(board, piece, start, paths, queue, landings, order)
    ensures Table(board, piece, start, paths', queue', landings, order)
  {
    hide Run, Lands, Tabled, Before;
  }

  /** The state taken from the queue is reached by its path and stands at the spawn height. */
  lemma Discovered(board: Board, piece: Piece, start: State, paths: map<State, seq<Key>>, queue: seq<State>)
    requires WellFormed(board) && Stands(board, piece, start)
    requires Frontier(Keys(board, piece), start, paths, queue) && queue != []
    ensures queue[0] in paths && start in paths && paths[start] == []
    ensures Run(Keys(board, piece), start, paths[queue[0]]) == Some(queue[0])
    ensures Stands(board, piece, queue[0]) && Oriented(queue[0]) && queue[0].y == start.y
    ensures Keys(board, piece).rank == KeyRank
    ensures forall key :: Keys(board, piece).next(queue[0], key) == KeyStep(board, piece, queue[0], key)
  {
    hide Settled, Earlier, Before, Fits, Cells;
    RunStands(board, piece, start, paths[queue[0]]);
  }

  lemma AllInBox(board: Board, piece: Piece, start: State, paths: map<State, seq<Key>>)
    requires WellFormed(board) && Stands(board, piece, start)
    requires Sound(Keys(board, piece), start, paths)
    ensures paths.Keys <= Box(start.y)
  {
    hide Stands, Keys;
    forall s | s in paths ensures s in Box(start.y) {
      RunStands(board, piece, start, paths[s]);
      StandingInBox(board, piece, s);
    }
  }

  /** Every iteration discovers a state of the finite box or shortens the queue. */
  lemma Progress(board: Board, piece: Piece, start: State, paths: map<State, seq<Key>>, queue: seq<State>,
    paths': map<State, seq<Key>>, queue': seq<State>)
    requires WellFormed(board) && Stands(board, piece, start)
    requires Sound(Keys(board, piece), start, paths')
    requires Grown(paths, queue, paths', queue')
    ensures var left, left' := Box(start.y) - paths.Keys, Box(start.y) - paths'.Keys;
            left' < left || (left' == left && queue' == queue)
  {
    hide Run;
    AllInBox(board, piece, start, paths');
    assert paths.Keys <= paths'.Keys;
  }

  lemma Exact(board: Board, piece: Piece, start: State, paths: map<State, seq<Key>>, landings: map<State, seq<Key>>,
    order: seq<State>, r: seq<Placement>)
    requires WellFormed(board) && Stands(board, piece, start)
    requires Frontier(Keys(board, piece), start, paths, [])
    requires Table(board, piece, start, paths, [], landings, order)
    requires |r| == |order|
    requires forall i :: 0 <= i < |r| ==> order[i] in landings && r[i] == Placement(order[i], landings[order[i]])
    ensures ExactPlacements(board, piece, start, r)
  {
    hide Run, Cells, RestsAt, Frontier, Before, Tabled;
    forall keys, landing | Lands(board, piece, start, keys, landing)
      ensures exists i :: Listed(r, i, landing) && Ahead(KeyRank, r[i].path, keys)
    {
      var s := Run(Keys(board, piece), start, keys).value;
      Exhausted(Keys(board, piece), start, paths, keys);
      RunStands(board, piece, start, keys);
      InTable(board, piece, s, landing, landings);
      var i :| 0 <= i < |order| && order[i] == landing;
      assert Listed(r, i, landing);
    }
  }

  lemma InTable(board: Board, piece: Piece, s: State, landing: State, landings: map<State, seq<Key>>)
    requires WellFormed(board) && Tabled(board, piece, s, landings) && Oriented(s)
    requires landing == s.(y := landing.y) && RestsAt(board, piece, s, landing.y) && InWell(Cells(piece, s), landing.y)
    ensures landing in landings
  {
    hide RestsAt, Cells, InWell;
  }

  lemma Opening(board: Board, piece: Piece, start: State)
    requires WellFormed(board) && Stands(board, piece, start)
    ensures Frontier(Keys(board, piece), start, map[start := []], [start])
    ensures Parents(start, map[start := []], map[start := None])
    ensures Table(board, piece, start, map[start := []], [start], map[], [])
  {
    Begin(Keys(board, piece), start);
  }

  lemma FrontierSound(board: Board, piece: Piece, start: State, paths: map<State, seq<Key>>, queue: seq<State>)
    requires WellFormed(board)
    requires Frontier(Keys(board, piece), start, paths, queue)
    ensures Sound(Keys(board, piece), start, paths)
  {
  }

  lemma TableOrder(board: Board, piece: Piece, start: State, paths: map<State, seq<Key>>, queue: seq<State>,
    landings: map<State, seq<Key>>, order: seq<State>)
    requires WellFormed(board)
    requires Table(board, piece, start, paths, queue, landings, order)
    ensures forall i :: 0 <= i < |order| ==> order[i] in landings
  {
  }

  /** Every reachable landing position with the key path that reaches it. */
  method Placements(board: Board, piece: Piece, start: State) returns (r: seq<Placement>)
    requires WellFormed(board) && Stands(board, piece, start)
    ensures ExactPlacements(board, piece, start, r)
  {
    hide *;
    var queue := [start];
    var previous: map<State, Option<(State, Key)>> := map[start := None];
    ghost var paths: map<State, seq<Key>> := map[start := []];
    var landings: map<State, seq<Key>> := map[];
    var order: seq<State> := [];
    Opening(board, piece, start);
    while queue != []
      invariant Frontier(Keys(board, piece), start, paths, queue)
      invariant Parents(start, paths, previous)
      invariant Table(board, piece, start, paths, queue, landings, order)
      decreases Box(start.y) - paths.Keys, |queue|
    {
      var state := queue[0];
      ghost var paths0, queue0 := paths, queue[1..];
      Discovered(board, piece, start, paths, queue);
      Pop(Keys(board, piece), start, paths, queue);
      HeadInOrder(board, piece, start, paths, queue);
      var path := PathTo(start, state, previous, paths);
      landings, order := Record(board, piece, start, state, path, landings, order, paths, queue);
      previous, queue, paths := Expand(board, piece, Keys(board, piece), start, state, previous, queue[1..], paths);
      TableGrown(board, piece, start, paths0, queue0, paths, queue, landings, order);
      FrontierSound(board, piece, start, paths, queue);
      Progress(board, piece, start, paths0, queue0, paths, queue);
    }
    TableOrder(board, piece, start, paths, queue, landings, order);
    r := seq(|order|, i requires 0 <= i < |order| && order[i] in landings => Placement(order[i], landings[order[i]]));
    Exact(board, piece, start, paths, landings, order, r);
  }

  // ---------------------------------------------------------------- what the key paths mean in the game

  /** Along a path of the search the piece fits after every key. */
  lemma PathStands(board: Board, piece: Piece, start: State, keys: seq<Key>, n: nat)
    requires WellFormed(board) && Stands(board, piece, start)
    requires Run(Keys(board, piece), start, keys).Some? && n <= |keys|
    ensures Run(Keys(board, piece), start, keys[..n]).Some?
    ensures Stands(board, piece, Run(Keys(board, piece), start, keys[..n]).value)
  {
    RunPrefix(Keys(board, piece), start, keys, n);
    RunStands(board, piece, start, keys[..n]);
  }

  /** Every path of the search is a legal key sequence of the game with the same effect. */
  lemma {:induction false} SearchPathIsGamePath(board: Board, piece: Piece, start: State, keys: seq<Key>)
    requires WellFormed(board) && Run(Keys(board, piece), start, keys).Some?
    ensures Run(Game(board, piece), start, keys) == Run(Keys(board, piece), start, keys)
    decreases |keys|
  {
    hide Stands, Cells;
    if keys != [] { SearchPathIsGamePath(board, piece, start, keys[..|keys| - 1]); }
  }

  /**
    Leaving out turns that change nothing loses no position: whatever the game can
    reach, the search reaches with at most as many keys, up to an orientation with
    the same cells.
  */
  lemma {:induction false} GamePathIsCovered(board: Board, piece: Piece, start: State, keys: seq<Key>)
    returns (shorter: seq<Key>)
    requires WellFormed(board) && Oriented(start) && Run(Game(board, piece), start, keys).Some?
    ensures |shorter| <= |keys| && Run(Keys(board, piece), start, shorter).Some?
    ensures var s, t := Run(Game(board, piece), start, keys).value, Run(Keys(board, piece), start, shorter).value;
            Oriented(s) && Oriented(t) && t.x == s.x && t.y == s.y && Cells(piece, t) == Cells(piece, s)
    decreases |keys|
  {
    hide Stands, Cells, KeyStep, GameStep, Move, Turn, Alike;
    if keys == [] {
      AlikeSelf(piece, start);
      return [];
    }
    var n := |keys| - 1;
    shorter := GamePathIsCovered(board, piece, start, keys[..n]);
    var s, t := Run(Game(board, piece), start, keys[..n]).value, Run(Keys(board, piece), start, shorter).value;
    AlikeMeans(piece, s, t);
    KeyCovered(board, piece, s, t, keys[n]);
    if !Idle(piece, t, keys[n]) {
      RunSnoc(Keys(board, piece), start, shorter, keys[n]);
      shorter := shorter + [keys[n]];
    }
    AlikeMeans(piece, Run(Game(board, piece), start, keys).value, Run(Keys(board, piece), start, shorter).value);
  }

  /** The same cells in the same place. */
  predicate Alike(piece: Piece, s: State, t: State) {
    Oriented(s) && Oriented(t) && t.x == s.x && t.y == s.y && Cells(piece, t) == Cells(piece, s)
  }

  lemma AlikeMeans(piece: Piece, s: State, t: State)
    ensures Alike(piece, s, t) <==>
      Oriented(s) && Oriented(t) && t.x == s.x && t.y == s.y && Cells(piece, t) == Cells(piece, s)
  {
    hide Cells;
  }

  lemma AlikeSelf(piece: Piece, s: State)
    requires Oriented(s)
    ensures Alike(piece, s, s)
  {
    hide Cells;
  }

  /** A turn that changes no cell. */
  predicate Idle(piece: Piece, s: State, key: Key)
    requires Oriented(s)
  {
    Turn(key) && Cells(piece, Move(s, key)) == Cells(piece, s)
  }

  /** A key that the game takes at s does nothing at an alike t, or the search takes it there with an alike effect. */
  lemma KeyCovered(board: Board, piece: Piece, s: State, t: State, key: Key)
    requires WellFormed(board) && Alike(piece, s, t) && GameStep(board, piece, s, key).Some?
    ensures var s' := GameStep(board, piece, s, key).value;
      if Idle(piece, t, key) then Alike(piece, s', t)
      else KeyStep(board, piece, t, key) == Some(Move(t, key)) && Alike(piece, s', Move(t, key))
  {
    var s', t' := Move(s, key), Move(t, key);
    SameCells(piece, s, t);
    SameCells(piece, s, s');
    SameCells(piece, t, t');
    SameCells(piece, s', t');
    hide Cells, Fits, Tetromino;
  }

  /** Equal cells mean equal orientation for every piece but O, which has one set of cells. */
  lemma SameCells(piece: Piece, s: State, t: State)
    requires Oriented(s) && Oriented(t)
    ensures piece == O ==> Cells(piece, s) == Cells(piece, t)
    ensures piece != O ==> (Cells(piece, s) == Cells(piece, t) <==> s.o == t.o)
  {
    hide Tetromino;
    AllOrientationsDiffer(piece, s.o, t.o);
  }

  /** A key sequence of the game, followed by a hard drop, puts the piece at `landing` inside the well. */
  ghost predicate GameLands(board: Board, piece: Piece, start: State, keys: seq<Key>, landing: State)
    requires WellFormed(board)
  {
    && Run(Game(board, piece), start, keys).Some?
    && var s := Run(Game(board, piece), start, keys).value;
       && Oriented(s)
       && landing == s.(y := landing.y)
       && RestsAt(board, piece, s, landing.y)
       && InWell(Cells(piece, s), landing.y)
  }

  /** Every landing of the search is one of the game. */
  lemma SearchLandsInGame(board: Board, piece: Piece, start: State, keys: seq<Key>, landing: State)
    requires WellFormed(board) && Lands(board, piece, start, keys, landing)
    ensures GameLands(board, piece, start, keys, landing)
  {
    hide Shape, Tetromino, Fits, InWell, RestsAt, Keys, Game;
    SearchPathIsGamePath(board, piece, start, keys);
  }

  /** Every landing of the game covers the same cells as one that the search reaches with at most as many keys. */
  lemma GameLandsInSearch(board: Board, piece: Piece, start: State, keys: seq<Key>, landing: State)
    returns (shorter: seq<Key>, same: State)
    requires WellFormed(board) && Oriented(start) && GameLands(board, piece, start, keys, landing)
    ensures |shorter| <= |keys| && Lands(board, piece, start, shorter, same)
    ensures Oriented(landing) && Oriented(same) && same.x == landing.x && same.y == landing.y
    ensures Cells(piece, same) == Cells(piece, landing)
  {
    hide Shape, Tetromino, Fits, InWell, Keys, Game, Run;
    shorter := GamePathIsCovered(board, piece, start, keys);
    var s, t := Run(Game(board, piece), start, keys).value, Run(Keys(board, piece), start, shorter).value;
    same := t.(y := landing.y);
  }
}
