/**
  The snake player of brains/nsnake/brain.py: breadth-first search to the nearest
  food, flood fill of the free space, and the choice of the next direction.
*/
module Snake {
  import opened Wrappers
  import opened Search

  datatype Dir = Up | Down | Left | Right
  datatype Cell = Cell(x: int, y: int)
  datatype Arena = Arena(width: nat, height: nat, blocked: set<Cell>)

  function Next(c: Cell, d: Dir): Cell {
    match d
    case Up => Cell(c.x, c.y - 1)
    case Down => Cell(c.x, c.y + 1)
    case Left => Cell(c.x - 1, c.y)
    case Right => Cell(c.x + 1, c.y)
  }

  /** Rows grow downwards, columns to the right, and each direction is one cell. */
  lemma NextMeans(c: Cell)
    ensures Next(c, Up).y + 1 == c.y == Next(c, Down).y - 1 && Next(c, Up).x == c.x == Next(c, Down).x
    ensures Next(c, Left).x + 1 == c.x == Next(c, Right).x - 1 && Next(c, Left).y == c.y == Next(c, Right).y
  {
  }

  predicate Inside(a: Arena, c: Cell) { 0 <= c.x < a.width && 0 <= c.y < a.height }

  predicate Free(a: Arena, c: Cell) { Inside(a, c) && c !in a.blocked }

  function StepTo(a: Arena, c: Cell, d: Dir): Option<Cell> {
    if Free(a, Next(c, d)) then Some(Next(c, d)) else None
  }

  /** The place of a direction in the order in which the searches look around. */
  function DirRank(d: Dir): nat {
    match d case Up => 0 case Down => 1 case Left => 2 case Right => 3
  }

  ghost function Moves(a: Arena): Step<Cell, Dir> {
    Step((c: Cell, d: Dir) => StepTo(a, c, d), DirRank)
  }

  /** The order in which the searches look around. */
  function Look(k: nat): Dir {
    if k == 0 then Up else if k == 1 then Down else if k == 2 then Left else Right
  }

  ghost predicate Reaches(a: Arena, start: Cell, c: Cell, n: nat) {
    exists keys: seq<Dir> :: |keys| == n && Run(Moves(a), start, keys) == Some(c)
  }

  ghost predicate Reachable(a: Arena, start: Cell, c: Cell) {
    exists n :: Reaches(a, start, c, n)
  }

  ghost function Box(a: Arena, start: Cell): set<Cell> {
    (set x, y | 0 <= x < a.width && 0 <= y < a.height :: Cell(x, y)) + {start}
  }

  /** The cells the snake could reach from `start`. */
  ghost function Region(a: Arena, start: Cell): set<Cell> {
    set c | c in Box(a, start) && Reachable(a, start, c)
  }

  lemma {:induction false} RunInBox(a: Arena, start: Cell, keys: seq<Dir>)
    requires Run(Moves(a), start, keys).Some?
    ensures Run(Moves(a), start, keys).value in Box(a, start)
    decreases |keys|
  {
    if keys != [] {
      var c := Run(Moves(a), start, keys).value;
      assert Inside(a, c);
      assert c == Cell(c.x, c.y);
    }
  }

  /** The region is exactly what is reachable, inside the box or not. */
  lemma RegionExact(a: Arena, start: Cell, c: Cell)
    ensures c in Region(a, start) <==> Reachable(a, start, c)
  {
    hide Run, Box, Moves;
    if Reachable(a, start, c) {
      var n :| Reaches(a, start, c, n);
      var keys :| |keys| == n && Run(Moves(a), start, keys) == Some(c);
      RunInBox(a, start, keys);
    }
  }

  // ---------------------------------------------------------------- the search ledger

  /** The parent map of the search: each cell's parent is one step back on its key path. */
  ghost predicate Parents(a: Arena, start: Cell, paths: map<Cell, seq<Dir>>, prev: map<Cell, Option<Cell>>) {
    && prev.Keys == paths.Keys
    && (forall c {:trigger prev[c]} :: c in prev && prev[c].None? ==> c == start)
    && (forall c {:trigger prev[c]} :: c in prev && prev[c].Some? ==> ParentOf(paths, c, prev[c].value))
  }

  ghost predicate ParentOf(paths: map<Cell, seq<Dir>>, c: Cell, parent: Cell) {
    && c in paths && parent in paths && paths[c] != []
    && paths[parent] == paths[c][..|paths[c]| - 1]
    && Next(parent, paths[c][|paths[c]| - 1]) == c
  }

  ghost predicate Grown(paths: map<Cell, seq<Dir>>, queue: seq<Cell>, paths': map<Cell, seq<Dir>>, queue': seq<Cell>) {
    && (forall c :: c in paths ==> c in paths' && paths'[c] == paths[c])
    && (forall c :: c in paths' && c !in paths ==> c in queue')
    && (forall c :: c in queue ==> c in queue')
    && (paths'.Keys == paths.Keys ==> queue' == queue)
  }

  lemma GrownOne(paths: map<Cell, seq<Dir>>, queue: seq<Cell>, next: Cell, path: seq<Dir>)
    requires next !in paths
    ensures Grown(paths, queue, paths[next := path], queue + [next])
  {
    assert next in paths[next := path].Keys;
  }

  lemma GrownFurther(a: map<Cell, seq<Dir>>, p: seq<Cell>, b: map<Cell, seq<Dir>>, q: seq<Cell>, c: map<Cell,
    seq<Dir>>, r: seq<Cell>)
    requires Grown(a, p, b, q) && Grown(b, q, c, r)
    ensures Grown(a, p, c, r)
  {
  }

  lemma GrownSame(paths: map<Cell, seq<Dir>>, queue: seq<Cell>)
    ensures Grown(paths, queue, paths, queue)
  {
  }

  lemma ExtendParents(a: Arena, start: Cell, paths: map<Cell, seq<Dir>>, prev: map<Cell, Option<Cell>>, cur: Cell,
    d: Dir)
    requires Parents(a, start, paths, prev)
    requires cur in paths && Next(cur, d) !in paths
    ensures Parents(a, start, paths[Next(cur, d) := paths[cur] + [d]], prev[Next(cur, d) := Some(cur)])
  {
    var next := Next(cur, d);
    var paths', prev' := paths[next := paths[cur] + [d]], prev[next := Some(cur)];
    assert prev'.Keys == paths'.Keys;
    assert (paths[cur] + [d])[..|paths[cur] + [d]| - 1] == paths[cur];
    forall c {:trigger prev'[c]} | c in prev' && prev'[c].Some?
      ensures ParentOf(paths', c, prev'[c].value)
    {
      assert c == next || prev'[c] == prev[c];
    }
  }

  /** The first `n` directions of the order. */
  ghost predicate TriedInOrder(done: set<Dir>, n: nat) {
    (forall i :: 0 <= i < n ==> Look(i) in done) && forall d :: d in done ==> DirRank(d) < n
  }

  lemma NoneTried()
    ensures TriedInOrder({}, 0)
  {
  }

  lemma NextInOrder(done: set<Dir>, n: nat)
    requires n < 4 && TriedInOrder(done, n)
    ensures InTurn(DirRank, done, Look(n)) && TriedInOrder(done + {Look(n)}, n + 1)
  {
  }

  lemma AllDirs(done: set<Dir>)
    requires TriedInOrder(done, 4)
    ensures forall d: Dir :: d in done
  {
    forall d: Dir ensures d in done {
      assert Look(0) in done && Look(1) in done && Look(2) in done && Look(3) in done;
      match d case Up => case Down => case Left => case Right =>
    }
  }

  lemma AllInBox(a: Arena, start: Cell, paths: map<Cell, seq<Dir>>)
    requires Sound(Moves(a), start, paths)
    ensures paths.Keys <= Box(a, start)
  {
    hide Moves, Box;
    forall c | c in paths ensures c in Box(a, start) {
      RunInBox(a, start, paths[c]);
    }
  }

  /** Every iteration discovers a cell of the finite box or shortens the queue. */
  lemma Progress(a: Arena, start: Cell, paths: map<Cell, seq<Dir>>, queue: seq<Cell>, paths': map<Cell, seq<Dir>>,
    queue': seq<Cell>)
    requires Frontier(Moves(a), start, paths', queue')
    requires Grown(paths, queue, paths', queue')
    ensures var left, left' := Box(a, start) - paths.Keys, Box(a, start) - paths'.Keys;
            left' < left || (left' == left && queue' == queue)
  {
    hide Run, Moves, Box, Line, Earlier, Settled;
    AllInBox(a, start, paths');
    assert paths.Keys <= paths'.Keys;
  }

  lemma Discovered(a: Arena, start: Cell, paths: map<Cell, seq<Dir>>, queue: seq<Cell>)
    requires Frontier(Moves(a), start, paths, queue)
    ensures start in paths && paths[start] == []
    ensures queue != [] ==> queue[0] in paths && Run(Moves(a), start, paths[queue[0]]) == Some(queue[0])
  {
    hide Run;
  }

  // ---------------------------------------------------------------- nearest food

  /** Expands one cell of the food search. */
  method Expand(a: Arena, ghost start: Cell, cur: Cell, prev: map<Cell, Option<Cell>>, queue: seq<Cell>,
    ghost paths: map<Cell, seq<Dir>>)
    returns (prev': map<Cell, Option<Cell>>, queue': seq<Cell>, ghost paths': map<Cell, seq<Dir>>)
    requires Parents(a, start, paths, prev)
    requires Expanding(Moves(a), start, paths, queue, cur, {})
    ensures Parents(a, start, paths', prev')
    ensures Frontier(Moves(a), start, paths', queue')
    ensures Grown(paths, queue, paths', queue')
  {
    hide *;
    prev', queue', paths' := prev, queue, paths;
    ghost var done: set<Dir> := {};
    GrownSame(paths, queue);
    NoneTried();
    for k := 0 to 4
      invariant TriedInOrder(done, k)
      invariant Parents(a, start, paths', prev')
      invariant Expanding(Moves(a), start, paths', queue', cur, done)
      invariant Grown(paths, queue, paths', queue')
    {
      var next := Next(cur, Look(k));
      NextInOrder(done, k);
      MoveMeaning(a, start, paths', queue', cur, done, prev', Look(k));
      if !Inside(a, next) || next in prev' || next in a.blocked {
        Skip(Moves(a), start, paths', queue', cur, done, Look(k));
      } else {
        Push(Moves(a), start, paths', queue', cur, done, Look(k), next);
        ExtendParents(a, start, paths', prev', cur, Look(k));
        GrownOne(paths', queue', next, paths'[cur] + [Look(k)]);
        GrownFurther(paths, queue, paths', queue', paths'[next := paths'[cur] + [Look(k)]], queue' + [next]);
        prev' := prev'[next := Some(cur)];
        queue' := queue' + [next];
        paths' := paths'[next := paths'[cur] + [Look(k)]];
      }
      done := done + {Look(k)};
    }
    AllDirs(done);
    Close(Moves(a), start, paths', queue', cur, done);
  }

  lemma MoveMeaning(a: Arena, start: Cell, paths: map<Cell, seq<Dir>>, queue: seq<Cell>, cur: Cell, done: set<Dir>,
    prev: map<Cell, Option<Cell>>, d: Dir)
    requires Parents(a, start, paths, prev)
    requires Expanding(Moves(a), start, paths, queue, cur, done)
    ensures cur in paths && prev.Keys == paths.Keys
    ensures Moves(a).rank == DirRank
    ensures Moves(a).next(cur, d) ==
      if Inside(a, Next(cur, d)) && Next(cur, d) !in a.blocked then Some(Next(cur, d)) else None
  {
    hide Run, Line, Earlier, Explored, Settled;
  }

  /** `cells` are the cells visited by pressing `keys` from `start`, both ends included. */
  ghost predicate Trail(start: Cell, keys: seq<Dir>, cells: seq<Cell>) {
    && |cells| == |keys| + 1
    && cells[0] == start
    && forall i :: 0 <= i < |keys| ==> cells[i + 1] == Next(cells[i], keys[i])
  }

  /** Reads the path back from the parent map. */
  method PathTo(a: Arena, start: Cell, goal: Cell, prev: map<Cell, Option<Cell>>, ghost paths: map<Cell, seq<Dir>>)
    returns (path: seq<Cell>)
    requires Parents(a, start, paths, prev) && goal in paths && start in paths && paths[start] == []
    ensures Trail(start, paths[goal], path) && path[|path| - 1] == goal
  {
    hide Parents, Trail;
    path := [goal];
    ghost var tail: seq<Dir> := [];
    TrailAlone(goal);
    KeysAgree(a, start, paths, prev);
    while prev[path[0]].Some?
      invariant path != [] && path[0] in paths && path[|path| - 1] == goal
      invariant prev.Keys == paths.Keys
      invariant paths[goal] == paths[path[0]] + tail
      invariant Trail(path[0], tail, path)
      decreases |paths[path[0]]|
    {
      ghost var c, keys := path[0], paths[path[0]];
      var parent := prev[path[0]].value;
      ParentAt(a, start, paths, prev, c);
      ghost var d := keys[|keys| - 1];
      TrailPrepend(parent, d, tail, path);
      assert keys + tail == paths[parent] + ([d] + tail);
      tail := [d] + tail;
      path := [parent] + path;
    }
    RootIsStart(a, start, paths, prev, path[0]);
    assert paths[goal] == tail;
  }

  lemma ParentAt(a: Arena, start: Cell, paths: map<Cell, seq<Dir>>, prev: map<Cell, Option<Cell>>, c: Cell)
    requires Parents(a, start, paths, prev) && c in prev && prev[c].Some?
    ensures ParentOf(paths, c, prev[c].value)
  {
  }

  lemma RootIsStart(a: Arena, start: Cell, paths: map<Cell, seq<Dir>>, prev: map<Cell, Option<Cell>>, c: Cell)
    requires Parents(a, start, paths, prev) && c in prev && prev[c].None?
    ensures c == start
  {
  }

  lemma KeysAgree(a: Arena, start: Cell, paths: map<Cell, seq<Dir>>, prev: map<Cell, Option<Cell>>)
    requires Parents(a, start, paths, prev)
    ensures prev.Keys == paths.Keys
  {
  }

  lemma TrailAlone(c: Cell)
    ensures Trail(c, [], [c])
  {
  }

  lemma TrailPrepend(c: Cell, d: Dir, keys: seq<Dir>, cells: seq<Cell>)
    requires Trail(Next(c, d), keys, cells)
    ensures Trail(c, [d] + keys, [c] + cells)
  {
    var keys', cells' := [d] + keys, [c] + cells;
    forall i | 0 <= i < |keys'| ensures cells'[i + 1] == Next(cells'[i], keys'[i]) {
      assert i > 0 ==> cells'[i] == cells[i - 1] && keys'[i] == keys[i - 1];
    }
  }

  /** `path` runs along the first of the shortest legal routes to a goal: with up before down, left and right. */
  ghost predicate NearestPath(a: Arena, start: Cell, goals: set<Cell>, path: seq<Cell>) {
    exists keys :: NearestRoute(a, start, goals, keys) && Trail(start, keys, path)
  }

  ghost predicate NearestRoute(a: Arena, start: Cell, goals: set<Cell>, keys: seq<Dir>) {
    && GoalRoute(a, start, goals, keys)
    && forall other :: GoalRoute(a, start, goals, other) ==> Ahead(DirRank, keys, other)
  }

  lemma NearestRouteUnique(a: Arena, start: Cell, goals: set<Cell>, keys: seq<Dir>, other: seq<Dir>)
    requires NearestRoute(a, start, goals, keys) && NearestRoute(a, start, goals, other)
    ensures keys == other
  {
    hide GoalRoute, Before;
    AheadUnique(DirRank, keys, other);
  }

  ghost predicate GoalRoute(a: Arena, start: Cell, goals: set<Cell>, keys: seq<Dir>) {
    Run(Moves(a), start, keys).Some? && Run(Moves(a), start, keys).value in goals
  }

  /** The first shortest route to the nearest goal, None exactly when no goal can be reached. */
  method Bfs(a: Arena, start: Cell, goals: set<Cell>) returns (path: Option<seq<Cell>>)
    ensures path.None? <==> forall keys :: !GoalRoute(a, start, goals, keys)
    ensures path.Some? ==> NearestPath(a, start, goals, path.value)
  {
    hide *;
    var prev: map<Cell, Option<Cell>> := map[start := None];
    var queue := [start];
    ghost var paths: map<Cell, seq<Dir>> := map[start := []];
    Opening(a, start, goals);
    while queue != []
      invariant Frontier(Moves(a), start, paths, queue)
      invariant Parents(a, start, paths, prev)
      invariant NoGoalSettled(paths, queue, goals)
      decreases Box(a, start) - paths.Keys, |queue|
    {
      var cur := queue[0];
      Discovered(a, start, paths, queue);
      if cur in goals {
        var cells := PathTo(a, start, cur, prev, paths);
        Found(a, start, paths, queue, goals, cells);
        return Some(cells);
      }
      ghost var paths0, queue0 := paths, queue;
      Pop(Moves(a), start, paths, queue);
      prev, queue, paths := Expand(a, start, cur, prev, queue[1..], paths);
      StillNoGoal(paths0, queue0, paths, queue, goals);
      Progress(a, start, paths0, queue0[1..], paths, queue);
    }
    NotFound(a, start, paths, goals);
    path := None;
  }

  ghost predicate NoGoalSettled(paths: map<Cell, seq<Dir>>, queue: seq<Cell>, goals: set<Cell>) {
    forall c :: c in paths && c !in queue ==> c !in goals
  }

  lemma Opening(a: Arena, start: Cell, goals: set<Cell>)
    ensures Frontier(Moves(a), start, map[start := []], [start])
    ensures Parents(a, start, map[start := []], map[start := None])
    ensures NoGoalSettled(map[start := []], [start], goals)
  {
    Begin(Moves(a), start);
  }

  lemma StillNoGoal(paths: map<Cell, seq<Dir>>, queue: seq<Cell>, paths': map<Cell, seq<Dir>>, queue': seq<Cell>,
    goals: set<Cell>)
    requires queue != [] && queue[0] !in goals && NoGoalSettled(paths, queue, goals)
    requires Grown(paths, queue[1..], paths', queue')
    ensures NoGoalSettled(paths', queue', goals)
  {
    forall c | c in paths' && c !in queue' ensures c !in goals {
      assert c !in queue[1..];
    }
  }

  lemma Found(a: Arena, start: Cell, paths: map<Cell, seq<Dir>>, queue: seq<Cell>, goals: set<Cell>, cells: seq<Cell>)
    requires Frontier(Moves(a), start, paths, queue) && queue != []
    requires NoGoalSettled(paths, queue, goals) && queue[0] in goals
    requires queue[0] in paths && Run(Moves(a), start, paths[queue[0]]) == Some(queue[0])
    requires Trail(start, paths[queue[0]], cells)
    ensures NearestPath(a, start, goals, cells)
    ensures exists keys :: GoalRoute(a, start, goals, keys)
  {
    hide Run, Frontier, Trail, Before;
    forall other | GoalRoute(a, start, goals, other) ensures Ahead(DirRank, paths[queue[0]], other) {
      NearestGoal(Moves(a), start, paths, queue, goals, other);
    }
    assert GoalRoute(a, start, goals, paths[queue[0]]);
    assert NearestRoute(a, start, goals, paths[queue[0]]);
  }

  lemma NotFound(a: Arena, start: Cell, paths: map<Cell, seq<Dir>>, goals: set<Cell>)
    requires Frontier(Moves(a), start, paths, []) && NoGoalSettled(paths, [], goals)
    ensures forall keys :: !GoalRoute(a, start, goals, keys)
  {
    hide Run, Frontier, Moves;
    forall keys ensures !GoalRoute(a, start, goals, keys) {
      if GoalRoute(a, start, goals, keys) {
        Exhausted(Moves(a), start, paths, keys);
      }
    }
  }

  // ---------------------------------------------------------------- flood fill

  /** The number of cells reachable from `start`. */
  method FloodFree(a: Arena, start: Cell) returns (count: nat)
    ensures count == |Region(a, start)|
  {
    hide *;
    var seen := {start};
    var queue := [start];
    ghost var paths: map<Cell, seq<Dir>> := map[start := []];
    Opening(a, start, {});
    assert paths.Keys == {start};
    while queue != []
      invariant Frontier(Moves(a), start, paths, queue)
      invariant seen == paths.Keys
      decreases Box(a, start) - paths.Keys, |queue|
    {
      var cur := queue[0];
      ghost var paths0, queue0 := paths, queue[1..];
      Pop(Moves(a), start, paths, queue);
      seen, queue, paths := FloodCell(a, start, cur, seen, queue[1..], paths);
      Progress(a, start, paths0, queue0, paths, queue);
    }
    Flooded(a, start, paths);
    count := |seen|;
  }

  method FloodCell(a: Arena, ghost start: Cell, cur: Cell, seen: set<Cell>, queue: seq<Cell>, ghost paths: map<Cell,
    seq<Dir>>)
    returns (seen': set<Cell>, queue': seq<Cell>, ghost paths': map<Cell, seq<Dir>>)
    requires seen == paths.Keys
    requires Expanding(Moves(a), start, paths, queue, cur, {})
    ensures seen' == paths'.Keys
    ensures Frontier(Moves(a), start, paths', queue')
    ensures Grown(paths, queue, paths', queue')
  {
    hide *;
    seen', queue', paths' := seen, queue, paths;
    ghost var done: set<Dir> := {};
    GrownSame(paths, queue);
    NoneTried();
    for k := 0 to 4
      invariant TriedInOrder(done, k)
      invariant seen' == paths'.Keys
      invariant Expanding(Moves(a), start, paths', queue', cur, done)
      invariant Grown(paths, queue, paths', queue')
    {
      var next := Next(cur, Look(k));
      NextInOrder(done, k);
      FloodMeaning(a, start, paths', queue', cur, done, Look(k));
      if !Inside(a, next) || next in seen' || next in a.blocked {
        Skip(Moves(a), start, paths', queue', cur, done, Look(k));
      } else {
        Push(Moves(a), start, paths', queue', cur, done, Look(k), next);
        GrownOne(paths', queue', next, paths'[cur] + [Look(k)]);
        GrownFurther(paths, queue, paths', queue', paths'[next := paths'[cur] + [Look(k)]], queue' + [next]);
        seen' := seen' + {next};
        queue' := queue' + [next];
        paths' := paths'[next := paths'[cur] + [Look(k)]];
      }
      done := done + {Look(k)};
    }
    AllDirs(done);
    Close(Moves(a), start, paths', queue', cur, done);
  }

  lemma FloodMeaning(a: Arena, start: Cell, paths: map<Cell, seq<Dir>>, queue: seq<Cell>, cur: Cell, done: set<Dir>,
    d: Dir)
    requires Expanding(Moves(a), start, paths, queue, cur, done)
    ensures cur in paths
    ensures Moves(a).rank == DirRank
    ensures Moves(a).next(cur, d) ==
      if Inside(a, Next(cur, d)) && Next(cur, d) !in a.blocked then Some(Next(cur, d)) else None
  {
    hide Run, Line, Earlier, Explored, Settled;
  }

  lemma Flooded(a: Arena, start: Cell, paths: map<Cell, seq<Dir>>)
    requires Frontier(Moves(a), start, paths, [])
    ensures paths.Keys == Region(a, start)
  {
    hide Run, Moves, Box, Line, Earlier, Settled;
    forall c ensures c in paths <==> c in Region(a, start) {
      RegionExact(a, start, c);
      if c in paths {
        assert Reaches(a, start, c, |paths[c]|);
      }
      if Reachable(a, start, c) {
        var n :| Reaches(a, start, c, n);
        var keys: seq<Dir> :| |keys| == n && Run(Moves(a), start, keys) == Some(c);
        Exhausted(Moves(a), start, paths, keys);
      }
    }
  }
}
