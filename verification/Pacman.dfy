/**
  The maze player of brains/pacman4console/brain.py on a torus: the danger zone
  around the ghosts, the shortest safe route to food, and the key that is sent.
*/
module Pacman {
  import opened Wrappers
  import opened Search

  const WIDTH := 28
  const HEIGHT := 29

  datatype Dir = Up | Left | Down | Right
  datatype Cell = Cell(x: int, y: int)

  /** What one screen shows: the cells known to be walkable, food, ghosts and the player. */
  datatype Maze = Maze(walkable: set<Cell>, food: set<Cell>, ghosts: set<Cell>, head: Cell)

  /** The neighbour in a direction; both pairs of maze edges are joined by tunnels. */
  function Next(c: Cell, d: Dir): Cell {
    match d
    case Up => Cell(c.x % WIDTH, (c.y - 1) % HEIGHT)
    case Left => Cell((c.x - 1) % WIDTH, c.y % HEIGHT)
    case Down => Cell(c.x % WIDTH, (c.y + 1) % HEIGHT)
    case Right => Cell((c.x + 1) % WIDTH, c.y % HEIGHT)
  }

  /** Inside the maze a direction is one cell up, left, down or right; at an edge it leads to the opposite one. */
  lemma NextMeans(c: Cell)
    requires 0 <= c.x < 28 && 0 <= c.y < 29
    ensures Next(c, Up) == Cell(c.x, if c.y == 0 then 28 else c.y - 1)
    ensures Next(c, Down) == Cell(c.x, if c.y == 28 then 0 else c.y + 1)
    ensures Next(c, Left) == Cell(if c.x == 0 then 27 else c.x - 1, c.y)
    ensures Next(c, Right) == Cell(if c.x == 27 then 0 else c.x + 1, c.y)
  {
  }

  function Opposite(d: Dir): Dir {
    match d case Up => Down case Left => Right case Down => Up case Right => Left
  }

  /** On the torus opposite directions undo each other, tunnels included. */
  lemma TunnelsAreTwoWay(c: Cell, d: Dir)
    requires 0 <= c.x < WIDTH && 0 <= c.y < HEIGHT
    ensures Next(Next(c, d), Opposite(d)) == c
  {
    ColumnsWrap(c.x);
    RowsWrap(c.y);
    match d case Up => case Left => case Down => case Right =>
  }

  lemma ColumnsWrap(v: int)
    requires 0 <= v < 28
    ensures v % 28 == v && ((v - 1) % 28 + 1) % 28 == v && ((v + 1) % 28 - 1) % 28 == v
  {
  }

  lemma RowsWrap(v: int)
    requires 0 <= v < 29
    ensures v % 29 == v && ((v - 1) % 29 + 1) % 29 == v && ((v + 1) % 29 - 1) % 29 == v
  {
  }

  function Look(k: nat): Dir {
    if k == 0 then Up else if k == 1 then Left else if k == 2 then Down else Right
  }

  /** The first `n` directions of the order. */
  ghost predicate TriedInOrder(done: set<Dir>, n: nat) {
    (forall i :: 0 <= i < n ==> Look(i) in done) && forall d :: d in done ==> DirRank(d) < n
  }

  lemma NoneTried()
    ensures TriedInOrder({}, 0)
  {
  }

  lemma NextInOrder(done: set<Dir>, n: nat)
    requires n < 4 && TriedInOrder(done, n)
    ensures InTurn(DirRank, done, Look(n)) && TriedInOrder(done + {Look(n)}, n + 1)
  {
  }

  lemma LookedAll(done: set<Dir>)
    requires TriedInOrder(done, 4)
    ensures forall d: Dir :: d in done
  {
    forall d: Dir ensures d in done {
      assert Look(0) in done && Look(1) in done && Look(2) in done && Look(3) in done;
      match d case Up => case Left => case Down => case Right =>
    }
  }

  function StepTo(walkable: set<Cell>, blocked: set<Cell>, c: Cell, d: Dir): Option<Cell> {
    if Next(c, d) in walkable && Next(c, d) !in blocked then Some(Next(c, d)) else None
  }

  /** The place of a direction in the order in which the search looks around. */
  function DirRank(d: Dir): nat {
    match d case Up => 0 case Left => 1 case Down => 2 case Right => 3
  }

  ghost function Moves(walkable: set<Cell>, blocked: set<Cell>): Step<Cell, Dir> {
    Step((c: Cell, d: Dir) => StepTo(walkable, blocked, c, d), DirRank)
  }

  /** Without a map that contains everything visible, only visibly occupied cells are walkable. */
  function Walkable(level: Option<set<Cell>>, visible: set<Cell>): (w: set<Cell>)
    ensures visible <= w
  {
    if level.None? || !(visible <= level.value) then visible else level.value
  }

  // ---------------------------------------------------------------- danger

  /** c is at most n walkable steps away from a ghost. */
  ghost predicate Near(walkable: set<Cell>, ghosts: set<Cell>, c: Cell, n: nat) {
    exists g, keys :: HuntPath(walkable, ghosts, g, keys, c, n)
  }

  ghost predicate HuntPath(walkable: set<Cell>, ghosts: set<Cell>, g: Cell, keys: seq<Dir>, c: Cell, n: nat) {
    g in ghosts && |keys| <= n && Run(Moves(walkable, {}), g, keys) == Some(c)
  }

  lemma NearZero(walkable: set<Cell>, ghosts: set<Cell>, c: Cell)
    ensures Near(walkable, ghosts, c, 0) <==> c in ghosts
  {
    if c in ghosts { assert HuntPath(walkable, ghosts, c, [], c, 0); }
  }

  lemma NearSucc(walkable: set<Cell>, ghosts: set<Cell>, c: Cell, n: nat)
    ensures Near(walkable, ghosts, c, n) ==> Near(walkable, ghosts, c, n + 1)
    ensures (exists p, d :: Near(walkable, ghosts, p, n) && Next(p, d) == c) && c in walkable
      ==> Near(walkable, ghosts, c, n + 1)
    ensures Near(walkable, ghosts, c, n + 1) && !Near(walkable, ghosts, c, n)
      ==> c in walkable && exists p, d :: Near(walkable, ghosts, p, n) && Next(p, d) == c
  {
    if Near(walkable, ghosts, c, n) {
      var g, keys :| HuntPath(walkable, ghosts, g, keys, c, n);
      assert HuntPath(walkable, ghosts, g, keys, c, n + 1);
    }
    if p, d :| Near(walkable, ghosts, p, n) && Next(p, d) == c && c in walkable {
      var g, keys :| HuntPath(walkable, ghosts, g, keys, p, n);
      RunSnoc(Moves(walkable, {}), g, keys, d);
      assert HuntPath(walkable, ghosts, g, keys + [d], c, n + 1);
    }
    if Near(walkable, ghosts, c, n + 1) && !Near(walkable, ghosts, c, n) {
      var g, keys :| HuntPath(walkable, ghosts, g, keys, c, n + 1);
      assert !HuntPath(walkable, ghosts, g, keys, c, n);
      var p := Run(Moves(walkable, {}), g, keys[..n]).value;
      assert HuntPath(walkable, ghosts, g, keys[..n], p, n);
      assert Near(walkable, ghosts, p, n) && Next(p, keys[n]) == c;
    }
  }

  /** `danger` is the zone within n steps and `frontier` what the last step added. */
  ghost predicate Zone(walkable: set<Cell>, ghosts: set<Cell>, danger: set<Cell>, frontier: set<Cell>, n: nat) {
    && (forall c :: c in danger <==> Near(walkable, ghosts, c, n))
    && frontier <= danger
    && (forall c :: c in danger && c !in frontier ==> n > 0 && Near(walkable, ghosts, c, n - 1))
  }

  lemma ZoneGrows(walkable: set<Cell>, ghosts: set<Cell>, danger: set<Cell>, frontier: set<Cell>, n: nat,
    frontier': set<Cell>)
    requires Zone(walkable, ghosts, danger, frontier, n)
    requires forall c :: c in frontier' <==>
      c in walkable && c !in danger && exists p, d :: p in frontier && Next(p, d) == c
    ensures Zone(walkable, ghosts, danger + frontier', frontier', n + 1)
  {
    hide Near, Next;
    forall c ensures c in danger + frontier' <==> Near(walkable, ghosts, c, n + 1) {
      NearSucc(walkable, ghosts, c, n);
      if Near(walkable, ghosts, c, n + 1) && c !in danger {
        var p, d :| Near(walkable, ghosts, p, n) && Next(p, d) == c;
        if p !in frontier {
          assert Near(walkable, ghosts, p, n - 1);
          NearSucc(walkable, ghosts, c, n - 1);
        }
      }
    }
  }

  /** Grows the danger zone step by step from the ghosts. */
  method Danger(walkable: set<Cell>, ghosts: set<Cell>, radius: nat) returns (danger: set<Cell>)
    ensures forall c :: c in danger <==> Near(walkable, ghosts, c, radius)
  {
    hide Near, Next;
    danger := ghosts;
    var frontier := ghosts;
    forall c ensures c in ghosts <==> Near(walkable, ghosts, c, 0) { NearZero(walkable, ghosts, c); }
    for i := 0 to radius
      invariant Zone(walkable, ghosts, danger, frontier, i)
    {
      var frontier' := (set c, d | c in frontier && Next(c, d) in walkable :: Next(c, d)) - danger;
      ZoneGrows(walkable, ghosts, danger, frontier, i, frontier');
      frontier := frontier';
      danger := danger + frontier;
    }
  }

  /** The configured radius, cut to 0..4 and truncated. */
  function Radius(weight: real): (r: nat)
    ensures weight < 0.0 ==> r == 0
    ensures 0.0 <= weight < 4.0 ==> r as real <= weight < r as real + 1.0
    ensures weight >= 4.0 ==> r == 4
  {
    if weight <= 0.0 then 0 else if weight >= 4.0 then 4 else weight.Floor
  }

  // ---------------------------------------------------------------- routes

  ghost predicate FoodRoute(m: Maze, blocked: set<Cell>, keys: seq<Dir>) {
    Run(Moves(m.walkable, blocked), m.head, keys).Some? && Run(Moves(m.walkable, blocked), m.head, keys).value in m.food
  }

  ghost predicate ShortestFoodRoute(m: Maze, blocked: set<Cell>, keys: seq<Dir>) {
    FoodRoute(m, blocked, keys) && forall other :: FoodRoute(m, blocked, other) ==> Ahead(DirRank, keys, other)
  }

  lemma ShortestFoodRouteUnique(m: Maze, blocked: set<Cell>, keys: seq<Dir>, other: seq<Dir>)
    requires ShortestFoodRoute(m, blocked, keys) && ShortestFoodRoute(m, blocked, other)
    ensures keys == other
  {
    hide FoodRoute, Before;
    AheadUnique(DirRank, keys, other);
  }

  ghost function Box(m: Maze): set<Cell> { m.walkable + {m.head} }

  function FirstOf(keys: seq<Dir>): Option<Dir> { if keys == [] then None else Some(keys[0]) }

  /** The queue pairs every waiting cell with the first key of its path. */
  ghost predicate Paired(paths: map<Cell, seq<Dir>>, cells: seq<Cell>, queue: seq<(Cell, Option<Dir>)>) {
    && |queue| == |cells|
    && forall i :: 0 <= i < |cells| ==> cells[i] in paths && queue[i] == (cells[i], FirstOf(paths[cells[i]]))
  }

  ghost predicate Grown(paths: map<Cell, seq<Dir>>, queue: seq<Cell>, paths': map<Cell, seq<Dir>>, queue': seq<Cell>) {
    && (forall c :: c in paths ==> c in paths' && paths'[c] == paths[c])
    && (forall c :: c in paths' && c !in paths ==> c in queue')
    && (forall c :: c in queue ==> c in queue')
    && (paths'.Keys == paths.Keys ==> queue' == queue)
  }

  lemma GrownSame(paths: map<Cell, seq<Dir>>, queue: seq<Cell>)
    ensures Grown(paths, queue, paths, queue)
  {
  }

  lemma PairedOne(paths: map<Cell, seq<Dir>>, cells: seq<Cell>, queue: seq<(Cell, Option<Dir>)>, cur: Cell,
    first: Option<Dir>, d: Dir, next: Cell)
    requires Paired(paths, cells, queue) && cur in paths && next !in paths && first == FirstOf(paths[cur])
    ensures Paired(paths[next := paths[cur] + [d]], cells + [next],
              queue + [(next, if first.Some? then first else Some(d))])
    ensures FirstOf(paths[next := paths[cur] + [d]][cur]) == first
  {
  }

  lemma GrownOne(a: map<Cell, seq<Dir>>, p: seq<Cell>, paths: map<Cell, seq<Dir>>, queue: seq<Cell>, next: Cell,
    path: seq<Dir>)
    requires Grown(a, p, paths, queue) && next !in paths
    ensures Grown(a, p, paths[next := path], queue + [next])
  {
    assert next in paths[next := path].Keys;
  }

  lemma {:induction false} RunInBox(m: Maze, blocked: set<Cell>, keys: seq<Dir>)
    requires Run(Moves(m.walkable, blocked), m.head, keys).Some?
    ensures Run(Moves(m.walkable, blocked), m.head, keys).value in Box(m)
    decreases |keys|
  {
  }

  lemma Progress(m: Maze, blocked: set<Cell>, paths: map<Cell, seq<Dir>>, queue: seq<Cell>, paths': map<Cell,
    seq<Dir>>, queue': seq<Cell>)
    requires Frontier(Moves(m.walkable, blocked), m.head, paths', queue')
    requires Grown(paths, queue, paths', queue')
    ensures var left, left' := Box(m) - paths.Keys, Box(m) - paths'.Keys;
            left' < left || (left' == left && queue' == queue)
  {
    hide Run, Moves, Box, Line, Earlier, Settled;
    forall c | c in paths' ensures c in Box(m) { RunInBox(m, blocked, paths'[c]); }
    assert paths.Keys <= paths'.Keys;
  }

  lemma Discovered(m: Maze, blocked: set<Cell>, paths: map<Cell, seq<Dir>>, cells: seq<Cell>, queue: seq<(Cell,
    Option<Dir>)>)
    requires Frontier(Moves(m.walkable, blocked), m.head, paths, cells) && Paired(paths, cells, queue)
    ensures |queue| == |cells|
    ensures queue != [] ==>
      && queue[0].0 == cells[0] && cells[0] in paths && queue[0].1 == FirstOf(paths[cells[0]])
      && Run(Moves(m.walkable, blocked), m.head, paths[cells[0]]) == Some(cells[0])
      && Paired(paths, cells[1..], queue[1..])
  {
    hide Run;
  }

  lemma MoveMeaning(m: Maze, blocked: set<Cell>, paths: map<Cell, seq<Dir>>, cells: seq<Cell>, cur: Cell,
    done: set<Dir>, d: Dir)
    requires Expanding(Moves(m.walkable, blocked), m.head, paths, cells, cur, done)
    ensures cur in paths
    ensures Moves(m.walkable, blocked).rank == DirRank
    ensures Moves(m.walkable, blocked).next(cur, d) ==
      if Next(cur, d) in m.walkable && Next(cur, d) !in blocked then Some(Next(cur, d)) else None
  {
    hide Run, Line, Earlier, Explored, Settled, Next;
  }

  /** Expands one cell; new cells inherit the first key of the path that found them. */
  method Expand(m: Maze, blocked: set<Cell>, cur: Cell, first: Option<Dir>, seen: set<Cell>, queue: seq<(Cell,
    Option<Dir>)>, ghost cells: seq<Cell>, ghost paths: map<Cell, seq<Dir>>)
    returns (seen': set<Cell>, queue': seq<(Cell, Option<Dir>)>, ghost cells': seq<Cell>, ghost paths': map<Cell,
      seq<Dir>>)
    requires Expanding(Moves(m.walkable, blocked), m.head, paths, cells, cur, {})
    requires seen == paths.Keys && Paired(paths, cells, queue)
    requires cur in paths && first == FirstOf(paths[cur])
    ensures Frontier(Moves(m.walkable, blocked), m.head, paths', cells')
    ensures seen' == paths'.Keys && Paired(paths', cells', queue')
    ensures Grown(paths, cells, paths', cells')
  {
    hide *;
    seen', queue', cells', paths' := seen, queue, cells, paths;
    ghost var done: set<Dir> := {};
    GrownSame(paths, cells);
    NoneTried();
    for k := 0 to 4
      invariant TriedInOrder(done, k)
      invariant Expanding(Moves(m.walkable, blocked), m.head, paths', cells', cur, done)
      invariant seen' == paths'.Keys && Paired(paths', cells', queue')
      invariant cur in paths' && first == FirstOf(paths'[cur])
      invariant Grown(paths, cells, paths', cells')
    {
      var next := Next(cur, Look(k));
      MoveMeaning(m, blocked, paths', cells', cur, done, Look(k));
      NextInOrder(done, k);
      if next in m.walkable && next !in blocked && next !in seen' {
        Push(Moves(m.walkable, blocked), m.head, paths', cells', cur, done, Look(k), next);
        PairedOne(paths', cells', queue', cur, first, Look(k), next);
        GrownOne(paths, cells, paths', cells', next, paths'[cur] + [Look(k)]);
        seen' := seen' + {next};
        queue' := queue' + [(next, if first.Some? then first else Some(Look(k)))];
        cells' := cells' + [next];
        paths' := paths'[next := paths'[cur] + [Look(k)]];
      } else {
        Skip(Moves(m.walkable, blocked), m.head, paths', cells', cur, done, Look(k));
      }
      done := done + {Look(k)};
    }
    LookedAll(done);
    Close(Moves(m.walkable, blocked), m.head, paths', cells', cur, done);
  }

  ghost predicate NoFoodSettled(paths: map<Cell, seq<Dir>>, queue: seq<Cell>, food: set<Cell>) {
    forall c :: c in paths && c !in queue ==> c !in food
  }

  lemma Opening(m: Maze, blocked: set<Cell>)
    ensures Frontier(Moves(m.walkable, blocked), m.head, map[m.head := []], [m.head])
    ensures Paired(map[m.head := []], [m.head], [(m.head, None)])
    ensures NoFoodSettled(map[m.head := []], [m.head], m.food)
  {
    Begin(Moves(m.walkable, blocked), m.head);
  }

  lemma StillNoFood(paths: map<Cell, seq<Dir>>, queue: seq<Cell>, paths': map<Cell, seq<Dir>>, queue': seq<Cell>,
    food: set<Cell>)
    requires queue != [] && queue[0] !in food && NoFoodSettled(paths, queue, food)
    requires Grown(paths, queue[1..], paths', queue')
    ensures NoFoodSettled(paths', queue', food)
  {
    forall c | c in paths' && c !in queue' ensures c !in food {
      assert c !in queue[1..];
    }
  }

  lemma Found(m: Maze, blocked: set<Cell>, paths: map<Cell, seq<Dir>>, cells: seq<Cell>)
    requires Frontier(Moves(m.walkable, blocked), m.head, paths, cells) && cells != []
    requires NoFoodSettled(paths, cells, m.food) && cells[0] in m.food
    requires cells[0] in paths && Run(Moves(m.walkable, blocked), m.head, paths[cells[0]]) == Some(cells[0])
    ensures ShortestFoodRoute(m, blocked, paths[cells[0]])
    ensures paths[cells[0]] == [] ==> m.head in m.food
  {
    hide Frontier, Before;
    forall other | FoodRoute(m, blocked, other) ensures Ahead(DirRank, paths[cells[0]], other) {
      NearestGoal(Moves(m.walkable, blocked), m.head, paths, cells, m.food, other);
    }
  }

  lemma NotFound(m: Maze, blocked: set<Cell>, paths: map<Cell, seq<Dir>>)
    requires Frontier(Moves(m.walkable, blocked), m.head, paths, []) && NoFoodSettled(paths, [], m.food)
    ensures forall keys :: !FoodRoute(m, blocked, keys)
  {
    hide Run, Frontier, Moves;
    forall keys ensures !FoodRoute(m, blocked, keys) {
      if FoodRoute(m, blocked, keys) {
        Exhausted(Moves(m.walkable, blocked), m.head, paths, keys);
      }
    }
  }

  /** The first key of a shortest route to food; None exactly when there is none to press. */
  ghost predicate RouteKey(m: Maze, blocked: set<Cell>, key: Option<Dir>) {
    match key
    case Some(d) => exists keys :: ShortestFoodRoute(m, blocked, keys) && keys != [] && keys[0] == d
    case None => m.head in m.food || forall keys :: !FoodRoute(m, blocked, keys)
  }

  lemma RouteKeyUnique(m: Maze, blocked: set<Cell>, key: Option<Dir>, other: Option<Dir>)
    requires RouteKey(m, blocked, key) && RouteKey(m, blocked, other) && m.head !in m.food
    ensures key == other
  {
    hide Before, FoodRoute;
    if key.Some? && other.Some? {
      var keys :| ShortestFoodRoute(m, blocked, keys) && keys != [] && keys[0] == key.value;
      var keys' :| ShortestFoodRoute(m, blocked, keys') && keys' != [] && keys'[0] == other.value;
      ShortestFoodRouteUnique(m, blocked, keys, keys');
    }
  }

  method Route(m: Maze, blocked: set<Cell>) returns (key: Option<Dir>)
    ensures RouteKey(m, blocked, key)
  {
    hide *;
    var seen := {m.head};
    var queue: seq<(Cell, Option<Dir>)> := [(m.head, None)];
    ghost var cells := [m.head];
    ghost var paths: map<Cell, seq<Dir>> := map[m.head := []];
    Opening(m, blocked);
    assert paths.Keys == {m.head};
    Discovered(m, blocked, paths, cells, queue);
    while queue != []
      invariant Frontier(Moves(m.walkable, blocked), m.head, paths, cells)
      invariant seen == paths.Keys && Paired(paths, cells, queue) && |queue| == |cells|
      invariant NoFoodSettled(paths, cells, m.food)
      decreases Box(m) - paths.Keys, |queue|
    {
      var (cell, first) := queue[0];
      Discovered(m, blocked, paths, cells, queue);
      if cell in m.food {
        Found(m, blocked, paths, cells);
        RouteFound(m, blocked, paths[cells[0]], first);
        return first;
      }
      ghost var paths0, cells0 := paths, cells;
      Pop(Moves(m.walkable, blocked), m.head, paths, cells);
      seen, queue, cells, paths := Expand(m, blocked, cell, first, seen, queue[1..], cells[1..], paths);
      StillNoFood(paths0, cells0, paths, cells, m.food);
      Progress(m, blocked, paths0, cells0[1..], paths, cells);
      Discovered(m, blocked, paths, cells, queue);
    }
    NotFound(m, blocked, paths);
    NoRoute(m, blocked);
    key := None;
  }

  lemma RouteFound(m: Maze, blocked: set<Cell>, keys: seq<Dir>, first: Option<Dir>)
    requires ShortestFoodRoute(m, blocked, keys) && first == FirstOf(keys)
    requires keys == [] ==> m.head in m.food
    ensures RouteKey(m, blocked, first)
  {
    hide ShortestFoodRoute;
  }

  lemma NoRoute(m: Maze, blocked: set<Cell>)
    requires forall keys :: !FoodRoute(m, blocked, keys)
    ensures RouteKey(m, blocked, None)
  {
  }

  // ---------------------------------------------------------------- the decision

  ghost predicate Opens(m: Maze, blocked: set<Cell>, d: Dir) {
    Next(m.head, d) in m.walkable && Next(m.head, d) !in blocked
  }

  /** The first open neighbour in the order up, left, down, right. */
  ghost predicate FirstOpen(m: Maze, blocked: set<Cell>, d: Dir) {
    exists k :: 0 <= k < 4 && Look(k) == d && Opens(m, blocked, d) && forall i :: 0 <= i < k ==>
      !Opens(m, blocked, Look(i))
  }

  method Corridor(m: Maze, blocked: set<Cell>) returns (key: Option<Dir>)
    ensures key.Some? ==> FirstOpen(m, blocked, key.value)
    ensures key.None? ==> forall d :: !Opens(m, blocked, d)
  {
    hide Next;
    key := None;
    for k := 0 to 4
      invariant forall i :: 0 <= i < k ==> !Opens(m, blocked, Look(i))
    {
      if Next(m.head, Look(k)) in m.walkable && Next(m.head, Look(k)) !in blocked {
        return Some(Look(k));
      }
    }
    forall d ensures !Opens(m, blocked, d) {
      assert !Opens(m, blocked, Look(0)) && !Opens(m, blocked, Look(1)) && !Opens(m, blocked, Look(2)) &&
        !Opens(m, blocked, Look(3));
      match d case Up => case Left => case Down => case Right =>
    }
  }

  /** The danger zone of the configured radius. */
  ghost function DangerZone(m: Maze, radius: nat): (z: set<Cell>)
    requires m.ghosts <= m.walkable
    ensures forall c :: c in z <==> Near(m.walkable, m.ghosts, c, radius)
  {
    hide Run;
    forall c | Near(m.walkable, m.ghosts, c, radius) ensures c in m.walkable {
      var g, keys :| HuntPath(m.walkable, m.ghosts, g, keys, c, radius);
      RunInBox(Maze(m.walkable, {}, {}, g), {}, keys);
    }
    set c | c in m.walkable && Near(m.walkable, m.ghosts, c, radius)
  }

  lemma FirstOpenUnique(m: Maze, blocked: set<Cell>, d: Dir, o: Dir)
    requires FirstOpen(m, blocked, d) && FirstOpen(m, blocked, o)
    ensures d == o
  {
    hide Opens;
    var k :| 0 <= k < 4 && Look(k) == d && Opens(m, blocked, d) && forall i :: 0 <= i < k ==>
      !Opens(m, blocked, Look(i));
    var l :| 0 <= l < 4 && Look(l) == o && Opens(m, blocked, o) && forall i :: 0 <= i < l ==>
      !Opens(m, blocked, Look(i));
  }

  /**
    The key sent.  The first shortest route to food outside the danger zone is preferred,
    then a shortest route that only avoids the ghosts themselves, then a corridor
    outside the zone, then one without a ghost, then Right.
  */
  ghost predicate Decision(m: Maze, weight: real, key: Dir)
    requires m.ghosts <= m.walkable
  {
    var zone := DangerZone(m, Radius(weight));
    if exists keys :: FoodRoute(m, zone, keys) then RouteKey(m, zone, Some(key))
    else if exists keys :: FoodRoute(m, m.ghosts, keys) then RouteKey(m, m.ghosts, Some(key))
    else if exists d :: Opens(m, zone, d) then FirstOpen(m, zone, key)
    else if exists d :: Opens(m, m.ghosts, d) then FirstOpen(m, m.ghosts, key)
    else key == Right
  }

  /** One key at most is chosen. */
  lemma DecisionUnique(m: Maze, weight: real, key: Dir, other: Dir)
    requires m.ghosts <= m.walkable && m.head !in m.food
    requires Decision(m, weight, key) && Decision(m, weight, other)
    ensures key == other
  {
    hide FoodRoute, RouteKey, FirstOpen, Opens, DangerZone, Radius;
    var zone := DangerZone(m, Radius(weight));
    if exists keys :: FoodRoute(m, zone, keys) {
      RouteKeyUnique(m, zone, Some(key), Some(other));
    } else if exists keys :: FoodRoute(m, m.ghosts, keys) {
      RouteKeyUnique(m, m.ghosts, Some(key), Some(other));
    } else if exists d :: Opens(m, zone, d) {
      FirstOpenUnique(m, zone, key, other);
    } else if exists d :: Opens(m, m.ghosts, d) {
      FirstOpenUnique(m, m.ghosts, key, other);
    }
  }

  method Decide(m: Maze, weight: real) returns (key: Dir)
    requires m.food <= m.walkable && m.ghosts <= m.walkable && m.head in m.walkable && m.head !in m.food
    ensures Decision(m, weight, key)
  {
    hide FoodRoute, ShortestFoodRoute, Opens, Near, Radius;
    var danger := Danger(m.walkable, m.ghosts, Radius(weight));
    assert danger == DangerZone(m, Radius(weight));
    var safe := Route(m, danger);
    if safe.Some? {
      assert exists keys :: FoodRoute(m, danger, keys) by { RouteExists(m, danger, safe); }
      return safe.value;
    }
    var risky := Route(m, m.ghosts);
    if risky.Some? {
      assert exists keys :: FoodRoute(m, m.ghosts, keys) by { RouteExists(m, m.ghosts, risky); }
      return risky.value;
    }
    var way := Corridor(m, danger);
    if way.Some? { return way.value; }
    way := Corridor(m, m.ghosts);
    if way.Some? { return way.value; }
    return Right;
  }

  lemma RouteExists(m: Maze, blocked: set<Cell>, key: Option<Dir>)
    requires RouteKey(m, blocked, key) && key.Some?
    ensures exists keys :: FoodRoute(m, blocked, keys)
  {
    var keys :| ShortestFoodRoute(m, blocked, keys) && keys != [] && keys[0] == key.value;
    assert FoodRoute(m, blocked, keys);
  }
}
