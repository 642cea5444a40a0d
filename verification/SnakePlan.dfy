/** The choice of direction in brains/nsnake/brain.py, from the cells read off the arena. */
module SnakePlan {
  import opened Wrappers
  import opened Search
  import opened Snake

  type Rows = seq<string>

  /** The arena rows as they are cut from the screen: at least three, all of one width. */
  predicate Cut(rows: Rows) {
    |rows| >= 3 && forall y :: 0 <= y < |rows| ==> |rows[y]| == 76
  }

  ghost predicate IsBlocked(rows: Rows, body: seq<Cell>, tail: Option<Cell>, tailPassable: bool, c: Cell) {
    || (0 <= c.y < |rows| && 0 <= c.x < |rows[c.y]| && rows[c.y][c.x] == 'a')
    || (c in body && !(tailPassable && tail == Some(c)))
  }

  /** The arena the rows describe. */
  ghost function ArenaOf(rows: Rows, body: seq<Cell>, tail: Option<Cell>, tailPassable: bool): (a: Arena)
    ensures a.width == 76 && a.height == |rows|
    ensures forall c :: c in a.blocked <==> IsBlocked(rows, body, tail, tailPassable, c)
  {
    var walls := set y, x | 0 <= y < |rows| && 0 <= x < |rows[y]| && rows[y][x] == 'a' :: Cell(x, y);
    assert forall c: Cell :: c == Cell(c.x, c.y);
    Arena(76, |rows|, walls + set c | c in body && !(tailPassable && tail == Some(c)))
  }

  /** Walls, and the body except a tail that may be stepped on. */
  method BlockedCells(rows: Rows, body: seq<Cell>, tail: Option<Cell>, tailPassable: bool) returns (blocked: set<Cell>)
    requires Cut(rows)
    ensures forall c :: c in blocked <==> IsBlocked(rows, body, tail, tailPassable, c)
  {
    blocked := {};
    for y := 0 to |rows|
      invariant forall c :: c in blocked <==> 0 <= c.y < y && 0 <= c.x < |rows[c.y]| && rows[c.y][c.x] == 'a'
    {
      for x := 0 to |rows[y]|
        invariant forall c :: c in blocked <==>
          || (0 <= c.y < y && 0 <= c.x < |rows[c.y]| && rows[c.y][c.x] == 'a')
          || (c.y == y && 0 <= c.x < x && rows[y][c.x] == 'a')
      {
        if rows[y][x] == 'a' {
          blocked := blocked + {Cell(x, y)};
        }
      }
    }
    ghost var walls := blocked;
    for i := 0 to |body|
      invariant forall c :: c in blocked <==> c in walls || (c in body[..i] && !(tailPassable && tail == Some(c)))
    {
      if !(tailPassable && tail.Some? && body[i] == tail.value) {
        blocked := blocked + {body[i]};
      }
    }
  }

  predicate Candidate(a: Arena, head: Cell, d: Dir) { Free(a, Next(head, d)) }

  /** A neighbour is open exactly if it is on the screen cut, no wall, and not the body, the passable tail excepted. */
  lemma OpenExactly(rows: Rows, body: seq<Cell>, tail: Option<Cell>, tailPassable: bool, head: Cell, d: Dir)
    requires Cut(rows)
    ensures var c := Next(head, d);
      Candidate(ArenaOf(rows, body, tail, tailPassable), head, d) <==>
        && c.y >= 0 && c.y < |rows| && c.x >= 0 && c.x < 76 && rows[c.y][c.x] != 'a'
        && (c in body ==> tailPassable && tail == Some(c))
  {
  }

  ghost function Room(a: Arena, head: Cell, d: Dir): nat { |Region(a, Next(head, d))| }

  /** Alphabetical order of the direction names. */
  function Rank(d: Dir): nat {
    match d case Down => 0 case Left => 1 case Right => 2 case Up => 3
  }

  datatype Scored = Scored(space: nat, dir: Dir)

  predicate Above(p: Scored, q: Scored) {
    p.space > q.space || (p.space == q.space && Rank(p.dir) >= Rank(q.dir))
  }

  predicate Descending(s: seq<Scored>) {
    forall i, j :: 0 <= i < j < |s| ==> Above(s[i], s[j])
  }

  /** Keeps the list in descending order of (space, name). */
  method Insert(s: seq<Scored>, p: Scored) returns (r: seq<Scored>)
    requires Descending(s)
    ensures Descending(r) && |r| == |s| + 1
    ensures forall q :: q in r <==> q == p || q in s
  {
    var i := 0;
    while i < |s| && Above(s[i], p)
      invariant 0 <= i <= |s|
      invariant forall k :: 0 <= k < i ==> Above(s[k], p)
    {
      i := i + 1;
    }
    r := s[..i] + [p] + s[i..];
    assert forall q :: q in s <==> q in s[..i] || q in s[i..] by {
      assert s == s[..i] + s[i..];
    }
    forall k, l | 0 <= k < l < |r| ensures Above(r[k], r[l]) {
      assert i < |s| ==> !Above(s[i], p);
      if k == i { assert r[l] == s[l - 1]; assert l - 1 == i || Above(s[i], s[l - 1]); }
    }
  }

  /** The scored candidates other than the food step, best first. */
  ghost predicate Others(a: Arena, head: Cell, food: Option<Dir>, s: seq<Scored>) {
    && Descending(s)
    && forall p :: p in s <==> Candidate(a, head, p.dir) && food != Some(p.dir) && p.space == Room(a, head, p.dir)
  }

  method ScoreOthers(a: Arena, head: Cell, food: Option<Dir>) returns (s: seq<Scored>)
    ensures Others(a, head, food, s)
  {
    s := [];
    for k := 0 to 4
      invariant Descending(s)
      invariant forall p :: p in s <==>
        Tried(p.dir, k) && Candidate(a, head, p.dir) && food != Some(p.dir) && p.space == Room(a, head, p.dir)
    {
      hide *;
      var d := Look(k);
      TriedNext(k);
      if food != Some(d) && Inside(a, Next(head, d)) && Next(head, d) !in a.blocked {
        CandidateMeaning(a, head, d);
        var space := FloodFree(a, Next(head, d));
        RoomMeaning(a, head, d);
        s := Insert(s, Scored(space, d));
      } else {
        CandidateMeaning(a, head, d);
      }
    }
    EveryDir();
  }

  lemma CandidateMeaning(a: Arena, head: Cell, d: Dir)
    ensures Candidate(a, head, d) <==> Inside(a, Next(head, d)) && Next(head, d) !in a.blocked
  {
  }

  lemma RoomMeaning(a: Arena, head: Cell, d: Dir)
    ensures Room(a, head, d) == |Region(a, Next(head, d))|
  {
  }

  ghost predicate Tried(d: Dir, n: nat) {
    exists i :: 0 <= i < n && d == Look(i)
  }

  lemma TriedNext(n: nat)
    requires n < 4
    ensures forall d :: Tried(d, n + 1) <==> Tried(d, n) || d == Look(n)
    ensures !Tried(Look(n), n)
  {
  }

  lemma EveryDir()
    ensures forall d :: Tried(d, 4)
  {
    forall d ensures Tried(d, 4) {
      assert Look(0) == Up && Look(1) == Down && Look(2) == Left && Look(3) == Right;
    }
  }

  /** The first step of a shortest route to food, when there is one to take. */
  ghost predicate FoodStep(a: Arena, head: Cell, foods: set<Cell>, food: Option<Dir>) {
    match food
    case Some(d) => exists keys :: NearestRoute(a, head, foods, keys) && keys != [] && keys[0] == d
    case None => head in foods || forall keys :: !GoalRoute(a, head, foods, keys)
  }

  lemma FoodStepUnique(a: Arena, head: Cell, foods: set<Cell>, food: Option<Dir>, other: Option<Dir>)
    requires FoodStep(a, head, foods, food) && FoodStep(a, head, foods, other)
    ensures food == other
  {
    hide Before, Moves;
    if food.Some? && other.Some? {
      var keys :| NearestRoute(a, head, foods, keys) && keys != [] && keys[0] == food.value;
      var keys' :| NearestRoute(a, head, foods, keys') && keys' != [] && keys'[0] == other.value;
      NearestRouteUnique(a, head, foods, keys, keys');
    } else if food.Some? {
      NoStepFromFood(a, head, foods, food);
    } else if other.Some? {
      NoStepFromFood(a, head, foods, other);
    }
  }

  /** Where there is a food step, there is a route and the head is not on food. */
  lemma NoStepFromFood(a: Arena, head: Cell, foods: set<Cell>, food: Option<Dir>)
    requires FoodStep(a, head, foods, food) && food.Some?
    ensures head !in foods && exists keys :: GoalRoute(a, head, foods, keys)
  {
    hide Moves;
    var keys :| NearestRoute(a, head, foods, keys) && keys != [] && keys[0] == food.value;
    assert GoalRoute(a, head, foods, keys);
    assert !Ahead(DirRank, keys, []);
    assert !GoalRoute(a, head, foods, []);
  }

  method FirstStep(a: Arena, head: Cell, foods: set<Cell>) returns (food: Option<Dir>)
    ensures FoodStep(a, head, foods, food)
  {
    hide GoalRoute, NearestRoute;
    var path := Bfs(a, head, foods);
    food := None;
    if path.Some? && |path.value| >= 2 {
      var next := path.value[1];
      ghost var keys :| NearestRoute(a, head, foods, keys) && Trail(head, keys, path.value);
      assert next == Next(head, keys[0]);
      for k := 0 to 4
        invariant food.None? && forall i :: 0 <= i < k ==> next != Next(head, Look(i))
      {
        if next == Next(head, Look(k)) {
          food := Some(Look(k));
          assert Look(k) == keys[0];
          break;
        }
      }
      EveryDir();
      assert Tried(keys[0], 4);
    } else if path.Some? {
      ghost var keys :| NearestRoute(a, head, foods, keys) && Trail(head, keys, path.value);
      AtGoal(a, head, foods, keys);
    }
  }

  lemma AtGoal(a: Arena, head: Cell, foods: set<Cell>, keys: seq<Dir>)
    requires NearestRoute(a, head, foods, keys) && |keys| == 0
    ensures head in foods
  {
  }

  lemma {:induction false} FirstKeyLegal(a: Arena, start: Cell, keys: seq<Dir>)
    requires keys != [] && Run(Moves(a), start, keys).Some?
    ensures Candidate(a, start, keys[0])
  {
    RunPrefix(Moves(a), start, keys, 1);
    assert keys[..1] == [keys[0]];
    assert Run(Moves(a), start, [] + [keys[0]]).Some?;
    RunSnoc(Moves(a), start, [], keys[0]);
  }

  /** The direction the code prefers: the food step if it leaves room, or if nothing else leaves room. */
  ghost predicate Preferred(a: Arena, head: Cell, food: Option<Dir>, minFree: int, d: Dir) {
    if food.Some? && (Room(a, head, food.value) >= minFree
      || forall o :: Candidate(a, head, o) && o != food.value ==> Room(a, head, o) < minFree)
    then d == food.value
    else
      && Candidate(a, head, d) && food != Some(d)
      && forall o :: Candidate(a, head, o) && food != Some(o) ==>
           Above(Scored(Room(a, head, d), d), Scored(Room(a, head, o), o))
  }

  /** The final loop: the first direction with enough room, else the first one. */
  method Pick(a: Arena, head: Cell, food: Option<Dir>, s: seq<Scored>, minFree: int) returns (dir: Option<Dir>)
    requires Others(a, head, food, s)
    requires food.Some? ==> Candidate(a, head, food.value)
    ensures dir.None? <==> forall d :: !Candidate(a, head, d)
    ensures dir.Some? ==> Preferred(a, head, food, minFree, dir.value)
  {
    hide Candidate, Room, Preferred, Others, Region;
    var ordered: seq<Dir> := if food.Some? then [food.value] else [];
    ordered := ordered + seq(|s|, i requires 0 <= i < |s| => s[i].dir);
    var fallback: Option<Dir> := None;
    for i := 0 to |ordered|
      invariant fallback == if i == 0 then None else Some(ordered[0])
      invariant forall j :: 0 <= j < i ==> Room(a, head, ordered[j]) < minFree
    {
      var space := FloodFree(a, Next(head, ordered[i]));
      RoomMeaning(a, head, ordered[i]);
      if fallback.None? {
        fallback := Some(ordered[i]);
      }
      if space >= minFree {
        Chosen(a, head, food, s, ordered, minFree, i);
        return Some(ordered[i]);
      }
    }
    if ordered != [] {
      NoRoom(a, head, food, s, ordered, minFree);
    } else {
      NoneOpen(a, head, food, s);
    }
    return fallback;
  }

  lemma NoneOpen(a: Arena, head: Cell, food: Option<Dir>, s: seq<Scored>)
    requires Others(a, head, food, s) && food.None? && s == []
    ensures forall d :: !Candidate(a, head, d)
  {
    forall d ensures !Candidate(a, head, d) {
      assert Scored(Room(a, head, d), d) !in s;
    }
  }

  ghost predicate InOrder(food: Option<Dir>, s: seq<Scored>, ordered: seq<Dir>) {
    var k := if food.Some? then 1 else 0;
    && |ordered| == |s| + k
    && (food.Some? ==> ordered[0] == food.value)
    && forall i :: 0 <= i < |s| ==> ordered[i + k] == s[i].dir
  }

  lemma Chosen(a: Arena, head: Cell, food: Option<Dir>, s: seq<Scored>, ordered: seq<Dir>, minFree: int, i: nat)
    requires Others(a, head, food, s) && InOrder(food, s, ordered) && i < |ordered|
    requires food.Some? ==> Candidate(a, head, food.value)
    requires forall j :: 0 <= j < i ==> Room(a, head, ordered[j]) < minFree
    requires Room(a, head, ordered[i]) >= minFree
    ensures Candidate(a, head, ordered[i]) && Preferred(a, head, food, minFree, ordered[i])
  {
    hide Candidate, Room;
    var k := if food.Some? then 1 else 0;
    if i >= k {
      var p := s[i - k];
      assert p in s && ordered[i] == p.dir;
      assert s[0] in s && ordered[k] == s[0].dir;
      assert i > k ==> Above(s[0], p);
      BestIsFirst(a, head, food, s);
    }
  }

  lemma BestIsFirst(a: Arena, head: Cell, food: Option<Dir>, s: seq<Scored>)
    requires Others(a, head, food, s) && s != []
    ensures Candidate(a, head, s[0].dir) && food != Some(s[0].dir) && s[0].space == Room(a, head, s[0].dir)
    ensures forall o :: Candidate(a, head, o) && food != Some(o) ==> Above(s[0], Scored(Room(a, head, o), o))
  {
    hide Candidate, Room;
    assert s[0] in s;
    forall o | Candidate(a, head, o) && food != Some(o) ensures Above(s[0], Scored(Room(a, head, o), o)) {
      assert Scored(Room(a, head, o), o) in s;
    }
  }

  lemma NoRoom(a: Arena, head: Cell, food: Option<Dir>, s: seq<Scored>, ordered: seq<Dir>, minFree: int)
    requires Others(a, head, food, s) && InOrder(food, s, ordered) && ordered != []
    requires food.Some? ==> Candidate(a, head, food.value)
    requires forall j :: 0 <= j < |ordered| ==> Room(a, head, ordered[j]) < minFree
    ensures Candidate(a, head, ordered[0]) && Preferred(a, head, food, minFree, ordered[0])
  {
    hide Candidate, Room;
    if food.Some? {
      forall o | Candidate(a, head, o) && o != food.value ensures Room(a, head, o) < minFree {
        assert Scored(Room(a, head, o), o) in s;
        var i :| 0 <= i < |s| && s[i] == Scored(Room(a, head, o), o);
        assert ordered[i + 1] == o;
      }
    } else {
      BestIsFirst(a, head, food, s);
    }
  }

  /** The direction the code chooses: the preferred one, None exactly when every neighbour is a wall or blocked. */
  ghost predicate Decision(a: Arena, head: Cell, foods: set<Cell>, minFree: int, dir: Option<Dir>) {
    match dir
    case None => forall d :: !Candidate(a, head, d)
    case Some(d) => exists food :: FoodStep(a, head, foods, food) && Preferred(a, head, food, minFree, d)
  }

  /** One direction at most is chosen. */
  lemma DecisionUnique(a: Arena, head: Cell, foods: set<Cell>, minFree: int, dir: Option<Dir>, other: Option<Dir>)
    requires Decision(a, head, foods, minFree, dir) && Decision(a, head, foods, minFree, other)
    ensures dir == other
  {
    hide Candidate, Room, FoodStep, Preferred;
    if dir.Some? { DecisionOpen(a, head, foods, minFree, dir); }
    if other.Some? { DecisionOpen(a, head, foods, minFree, other); }
    if dir.Some? && other.Some? {
      var food :| FoodStep(a, head, foods, food) && Preferred(a, head, food, minFree, dir.value);
      var food' :| FoodStep(a, head, foods, food') && Preferred(a, head, food', minFree, other.value);
      FoodStepUnique(a, head, foods, food, food');
      PreferredUnique(a, head, food, minFree, dir.value, other.value);
    }
  }

  lemma DecisionOpen(a: Arena, head: Cell, foods: set<Cell>, minFree: int, dir: Option<Dir>)
    requires Decision(a, head, foods, minFree, dir) && dir.Some?
    ensures Candidate(a, head, dir.value)
  {
    hide Candidate, Room, FoodStep;
    var food :| FoodStep(a, head, foods, food) && Preferred(a, head, food, minFree, dir.value);
    FoodIsCandidate(a, head, foods, food);
    PreferredIsSafe(a, head, food, minFree, dir.value);
  }

  lemma PreferredUnique(a: Arena, head: Cell, food: Option<Dir>, minFree: int, d: Dir, o: Dir)
    requires Preferred(a, head, food, minFree, d) && Preferred(a, head, food, minFree, o)
    ensures d == o
  {
    hide Candidate, Room;
    assert Rank(d) == Rank(o) ==> d == o;
  }

  /**
    The direction sent leads to a free cell, and to one with at least `minFree`
    reachable cells whenever some neighbour has that much room.
  */
  method Decide(rows: Rows, head: Cell, body: seq<Cell>, foods: set<Cell>, tail: Option<Cell>, tailPassable: bool,
    minFree: int)
    returns (dir: Option<Dir>)
    requires Cut(rows)
    ensures var a := ArenaOf(rows, body, tail, tailPassable);
      && Decision(a, head, foods, minFree, dir)
      && (dir.None? <==> forall d :: !Candidate(a, head, d))
      && (dir.Some? ==> Candidate(a, head, dir.value))
      && (dir.Some? ==>
            forall d :: Candidate(a, head, d) && Room(a, head, d) >= minFree ==> Room(a, head, dir.value) >= minFree)
  {
    hide *;
    var blocked := BlockedCells(rows, body, tail, tailPassable);
    ghost var arena := ArenaOf(rows, body, tail, tailPassable);
    var a := Arena(76, |rows|, blocked);
    assert a == arena by {
      assert forall c :: c in blocked <==> c in arena.blocked;
    }
    var food := FirstStep(a, head, foods);
    FoodIsCandidate(a, head, foods, food);
    var s := ScoreOthers(a, head, food);
    dir := Pick(a, head, food, s, minFree);
    Decided(a, head, foods, food, minFree, dir);
    if dir.Some? {
      PreferredIsSafe(a, head, food, minFree, dir.value);
    }
  }

  lemma Decided(a: Arena, head: Cell, foods: set<Cell>, food: Option<Dir>, minFree: int, dir: Option<Dir>)
    requires FoodStep(a, head, foods, food)
    requires dir.None? ==> forall d :: !Candidate(a, head, d)
    requires dir.Some? ==> Preferred(a, head, food, minFree, dir.value)
    ensures Decision(a, head, foods, minFree, dir)
  {
    hide Candidate, FoodStep, Preferred;
  }

  lemma FoodIsCandidate(a: Arena, head: Cell, foods: set<Cell>, food: Option<Dir>)
    requires FoodStep(a, head, foods, food)
    ensures food.Some? ==> Candidate(a, head, food.value)
  {
    hide Candidate, Run;
    if food.Some? {
      var keys :| NearestRoute(a, head, foods, keys) && keys != [] && keys[0] == food.value;
      FirstKeyLegal(a, head, keys);
    }
  }

  lemma PreferredIsSafe(a: Arena, head: Cell, food: Option<Dir>, minFree: int, d: Dir)
    requires food.Some? ==> Candidate(a, head, food.value)
    requires Preferred(a, head, food, minFree, d)
    ensures Candidate(a, head, d)
    ensures forall o :: Candidate(a, head, o) && Room(a, head, o) >= minFree ==> Room(a, head, d) >= minFree
  {
    hide Candidate, Room;
  }
}
