/**
  Choosing a placement in brains/bastet/brain.py: recognising the active piece,
  scoring every reachable landing with one ply of lookahead, and keeping the best.
*/
module BastetPlan {
  import opened Wrappers
  import opened Search
  import opened BastetBoard
  import opened BastetFeatures
  import opened BastetSearch
  import BastetBudget

  const SPAWN_X := 3
  const MIN_ACTIVE_Y := -2
  const MAX_ACTIVE_Y := 6
  const MIN_VISIBLE := 2
  const MAX_PLAN_KEYS := 16
  const UNREACHABLE: real := -1000000000.0

  datatype Weights = Weights(
    landingHeight: real, rowsCleared: real, rowTransitions: real, columnTransitions: real,
    holes: real, wellSums: real, nextPiece: real, pathLength: real)

  // ---------------------------------------------------------------- the active piece

  /** The cells of a freshly spawned piece that are drawn when its anchor is at row y. */
  function Visible(piece: Piece, y: int): seq<Offset> {
    VisibleOf(Shape(piece, 0), y)
  }

  function VisibleOf(shape: seq<Offset>, y: int): seq<Offset> {
    if shape == [] then []
    else (if y + shape[0].1 >= 0 then [(SPAWN_X + shape[0].0, y + shape[0].1)] else []) + VisibleOf(shape[1..], y)
  }

  predicate Shows(board: Board, piece: Piece, cell: Offset)
    requires WellFormed(board)
  {
    0 <= cell.1 < HEIGHT && 0 <= cell.0 < WIDTH && board[cell.1][cell.0] == Some(piece)
  }

  /** The drawn cells carry the piece's colour and are enough to tell it apart. */
  predicate Matches(board: Board, piece: Piece, y: int)
    requires WellFormed(board)
  {
    && |Visible(piece, y)| >= MIN_VISIBLE
    && forall i :: 0 <= i < |Visible(piece, y)| ==> Shows(board, piece, Visible(piece, y)[i])
  }

  /** If the cell is at row 0 or below, it is inside the well and of the piece's own colour. */
  predicate DrawnRight(board: Board, piece: Piece, c: Offset, y: int)
    requires WellFormed(board)
  {
    y + c.1 >= 0 ==> y + c.1 < 20 && 0 <= 3 + c.0 < 10 && board[y + c.1][3 + c.0] == Some(piece)
  }

  /** In terms of the board: at least two of the spawn shape's four cells are drawn, and all that are, are right. */
  lemma MatchesMeans(board: Board, piece: Piece, y: int)
    requires WellFormed(board)
    ensures Matches(board, piece, y) <==>
      && (exists i, j :: 0 <= i < j < 4 && y + Shape(piece, 0)[i].1 >= 0 && y + Shape(piece, 0)[j].1 >= 0)
      && (forall i :: 0 <= i < 4 ==> DrawnRight(board, piece, Shape(piece, 0)[i], y))
  {
    ShapesAreTetrominoes(piece, 0);
    hide Shape, Tetromino, VisibleOf, Shows, DrawnRight;
    AtLeastTwo(Shape(piece, 0), y);
    AllShow(board, piece, Shape(piece, 0), y);
  }

  lemma AtLeastTwo(shape: seq<Offset>, y: int)
    requires |shape| == 4
    ensures |VisibleOf(shape, y)| >= 2 <==>
      exists i, j :: 0 <= i < j < 4 && y + shape[i].1 >= 0 && y + shape[j].1 >= 0
  {
    assert shape[1..][1..] == shape[2..] && shape[2..][1..] == shape[3..] && shape[3..][1..] == [];
    assert |VisibleOf(shape[3..], y)| == Drawn(shape[3], y);
    assert |VisibleOf(shape[2..], y)| == Drawn(shape[2], y) + |VisibleOf(shape[3..], y)|;
    assert |VisibleOf(shape[1..], y)| == Drawn(shape[1], y) + |VisibleOf(shape[2..], y)|;
  }

  function Drawn(c: Offset, y: int): nat { if y + c.1 >= 0 then 1 else 0 }

  lemma AllShow(board: Board, piece: Piece, shape: seq<Offset>, y: int)
    requires WellFormed(board)
    ensures (forall k :: 0 <= k < |VisibleOf(shape, y)| ==> Shows(board, piece, VisibleOf(shape, y)[k])) <==>
      forall i :: 0 <= i < |shape| ==> DrawnRight(board, piece, shape[i], y)
  {
    hide VisibleOf;
    var cells := VisibleOf(shape, y);
    forall k | 0 <= k < |cells| ensures exists i :: 0 <= i < |shape| && ShownAs(shape[i], y, cells[k]) {
      var i := VisibleFrom(shape, y, k);
      assert ShownAs(shape[i], y, cells[k]);
    }
    forall i | 0 <= i < |shape| && y + shape[i].1 >= 0
      ensures exists k :: 0 <= k < |cells| && ShownAs(shape[i], y, cells[k])
    {
      VisibleHas(shape, y, i);
      var k :| 0 <= k < |cells| && cells[k] == (SPAWN_X + shape[i].0, y + shape[i].1);
      assert ShownAs(shape[i], y, cells[k]);
    }
    hide Shows, DrawnRight, ShownAs;
    forall c, d | ShownAs(c, y, d)
      ensures Shows(board, piece, d) <==> DrawnRight(board, piece, c, y)
    {
      ShownMeans(board, piece, c, y, d);
    }
    NotDrawn(board, piece, shape, y);
  }

  lemma NotDrawn(board: Board, piece: Piece, shape: seq<Offset>, y: int)
    requires WellFormed(board)
    ensures forall i :: 0 <= i < |shape| && y + shape[i].1 < 0 ==> DrawnRight(board, piece, shape[i], y)
  {
  }

  predicate ShownAs(c: Offset, y: int, d: Offset) {
    y + c.1 >= 0 && d == (SPAWN_X + c.0, y + c.1)
  }

  lemma ShownMeans(board: Board, piece: Piece, c: Offset, y: int, d: Offset)
    requires WellFormed(board) && ShownAs(c, y, d)
    ensures Shows(board, piece, d) <==> DrawnRight(board, piece, c, y)
  {
  }

  /** Every drawn cell is one of the shape. */
  lemma {:induction false} VisibleFrom(shape: seq<Offset>, y: int, k: nat) returns (i: nat)
    requires k < |VisibleOf(shape, y)|
    ensures i < |shape| && y + shape[i].1 >= 0 &&
      VisibleOf(shape, y)[k] == (SPAWN_X + shape[i].0, y + shape[i].1)
  {
    if y + shape[0].1 >= 0 && k == 0 {
      i := 0;
    } else {
      i := VisibleFrom(shape[1..], y, if y + shape[0].1 >= 0 then k - 1 else k);
      i := i + 1;
    }
  }

  /** The order in which the shapes are tried. */
  function PieceAt(k: nat): Piece {
    if k == 0 then O else if k == 1 then I else if k == 2 then Z else if k == 3 then T
    else if k == 4 then J else if k == 5 then S else L
  }

  /** No earlier candidate, row by row and shape by shape, matches. */
  ghost predicate NoneBefore(board: Board, y: int, k: nat)
    requires WellFormed(board)
  {
    && (forall y', k' :: MIN_ACTIVE_Y <= y' < y && 0 <= k' < 7 ==> !Matches(board, PieceAt(k'), y'))
    && (forall k' :: 0 <= k' < k ==> !Matches(board, PieceAt(k'), y))
  }

  /** The highest match, None exactly when nothing matches at any spawn row. */
  method FindActive(board: Board) returns (r: Option<(Piece, int)>)
    requires WellFormed(board)
    ensures r.Some? ==>
      && MIN_ACTIVE_Y <= r.value.1 <= MAX_ACTIVE_Y
      && Matches(board, r.value.0, r.value.1)
      && exists k :: 0 <= k < 7 && PieceAt(k) == r.value.0 && NoneBefore(board, r.value.1, k)
    ensures r.None? ==> forall y, k :: MIN_ACTIVE_Y <= y <= MAX_ACTIVE_Y && 0 <= k < 7 ==>
      !Matches(board, PieceAt(k), y)
  {
    hide Matches, PieceAt;
    for y := MIN_ACTIVE_Y to MAX_ACTIVE_Y + 1
      invariant NoneBefore(board, y, 0)
    {
      for k := 0 to 7
        invariant NoneBefore(board, y, k)
      {
        if Matches(board, PieceAt(k), y) {
          return Some((PieceAt(k), y));
        }
      }
    }
    return None;
  }

  /** The board with the listed cells emptied. */
  function Erased(board: Board, cells: seq<Offset>): (r: Board)
    requires WellFormed(board)
    requires forall i :: 0 <= i < |cells| ==> 0 <= cells[i].1 < HEIGHT && 0 <= cells[i].0 < WIDTH
    ensures WellFormed(r)
    decreases |cells|
  {
    if cells == [] then board
    else
      var (col, row) := cells[0];
      Erased(board[row := board[row][col := None]], cells[1..])
  }

  lemma {:induction false} ErasedAt(board: Board, cells: seq<Offset>, col: nat, row: nat)
    requires WellFormed(board) && col < WIDTH && row < HEIGHT
    requires forall i :: 0 <= i < |cells| ==> 0 <= cells[i].1 < HEIGHT && 0 <= cells[i].0 < WIDTH
    ensures Erased(board, cells)[row][col] == if (col, row) in cells then None else board[row][col]
    decreases |cells|
  {
    if cells != [] {
      var (c, r) := cells[0];
      ErasedAt(board[r := board[r][c := None]], cells[1..], col, row);
      assert cells == [cells[0]] + cells[1..];
    }
  }

  lemma {:induction false} VisibleHas(shape: seq<Offset>, y: int, i: nat)
    requires i < |shape| && y + shape[i].1 >= 0
    ensures (SPAWN_X + shape[i].0, y + shape[i].1) in VisibleOf(shape, y)
  {
    if i > 0 { VisibleHas(shape[1..], y, i - 1); }
  }

  /** Where the search starts: the spawn column, orientation 0. */
  function Spawned(y: int): State { State(SPAWN_X, y, 0) }

  /** The search starts from a state that fits once the drawn piece is erased. */
  lemma ErasedPieceFits(board: Board, piece: Piece, y: int)
    requires WellFormed(board) && y <= MAX_ACTIVE_Y && Matches(board, piece, y)
    ensures forall i :: 0 <= i < |Visible(piece, y)| ==>
      0 <= Visible(piece, y)[i].1 < HEIGHT && 0 <= Visible(piece, y)[i].0 < WIDTH
    ensures Stands(Erased(board, Visible(piece, y)), piece, Spawned(y))
  {
    hide Shape, VisibleOf, Erased;
    var shape := Cells(piece, Spawned(y));
    var well := Erased(board, Visible(piece, y));
    forall i | 0 <= i < |shape| ensures CellFits(well, SPAWN_X + shape[i].0, y + shape[i].1) {
      if y + shape[i].1 >= 0 {
        var cell := (SPAWN_X + shape[i].0, y + shape[i].1);
        VisibleHas(shape, y, i);
        assert cell in Visible(piece, y);
        ErasedAt(board, Visible(piece, y), cell.0, cell.1);
      } else {
        SpawnShapes(piece);
      }
    }
  }

  /** A piece above the well always stands, whatever the board. */
  lemma SpawnStands(board: Board, piece: Piece)
    requires WellFormed(board)
    ensures Stands(board, piece, Spawned(MIN_ACTIVE_Y))
  {
    SpawnShapes(piece);
  }

  lemma SpawnShapes(piece: Piece)
    ensures forall i :: 0 <= i < 4 ==> 0 <= Shape(piece, 0)[i].1 <= 1
  {
    match piece case O => case I => case Z => case T => case J => case S => case L =>
  }

  // ---------------------------------------------------------------- scoring

  function Least(shape: seq<Offset>): int
    requires |shape| > 0
  {
    if |shape| == 1 then shape[0].1
    else if shape[0].1 < Least(shape[1..]) then shape[0].1 else Least(shape[1..])
  }

  function Greatest(shape: seq<Offset>): int
    requires |shape| > 0
  {
    if |shape| == 1 then shape[0].1
    else if shape[0].1 > Greatest(shape[1..]) then shape[0].1 else Greatest(shape[1..])
  }

  /** Height of the piece's centre above the floor. */
  function LandingHeight(shape: seq<Offset>, row: int): real
    requires |shape| > 0
  {
    20.0 - 0.5 - ((row + Least(shape)) + (row + Greatest(shape))) as real / 2.0
  }

  function BoardValue(f: Features, cleared: nat, height: real, w: Weights): real {
    w.rowsCleared * cleared as real + w.landingHeight * height
      + w.rowTransitions * f.rowTransitions as real + w.columnTransitions * f.columnTransitions as real
      + w.holes * f.holes as real + w.wellSums * f.wellSums as real
  }

  /** Each feature counts with its own weight, and nothing else does. */
  lemma ValueOfEachFeature(f: Features, cleared: nat, height: real, more: real, w: Weights)
    ensures var v := BoardValue(f, cleared, height, w);
      && BoardValue(f.(rowTransitions := f.rowTransitions + 1), cleared, height, w) == v + w.rowTransitions
      && BoardValue(f.(columnTransitions := f.columnTransitions + 1), cleared, height, w) == v + w.columnTransitions
      && BoardValue(f.(holes := f.holes + 1), cleared, height, w) == v + w.holes
      && BoardValue(f.(wellSums := f.wellSums + 1), cleared, height, w) == v + w.wellSums
      && BoardValue(f, cleared + 1, height, w) == v + w.rowsCleared
      && BoardValue(f, cleared, height + more, w) == v + w.landingHeight * more
      && BoardValue(Features(f.heights, 0, 0, 0, 0), 0, 0.0, w) == 0.0
  {
  }

  /** How far the middle of a row is above the floor. */
  function Above(row: int): real { 20.0 - row as real - 0.5 }

  /** The landing height is the mean of the lowest and the highest row that the piece covers. */
  lemma LandingHeightMeans(shape: seq<Offset>, row: int)
    requires |shape| > 0
    ensures exists i, j :: Extremes(shape, i, j) &&
              LandingHeight(shape, row) == (Above(row + shape[i].1) + Above(row + shape[j].1)) / 2.0
  {
    var i := LeastAt(shape);
    var j := GreatestAt(shape);
    assert Extremes(shape, i, j);
  }

  predicate Extremes(shape: seq<Offset>, i: int, j: int) {
    && 0 <= i < |shape| && 0 <= j < |shape|
    && forall k :: 0 <= k < |shape| ==> shape[i].1 <= shape[k].1 <= shape[j].1
  }

  lemma {:induction false} LeastAt(shape: seq<Offset>) returns (i: nat)
    requires |shape| > 0
    ensures i < |shape| && shape[i].1 == Least(shape) && forall k :: 0 <= k < |shape| ==> shape[i].1 <= shape[k].1
  {
    i := 0;
    if |shape| > 1 {
      var j := LeastAt(shape[1..]);
      assert forall k :: 1 <= k < |shape| ==> shape[k] == shape[1..][k - 1];
      if shape[0].1 >= Least(shape[1..]) { i := j + 1; }
    }
  }

  lemma {:induction false} GreatestAt(shape: seq<Offset>) returns (i: nat)
    requires |shape| > 0
    ensures i < |shape| && shape[i].1 == Greatest(shape) && forall k :: 0 <= k < |shape| ==> shape[k].1 <= shape[i].1
  {
    i := 0;
    if |shape| > 1 {
      var j := GreatestAt(shape[1..]);
      assert forall k :: 1 <= k < |shape| ==> shape[k] == shape[1..][k - 1];
      if shape[0].1 <= Greatest(shape[1..]) { i := j + 1; }
    }
  }

  predicate Lockable(board: Board, piece: Piece, landing: State)
    requires WellFormed(board)
  {
    Stands(board, piece, landing) && InWell(Cells(piece, landing), landing.y)
  }

  lemma LandsLockable(board: Board, piece: Piece, start: State, keys: seq<Key>, landing: State)
    requires WellFormed(board) && Stands(board, piece, start)
    requires Lands(board, piece, start, keys, landing)
    ensures Lockable(board, piece, landing)
  {
    hide Run, Fits, Tetromino;
    RunStands(board, piece, start, keys);
  }

  function LockedBoard(board: Board, piece: Piece, landing: State): (r: Board)
    requires WellFormed(board) && Lockable(board, piece, landing)
    ensures WellFormed(r)
  {
    Filled(board, Cells(piece, landing), landing.x, landing.y, piece, 4)
  }

  /** The well after the piece locked at `landing` and full lines went. */
  function After(board: Board, piece: Piece, landing: State): (r: Board)
    requires WellFormed(board) && Lockable(board, piece, landing)
    ensures WellFormed(r)
  {
    SettledShape(LockedBoard(board, piece, landing));
    SettledBoard(LockedBoard(board, piece, landing))
  }

  /** The one-ply value of a landing. */
  function LandingValue(board: Board, piece: Piece, w: Weights, landing: State): real
    requires WellFormed(board)
  {
    if !Lockable(board, piece, landing) then 0.0
    else
      BoardValue(FeaturesOf(After(board, piece, landing)), HEIGHT - |Surviving(LockedBoard(board, piece, landing))|,
                 LandingHeight(Cells(piece, landing), landing.y), w)
  }

  /** v is the greatest one-ply value the piece can reach from above the well. */
  ghost predicate IsBestPly(board: Board, piece: Piece, w: Weights, v: real)
    requires WellFormed(board)
  {
    && (exists keys, landing ::
          Lands(board, piece, Spawned(MIN_ACTIVE_Y), keys, landing) && LandingValue(board, piece, w, landing) == v)
    && (forall keys, landing ::
          Lands(board, piece, Spawned(MIN_ACTIVE_Y), keys, landing) ==> LandingValue(board, piece, w, landing) <= v)
  }

  /** The lookahead term: the best reply, or a large penalty when no reply exists. */
  ghost function Followup(board: Board, piece: Piece, w: Weights): real
    requires WellFormed(board)
  {
    if exists v :: IsBestPly(board, piece, w, v) then var v :| IsBestPly(board, piece, w, v); v else UNREACHABLE
  }

  lemma BestPlyUnique(board: Board, piece: Piece, w: Weights, a: real, b: real)
    requires WellFormed(board) && IsBestPly(board, piece, w, a) && IsBestPly(board, piece, w, b)
    ensures a == b
  {
    hide LandingValue, Lands;
  }

  /** Evaluates one landing the way both search plies do. */
  method Evaluate(board: Board, piece: Piece, landing: State, w: Weights) returns (r: Option<(Board, real)>)
    requires WellFormed(board) && Lockable(board, piece, landing)
    ensures r == Some((After(board, piece, landing), LandingValue(board, piece, w, landing)))
  {
    hide FeaturesOf, BoardValue, LandingHeight, SettledBoard, Filled, Surviving, Fits, InWell;
    var shape := Cells(piece, landing);
    assert |shape| == 4 && WellFormed(After(board, piece, landing));
    var locked := LockAndClear(board, shape, landing.x, landing.y, piece);
    if locked.None? { return None; }
    var (settled, cleared) := locked.value;
    assert settled == After(board, piece, landing);
    var f := WellFeatures(settled);
    var value := BoardValue(f, cleared, LandingHeight(shape, landing.y), w);
    r := Some((settled, value));
  }

  type Best = Option<(real, seq<Key>)>

  /** A strictly better value, or the same value with a shorter path; None stands for minus infinity. */
  predicate Improves(value: real, path: seq<Key>, best: Best) {
    match best
    case None => true
    case Some((v, p)) => value > v || (value == v && |path| < |p|)
  }

  /** `best` leads the first n entries, entry i being worth scores[i]. */
  ghost predicate Leads(list: seq<Placement>, scores: seq<real>, n: nat, best: Best)
    requires |list| == |scores| && n <= |list|
  {
    && (best.None? <==> n == 0)
    && (best.Some? ==> exists i :: Leader(list, scores, n, i, best))
    && (best.Some? ==> forall i :: 0 <= i < n ==> !Improves(scores[i], list[i].path, best))
  }

  /** The entry at `i` was the best of those up to it, and strictly. */
  ghost predicate Leader(list: seq<Placement>, scores: seq<real>, n: nat, i: int, best: Best)
    requires n <= |list| == |scores| && best.Some?
  {
    && 0 <= i < n && best.value == (scores[i], list[i].path)
    && forall j :: 0 <= j < i ==> Improves(scores[i], list[i].path, Some((scores[j], list[j].path)))
  }

  /** In the list of all placements the leader is ahead of all that tie with it. */
  lemma LeaderIsFirst(list: seq<Placement>, scores: seq<real>, i: int, j: int, best: Best)
    requires |list| == |scores| && best.Some? && Leader(list, scores, |list|, i, best) && 0 <= j < |list|
    requires !Improves(scores[j], list[j].path, best)
    requires forall k, l :: 0 <= k < l < |list| ==> Before(KeyRank, list[k].path, list[l].path)
    ensures scores[j] < scores[i] || (scores[j] == scores[i] && Ahead(KeyRank, list[i].path, list[j].path))
  {
    assert i < j ==> Before(KeyRank, list[i].path, list[j].path);
    assert j < i ==> Before(KeyRank, list[j].path, list[i].path);
  }

  ghost function Scores(list: seq<Placement>, score: Placement -> real): (r: seq<real>)
    ensures |r| == |list| && forall i :: 0 <= i < |list| ==> r[i] == score(list[i])
  {
    seq(|list|, i requires 0 <= i < |list| => score(list[i]))
  }

  /** `path` lands a piece from above the well where it is worth `value`. */
  ghost predicate PlyLands(board: Board, piece: Piece, w: Weights, value: real, path: seq<Key>)
    requires WellFormed(board)
  {
    exists landing ::
      Lands(board, piece, Spawned(MIN_ACTIVE_Y), path, landing) && LandingValue(board, piece, w, landing) == value
  }

  /** Best value and path the piece can reach from above the well, without lookahead. */
  method SinglePly(board: Board, piece: Piece, w: Weights) returns (best: Best)
    requires WellFormed(board)
    ensures best.None? <==> forall keys, landing :: !Lands(board, piece, Spawned(MIN_ACTIVE_Y), keys, landing)
    ensures best.Some? ==> IsBestPly(board, piece, w, best.value.0)
    ensures best.Some? ==> PlyLands(board, piece, w, best.value.0, best.value.1)
    ensures best.Some? ==> forall path :: PlyLands(board, piece, w, best.value.0, path) ==>
      Ahead(KeyRank, best.value.1, path)
    ensures best.None? ==> Followup(board, piece, w) == UNREACHABLE
    ensures best.Some? ==> best.value.0 == Followup(board, piece, w)
  {
    hide *;
    SpawnStands(board, piece);
    var list := Placements(board, piece, Spawned(MIN_ACTIVE_Y));
    best := None;
    ghost var scores := Scores(list, (p: Placement) => LandingValue(board, piece, w, p.landing));
    LeadsStart(list, scores);
    for n := 0 to |list|
      invariant Leads(list, scores, n, best)
    {
      ListedLockable(board, piece, Spawned(MIN_ACTIVE_Y), list, n);
      var locked := Evaluate(board, piece, list[n].landing, w);
      if locked.Some? {
        var value := locked.value.1;
        LeadsStep(list, scores, n, best);
        if Improves(value, list[n].path, best) {
          best := Some((value, list[n].path));
        }
      }
    }
    LeaderIsFollowup(board, piece, w, list, scores, best);
    LeaderLands(board, piece, w, list, scores, best);
  }

  lemma LeaderLands(board: Board, piece: Piece, w: Weights, list: seq<Placement>, scores: seq<real>, best: Best)
    requires WellFormed(board)
    requires ExactPlacements(board, piece, Spawned(MIN_ACTIVE_Y), list)
    requires |scores| == |list| && forall i :: 0 <= i < |list| ==>
      scores[i] == LandingValue(board, piece, w, list[i].landing)
    requires Leads(list, scores, |list|, best)
    ensures best.None? <==> forall keys, landing :: !Lands(board, piece, Spawned(MIN_ACTIVE_Y), keys, landing)
    ensures best.Some? ==> IsBestPly(board, piece, w, best.value.0)
    ensures best.Some? ==> PlyLands(board, piece, w, best.value.0, best.value.1)
    ensures best.Some? ==> forall path :: PlyLands(board, piece, w, best.value.0, path) ==>
      Ahead(KeyRank, best.value.1, path)
  {
    hide LandingValue, Lands, Stands, Before, Improves, IsBestPly;
    if best.Some? {
      LeaderIsBestPly(board, piece, w, list, scores, best);
      var i :| Leader(list, scores, |list|, i, best);
      assert Lands(board, piece, Spawned(MIN_ACTIVE_Y), list[i].path, list[i].landing);
      forall path | PlyLands(board, piece, w, best.value.0, path) ensures Ahead(KeyRank, best.value.1, path) {
        var landing :| Lands(board, piece, Spawned(MIN_ACTIVE_Y), path, landing) &&
          LandingValue(board, piece, w, landing) == best.value.0;
        LeaderIsAhead(board, piece, w, list, scores, best, i, path, landing);
      }
    }
  }

  lemma LeaderIsAhead(board: Board, piece: Piece, w: Weights, list: seq<Placement>, scores: seq<real>, best: Best,
    i: int, path: seq<Key>, landing: State)
    requires WellFormed(board)
    requires ExactPlacements(board, piece, Spawned(MIN_ACTIVE_Y), list)
    requires |scores| == |list| && forall k :: 0 <= k < |list| ==>
      scores[k] == LandingValue(board, piece, w, list[k].landing)
    requires Leads(list, scores, |list|, best) && best.Some? && Leader(list, scores, |list|, i, best)
    requires Lands(board, piece, Spawned(MIN_ACTIVE_Y), path, landing)
    requires LandingValue(board, piece, w, landing) == best.value.0
    ensures Ahead(KeyRank, best.value.1, path)
  {
    hide LandingValue, Lands, Stands, Before, Improves;
    var j :| Listed(list, j, landing) && Ahead(KeyRank, list[j].path, path);
    LeaderIsFirst(list, scores, i, j, best);
    AheadTransitive(KeyRank, list[i].path, list[j].path, path);
  }

  lemma LeadsStart(list: seq<Placement>, scores: seq<real>)
    requires |list| == |scores|
    ensures Leads(list, scores, 0, None)
  {
  }

  lemma LeadsStep(list: seq<Placement>, scores: seq<real>, n: nat, best: Best)
    requires |list| == |scores| && n < |list| && Leads(list, scores, n, best)
    ensures Leads(list, scores, n + 1,
              if Improves(scores[n], list[n].path, best) then Some((scores[n], list[n].path)) else best)
  {
    if Improves(scores[n], list[n].path, best) {
      forall j | 0 <= j < n ensures Improves(scores[n], list[n].path, Some((scores[j], list[j].path))) {
        assert best.Some? && !Improves(scores[j], list[j].path, best);
      }
      assert Leader(list, scores, n + 1, n, Some((scores[n], list[n].path)));
    } else {
      var i :| Leader(list, scores, n, i, best);
      assert Leader(list, scores, n + 1, i, best);
    }
  }

  lemma ListedLockable(board: Board, piece: Piece, start: State, list: seq<Placement>, n: nat)
    requires WellFormed(board) && Stands(board, piece, start)
    requires ExactPlacements(board, piece, start, list) && n < |list|
    ensures Lockable(board, piece, list[n].landing)
  {
    hide Lands, Lockable, Stands;
    LandsLockable(board, piece, start, list[n].path, list[n].landing);
  }

  lemma LeaderIsFollowup(board: Board, piece: Piece, w: Weights, list: seq<Placement>, scores: seq<real>, best: Best)
    requires WellFormed(board)
    requires ExactPlacements(board, piece, Spawned(MIN_ACTIVE_Y), list)
    requires |scores| == |list| && forall i :: 0 <= i < |list| ==>
      scores[i] == LandingValue(board, piece, w, list[i].landing)
    requires Leads(list, scores, |list|, best)
    ensures best.None? ==> Followup(board, piece, w) == UNREACHABLE
    ensures best.Some? ==> best.value.0 == Followup(board, piece, w)
  {
    hide LandingValue, Lands, Stands;
    if best.Some? {
      LeaderIsBestPly(board, piece, w, list, scores, best);
      FollowupIs(board, piece, w, best.value.0);
    }
  }

  lemma LeaderIsBestPly(board: Board, piece: Piece, w: Weights, list: seq<Placement>, scores: seq<real>, best: Best)
    requires WellFormed(board)
    requires ExactPlacements(board, piece, Spawned(MIN_ACTIVE_Y), list)
    requires |scores| == |list| && forall i :: 0 <= i < |list| ==>
      scores[i] == LandingValue(board, piece, w, list[i].landing)
    requires Leads(list, scores, |list|, best) && best.Some?
    ensures IsBestPly(board, piece, w, best.value.0)
  {
    hide LandingValue, Lands, Stands, Before;
    var i :| Leader(list, scores, |list|, i, best);
    assert Lands(board, piece, Spawned(MIN_ACTIVE_Y), list[i].path, list[i].landing);
    forall keys, landing | Lands(board, piece, Spawned(MIN_ACTIVE_Y), keys, landing)
      ensures LandingValue(board, piece, w, landing) <= best.value.0
    {
      var j :| Listed(list, j, landing);
      assert !Improves(scores[j], list[j].path, best);
    }
  }

  lemma FollowupIs(board: Board, piece: Piece, w: Weights, v: real)
    requires WellFormed(board) && IsBestPly(board, piece, w, v)
    ensures Followup(board, piece, w) == v
  {
    hide IsBestPly;
    forall u | IsBestPly(board, piece, w, u) ensures u == v {
      BestPlyUnique(board, piece, w, u, v);
    }
  }

  /** The best reply of the next piece, or the penalty. */
  method FollowupValue(board: Board, piece: Piece, w: Weights) returns (v: real)
    requires WellFormed(board)
    ensures v == Followup(board, piece, w)
  {
    var best := SinglePly(board, piece, w);
    v := if best.None? then UNREACHABLE else best.value.0;
  }

  // ---------------------------------------------------------------- the plan

  /** What a landing is worth: its own value and the lookahead term. */
  ghost function Worth(board: Board, piece: Piece, next: Option<Piece>, w: Weights, landing: State): real
    requires WellFormed(board)
  {
    LandingValue(board, piece, w, landing)
      + (if next.Some? && w.nextPiece != 0.0 && Lockable(board, piece, landing)
         then w.nextPiece * Followup(After(board, piece, landing), next.value, w) else 0.0)
  }

  /** The tie-break towards short key sequences. */
  function PathTerm(w: Weights, length: nat): real {
    w.pathLength * length as real
  }

  /** The score of a placement adds the path term. */
  ghost function Score(board: Board, piece: Piece, next: Option<Piece>, w: Weights, landing: State, length: nat): real
    requires WellFormed(board)
  {
    Worth(board, piece, next, w, landing) + PathTerm(w, length)
  }

  /**
    Without a preview, or with lookahead weight 0, a landing is worth its own value.
    Otherwise the best reply is added with that weight, or -1000000000 when the next
    piece cannot land.  Each key adds the path weight.
  */
  lemma ScoreMeans(board: Board, piece: Piece, next: Option<Piece>, w: Weights, landing: State, length: nat, v: real)
    requires WellFormed(board) && Lockable(board, piece, landing)
    ensures var own := LandingValue(board, piece, w, landing);
      && (next.None? || w.nextPiece == 0.0 ==> Worth(board, piece, next, w, landing) == own)
      && (next.Some? && w.nextPiece != 0.0 ==>
            var after := After(board, piece, landing);
            && (IsBestPly(after, next.value, w, v) ==>
                  Worth(board, piece, next, w, landing) == own + w.nextPiece * v)
            && ((forall u :: !IsBestPly(after, next.value, w, u)) ==>
                  Worth(board, piece, next, w, landing) == own + w.nextPiece * -1000000000.0))
    ensures Score(board, piece, next, w, landing, 0) == Worth(board, piece, next, w, landing)
    ensures Score(board, piece, next, w, landing, length + 1) ==
      Score(board, piece, next, w, landing, length) + w.pathLength
  {
    hide LandingValue, Lockable, After, IsBestPly;
    if next.Some? && IsBestPly(After(board, piece, landing), next.value, w, v) {
      FollowupIs(After(board, piece, landing), next.value, w, v);
    }
  }

  /** `keys` is a shortest key sequence to `landing`. */
  ghost predicate ShortestTo(board: Board, piece: Piece, start: State, keys: seq<Key>, landing: State)
    requires WellFormed(board)
  {
    && Lands(board, piece, start, keys, landing)
    && forall other :: Lands(board, piece, start, other, landing) ==> |keys| <= |other|
  }

  /**
    `path` is the optimal plan: a shortest way to a landing whose score no other
    reachable landing exceeds, and ahead of all that tie with it: shorter, or equally
    long with the earlier key, in the order left, right, space, up, where they differ.
  */
  ghost predicate OptimalPlan(board: Board, piece: Piece, start: State, next: Option<Piece>, w: Weights, path: seq<Key>)
    requires WellFormed(board)
  {
    exists landing :: OptimalLanding(board, piece, start, next, w, path, landing)
  }

  ghost predicate OptimalLanding( board: Board, piece: Piece, start: State, next: Option<Piece>, w: Weights,
    path: seq<Key>, landing: State)
    requires WellFormed(board)
  {
    && ShortestTo(board, piece, start, path, landing)
    && forall keys, other :: ShortestTo(board, piece, start, keys, other) ==>
         var mine, theirs := Score(board, piece, next, w, landing, |path|), Score(board, piece, next, w, other, |keys|);
         theirs < mine || (theirs == mine && Ahead(KeyRank, path, keys))
  }

  /** There is one optimal plan. */
  lemma OptimalPlanUnique(board: Board, piece: Piece, start: State, next: Option<Piece>, w: Weights, p: seq<Key>,
    q: seq<Key>)
    requires WellFormed(board)
    requires OptimalPlan(board, piece, start, next, w, p) && OptimalPlan(board, piece, start, next, w, q)
    ensures p == q
  {
    hide ShortestTo, Score, Before;
    var a :| OptimalLanding(board, piece, start, next, w, p, a);
    var b :| OptimalLanding(board, piece, start, next, w, q, b);
    assert ShortestTo(board, piece, start, p, a) && ShortestTo(board, piece, start, q, b);
    AheadUnique(KeyRank, p, q);
  }

  /** With a path weight of at most zero, as by default, longer detours never pay either. */
  lemma OptimalOverAllKeys(board: Board, piece: Piece, start: State, next: Option<Piece>, w: Weights, path: seq<Key>,
    landing: State, keys: seq<Key>, other: State)
    requires WellFormed(board) && w.pathLength <= 0.0
    requires OptimalLanding(board, piece, start, next, w, path, landing)
    requires Lands(board, piece, start, keys, other)
    ensures Score(board, piece, next, w, other, |keys|) <= Score(board, piece, next, w, landing, |path|)
  {
    hide Lands, Score, Worth;
    var best := ShortestExists(board, piece, start, keys, other);
    PathTermFalls(board, piece, next, w, other, |best|, |keys|);
  }

  /** Alike landings are worth the same. */
  lemma AlikeWorth(board: Board, piece: Piece, next: Option<Piece>, w: Weights, a: State, b: State)
    requires WellFormed(board) && Alike(piece, a, b)
    ensures Worth(board, piece, next, w, a) == Worth(board, piece, next, w, b)
  {
    hide Cells, FeaturesOf, BoardValue, LandingHeight, SettledBoard, Filled, Surviving, Fits, InWell, Followup,
      WellFormed;
    assert Lockable(board, piece, a) <==> Lockable(board, piece, b);
    if Lockable(board, piece, a) {
      assert LockedBoard(board, piece, a) == LockedBoard(board, piece, b);
      assert After(board, piece, a) == After(board, piece, b);
    }
  }

  /** Turns that change nothing included: no key sequence of the game that lands scores more than the plan. */
  lemma OptimalOverGame(board: Board, piece: Piece, start: State, next: Option<Piece>, w: Weights, path: seq<Key>,
    landing: State, keys: seq<Key>, other: State)
    requires WellFormed(board) && w.pathLength <= 0.0 && Oriented(start)
    requires OptimalLanding(board, piece, start, next, w, path, landing)
    requires GameLands(board, piece, start, keys, other)
    ensures GameLands(board, piece, start, path, landing)
    ensures Score(board, piece, next, w, other, |keys|) <= Score(board, piece, next, w, landing, |path|)
  {
    hide Lands, Worth, GameLands, Cells, PathTerm;
    SearchLandsInGame(board, piece, start, path, landing);
    var shorter, same := GameLandsInSearch(board, piece, start, keys, other);
    AlikeWorth(board, piece, next, w, other, same);
    PathTermFalls(board, piece, next, w, other, |shorter|, |keys|);
    OptimalOverAllKeys(board, piece, start, next, w, path, landing, shorter, same);
  }

  lemma PathTermFalls(board: Board, piece: Piece, next: Option<Piece>, w: Weights, landing: State, a: nat, b: nat)
    requires WellFormed(board) && w.pathLength <= 0.0 && a <= b
    ensures Score(board, piece, next, w, landing, b) <= Score(board, piece, next, w, landing, a)
  {
    hide Worth;
    assert w.pathLength * (b as real - a as real) <= 0.0;
  }

  lemma {:induction false} ShortestExists(board: Board, piece: Piece, start: State, keys: seq<Key>, landing: State)
    returns (best: seq<Key>)
    requires WellFormed(board) && Lands(board, piece, start, keys, landing)
    ensures ShortestTo(board, piece, start, best, landing) && |best| <= |keys|
    decreases |keys|
  {
    hide Lands;
    if other :| Lands(board, piece, start, other, landing) && |other| < |keys| {
      best := ShortestExists(board, piece, start, other, landing);
    } else {
      best := keys;
    }
  }

  /** The score of every listed placement, as the planning loop computes it. */
  lemma LeaderIsOptimal(board: Board, piece: Piece, start: State, next: Option<Piece>, w: Weights,
    list: seq<Placement>, scores: seq<real>, best: Best)
    requires WellFormed(board)
    requires ExactPlacements(board, piece, start, list)
    requires |scores| == |list|
    requires forall i :: 0 <= i < |list| ==>
      scores[i] == Score(board, piece, next, w, list[i].landing, |list[i].path|)
    requires Leads(list, scores, |list|, best)
    ensures best.None? ==> forall keys, landing :: !Lands(board, piece, start, keys, landing)
    ensures best.Some? ==> OptimalPlan(board, piece, start, next, w, best.value.1)
  {
    hide Score, Lands, ShortestTo, Improves, Before;
    if best.Some? {
      var i :| Leader(list, scores, |list|, i, best);
      ListedShortest(board, piece, start, list, i);
      forall keys, other | ShortestTo(board, piece, start, keys, other)
        ensures var theirs := Score(board, piece, next, w, other, |keys|);
                theirs < scores[i] || (theirs == scores[i] && Ahead(KeyRank, list[i].path, keys))
      {
        var j := ListedAt(board, piece, start, list, keys, other);
        LeaderIsFirst(list, scores, i, j, best);
        if scores[j] == scores[i] { AheadTransitive(KeyRank, list[i].path, list[j].path, keys); }
      }
      assert OptimalLanding(board, piece, start, next, w, best.value.1, list[i].landing);
    } else {
      assert list == [];
    }
  }

  lemma ListedAt(board: Board, piece: Piece, start: State, list: seq<Placement>, keys: seq<Key>, other: State)
    returns (j: nat)
    requires WellFormed(board) && ExactPlacements(board, piece, start, list)
    requires ShortestTo(board, piece, start, keys, other)
    ensures j < |list| && list[j].landing == other && |list[j].path| == |keys|
    ensures Ahead(KeyRank, list[j].path, keys)
  {
    hide Lands;
    j :| Listed(list, j, other) && Ahead(KeyRank, list[j].path, keys);
    assert Lands(board, piece, start, list[j].path, other);
  }

  lemma ListedShortest(board: Board, piece: Piece, start: State, list: seq<Placement>, i: nat)
    requires WellFormed(board) && ExactPlacements(board, piece, start, list) && i < |list|
    ensures ShortestTo(board, piece, start, list[i].path, list[i].landing)
  {
    hide Lands;
    forall other | Lands(board, piece, start, other, list[i].landing)
      ensures |list[i].path| <= |other|
    {
      var j :| Listed(list, j, list[i].landing) && Ahead(KeyRank, list[j].path, other);
      assert j == i;
    }
  }

  /** Scores one placement for the plan. */
  method ScorePlacement(board: Board, piece: Piece, next: Option<Piece>, w: Weights, p: Placement)
    returns (value: Option<real>)
    requires WellFormed(board) && Lockable(board, piece, p.landing)
    ensures value == Some(Score(board, piece, next, w, p.landing, |p.path|))
  {
    hide LandingValue, Lockable, Followup, After, PathTerm;
    var locked := Evaluate(board, piece, p.landing, w);
    if locked.None? { return None; }
    var v := locked.value.1;
    var ahead := 0.0;
    if next.Some? && w.nextPiece != 0.0 {
      var reply := FollowupValue(locked.value.0, next.value, w);
      ahead := w.nextPiece * reply;
      v := v + ahead;
    }
    assert v == LandingValue(board, piece, w, p.landing) + ahead == Worth(board, piece, next, w, p.landing);
    v := v + PathTerm(w, |p.path|);
    value := Some(v);
  }

  /** The best placement over the exact list, None when the piece can land nowhere. */
  method BestPlacement(board: Board, piece: Piece, start: State, next: Option<Piece>, w: Weights) returns (best: Best)
    requires WellFormed(board) && Stands(board, piece, start)
    ensures best.None? ==> forall keys, landing :: !Lands(board, piece, start, keys, landing)
    ensures best.Some? ==> OptimalPlan(board, piece, start, next, w, best.value.1)
  {
    hide *;
    var list := Placements(board, piece, start);
    best := None;
    ghost var scores := Scores(list, (p: Placement) => Score(board, piece, next, w, p.landing, |p.path|));
    LeadsStart(list, scores);
    for n := 0 to |list|
      invariant Leads(list, scores, n, best)
    {
      ListedLockable(board, piece, start, list, n);
      var value := ScorePlacement(board, piece, next, w, list[n]);
      if value.Some? {
        LeadsStep(list, scores, n, best);
        if Improves(value.value, list[n].path, best) {
          best := Some((value.value, list[n].path));
        }
      }
    }
    LeaderIsOptimal(board, piece, start, next, w, list, scores, best);
  }

  /** The board without the recognised piece. */
  ghost function Static(board: Board, piece: Piece, y: int): (r: Board)
    requires WellFormed(board) && y <= MAX_ACTIVE_Y && Matches(board, piece, y)
    ensures WellFormed(r) && Stands(r, piece, Spawned(y))
  {
    ErasedPieceFits(board, piece, y);
    Erased(board, Visible(piece, y))
  }

  /** The active piece is the first match, row by row and shape by shape. */
  ghost predicate Active(board: Board, piece: Piece, y: int)
    requires WellFormed(board)
  {
    && MIN_ACTIVE_Y <= y <= MAX_ACTIVE_Y && Matches(board, piece, y)
    && exists k :: 0 <= k < 7 && PieceAt(k) == piece && NoneBefore(board, y, k)
  }

  /** A shortest way to a landing never needs more keys than a plan may have, whatever the board. */
  lemma BudgetNeverBinds(board: Board, piece: Piece, y: int, keys: seq<Key>, landing: State)
    requires WellFormed(board) && Stands(board, piece, Spawned(y))
    requires ShortestTo(board, piece, Spawned(y), keys, landing)
    ensures |keys| <= MAX_PLAN_KEYS
  {
    hide Stands, Keys, RestsAt, Cells, InWell;
    var s := Run(Keys(board, piece), Spawned(y), keys).value;
    forall other | Run(Keys(board, piece), Spawned(y), other) == Some(s) ensures |keys| <= |other| {
      assert Lands(board, piece, Spawned(y), other, landing);
    }
    BastetBudget.ShortestFitsBudget(board, piece, y, keys);
  }

  lemma OptimalFitsBudget(board: Board, piece: Piece, y: int, next: Option<Piece>, w: Weights, path: seq<Key>)
    requires WellFormed(board) && Stands(board, piece, Spawned(y))
    requires OptimalPlan(board, piece, Spawned(y), next, w, path)
    ensures |path| <= MAX_PLAN_KEYS
    ensures exists landing :: Lands(board, piece, Spawned(y), path, landing)
  {
    hide Stands, Score, Lands;
    var landing :| OptimalLanding(board, piece, Spawned(y), next, w, path, landing);
    BudgetNeverBinds(board, piece, y, path, landing);
  }

  /** Ten steps and three turns can be needed: one more key than the widest plan noted beside the limit. */
  lemma WiderThanNoted()
    ensures var board := BastetBudget.Maze();
      && ShortestTo(board, I, Spawned(0), BastetBudget.TOUR, State(-1, 0, 3)) && |BastetBudget.TOUR| == 13
  {
    hide Keys, RestsAt, Run, BastetBudget.Maze;
    var board := BastetBudget.Maze();
    BastetBudget.TourLands();
    forall other | Lands(board, I, Spawned(0), other, State(-1, 0, 3)) ensures 13 <= |other| {
      BastetBudget.RankBound(other);
    }
  }

  /** The piece can come to rest inside the well. */
  ghost predicate CanLand(board: Board, piece: Piece, y: int)
    requires WellFormed(board)
  {
    exists keys, landing :: Lands(board, piece, Spawned(y), keys, landing)
  }

  /**
    The plan is optimal for the active piece on the board without it, and there is
    one exactly when there is an active piece that can land.  The key limit is
    checked, as in the program, but an optimal plan never exceeds it.
  */
  method PlanKeys(board: Board, next: Option<Piece>, w: Weights) returns (plan: Option<seq<Key>>)
    requires WellFormed(board)
    ensures plan.Some? ==>
      && |plan.value| <= MAX_PLAN_KEYS
      && exists piece, y :: Active(board, piece, y)
           && OptimalPlan(Static(board, piece, y), piece, Spawned(y), next, w, plan.value)
    ensures plan.Some? <==> exists piece, y :: Active(board, piece, y) && CanLand(Static(board, piece, y), piece, y)
  {
    hide Matches, NoneBefore, Visible, Erased, Stands, OptimalPlan, Lands;
    var active := FindActive(board);
    if active.None? {
      EveryPieceTried(board);
      return None;
    }
    var (piece, y) := active.value;
    ErasedPieceFits(board, piece, y);
    var well := Erased(board, Visible(piece, y));
    assert well == Static(board, piece, y) && Active(board, piece, y);
    forall piece', y' | Active(board, piece', y') ensures piece' == piece && y' == y {
      ActiveUnique(board, piece, y, piece', y');
    }
    var best := BestPlacement(well, piece, Spawned(y), next, w);
    if best.Some? {
      OptimalFitsBudget(well, piece, y, next, w, best.value.1);
    }
    if best.None? || |best.value.1| > MAX_PLAN_KEYS {
      return None;
    }
    plan := Some(best.value.1);
  }

  lemma ActiveUnique(board: Board, p: Piece, y: int, q: Piece, z: int)
    requires WellFormed(board) && Active(board, p, y) && Active(board, q, z)
    ensures p == q && y == z
  {
    hide Matches;
    var k :| 0 <= k < 7 && PieceAt(k) == p && NoneBefore(board, y, k);
    var l :| 0 <= l < 7 && PieceAt(l) == q && NoneBefore(board, z, l);
    assert Matches(board, PieceAt(k), y) && Matches(board, PieceAt(l), z);
  }

  lemma EveryPieceTried(board: Board)
    requires WellFormed(board)
    requires forall y, k :: MIN_ACTIVE_Y <= y <= MAX_ACTIVE_Y && 0 <= k < 7 ==> !Matches(board, PieceAt(k), y)
    ensures forall piece, y :: !Active(board, piece, y)
  {
    hide Matches;
  }
}
