/**
  The Bastet well: board, pieces, locking with line clears and the board features
  of brains/bastet/brain.py.
*/
module BastetBoard {
  import opened Wrappers

  const WIDTH := 10
  const HEIGHT := 20

  datatype Piece = O | I | Z | T | J | S | L

  type Cell = Option<Piece>
  type Row = seq<Cell>
  type Board = seq<Row>
  type Offset = (int, int)

  predicate WellFormed(board: Board) {
    |board| == HEIGHT && forall y :: 0 <= y < HEIGHT ==> |board[y]| == WIDTH
  }

  const EMPTY_ROW: Row := [None, None, None, None, None, None, None, None, None, None]

  /** The four cells of a piece relative to its anchor, by orientation 0..3. */
  function Shape(piece: Piece, o: nat): seq<Offset>
    requires o < 4
  {
    match piece
    case O => [(1, 1), (2, 1), (1, 0), (2, 0)]
    case I =>
      if o == 0 then [(0, 1), (1, 1), (2, 1), (3, 1)] else if o == 1 then [(2, 3), (2, 1), (2, 2), (2, 0)]
      else if o == 2 then [(0, 2), (1, 2), (2, 2), (3, 2)] else [(1, 3), (1, 1), (1, 2), (1, 0)]
    case Z =>
      if o == 0 then [(1, 1), (2, 1), (0, 0), (1, 0)] else if o == 1 then [(1, 2), (1, 1), (2, 1), (2, 0)]
      else if o == 2 then [(1, 2), (2, 2), (0, 1), (1, 1)] else [(0, 2), (0, 1), (1, 1), (1, 0)]
    case T =>
      if o == 0 then [(0, 1), (1, 1), (2, 1), (1, 0)] else if o == 1 then [(1, 2), (1, 1), (2, 1), (1, 0)]
      else if o == 2 then [(1, 2), (0, 1), (1, 1), (2, 1)] else [(1, 2), (0, 1), (1, 1), (1, 0)]
    case J =>
      if o == 0 then [(0, 1), (1, 1), (2, 1), (0, 0)] else if o == 1 then [(1, 2), (1, 1), (1, 0), (2, 0)]
      else if o == 2 then [(2, 2), (0, 1), (1, 1), (2, 1)] else [(0, 2), (1, 2), (1, 1), (1, 0)]
    case S =>
      if o == 0 then [(0, 1), (1, 1), (1, 0), (2, 0)] else if o == 1 then [(2, 2), (1, 1), (2, 1), (1, 0)]
      else if o == 2 then [(0, 2), (1, 2), (1, 1), (2, 1)] else [(1, 2), (0, 1), (1, 1), (0, 0)]
    case L =>
      if o == 0 then [(0, 1), (1, 1), (2, 1), (2, 0)] else if o == 1 then [(1, 2), (2, 2), (1, 1), (1, 0)]
      else if o == 2 then [(0, 2), (0, 1), (1, 1), (2, 1)] else [(1, 2), (1, 1), (0, 0), (1, 0)]
  }

  /** What the search and the locking need of a shape. */
  predicate Tetromino(shape: seq<Offset>) {
    && |shape| == 4
    && (forall i :: 0 <= i < 4 ==> 0 <= shape[i].0 <= 3 && 0 <= shape[i].1 <= 3)
    && (forall i, j :: 0 <= i < j < 4 ==> shape[i] != shape[j])
  }

  predicate InBox(c: Offset) {
    0 <= c.0 <= 3 && 0 <= c.1 <= 3
  }

  lemma FourCells(s: seq<Offset>)
    requires |s| == 4 && InBox(s[0]) && InBox(s[1]) && InBox(s[2]) && InBox(s[3])
    requires s[0] != s[1] && s[0] != s[2] && s[0] != s[3] && s[1] != s[2] && s[1] != s[3] && s[2] != s[3]
    ensures Tetromino(s)
  {
  }

  lemma ShapesAreTetrominoes(piece: Piece, o: nat)
    requires o < 4
    ensures Tetromino(Shape(piece, o))
  {
    hide Tetromino;
    FourCells(Shape(piece, o));
  }

  /** The orientations of a piece have different cells, except that O has one shape. */
  lemma AllOrientationsDiffer(piece: Piece, o: nat, p: nat)
    requires o < 4 && p < 4
    ensures piece == O ==> Shape(piece, o) == Shape(piece, p)
    ensures piece != O && o != p ==> Shape(piece, o) != Shape(piece, p)
  {
    var a, b := Shape(piece, o), Shape(piece, p);
    if piece != O && o != p {
      assert a[0] != b[0] || a[1] != b[1] || a[2] != b[2] || a[3] != b[3];
    }
  }

  predicate CellFits(board: Board, col: int, row: int)
    requires WellFormed(board)
  {
    0 <= col < WIDTH && row < HEIGHT && (row >= 0 ==> board[row][col].None?)
  }

  /** Rows above the well are open space for a piece that is still entering. */
  predicate Fits(board: Board, shape: seq<Offset>, x: int, y: int)
    requires WellFormed(board)
  {
    forall i :: 0 <= i < |shape| ==> CellFits(board, x + shape[i].0, y + shape[i].1)
  }

  predicate InWell(shape: seq<Offset>, y: int) {
    forall i :: 0 <= i < |shape| ==> y + shape[i].1 >= 0
  }

  // ---------------------------------------------------------------- counting cells

  function RowCells(row: Row): nat {
    if row == [] then 0 else (if row[0].Some? then 1 else 0) + RowCells(row[1..])
  }

  function BoardCells(board: Board): nat {
    if board == [] then 0 else RowCells(board[0]) + BoardCells(board[1..])
  }

  predicate Full(row: Row) {
    forall x :: 0 <= x < |row| ==> row[x].Some?
  }

  lemma {:induction false} RowCellsSet(row: Row, x: nat, piece: Piece)
    requires x < |row| && row[x].None?
    ensures RowCells(row[x := Some(piece)]) == RowCells(row) + 1
  {
    if x > 0 {
      RowCellsSet(row[1..], x - 1, piece);
      assert row[x := Some(piece)][1..] == row[1..][x - 1 := Some(piece)];
    } else {
      assert row[x := Some(piece)][1..] == row[1..];
    }
  }

  lemma {:induction false} BoardCellsSet(board: Board, y: nat, row: Row)
    requires y < |board|
    ensures BoardCells(board[y := row]) == BoardCells(board) - RowCells(board[y]) + RowCells(row)
  {
    if y > 0 {
      BoardCellsSet(board[1..], y - 1, row);
      assert board[y := row][1..] == board[1..][y - 1 := row];
    } else {
      assert board[y := row][1..] == board[1..];
    }
  }

  lemma {:induction false} FullRowCells(row: Row)
    ensures RowCells(row) <= |row|
    ensures Full(row) <==> RowCells(row) == |row|
  {
    if row != [] {
      FullRowCells(row[1..]);
      assert Full(row) <==> row[0].Some? && Full(row[1..]);
    }
  }

  lemma {:induction false} BoardCellsConcat(a: Board, b: Board)
    ensures BoardCells(a + b) == BoardCells(a) + BoardCells(b)
  {
    if a == [] {
      assert a + b == b;
    } else {
      assert (a + b)[1..] == a[1..] + b;
      BoardCellsConcat(a[1..], b);
    }
  }

  // ---------------------------------------------------------------- locking

  /** The board with the first `n` cells of the shape filled. */
  function Filled(board: Board, shape: seq<Offset>, x: int, y: int, piece: Piece, n: nat): (r: Board)
    requires WellFormed(board) && n <= |shape|
    requires Fits(board, shape, x, y) && InWell(shape, y)
    ensures WellFormed(r)
  {
    if n == 0 then board
    else
      var b := Filled(board, shape, x, y, piece, n - 1);
      var (dx, dy) := shape[n - 1];
      assert CellFits(board, x + dx, y + dy);
      b[y + dy := b[y + dy][x + dx := Some(piece)]]
  }

  /** Exactly the cells of the shape are filled. */
  lemma {:induction false} FilledAt(board: Board, shape: seq<Offset>, x: int, y: int, piece: Piece, n: nat, r: nat,
    c: nat)
    requires WellFormed(board) && n <= |shape|
    requires Fits(board, shape, x, y) && InWell(shape, y)
    requires r < HEIGHT && c < WIDTH
    ensures Filled(board, shape, x, y, piece, n)[r][c] ==
      if (c - x, r - y) in shape[..n] then Some(piece) else board[r][c]
  {
    if n > 0 {
      FilledAt(board, shape, x, y, piece, n - 1, r, c);
      assert CellFits(board, x + shape[n - 1].0, y + shape[n - 1].1);
      assert shape[..n] == shape[..n - 1] + [shape[n - 1]];
    }
  }

  lemma {:induction false} FilledCells(board: Board, shape: seq<Offset>, x: int, y: int, piece: Piece, n: nat)
    requires WellFormed(board) && n <= |shape|
    requires Fits(board, shape, x, y) && InWell(shape, y)
    requires Tetromino(shape)
    ensures BoardCells(Filled(board, shape, x, y, piece, n)) == BoardCells(board) + n
  {
    if n > 0 {
      FilledCells(board, shape, x, y, piece, n - 1);
      var b := Filled(board, shape, x, y, piece, n - 1);
      var (dx, dy) := shape[n - 1];
      assert CellFits(board, x + dx, y + dy);
      FilledAt(board, shape, x, y, piece, n - 1, y + dy, x + dx);
      var row := b[y + dy];
      assert row[x + dx] == None;
      RowCellsSet(row, x + dx, piece);
      BoardCellsSet(b, y + dy, row[x + dx := Some(piece)]);
    }
  }

  /** The rows that survive a line clear, in order. */
  function Surviving(board: Board): (r: Board)
    ensures |r| <= |board|
  {
    if board == [] then []
    else (if Full(board[0]) then [] else [board[0]]) + Surviving(board[1..])
  }

  function Blank(n: nat): (r: Board)
    ensures |r| == n && forall y :: 0 <= y < n ==> r[y] == EMPTY_ROW
  {
    seq(n, _ => EMPTY_ROW)
  }

  /** The settled board: the surviving rows pushed down by as many blank rows as were cleared. */
  function SettledBoard(locked: Board): Board
    requires |locked| == HEIGHT
  {
    Blank(HEIGHT - |Surviving(locked)|) + Surviving(locked)
  }

  lemma {:induction false} SurvivingSnoc(board: Board, row: Row)
    ensures Surviving(board + [row]) == Surviving(board) + (if Full(row) then [] else [row])
  {
    if board == [] {
      assert board + [row] == [row];
    } else {
      assert (board + [row])[1..] == board[1..] + [row];
      SurvivingSnoc(board[1..], row);
    }
  }

  /** Copies the board and writes the piece into it. */
  method Lock(board: Board, shape: seq<Offset>, x: int, y: int, piece: Piece) returns (locked: Board)
    requires WellFormed(board) && Fits(board, shape, x, y) && InWell(shape, y)
    ensures locked == Filled(board, shape, x, y, piece, |shape|)
  {
    locked := board;
    for n := 0 to |shape|
      invariant locked == Filled(board, shape, x, y, piece, n)
    {
      var (dx, dy) := shape[n];
      assert CellFits(board, x + dx, y + dy);
      locked := locked[y + dy := locked[y + dy][x + dx := Some(piece)]];
    }
  }

  /** Keeps the rows that have an empty cell. */
  method Clear(locked: Board) returns (remaining: Board)
    ensures remaining == Surviving(locked)
  {
    remaining := [];
    for row := 0 to |locked|
      invariant remaining == Surviving(locked[..row])
    {
      SurvivingSnoc(locked[..row], locked[row]);
      assert locked[..row + 1] == locked[..row] + [locked[row]];
      if !Full(locked[row]) {
        remaining := remaining + [locked[row]];
      }
    }
    assert locked[..|locked|] == locked;
  }

  /** Locks a piece and clears full lines; None when it would lock above the well. */
  method LockAndClear(board: Board, shape: seq<Offset>, x: int, y: int, piece: Piece)
    returns (r: Option<(Board, nat)>)
    requires WellFormed(board) && Fits(board, shape, x, y)
    ensures r.None? <==> !InWell(shape, y)
    ensures r.Some? ==>
      var locked := Filled(board, shape, x, y, piece, |shape|);
      r.value == (SettledBoard(locked), HEIGHT - |Surviving(locked)|)
  {
    if exists i :: 0 <= i < |shape| && y + shape[i].1 < 0 {
      return None;
    }
    var locked := Lock(board, shape, x, y, piece);
    var remaining := Clear(locked);
    var cleared := HEIGHT - |remaining|;
    r := Some((Blank(cleared) + remaining, cleared));
  }

  // ---------------------------------------------------------------- what a line clear conserves

  function FullRows(board: Board): nat {
    if board == [] then 0 else (if Full(board[0]) then 1 else 0) + FullRows(board[1..])
  }

  lemma {:induction false} SurvivingConserves(board: Board)
    requires forall y :: 0 <= y < |board| ==> |board[y]| == WIDTH
    ensures BoardCells(Surviving(board)) + 10 * (|board| - |Surviving(board)|) == BoardCells(board)
    ensures |board| - |Surviving(board)| == FullRows(board)
    ensures forall y :: 0 <= y < |Surviving(board)| ==> |Surviving(board)[y]| == WIDTH && !Full(Surviving(board)[y])
  {
    if board != [] {
      SurvivingConserves(board[1..]);
      FullRowCells(board[0]);
      var s := Surviving(board[1..]);
      if !Full(board[0]) {
        assert Surviving(board) == [board[0]] + s;
        assert Surviving(board)[1..] == s;
        forall y | 0 <= y < |Surviving(board)|
          ensures |Surviving(board)[y]| == WIDTH && !Full(Surviving(board)[y])
        {
          assert y > 0 ==> Surviving(board)[y] == s[y - 1];
        }
      } else {
        assert Surviving(board) == s;
      }
    }
  }

  lemma {:induction false} BlankCells(n: nat)
    ensures BoardCells(Blank(n)) == 0
  {
    if n > 0 {
      assert Blank(n)[1..] == Blank(n - 1);
      BlankCells(n - 1);
      EmptyCells(EMPTY_ROW);
    }
  }

  lemma {:induction false} EmptyCells(row: Row)
    requires forall x :: 0 <= x < |row| ==> row[x].None?
    ensures RowCells(row) == 0
  {
    if row != [] { EmptyCells(row[1..]); }
  }

  /** Surviving rows keep their order: an increasing list of the indices of all non-full rows. */
  function SurvivingIndices(board: Board, from: nat): (r: seq<nat>)
    requires from <= |board|
    ensures forall i :: 0 <= i < |r| ==> from <= r[i] < |board|
    ensures forall i, j :: 0 <= i < j < |r| ==> r[i] < r[j]
    ensures forall y :: from <= y < |board| ==> (y in r <==> !Full(board[y]))
    decreases |board| - from
  {
    if from == |board| then []
    else (if Full(board[from]) then [] else [from]) + SurvivingIndices(board, from + 1)
  }

  lemma {:induction false} SurvivingInOrder(board: Board, from: nat)
    requires from <= |board|
    ensures var r := SurvivingIndices(board, from);
            && |Surviving(board[from..])| == |r|
            && forall i :: 0 <= i < |r| ==> Surviving(board[from..])[i] == board[r[i]]
    decreases |board| - from
  {
    if from < |board| {
      SurvivingInOrder(board, from + 1);
      assert board[from..][1..] == board[from + 1..];
      var r, r1 := SurvivingIndices(board, from), SurvivingIndices(board, from + 1);
      var s, s1 := Surviving(board[from..]), Surviving(board[from + 1..]);
      if !Full(board[from]) {
        assert s == [board[from]] + s1 && r == [from] + r1;
      } else {
        assert s == s1 && r == r1;
      }
    }
  }

  /** Rows that no cell of the piece touches stay as they were. */
  lemma {:induction false} FullRowsBound(old_: Board, new_: Board, touched: seq<int>)
    requires |old_| == |new_|
    requires forall y :: 0 <= y < |old_| && y !in touched ==> new_[y] == old_[y]
    requires FullRows(old_) == 0
    ensures FullRows(new_) <= |touched|
    decreases |touched|
  {
    if touched == [] {
      assert new_ == old_;
    } else {
      var y := touched[0];
      if 0 <= y < |old_| {
        var mid := new_[y := old_[y]];
        FullRowsBound(old_, mid, touched[1..]);
        FullRowsSet(mid, y, new_[y]);
        assert mid[y := new_[y]] == new_;
      } else {
        FullRowsBound(old_, new_, touched[1..]);
      }
    }
  }

  lemma {:induction false} FullRowsSet(board: Board, y: nat, row: Row)
    requires y < |board|
    ensures FullRows(board[y := row]) <= FullRows(board) + 1
  {
    if y > 0 {
      assert board[y := row][1..] == board[1..][y - 1 := row];
      FullRowsSet(board[1..], y - 1, row);
    } else {
      assert board[y := row][1..] == board[1..];
    }
  }

  lemma AtMostFourLines(board: Board, shape: seq<Offset>, x: int, y: int, piece: Piece)
    requires WellFormed(board) && Tetromino(shape) && FullRows(board) == 0
    requires Fits(board, shape, x, y) && InWell(shape, y)
    ensures FullRows(Filled(board, shape, x, y, piece, 4)) <= 4
  {
    var locked := Filled(board, shape, x, y, piece, 4);
    var touched := [y + shape[0].1, y + shape[1].1, y + shape[2].1, y + shape[3].1];
    forall r | 0 <= r < HEIGHT && r !in touched
      ensures locked[r] == board[r]
    {
      forall c | 0 <= c < WIDTH ensures locked[r][c] == board[r][c] {
        FilledAt(board, shape, x, y, piece, 4, r, c);
      }
    }
    FullRowsBound(board, locked, touched);
  }

  lemma SettledShape(locked: Board)
    requires WellFormed(locked)
    ensures WellFormed(SettledBoard(locked))
    ensures forall r :: 0 <= r < HEIGHT ==> !Full(SettledBoard(locked)[r])
    ensures BoardCells(SettledBoard(locked)) == BoardCells(locked) - 10 * (HEIGHT - |Surviving(locked)|)
  {
    SurvivingConserves(locked);
    var cleared := HEIGHT - |Surviving(locked)|;
    BlankCells(cleared);
    BoardCellsConcat(Blank(cleared), Surviving(locked));
    assert EMPTY_ROW[0] == None;
  }

  /**
    Line-clear conservation.  Locking a fitting piece inside the well gives 20 rows
    of 10 without a full row, ten cells disappear per cleared row, the surviving
    rows keep their order below the blank rows, and a board that had no full row
    loses at most four.
  */
  lemma LineClearConserves(board: Board, shape: seq<Offset>, x: int, y: int, piece: Piece)
    requires WellFormed(board) && Tetromino(shape)
    requires Fits(board, shape, x, y) && InWell(shape, y)
    ensures var locked := Filled(board, shape, x, y, piece, 4);
            var settled := SettledBoard(locked);
            var cleared := HEIGHT - |Surviving(locked)|;
            var kept := SurvivingIndices(locked, 0);
            && WellFormed(settled)
            && (forall r :: 0 <= r < HEIGHT ==> !Full(settled[r]))
            && BoardCells(settled) == BoardCells(board) + 4 - 10 * cleared
            && |kept| == HEIGHT - cleared
            && (forall r :: 0 <= r < cleared ==> settled[r] == EMPTY_ROW)
            && (forall i :: 0 <= i < |kept| ==> settled[cleared + i] == locked[kept[i]])
            && (FullRows(board) == 0 ==> cleared <= 4)
  {
    hide Filled, Fits, InWell, FullRows, Full;
    var locked := Filled(board, shape, x, y, piece, 4);
    FilledCells(board, shape, x, y, piece, 4);
    SettledShape(locked);
    SurvivingConserves(locked);
    SurvivingInOrder(locked, 0);
    assert locked[0..] == locked;
    if FullRows(board) == 0 {
      AtMostFourLines(board, shape, x, y, piece);
    }
  }
}
