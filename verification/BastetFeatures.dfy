/**
  The board features that score a placement: column heights, holes, row and
  column transitions, well sums.  Each feature has a definition per row or column,
  the scanning loops are proved to compute it, and the lemmas say what the
  numbers mean on every board.
*/
module BastetFeatures {
  import opened BastetBoard

  predicate Occupied(board: Board, x: nat, y: nat)
    requires WellFormed(board) && x < WIDTH && y < HEIGHT
  {
    board[y][x].Some?
  }

  /** Height of column x seen from row y downward: 0 when nothing is occupied. */
  function HeightFrom(board: Board, x: nat, y: nat): nat
    requires WellFormed(board) && x < WIDTH && y <= HEIGHT
    decreases |board| - y
  {
    if y == HEIGHT then 0 else if Occupied(board, x, y) then HEIGHT - y else HeightFrom(board, x, y + 1)
  }

  /** Empty cells at or below row y with an occupied cell above them. */
  function HolesFrom(board: Board, x: nat, y: nat, covered: bool): nat
    requires WellFormed(board) && x < WIDTH && y <= HEIGHT
    decreases |board| - y
  {
    if y == HEIGHT then 0
    else if Occupied(board, x, y) then HolesFrom(board, x, y + 1, true)
    else (if covered then 1 else 0) + HolesFrom(board, x, y + 1, covered)
  }

  function CellsFrom(board: Board, x: nat, y: nat): nat
    requires WellFormed(board) && x < WIDTH && y <= HEIGHT
    decreases |board| - y
  {
    if y == HEIGHT then 0 else (if Occupied(board, x, y) then 1 else 0) + CellsFrom(board, x, y + 1)
  }

  /** Changes between neighbours from column x rightward; both walls count as filled. */
  function RowTransitionsFrom(board: Board, y: nat, x: nat, previous: bool): nat
    requires WellFormed(board) && x <= WIDTH && y < HEIGHT
    decreases |board| - x
  {
    if x == WIDTH then (if previous then 0 else 1)
    else (if Occupied(board, x, y) != previous then 1 else 0) + RowTransitionsFrom(board, y, x + 1,
      Occupied(board, x, y))
  }

  /** Changes between neighbours from row y downward; the floor counts as filled. */
  function ColumnTransitionsFrom(board: Board, x: nat, y: nat, previous: bool): nat
    requires WellFormed(board) && x < WIDTH && y <= HEIGHT
    decreases |board| - y
  {
    if y == HEIGHT then (if previous then 0 else 1)
    else (if Occupied(board, x, y) != previous then 1 else 0) + ColumnTransitionsFrom(board, x, y + 1,
      Occupied(board, x, y))
  }

  /** Length of the run of empty cells from (x, y) downward. */
  function EmptyRun(board: Board, x: nat, y: nat): nat
    requires WellFormed(board) && x < WIDTH && y <= HEIGHT
    decreases |board| - y
  {
    if y == HEIGHT || Occupied(board, x, y) then 0 else 1 + EmptyRun(board, x, y + 1)
  }

  /** An empty cell with a wall or an occupied cell on either side. */
  predicate SideWalled(board: Board, x: nat, y: nat)
    requires WellFormed(board) && x < WIDTH && y < HEIGHT
  {
    && !Occupied(board, x, y)
    && (x == 0 || Occupied(board, x - 1, y))
    && (x == WIDTH - 1 || Occupied(board, x + 1, y))
  }

  function WellFrom(board: Board, x: nat, y: nat): nat
    requires WellFormed(board) && x < WIDTH && y <= HEIGHT
    decreases |board| - y
  {
    if y == HEIGHT then 0
    else (if SideWalled(board, x, y) then EmptyRun(board, x, y) else 0) + WellFrom(board, x, y + 1)
  }

  // ---------------------------------------------------------------- totals over the board

  function HeightsFrom(board: Board, x: nat): (r: seq<nat>)
    requires WellFormed(board) && x <= WIDTH
    ensures |r| == WIDTH - x
    decreases |board| - x
  {
    if x == WIDTH then [] else [HeightFrom(board, x, 0)] + HeightsFrom(board, x + 1)
  }

  function Sum(s: seq<nat>): nat {
    if s == [] then 0 else s[0] + Sum(s[1..])
  }

  function TotalHoles(board: Board, x: nat): nat
    requires WellFormed(board) && x <= WIDTH
    decreases |board| - x
  {
    if x == WIDTH then 0 else HolesFrom(board, x, 0, false) + TotalHoles(board, x + 1)
  }

  function TotalRowTransitions(board: Board, y: nat): nat
    requires WellFormed(board) && y <= HEIGHT
    decreases |board| - y
  {
    if y == HEIGHT then 0 else RowTransitionsFrom(board, y, 0, true) + TotalRowTransitions(board, y + 1)
  }

  function TotalColumnTransitions(board: Board, x: nat): nat
    requires WellFormed(board) && x <= WIDTH
    decreases |board| - x
  {
    if x == WIDTH then 0 else ColumnTransitionsFrom(board, x, 0, false) + TotalColumnTransitions(board, x + 1)
  }

  function TotalWells(board: Board, x: nat): nat
    requires WellFormed(board) && x <= WIDTH
    decreases |board| - x
  {
    if x == WIDTH then 0 else WellFrom(board, x, 0) + TotalWells(board, x + 1)
  }

  datatype Features = Features(
    heights: seq<nat>, rowTransitions: nat, columnTransitions: nat, holes: nat, wellSums: nat)

  function FeaturesOf(board: Board): Features
    requires WellFormed(board)
  {
    Features(HeightsFrom(board, 0), TotalRowTransitions(board, 0), TotalColumnTransitions(board, 0),
             TotalHoles(board, 0), TotalWells(board, 0))
  }

  // ---------------------------------------------------------------- the scanning loops

  /** The inner loop over one column. */
  method ScanColumn(board: Board, x: nat) returns (height: nat, holes: nat)
    requires WellFormed(board) && x < WIDTH
    ensures height == HeightFrom(board, x, 0) && holes == HolesFrom(board, x, 0, false)
  {
    height, holes := 0, 0;
    var occupied := false;
    for y := 0 to HEIGHT
      invariant occupied ==> height == HeightFrom(board, x, 0)
      invariant !occupied ==> height == 0 && HeightFrom(board, x, y) == HeightFrom(board, x, 0)
      invariant holes + HolesFrom(board, x, y, occupied) == HolesFrom(board, x, 0, false)
    {
      if board[y][x].Some? {
        if !occupied {
          occupied := true;
          height := HEIGHT - y;
        }
      } else if occupied {
        holes := holes + 1;
      }
    }
  }

  method ScanColumns(board: Board) returns (heights: seq<nat>, holes: nat)
    requires WellFormed(board)
    ensures heights == HeightsFrom(board, 0) && holes == TotalHoles(board, 0)
  {
    hide HeightFrom, HolesFrom, WellFormed;
    heights := seq(WIDTH, _ => 0);
    holes := 0;
    var x := 0;
    while x < WIDTH
      invariant 0 <= x <= WIDTH && |heights| == WIDTH
      invariant heights[..x] + HeightsFrom(board, x) == HeightsFrom(board, 0)
      invariant holes + TotalHoles(board, x) == TotalHoles(board, 0)
    {
      ghost var before := heights[..x];
      var height, more := ScanColumn(board, x);
      heights := heights[x := height];
      holes := holes + more;
      assert heights[..x + 1] == before + [height];
      x := x + 1;
    }
    assert heights[..WIDTH] == heights;
  }

  method ScanRowTransitions(board: Board) returns (transitions: nat)
    requires WellFormed(board)
    ensures transitions == TotalRowTransitions(board, 0)
  {
    transitions := 0;
    for y := 0 to HEIGHT
      invariant transitions + TotalRowTransitions(board, y) == TotalRowTransitions(board, 0)
    {
      var previous := true;
      ghost var t0 := transitions;
      for x := 0 to WIDTH
        invariant transitions + RowTransitionsFrom(board, y, x, previous) == t0 + RowTransitionsFrom(board, y, 0, true)
      {
        var current := board[y][x].Some?;
        if current != previous {
          transitions := transitions + 1;
        }
        previous := current;
      }
      if !previous {
        transitions := transitions + 1;
      }
    }
  }

  method ScanColumnTransitions(board: Board) returns (transitions: nat)
    requires WellFormed(board)
    ensures transitions == TotalColumnTransitions(board, 0)
  {
    transitions := 0;
    for x := 0 to WIDTH
      invariant transitions + TotalColumnTransitions(board, x) == TotalColumnTransitions(board, 0)
    {
      var previous := false;
      ghost var t0 := transitions;
      for y := 0 to HEIGHT
        invariant transitions + ColumnTransitionsFrom(board, x, y, previous) ==
                  t0 + ColumnTransitionsFrom(board, x, 0, false)
      {
        var current := board[y][x].Some?;
        if current != previous {
          transitions := transitions + 1;
        }
        previous := current;
      }
      if !previous {
        transitions := transitions + 1;
      }
    }
  }

  method ScanWells(board: Board) returns (wells: nat)
    requires WellFormed(board)
    ensures wells == TotalWells(board, 0)
  {
    wells := 0;
    for x := 0 to WIDTH
      invariant wells + TotalWells(board, x) == TotalWells(board, 0)
    {
      ghost var w0 := wells;
      for y := 0 to HEIGHT
        invariant wells + WellFrom(board, x, y) == w0 + WellFrom(board, x, 0)
      {
        if board[y][x].Some? {
          continue;
        }
        if (x == 0 || board[y][x - 1].Some?) && (x == WIDTH - 1 || board[y][x + 1].Some?) {
          ghost var w1 := wells;
          wells := wells + 1;
          var below := y + 1;
          while below < HEIGHT && board[below][x].None?
            invariant y < below <= HEIGHT
            invariant wells + EmptyRun(board, x, below) == w1 + EmptyRun(board, x, y)
          {
            wells := wells + 1;
            below := below + 1;
          }
        }
      }
    }
  }

  method WellFeatures(board: Board) returns (r: Features)
    requires WellFormed(board)
    ensures r == FeaturesOf(board)
  {
    var heights, holes := ScanColumns(board);
    var rows := ScanRowTransitions(board);
    var columns := ScanColumnTransitions(board);
    var wells := ScanWells(board);
    r := Features(heights, rows, columns, holes, wells);
  }

  // ---------------------------------------------------------------- what the numbers mean

  lemma {:induction false} ColumnBalance(board: Board, x: nat, y: nat)
    requires WellFormed(board) && x < WIDTH && y <= HEIGHT
    ensures HeightFrom(board, x, y) == CellsFrom(board, x, y) + HolesFrom(board, x, y, false)
    ensures CellsFrom(board, x, y) + HolesFrom(board, x, y, true) == HEIGHT - y
    decreases |board| - y
  {
    if y < HEIGHT { ColumnBalance(board, x, y + 1); }
  }

  function ColumnsCells(board: Board, x: nat, y: nat): nat
    requires WellFormed(board) && x <= WIDTH && y <= HEIGHT
    decreases |board| - x
  {
    if x == WIDTH then 0 else CellsFrom(board, x, y) + ColumnsCells(board, x + 1, y)
  }

  lemma {:induction false} PeelRow(board: Board, x: nat, y: nat)
    requires WellFormed(board) && x <= WIDTH && y < HEIGHT
    ensures ColumnsCells(board, x, y) == RowCells(board[y][x..]) + ColumnsCells(board, x, y + 1)
    decreases |board| - x
  {
    if x < WIDTH {
      PeelRow(board, x + 1, y);
      assert board[y][x..][1..] == board[y][x + 1..];
    } else {
      assert board[y][x..] == [];
    }
  }

  /** Counting cells by column or by row gives the same total. */
  lemma {:induction false} ColumnsCountBoard(board: Board, y: nat)
    requires WellFormed(board) && y <= HEIGHT
    ensures ColumnsCells(board, 0, y) == BoardCells(board[y..])
    decreases |board| - y
  {
    if y < HEIGHT {
      PeelRow(board, 0, y);
      ColumnsCountBoard(board, y + 1);
      assert board[y..][1..] == board[y + 1..];
      assert board[y][0..] == board[y];
    } else {
      NoCellsBelow(board, 0);
    }
  }

  lemma {:induction false} NoCellsBelow(board: Board, x: nat)
    requires WellFormed(board) && x <= WIDTH
    ensures ColumnsCells(board, x, HEIGHT) == 0
    decreases |board| - x
  {
    if x < WIDTH { NoCellsBelow(board, x + 1); }
  }

  lemma {:induction false} HeightsBalance(board: Board, x: nat)
    requires WellFormed(board) && x <= WIDTH
    ensures Sum(HeightsFrom(board, x)) == ColumnsCells(board, x, 0) + TotalHoles(board, x)
    decreases |board| - x
  {
    if x < WIDTH {
      HeightsBalance(board, x + 1);
      ColumnBalance(board, x, 0);
      assert HeightsFrom(board, x)[1..] == HeightsFrom(board, x + 1);
    }
  }

  lemma {:induction false} RowParity(board: Board, y: nat, x: nat, previous: bool)
    requires WellFormed(board) && x <= WIDTH && y < HEIGHT
    ensures RowTransitionsFrom(board, y, x, previous) % 2 == if previous then 0 else 1
    decreases |board| - x
  {
    if x < WIDTH { RowParity(board, y, x + 1, Occupied(board, x, y)); }
  }

  lemma {:induction false} ColumnParity(board: Board, x: nat, y: nat, previous: bool)
    requires WellFormed(board) && x < WIDTH && y <= HEIGHT
    ensures ColumnTransitionsFrom(board, x, y, previous) % 2 == if previous then 0 else 1
    decreases |board| - y
  {
    if y < HEIGHT { ColumnParity(board, x, y + 1, Occupied(board, x, y)); }
  }

  lemma {:induction false} RowTotalsEven(board: Board, y: nat)
    requires WellFormed(board) && y <= HEIGHT
    ensures TotalRowTransitions(board, y) % 2 == 0
    decreases |board| - y
  {
    if y < HEIGHT {
      RowTotalsEven(board, y + 1);
      RowParity(board, y, 0, true);
    }
  }

  lemma {:induction false} ColumnTotals(board: Board, x: nat)
    requires WellFormed(board) && x <= WIDTH
    ensures TotalColumnTransitions(board, x) >= WIDTH - x
    ensures TotalColumnTransitions(board, x) % 2 == (WIDTH - x) % 2
    decreases WIDTH - x
  {
    hide ColumnTransitionsFrom, WellFormed;
    if x < WIDTH {
      ColumnTotals(board, x + 1);
      ColumnParity(board, x, 0, false);
    }
  }

  /**
    An independent reading of the well sum: each cell is counted once for every
    side-walled cell above it, itself included, with no occupied cell in between.
  */
  function WallsAbove(board: Board, x: nat, y: nat): nat
    requires WellFormed(board) && x < WIDTH && y < HEIGHT
  {
    if Occupied(board, x, y) then 0
    else (if SideWalled(board, x, y) then 1 else 0) + (if y == 0 then 0 else WallsAbove(board, x, y - 1))
  }

  function WallDepth(board: Board, x: nat, y: nat): nat
    requires WellFormed(board) && x < WIDTH && y <= HEIGHT
    decreases |board| - y
  {
    if y == HEIGHT then 0 else WallsAbove(board, x, y) + WallDepth(board, x, y + 1)
  }

  function Times(a: nat, b: nat): nat {
    a * b
  }

  lemma TimesLaws(here: nat, above: nat, rest: nat)
    ensures Times(above, 0) == 0 == Times(0, rest) && Times(1, rest) == rest
    ensures Times(here + above, rest) == Times(here, rest) + Times(above, rest)
    ensures Times(above, 1 + rest) == above + Times(above, rest)
  {
  }

  /** Walled cells above row y that open onto it add one count per cell of the empty run below each. */
  lemma {:induction false} WellExchange(board: Board, x: nat, y: nat)
    requires WellFormed(board) && x < WIDTH && y <= HEIGHT
    ensures WallDepth(board, x, y) ==
            WellFrom(board, x, y) + Times(if y == 0 then 0 else WallsAbove(board, x, y - 1), EmptyRun(board, x, y))
    decreases |board| - y
  {
    hide Times;
    var above := if y == 0 then 0 else WallsAbove(board, x, y - 1);
    if y == HEIGHT {
      TimesLaws(0, above, 0);
    } else {
      WellExchange(board, x, y + 1);
      TimesLaws(if SideWalled(board, x, y) then 1 else 0, above, EmptyRun(board, x, y + 1));
    }
  }

  /**
    On every board: heights add up to occupied cells plus holes, each row has an
    even and each column an odd number of transitions, so the column total is at
    least ten; and the well sum of a column counts each cell once per side-walled
    cell that opens onto it.
  */
  lemma FeatureMeaning(board: Board)
    requires WellFormed(board)
    ensures var f := FeaturesOf(board);
            && Sum(f.heights) == BoardCells(board) + f.holes
            && f.rowTransitions % 2 == 0
            && f.columnTransitions % 2 == 0 && f.columnTransitions >= 10
    ensures forall y :: 0 <= y < HEIGHT ==> RowTransitionsFrom(board, y, 0, true) % 2 == 0
    ensures forall x :: 0 <= x < WIDTH ==> ColumnTransitionsFrom(board, x, 0, false) % 2 == 1
    ensures forall x :: 0 <= x < WIDTH ==> WellFrom(board, x, 0) == WallDepth(board, x, 0)
  {
    HeightsBalance(board, 0);
    ColumnsCountBoard(board, 0);
    assert board[0..] == board;
    RowTotalsEven(board, 0);
    ColumnTotals(board, 0);
    forall y | 0 <= y < HEIGHT ensures RowTransitionsFrom(board, y, 0, true) % 2 == 0 {
      RowParity(board, y, 0, true);
    }
    forall x | 0 <= x < WIDTH ensures ColumnTransitionsFrom(board, x, 0, false) % 2 == 1 {
      ColumnParity(board, x, 0, false);
    }
    forall x | 0 <= x < WIDTH ensures WellFrom(board, x, 0) == WallDepth(board, x, 0) {
      WellExchange(board, x, 0);
    }
  }
}
