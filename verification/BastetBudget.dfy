/**
  How long a plan of brains/bastet/brain.py can get: a shortest key path from the
  spawn state has at most 16 keys on every board, so the key limit of plan_keys
  rejects nothing.

  A shortest path is taut: between two of its states there is no shorter way.  For
  every piece but I it keeps one direction, except for one step back at its start and
  one at its end, and turns at most three times in two neighbouring columns.  The I
  piece lies, stands, lies one row lower and stands again, each for one run at most.
  Column 3 is the spawn column.
*/
module BastetBudget {
  import opened Wrappers
  import opened Search
  import opened BastetBoard
  import opened BastetSearch

  // ---------------------------------------------------------------- taut paths

  /** The states along a key path. */
  ghost predicate Walk(board: Board, piece: Piece, start: State, keys: seq<Key>, path: seq<State>)
    requires WellFormed(board)
  {
    && |path| == |keys| + 1 && path[0] == start
    && (forall n :: 0 <= n < |path| ==> Stands(board, piece, path[n]))
    && (forall n :: 0 <= n < |keys| ==> KeyStep(board, piece, path[n], keys[n]) == Some(path[n + 1]))
  }

  /** The keys lead from s to t. */
  ghost predicate Joins(board: Board, piece: Piece, s: State, keys: seq<Key>, t: State)
    requires WellFormed(board)
  {
    Run(Keys(board, piece), s, keys) == Some(t)
  }

  /** Between two states of the path there is no shorter way. */
  ghost predicate Taut(board: Board, piece: Piece, path: seq<State>)
    requires WellFormed(board)
  {
    forall i, j, detour :: 0 <= i <= j < |path| && Joins(board, piece, path[i], detour, path[j]) ==> j - i <= |detour|
  }

  /** The state after the first n keys. */
  ghost function At(board: Board, piece: Piece, start: State, keys: seq<Key>, n: int): State
    requires WellFormed(board) && 0 <= n <= |keys|
  {
    match Run(Keys(board, piece), start, keys[..n]) case Some(s) => s case None => start
  }

  lemma WalkAt(board: Board, piece: Piece, start: State, keys: seq<Key>, n: nat)
    requires WellFormed(board) && Stands(board, piece, start) && Run(Keys(board, piece), start, keys).Some?
    requires n <= |keys|
    ensures Run(Keys(board, piece), start, keys[..n]) == Some(At(board, piece, start, keys, n))
    ensures Stands(board, piece, At(board, piece, start, keys, n))
    ensures n < |keys| ==>
      KeyStep(board, piece, At(board, piece, start, keys, n), keys[n]) == Some(At(board, piece, start, keys, n + 1))
  {
    hide Stands, KeyStep, Run;
    PathStands(board, piece, start, keys, n);
    if n < |keys| {
      PathStands(board, piece, start, keys, n + 1);
      assert keys[..n + 1] == keys[..n] + [keys[n]];
      RunSnoc(Keys(board, piece), start, keys[..n], keys[n]);
    }
  }

  lemma WalkOf(board: Board, piece: Piece, start: State, keys: seq<Key>) returns (path: seq<State>)
    requires WellFormed(board) && Stands(board, piece, start) && Run(Keys(board, piece), start, keys).Some?
    ensures Walk(board, piece, start, keys, path)
    ensures forall n :: 0 <= n <= |keys| ==> Run(Keys(board, piece), start, keys[..n]) == Some(path[n])
  {
    hide Stands, KeyStep, Run, At, Keys;
    path := seq(|keys| + 1, n requires 0 <= n <= |keys| => At(board, piece, start, keys, n));
    forall n | 0 <= n <= |keys|
      ensures Run(Keys(board, piece), start, keys[..n]) == Some(path[n]) && Stands(board, piece, path[n])
      ensures n < |keys| ==> KeyStep(board, piece, path[n], keys[n]) == Some(path[n + 1])
    {
      WalkAt(board, piece, start, keys, n);
    }
    assert path[0] == start by {
      WalkAt(board, piece, start, keys, 0);
      Started(board, piece, start, keys);
    }
  }

  lemma Started(board: Board, piece: Piece, start: State, keys: seq<Key>)
    requires WellFormed(board)
    ensures At(board, piece, start, keys, 0) == start
  {
    hide Keys;
  }

  /** A detour can be spliced into the path. */
  lemma Splice(board: Board, piece: Piece, start: State, keys: seq<Key>, i: nat, j: nat, detour: seq<Key>)
    requires WellFormed(board) && i <= j <= |keys|
    requires Run(Keys(board, piece), start, keys[..i]).Some? && Run(Keys(board, piece), start, keys[..j]).Some?
    requires Run(Keys(board, piece), Run(Keys(board, piece), start, keys[..i]).value, detour)
      == Run(Keys(board, piece), start, keys[..j])
    ensures Run(Keys(board, piece), start, keys[..i] + detour + keys[j..]) == Run(Keys(board, piece), start, keys)
  {
    hide Keys, Run;
    var step := Keys(board, piece);
    RunConcat(step, start, keys[..i], detour);
    assert keys[..j] + keys[j..] == keys;
    RunConcat(step, start, keys[..j], keys[j..]);
    RunConcat(step, start, keys[..i] + detour, keys[j..]);
  }

  /** The walk of a shortest path is taut. */
  lemma TautOf(board: Board, piece: Piece, start: State, keys: seq<Key>, path: seq<State>)
    requires WellFormed(board) && |path| == |keys| + 1
    requires forall n :: 0 <= n <= |keys| ==> Run(Keys(board, piece), start, keys[..n]) == Some(path[n])
    requires forall other :: Run(Keys(board, piece), start, other) == Some(path[|keys|]) ==> |keys| <= |other|
    ensures Taut(board, piece, path)
  {
    hide Keys, Run;
    forall i, j, detour | 0 <= i <= j <= |keys| && Joins(board, piece, path[i], detour, path[j])
      ensures j - i <= |detour|
    {
      Splice(board, piece, start, keys, i, j, detour);
      assert keys[..|keys|] == keys;
      assert |keys| <= |keys[..i] + detour + keys[j..]|;
    }
  }

  /** A taut path visits no state twice. */
  lemma NoRepeat(board: Board, piece: Piece, path: seq<State>, i: nat, j: nat)
    requires WellFormed(board) && Taut(board, piece, path) && i <= j < |path| && path[i] == path[j]
    ensures i == j
  {
    assert Joins(board, piece, path[i], [], path[j]);
  }

  /** States one key apart are next to each other on the path. */
  lemma Chord(board: Board, piece: Piece, path: seq<State>, i: nat, j: nat, key: Key)
    requires WellFormed(board) && Taut(board, piece, path) && i <= j < |path|
    requires Stands(board, piece, path[i]) && Stands(board, piece, path[j])
    requires path[j] == Move(path[i], key) && (Turn(key) ==> piece != O)
    ensures j <= i + 1
  {
    hide Fits, Tetromino, Cells;
    OneKey(board, piece, path[i], key);
    assert Joins(board, piece, path[i], [key], path[j]);
  }

  /** A key whose result stands is legal, except for a turn of O. */
  lemma Legal(board: Board, piece: Piece, s: State, key: Key)
    requires WellFormed(board) && Oriented(s) && Stands(board, piece, Move(s, key)) && (Turn(key) ==> piece != O)
    ensures Keys(board, piece).next(s, key) == Some(Move(s, key))
  {
    hide Stands, Tetromino, Cells;
    SameCells(piece, s, Move(s, key));
    assert KeyStep(board, piece, s, key) == Some(Move(s, key));
  }

  lemma OneKey(board: Board, piece: Piece, s: State, key: Key)
    requires WellFormed(board) && Oriented(s) && Stands(board, piece, Move(s, key)) && (Turn(key) ==> piece != O)
    ensures Run(Keys(board, piece), s, [key]) == Some(Move(s, key))
  {
    hide Stands, Keys, Move;
    Legal(board, piece, s, key);
    RunSnoc(Keys(board, piece), s, [], key);
    assert [] + [key] == [key];
  }

  /** Opposite orientations with one between them that stands are at most two keys apart. */
  lemma TwoTurns(board: Board, piece: Piece, path: seq<State>, i: nat, j: nat, key: Key)
    requires WellFormed(board) && Taut(board, piece, path) && i <= j < |path| && piece != O && Turn(key)
    requires Stands(board, piece, path[i]) && Stands(board, piece, path[j])
    requires Stands(board, piece, Move(path[i], key)) && path[j] == Move(Move(path[i], key), key)
    ensures j <= i + 2
  {
    hide Fits, Tetromino, Cells, Keys, Move, Turn;
    OneKey(board, piece, path[i], key);
    Legal(board, piece, Move(path[i], key), key);
    RunSnoc(Keys(board, piece), path[i], [key], key);
    assert [key] + [key] == [key, key];
    assert Joins(board, piece, path[i], [key, key], path[j]);
  }

  // ---------------------------------------------------------------- which states stand together

  function Opposite(o: int): int { (o + 2) % 4 }

  /** Standing means that four cells are free. */
  lemma StandsAt(board: Board, piece: Piece, x: int, y: int, o: nat)
    requires WellFormed(board) && o < 4
    ensures var shape := Shape(piece, o);
            |shape| == 4 &&
            (Stands(board, piece, State(x, y, o)) <==>
              && CellFits(board, x + shape[0].0, y + shape[0].1) && CellFits(board, x + shape[1].0, y + shape[1].1)
              && CellFits(board, x + shape[2].0, y + shape[2].1) && CellFits(board, x + shape[3].0, y + shape[3].1))
  {
    hide Shape, CellFits;
    assert |Cells(piece, State(x, y, o))| == 4;
  }

  /** The piece stepped sideways, turned twice by way of `via`, and stepped back. */
  predicate Square(board: Board, piece: Piece, x: int, y: int, o: nat, side: int, via: nat)
    requires WellFormed(board) && o < 4
  {
    && (side == 1 || side == -1) && (via == (o + 1) % 4 || via == (o + 3) % 4)
    && Stands(board, piece, State(x, y, o)) && Stands(board, piece, State(x, y, Opposite(o)))
    && Stands(board, piece, State(x + side, y, o)) && Stands(board, piece, State(x + side, y, Opposite(o)))
    && Stands(board, piece, State(x + side, y, via))
  }

  /** The piece can turn between opposite orientations without the step aside. */
  predicate Bridged(board: Board, piece: Piece, x: int, y: int, o: nat)
    requires WellFormed(board) && o < 4
  {
    Stands(board, piece, State(x, y, (o + 1) % 4)) || Stands(board, piece, State(x, y, (o + 3) % 4))
  }

  lemma SquareT(board: Board, x: int, y: int, o: nat, side: int, via: nat)
    requires WellFormed(board) && o < 4 && Square(board, T, x, y, o, side, via)
    ensures Bridged(board, T, x, y, o)
  {
    hide Stands, CellFits;
    StandsAt(board, T, x, y, o);
    StandsAt(board, T, x, y, Opposite(o));
    StandsAt(board, T, x, y, (o + 1) % 4);
  }

  lemma SquareZ(board: Board, x: int, y: int, o: nat, side: int, via: nat)
    requires WellFormed(board) && o < 4 && Square(board, Z, x, y, o, side, via)
    ensures Bridged(board, Z, x, y, o)
  {
    hide Stands, CellFits;
    StandsAt(board, Z, x, y, 0);
    StandsAt(board, Z, x, y, 1);
    StandsAt(board, Z, x, y, 2);
    StandsAt(board, Z, x, y, 3);
    StandsAt(board, Z, x + side, y, 0);
    StandsAt(board, Z, x + side, y, 1);
    StandsAt(board, Z, x + side, y, 2);
    StandsAt(board, Z, x + side, y, 3);
  }

  lemma SquareS(board: Board, x: int, y: int, o: nat, side: int, via: nat)
    requires WellFormed(board) && o < 4 && Square(board, S, x, y, o, side, via)
    ensures Bridged(board, S, x, y, o)
  {
    hide Stands, CellFits;
    StandsAt(board, S, x, y, 0);
    StandsAt(board, S, x, y, 1);
    StandsAt(board, S, x, y, 2);
    StandsAt(board, S, x, y, 3);
    StandsAt(board, S, x + side, y, 0);
    StandsAt(board, S, x + side, y, 1);
    StandsAt(board, S, x + side, y, 2);
    StandsAt(board, S, x + side, y, 3);
  }

  lemma LevelJ(board: Board, x: int, y: int, o: nat, side: int, via: nat)
    requires WellFormed(board) && o < 4 && o % 2 == 0 && Square(board, J, x, y, o, side, via)
    requires Stands(board, J, State(x - side, y, o)) && Stands(board, J, State(x - side, y, Opposite(o)))
    ensures Bridged(board, J, x, y, o)
  {
    hide Stands, CellFits;
    StandsAt(board, J, x, y, 1);
    StandsAt(board, J, x, y, 3);
    StandsAt(board, J, x + side, y, via);
    StandsAt(board, J, x - side, y, 0);
    StandsAt(board, J, x - side, y, 2);
    StandsAt(board, J, x + side, y, 0);
    StandsAt(board, J, x + side, y, 2);
  }

  lemma UprightJ(board: Board, x: int, y: int, o: nat, side: int, via: nat)
    requires WellFormed(board) && o < 4 && o % 2 == 1 && Square(board, J, x, y, o, side, via)
    requires Stands(board, J, State(x - side, y, o)) && Stands(board, J, State(x - side, y, Opposite(o)))
    ensures Bridged(board, J, x, y, o)
  {
    hide Stands, CellFits;
    StandsAt(board, J, x, y, 0);
    StandsAt(board, J, x, y, 2);
    StandsAt(board, J, x + side, y, via);
    StandsAt(board, J, x - side, y, 1);
    StandsAt(board, J, x - side, y, 3);
  }

  /** For J the square is bridged when the piece came from and goes on to the other side. */
  lemma SquareJ(board: Board, x: int, y: int, o: nat, side: int, via: nat)
    requires WellFormed(board) && o < 4 && Square(board, J, x, y, o, side, via)
    requires Stands(board, J, State(x - side, y, o)) && Stands(board, J, State(x - side, y, Opposite(o)))
    ensures Bridged(board, J, x, y, o)
  {
    hide Stands, Square, Bridged;
    if o % 2 == 0 {
      LevelJ(board, x, y, o, side, via);
    } else {
      UprightJ(board, x, y, o, side, via);
    }
  }

  lemma LevelL(board: Board, x: int, y: int, o: nat, side: int, via: nat)
    requires WellFormed(board) && o < 4 && o % 2 == 0 && Square(board, L, x, y, o, side, via)
    requires Stands(board, L, State(x - side, y, o)) && Stands(board, L, State(x - side, y, Opposite(o)))
    ensures Bridged(board, L, x, y, o)
  {
    hide Stands, CellFits;
    StandsAt(board, L, x, y, 1);
    StandsAt(board, L, x, y, 3);
    StandsAt(board, L, x + side, y, via);
    StandsAt(board, L, x - side, y, 0);
    StandsAt(board, L, x - side, y, 2);
    StandsAt(board, L, x + side, y, 0);
    StandsAt(board, L, x + side, y, 2);
  }

  lemma UprightL(board: Board, x: int, y: int, o: nat, side: int, via: nat)
    requires WellFormed(board) && o < 4 && o % 2 == 1 && Square(board, L, x, y, o, side, via)
    requires Stands(board, L, State(x - side, y, o)) && Stands(board, L, State(x - side, y, Opposite(o)))
    ensures Bridged(board, L, x, y, o)
  {
    hide Stands, CellFits;
    StandsAt(board, L, x, y, 0);
    StandsAt(board, L, x, y, 2);
    StandsAt(board, L, x + side, y, via);
    StandsAt(board, L, x - side, y, 1);
    StandsAt(board, L, x - side, y, 3);
  }

  /** L is the mirror image of J. */
  lemma SquareL(board: Board, x: int, y: int, o: nat, side: int, via: nat)
    requires WellFormed(board) && o < 4 && Square(board, L, x, y, o, side, via)
    requires Stands(board, L, State(x - side, y, o)) && Stands(board, L, State(x - side, y, Opposite(o)))
    ensures Bridged(board, L, x, y, o)
  {
    hide Stands, Square, Bridged;
    if o % 2 == 0 {
      LevelL(board, x, y, o, side, via);
    } else {
      UprightL(board, x, y, o, side, via);
    }
  }

  /** Every piece but I stays between columns -1 and 8, and upright in column 8. */
  lemma Edges(board: Board, piece: Piece, s: State)
    requires WellFormed(board) && piece != I && Stands(board, piece, s)
    ensures -1 <= s.x <= 8 && (s.x == 8 ==> s.o == 3)
  {
    hide Fits;
    StandsAt(board, piece, s.x, s.y, s.o);
  }

  // ---------------------------------------------------------------- what a taut path does not do

  function Inverse(key: Key): Key {
    match key case Left => Right case Right => Left case Space => Up case Up => Space
  }

  ghost predicate TautWalk(board: Board, piece: Piece, start: State, keys: seq<Key>, path: seq<State>)
    requires WellFormed(board)
  {
    Walk(board, piece, start, keys, path) && Taut(board, piece, path)
  }

  lemma Stepped(board: Board, piece: Piece, start: State, keys: seq<Key>, path: seq<State>, n: nat)
    requires WellFormed(board) && TautWalk(board, piece, start, keys, path) && n < |keys|
    ensures |path| == |keys| + 1 && Stands(board, piece, path[n]) && Stands(board, piece, path[n + 1])
    ensures Oriented(path[n]) && path[n + 1] == Move(path[n], keys[n]) && (Turn(keys[n]) ==> piece != O)
  {
    hide Tetromino, Fits, Taut, Cells;
    assert KeyStep(board, piece, path[n], keys[n]) == Some(path[n + 1]);
    SameCells(piece, path[n], Move(path[n], keys[n]));
  }

  /** No key is taken back at once. */
  lemma NoBack(board: Board, piece: Piece, start: State, keys: seq<Key>, path: seq<State>, i: nat)
    requires WellFormed(board) && TautWalk(board, piece, start, keys, path) && i + 1 < |keys|
    ensures keys[i + 1] != Inverse(keys[i])
  {
    hide TautWalk, Stands, Taut;
    Stepped(board, piece, start, keys, path, i);
    Stepped(board, piece, start, keys, path, i + 1);
    if keys[i + 1] == Inverse(keys[i]) {
      Tight(board, piece, start, keys, path);
      NoRepeat(board, piece, path, i, i + 2);
    }
  }

  lemma Tight(board: Board, piece: Piece, start: State, keys: seq<Key>, path: seq<State>)
    requires WellFormed(board) && TautWalk(board, piece, start, keys, path)
    ensures Taut(board, piece, path) && |path| == |keys| + 1
  {
    hide Taut, Stands, KeyStep;
  }

  lemma Undo(s: State, a: Key)
    requires Oriented(s)
    ensures Move(Move(s, a), Inverse(a)) == s
  {
    assert s.o == 0 || s.o == 1 || s.o == 2 || s.o == 3;
  }

  lemma Commute(s: State, a: Key, b: Key)
    requires Oriented(s)
    ensures Move(Move(s, a), b) == Move(Move(s, b), a)
  {
    assert s.o == 0 || s.o == 1 || s.o == 2 || s.o == 3;
    match a case Left => case Right => case Space => case Up =>
  }

  lemma FourTurns(s: State, a: Key)
    requires Oriented(s) && Turn(a)
    ensures Move(Move(Move(Move(s, a), a), a), a) == s
  {
    assert s.o == 0 || s.o == 1 || s.o == 2 || s.o == 3;
  }

  /** Keys commute, so a key taken back around another one leaves that one; three turns are one turn back. */
  lemma Moves(s: State, a: Key, b: Key)
    requires Oriented(s)
    ensures Move(Move(Move(s, a), b), Inverse(a)) == Move(s, b)
    ensures Turn(a) ==> Move(Move(Move(s, a), a), a) == Move(s, Inverse(a))
    ensures Turn(a) ==> Move(Move(Move(Move(Move(s, a), a), b), a), a) == Move(s, b)
  {
    hide Move, Inverse;
    Commute(s, a, b);
    Undo(Move(s, b), a);
    if Turn(a) {
      var t := Move(s, a);
      Undo(Move(Move(t, a), a), a);
      FourTurns(s, a);
      FourTurns(Move(s, b), a);
      Commute(Move(Move(t, a), a), a, b);
      Commute(t, a, b);
    }
  }

  /** Nor is it taken back after one other key. */
  lemma NoDetour(board: Board, piece: Piece, start: State, keys: seq<Key>, path: seq<State>, i: nat)
    requires WellFormed(board) && TautWalk(board, piece, start, keys, path) && i + 2 < |keys|
    ensures keys[i + 2] != Inverse(keys[i])
  {
    hide TautWalk, Stands, Taut, Move, Inverse;
    Stepped(board, piece, start, keys, path, i);
    Stepped(board, piece, start, keys, path, i + 1);
    Stepped(board, piece, start, keys, path, i + 2);
    if keys[i + 2] == Inverse(keys[i]) {
      Tight(board, piece, start, keys, path);
      Moves(path[i], keys[i], keys[i + 1]);
      Chord(board, piece, path, i, i + 3, keys[i + 1]);
    }
  }

  /** Three turns in a row are one turn the other way. */
  lemma NoThreeTurns(board: Board, piece: Piece, start: State, keys: seq<Key>, path: seq<State>, i: nat)
    requires WellFormed(board) && TautWalk(board, piece, start, keys, path) && i + 2 < |keys|
    ensures !(Turn(keys[i]) && Turn(keys[i + 1]) && Turn(keys[i + 2]))
  {
    hide TautWalk, Stands, Taut, Move;
    Stepped(board, piece, start, keys, path, i);
    Stepped(board, piece, start, keys, path, i + 1);
    Stepped(board, piece, start, keys, path, i + 2);
    if Turn(keys[i]) && Turn(keys[i + 1]) && Turn(keys[i + 2]) {
      NoBack(board, piece, start, keys, path, i);
      NoBack(board, piece, start, keys, path, i + 1);
      Tight(board, piece, start, keys, path);
      Moves(path[i], keys[i], keys[i]);
      Chord(board, piece, path, i, i + 3, Inverse(keys[i]));
    }
  }

  /** Two turns on both sides of one step are a full turn around it. */
  lemma NoFullTurn(board: Board, piece: Piece, start: State, keys: seq<Key>, path: seq<State>, i: nat)
    requires WellFormed(board) && TautWalk(board, piece, start, keys, path) && i + 4 < |keys|
    requires Turn(keys[i]) && Turn(keys[i + 1]) && !Turn(keys[i + 2])
    ensures !(Turn(keys[i + 3]) && Turn(keys[i + 4]))
  {
    hide TautWalk, Stands, Taut, Move;
    Stepped(board, piece, start, keys, path, i);
    Stepped(board, piece, start, keys, path, i + 1);
    Stepped(board, piece, start, keys, path, i + 2);
    Stepped(board, piece, start, keys, path, i + 3);
    Stepped(board, piece, start, keys, path, i + 4);
    if Turn(keys[i + 3]) && Turn(keys[i + 4]) {
      NoBack(board, piece, start, keys, path, i);
      NoDetour(board, piece, start, keys, path, i + 1);
      NoBack(board, piece, start, keys, path, i + 3);
      Tight(board, piece, start, keys, path);
      Moves(path[i], keys[i], keys[i + 2]);
      Chord(board, piece, path, i, i + 5, keys[i + 2]);
    }
  }

  /** The sideways effect of a key. */
  function Side(key: Key): int {
    match key case Left => -1 case Right => 1 case Space => 0 case Up => 0
  }

  /** A step aside, two turns and the step back are taut only at the ends of a path of J or L. */
  lemma StepBack(board: Board, piece: Piece, start: State, keys: seq<Key>, path: seq<State>, i: nat)
    requires WellFormed(board) && TautWalk(board, piece, start, keys, path) && i + 3 < |keys| && piece != I
    requires !Turn(keys[i]) && Turn(keys[i + 1]) && Turn(keys[i + 2]) && keys[i + 3] == Inverse(keys[i])
    ensures piece == J || piece == L
    ensures i == 0 || i + 4 == |keys|
  {
    hide TautWalk, Stands, Taut, Square, Bridged;
    SquareOf(board, piece, start, keys, path, i);
    NotBridged(board, piece, start, keys, path, i);
    var s := path[i];
    BridgedAlone(board, piece, s.x, s.y, s.o, Side(keys[i]), path[i + 2].o);
    if i > 0 && i + 4 < |keys| {
      Flanks(board, piece, start, keys, path, i);
      if piece == J {
        SquareJ(board, s.x, s.y, s.o, Side(keys[i]), path[i + 2].o);
      } else {
        SquareL(board, s.x, s.y, s.o, Side(keys[i]), path[i + 2].o);
      }
    }
  }

  /** Z, S and T never need the step aside. */
  lemma BridgedAlone(board: Board, piece: Piece, x: int, y: int, o: nat, side: int, via: nat)
    requires WellFormed(board) && o < 4 && Square(board, piece, x, y, o, side, via)
    ensures piece == Z || piece == S || piece == T ==> Bridged(board, piece, x, y, o)
  {
    hide Square, Bridged;
    match piece
    case Z => SquareZ(board, x, y, o, side, via);
    case S => SquareS(board, x, y, o, side, via);
    case T => SquareT(board, x, y, o, side, via);
    case O => case I => case J => case L =>
  }

  lemma SquareOf(board: Board, piece: Piece, start: State, keys: seq<Key>, path: seq<State>, i: nat)
    requires WellFormed(board) && TautWalk(board, piece, start, keys, path) && i + 3 < |keys|
    requires !Turn(keys[i]) && Turn(keys[i + 1]) && Turn(keys[i + 2]) && keys[i + 3] == Inverse(keys[i])
    ensures |path| == |keys| + 1 && piece != O
    ensures 0 <= path[i].o < 4 && 0 <= path[i + 2].o
    ensures path[i + 4] == path[i].(o := Opposite(path[i].o))
    ensures Square(board, piece, path[i].x, path[i].y, path[i].o, Side(keys[i]), path[i + 2].o)
  {
    hide TautWalk, Fits, Tetromino, Cells, Taut;
    Stepped(board, piece, start, keys, path, i);
    Stepped(board, piece, start, keys, path, i + 1);
    Stepped(board, piece, start, keys, path, i + 2);
    Stepped(board, piece, start, keys, path, i + 3);
    NoBack(board, piece, start, keys, path, i + 1);
  }

  lemma NotBridged(board: Board, piece: Piece, start: State, keys: seq<Key>, path: seq<State>, i: nat)
    requires WellFormed(board) && TautWalk(board, piece, start, keys, path) && i + 3 < |keys|
    requires !Turn(keys[i]) && Turn(keys[i + 1]) && Turn(keys[i + 2]) && keys[i + 3] == Inverse(keys[i])
    ensures |path| == |keys| + 1 && 0 <= path[i].o < 4
    ensures !Bridged(board, piece, path[i].x, path[i].y, path[i].o)
  {
    hide TautWalk, Stands, Taut, Square;
    SquareOf(board, piece, start, keys, path, i);
    Stepped(board, piece, start, keys, path, i);
    Stepped(board, piece, start, keys, path, i + 3);
    Tight(board, piece, start, keys, path);
    var s := path[i];
    if Stands(board, piece, Move(s, Space)) {
      TwoTurns(board, piece, path, i, i + 4, Space);
    }
    if Stands(board, piece, Move(s, Up)) {
      TwoTurns(board, piece, path, i, i + 4, Up);
    }
  }

  /** The keys before and after such a square go straight on. */
  lemma Flanks(board: Board, piece: Piece, start: State, keys: seq<Key>, path: seq<State>, i: nat)
    requires WellFormed(board) && TautWalk(board, piece, start, keys, path) && 0 < i && i + 4 < |keys|
    requires !Turn(keys[i]) && Turn(keys[i + 1]) && Turn(keys[i + 2]) && keys[i + 3] == Inverse(keys[i])
    ensures |path| == |keys| + 1 && 0 <= path[i].o < 4
    ensures var s := path[i];
      && Stands(board, piece, State(s.x - Side(keys[i]), s.y, s.o))
      && Stands(board, piece, State(s.x - Side(keys[i]), s.y, Opposite(s.o)))
  {
    hide TautWalk, Stands, Taut, Square;
    SquareOf(board, piece, start, keys, path, i);
    GoesOn(board, piece, start, keys, path, i);
    Stepped(board, piece, start, keys, path, i + 4);
    Stepped(board, piece, start, keys, path, i - 1);
    Stepped(board, piece, start, keys, path, i);
    CameStraight(board, piece, start, keys, path, i);
  }

  lemma GoesOn(board: Board, piece: Piece, start: State, keys: seq<Key>, path: seq<State>, i: nat)
    requires WellFormed(board) && TautWalk(board, piece, start, keys, path) && i + 4 < |keys|
    requires !Turn(keys[i]) && Turn(keys[i + 1]) && Turn(keys[i + 2]) && keys[i + 3] == Inverse(keys[i])
    ensures keys[i + 4] == keys[i + 3]
  {
    hide TautWalk, Stands, Taut, Square;
    SquareOf(board, piece, start, keys, path, i);
    Stepped(board, piece, start, keys, path, i);
    Stepped(board, piece, start, keys, path, i + 4);
    NoBack(board, piece, start, keys, path, i + 3);
    if Turn(keys[i + 4]) {
      Tight(board, piece, start, keys, path);
      Chord(board, piece, path, i, i + 5, Inverse(keys[i + 4]));
    }
  }

  lemma CameStraight(board: Board, piece: Piece, start: State, keys: seq<Key>, path: seq<State>, i: nat)
    requires WellFormed(board) && TautWalk(board, piece, start, keys, path) && 0 < i && i + 3 < |keys|
    requires !Turn(keys[i]) && Turn(keys[i + 1]) && Turn(keys[i + 2]) && keys[i + 3] == Inverse(keys[i])
    ensures keys[i - 1] == keys[i]
  {
    hide TautWalk, Stands, Taut, Square;
    SquareOf(board, piece, start, keys, path, i);
    Stepped(board, piece, start, keys, path, i - 1);
    Stepped(board, piece, start, keys, path, i + 3);
    NoBack(board, piece, start, keys, path, i - 1);
    if Turn(keys[i - 1]) {
      Tight(board, piece, start, keys, path);
      Chord(board, piece, path, i - 1, i + 4, Inverse(keys[i - 1]));
    }
  }

  // ---------------------------------------------------------------- the course of a path

  /**
    What the first n keys did.  Under way in one direction: `m` columns, `p` turns in
    the column before and `c` in this one, after `base` keys spent on a step back at
    the start.  Or just back from that step, or finished by such a step.
  */
  datatype Course = Going(right: bool, base: nat, m: nat, p: nat, c: nat) | Returned | Finished

  function Ahead(right: bool): Key { if right then Right else Left }

  predicate Turning(keys: seq<Key>, from: nat, to: nat)
    requires to <= |keys|
  {
    forall k :: from <= k < to ==> Turn(keys[k])
  }

  ghost predicate Described(keys: seq<Key>, path: seq<State>, n: nat, t: Course)
    requires n <= |keys| && |path| == |keys| + 1
  {
    match t
    case Going(right, base, m, p, c) =>
      && (base == 0 || base == 5) && c <= 2 && p + c <= 3 && p <= 2 && c <= n && Turning(keys, n - c, n)
      && (base == 0 && m == 0 ==> n == c && p == 0)
      && (base > 0 || m > 0 ==>
            p + 1 <= n - c && Turning(keys, n - c - 1 - p, n - c - 1) && keys[n - c - 1] == Ahead(right))
      && 2 * (n - c) - p <= 2 * base + 5 * m
      && var steps := if base == 0 then m else m + 1;
         path[n].x == if right then path[0].x + steps else path[0].x - steps
    case Returned => n == 4 && !Turn(keys[3]) && Turn(keys[1]) && Turn(keys[2]) && keys[3] == Inverse(keys[0])
    case Finished => n == |keys| <= 16
  }

  /** The limits of the well leave room for at most 16 keys. */
  lemma Limit(board: Board, piece: Piece, start: State, keys: seq<Key>, path: seq<State>, n: nat, t: Course)
    requires WellFormed(board) && TautWalk(board, piece, start, keys, path) && piece != I && start.x == 3
    requires n <= |keys| && |path| == |keys| + 1 && t.Going? && Described(keys, path, n, t)
    ensures n <= 16 && (t.c == 2 ==> n <= 15)
  {
    hide TautWalk, Stands, Taut;
    Placed(board, piece, start, keys, path, n);
    Edges(board, piece, path[n]);
    if t.c > 0 {
      Stepped(board, piece, start, keys, path, n - 1);
      Edges(board, piece, path[n - 1]);
      assert Turn(keys[n - 1]);
    }
  }

  lemma Placed(board: Board, piece: Piece, start: State, keys: seq<Key>, path: seq<State>, n: nat)
    requires WellFormed(board) && TautWalk(board, piece, start, keys, path) && n <= |keys|
    ensures |path| == |keys| + 1 && path[0] == start && Stands(board, piece, path[n]) && Oriented(path[n])
  {
    hide KeyStep, Fits, Tetromino, Cells, Taut;
  }

  lemma NextTurn(board: Board, piece: Piece, start: State, keys: seq<Key>, path: seq<State>, n: nat, t: Course)
    returns (u: Course)
    requires WellFormed(board) && TautWalk(board, piece, start, keys, path) && piece != I && start.x == 3
    requires n < |keys| && |path| == |keys| + 1 && t.Going? && Described(keys, path, n, t) && Turn(keys[n])
    ensures Described(keys, path, n + 1, u)
  {
    hide TautWalk, Stands, Taut;
    Stepped(board, piece, start, keys, path, n);
    if t.c == 2 {
      NoThreeTurns(board, piece, start, keys, path, n - 2);
    }
    if t.c == 1 && t.p == 2 {
      NoFullTurn(board, piece, start, keys, path, n - 4);
    }
    u := t.(c := t.c + 1);
  }

  lemma NextStep(board: Board, piece: Piece, start: State, keys: seq<Key>, path: seq<State>, n: nat, t: Course)
    returns (u: Course)
    requires WellFormed(board) && TautWalk(board, piece, start, keys, path) && piece != I && start.x == 3
    requires n < |keys| && |path| == |keys| + 1 && t.Going? && Described(keys, path, n, t) && !Turn(keys[n])
    ensures Described(keys, path, n + 1, u)
  {
    hide TautWalk, Stands, Taut;
    Stepped(board, piece, start, keys, path, n);
    var first := t.base == 0 && t.m == 0;
    if first || keys[n] == Ahead(t.right) {
      return Going(keys[n] == Right, t.base, t.m + 1, t.c, 0);
    }
    var i := n - t.c - 1;
    Limit(board, piece, start, keys, path, n, t);
    assert keys[n] == Inverse(keys[i]);
    if t.c == 0 {
      NoBack(board, piece, start, keys, path, i);
    } else if t.c == 1 {
      NoDetour(board, piece, start, keys, path, i);
    } else {
      StepBack(board, piece, start, keys, path, i);
      u := if i == 0 then Returned else Finished;
    }
  }

  lemma NextAfterReturn(board: Board, piece: Piece, start: State, keys: seq<Key>, path: seq<State>)
    returns (u: Course)
    requires WellFormed(board) && TautWalk(board, piece, start, keys, path) && piece != I && start.x == 3
    requires 4 < |keys| && |path| == |keys| + 1 && Described(keys, path, 4, Returned)
    ensures Described(keys, path, 5, u)
  {
    hide TautWalk, Stands, Taut;
    GoesOn(board, piece, start, keys, path, 0);
    Stepped(board, piece, start, keys, path, 0);
    Stepped(board, piece, start, keys, path, 1);
    Stepped(board, piece, start, keys, path, 2);
    Stepped(board, piece, start, keys, path, 3);
    Stepped(board, piece, start, keys, path, 4);
    u := Going(keys[4] == Right, 5, 0, 0, 0);
  }

  lemma {:induction false} CourseOf(board: Board, piece: Piece, start: State, keys: seq<Key>, path: seq<State>, n: nat)
    returns (t: Course)
    requires WellFormed(board) && TautWalk(board, piece, start, keys, path) && piece != I && start.x == 3
    requires n <= |keys| && |path| == |keys| + 1
    ensures Described(keys, path, n, t)
  {
    hide TautWalk, Stands, Taut, Described;
    if n == 0 {
      Fresh(keys, path);
      return Going(true, 0, 0, 0, 0);
    }
    var u := CourseOf(board, piece, start, keys, path, n - 1);
    Unfinished(keys, path, n - 1, u);
    if u.Returned? {
      t := NextAfterReturn(board, piece, start, keys, path);
    } else if Turn(keys[n - 1]) {
      t := NextTurn(board, piece, start, keys, path, n - 1, u);
    } else {
      t := NextStep(board, piece, start, keys, path, n - 1, u);
    }
  }

  lemma Fresh(keys: seq<Key>, path: seq<State>)
    requires |path| == |keys| + 1
    ensures Described(keys, path, 0, Going(true, 0, 0, 0, 0))
  {
  }

  lemma Unfinished(keys: seq<Key>, path: seq<State>, n: nat, t: Course)
    requires n < |keys| && |path| == |keys| + 1 && Described(keys, path, n, t)
    ensures !t.Finished? && (t.Returned? ==> n == 4)
  {
  }

  lemma WithinBudget(board: Board, piece: Piece, start: State, keys: seq<Key>, path: seq<State>)
    requires WellFormed(board) && TautWalk(board, piece, start, keys, path) && piece != I && start.x == 3
    ensures |keys| <= 16
  {
    hide TautWalk, Stands, Taut;
    Placed(board, piece, start, keys, path, |keys|);
    var t := CourseOf(board, piece, start, keys, path, |keys|);
    if t.Going? {
      Limit(board, piece, start, keys, path, |keys|, t);
    }
  }

  // ---------------------------------------------------------------- the I piece

  function Dist(a: int, b: int): nat { if a <= b then b - a else a - b }

  function Toward(a: int, b: int): Key { if a < b then Right else Left }

  predicate Between(a: int, z: int, b: int) { a <= z <= b || b <= z <= a }

  /** Going from a to b and on to c does not turn round. */
  predicate Onward(a: int, b: int, c: int) { a == b || b == c || (a < b <==> b < c) }

  /** The piece stands in orientation o at every column from a to b. */
  ghost predicate ClearRow(board: Board, piece: Piece, y: int, o: int, a: int, b: int)
    requires WellFormed(board)
  {
    forall w :: Between(a, w, b) ==> Stands(board, piece, State(w, y, o))
  }

  /** A clear row is crossed with one key per column. */
  lemma {:induction false} Glide(board: Board, piece: Piece, s: State, x: int) returns (keys: seq<Key>)
    requires WellFormed(board) && Oriented(s)
    requires ClearRow(board, piece, s.y, s.o, s.x, x)
    ensures |keys| == Dist(s.x, x) && Run(Keys(board, piece), s, keys) == Some(s.(x := x))
    decreases Dist(s.x, x)
  {
    hide Stands, KeyStep, Keys;
    if s.x == x {
      return [];
    }
    var key := Toward(s.x, x);
    var w := if s.x < x then x - 1 else x + 1;
    keys := Glide(board, piece, s, w);
    Legal(board, piece, s.(x := w), key);
    RunSnoc(Keys(board, piece), s, keys, key);
    keys := keys + [key];
  }

  /** So two states of a clear row are that many keys apart on a taut path. */
  lemma RowApart(board: Board, piece: Piece, path: seq<State>, i: nat, j: nat)
    requires WellFormed(board) && Taut(board, piece, path) && i <= j < |path| && Oriented(path[i])
    requires path[j] == path[i].(x := path[j].x)
    requires ClearRow(board, piece, path[i].y, path[i].o, path[i].x, path[j].x)
    ensures j - i <= Dist(path[i].x, path[j].x)
  {
    hide Stands, Keys;
    var keys := Glide(board, piece, path[i], path[j].x);
    assert Joins(board, piece, path[i], keys, path[j]);
  }

  lemma EdgesI(board: Board, s: State)
    requires WellFormed(board) && Stands(board, I, s)
    ensures -2 <= s.x <= 8 && (s.o % 2 == 0 ==> 0 <= s.x <= 6)
  {
    hide Fits;
    StandsAt(board, I, s.x, s.y, s.o);
  }

  /** A lying I is four wide: two of them at most four apart leave no gap. */
  lemma NoGap(board: Board, y: int, o: nat, a: int, b: int, z: int)
    requires WellFormed(board) && (o == 0 || o == 2) && Dist(a, b) <= 4 && Between(a, z, b)
    requires Stands(board, I, State(a, y, o)) && Stands(board, I, State(b, y, o))
    ensures Stands(board, I, State(z, y, o))
  {
    hide Stands, CellFits;
    StandsAt(board, I, a, y, o);
    StandsAt(board, I, b, y, o);
    StandsAt(board, I, z, y, o);
  }

  /** A standing I that moves from one lying I to another clears the row between them. */
  lemma Swept(board: Board, y: int, q: nat, a: int, b: int, z: int)
    requires WellFormed(board) && (q == 1 || q == 3) && Between(a, z, b)
    requires Stands(board, I, State(a, y, 2)) && Stands(board, I, State(b, y, 2))
    requires ClearRow(board, I, y, q, a, b)
    ensures Stands(board, I, State(z, y, 2))
  {
    hide Stands, CellFits;
    StandsAt(board, I, a, y, 2);
    StandsAt(board, I, b, y, 2);
    StandsAt(board, I, z, y, 2);
    ColumnFree(board, y, q, a, b, z);
    ColumnFree(board, y, q, a, b, z + 1);
    ColumnFree(board, y, q, a, b, z + 2);
    ColumnFree(board, y, q, a, b, z + 3);
  }

  lemma ColumnFree(board: Board, y: int, q: nat, a: int, b: int, col: int)
    requires WellFormed(board) && (q == 1 || q == 3)
    requires ClearRow(board, I, y, q, a, b)
    ensures Between(a, if q == 1 then col - 2 else col - 1, b) ==> CellFits(board, col, y + 2)
  {
    hide Stands, CellFits;
    var w := if q == 1 then col - 2 else col - 1;
    if Between(a, w, b) {
      StandsAt(board, I, w, y, q);
    }
  }

  /** Orientation 0 occurs only in the first steps sideways. */
  lemma TopFirst(board: Board, start: State, keys: seq<Key>, path: seq<State>, n: nat)
    requires WellFormed(board) && TautWalk(board, I, start, keys, path) && start == State(3, start.y, 0)
    requires n <= |keys| && |path| == |keys| + 1 && path[n].o == 0 && path[n].y == start.y
    ensures n <= Dist(3, path[n].x) <= 3
  {
    hide TautWalk, Stands, Taut;
    Placed(board, I, start, keys, path, 0);
    Placed(board, I, start, keys, path, n);
    EdgesI(board, path[n]);
    forall z | Between(3, z, path[n].x) ensures Stands(board, I, State(z, start.y, 0)) {
      NoGap(board, start.y, 0, 3, path[n].x, z);
    }
    Tight(board, I, start, keys, path);
    RowApart(board, I, path, 0, n);
  }

  /** Which run of the I piece a state belongs to, and the columns where the earlier runs ended. */
  datatype Leg = Top | Down(p: int) | Bottom(p: int, q: int) | Climb(p: int, q: int, r: int)

  /** The last keys: the current run from a to x, or the turn that began it after the run from z to a. */
  predicate Heading(keys: seq<Key>, n: nat, z: int, a: int, x: int)
    requires n <= |keys|
  {
    && n >= 1
    && (x != a ==> keys[n - 1] == Toward(a, x))
    && (x == a ==> Turn(keys[n - 1]))
    && (x == a && z != a ==> n >= 2 && keys[n - 2] == Toward(z, a))
  }

  ghost predicate OnLeg(board: Board, keys: seq<Key>, path: seq<State>, n: nat, leg: Leg)
    requires WellFormed(board) && n <= |keys| && |path| == |keys| + 1
  {
    && path[n].y == path[0].y
    && match leg
       case Top => path[n].o == 0 && n == Dist(3, path[n].x) && (n > 0 ==> keys[n - 1] == Toward(3, path[n].x))
       case Down(p) =>
         && (path[n].o == 1 || path[n].o == 3) && Dist(3, p) <= 3 && n == Dist(3, p) + 1 + Dist(p, path[n].x)
         && path[Dist(3, p)] == State(p, path[0].y, 0)
         && Onward(3, p, path[n].x) && Heading(keys, n, 3, p, path[n].x)
       case Bottom(p, q) =>
         && path[n].o == 2 && Dist(3, p) <= 3 && 0 <= q <= 6
         && n == Dist(3, p) + 1 + Dist(p, q) + 1 + Dist(q, path[n].x)
         && path[Dist(3, p)] == State(p, path[0].y, 0)
         && Onward(3, p, q) && Onward(p, q, path[n].x) && Heading(keys, n, p, q, path[n].x)
       case Climb(p, q, r) =>
         && (path[n].o == 1 || path[n].o == 3) && Dist(3, p) <= 3 && 0 <= q <= 6 && 0 <= r <= 6
         && n == Dist(3, p) + 1 + Dist(p, q) + 1 + Dist(q, r) + 1 + Dist(r, path[n].x)
         && path[Dist(3, p)] == State(p, path[0].y, 0)
         && path[Dist(3, p) + Dist(p, q) + 2 + Dist(q, r)] == State(r, path[0].y, 2)
         && Onward(3, p, q) && Onward(p, q, r) && Onward(q, r, path[n].x) && Heading(keys, n, q, r, path[n].x)
         && !(p == q && q == r)
         && (q == r && !Onward(p, q, path[n].x) ==> Dist(r, path[n].x) < Dist(p, q))
         && ClearRow(board, I, path[0].y, path[n].o, r, path[n].x)
  }

  /** A step sideways goes on with the current run, or does not turn round when it begins one. */
  lemma HeadOn(board: Board, start: State, keys: seq<Key>, path: seq<State>, n: nat, z: int, a: int)
    requires WellFormed(board) && TautWalk(board, I, start, keys, path) && n < |keys| && |path| == |keys| + 1
    requires !Turn(keys[n]) && Onward(z, a, path[n].x) && Heading(keys, n, z, a, path[n].x)
    ensures Dist(a, path[n + 1].x) == Dist(a, path[n].x) + 1
    ensures Onward(z, a, path[n + 1].x) && Heading(keys, n + 1, z, a, path[n + 1].x)
  {
    hide TautWalk, Stands, Taut;
    Stepped(board, I, start, keys, path, n);
    NoBack(board, I, start, keys, path, n - 1);
    if path[n].x == a && z != a {
      NoDetour(board, I, start, keys, path, n - 2);
    }
  }

  lemma LegStep(board: Board, start: State, keys: seq<Key>, path: seq<State>, n: nat, leg: Leg)
    requires WellFormed(board) && TautWalk(board, I, start, keys, path) && start == State(3, start.y, 0)
    requires n < |keys| && |path| == |keys| + 1 && OnLeg(board, keys, path, n, leg) && !Turn(keys[n])
    ensures OnLeg(board, keys, path, n + 1, leg)
  {
    hide TautWalk, Stands, Taut, Heading, Onward, ClearRow;
    Stepped(board, I, start, keys, path, n);
    Placed(board, I, start, keys, path, n);
    match leg
    case Top =>
      TopFirst(board, start, keys, path, n + 1);
    case Down(p) =>
      HeadOn(board, start, keys, path, n, 3, p);
    case Bottom(p, q) =>
      HeadOn(board, start, keys, path, n, p, q);
    case Climb(p, q, r) =>
      HeadOn(board, start, keys, path, n, q, r);
      ClimbShort(board, start, keys, path, n, p, q, r);
      ClimbClear(board, path, n, r);
  }

  lemma ClimbClear(board: Board, path: seq<State>, n: nat, r: int)
    requires WellFormed(board) && n + 1 < |path| && path[n + 1].o == path[n].o
    requires path[n + 1].y == path[0].y && Stands(board, I, path[n + 1])
    requires Dist(r, path[n + 1].x) == Dist(r, path[n].x) + 1 && Dist(path[n].x, path[n + 1].x) == 1
    requires ClearRow(board, I, path[0].y, path[n].o, r, path[n].x)
    ensures ClearRow(board, I, path[0].y, path[n + 1].o, r, path[n + 1].x)
  {
    hide Stands;
    assert State(path[n + 1].x, path[0].y, path[n + 1].o) == path[n + 1];
  }

  /** A run back over the columns of the first one ends before the column where that began. */
  lemma ClimbShort(board: Board, start: State, keys: seq<Key>, path: seq<State>, n: nat, p: int, q: int, r: int)
    requires WellFormed(board) && TautWalk(board, I, start, keys, path) && start == State(3, start.y, 0)
    requires n < |keys| && |path| == |keys| + 1 && OnLeg(board, keys, path, n, Climb(p, q, r)) && !Turn(keys[n])
    requires Dist(r, path[n + 1].x) == Dist(r, path[n].x) + 1
    ensures q == r && !Onward(p, q, path[n + 1].x) ==> Dist(r, path[n + 1].x) < Dist(p, q)
  {
    hide TautWalk, Stands, Taut, Heading;
    Stepped(board, I, start, keys, path, n);
    if q == r && p != q && path[n + 1].x == p {
      Placed(board, I, start, keys, path, Dist(3, p));
      Tight(board, I, start, keys, path);
      Chord(board, I, path, Dist(3, p), n + 1, if path[n + 1].o == 1 then Space else Up);
    }
  }

  /** A turn ends a run. */
  lemma HeadTurn(keys: seq<Key>, n: nat, z: int, a: int, x: int)
    requires n < |keys| && Turn(keys[n])
    requires Heading(keys, n, z, a, x) || (a != x ==> n > 0 && keys[n - 1] == Toward(a, x))
    ensures Heading(keys, n + 1, a, x, x)
  {
  }

  lemma LegTurn(board: Board, start: State, keys: seq<Key>, path: seq<State>, n: nat, leg: Leg) returns (next: Leg)
    requires WellFormed(board) && TautWalk(board, I, start, keys, path) && start == State(3, start.y, 0)
    requires n < |keys| && |path| == |keys| + 1 && OnLeg(board, keys, path, n, leg) && Turn(keys[n])
    ensures OnLeg(board, keys, path, n + 1, next)
  {
    hide TautWalk, Stands, Taut, Heading, ClearRow;
    Stepped(board, I, start, keys, path, n);
    Placed(board, I, start, keys, path, n);
    if path[n + 1].o == 0 {
      TopFirst(board, start, keys, path, n + 1);
    }
    match leg
    case Top =>
      TopFirst(board, start, keys, path, n);
      HeadTurn(keys, n, 3, 3, path[n].x);
      next := Down(path[n].x);
    case Down(p) =>
      EdgesI(board, path[n + 1]);
      HeadTurn(keys, n, 3, p, path[n].x);
      next := Bottom(p, path[n].x);
    case Bottom(p, q) =>
      EdgesI(board, path[n]);
      NotBoth(board, start, keys, path, n, p, q);
      HeadTurn(keys, n, p, q, path[n].x);
      NewClimb(board, path[n + 1]);
      next := Climb(p, q, path[n].x);
    case Climb(p, q, r) =>
      NoSecondBottom(board, start, keys, path, n, p, q, r);
      next := Top;
  }

  lemma NewClimb(board: Board, s: State)
    requires WellFormed(board) && Stands(board, I, s)
    ensures ClearRow(board, I, s.y, s.o, s.x, s.x)
  {
    hide Stands;
    assert State(s.x, s.y, s.o) == s;
  }

  lemma NotBoth(board: Board, start: State, keys: seq<Key>, path: seq<State>, n: nat, p: int, q: int)
    requires WellFormed(board) && TautWalk(board, I, start, keys, path) && start == State(3, start.y, 0)
    requires n < |keys| && |path| == |keys| + 1 && OnLeg(board, keys, path, n, Bottom(p, q)) && Turn(keys[n])
    ensures !(p == q && q == path[n].x)
  {
    hide TautWalk, Stands, Taut, Heading;
    Stepped(board, I, start, keys, path, n);
    if p == q && q == path[n].x {
      Placed(board, I, start, keys, path, Dist(3, p));
      Tight(board, I, start, keys, path);
      Chord(board, I, path, Dist(3, p), n + 1, if path[n + 1].o == 1 then Space else Up);
    }
  }

  lemma NoSecondBottom(board: Board, start: State, keys: seq<Key>, path: seq<State>, n: nat, p: int, q: int, r: int)
    requires WellFormed(board) && TautWalk(board, I, start, keys, path) && start == State(3, start.y, 0)
    requires n < |keys| && |path| == |keys| + 1 && OnLeg(board, keys, path, n, Climb(p, q, r)) && Turn(keys[n])
    ensures path[n + 1].o != 2
  {
    hide TautWalk, Stands, Taut, Heading, Onward;
    Stepped(board, I, start, keys, path, n);
    var i := Dist(3, p) + Dist(p, q) + 2 + Dist(q, r);
    if path[n + 1].o == 2 {
      Placed(board, I, start, keys, path, i);
      forall z | Between(r, z, path[n].x) ensures Stands(board, I, State(z, path[0].y, 2)) {
        Swept(board, path[0].y, path[n].o, r, path[n].x, z);
      }
      Tight(board, I, start, keys, path);
      RowApart(board, I, path, i, n + 1);
    }
  }

  lemma {:induction false} LegOf(board: Board, start: State, keys: seq<Key>, path: seq<State>, n: nat)
    returns (leg: Leg)
    requires WellFormed(board) && TautWalk(board, I, start, keys, path) && start == State(3, start.y, 0)
    requires n <= |keys| && |path| == |keys| + 1
    ensures OnLeg(board, keys, path, n, leg)
  {
    hide TautWalk, Stands, Taut, Heading, Onward;
    Placed(board, I, start, keys, path, n);
    if n == 0 {
      return Top;
    }
    leg := LegOf(board, start, keys, path, n - 1);
    if Turn(keys[n - 1]) {
      leg := LegTurn(board, start, keys, path, n - 1, leg);
    } else {
      LegStep(board, start, keys, path, n - 1, leg);
    }
  }

  lemma WithinBudgetI(board: Board, start: State, keys: seq<Key>, path: seq<State>)
    requires WellFormed(board) && TautWalk(board, I, start, keys, path) && start == State(3, start.y, 0)
    ensures |keys| <= 14
  {
    hide TautWalk, Stands, Taut, Heading;
    Placed(board, I, start, keys, path, |keys|);
    EdgesI(board, path[|keys|]);
    var leg := LegOf(board, start, keys, path, |keys|);
  }

  /** The budget never binds: a shortest key path from the spawn state has at most 16 keys, on every board. */
  lemma ShortestFitsBudget(board: Board, piece: Piece, y: int, keys: seq<Key>)
    requires WellFormed(board) && Stands(board, piece, State(3, y, 0))
    requires Run(Keys(board, piece), State(3, y, 0), keys).Some?
    requires forall other :: |other| < |keys| ==>
      Run(Keys(board, piece), State(3, y, 0), other) != Run(Keys(board, piece), State(3, y, 0), keys)
    ensures |keys| <= 16
  {
    hide Stands, Keys, Taut, Walk;
    var start := State(3, y, 0);
    var path := WalkOf(board, piece, start, keys);
    Arrives(board, piece, start, keys, path);
    TautOf(board, piece, start, keys, path);
    if piece == I {
      WithinBudgetI(board, start, keys, path);
    } else {
      WithinBudget(board, piece, start, keys, path);
    }
  }

  lemma Arrives(board: Board, piece: Piece, start: State, keys: seq<Key>, path: seq<State>)
    requires WellFormed(board) && Walk(board, piece, start, keys, path)
    requires forall n :: 0 <= n <= |keys| ==> Run(Keys(board, piece), start, keys[..n]) == Some(path[n])
    ensures |path| == |keys| + 1 && Run(Keys(board, piece), start, keys) == Some(path[|keys|])
  {
    hide Stands, KeyStep, Keys;
    assert keys[..|keys|] == keys;
  }

  // ---------------------------------------------------------------- a plan of 13 keys

  /** Rows 0 to 3 leave one way round for the I piece: row 1 but for column 2, row 2, and columns 0, 1 and 8. */
  predicate Open(col: int, row: int) {
    row == 2 || (row == 1 && col != 2) || (0 <= row <= 3 && (col == 0 || col == 1 || col == 8)) || (row > 3 && col == 9)
  }

  function Maze(): (board: Board)
    ensures WellFormed(board)
    ensures forall row, col :: 0 <= row < HEIGHT && 0 <= col < WIDTH ==> (board[row][col].None? <==> Open(col, row))
  {
    seq(HEIGHT, row => seq(WIDTH, col => if Open(col, row) then None else Some(O)))
  }

  /** How many keys a state of the way round is from the spawn state. */
  function Rank(s: State): Option<nat> {
    if s.o == 0 && 3 <= s.x <= 6 then Some(s.x - 3)
    else if s.o == 1 && s.x == 6 then Some(4)
    else if s.o == 2 && 0 <= s.x <= 6 then Some(11 - s.x)
    else if s.o == 3 && s.x == 0 then Some(12)
    else if s.o == 3 && s.x == -1 then Some(13)
    else None
  }

  lemma RankStep(s: State, key: Key)
    requires s.y == 0 && Rank(s).Some? && KeyStep(Maze(), I, s, key).Some?
    ensures var t := KeyStep(Maze(), I, s, key).value;
            t.y == 0 && Rank(t).Some? && Rank(t).value <= Rank(s).value + 1
  {
    hide Stands;
    var t := Move(s, key);
    assert t.y == 0 && Stands(Maze(), I, t);
    MazeStands(t.x, t.o);
  }

  lemma MazeStands(x: int, o: nat)
    requires o < 4
    ensures Stands(Maze(), I, State(x, 0, o)) <==>
      if o == 0 then 3 <= x <= 6 else if o == 1 then x == -2 || x == -1 || x == 6
      else if o == 2 then 0 <= x <= 6 else x == -1 || x == 0 || x == 7
  {
    hide Stands;
    StandsAt(Maze(), I, x, 0, o);
  }

  lemma {:induction false} RankBound(keys: seq<Key>)
    requires Run(Keys(Maze(), I), State(3, 0, 0), keys).Some?
    ensures var s := Run(Keys(Maze(), I), State(3, 0, 0), keys).value;
            s.y == 0 && Rank(s).Some? && Rank(s).value <= |keys|
    decreases |keys|
  {
    hide KeyStep, Maze;
    if keys != [] {
      var last := |keys| - 1;
      RankBound(keys[..last]);
      RankStep(Run(Keys(Maze(), I), State(3, 0, 0), keys[..last]).value, keys[last]);
    }
  }

  const TOUR: seq<Key> := [Right, Right, Right, Space, Space, Left, Left, Left, Left, Left, Left, Space, Left]

  function Stop(n: nat): State {
    if n <= 3 then State(3 + n, 0, 0) else if n == 4 then State(6, 0, 1)
    else if n <= 11 then State(11 - n, 0, 2) else if n == 12 then State(0, 0, 3) else State(-1, 0, 3)
  }

  lemma {:induction false} TourRuns(n: nat)
    requires n <= 13
    ensures Run(Keys(Maze(), I), State(3, 0, 0), TOUR[..n]) == Some(Stop(n))
  {
    hide Stands, Keys, Maze;
    if n > 0 {
      TourRuns(n - 1);
      assert TOUR[..n] == TOUR[..n - 1] + [TOUR[n - 1]];
      assert Move(Stop(n - 1), TOUR[n - 1]) == Stop(n);
      MazeStands(Stop(n).x, Stop(n).o);
      Legal(Maze(), I, Stop(n - 1), TOUR[n - 1]);
      RunSnoc(Keys(Maze(), I), State(3, 0, 0), TOUR[..n - 1], TOUR[n - 1]);
    }
  }

  lemma TourLands()
    ensures Lands(Maze(), I, State(3, 0, 0), TOUR, State(-1, 0, 3))
  {
    hide Keys;
    TourRuns(13);
    assert TOUR[..13] == TOUR;
    var s := State(-1, 0, 3);
    assert InWell(Cells(I, s), 0);
    assert !Fits(Maze(), Cells(I, s), -1, 1) by {
      assert !CellFits(Maze(), -1 + Cells(I, s)[0].0, 1 + Cells(I, s)[0].1);
    }
  }
}
