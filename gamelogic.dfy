/** Win detection on a sub-board and on the meta-board
    (src/helpers/gameLogic.ts). */
module GameLogic {
  import opened Types

  /** A fresh sub-board: nine empty cells. */
  function EmptySmallBoard(): (r: SmallBoard)
    ensures |r| == 9
    ensures forall i :: 0 <= i < |r| ==> r[i] == None
  {
    seq(9, _ => None)
  }

  /** The eight lines, scanned in this order: rows top to bottom, columns
      left to right, then the two diagonals. */
  const WinningLines: seq<GridLine> := [
    Line(0, 1, 2), Line(3, 4, 5), Line(6, 7, 8),
    Line(0, 3, 6), Line(1, 4, 7), Line(2, 5, 8),
    Line(0, 4, 8), Line(2, 4, 6)
  ]

  /** Row and column of cell `i` in the row-major 3×3 grid. */
  function Row(i: nat): nat
  {
    if i < 3 then 0 else if i < 6 then 1 else 2
  }

  function Col(i: nat): int
  {
    i - 3 * Row(i)
  }

  /** Cells `i`, `j` and `k` lie on one straight line of the grid, equally
      spaced: the step from `i` to `j` equals the step from `j` to `k`, in
      rows and in columns. On a 3×3 grid this is what three cells in a line
      look like. */
  predicate Collinear(i: nat, j: nat, k: nat)
  {
    Row(j) - Row(i) == Row(k) - Row(j) && Col(j) - Col(i) == Col(k) - Col(j)
  }

  /** Every winning line is a collinear triple. */
  lemma WinningLinesAreCollinear(i: nat, j: nat, k: nat)
    requires i < j < k < 9 && Line(i, j, k) in WinningLines
    ensures Collinear(i, j, k)
  {
  }

  /** Every collinear triple is a winning line: a row when its first two
      cells share a row, a column when they share a column, otherwise one of
      the diagonals. */
  lemma {:induction false} CollinearTriplesAreWinningLines(i: nat, j: nat, k: nat)
    requires i < j < k < 9 && Collinear(i, j, k)
    ensures Line(i, j, k) in WinningLines
  {
    if Row(i) == Row(j) {
      assert WinningLines[Row(i)] == Line(i, j, k);
    } else if Col(i) == Col(j) {
      assert WinningLines[3 + Col(i)] == Line(i, j, k);
    } else if Col(i) < Col(j) {
      assert WinningLines[6] == Line(i, j, k);
    } else {
      assert WinningLines[7] == Line(i, j, k);
    }
  }

  /** The winning lines are exactly the increasing triples of grid cells that
      lie on one straight line: the three rows, the three columns and the two
      diagonals, and nothing else. */
  lemma WinningLinesAreCollinearTriples(i: nat, j: nat, k: nat)
    requires i < j < k < 9
    ensures Line(i, j, k) in WinningLines <==> Collinear(i, j, k)
  {
    if Collinear(i, j, k) {
      CollinearTriplesAreWinningLines(i, j, k);
    }
    if Line(i, j, k) in WinningLines {
      WinningLinesAreCollinear(i, j, k);
    }
  }

  /** The test the source applies to one line: its first cell is set and the
      other two hold the same value. An index outside the board reads as an
      unset cell, so such a line never completes. */
  predicate Completes(board: SmallBoard, l: Line)
  {
    && l.a < |board| && l.b < |board| && l.c < |board|
    && board[l.a].Some? && board[l.b] == board[l.a] && board[l.c] == board[l.a]
  }

  /** All three cells of `l` hold `p`. */
  predicate Owns(board: SmallBoard, l: Line, p: Player)
  {
    && l.a < |board| && l.b < |board| && l.c < |board|
    && board[l.a] == Some(p) && board[l.b] == Some(p) && board[l.c] == Some(p)
  }

  /** Line number `j` is the first line, in scan order, that `board` completes. */
  ghost predicate FirstCompleted(board: SmallBoard, j: nat)
  {
    && j < |WinningLines|
    && Completes(board, WinningLines[j])
    && forall i :: 0 <= i < j ==> !Completes(board, WinningLines[i])
  }

  /** The scan loop of checkWinnerWithLine from line number `k` on. */
  function ScanLines(board: SmallBoard, k: nat): Option<Winner>
    requires k <= |WinningLines|
    decreases |WinningLines| - k
  {
    if k == |WinningLines| then None
    else
      var l := WinningLines[k];
      if Completes(board, l) then Some(Winner(board[l.a].value, l))
      else ScanLines(board, k + 1)
  }

  /** The scan from line `k` finds nothing exactly when no line from `k` on is
      completed; otherwise it returns the first completed one and its holder. */
  lemma {:induction false} ScanLinesFindsFirst(board: SmallBoard, k: nat)
    requires k <= |WinningLines|
    ensures ScanLines(board, k).None? <==>
              forall j :: k <= j < |WinningLines| ==> !Completes(board, WinningLines[j])
    ensures ScanLines(board, k).Some? ==>
              exists j :: k <= j < |WinningLines|
                && ScanLines(board, k).value.line == WinningLines[j]
                && Owns(board, WinningLines[j], ScanLines(board, k).value.player)
                && forall i :: k <= i < j ==> !Completes(board, WinningLines[i])
    decreases |WinningLines| - k
  {
    if k < |WinningLines| {
      var l := WinningLines[k];
      if Completes(board, l) {
        assert Owns(board, l, board[l.a].value);
      } else {
        ScanLinesFindsFirst(board, k + 1);
        if ScanLines(board, k + 1).Some? {
          var j :| k + 1 <= j < |WinningLines|
                   && ScanLines(board, k + 1).value.line == WinningLines[j]
                   && Owns(board, WinningLines[j], ScanLines(board, k + 1).value.player)
                   && forall i :: k + 1 <= i < j ==> !Completes(board, WinningLines[i]);
          assert forall i :: k <= i < j ==> !Completes(board, WinningLines[i]);
        }
      }
    }
  }

  /** checkWinnerWithLine: the first completed line in scan order and the
      player holding it, or None when no line is completed. */
  function CheckWinnerWithLine(board: SmallBoard): Option<Winner>
  {
    ScanLines(board, 0)
  }

  /** CheckWinnerWithLine returns None exactly when no winning line is
      completed; otherwise its line is a winning line held entirely by its
      player, and the first completed one in scan order. */
  lemma CheckWinnerWithLineSpec(board: SmallBoard)
    ensures CheckWinnerWithLine(board).None? <==>
              forall j :: 0 <= j < |WinningLines| ==> !Completes(board, WinningLines[j])
    ensures CheckWinnerWithLine(board).Some? ==>
              var w := CheckWinnerWithLine(board).value;
              w.line in WinningLines && Owns(board, w.line, w.player)
    ensures CheckWinnerWithLine(board).Some? ==>
              exists j :: 0 <= j < |WinningLines| && FirstCompleted(board, j)
                          && CheckWinnerWithLine(board).value.line == WinningLines[j]
  {
    ScanLinesFindsFirst(board, 0);
  }

  /** Each recorded outcome reduced to its player, undecided boards to an
      empty cell (`w?.player ?? null`). */
  function Project(winners: seq<Option<Winner>>): (cells: SmallBoard)
    ensures |cells| == |winners|
    ensures forall i :: 0 <= i < |winners| ==>
              (cells[i].Some? <==> winners[i].Some?) &&
              (winners[i].Some? ==> cells[i] == Some(winners[i].value.player))
  {
    seq(|winners|, i requires 0 <= i < |winners| =>
      if winners[i].Some? then Some(winners[i].value.player) else None)
  }

  /** The three sub-boards on line `l` are all won by `p`. */
  predicate WonBy(winners: seq<Option<Winner>>, l: Line, p: Player)
  {
    && l.a < |winners| && l.b < |winners| && l.c < |winners|
    && winners[l.a].Some? && winners[l.a].value.player == p
    && winners[l.b].Some? && winners[l.b].value.player == p
    && winners[l.c].Some? && winners[l.c].value.player == p
  }

  /** checkBigWinnerWithLine: the same scan as CheckWinnerWithLine, over the
      players of the recorded sub-board outcomes. */
  function CheckBigWinnerWithLine(winners: seq<Option<Winner>>): Option<Winner>
  {
    ScanLines(Project(winners), 0)
  }

  /** CheckBigWinnerWithLine is CheckWinnerWithLine on the projected outcomes;
      it returns None exactly when no winning line has its three sub-boards
      won by one player, and otherwise such a line and that player. */
  lemma CheckBigWinnerWithLineSpec(winners: seq<Option<Winner>>)
    ensures CheckBigWinnerWithLine(winners) == CheckWinnerWithLine(Project(winners))
    ensures CheckBigWinnerWithLine(winners).None? <==>
              forall j, p :: 0 <= j < |WinningLines| ==> !WonBy(winners, WinningLines[j], p)
    ensures CheckBigWinnerWithLine(winners).Some? ==>
              var w := CheckBigWinnerWithLine(winners).value;
              w.line in WinningLines && WonBy(winners, w.line, w.player)
  {
    var cells := Project(winners);
    CheckWinnerWithLineSpec(cells);
    assert forall l: Line, p :: Owns(cells, l, p) <==> WonBy(winners, l, p);
    forall l: Line ensures Completes(cells, l) <==> exists p :: WonBy(winners, l, p) {
      if Completes(cells, l) {
        assert WonBy(winners, l, cells[l.a].value);
      }
    }
  }

  /** A board `[X,X,X,O,O,_,_,_,_]` is won by X along the top row. */
  lemma TopRowExample()
    ensures CheckWinnerWithLine([Some(X), Some(X), Some(X), Some(O), Some(O), None, None, None, None])
            == Some(Winner(X, Line(0, 1, 2)))
  {
  }

  /** An empty sub-board has no winner. */
  lemma EmptyBoardHasNoWinner()
    ensures CheckWinnerWithLine(EmptySmallBoard()) == None
  {
  }

  /** Sub-boards 0, 4 and 8 won by O and the others undecided: O wins the game
      along the main diagonal. */
  lemma MetaDiagonalExample(w0: Line, w4: Line, w8: Line)
    requires w0.a < 9 && w0.b < 9 && w0.c < 9
    requires w4.a < 9 && w4.b < 9 && w4.c < 9
    requires w8.a < 9 && w8.b < 9 && w8.c < 9
    ensures CheckBigWinnerWithLine([Some(Winner(O, w0)), None, None, None, Some(Winner(O, w4)),
                                    None, None, None, Some(Winner(O, w8))])
            == Some(Winner(O, Line(0, 4, 8)))
  {
  }
}
