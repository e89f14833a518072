/** The AI's heuristics (src/ai/ai.ts): the line-pressure score of a
    sub-board and the one-move threat check for the opponent. */
module Ai {
  import opened Types
  import opened GameLogic

  /** How many of the three cells of `l` hold `p`. */
  function CountOf(board: SmallBoard, l: GridLine, p: Player): (n: nat)
    requires |board| == 9
  {
    (if board[l.a] == Some(p) then 1 else 0)
    + (if board[l.b] == Some(p) then 1 else 0)
    + (if board[l.c] == Some(p) then 1 else 0)
  }

  /** Some cell of `l` is empty. */
  predicate HasEmpty(board: SmallBoard, l: GridLine)
    requires |board| == 9
  {
    board[l.a].None? || board[l.b].None? || board[l.c].None?
  }

  /** What one line adds to the pressure score of `p`: 5 when `p` holds exactly
      two of its cells and one is still empty, 1 when `p` holds exactly one and
      some cell is empty, nothing otherwise. */
  function LineScore(board: SmallBoard, l: GridLine, p: Player): (s: nat)
    requires |board| == 9
    ensures s <= 5
    ensures s != 0 ==> HasEmpty(board, l) && 1 <= CountOf(board, l, p) <= 2
  {
    if !HasEmpty(board, l) then 0
    else if CountOf(board, l, p) == 2 then 5
    else if CountOf(board, l, p) == 1 then 1
    else 0
  }

  /** The pressure of `p` summed over the first `n` winning lines. */
  function PressureOf(board: SmallBoard, p: Player, n: nat): int
    requires |board| == 9 && n <= |WinningLines|
  {
    if n == 0 then 0
    else PressureOf(board, p, n - 1) + LineScore(board, WinningLines[n - 1], p)
  }

  /** The pressure of `p` on the whole sub-board. */
  function Pressure(board: SmallBoard, p: Player): int
    requires |board| == 9
  {
    PressureOf(board, p, |WinningLines|)
  }

  /** Each line adds between 0 and 5. */
  lemma {:induction false} PressureBounds(board: SmallBoard, p: Player, n: nat)
    requires |board| == 9 && n <= |WinningLines|
    ensures 0 <= PressureOf(board, p, n) <= 5 * n
  {
    if n > 0 {
      PressureBounds(board, p, n - 1);
    }
  }

  /** evaluateSmall: the line-pressure score of `p` on `board`, at most 40
      (eight lines of 5). */
  method EvaluateSmall(board: SmallBoard, p: Player) returns (score: int)
    requires |board| == 9
    ensures score == Pressure(board, p)
    ensures 0 <= score <= 40
  {
    score := 0;
    for k := 0 to |WinningLines|
      invariant score == PressureOf(board, p, k)
    {
      var l := WinningLines[k];
      var v := [board[l.a], board[l.b], board[l.c]];
      var mine := (if v[0] == Some(p) then 1 else 0)
                  + (if v[1] == Some(p) then 1 else 0)
                  + (if v[2] == Some(p) then 1 else 0);
      var open := None in v;
      if mine == 2 && open {
        score := score + 5;
      }
      if mine == 1 && open {
        score := score + 1;
      }
    }
    PressureBounds(board, p, |WinningLines|);
  }

  /** No mark of `p` on the board: no line scores. */
  lemma {:induction false} PressureWithoutMarks(board: SmallBoard, p: Player, n: nat)
    requires |board| == 9 && n <= |WinningLines|
    requires forall i :: 0 <= i < 9 ==> board[i] != Some(p)
    ensures PressureOf(board, p, n) == 0
  {
    if n > 0 {
      PressureWithoutMarks(board, p, n - 1);
    }
  }

  /** The empty sub-board scores 0 for either player. */
  lemma PressureOfEmptyBoard(p: Player)
    ensures Pressure(EmptySmallBoard(), p) == 0
  {
    PressureWithoutMarks(EmptySmallBoard(), p, |WinningLines|);
  }

  /** A full sub-board scores 0: a line without an empty cell adds nothing. */
  lemma {:induction false} PressureOfFullBoard(board: SmallBoard, p: Player, n: nat)
    requires |board| == 9 && n <= |WinningLines|
    requires forall i :: 0 <= i < 9 ==> board[i].Some?
    ensures PressureOf(board, p, n) == 0
  {
    if n > 0 {
      PressureOfFullBoard(board, p, n - 1);
    }
  }

  /** The board with every X turned into O and every O into X. */
  function Mirror(board: SmallBoard): (m: SmallBoard)
    ensures |m| == |board|
    ensures forall i :: 0 <= i < |board| ==>
              (board[i].None? ==> m[i].None?) &&
              (board[i].Some? ==> m[i] == Some(Other(board[i].value)))
  {
    seq(|board|, i requires 0 <= i < |board| =>
      if board[i].Some? then Some(Other(board[i].value)) else None)
  }

  /** The score does not depend on which mark is called X: the pressure of `p`
      equals the pressure of the other player on the mirrored board. */
  lemma {:induction false} PressureMirrored(board: SmallBoard, p: Player, n: nat)
    requires |board| == 9 && n <= |WinningLines|
    ensures PressureOf(Mirror(board), Other(p), n) == PressureOf(board, p, n)
  {
    if n > 0 {
      PressureMirrored(board, p, n - 1);
      var l := WinningLines[n - 1];
      assert CountOf(Mirror(board), l, Other(p)) == CountOf(board, l, p);
      assert HasEmpty(Mirror(board), l) == HasEmpty(board, l);
    }
  }

  /** Putting `p` into the empty cell `i` completes a line of `board`. */
  predicate CompletesWith(board: SmallBoard, i: nat, p: Player)
    requires |board| == 9 && i < 9
  {
    board[i].None? && CheckWinnerWithLine(board[i := Some(p)]).Some?
  }

  /** The opponent X, sent to sub-board `nextBoard`, could decide it with one
      move there: the board is still undecided and some empty cell, set to X,
      gives it a completed line. */
  predicate OpponentThreat(boards: seq<SmallBoard>, winners: seq<Option<Winner>>, nextBoard: nat)
    requires nextBoard < |boards| && nextBoard < |winners| && |boards[nextBoard]| == 9
  {
    winners[nextBoard].None? && exists i :: 0 <= i < 9 && CompletesWith(boards[nextBoard], i, X)
  }

  /** opponentCanScoreNext: try X in each empty cell of a copy of the target
      sub-board. A decided board, or one with no empty cell, is no threat. */
  method OpponentCanScoreNext(boards: seq<SmallBoard>, winners: seq<Option<Winner>>, nextBoard: nat)
    returns (r: bool)
    requires nextBoard < |boards| && nextBoard < |winners| && |boards[nextBoard]| == 9
    ensures r == OpponentThreat(boards, winners, nextBoard)
    ensures winners[nextBoard].Some? ==> !r
    ensures (forall i :: 0 <= i < 9 ==> boards[nextBoard][i].Some?) ==> !r
  {
    if winners[nextBoard].Some? {
      return false;
    }
    var b := boards[nextBoard];
    for i := 0 to 9
      invariant forall j :: 0 <= j < i ==> !CompletesWith(b, j, X)
    {
      if b[i].Some? {
        continue;
      }
      var t := b[i := Some(X)];
      if CheckWinnerWithLine(t).Some? {
        assert CompletesWith(b, i, X);
        assert !(forall j :: 0 <= j < 9 ==> b[j].Some?) by { assert b[i].None?; }
        return true;
      }
    }
    return false;
  }

  /** On a sub-board with no completed line yet, a move of `p` that completes
      one was made on a line that scores 5 for `p` and passes through the
      cell played. */
  lemma CompletingMoveScoresFive(board: SmallBoard, i: nat, p: Player)
    requires |board| == 9 && i < 9
    requires CheckWinnerWithLine(board).None?
    requires CompletesWith(board, i, p)
    ensures exists k :: 0 <= k < |WinningLines| && LineScore(board, WinningLines[k], p) == 5 &&
                        i in {WinningLines[k].a, WinningLines[k].b, WinningLines[k].c}
  {
    var after := board[i := Some(p)];
    CheckWinnerWithLineSpec(after);
    CheckWinnerWithLineSpec(board);
    var w := CheckWinnerWithLine(after).value;
    var k :| 0 <= k < |WinningLines| && FirstCompleted(after, k) && w.line == WinningLines[k];
    var l := WinningLines[k];
    assert l.a < l.b < l.c by {
      assert k == 0 || k == 1 || k == 2 || k == 3 || k == 4 || k == 5 || k == 6 || k == 7;
    }
    assert !Completes(board, l);
    assert i == l.a || i == l.b || i == l.c;
    assert Owns(after, l, p);
    assert LineScore(board, l, p) == 5;
  }

  /** A line scoring 5 for `p` can be completed by `p` in its empty cell:
      playing that cell gives `p` the whole line, and the scan finds a
      completed line. */
  lemma FiveScoringLineIsCompletable(board: SmallBoard, k: nat, p: Player)
    requires |board| == 9 && k < |WinningLines|
    requires LineScore(board, WinningLines[k], p) == 5
    ensures var l := WinningLines[k];
            exists e :: e in {l.a, l.b, l.c} && board[e].None? && Owns(board[e := Some(p)], l, p)
    ensures exists i :: 0 <= i < 9 && CompletesWith(board, i, p)
  {
    var l := WinningLines[k];
    var e := if board[l.a].None? then l.a else if board[l.b].None? then l.b else l.c;
    assert Owns(board[e := Some(p)], l, p);
    assert Completes(board[e := Some(p)], l);
    CheckWinnerWithLineSpec(board[e := Some(p)]);
    assert CompletesWith(board, e, p);
  }

  /** On a sub-board with no completed line yet, `p` can complete one with a
      single move exactly when some line scores 5 for `p` (two of its cells
      held by `p`, the third empty). */
  lemma ThreatIsTwoInALine(board: SmallBoard, p: Player)
    requires |board| == 9
    requires CheckWinnerWithLine(board).None?
    ensures (exists i :: 0 <= i < 9 && CompletesWith(board, i, p))
            <==> (exists k :: 0 <= k < |WinningLines| && LineScore(board, WinningLines[k], p) == 5)
  {
    if i :| 0 <= i < 9 && CompletesWith(board, i, p) {
      CompletingMoveScoresFive(board, i, p);
    }
    if k :| 0 <= k < |WinningLines| && LineScore(board, WinningLines[k], p) == 5 {
      FiveScoringLineIsCompletable(board, k, p);
    }
  }
}
