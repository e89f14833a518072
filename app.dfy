/** The game's state machine and the AI's move choice (App.tsx). The state the
    component keeps in hooks is the class Game; each handler is a method whose
    new state is given by a function on GameState values, and the properties
    of the game are lemmas about those functions. */
module App {
  import opened Types
  import opened GameLogic
  import opened Ai

  /** A history entry: the boards, outcomes, player and active board before a
      move. */
  datatype Snapshot = Snapshot(boards: seq<SmallBoard>, winners: seq<Option<Winner>>,
                               player: Player, activeBoard: Option<nat>)

  /** A move: the sub-board and the cell in it. */
  datatype Move = Move(board: nat, cell: nat)

  /** Every field the game keeps. */
  datatype GameState = GameState(
    boards: seq<SmallBoard>,
    winners: seq<Option<Winner>>,
    currentPlayer: Player,
    activeBoard: Option<nat>,
    bigWinner: Option<Winner>,
    history: seq<Snapshot>,
    baseTime: int,
    timeLeft: int,
    timerRunning: bool)

  /** Nine sub-boards of nine cells. */
  predicate NineByNine(boards: seq<SmallBoard>)
  {
    |boards| == 9 && forall k :: 0 <= k < 9 ==> |boards[k]| == 9
  }

  /** Nine sub-boards of nine cells, and nine outcome slots. */
  predicate WellFormed(boards: seq<SmallBoard>, winners: seq<Option<Winner>>)
  {
    NineByNine(boards) && |winners| == 9
  }

  /** Every cell is set (`every(c => c !== null)`). */
  predicate Full(board: SmallBoard)
  {
    forall i :: 0 <= i < |board| ==> board[i].Some?
  }

  /** The recorded outcome of one sub-board agrees with its cells: there is
      one exactly when the board has a completed line, and the recorded line is
      one of the winning lines, held entirely by the recorded player. */
  ghost predicate OutcomeAgrees(board: SmallBoard, w: Option<Winner>)
  {
    && (w.None? <==> CheckWinnerWithLine(board).None?)
    && (w.Some? ==> w.value.line in WinningLines && Owns(board, w.value.line, w.value.player))
  }

  /** Every recorded outcome agrees with its sub-board. */
  ghost predicate Consistent(boards: seq<SmallBoard>, winners: seq<Option<Winner>>)
    requires WellFormed(boards, winners)
  {
    forall k {:trigger OutcomeAgrees(boards[k], winners[k])} :: 0 <= k < 9 ==> OutcomeAgrees(boards[k], winners[k])
  }

  /** A state a history entry may hold: consistent, the game not yet won,
      and the active board, if any, not full. */
  ghost predicate ValidSnapshot(h: Snapshot)
  {
    && WellFormed(h.boards, h.winners)
    && Consistent(h.boards, h.winners)
    && CheckBigWinnerWithLine(h.winners).None?
    && (h.activeBoard.Some? ==> h.activeBoard.value < 9 && !Full(h.boards[h.activeBoard.value]))
  }

  /** The invariant of the game: consistent outcomes, the meta outcome derived
      from the sub-board outcomes, a player sent only to a board that still has
      room while the game goes on, a base time of at least 30 seconds, and
      valid history entries. */
  ghost predicate Inv(s: GameState)
  {
    && WellFormed(s.boards, s.winners)
    && Consistent(s.boards, s.winners)
    && s.bigWinner == CheckBigWinnerWithLine(s.winners)
    && (s.activeBoard.Some? ==>
          s.activeBoard.value < 9 &&
          (s.bigWinner.None? ==> !Full(s.boards[s.activeBoard.value])))
    && s.baseTime >= 30
    && ValidHistory(s.history)
  }

  /** Every history entry is a valid snapshot. */
  ghost predicate ValidHistory(hs: seq<Snapshot>)
  {
    hs != [] ==> ValidHistory(hs[..|hs| - 1]) && ValidSnapshot(hs[|hs| - 1])
  }

  /** Nine empty sub-boards. */
  function EmptyBoards(): (r: seq<SmallBoard>)
    ensures |r| == 9 && forall k :: 0 <= k < 9 ==> r[k] == EmptySmallBoard()
  {
    seq(9, _ => EmptySmallBoard())
  }

  /** Nine undecided outcomes. */
  function NoWinners(): (r: seq<Option<Winner>>)
    ensures |r| == 9 && forall k :: 0 <= k < 9 ==> r[k] == None
  {
    seq(9, _ => None)
  }

  /** The state the component starts in: what resetGame gives, with the
      default base time of 60 seconds. */
  function Initial(): (r: GameState)
    ensures r.baseTime == 60 && AfterReset(r) == r
  {
    GameState(EmptyBoards(), NoWinners(), X, None, None, [], 60, 60, false)
  }

  /** handleMove's three guards: the game is not won, the move is in the
      active board or no board is active, and the cell is empty. */
  predicate Accepts(s: GameState, b: nat, c: nat)
    requires WellFormed(s.boards, s.winners) && b < 9 && c < 9
  {
    s.bigWinner.None? && (s.activeBoard.None? || s.activeBoard.value == b) && s.boards[b][c].None?
  }

  /** The state after handleMove(b, c): a rejected move changes nothing, an
      accepted one keeps the board well formed and the base time unchanged;
      the lemmas below say what it does. */
  function AfterMove(s: GameState, b: nat, c: nat): (r: GameState)
    requires WellFormed(s.boards, s.winners) && b < 9 && c < 9
    ensures !Accepts(s, b, c) ==> r == s
    ensures Accepts(s, b, c) ==> WellFormed(r.boards, r.winners)
    ensures r.baseTime == s.baseTime
  {
    if !Accepts(s, b, c) then s
    else
      var boards := s.boards[b := s.boards[b][c := Some(s.currentPlayer)]];
      var sw := CheckWinnerWithLine(boards[b]);
      var winners := if s.winners[b].None? && sw.Some? then s.winners[b := sw] else s.winners;
      var bw := CheckBigWinnerWithLine(winners);
      var history := s.history + [Snapshot(s.boards, s.winners, s.currentPlayer, s.activeBoard)];
      if bw.Some? then
        s.(boards := boards, winners := winners, bigWinner := bw, history := history)
      else
        s.(boards := boards, winners := winners, history := history,
           activeBoard := if Full(boards[c]) then None else Some(c),
           currentPlayer := Other(s.currentPlayer),
           timerRunning := false, timeLeft := s.baseTime)
  }

  /** An accepted move changes exactly one cell, to the mark of the player to
      move. */
  lemma MoveChangesOneCell(s: GameState, b: nat, c: nat)
    requires WellFormed(s.boards, s.winners) && b < 9 && c < 9 && Accepts(s, b, c)
    ensures AfterMove(s, b, c).boards[b][c] == Some(s.currentPlayer)
    ensures forall k, j :: 0 <= k < 9 && 0 <= j < 9 && (k != b || j != c) ==>
              AfterMove(s, b, c).boards[k][j] == s.boards[k][j]
  {
  }

  /** An accepted move never replaces a recorded outcome; only board b can
      gain one, and it gains the winner of its new cells. */
  lemma MoveKeepsOutcomes(s: GameState, b: nat, c: nat)
    requires WellFormed(s.boards, s.winners) && b < 9 && c < 9 && Accepts(s, b, c)
    ensures forall k :: 0 <= k < 9 && (s.winners[k].Some? || k != b) ==>
              AfterMove(s, b, c).winners[k] == s.winners[k]
    ensures s.winners[b].None? ==>
              AfterMove(s, b, c).winners[b] == CheckWinnerWithLine(AfterMove(s, b, c).boards[b])
    ensures AfterMove(s, b, c).bigWinner == CheckBigWinnerWithLine(AfterMove(s, b, c).winners)
  {
  }

  /** An accepted move pushes exactly one history entry: the state before it. */
  lemma MoveRecordsHistory(s: GameState, b: nat, c: nat)
    requires WellFormed(s.boards, s.winners) && b < 9 && c < 9 && Accepts(s, b, c)
    ensures AfterMove(s, b, c).history
            == s.history + [Snapshot(s.boards, s.winners, s.currentPlayer, s.activeBoard)]
  {
  }

  /** After an accepted move that does not win the game, the other player
      moves next, in sub-board c unless it is full, and the timer restarts.
      After one that wins it, player, active board and timer stay as they
      were. */
  lemma MoveRoutesOpponent(s: GameState, b: nat, c: nat)
    requires WellFormed(s.boards, s.winners) && b < 9 && c < 9 && Accepts(s, b, c)
    ensures var r := AfterMove(s, b, c);
            r.bigWinner.None? ==>
              && r.currentPlayer == Other(s.currentPlayer)
              && r.activeBoard == (if Full(r.boards[c]) then None else Some(c))
              && !r.timerRunning && r.timeLeft == s.baseTime
    ensures var r := AfterMove(s, b, c);
            r.bigWinner.Some? ==>
              && r.currentPlayer == s.currentPlayer && r.activeBoard == s.activeBoard
              && r.timerRunning == s.timerRunning && r.timeLeft == s.timeLeft
  {
  }

  /** The state after undoMove: the last history entry's boards, outcomes,
      player and active board, with that entry dropped and the timer reset.
      Nothing happens once the game is won or when there is no history. */
  function AfterUndo(s: GameState): (r: GameState)
    ensures s.bigWinner.Some? || s.history == [] ==> r == s
    ensures s.bigWinner.None? && s.history != [] ==>
              var last := s.history[|s.history| - 1];
              && r.boards == last.boards && r.winners == last.winners
              && r.currentPlayer == last.player && r.activeBoard == last.activeBoard
              && |r.history| == |s.history| - 1
              && r.history == s.history[..|s.history| - 1]
              && r.bigWinner == s.bigWinner && r.baseTime == s.baseTime
              && !r.timerRunning && r.timeLeft == s.baseTime
  {
    if s.bigWinner.Some? || s.history == [] then s
    else
      var last := s.history[|s.history| - 1];
      s.(boards := last.boards, winners := last.winners, currentPlayer := last.player,
         activeBoard := last.activeBoard, history := s.history[..|s.history| - 1],
         timerRunning := false, timeLeft := s.baseTime)
  }

  /** The state after resetGame: a fresh game, the base time kept. */
  function AfterReset(s: GameState): (r: GameState)
    ensures r.boards == EmptyBoards() && r.winners == NoWinners()
    ensures r.currentPlayer == X && r.activeBoard == None && r.bigWinner == None && r.history == []
    ensures r.baseTime == s.baseTime && r.timeLeft == s.baseTime && !r.timerRunning
  {
    GameState(EmptyBoards(), NoWinners(), X, None, None, [], s.baseTime, s.baseTime, false)
  }

  /** The state after updateBaseTime(delta): the base time moves by delta but
      never below 30 seconds, and the countdown restarts from it. */
  function AfterBaseTimeChange(s: GameState, delta: int): (r: GameState)
    ensures r.baseTime >= 30 && r.baseTime >= s.baseTime + delta
    ensures r.baseTime == 30 || r.baseTime == s.baseTime + delta
    ensures r.timeLeft == r.baseTime
    ensures r == s.(baseTime := r.baseTime, timeLeft := r.baseTime)
  {
    var next := if s.baseTime + delta > 30 then s.baseTime + delta else 30;
    s.(baseTime := next, timeLeft := next)
  }

  /** Placing the mark of the player to move into an empty cell keeps every
      recorded outcome true of the cells. */
  lemma MoveKeepsConsistent(s: GameState, b: nat, c: nat)
    requires Inv(s) && b < 9 && c < 9 && Accepts(s, b, c)
    ensures Consistent(AfterMove(s, b, c).boards, AfterMove(s, b, c).winners)
  {
    var r := AfterMove(s, b, c);
    forall k | 0 <= k < 9 ensures OutcomeAgrees(r.boards[k], r.winners[k]) {
      assert OutcomeAgrees(s.boards[k], s.winners[k]);
      if k == b {
        CheckWinnerWithLineSpec(r.boards[b]);
        if s.winners[b].Some? {
          var w := s.winners[b].value;
          assert c != w.line.a && c != w.line.b && c != w.line.c;
          assert Owns(r.boards[b], w.line, w.player);
          var j :| 0 <= j < |WinningLines| && WinningLines[j] == w.line;
          assert Completes(r.boards[b], WinningLines[j]);
        }
      } else {
        assert r.boards[k] == s.boards[k];
      }
    }
  }

  /** handleMove keeps the invariant. */
  lemma MovePreservesInv(s: GameState, b: nat, c: nat)
    requires Inv(s) && b < 9 && c < 9
    ensures Inv(AfterMove(s, b, c))
  {
    if Accepts(s, b, c) {
      MoveKeepsConsistent(s, b, c);
      var r := AfterMove(s, b, c);
      assert ValidSnapshot(Snapshot(s.boards, s.winners, s.currentPlayer, s.activeBoard));
      assert r.history[..|r.history| - 1] == s.history;
    }
  }

  /** undoMove keeps the invariant. */
  lemma UndoPreservesInv(s: GameState)
    requires Inv(s)
    ensures Inv(AfterUndo(s))
  {
    if s.bigWinner.None? && s.history != [] {
      var last := s.history[|s.history| - 1];
      assert ValidSnapshot(last);
    }
  }

  /** A fresh game satisfies the invariant, and so does the state after
      resetGame. */
  lemma ResetEstablishesInv(s: GameState)
    requires s.baseTime >= 30
    ensures Inv(AfterReset(s))
    ensures Inv(Initial())
  {
    EmptyBoardHasNoWinner();
    assert CheckBigWinnerWithLine(NoWinners()).None? by {
      forall j, p | 0 <= j < |WinningLines| ensures !WonBy(NoWinners(), WinningLines[j], p) {
      }
    }
  }

  /** Undoing an accepted move that did not win the game gives back the state
      before the move, with the timer reset. */
  lemma UndoAfterMove(s: GameState, b: nat, c: nat)
    requires WellFormed(s.boards, s.winners) && b < 9 && c < 9
    requires Accepts(s, b, c) && AfterMove(s, b, c).bigWinner.None?
    ensures AfterUndo(AfterMove(s, b, c)) == s.(timerRunning := false, timeLeft := s.baseTime)
  {
    var r := AfterMove(s, b, c);
    assert r.history[..|r.history| - 1] == s.history;
  }

  /** Once the game is won, no move and no undo changes the state. */
  lemma WonGameIsFrozen(s: GameState, b: nat, c: nat)
    requires WellFormed(s.boards, s.winners) && b < 9 && c < 9
    requires s.bigWinner.Some?
    ensures AfterMove(s, b, c) == s && AfterUndo(s) == s
  {
  }

  /* ---------------- The AI's move choice (makeAIMove) ---------------- */

  /** Indices `k..` of undecided sub-boards, in increasing order. */
  function UnwonFrom(winners: seq<Option<Winner>>, k: nat): (r: seq<nat>)
    requires k <= |winners|
    ensures forall j :: 0 <= j < |r| ==> k <= r[j] < |winners| && winners[r[j]].None?
    ensures forall b :: k <= b < |winners| && winners[b].None? ==> b in r
    ensures forall i, j :: 0 <= i < j < |r| ==> r[i] < r[j]
    decreases |winners| - k
  {
    if k == |winners| then []
    else if winners[k].None? then [k] + UnwonFrom(winners, k + 1)
    else UnwonFrom(winners, k + 1)
  }

  /** getPlayableBoards: the active board when there is one, otherwise every
      undecided sub-board in increasing order. A drawn (full, undecided) board
      is not excluded. */
  function PlayableBoards(activeBoard: Option<nat>, winners: seq<Option<Winner>>): (r: seq<nat>)
    ensures activeBoard.Some? ==> r == [activeBoard.value]
    ensures activeBoard.None? ==> forall b: nat :: b in r <==> b < |winners| && winners[b].None?
    ensures forall i, j :: 0 <= i < j < |r| ==> r[i] < r[j]
  {
    if activeBoard.Some? then [activeBoard.value] else UnwonFrom(winners, 0)
  }

  /** Number of set cells in one sub-board: every cell that is not empty. */
  function MarksIn(board: SmallBoard): (n: nat)
    ensures n == |board| - multiset(board)[None]
  {
    if board == [] then 0
    else
      assert board == [board[0]] + board[1..];
      (if board[0].Some? then 1 else 0) + MarksIn(board[1..])
  }

  /** The cells of all sub-boards in one sequence (`boards.flat()`). */
  function Flat(boards: seq<SmallBoard>): seq<Cell>
  {
    if boards == [] then [] else boards[0] + Flat(boards[1..])
  }

  /** Number of set cells on the whole board, summed sub-board by sub-board. */
  function MarkCount(boards: seq<SmallBoard>): nat
  {
    if boards == [] then 0 else MarksIn(boards[0]) + MarkCount(boards[1..])
  }

  /** The sum over sub-boards is `boards.flat().filter(c => c).length`: the
      cells of the flattened board that are not empty. */
  lemma {:induction false} MarkCountIsFlatCount(boards: seq<SmallBoard>)
    ensures MarkCount(boards) == |Flat(boards)| - multiset(Flat(boards))[None]
  {
    if boards != [] {
      MarkCountIsFlatCount(boards[1..]);
      assert Flat(boards) == boards[0] + Flat(boards[1..]);
    }
  }

  /** Setting an empty cell adds one mark to its sub-board. */
  lemma MarkAdded(board: SmallBoard, c: nat, p: Player)
    requires c < |board| && board[c].None?
    ensures MarksIn(board[c := Some(p)]) == MarksIn(board) + 1
  {
    assert multiset(board[c := Some(p)])[None] == multiset(board)[None] - 1;
  }

  /** Replacing sub-board b changes the total by the difference of its marks. */
  lemma {:induction false} MarkCountAfterUpdate(boards: seq<SmallBoard>, b: nat, nb: SmallBoard)
    requires b < |boards|
    ensures MarkCount(boards[b := nb]) == MarkCount(boards) - MarksIn(boards[b]) + MarksIn(nb)
  {
    if b > 0 {
      MarkCountAfterUpdate(boards[1..], b - 1, nb);
      assert boards[b := nb][1..] == boards[1..][b - 1 := nb];
    }
  }

  /** Every accepted move adds exactly one mark, so the number of marks is the
      number of moves played: the early-game bonus applies to the first six
      moves only. */
  lemma MoveAddsOneMark(s: GameState, b: nat, c: nat)
    requires WellFormed(s.boards, s.winners) && b < 9 && c < 9 && Accepts(s, b, c)
    ensures MarkCount(AfterMove(s, b, c).boards) == MarkCount(s.boards) + 1
  {
    MarkAdded(s.boards[b], c, s.currentPlayer);
    MarkCountAfterUpdate(s.boards, b, s.boards[b][c := Some(s.currentPlayer)]);
  }

  /** A table of the random early-game bonuses, one per candidate move, each in
      [0, 5) like `Math.random() * 5`. */
  predicate BonusTable(bonus: seq<seq<real>>)
  {
    |bonus| == 9 && forall b :: 0 <= b < 9 ==>
      |bonus[b]| == 9 && forall i :: 0 <= i < 9 ==> 0.0 <= bonus[b][i] < 5.0
  }

  /** The boards after the AI (always O) plays cell i of board b. */
  function Simulated(boards: seq<SmallBoard>, b: nat, i: nat): (tb: seq<SmallBoard>)
    requires NineByNine(boards) && b < 9 && i < 9
    ensures NineByNine(tb)
    ensures tb[b][i] == Some(O)
    ensures forall k, j :: 0 <= k < 9 && 0 <= j < 9 && (k != b || j != i) ==> tb[k][j] == boards[k][j]
  {
    boards[b := boards[b][i := Some(O)]]
  }

  /** The outcomes after that simulated move: board b takes the sub-board
      winner if the move completes a line, even over an outcome already there. */
  function SimulatedWinners(boards: seq<SmallBoard>, winners: seq<Option<Winner>>, b: nat, i: nat)
    : (tw: seq<Option<Winner>>)
    requires WellFormed(boards, winners) && b < 9 && i < 9
    ensures |tw| == 9
  {
    var sw := CheckWinnerWithLine(Simulated(boards, b, i)[b]);
    if sw.Some? then winners[b := sw] else winners
  }

  /** The simulated move wins the whole game. */
  predicate MetaWins(boards: seq<SmallBoard>, winners: seq<Option<Winner>>, b: nat, i: nat)
    requires WellFormed(boards, winners) && b < 9 && i < 9
  {
    CheckBigWinnerWithLine(SimulatedWinners(boards, winners, b, i)).Some?
  }

  /** The deterministic part of the score of O playing cell i of board b:
      100 when the simulated sub-board has a completed line, 1000 when the
      simulated outcomes win the game, O's pressure
      minus X's on the new sub-board, 3 for the centre, 2 for a corner, and 50
      off when X could then win the sub-board it is sent to. */
  function MoveScore(boards: seq<SmallBoard>, winners: seq<Option<Winner>>, b: nat, i: nat): int
    requires WellFormed(boards, winners) && b < 9 && i < 9
  {
    var tb := Simulated(boards, b, i);
    var tw := SimulatedWinners(boards, winners, b, i);
    (if CheckWinnerWithLine(tb[b]).Some? then 100 else 0)
    + (if CheckBigWinnerWithLine(tw).Some? then 1000 else 0)
    + Pressure(tb[b], O) - Pressure(tb[b], X)
    + (if i == 4 then 3 else 0)
    + (if i in {0, 2, 6, 8} then 2 else 0)
    - (if OpponentThreat(tb, tw, i) then 50 else 0)
  }

  /** The full score: the random bonus counts only while fewer than 6 marks
      are on the board. */
  function Score(boards: seq<SmallBoard>, winners: seq<Option<Winner>>, bonus: seq<seq<real>>,
                 b: nat, i: nat): real
    requires WellFormed(boards, winners) && BonusTable(bonus) && b < 9 && i < 9
  {
    MoveScore(boards, winners, b, i) as real
    + (if MarkCount(boards) < 6 then bonus[b][i] else 0.0)
  }

  /** Where the simulation is right: when O is to move and sub-board b has
      no recorded outcome, the simulated sub-board win and game win are
      exactly what handleMove would then record. */
  lemma SimulationMatchesMove(s: GameState, b: nat, i: nat)
    requires WellFormed(s.boards, s.winners) && b < 9 && i < 9
    requires Accepts(s, b, i) && s.currentPlayer == O && s.winners[b].None?
    ensures CheckWinnerWithLine(Simulated(s.boards, b, i)[b]).Some?
            <==> AfterMove(s, b, i).winners[b].Some?
    ensures MetaWins(s.boards, s.winners, b, i) <==> AfterMove(s, b, i).bigWinner.Some?
  {
    var r := AfterMove(s, b, i);
    assert Simulated(s.boards, b, i) == r.boards;
    assert SimulatedWinners(s.boards, s.winners, b, i) == r.winners;
  }

  /** A state where the simulation and the move part: sub-boards 0 and 8 are
      won by O along [0,1,2], sub-board 4 is won by X along [2,5,8] and holds
      O at cells 0 and 3, O is to move and is sent to sub-board 4. */
  function DisagreementState(): GameState
  {
    var won := [Some(O), Some(O), Some(O), None, None, None, None, None, None];
    var b4 := [Some(O), None, Some(X), Some(O), None, Some(X), None, None, Some(X)];
    var e := EmptySmallBoard();
    GameState([won, e, e, e, b4, e, e, e, won],
              [Some(Winner(O, Line(0, 1, 2))), None, None, None,
               Some(Winner(X, Line(2, 5, 8))), None, None, None,
               Some(Winner(O, Line(0, 1, 2)))],
              O, Some(4), None, [], 60, 60, false)
  }

  /** That state satisfies the game invariant. */
  lemma DisagreementStateIsValid()
    ensures Inv(DisagreementState())
  {
    var s := DisagreementState();
    EmptyBoardHasNoWinner();
    assert CheckWinnerWithLine(s.boards[0]) == Some(Winner(O, Line(0, 1, 2)));
    assert CheckWinnerWithLine(s.boards[4]) == Some(Winner(X, Line(2, 5, 8)));
    forall k | 0 <= k < 9 ensures OutcomeAgrees(s.boards[k], s.winners[k]) {
    }
    assert CheckBigWinnerWithLine(s.winners).None?;
  }

  /** Where the simulation is wrong: it overwrites an outcome already recorded
      for the sub-board (App.tsx:171) while handleMove keeps it (App.tsx:123).
      In DisagreementState, O at cell 6 of sub-board 4 completes [0,3,6],
      which the scan finds before X's [2,5,8], so the AI counts a game win
      that the move does not give. */
  lemma SimulationCanDisagree()
    ensures Accepts(DisagreementState(), 4, 6)
    ensures MetaWins(DisagreementState().boards, DisagreementState().winners, 4, 6)
    ensures AfterMove(DisagreementState(), 4, 6).bigWinner.None?
  {
    var s := DisagreementState();
    assert CheckWinnerWithLine(s.boards[4][6 := Some(O)]) == Some(Winner(O, Line(0, 3, 6)));
    assert CheckBigWinnerWithLine(SimulatedWinners(s.boards, s.winners, 4, 6)).Some?;
  }

  /** Cell i of board b is a move the AI considers: b is playable and the cell
      is empty. */
  predicate IsCandidate(boards: seq<SmallBoard>, playable: seq<nat>, b: nat, i: nat)
  {
    b in playable && b < |boards| && i < |boards[b]| && boards[b][i].None?
  }

  /** Position of (b, i) in the scan: boards in index order, cells in index
      order. */
  function ScanKey(b: nat, i: nat): nat
  {
    9 * b + i
  }

  /** Among the candidates scanned before position `frontier`, `best` is the
      first one with the greatest score, or None when there is none. */
  ghost predicate BestBefore(boards: seq<SmallBoard>, winners: seq<Option<Winner>>,
                             bonus: seq<seq<real>>, playable: seq<nat>, frontier: int,
                             best: Option<Move>)
    requires WellFormed(boards, winners) && BonusTable(bonus)
  {
    && (best.None? ==>
          forall b: nat, i: nat :: IsCandidate(boards, playable, b, i) ==> frontier <= ScanKey(b, i))
    && (best.Some? ==>
          var m := best.value;
          && IsCandidate(boards, playable, m.board, m.cell) && ScanKey(m.board, m.cell) < frontier
          && forall b: nat, i: nat :: IsCandidate(boards, playable, b, i) && ScanKey(b, i) < frontier ==>
               && Score(boards, winners, bonus, b, i) <= Score(boards, winners, bonus, m.board, m.cell)
               && (ScanKey(b, i) < ScanKey(m.board, m.cell) ==>
                     Score(boards, winners, bonus, b, i) < Score(boards, winners, bonus, m.board, m.cell)))
  }

  /** What makeAIMove chooses: no move when no playable board has an empty
      cell; otherwise a candidate with the greatest score, the first such in
      scan order. */
  ghost predicate IsFirstBest(boards: seq<SmallBoard>, winners: seq<Option<Winner>>,
                              activeBoard: Option<nat>, bonus: seq<seq<real>>, best: Option<Move>)
    requires WellFormed(boards, winners) && BonusTable(bonus)
  {
    BestBefore(boards, winners, bonus, PlayableBoards(activeBoard, winners), 81, best)
  }

  /** In an increasing sequence of board indices, no element lies strictly
      between two neighbours. */
  lemma NoIndexBetween(playable: seq<nat>, k: nat, b: nat)
    requires forall i, j :: 0 <= i < j < |playable| ==> playable[i] < playable[j]
    requires k < |playable| && b in playable
    ensures b <= playable[k] || (k + 1 < |playable| && playable[k + 1] <= b)
    ensures playable[0] <= b
  {
    var j :| 0 <= j < |playable| && playable[j] == b;
    if j > k + 1 {
      assert playable[k + 1] < playable[j];
    }
    if j > 0 {
      assert playable[0] < playable[j];
    }
  }

  /** Distinct cells have distinct scan positions. */
  lemma ScanKeyInjective(b: nat, i: nat, b': nat, i': nat)
    requires i < 9 && i' < 9 && ScanKey(b, i) == ScanKey(b', i')
    ensures b == b' && i == i'
  {
  }

  /** One step of the scan: looking at cell i of board b moves the frontier
      past it, and the best so far is replaced only by a strictly greater
      score. */
  lemma {:induction false} ScanStep(boards: seq<SmallBoard>, winners: seq<Option<Winner>>,
                                    bonus: seq<seq<real>>, playable: seq<nat>, b: nat, i: nat,
                                    best: Option<Move>)
    requires WellFormed(boards, winners) && BonusTable(bonus) && b < 9 && i < 9
    requires BestBefore(boards, winners, bonus, playable, ScanKey(b, i), best)
    ensures var next :=
              if IsCandidate(boards, playable, b, i)
                 && (best.None? || Score(boards, winners, bonus, b, i)
                                   > Score(boards, winners, bonus, best.value.board, best.value.cell))
              then Some(Move(b, i)) else best;
            BestBefore(boards, winners, bonus, playable, ScanKey(b, i + 1), next)
  {
    forall b': nat, i': nat | IsCandidate(boards, playable, b', i') && ScanKey(b', i') == ScanKey(b, i)
      ensures b' == b && i' == i
    {
      ScanKeyInjective(b, i, b', i');
    }
  }

  /** The body of makeAIMove's inner loop up to the random bonus: play O at
      cell i of board b on copies of the boards and outcomes and score the
      result. */
  method ScoreMove(boards: seq<SmallBoard>, winners: seq<Option<Winner>>, b: nat, i: nat)
    returns (score: int)
    requires WellFormed(boards, winners) && b < 9 && i < 9
    ensures score == MoveScore(boards, winners, b, i)
  {
    var tb := boards[b := boards[b][i := Some(O)]];
    assert tb == Simulated(boards, b, i);
    score := 0;
    var sw := CheckWinnerWithLine(tb[b]);
    if sw.Some? {
      score := score + 100;
    }
    var tw := winners;
    if sw.Some? {
      tw := tw[b := sw];
    }
    assert tw == SimulatedWinners(boards, winners, b, i);
    var bw := CheckBigWinnerWithLine(tw);
    if bw.Some? {
      score := score + 1000;
    }
    var mine := EvaluateSmall(tb[b], O);
    var theirs := EvaluateSmall(tb[b], X);
    score := score + mine - theirs;
    if i == 4 {
      score := score + 3;
    }
    if i in [0, 2, 6, 8] {
      score := score + 2;
    }
    var threat := OpponentCanScoreNext(tb, tw, i);
    if threat {
      score := score - 50;
    }
  }

  /** makeAIMove's inner loop over the cells of board b: scores every empty
      cell and keeps the first strictly greatest score seen so far. */
  method ScanBoard(boards: seq<SmallBoard>, winners: seq<Option<Winner>>, bonus: seq<seq<real>>,
                   early: bool, playable: seq<nat>, b: nat, best0: Option<Move>, bestScore0: real)
    returns (best: Option<Move>, bestScore: real)
    requires WellFormed(boards, winners) && BonusTable(bonus) && b < 9 && b in playable
    requires early == (MarkCount(boards) < 6)
    requires BestBefore(boards, winners, bonus, playable, ScanKey(b, 0), best0)
    requires best0.Some? ==> bestScore0 == Score(boards, winners, bonus, best0.value.board, best0.value.cell)
    ensures BestBefore(boards, winners, bonus, playable, ScanKey(b, 9), best)
    ensures best.Some? ==> bestScore == Score(boards, winners, bonus, best.value.board, best.value.cell)
  {
    best, bestScore := best0, bestScore0;
    for i := 0 to 9
      invariant BestBefore(boards, winners, bonus, playable, ScanKey(b, i), best)
      invariant best.Some? ==> bestScore == Score(boards, winners, bonus, best.value.board, best.value.cell)
    {
      ScanStep(boards, winners, bonus, playable, b, i, best);
      if boards[b][i].Some? {
        continue;
      }
      var score := ScoreMove(boards, winners, b, i);
      var total := score as real;
      if early {
        total := total + bonus[b][i];
      }
      assert total == Score(boards, winners, bonus, b, i);
      if best.None? || total > bestScore {
        bestScore := total;
        best := Some(Move(b, i));
      }
    }
  }

  /** Where the scan stands before the k-th playable board: its first cell,
      or past the whole board when every playable board is done. */
  function Frontier(playable: seq<nat>, k: nat): nat
    requires k <= |playable|
  {
    if k < |playable| then ScanKey(playable[k], 0) else 81
  }

  /** Before the scan starts no candidate lies behind the frontier. */
  lemma ScanStarts(boards: seq<SmallBoard>, winners: seq<Option<Winner>>, bonus: seq<seq<real>>,
                   playable: seq<nat>)
    requires WellFormed(boards, winners) && BonusTable(bonus)
    requires forall i, j :: 0 <= i < j < |playable| ==> playable[i] < playable[j]
    ensures BestBefore(boards, winners, bonus, playable, Frontier(playable, 0), None)
  {
    if |playable| > 0 {
      forall b: nat, i: nat | IsCandidate(boards, playable, b, i)
        ensures Frontier(playable, 0) <= ScanKey(b, i)
      {
        NoIndexBetween(playable, 0, b);
      }
    }
  }

  /** Once every cell of the k-th playable board is scanned, the frontier
      moves on to the next playable board: no candidate lies in between. */
  lemma BoardScanned(boards: seq<SmallBoard>, winners: seq<Option<Winner>>, bonus: seq<seq<real>>,
                     playable: seq<nat>, k: nat, best: Option<Move>)
    requires WellFormed(boards, winners) && BonusTable(bonus)
    requires forall i, j :: 0 <= i < j < |playable| ==> playable[i] < playable[j]
    requires k < |playable|
    requires BestBefore(boards, winners, bonus, playable, ScanKey(playable[k], 9), best)
    ensures BestBefore(boards, winners, bonus, playable, Frontier(playable, k + 1), best)
  {
    forall b: nat, i: nat | IsCandidate(boards, playable, b, i) && ScanKey(b, i) < Frontier(playable, k + 1)
      ensures ScanKey(b, i) < ScanKey(playable[k], 9)
    {
      NoIndexBetween(playable, k, b);
    }
  }

  /** The scan of makeAIMove: every empty cell of every playable board, in
      index order, is scored on a simulated copy, and a strictly greater score
      replaces the best so far. */
  method SelectMove(boards: seq<SmallBoard>, winners: seq<Option<Winner>>,
                    activeBoard: Option<nat>, bonus: seq<seq<real>>)
    returns (best: Option<Move>)
    requires WellFormed(boards, winners) && BonusTable(bonus)
    requires activeBoard.Some? ==> activeBoard.value < 9
    ensures IsFirstBest(boards, winners, activeBoard, bonus, best)
  {
    var early := MarkCount(boards) < 6;
    var playable := PlayableBoards(activeBoard, winners);
    var bestScore: real := 0.0;
    best := None;
    ScanStarts(boards, winners, bonus, playable);
    for k := 0 to |playable|
      invariant BestBefore(boards, winners, bonus, playable, Frontier(playable, k), best)
      invariant best.Some? ==> bestScore == Score(boards, winners, bonus, best.value.board, best.value.cell)
    {
      var b := playable[k];
      assert b < 9;
      best, bestScore := ScanBoard(boards, winners, bonus, early, playable, b, best, bestScore);
      BoardScanned(boards, winners, bonus, playable, k, best);
    }
  }

  /** Score bounds: a move the simulation scores as a game win gets at least
      910 (1000, less at most 40 of pressure and 50 of threat); any other
      scores at most 143 before a bonus below 5, so below 148. */
  lemma ScoreBounds(boards: seq<SmallBoard>, winners: seq<Option<Winner>>, bonus: seq<seq<real>>,
                    b: nat, i: nat)
    requires WellFormed(boards, winners) && BonusTable(bonus) && b < 9 && i < 9
    ensures MetaWins(boards, winners, b, i) ==> Score(boards, winners, bonus, b, i) >= 910.0
    ensures !MetaWins(boards, winners, b, i) ==> Score(boards, winners, bonus, b, i) < 148.0
  {
    var tb := Simulated(boards, b, i);
    PressureBounds(tb[b], O, |WinningLines|);
    PressureBounds(tb[b], X, |WinningLines|);
  }

  /** The AI never misses a move its simulation scores as a game win:
      whenever a candidate is one, the chosen move is one too. */
  lemma ChoiceTakesMetaWin(boards: seq<SmallBoard>, winners: seq<Option<Winner>>,
                           activeBoard: Option<nat>, bonus: seq<seq<real>>,
                           best: Option<Move>, b: nat, i: nat)
    requires WellFormed(boards, winners) && BonusTable(bonus) && b < 9 && i < 9
    requires activeBoard.Some? ==> activeBoard.value < 9
    requires IsFirstBest(boards, winners, activeBoard, bonus, best)
    requires IsCandidate(boards, PlayableBoards(activeBoard, winners), b, i)
    requires MetaWins(boards, winners, b, i)
    ensures best.Some? && MetaWins(boards, winners, best.value.board, best.value.cell)
  {
    assert ScanKey(b, i) < 81;
    var m := best.value;
    assert m.board < 9 && m.cell < 9;
    ScoreBounds(boards, winners, bonus, b, i);
    ScoreBounds(boards, winners, bonus, m.board, m.cell);
  }

  /** The AI never misses a move that really wins the game: when O is to
      move and some accepted move makes handleMove record a game winner,
      the chosen move does too. */
  lemma ChoiceTakesRealWin(s: GameState, bonus: seq<seq<real>>, best: Option<Move>, b: nat, i: nat)
    requires Inv(s) && BonusTable(bonus) && s.currentPlayer == O && b < 9 && i < 9
    requires IsFirstBest(s.boards, s.winners, s.activeBoard, bonus, best)
    requires Accepts(s, b, i) && AfterMove(s, b, i).bigWinner.Some?
    ensures best.Some? && best.value.board < 9 && best.value.cell < 9
    ensures AfterMove(s, best.value.board, best.value.cell).bigWinner.Some?
  {
    assert s.winners[b].None?;
    SimulationMatchesMove(s, b, i);
    assert IsCandidate(s.boards, PlayableBoards(s.activeBoard, s.winners), b, i);
    ChoiceTakesMetaWin(s.boards, s.winners, s.activeBoard, bonus, best, b, i);
    ActiveBoardHasMove(s, bonus, best);
    var m := best.value;
    assert s.winners[m.board].None?;
    SimulationMatchesMove(s, m.board, m.cell);
  }

  /** While the game goes on and a board is active, the AI has a move there,
      and any move it picks is one handleMove accepts. */
  lemma ActiveBoardHasMove(s: GameState, bonus: seq<seq<real>>, best: Option<Move>)
    requires Inv(s) && BonusTable(bonus) && s.bigWinner.None?
    requires IsFirstBest(s.boards, s.winners, s.activeBoard, bonus, best)
    ensures s.activeBoard.Some? ==> best.Some?
    ensures best.Some? ==> best.value.board < 9 && best.value.cell < 9 &&
                           Accepts(s, best.value.board, best.value.cell)
  {
    if s.activeBoard.Some? {
      var a := s.activeBoard.value;
      var i :| 0 <= i < 9 && s.boards[a][i].None?;
      assert IsCandidate(s.boards, PlayableBoards(s.activeBoard, s.winners), a, i);
    }
  }

  /* ---------------- The component's state ---------------- */

  /** The state hooks of the App component. */
  class Game {
    var boards: seq<SmallBoard>
    var winners: seq<Option<Winner>>
    var currentPlayer: Player
    var activeBoard: Option<nat>
    var bigWinner: Option<Winner>
    var history: seq<Snapshot>
    var baseTime: int
    var timeLeft: int
    var timerRunning: bool

    ghost function State(): GameState
      reads this
    {
      GameState(boards, winners, currentPlayer, activeBoard, bigWinner, history,
                baseTime, timeLeft, timerRunning)
    }

    ghost predicate Valid()
      reads this
    {
      Inv(State())
    }

    constructor ()
      ensures Valid() && State() == Initial()
    {
      boards := EmptyBoards();
      winners := NoWinners();
      currentPlayer := X;
      activeBoard := None;
      bigWinner := None;
      history := [];
      baseTime := 60;
      timeLeft := 60;
      timerRunning := false;
      new;
      ResetEstablishesInv(State());
    }

    /** resetTimer: stop the countdown and restart it from the base time. */
    method ResetTimer()
      modifies this
      ensures State() == old(State()).(timerRunning := false, timeLeft := old(baseTime))
    {
      timerRunning := false;
      timeLeft := baseTime;
    }

    /** updateBaseTime */
    method UpdateBaseTime(delta: int)
      requires Valid()
      modifies this
      ensures Valid() && State() == AfterBaseTimeChange(old(State()), delta)
    {
      var next := if baseTime + delta > 30 then baseTime + delta else 30;
      baseTime := next;
      timeLeft := next;
    }

    /** resetGame */
    method ResetGame()
      requires Valid()
      modifies this
      ensures Valid() && State() == AfterReset(old(State()))
    {
      boards := EmptyBoards();
      winners := NoWinners();
      currentPlayer := X;
      activeBoard := None;
      bigWinner := None;
      history := [];
      ResetTimer();
      ResetEstablishesInv(old(State()));
    }

    /** undoMove */
    method UndoMove()
      requires Valid()
      modifies this
      ensures Valid() && State() == AfterUndo(old(State()))
    {
      UndoPreservesInv(State());
      if bigWinner.Some? {
        return;
      }
      if history == [] {
        return;
      }
      var last := history[|history| - 1];
      boards := last.boards;
      winners := last.winners;
      currentPlayer := last.player;
      activeBoard := last.activeBoard;
      history := history[..|history| - 1];
      ResetTimer();
    }

    /** handleMove(boardIndex, cellIndex): a move is ignored once the game is
        won, outside the active board, or on a set cell. */
    method HandleMove(boardIndex: nat, cellIndex: nat)
      requires Valid() && boardIndex < 9 && cellIndex < 9
      modifies this
      ensures State() == AfterMove(old(State()), boardIndex, cellIndex)
      ensures Valid()
    {
      if bigWinner.Some? {
        return;
      }
      if activeBoard.Some? && activeBoard.value != boardIndex {
        return;
      }
      if boards[boardIndex][cellIndex].Some? {
        return;
      }
      MovePreservesInv(State(), boardIndex, cellIndex);
      Play(boardIndex, cellIndex);
    }

    /** The accepted path of handleMove: record the snapshot, set the cell,
        record a new sub-board outcome, check the meta-board and, unless the
        game is won, route the opponent and pass the turn. */
    method Play(boardIndex: nat, cellIndex: nat)
      requires WellFormed(boards, winners) && boardIndex < 9 && cellIndex < 9
      requires Accepts(State(), boardIndex, cellIndex)
      modifies this
      ensures State() == AfterMove(old(State()), boardIndex, cellIndex)
    {
      ghost var after := AfterMove(State(), boardIndex, cellIndex);
      history := history + [Snapshot(boards, winners, currentPlayer, activeBoard)];
      var newBoards := boards[boardIndex := boards[boardIndex][cellIndex := Some(currentPlayer)]];
      var newWinners := winners;
      if newWinners[boardIndex].None? {
        var sw := CheckWinnerWithLine(newBoards[boardIndex]);
        if sw.Some? {
          newWinners := newWinners[boardIndex := sw];
        }
      }
      assert newBoards == after.boards && newWinners == after.winners;
      var bw := CheckBigWinnerWithLine(newWinners);
      if bw.Some? {
        bigWinner := bw;
      }
      boards, winners := newBoards, newWinners;
      if bw.None? {
        activeBoard := if Full(newBoards[cellIndex]) then None else Some(cellIndex);
        currentPlayer := Other(currentPlayer);
        ResetTimer();
      }
      assert after == GameState(boards, winners, currentPlayer, activeBoard, bigWinner, history,
                                baseTime, timeLeft, timerRunning);
    }

    /** makeAIMove: choose the AI's move and play it through handleMove. The
        random bonus of each candidate is taken from `bonus`. */
    method MakeAIMove(bonus: seq<seq<real>>) returns (choice: Option<Move>)
      requires Valid() && BonusTable(bonus)
      modifies this
      ensures Valid()
      ensures IsFirstBest(old(boards), old(winners), old(activeBoard), bonus, choice)
      ensures choice.None? ==> State() == old(State())
      ensures choice.Some? ==> choice.value.board < 9 && choice.value.cell < 9 &&
                               State() == AfterMove(old(State()), choice.value.board, choice.value.cell)
    {
      choice := SelectMove(boards, winners, activeBoard, bonus);
      if choice.Some? {
        assert IsCandidate(boards, PlayableBoards(activeBoard, winners), choice.value.board, choice.value.cell);
        HandleMove(choice.value.board, choice.value.cell);
      }
    }
  }
}
