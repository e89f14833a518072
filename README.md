# Ultimate Tic-Tac-Toe: rules engine, AI heuristics and game state machine

This Dafny project models the core of an Ultimate Tic-Tac-Toe app. The big
board is a 3×3 grid of sub-boards, and each sub-board is a 3×3 grid of cells.
A player who completes a line on a sub-board wins that sub-board. A player
whose won sub-boards form a line on the big board wins the game. The cell a
player marks decides the sub-board where the opponent must play next.

The model has four modules:

- `Types` (`types.dfy`) holds the datatypes of `src/helpers/types.ts`.
  - A cell is `Option<Player>`; `None` is the source's `null`.
  - A sub-board is a sequence of nine cells.
  - A `Winner` pairs a player with a line of grid indices; the game invariant keeps it one of the winning lines.
- `GameLogic` (`gamelogic.dfy`) holds the win detection of
  `src/helpers/gameLogic.ts`.
  - The scan over the eight winning lines is a recursive function.
  - `CheckWinnerWithLine` and `CheckBigWinnerWithLine` are functions.
  - Their lemmas give the first-match scan order, the "returns None exactly
    when no line is completed" equivalence, and the projection of the
    meta-board onto sub-board winners.
- `Ai` (`ai.dfy`) holds the heuristics of `src/ai/ai.ts`.
  - `evaluateSmall` and `opponentCanScoreNext` become methods with loops.
  - Each method is proved against a specification function: the
    line-pressure sum `Pressure` and the predicate `OpponentThreat`.
  - Lemmas cover those functions: bounds, the empty board, the full board,
    symmetry between the players, and "a threat is two in a line".
- `App` (`app.dfy`) holds the state machine and the AI's move choice of
  `App.tsx`.
  - The hook state becomes the class `Game`. Its methods `HandleMove`,
    `UndoMove`, `ResetGame`, `UpdateBaseTime`, `ResetTimer` and `MakeAIMove`
    update the fields in place.
  - Each method's new state is given by a function on `GameState` values:
    `AfterMove`, `AfterUndo`, `AfterReset` or `AfterBaseTimeChange`.
  - The game's properties are lemmas about those functions. Examples: one
    cell changes per move; outcomes are never overwritten; routing; undo
    inverts a move; a won game is frozen; the invariant is preserved.
  - The AI's scan is the method `SelectMove`, with `ScanBoard` as its inner
    loop and `ScoreMove` as the loop body. It is proved to pick the first
    candidate, in board-then-cell order, with the strictly greatest score.

The source's quirks are kept:

- A move into an already-won sub-board is accepted.
- Routing checks only whether the destination sub-board is full, so a won
  but not full sub-board can become the active board.
- A drawn sub-board (full, with no winner) stays among the playable boards,
  because `App.tsx:149` filters only won sub-boards. It yields no
  candidates.
- The AI simulates `O` for itself and `X` for the opponent, whoever is to
  move.
- The AI's simulation of a move (App.tsx:167-173) writes the simulated
  sub-board winner over an outcome already recorded there. `handleMove`
  never overwrites a recorded outcome (App.tsx:123). So on an already-won
  sub-board, the simulation can credit a sub-board win or a game win that
  the move does not give (`App.SimulationCanDisagree`). Where no outcome is
  recorded and O is to move, the simulation agrees with the move
  (`App.SimulationMatchesMove`).
- The random early-game bonus is an input: a 9×9 table of reals in [0, 5).
  It applies only while fewer than 6 marks are on the board, that is,
  during the first six moves (`App.MoveAddsOneMark`).

## Model

| member | source | states |
|---|---|---|
| Types.Other | App.tsx:139 | the other player is never the player itself |
| GameLogic.EmptySmallBoard | src/helpers/gameLogic.ts:3-4 | a fresh sub-board has exactly nine cells, all empty |
| GameLogic.WinningLinesAreCollinearTriples | src/helpers/gameLogic.ts:6-10 | an increasing triple of cells 0..8 is one of the eight winning lines exactly when its cells are equally spaced on one straight line of the grid (rows, columns, both diagonals and nothing else) |
| GameLogic.CollinearTriplesAreWinningLines | src/helpers/gameLogic.ts:6-10 | every equally spaced straight triple is in the line table: a row, a column or a diagonal |
| GameLogic.WinningLinesAreCollinear | src/helpers/gameLogic.ts:6-10 | every line in the table is an equally spaced straight triple |
| GameLogic.ScanLines | src/helpers/gameLogic.ts:15-21 | the early-return loop over the line table from line k (defined by its body; its contract is ScanLinesFindsFirst) |
| GameLogic.ScanLinesFindsFirst | src/helpers/gameLogic.ts:15-21 | the scan from line k finds nothing exactly when no line from k on is completed; otherwise it returns the first completed line, held entirely by the returned player |
| GameLogic.CheckWinnerWithLine | src/helpers/gameLogic.ts:12-22 | the scan from line 0 (defined by its body; its contract is CheckWinnerWithLineSpec) |
| GameLogic.CheckWinnerWithLineSpec | src/helpers/gameLogic.ts:12-22 | checkWinnerWithLine returns null exactly when no winning line has three equal set cells; otherwise its line is a winning line whose three cells all hold its player, and no earlier line is completed |
| GameLogic.TopRowExample | src/helpers/gameLogic.ts:15-19 | `[X,X,X,O,O,_,_,_,_]` is won by X along line [0,1,2], the first line in scan order |
| GameLogic.EmptyBoardHasNoWinner | src/helpers/gameLogic.ts:12-22 | an empty sub-board has no winner |
| GameLogic.Project | src/helpers/gameLogic.ts:27 | the meta-board has one cell per sub-board, holding that sub-board winner's player, or empty when it has none |
| GameLogic.CheckBigWinnerWithLine | src/helpers/gameLogic.ts:24-35 | the scan from line 0 over the projected meta-board (defined by its body; its contract is CheckBigWinnerWithLineSpec) |
| GameLogic.CheckBigWinnerWithLineSpec | src/helpers/gameLogic.ts:24-35 | checkBigWinnerWithLine equals checkWinnerWithLine on the projected meta-board; it returns null exactly when no winning line has three sub-boards won by one player; otherwise its line is such a line |
| GameLogic.MetaDiagonalExample | src/helpers/gameLogic.ts:24-35 | sub-boards 0, 4 and 8 won by O, whatever their lines, give O the game along [0,4,8] |
| Ai.CountOf | src/ai/ai.ts:8 | the number of cells of a line holding the player (defined by its body; no contract) |
| Ai.LineScore | src/ai/ai.ts:8-9 | a line adds at most 5, and adds something only if it has an empty cell and one or two marks of the player |
| Ai.PressureBounds | src/ai/ai.ts:4-12 | the pressure over the first n lines lies between 0 and 5·n |
| Ai.EvaluateSmall | src/ai/ai.ts:4-12 | the loop's score equals the pressure sum over the eight lines (5 for two marks and an empty cell, 1 for one mark and an empty cell) and lies between 0 and 40 |
| Ai.PressureWithoutMarks | src/ai/ai.ts:8-9 | a player with no mark on the sub-board has pressure 0 |
| Ai.PressureOfEmptyBoard | src/ai/ai.ts:8-9 | the empty sub-board scores 0 for either player |
| Ai.PressureOfFullBoard | src/ai/ai.ts:8-9 | a full sub-board scores 0: lines without an empty cell add nothing |
| Ai.Mirror | src/ai/ai.ts:4-12 | swapping X and O keeps empty cells empty and turns every mark into the other player's |
| Ai.PressureMirrored | src/ai/ai.ts:4-12 | the pressure of p equals the pressure of the other player on the board with the marks swapped |
| Ai.OpponentCanScoreNext | src/ai/ai.ts:14-27 | returns true exactly when the target sub-board is undecided and some empty cell, set to X, completes a line; false when the sub-board is decided, and false when it is full |
| Ai.CompletingMoveScoresFive | src/ai/ai.ts:4-27 | on a sub-board with no completed line, a move that completes one lies on a line that scores 5 for the mover, and the cell played is on that line |
| Ai.FiveScoringLineIsCompletable | src/ai/ai.ts:4-27 | a line that scores 5 for p has an empty cell of its own whose playing gives p the whole line, and that move makes the scan find a completed line |
| Ai.ThreatIsTwoInALine | src/ai/ai.ts:4-27 | on a sub-board with no completed line, p can complete a line in one move exactly when some line scores 5 for p, so the threat check and the pressure score agree |
| App.EmptyBoards | App.tsx:30 | the initial big board is nine empty sub-boards |
| App.NoWinners | App.tsx:31 | the initial outcomes are nine empty slots |
| App.Initial | App.tsx:29-47 | the starting state has a base time of 60 seconds and is the state resetGame produces from it |
| App.Accepts | App.tsx:108-110 | handleMove's three guards: the game is not won, the board is the active one or none is active, and the cell is empty (a predicate; no contract) |
| App.AfterMove | App.tsx:107-142 | a rejected move changes nothing; an accepted one keeps the board well formed and the base time |
| App.MoveChangesOneCell | App.tsx:118-120 | an accepted move sets cell (boardIndex, cellIndex) to the current player and leaves every other cell of every sub-board unchanged |
| App.MoveKeepsOutcomes | App.tsx:122-129 | a recorded sub-board winner is never overwritten; only boardIndex can gain one, namely the winner of its new cells; the big winner is that of the new outcomes |
| App.MoveRecordsHistory | App.tsx:112-116 | an accepted move pushes exactly one snapshot: the boards, outcomes, player and active board before it |
| App.MoveRoutesOpponent | App.tsx:133-141 | without a meta win the player flips, the active board becomes cellIndex or none if that sub-board is full, and the timer resets; after a meta win player, active board and timer are unchanged |
| App.AfterUndo | App.tsx:92-102 | undo does nothing when the game is won or the history is empty; otherwise it restores the last snapshot, drops it from the history and resets the timer |
| App.AfterReset | App.tsx:80-90 | reset gives empty boards and outcomes, X to move, no active board, no big winner, empty history and the timer at the base time |
| App.AfterBaseTimeChange | App.tsx:64-70 | the new base time is the larger of 30 and the old one plus delta; the countdown restarts from it; nothing else changes |
| App.MoveKeepsConsistent | App.tsx:122-126 | after any accepted move every recorded outcome still agrees with its sub-board's cells, including a sub-board won earlier and played into again |
| App.MovePreservesInv | App.tsx:107-142 | handleMove keeps the invariant: consistent outcomes, the big winner computed from them, an active board that is not full while the game goes on, base time at least 30, valid history |
| App.UndoPreservesInv | App.tsx:92-102 | undoMove keeps the invariant |
| App.ResetEstablishesInv | App.tsx:80-90 | the initial state and the state after resetGame satisfy the invariant |
| App.UndoAfterMove | App.tsx:92-116 | undoing an accepted move that does not win the game restores the state before it, with the timer reset |
| App.WonGameIsFrozen | App.tsx:92-110 | once the game is won, no move and no undo changes the state |
| App.UnwonFrom | App.tsx:149 | the indices from k on whose outcome is null, all of them, in increasing order |
| App.PlayableBoards | App.tsx:147-150 | getPlayableBoards is [activeBoard] when one is set; otherwise it holds exactly the undecided sub-boards, in increasing order |
| App.MarksIn | App.tsx:156 | the marks of a sub-board are its cells that are not empty |
| App.MarkCount | App.tsx:156 | the marks summed sub-board by sub-board (defined by its body; its contract is MarkCountIsFlatCount) |
| App.MarkCountIsFlatCount | App.tsx:156 | the sum over sub-boards equals the number of cells that are not empty in the flattened board (`flat().filter(c => c).length`) |
| App.MoveAddsOneMark | App.tsx:118-120 | every accepted move adds exactly one mark, so the mark count is the number of moves played and `early` (App.tsx:157) covers the first six moves |
| App.Simulated | App.tsx:163-164 | the simulated copy is still nine sub-boards of nine cells, with O in cell i of sub-board b and every other cell unchanged |
| App.SimulatedWinners | App.tsx:170-171 | the simulated outcomes still have nine slots |
| App.MoveScore | App.tsx:166-182 | the deterministic part of a candidate's score, term by term (defined by its body; its contract is ScoreMove's and ScoreBounds') |
| App.Score | App.tsx:166-183 | MoveScore plus the candidate's bonus while fewer than 6 marks are on the board (defined by its body) |
| App.SimulationMatchesMove | App.tsx:123-128 | with O to move and no outcome recorded for the sub-board, the simulation credits a sub-board win exactly when handleMove records one, and a game win exactly when handleMove sets the big winner |
| App.DisagreementStateIsValid | App.tsx:29-47 | the state used to show the simulation quirk (O to move, sent to sub-board 4, which X has won, while O holds sub-boards 0 and 8) satisfies the game invariant |
| App.SimulationCanDisagree | App.tsx:167-173 | in that state O at cell 6 of sub-board 4 is accepted, and the simulation scores it as a game win, but handleMove leaves the game undecided, because the simulation overwrites X's recorded win of the sub-board |
| App.ScoreMove | App.tsx:163-182 | the score of one candidate is 100 when the simulated sub-board has a completed line, 1000 when the simulated outcomes win the game, O's pressure minus X's, 3 for the centre, 2 for a corner, and 50 off when X could then win the sub-board it is sent to |
| App.ScanStep | App.tsx:185-188 | one cell of the scan moves the frontier past it, and only a strictly greater score replaces the best so far |
| App.ScanStarts | App.tsx:153-159 | before the scan, with no best move yet, no candidate lies behind the frontier |
| App.BoardScanned | App.tsx:159-190 | after the cells of one playable board, the frontier moves to the next playable board: no candidate lies in between |
| App.ScanBoard | App.tsx:160-189 | the inner loop over cells 0..8 of board b keeps the first strictly greatest candidate among those scanned |
| App.SelectMove | App.tsx:152-190 | the choice is none when no playable board has an empty cell; otherwise a candidate with the greatest score, the first such in board-then-cell order |
| App.ScoreBounds | App.tsx:166-183 | a candidate that the AI's simulation scores as a game win scores at least 910; any other scores below 148 |
| App.ChoiceTakesMetaWin | App.tsx:152-192 | whenever the AI's simulation scores some candidate as a game win, the chosen move is also scored as a game win |
| App.ChoiceTakesRealWin | App.tsx:107-192 | with O to move, whenever some accepted move makes handleMove record a game winner, the AI chooses a move for which handleMove records one as well |
| App.ActiveBoardHasMove | App.tsx:147-192 | while the game goes on with an active board, the AI finds a move, and any move it picks is one handleMove accepts |
| App.Game.constructor | App.tsx:29-47 | the initial state: empty boards, X to move, no active board, no winner, empty history, 60 seconds |
| App.Game.ResetTimer | App.tsx:72-75 | stops the timer and sets the time left to the base time, nothing else |
| App.Game.UpdateBaseTime | App.tsx:64-70 | the new state is AfterBaseTimeChange of the old one, and the invariant holds |
| App.Game.ResetGame | App.tsx:80-90 | the new state is AfterReset of the old one, and the invariant holds |
| App.Game.UndoMove | App.tsx:92-102 | the new state is AfterUndo of the old one, and the invariant holds |
| App.Game.HandleMove | App.tsx:107-142 | the three guards reject moves; the new state is AfterMove of the old one, and the invariant holds |
| App.Game.Play | App.tsx:112-141 | the accepted path of handleMove yields AfterMove of the old state |
| App.Game.MakeAIMove | App.tsx:152-193 | the choice is the first best candidate of the old state; if there is one it is played through handleMove, otherwise nothing changes; the invariant holds |

## Left out

- That a sub-board win outscores every move completing no line is not proved. The margin between the two depends on exact pressure values, so a proof would need a case analysis over sub-board positions. `App.ScoreBounds` proves only the coarser separation between simulated game wins and all other moves.
- Rendering is not modelled: the JSX, `renderLine`, `src/components/SmallBoard.tsx` and `src/styles/styles.ts`. They only draw the state.
- The timer countdown effect (App.tsx:49-62) and the start-timer button are not modelled. Both are asynchronous `setTimeout` scheduling. `timerRunning` and `timeLeft` are kept as fields, and the model covers what `resetTimer` does to them.
- The game mode, `isAITurn` and the 400 ms delayed AI move (App.tsx:38-40, 195-200) are left out. `MakeAIMove` is the handler that the effect would call.
- `Math.random() * 5` is replaced by an input table `bonus` of reals in [0, 5), one entry per candidate cell.
- The `JSON.parse(JSON.stringify(...))` deep copies become value copies. Sequences are values in Dafny, so "the inputs are left unchanged" holds by construction for `CheckWinnerWithLine`, `CheckBigWinnerWithLine`, `EvaluateSmall` and `OpponentCanScoreNext`.
- React's batched state setters are modelled as assignments of the final values. Every read in a handler uses the values from before the handler ran, so the result is the same.
- The root `types.ts`, with its "DRAW" cell, is not part of this model because the app does not use it. The `null` member of `Player` becomes the empty cell `None`.
- `SmallWinner.line` is declared nullable in the source, but the win checks always return a line, so the model's `Winner` always has one.
- JavaScript numbers are doubles. `baseTime`, `timeLeft` and the deterministic part of a score are modelled as unbounded integers, because their small values never reach the rounding range. Scores with the bonus are reals.
