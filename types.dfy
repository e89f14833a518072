/** The value types shared by the rules engine, the AI and the app state
    (src/helpers/types.ts). */
module Types {

  datatype Option<+T> = None | Some(value: T)

  /** A mark on the board. The source's `Player` type also admits `null`,
      which is what an empty cell holds; here that is `None` in `Cell`. */
  datatype Player = X | O

  /** One cell of a 3×3 sub-board: empty (`null`) or holding a mark. */
  type Cell = Option<Player>

  /** A sub-board: nine cells, row-major (SmallBoardState). */
  type SmallBoard = seq<Cell>

  /** Three cell indices forming a candidate winning line. */
  datatype Line = Line(a: nat, b: nat, c: nat)

  /** A line whose three indices address cells of a 3×3 grid. */
  type GridLine = l: Line | l.a < 9 && l.b < 9 && l.c < 9 witness Line(0, 1, 2)

  /** The outcome of a decided board: who won and along which line
      (SmallWinner, and the non-null case of BigWinner). */
  datatype Winner = Winner(player: Player, line: GridLine)

  /** The player who moves after `p`. */
  function Other(p: Player): (q: Player)
    ensures q != p
  {
    if p == X then O else X
  }
}
