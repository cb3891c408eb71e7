/** The vocabulary of the game: colours, kinds, life-cycle states, cells and pieces. */
module Pieces {

  datatype Option<+T> = None | Some(value: T)

  datatype Color = White | Black

  function Opponent(c: Color): Color {
    if c == White then Black else White
  }

  // PieceKind::Count, the size marker of the C++ enumeration, is never given to a piece.
  datatype Kind = King | Queen | Rook | Bishop | Knight | Pawn

  /** Idle: on the grid at `cell`. Moving: off the grid, in a pending move or a jump. Captured: out of play. */
  datatype Status = Idle | Moving | Captured

  datatype Cell = Cell(row: int, col: int)

  /** Ids start at 1; 0 is the invalid id. */
  type Id = int

  datatype Piece = Piece(id: Id, color: Color, kind: Kind, cell: Cell, state: Status)

  function Abs(x: int): nat {
    if x < 0 then -x else x
  }

  function Max(x: int, y: int): int {
    if x < y then y else x
  }
}
