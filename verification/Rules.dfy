/** Piece geometry and legality, at request time and again at arrival (move_validator, piece_rules, game_rules). */
module Rules {
  import opened Pieces
  import opened Boards
  import opened Paths

  // Timing of the standard rule set, in milliseconds.
  const MOVE_MS: int := 1000
  const JUMP_MS: int := 1000
  const LONG_REST_MS: int := 4500
  const SHORT_REST_MS: int := 2500

  /** Reference form of is_path_clear: nothing stands strictly between the two cells. */
  ghost predicate PathClear(b: Board, s: Cell, e: Cell) {
    forall p :: Between(p, s, e) ==> IdAt(b, p).None?
  }

  ghost predicate RookMove(b: Board, s: Cell, e: Cell) {
    (s.row == e.row || s.col == e.col) && PathClear(b, s, e)
  }

  ghost predicate BishopMove(b: Board, s: Cell, e: Cell) {
    Abs(e.row - s.row) == Abs(e.col - s.col) && PathClear(b, s, e)
  }

  predicate KingMove(s: Cell, e: Cell) {
    Abs(e.row - s.row) <= 1 && Abs(e.col - s.col) <= 1 && s != e
  }

  predicate KnightMove(s: Cell, e: Cell) {
    var adr, adc := Abs(e.row - s.row), Abs(e.col - s.col);
    (adr == 2 && adc == 1) || (adr == 1 && adc == 2)
  }

  predicate PawnStartRow(b: Board, color: Color, row: int) {
    Rows(b) >= 4 && row == if color == White then Rows(b) - 2 else 1
  }

  /** is_pawn_move_for_piece: the mover is given by value, since its source cell may already be empty. */
  predicate PawnMove(b: Board, mover: Piece, s: Cell, e: Cell) {
    var dr, dc := e.row - s.row, e.col - s.col;
    var dest := PieceAt(b, e);
    var forward := if mover.color == White then -1 else 1;
    if dc == 0 then
      dest.None? &&
      (dr == forward ||
       (dr == 2 * forward && PawnStartRow(b, mover.color, s.row) &&
        IdAt(b, Cell(s.row + forward, s.col)).None?))
    else
      Abs(dc) == 1 && dest.Some? && dr == forward && dest.value.color != mover.color
  }

  /** The validator the registry holds for each kind, applied to a known mover. */
  ghost predicate Geometry(b: Board, mover: Piece, s: Cell, e: Cell) {
    match mover.kind
    case King => KingMove(s, e)
    case Queen => RookMove(b, s, e) || BishopMove(b, s, e)
    case Rook => RookMove(b, s, e)
    case Bishop => BishopMove(b, s, e)
    case Knight => KnightMove(s, e)
    case Pawn => PawnMove(b, mover, s, e)
  }

  /** Pawns encode their own destination rule; every other kind needs an empty or hostile destination. */
  predicate DestinationFree(b: Board, mover: Piece, e: Cell) {
    mover.kind == Pawn || PieceAt(b, e).None? || PieceAt(b, e).value.color != mover.color
  }

  /** GameState::is_legal_move: the request-time check, on the board where the mover still stands on s. */
  ghost predicate LegalMove(b: Board, s: Cell, e: Cell) {
    && PieceAt(b, s).Some?
    && InBounds(b, e)
    && s != e
    && Geometry(b, PieceAt(b, s).value, s, e)
    && DestinationFree(b, PieceAt(b, s).value, e)
  }

  /** can_settle_move: the arrival-time check, on the board where the mover has left s. */
  ghost predicate CanSettle(b: Board, id: Id, s: Cell, e: Cell)
    requires Stored(b, id)
  {
    Geometry(b, Get(b, id), s, e) && DestinationFree(b, Get(b, id), e)
  }

  /** promote_pawn_to_queen */
  function Promote(p: Piece, endRow: int, rows: nat): (r: Piece)
    ensures r == p || (p.kind == Pawn && r == p.(kind := Queen))
    ensures r != p <==> p.kind == Pawn && endRow == LastRow(p.color, rows)
  {
    if p.kind == Pawn && endRow == LastRow(p.color, rows) then p.(kind := Queen) else p
  }

  function LastRow(color: Color, rows: nat): int {
    if color == White then 0 else rows - 1
  }

  /** is_path_clear walks the path and drops a flag at the first occupied cell it visits. */
  method IsPathClear(b: Board, s: Cell, e: Cell) returns (clear: bool)
    requires IsLine(s, e)
    ensures clear <==> PathClear(b, s, e)
  {
    var visited := ForEachCellOnPath(s, e);
    clear := true;
    for i := 0 to |visited|
      invariant clear <==> forall j :: 0 <= j < i ==> IdAt(b, visited[j]).None?
    {
      if IdAt(b, visited[i]).Some? {
        clear := false;
      }
    }
    if clear {
      forall p | Between(p, s, e)
        ensures IdAt(b, p).None?
      {
        assert p in visited;
      }
    } else {
      var j :| 0 <= j < |visited| && IdAt(b, visited[j]).Some?;
      assert visited[j] in visited;
    }
  }

  method IsRookMove(b: Board, s: Cell, e: Cell) returns (ok: bool)
    ensures ok <==> RookMove(b, s, e)
  {
    if s.row != e.row && s.col != e.col {
      return false;
    }
    ok := IsPathClear(b, s, e);
  }

  method IsBishopMove(b: Board, s: Cell, e: Cell) returns (ok: bool)
    ensures ok <==> BishopMove(b, s, e)
  {
    if Abs(e.row - s.row) != Abs(e.col - s.col) {
      return false;
    }
    ok := IsPathClear(b, s, e);
  }

  method CheckGeometry(b: Board, mover: Piece, s: Cell, e: Cell) returns (ok: bool)
    ensures ok <==> Geometry(b, mover, s, e)
  {
    match mover.kind
    case King => ok := KingMove(s, e);
    case Queen =>
      ok := IsRookMove(b, s, e);
      if !ok {
        ok := IsBishopMove(b, s, e);
      }
    case Rook => ok := IsRookMove(b, s, e);
    case Bishop => ok := IsBishopMove(b, s, e);
    case Knight => ok := KnightMove(s, e);
    case Pawn => ok := PawnMove(b, mover, s, e);
  }

  method IsLegalMove(b: Board, s: Cell, e: Cell) returns (ok: bool)
    ensures ok <==> LegalMove(b, s, e)
  {
    var mover := PieceAt(b, s);
    if mover.None? || !InBounds(b, s) || !InBounds(b, e) || s == e {
      return false;
    }
    ok := CheckGeometry(b, mover.value, s, e);
    ok := ok && DestinationFree(b, mover.value, e);
  }

  method CanSettleMove(b: Board, id: Id, s: Cell, e: Cell) returns (ok: bool)
    requires Stored(b, id)
    ensures ok <==> CanSettle(b, id, s, e)
  {
    ok := CheckGeometry(b, Get(b, id), s, e);
    ok := ok && DestinationFree(b, Get(b, id), e);
  }

  /** A settled move never arrives on a friend. */
  lemma SettledDestination(b: Board, id: Id, s: Cell, e: Cell)
    requires Stored(b, id) && CanSettle(b, id, s, e)
    ensures PieceAt(b, e).None? || PieceAt(b, e).value.color != Get(b, id).color
  {
  }

  /** The arrival check reads the mover, the cells strictly between, and the destination; nothing else. */
  lemma CanSettleFrame(b: Board, b': Board, id: Id, s: Cell, e: Cell)
    requires Stored(b, id) && DimsOf(b) == DimsOf(b')
    requires Get(b', id).color == Get(b, id).color && Get(b', id).kind == Get(b, id).kind
    requires forall p :: Between(p, s, e) ==> IdAt(b', p).None? == IdAt(b, p).None?
    requires PieceAt(b', e).None? == PieceAt(b, e).None?
    requires PieceAt(b, e).Some? ==> PieceAt(b', e).value.color == PieceAt(b, e).value.color
    ensures CanSettle(b', id, s, e) <==> CanSettle(b, id, s, e)
  {
    if Get(b, id).kind == Pawn {
      assert Between(Cell(s.row - 1, s.col), s, Cell(s.row - 2, s.col));
      assert Between(Cell(s.row + 1, s.col), s, Cell(s.row + 2, s.col));
    } else {
      assert PathClear(b', s, e) <==> PathClear(b, s, e);
    }
  }

  /** Both checks agree: a request is legal exactly when the same move would settle once only its source is cleared. */
  lemma RequestMatchesArrival(b: Board, s: Cell, e: Cell)
    requires PieceAt(b, s).Some?
    ensures LegalMove(b, s, e) <==>
            InBounds(b, e) && s != e && CanSettle(Clear(b, s), IdAt(b, s).value, s, e)
  {
    if s != e {
      CanSettleFrame(b, Clear(b, s), IdAt(b, s).value, s, e);
    }
  }
}
