/** The moves of chess, said again: rays, leaps and steps on an unbounded plane, cut off by the board and its pieces. */
module PieceMoves {
  import opened Pieces
  import opened Boards
  import opened Paths
  import opened Rules
  import opened Engine

  // ---------------------------------------------------------------- leaps and steps

  /** A knight leaps two away, off every line. */
  lemma KnightLeaps(s: Cell, e: Cell)
    ensures KnightMove(s, e) <==> Steps(s, e) == 2 && !IsLine(s, e)
  {
  }

  /** A king goes one step in any direction. */
  lemma KingSteps(s: Cell, e: Cell)
    ensures KingMove(s, e) <==> Steps(s, e) == 1
  {
  }

  // ---------------------------------------------------------------- rays

  function Shift(s: Cell, k: int, dr: int, dc: int): Cell {
    Cell(s.row + k * dr, s.col + k * dc)
  }

  /** e is some way along the ray from s, and nothing stands in between. */
  ghost predicate Ray(b: Board, s: Cell, e: Cell, dr: int, dc: int) {
    exists k :: k >= 1 && e == Shift(s, k, dr, dc) && forall i :: 0 < i < k ==> IdAt(b, Shift(s, i, dr, dc)).None?
  }

  /** One ray, with its direction known by sign. */
  lemma RayIsClearLine(b: Board, s: Cell, e: Cell, dr: int, dc: int)
    requires -1 <= dr <= 1 && -1 <= dc <= 1 && (dr != 0 || dc != 0)
    ensures Ray(b, s, e, dr, dc) <==>
            IsLine(s, e) && s != e && Sign(e.row - s.row) == dr && Sign(e.col - s.col) == dc && PathClear(b, s, e)
  {
    hide IdAt;
    if Ray(b, s, e, dr, dc) {
      var k :| k >= 1 && e == Shift(s, k, dr, dc) && forall i :: 0 < i < k ==> IdAt(b, Shift(s, i, dr, dc)).None?;
      RayShape(s, e, k, dr, dc);
      forall p | Between(p, s, e)
        ensures IdAt(b, p).None?
      {
        AlongIsSegment(p, s, e);
        var i :| 0 < i < Steps(s, e) && p == Along(s, e, i);
        AlongIsShift(s, e, i, dr, dc);
      }
    }
    if IsLine(s, e) && s != e && Sign(e.row - s.row) == dr && Sign(e.col - s.col) == dc && PathClear(b, s, e) {
      var k := Steps(s, e);
      AlongReachesEnd(s, e);
      AlongIsShift(s, e, k, dr, dc);
      forall i | 0 < i < k
        ensures IdAt(b, Shift(s, i, dr, dc)).None?
      {
        AlongIsShift(s, e, i, dr, dc);
        AlongIsSegment(Along(s, e, i), s, e);
        assert Between(Along(s, e, i), s, e);
      }
      assert e == Shift(s, k, dr, dc);
    }
  }

  lemma RayShape(s: Cell, e: Cell, k: int, dr: int, dc: int)
    requires -1 <= dr <= 1 && -1 <= dc <= 1 && (dr != 0 || dc != 0) && k >= 1 && e == Shift(s, k, dr, dc)
    ensures IsLine(s, e) && s != e && Sign(e.row - s.row) == dr && Sign(e.col - s.col) == dc && Steps(s, e) == k
  {
    Scaled(k, dr);
    Scaled(k, dc);
  }

  lemma Scaled(k: int, d: int)
    requires -1 <= d <= 1
    ensures k * d == if d == 0 then 0 else if d == 1 then k else -k
  {
  }

  lemma AlongIsShift(s: Cell, e: Cell, i: int, dr: int, dc: int)
    requires Sign(e.row - s.row) == dr && Sign(e.col - s.col) == dc
    ensures Along(s, e, i) == Shift(s, i, dr, dc)
  {
    Scaled(i, dr);
    Scaled(i, dc);
  }

  ghost predicate RookRays(b: Board, s: Cell, e: Cell) {
    Ray(b, s, e, 0, 1) || Ray(b, s, e, 0, -1) || Ray(b, s, e, 1, 0) || Ray(b, s, e, -1, 0)
  }

  ghost predicate BishopRays(b: Board, s: Cell, e: Cell) {
    Ray(b, s, e, 1, 1) || Ray(b, s, e, 1, -1) || Ray(b, s, e, -1, 1) || Ray(b, s, e, -1, -1)
  }

  /** Rooks go along rows and columns, bishops along diagonals, both up to the first piece. */
  lemma SlidersFollowRays(b: Board, s: Cell, e: Cell)
    requires s != e
    ensures RookMove(b, s, e) <==> RookRays(b, s, e)
    ensures BishopMove(b, s, e) <==> BishopRays(b, s, e)
  {
    hide Ray, PathClear;
    RayIsClearLine(b, s, e, 0, 1);
    RayIsClearLine(b, s, e, 0, -1);
    RayIsClearLine(b, s, e, 1, 0);
    RayIsClearLine(b, s, e, -1, 0);
    RayIsClearLine(b, s, e, 1, 1);
    RayIsClearLine(b, s, e, 1, -1);
    RayIsClearLine(b, s, e, -1, 1);
    RayIsClearLine(b, s, e, -1, -1);
  }

  // ---------------------------------------------------------------- pawns

  /** The next cell in a pawn's direction: white walks towards row 0. */
  function Ahead(c: Cell, color: Color): Cell {
    Cell(if color == White then c.row - 1 else c.row + 1, c.col)
  }

  function Behind(c: Cell, color: Color): Cell {
    Ahead(c, Opponent(color))
  }

  predicate FoeOn(b: Board, c: Cell, color: Color) {
    PieceAt(b, c).Some? && PieceAt(b, c).value.color != color
  }

  predicate FriendOn(b: Board, c: Cell, color: Color) {
    PieceAt(b, c).Some? && PieceAt(b, c).value.color == color
  }

  /** The second row of a colour: one cell of the board behind it, and no more. */
  lemma StartRowIsSecond(b: Board, c: Cell, color: Color)
    requires InBounds(b, c)
    ensures PawnStartRow(b, color, c.row) <==>
            Rows(b) >= 4 && InBounds(b, Behind(c, color)) && !InBounds(b, Behind(Behind(c, color), color))
  {
  }

  /** One step ahead, two from the second row of a board of at least four, or a capture to either side ahead. */
  ghost predicate PawnSteps(b: Board, s: Cell, e: Cell, color: Color) {
    var one := Ahead(s, color);
    || (e == one && PieceAt(b, e).None?)
    || (e == Ahead(one, color) && PieceAt(b, one).None? && PieceAt(b, e).None? && Rows(b) >= 4 &&
        InBounds(b, Behind(s, color)) && !InBounds(b, Behind(Behind(s, color), color)))
    || (e.row == one.row && (e.col == s.col - 1 || e.col == s.col + 1) && FoeOn(b, e, color))
  }

  lemma PawnsStepAhead(b: Board, mover: Piece, s: Cell, e: Cell)
    requires InBounds(b, s)
    ensures PawnMove(b, mover, s, e) <==> PawnSteps(b, s, e, mover.color)
  {
    StartRowIsSecond(b, s, mover.color);
  }

  // ---------------------------------------------------------------- all moves

  ghost predicate Reaches(b: Board, p: Piece, s: Cell, e: Cell) {
    match p.kind
    case King => Steps(s, e) == 1
    case Queen => RookRays(b, s, e) || BishopRays(b, s, e)
    case Rook => RookRays(b, s, e)
    case Bishop => BishopRays(b, s, e)
    case Knight => Steps(s, e) == 2 && !IsLine(s, e)
    case Pawn => PawnSteps(b, s, e, p.color)
  }

  lemma GeometryIsReach(b: Board, p: Piece, s: Cell, e: Cell)
    requires InBounds(b, s) && s != e
    ensures Geometry(b, p, s, e) <==> Reaches(b, p, s, e)
  {
    hide RookMove, BishopMove, RookRays, BishopRays, PawnMove, PawnSteps, KnightMove, KingMove;
    KnightLeaps(s, e);
    KingSteps(s, e);
    SlidersFollowRays(b, s, e);
    PawnsStepAhead(b, p, s, e);
  }

  lemma NobodyReachesHisOwnCell(b: Board, p: Piece, s: Cell)
    ensures !Reaches(b, p, s, s)
  {
    hide PathClear;
    RayIsClearLine(b, s, s, 0, 1);
    RayIsClearLine(b, s, s, 0, -1);
    RayIsClearLine(b, s, s, 1, 0);
    RayIsClearLine(b, s, s, -1, 0);
    RayIsClearLine(b, s, s, 1, 1);
    RayIsClearLine(b, s, s, 1, -1);
    RayIsClearLine(b, s, s, -1, 1);
    RayIsClearLine(b, s, s, -1, -1);
    hide Ray;
  }

  /** What a request may ask for: a cell of the board in reach of the piece, with no friend on it. */
  lemma LegalMoves(b: Board, s: Cell, e: Cell)
    requires PieceAt(b, s).Some?
    ensures var p := PieceAt(b, s).value;
            LegalMove(b, s, e) <==> InBounds(b, e) && Reaches(b, p, s, e) && !FriendOn(b, e, p.color)
  {
    hide Geometry, Reaches;
    var p := PieceAt(b, s).value;
    NobodyReachesHisOwnCell(b, p, s);
    if s != e {
      GeometryIsReach(b, p, s, e);
      if p.kind == Pawn && Reaches(b, p, s, e) {
        PawnsSpareFriends(b, p, s, e);
      }
    }
  }

  lemma PawnsSpareFriends(b: Board, p: Piece, s: Cell, e: Cell)
    requires p.kind == Pawn && Reaches(b, p, s, e)
    ensures !FriendOn(b, e, p.color)
  {
  }

  // ---------------------------------------------------------------- promotion

  /** A landed pawn is a queen if and only if there is no cell ahead of it. */
  lemma PromotesAtTheEdge(b: Board, m: PendingMove)
    requires MoveFits(DimsOf(b), m) && Get(b, m.id).kind == Pawn
    ensures Arrived(b, m).kind == Queen <==> !InBounds(b, Ahead(m.end, Get(b, m.id).color))
    ensures Arrived(b, m).kind == Pawn <==> InBounds(b, Ahead(m.end, Get(b, m.id).color))
  {
  }

  /** A pawn with no cell ahead could never move again. */
  lemma StrandedPawnIsStuck(b: Board, s: Cell, e: Cell)
    requires PieceAt(b, s).Some? && PieceAt(b, s).value.kind == Pawn && !InBounds(b, Ahead(s, PieceAt(b, s).value.color))
    ensures !LegalMove(b, s, e)
  {
    LegalMoves(b, s, e);
    hide LegalMove;
  }
}
