/** The view model that clients see: the grid plus the animations (BoardViewBuilder, animations_at). */
module Views {
  import opened Basics
  import opened Pieces
  import opened Boards
  import opened Rules
  import opened Tokens
  import opened BoardSetup
  import opened Engine
  import opened Conservation
  import opened Invariants
  import opened Runs

  datatype PieceView = PieceView(kind: Kind, color: Color)

  /** Animation progress in millionths, standing in for the float in [0, 1]. */
  datatype MoveView = MoveView(id: Id, kind: Kind, color: Color, from: Cell, to: Cell, progress: nat)

  datatype JumpView = JumpView(id: Id, kind: Kind, color: Color, at: Cell, progress: nat)

  datatype RestView = RestView(id: Id, at: Cell, kind: RestKind, progress: nat)

  datatype BoardView = BoardView(height: nat, width: nat, clock: int, gameOver: bool, selection: Option<Cell>,
                                 cells: seq<Option<PieceView>>, moves: seq<MoveView>, jumps: seq<JumpView>,
                                 rests: seq<RestView>)

  const UNIT: nat := 1_000_000

  /** compute_animation_progress */
  function Progress(clock: int, start: int, end: int): (p: nat)
    ensures p <= UNIT
    ensures clock >= end ==> p == UNIT
    ensures clock < end && clock <= start ==> p == 0
  {
    if clock >= end then UNIT
    else if clock <= start then 0
    else
      ProgressBound(clock - start, end - start);
      (clock - start) * UNIT / (end - start)
  }

  lemma ProgressBound(part: nat, whole: nat)
    requires part < whole
    ensures 0 <= part * UNIT / whole <= UNIT
  {
    var q := part * UNIT / whole;
    assert q * whole <= part * UNIT;
    if q > UNIT {
      MulMono(UNIT + 1, q, whole);
      assert false;
    }
  }

  /** Inside the flight, the share of it that has passed, rounded down. */
  lemma ProgressExactly(clock: int, start: int, end: int)
    requires start < clock < end
    ensures var p := Progress(clock, start, end);
            p * (end - start) <= (clock - start) * 1_000_000 < (p + 1) * (end - start)
  {
    var part, whole := (clock - start) * UNIT, end - start;
    assert part / whole * whole <= part < (part / whole + 1) * whole;
  }

  /** An animation never runs backwards. */
  lemma ProgressMonotone(clock: int, later: int, start: int, end: int)
    requires clock <= later
    ensures Progress(clock, start, end) <= Progress(later, start, end)
  {
    if start < clock && later < end {
      MulMono(clock - start, later - start, UNIT);
      DivMono((clock - start) * UNIT, (later - start) * UNIT, end - start);
    }
  }

  lemma DivMono(x: nat, y: nat, d: nat)
    requires x <= y && d > 0
    ensures x / d <= y / d
  {
    var p, q := x / d, y / d;
    assert p * d <= x && y < (q + 1) * d;
    if p > q {
      MulMono(q + 1, p, d);
      assert false;
    }
  }

  function ViewOfMove(m: PendingMove, clock: int): MoveView {
    MoveView(m.id, m.kind, m.color, m.start, m.end, Progress(clock, m.startTime, m.arrival))
  }

  function ViewOfJump(j: JumpState, clock: int): JumpView {
    JumpView(j.id, j.kind, j.color, j.cell, Progress(clock, j.startTime, j.arrival))
  }

  function ViewOfRest(id: Id, r: Rest, clock: int): RestView {
    RestView(id, r.cell, r.kind, Progress(clock, r.start, r.end))
  }

  function CellView(b: Board, c: Cell): Option<PieceView> {
    if PieceAt(b, c).None? then None else Some(PieceView(PieceAt(b, c).value.kind, PieceAt(b, c).value.color))
  }

  /** board_view_cell_at */
  function CellAt(view: BoardView, r: int, c: int): Option<PieceView>
    requires 0 <= r < view.height && 0 <= c < view.width && |view.cells| == view.height * view.width
  {
    RowMajor(r, c, view.height, view.width);
    view.cells[r * view.width + c]
  }

  /** view is a faithful picture of w; the order of the rests is that of an unordered map. */
  ghost predicate Pictures(view: BoardView, w: World) {
    && view.height == Rows(w.board) && view.width == Cols(w.board)
    && view.clock == w.clock && view.gameOver == w.gameOver && view.selection == w.selected
    && |view.cells| == view.height * view.width
    && (forall r, c :: 0 <= r < view.height && 0 <= c < view.width ==> CellAt(view, r, c) == CellView(w.board, Cell(r, c)))
    && |view.moves| == |w.pending|
    && (forall i :: 0 <= i < |w.pending| ==> view.moves[i] == ViewOfMove(w.pending[i], w.clock))
    && |view.jumps| == |w.jumps|
    && (forall i :: 0 <= i < |w.jumps| ==> view.jumps[i] == ViewOfJump(w.jumps[i], w.clock))
    && (forall r :: r in view.rests <==> r.id in w.rests && r == ViewOfRest(r.id, w.rests[r.id], w.clock))
    && (forall i, k :: 0 <= i < k < |view.rests| ==> view.rests[i].id != view.rests[k].id)
  }

  lemma RowMajor(r: nat, c: nat, height: nat, width: nat)
    requires r < height && c < width
    ensures 0 <= r * width + c < height * width
  {
    MulMono(r + 1, height, width);
  }

  /** The first rows of the grid, one after the other. */
  function GridRows(b: Board, n: nat): seq<Option<PieceView>> {
    if n == 0 then [] else GridRows(b, n - 1) + seq(Cols(b), c => CellView(b, Cell(n - 1, c)))
  }

  lemma {:induction false} GridRowsIndex(b: Board, n: nat, r: nat, c: nat)
    requires r < n && c < Cols(b)
    ensures |GridRows(b, n)| == n * Cols(b)
    ensures r * Cols(b) + c < n * Cols(b) && GridRows(b, n)[r * Cols(b) + c] == CellView(b, Cell(r, c))
  {
    RowMajor(r, c, n, Cols(b));
    GridRowsLength(b, n - 1);
    GridRowsLength(b, n);
    if r < n - 1 {
      GridRowsIndex(b, n - 1, r, c);
    }
  }

  lemma {:induction false} GridRowsLength(b: Board, n: nat)
    ensures |GridRows(b, n)| == n * Cols(b)
  {
    if n > 0 {
      GridRowsLength(b, n - 1);
    }
  }

  /** The grid loops of BoardViewBuilder::build. */
  method BuildCells(b: Board) returns (cells: seq<Option<PieceView>>)
    ensures cells == GridRows(b, Rows(b))
  {
    hide TokenAt, DescriptorFromToken, CellView;
    cells := [];
    for r := 0 to Rows(b)
      invariant cells == GridRows(b, r)
    {
      var row: seq<Option<PieceView>> := [];
      for c := 0 to Cols(b)
        invariant row == seq(c, k => CellView(b, Cell(r, k)))
      {
        var d := DescriptorFromToken(TokenAt(b, Cell(r, c)));
        TokenIsCellView(b, Cell(r, c));
        row := row + [if d.Some? then Some(PieceView(d.value.kind, d.value.color)) else None];
      }
      cells := cells + row;
    }
  }

  lemma TokenIsCellView(b: Board, c: Cell)
    ensures var d := DescriptorFromToken(TokenAt(b, c));
            CellView(b, c) == if d.Some? then Some(PieceView(d.value.kind, d.value.color)) else None
  {
    if PieceAt(b, c).Some? {
      var p := PieceAt(b, c).value;
      TokensRoundTrip(p.color, p.kind, TokenAt(b, c));
    }
  }

  /** BoardViewBuilder::build with animations_at, over a game between two actions. */
  method Build(b: Board, pending: seq<PendingMove>, active: seq<JumpState>, resting: map<Id, Rest>, clock: int,
               gameOver: bool, selected: Option<Cell>) returns (view: BoardView)
    requires Inv(World(b, pending, active, resting, clock, gameOver, selected))
    ensures Pictures(view, World(b, pending, active, resting, clock, gameOver, selected))
  {
    hide Steady, Progress, CellView;
    var cells := BuildCells(b);
    var moves: seq<MoveView> := [];
    for i := 0 to |pending|
      invariant |moves| == i && forall k :: 0 <= k < i ==> moves[k] == ViewOfMove(pending[k], clock)
    {
      assert pending[i] in pending;
      if clock >= pending[i].arrival {
        continue;
      }
      moves := moves + [ViewOfMove(pending[i], clock)];
    }
    var jumps: seq<JumpView> := [];
    for i := 0 to |active|
      invariant |jumps| == i && forall k :: 0 <= k < i ==> jumps[k] == ViewOfJump(active[k], clock)
    {
      assert active[i] in active;
      if clock >= active[i].arrival {
        continue;
      }
      jumps := jumps + [ViewOfJump(active[i], clock)];
    }
    var rests := BuildRests(resting, clock);
    view := BoardView(Rows(b), Cols(b), clock, gameOver, selected, cells, moves, jumps, rests);
    GridRowsLength(b, Rows(b));
    forall r, c | 0 <= r < view.height && 0 <= c < view.width
      ensures CellAt(view, r, c) == CellView(b, Cell(r, c))
    {
      GridRowsIndex(b, Rows(b), r, c);
    }
  }

  method BuildRests(resting: map<Id, Rest>, clock: int) returns (rests: seq<RestView>)
    ensures forall r :: r in rests <==>
              r.id in resting && clock < resting[r.id].end && r == ViewOfRest(r.id, resting[r.id], clock)
    ensures forall i, k :: 0 <= i < k < |rests| ==> rests[i].id != rests[k].id
  {
    hide Progress;
    rests := [];
    var todo := resting.Keys;
    while todo != {}
      invariant todo <= resting.Keys
      invariant forall r :: r in rests <==>
                  r.id in resting && r.id !in todo && clock < resting[r.id].end &&
                  r == ViewOfRest(r.id, resting[r.id], clock)
      invariant forall i, k :: 0 <= i < k < |rests| ==> rests[i].id != rests[k].id
      decreases todo
    {
      SomeMember(todo);
      var id :| id in todo;
      todo := todo - {id};
      if clock >= resting[id].end {
        continue;
      }
      assert forall i :: 0 <= i < |rests| ==> rests[i] in rests && rests[i].id != id;
      rests := rests + [ViewOfRest(id, resting[id], clock)];
    }
  }

  // ---------------------------------------------------------------- completeness

  ghost predicate InMoveViews(view: BoardView, id: Id) {
    exists i :: 0 <= i < |view.moves| && view.moves[i].id == id
  }

  ghost predicate InJumpViews(view: BoardView, id: Id) {
    exists i :: 0 <= i < |view.jumps| && view.jumps[i].id == id
  }

  /** One entry of the move list shows the piece, as it is, and no other entry has its id. */
  ghost predicate ShownMoving(view: BoardView, p: Piece) {
    exists i :: 0 <= i < |view.moves| &&
      view.moves[i].id == p.id && view.moves[i].kind == p.kind && view.moves[i].color == p.color &&
      view.moves[i].from == p.cell && forall k :: 0 <= k < |view.moves| && k != i ==> view.moves[k].id != p.id
  }

  ghost predicate ShownJumping(view: BoardView, p: Piece) {
    exists i :: 0 <= i < |view.jumps| &&
      view.jumps[i].id == p.id && view.jumps[i].kind == p.kind && view.jumps[i].color == p.color &&
      view.jumps[i].at == p.cell && forall k :: 0 <= k < |view.jumps| && k != i ==> view.jumps[k].id != p.id
  }

  /**
   Completeness. Every live piece is shown in exactly one of the grid, the move list and the jump list, with
   its current kind and colour; a captured piece is in neither list.
   */
  lemma LivePiecesAreShownOnce(w: World, view: BoardView, id: Id)
    requires Inv(w) && Pictures(view, w) && Stored(w.board, id)
    ensures var p := Get(w.board, id);
            match p.state
            case Idle =>
              && InBounds(w.board, p.cell)
              && CellAt(view, p.cell.row, p.cell.col) == Some(PieceView(p.kind, p.color))
              && !InMoveViews(view, id) && !InJumpViews(view, id)
            case Moving =>
              || (ShownMoving(view, p) && !InJumpViews(view, id))
              || (!InMoveViews(view, id) && ShownJumping(view, p))
            case Captured => !InMoveViews(view, id) && !InJumpViews(view, id)
  {
    hide Progress, CellAt, ShownMoving, ShownJumping;
    var p := Get(w.board, id);
    assert forall i :: 0 <= i < |w.pending| ==> w.pending[i] in w.pending && view.moves[i].id == w.pending[i].id;
    assert forall i :: 0 <= i < |w.jumps| ==> w.jumps[i] in w.jumps && view.jumps[i].id == w.jumps[i].id;
    if p.state == Idle {
      assert IdAt(w.board, p.cell) == Some(id);
      assert CellAt(view, p.cell.row, p.cell.col) == CellView(w.board, Cell(p.cell.row, p.cell.col));
    } else if p.state == Moving {
      if InMoves(w.pending, id) {
        MovingIsShown(w, view, id);
      } else {
        JumpingIsShown(w, view, id);
      }
    }
  }

  lemma MovingIsShown(w: World, view: BoardView, id: Id)
    requires Inv(w) && Pictures(view, w)
    ensures InMoves(w.pending, id) ==> Stored(w.board, id) && ShownMoving(view, Get(w.board, id)) && InMoveViews(view, id)
  {
    hide Progress, CellAt, BoardOk, RestsOk;
    if InMoves(w.pending, id) {
      var m :| m in w.pending && m.id == id;
      var i :| 0 <= i < |w.pending| && w.pending[i] == m;
      assert forall k :: 0 <= k < |w.pending| ==> view.moves[k].id == w.pending[k].id;
      assert view.moves[i].id == id;
    }
  }

  lemma JumpingIsShown(w: World, view: BoardView, id: Id)
    requires Inv(w) && Pictures(view, w)
    ensures InJumps(w.jumps, id) ==> Stored(w.board, id) && ShownJumping(view, Get(w.board, id)) && InJumpViews(view, id)
  {
    hide Progress, CellAt, BoardOk, RestsOk;
    if InJumps(w.jumps, id) {
      var j :| j in w.jumps && j.id == id;
      var i :| 0 <= i < |w.jumps| && w.jumps[i] == j;
      assert forall k :: 0 <= k < |w.jumps| ==> view.jumps[k].id == w.jumps[k].id;
      assert view.jumps[i].id == id;
    }
  }

  /** Soundness. Every grid entry is one idle piece on that cell; list entries are distinct airborne pieces as they are now. */
  lemma ShownPiecesAreReal(w: World, view: BoardView)
    requires Inv(w) && Pictures(view, w)
    ensures view.height == |w.board.cells| && view.clock == w.clock && view.gameOver == w.gameOver && view.selection == w.selected
    ensures forall r, c :: 0 <= r < view.height && 0 <= c < view.width && CellAt(view, r, c).Some? ==>
              IdAt(w.board, Cell(r, c)).Some? &&
              var p := Get(w.board, IdAt(w.board, Cell(r, c)).value);
              p.state == Idle && p.cell == Cell(r, c) && CellAt(view, r, c) == Some(PieceView(p.kind, p.color))
    ensures forall i :: 0 <= i < |view.moves| ==>
              Stored(w.board, view.moves[i].id) &&
              var p := Get(w.board, view.moves[i].id);
              p.state == Moving && p.kind == view.moves[i].kind && p.color == view.moves[i].color && p.cell == view.moves[i].from
    ensures forall i :: 0 <= i < |view.jumps| ==>
              Stored(w.board, view.jumps[i].id) &&
              var p := Get(w.board, view.jumps[i].id);
              p.state == Moving && p.kind == view.jumps[i].kind && p.color == view.jumps[i].color && p.cell == view.jumps[i].at
    ensures forall i, k :: 0 <= i < k < |view.moves| ==> view.moves[i].id != view.moves[k].id
    ensures forall i, k :: 0 <= i < k < |view.jumps| ==> view.jumps[i].id != view.jumps[k].id
  {
    hide Progress, CellAt;
    assert forall i :: 0 <= i < |w.pending| ==> w.pending[i] in w.pending;
    assert forall i :: 0 <= i < |w.jumps| ==> w.jumps[i] in w.jumps;
  }

  /** Every animation shown is the one that is scheduled: its ends, its cell and kind of rest, and how far it has come. */
  lemma ShownAnimationsAreScheduled(w: World, view: BoardView, i: nat, r: RestView)
    requires Pictures(view, w)
    ensures i < |view.moves| ==>
              exists m :: m in w.pending && m.id == view.moves[i].id && m.start == view.moves[i].from && m.end == view.moves[i].to &&
                view.moves[i].progress == Progress(w.clock, m.startTime, m.arrival)
    ensures i < |view.jumps| ==>
              exists j :: j in w.jumps && j.id == view.jumps[i].id && j.cell == view.jumps[i].at &&
                view.jumps[i].progress == Progress(w.clock, j.startTime, j.arrival)
    ensures r in view.rests ==>
              r.id in w.rests && r.at == w.rests[r.id].cell && r.kind == w.rests[r.id].kind &&
              r.progress == Progress(w.clock, w.rests[r.id].start, w.rests[r.id].end)
  {
    hide Progress, CellAt;
    if i < |view.moves| {
      assert w.pending[i] in w.pending && view.moves[i] == ViewOfMove(w.pending[i], w.clock);
    }
    if i < |view.jumps| {
      assert w.jumps[i] in w.jumps && view.jumps[i] == ViewOfJump(w.jumps[i], w.clock);
    }
  }
}
