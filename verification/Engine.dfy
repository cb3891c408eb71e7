/**
 The real-time engine as functions on values: what a settlement and each player action do to the whole
 game. The classes in Arbiter.dfy and GameStates.dfy are proved to compute these functions.
 */
module Engine {
  import opened Pieces
  import opened Boards
  import opened Rules

  datatype PendingMove = PendingMove(id: Id, color: Color, kind: Kind, start: Cell, end: Cell,
                                     startTime: int, arrival: int)

  datatype JumpState = JumpState(id: Id, color: Color, kind: Kind, cell: Cell, startTime: int, arrival: int)

  datatype RestKind = Short | Long

  datatype Rest = Rest(kind: RestKind, start: int, end: int, cell: Cell)

  /** A whole game: board, scheduler queues, clock, game-over flag and the shared selection. */
  datatype World = World(board: Board, pending: seq<PendingMove>, jumps: seq<JumpState>, rests: map<Id, Rest>,
                         clock: int, gameOver: bool, selected: Option<Cell>)

  /** Rest times pass through a 32-bit int. */
  function ToInt32(x: int): (r: int)
    ensures -0x8000_0000 <= r < 0x8000_0000
    ensures -0x8000_0000 <= x < 0x8000_0000 ==> r == x
  {
    (x + 0x8000_0000) % 0x1_0000_0000 - 0x8000_0000
  }

  function MakeRest(kind: RestKind, from: int, cell: Cell): Rest {
    Rest(kind, ToInt32(from), ToInt32(from + if kind == Long then LONG_REST_MS else SHORT_REST_MS), cell)
  }

  predicate CellFits(d: Dims, c: Cell) {
    0 <= c.row < d.rows && 0 <= c.col < d.cols
  }

  predicate MoveFits(d: Dims, m: PendingMove) {
    1 <= m.id <= d.pieces && CellFits(d, m.start) && CellFits(d, m.end)
  }

  predicate JumpFits(d: Dims, j: JumpState) {
    1 <= j.id <= d.pieces && CellFits(d, j.cell)
  }

  /** Every scheduled entry names a stored piece and cells of the grid. */
  ghost predicate Fits(w: World) {
    && (forall m :: m in w.pending ==> MoveFits(DimsOf(w.board), m))
    && (forall j :: j in w.jumps ==> JumpFits(DimsOf(w.board), j))
  }

  /** restore_piece_to_cell: put a piece back, evicting whoever stands there. */
  function Restore(b: Board, id: Id, c: Cell): (r: Board)
    requires Stored(b, id) && InBounds(b, c)
    ensures DimsOf(r) == DimsOf(b)
  {
    var b1 := SetState(b, id, Idle);
    if IdAt(b1, c) == Some(id) then b1
    else
      var b2 := if IdAt(b1, c).Some? then Remove(b1, c) else b1;
      Place(b2, c, Get(b2, id))
  }

  predicate Guards(j: JumpState, clock: int, target: Cell, arriving: Color) {
    clock <= j.arrival && j.cell == target && j.color != arriving
  }

  predicate HostileJump(jumps: seq<JumpState>, clock: int, target: Cell, arriving: Color) {
    exists j :: j in jumps && Guards(j, clock, target, arriving)
  }

  datatype Resolution = Resolution(captured: bool, board: Board, kingLost: bool)

  /** The piece as it stands after reaching its destination, promoted if it is a pawn on its last row. */
  function Arrived(b: Board, m: PendingMove): (p: Piece)
    requires Stored(b, m.id)
    ensures p.id == m.id
  {
    Promote(Get(b, m.id), m.end.row, Rows(b)).(cell := m.end, state := Idle)
  }

  /** CollisionResolver::check_for_jump_capture */
  function Resolve(b: Board, jumps: seq<JumpState>, clock: int, m: PendingMove): (r: Resolution)
    requires MoveFits(DimsOf(b), m)
    ensures DimsOf(r.board) == DimsOf(b)
  {
    var arriving := Get(b, m.id);
    var dest := PieceAt(b, m.end);
    if HostileJump(jumps, clock, m.end, arriving.color) then
      Resolution(true, b, arriving.kind == King)
    else if dest.Some? && dest.value.color != arriving.color then
      var b1 := Remove(b, m.end);
      Resolution(true, Place(b1, m.end, Arrived(b1, m)), dest.value.kind == King)
    else
      Resolution(false, b, false)
  }

  datatype Settlement = Settlement(w: World, changed: bool)

  /** What the callback does with a resolved arrival; `before` is the occupant the mover found. */
  function Conclude(w: World, m: PendingMove, r: Resolution, before: Option<Piece>): (s: Settlement)
    requires MoveFits(DimsOf(r.board), m)
    ensures DimsOf(s.w.board) == DimsOf(r.board)
    ensures s.w == w.(board := s.w.board, rests := s.w.rests, gameOver := w.gameOver || r.kingLost)
  {
    var rest := MakeRest(Long, m.arrival, m.end);
    var w1 := w.(gameOver := w.gameOver || r.kingLost);
    if !r.captured then
      Settlement(w1.(board := Place(r.board, m.end, Arrived(r.board, m)), rests := w.rests[m.id := rest]), true)
    else if IdAt(r.board, m.end) == Some(m.id) then
      var rests := if before.Some? && before.value.color != Get(r.board, m.id).color
                   then w.rests - {before.value.id} else w.rests;
      Settlement(w1.(board := r.board, rests := rests[m.id := rest]), true)
    else
      Settlement(w1.(board := SetState(r.board, m.id, Captured), rests := w.rests - {m.id}), false)
  }

  /** The settlement callback for one due move, already taken out of the queue. */
  ghost function SettleMove(w: World, m: PendingMove): (s: Settlement)
    requires MoveFits(DimsOf(w.board), m)
    ensures DimsOf(s.w.board) == DimsOf(w.board)
    ensures s.w == w.(board := s.w.board, rests := s.w.rests, gameOver := s.w.gameOver)
    ensures w.gameOver ==> s.w.gameOver
  {
    if !CanSettle(w.board, m.id, m.start, m.end) then
      Settlement(w.(board := Restore(w.board, m.id, m.start)), false)
    else
      // Legacy branch: the source is still occupied by the mover itself.
      var b := if IdAt(w.board, m.start) == Some(m.id) then Clear(w.board, m.start) else w.board;
      Conclude(w, m, Resolve(b, w.jumps, w.clock, m), PieceAt(b, m.end))
  }

  /** for_each_pending_due: w.pending collects the moves that stay in the queue. */
  ghost function SettleDue(w: World, queue: seq<PendingMove>, changed: bool): (s: Settlement)
    requires forall m :: m in queue ==> MoveFits(DimsOf(w.board), m)
    ensures DimsOf(s.w.board) == DimsOf(w.board)
    ensures forall m :: m in s.w.pending ==> m in w.pending || m in queue
    ensures s.w == w.(board := s.w.board, rests := s.w.rests, gameOver := s.w.gameOver, pending := s.w.pending)
    ensures w.gameOver ==> s.w.gameOver
    decreases |queue|
  {
    if queue == [] then
      Settlement(w, changed)
    else if w.clock < queue[0].arrival then
      SettleDue(w.(pending := w.pending + [queue[0]]), queue[1..], changed)
    else
      assert MoveFits(DimsOf(w.board), queue[0]);
      var s := SettleMove(w, queue[0]);
      SettleDue(s.w, queue[1..], changed || s.changed)
  }

  /** The in-flight moves that the current board no longer allows, in queue order. */
  ghost function Invalid(b: Board, clock: int, ms: seq<PendingMove>): (bad: seq<PendingMove>)
    requires forall m :: m in ms ==> MoveFits(DimsOf(b), m)
    ensures forall m :: m in bad <==>
              m in ms && MoveFits(DimsOf(b), m) && clock < m.arrival && !CanSettle(b, m.id, m.start, m.end)
  {
    if ms == [] then []
    else
      var m := ms[0];
      assert MoveFits(DimsOf(b), m);
      var tail := Invalid(b, clock, ms[1..]);
      if clock < m.arrival && !CanSettle(b, m.id, m.start, m.end) then [m] + tail else tail
  }

  /** cancel_pending_move: drop the first entry of the piece, if any. */
  function Drop(ms: seq<PendingMove>, id: Id): (r: seq<PendingMove>)
    ensures forall m :: m in r ==> m in ms
  {
    if ms == [] then []
    else if ms[0].id == id then ms[1..]
    else [ms[0]] + Drop(ms[1..], id)
  }

  ghost function CancelAll(w: World, bad: seq<PendingMove>): (r: World)
    requires forall m :: m in bad ==> MoveFits(DimsOf(w.board), m)
    ensures DimsOf(r.board) == DimsOf(w.board)
    ensures forall m :: m in r.pending ==> m in w.pending
    ensures r == w.(board := r.board, pending := r.pending)
    decreases |bad|
  {
    if bad == [] then w
    else
      var m := bad[0];
      assert MoveFits(DimsOf(w.board), m);
      CancelAll(w.(board := Restore(w.board, m.id, m.start), pending := Drop(w.pending, m.id)), bad[1..])
  }

  /** expire_jumps: w.jumps collects the jumps that go on. */
  ghost function ExpireJumps(w: World, queue: seq<JumpState>): (r: World)
    requires forall j :: j in queue ==> JumpFits(DimsOf(w.board), j)
    ensures DimsOf(r.board) == DimsOf(w.board)
    ensures forall j :: j in r.jumps ==> j in w.jumps || j in queue
    ensures r == w.(board := r.board, rests := r.rests, jumps := r.jumps)
    decreases |queue|
  {
    if queue == [] then w
    else
      var j := queue[0];
      assert JumpFits(DimsOf(w.board), j);
      if w.clock < j.arrival then
        ExpireJumps(w.(jumps := w.jumps + [j]), queue[1..])
      else
        ExpireJumps(w.(board := Restore(w.board, j.id, j.cell),
                       rests := w.rests[j.id := MakeRest(Short, j.arrival, j.cell)]), queue[1..])
  }

  function ExpireRests(rests: map<Id, Rest>, clock: int): map<Id, Rest> {
    map id | id in rests && clock < rests[id].end :: rests[id]
  }

  /** The first two phases: due moves, then the moves they made impossible. */
  ghost function AfterArrivals(w: World): (r: World)
    requires Fits(w)
    ensures Fits(r) && DimsOf(r.board) == DimsOf(w.board)
    ensures r == w.(board := r.board, rests := r.rests, gameOver := r.gameOver, pending := r.pending)
    ensures w.gameOver ==> r.gameOver
  {
    var s := SettleDue(w.(pending := []), w.pending, false);
    if s.changed then CancelAll(s.w, Invalid(s.w.board, s.w.clock, s.w.pending)) else s.w
  }

  /** settle_pending_moves */
  ghost function Settle(w: World): (r: World)
    requires Fits(w)
    ensures Fits(r) && DimsOf(r.board) == DimsOf(w.board)
    ensures r.clock == w.clock && r.selected == w.selected
    ensures w.gameOver ==> r.gameOver
  {
    var w1 := AfterArrivals(w);
    var w2 := ExpireJumps(w1.(jumps := []), w1.jumps);
    w2.(rests := ExpireRests(w2.rests, w2.clock))
  }

  ghost function Tick(w: World, ms: int): (r: World)
    requires Fits(w)
    ensures Fits(r) && DimsOf(r.board) == DimsOf(w.board)
    ensures r.clock == w.clock + ms && r.selected == w.selected
    ensures w.gameOver ==> r.gameOver
  {
    Settle(w.(clock := w.clock + ms))
  }

  predicate MovingFrom(w: World, c: Cell) {
    exists m :: m in w.pending && w.clock < m.arrival && m.start == c
  }

  predicate JumpingAt(w: World, c: Cell) {
    exists j :: j in w.jumps && w.clock < j.arrival && j.cell == c
  }

  predicate RestingAt(w: World, c: Cell) {
    var id := IdAt(w.board, c);
    id.Some? && id.value in w.rests && w.clock < w.rests[id.value].end
  }

  predicate Claimed(w: World, color: Color, c: Cell) {
    exists m :: m in w.pending && w.clock < m.arrival && m.color == color && m.end == c
  }

  /** No reservation, jump or rest holds the piece on c back. */
  predicate Free(w: World, c: Cell) {
    !MovingFrom(w, c) && !JumpingAt(w, c) && !RestingAt(w, c)
  }

  ghost predicate CanMove(w: World, s: Cell, e: Cell) {
    && InBounds(w.board, e)
    && Free(w, s)
    && PieceAt(w.board, s).Some?
    && LegalMove(w.board, s, e)
    && !Claimed(w, PieceAt(w.board, s).value.color, e)
  }

  /** compute_move_duration: captures take one unit, other moves one unit per step of Chebyshev distance. */
  function MoveDuration(s: Cell, e: Cell, capture: bool): int {
    if capture then MOVE_MS else Max(Abs(s.row - e.row), Abs(s.col - e.col)) * MOVE_MS
  }

  /** Take the piece on c off the grid; it keeps its cell in the store. */
  function Lift(b: Board, c: Cell): (r: Board)
    requires IdAt(b, c).Some?
    ensures DimsOf(r) == DimsOf(b)
  {
    Clear(SetState(b, IdAt(b, c).value, Moving), c)
  }

  ghost function MoveSelectedTo(w: World, e: Cell): (r: World) {
    if w.selected.None? || !CanMove(w, w.selected.value, e) then w
    else
      var s := w.selected.value;
      var p := PieceAt(w.board, s).value;
      var dest := PieceAt(w.board, e);
      var duration := MoveDuration(s, e, dest.Some? && dest.value.color != p.color);
      var m := PendingMove(p.id, p.color, p.kind, s, e, w.clock, w.clock + duration);
      w.(board := Lift(w.board, s), pending := w.pending + [m], selected := None)
  }

  function JumpAtCell(w: World, c: Cell): (r: World) {
    if PieceAt(w.board, c).None? || !Free(w, c) then w
    else
      var p := PieceAt(w.board, c).value;
      var j := JumpState(p.id, p.color, p.kind, c, w.clock, w.clock + JUMP_MS);
      w.(board := Lift(w.board, c), jumps := w.jumps + [j])
  }

  datatype Action = Select(cell: Cell) | ClearSelection | MoveSelected(to: Cell) | JumpSelected | JumpAt(at: Cell)
                  | AdvanceClock(ms: int)

  /** GameState::apply_action */
  ghost function Apply(w: World, a: Action): (r: World)
    requires Fits(w)
    ensures DimsOf(r.board) == DimsOf(w.board)
    ensures w.gameOver ==> r.gameOver
    ensures r.clock == w.clock + if a.AdvanceClock? then a.ms else 0
  {
    match a
    case Select(c) => if InBounds(w.board, c) then w.(selected := Some(c)) else w
    case ClearSelection => w.(selected := None)
    case MoveSelected(e) => MoveSelectedTo(w, e)
    case JumpSelected =>
      if w.selected.None? then w else JumpAtCell(w, w.selected.value).(selected := None)
    case JumpAt(c) => JumpAtCell(w, c)
    case AdvanceClock(ms) => Tick(w, ms)
  }

  /** A new game on a board: nothing in flight, clock at zero. */
  function NewGame(b: Board): World {
    World(b, [], [], map[], 0, false, None)
  }
}
