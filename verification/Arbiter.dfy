/** MoveScheduler, CollisionResolver and RealTimeArbiter with their loops, proved to compute the engine functions. */
module Arbiter {
  import opened Basics
  import opened Pieces
  import opened Boards
  import opened Paths
  import opened Rules
  import opened Engine

  /** The queues of in-flight moves and jumps and the table of rests. */
  class MoveScheduler {
    var pending: seq<PendingMove>
    var jumps: seq<JumpState>
    var rests: map<Id, Rest>

    constructor ()
      ensures pending == [] && jumps == [] && rests == map[]
    {
      pending, jumps, rests := [], [], map[];
    }

    method IsPieceMoving(clock: int, c: Cell) returns (moving: bool)
      ensures moving <==> exists m :: m in pending && clock < m.arrival && m.start == c
    {
      for i := 0 to |pending|
        invariant forall k :: 0 <= k < i ==> !(clock < pending[k].arrival && pending[k].start == c)
      {
        if clock < pending[i].arrival && pending[i].start == c {
          return true;
        }
      }
      return false;
    }

    method IsPieceJumping(clock: int, c: Cell) returns (jumping: bool)
      ensures jumping <==> exists j :: j in jumps && clock < j.arrival && j.cell == c
    {
      for i := 0 to |jumps|
        invariant forall k :: 0 <= k < i ==> !(clock < jumps[k].arrival && jumps[k].cell == c)
      {
        if clock < jumps[i].arrival && jumps[i].cell == c {
          return true;
        }
      }
      return false;
    }

    method IsSameColorDestinationClaimed(clock: int, color: Color, c: Cell) returns (claimed: bool)
      ensures claimed <==> exists m :: m in pending && clock < m.arrival && m.color == color && m.end == c
    {
      for i := 0 to |pending|
        invariant forall k :: 0 <= k < i ==>
                    !(clock < pending[k].arrival && pending[k].color == color && pending[k].end == c)
      {
        if clock >= pending[i].arrival || pending[i].color != color {
          continue;
        }
        if pending[i].end == c {
          return true;
        }
      }
      return false;
    }

    method CancelPendingMove(id: Id)
      modifies `pending
      ensures pending == Drop(old(pending), id)
    {
      var i := 0;
      while i < |pending| && pending[i].id != id
        invariant 0 <= i <= |pending|
        invariant Drop(pending, id) == pending[..i] + Drop(pending[i..], id)
      {
        i := i + 1;
      }
      if i < |pending| {
        pending := pending[..i] + pending[i + 1..];
      }
    }

    method ScheduleRest(id: Id, rest: Rest)
      modifies `rests
      ensures rests == old(rests)[id := rest]
    {
      rests := rests[id := rest];
    }

    method ClearRest(id: Id)
      modifies `rests
      ensures rests == old(rests) - {id}
    {
      rests := rests - {id};
    }

    /** Erase while iterating, in any order. */
    method ExpireRestsAt(clock: int)
      modifies `rests
      ensures rests == ExpireRests(old(rests), clock)
    {
      var todo := rests.Keys;
      var all := rests;
      var kept := all;
      while todo != {}
        invariant todo <= all.Keys
        invariant kept == map id | id in all && (id in todo || clock < all[id].end) :: all[id]
        decreases todo
      {
        SomeMember(todo);
        var id :| id in todo;
        if clock >= all[id].end {
          kept := kept - {id};
        }
        todo := todo - {id};
      }
      rests := kept;
    }
  }

  /** CollisionResolver::check_for_jump_capture, on the board in place. */
  method CheckForJumpCapture(board: BoardModel, clock: int, jumps: seq<JumpState>, m: PendingMove, gameOver: bool)
    returns (captured: bool, over: bool)
    requires board.Valid() && MoveFits(DimsOf(board.Value()), m)
    modifies board
    ensures board.Valid()
    ensures Resolution(captured, board.Value(), over && !gameOver) ==
            var r := Resolve(old(board.Value()), jumps, clock, m); r.(kingLost := r.kingLost && !gameOver)
    ensures gameOver ==> over
  {
    over := gameOver;
    var arriving := Get(board.Value(), m.id);
    for i := 0 to |jumps|
      invariant forall k :: 0 <= k < i ==> !Guards(jumps[k], clock, m.end, arriving.color)
    {
      if clock <= jumps[i].arrival && jumps[i].cell == m.end && arriving.color != jumps[i].color {
        assert Guards(jumps[i], clock, m.end, arriving.color);
        if arriving.kind == King {
          over := true;
        }
        return true, over;
      }
    }
    var destination := PieceAt(board.Value(), m.end);
    if destination.Some? && destination.value.color != arriving.color {
      if destination.value.kind == King {
        over := true;
      }
      board.RemovePieceAt(m.end);
      board.PlacePieceAt(m.end, Arrived(board.Value(), m));
      return true, over;
    }
    return false, over;
  }

  /** Reference form of has_common_route. Horizontal moves conflict on overlapping columns even on different rows. */
  ghost predicate CommonRoute(a: PendingMove, b: PendingMove) {
    || ShareCell(a.start, a.end, b.start, b.end)
    || (a.start.row == a.end.row && b.start.row == b.end.row &&
        exists x :: Spans(a.start.col, a.end.col, x) && Spans(b.start.col, b.end.col, x))
    || (!(a.start.row == a.end.row && b.start.row == b.end.row) &&
        a.start.col == a.end.col && b.start.col == b.end.col &&
        exists x :: Spans(a.start.row, a.end.row, x) && Spans(b.start.row, b.end.row, x))
  }

  predicate Spans(p: int, q: int, x: int) {
    p <= x <= q || q <= x <= p
  }

  method RangesOverlap(p: int, q: int, r: int, s: int) returns (overlap: bool)
    ensures overlap <==> exists x :: Spans(p, q, x) && Spans(r, s, x)
  {
    var aMin, aMax := if p < q then p else q, Max(p, q);
    var bMin, bMax := if r < s then r else s, Max(r, s);
    overlap := aMin <= bMax && bMin <= aMax;
    if overlap {
      var x := Max(aMin, bMin);
      assert Spans(p, q, x) && Spans(r, s, x);
    }
  }

  method HasCommonRoute(a: PendingMove, b: PendingMove) returns (common: bool)
    ensures common <==> CommonRoute(a, b)
  {
    common := PathsShareCell(a.start, a.end, b.start, b.end);
    if common {
      return;
    }
    if a.start.row == a.end.row && b.start.row == b.end.row {
      common := RangesOverlap(a.start.col, a.end.col, b.start.col, b.end.col);
      return;
    }
    if a.start.col == a.end.col && b.start.col == b.end.col {
      common := RangesOverlap(a.start.row, a.end.row, b.start.row, b.end.row);
      return;
    }
    return false;
  }

  lemma CommonRouteSymmetric(a: PendingMove, b: PendingMove)
    ensures CommonRoute(a, b) <==> CommonRoute(b, a)
  {
    ShareCellSymmetric(a.start, a.end, b.start, b.end);
  }

  /** On a row, sharing a column is sharing a cell: the extra test for horizontal moves adds exactly those on different rows. */
  lemma RowsDoNotMatter(a: PendingMove, b: PendingMove)
    requires a.start.row == a.end.row && b.start.row == b.end.row
    ensures var overlap := exists x :: Spans(a.start.col, a.end.col, x) && Spans(b.start.col, b.end.col, x);
            && (ShareCell(a.start, a.end, b.start, b.end) <==> (a.start.row == b.start.row && overlap))
            && (CommonRoute(a, b) <==> overlap)
  {
    if ShareCell(a.start, a.end, b.start, b.end) {
      var p :| OnSegment(p, a.start, a.end) && OnSegment(p, b.start, b.end);
      assert Spans(a.start.col, a.end.col, p.col) && Spans(b.start.col, b.end.col, p.col);
    }
    if x :| Spans(a.start.col, a.end.col, x) && Spans(b.start.col, b.end.col, x) {
      if a.start.row == b.start.row {
        var p := Cell(a.start.row, x);
        assert OnSegment(p, a.start, a.end) && OnSegment(p, b.start, b.end);
      }
    }
  }

  /** Likewise for vertical moves; any other pair conflicts if and only if it shares a cell. */
  lemma ColumnsDoNotMatter(a: PendingMove, b: PendingMove)
    requires a.start.row != a.end.row || b.start.row != b.end.row
    ensures a.start.col == a.end.col && b.start.col == b.end.col ==>
              (CommonRoute(a, b) <==> exists x :: Spans(a.start.row, a.end.row, x) && Spans(b.start.row, b.end.row, x))
    ensures a.start.col != a.end.col || b.start.col != b.end.col ==>
              (CommonRoute(a, b) <==> ShareCell(a.start, a.end, b.start, b.end))
  {
    if a.start.col == a.end.col && b.start.col == b.end.col && ShareCell(a.start, a.end, b.start, b.end) {
      var p :| OnSegment(p, a.start, a.end) && OnSegment(p, b.start, b.end);
      assert Spans(a.start.row, a.end.row, p.row) && Spans(b.start.row, b.end.row, p.row);
    }
  }

  method RestorePieceToCell(board: BoardModel, id: Id, c: Cell)
    requires board.Valid() && Stored(board.Value(), id) && InBounds(board.Value(), c)
    modifies board
    ensures board.Valid() && board.Value() == Restore(old(board.Value()), id, c)
  {
    board.SetPieceState(id, Idle);
    if IdAt(board.Value(), c) == Some(id) {
      return;
    }
    if IdAt(board.Value(), c).Some? {
      board.RemovePieceAt(c);
    }
    board.PlacePieceAt(c, Get(board.Value(), id));
  }

  /** The clock and the settlement loops. */
  class RealTimeArbiter {
    const scheduler: MoveScheduler
    var clock: int

    constructor ()
      ensures fresh(scheduler) && clock == 0
      ensures scheduler.pending == [] && scheduler.jumps == [] && scheduler.rests == map[]
    {
      scheduler := new MoveScheduler();
      clock := 0;
    }

    /** The game this arbiter and a board hold together. */
    ghost function WorldOf(board: BoardModel, over: bool, sel: Option<Cell>): World
      requires board.Valid()
      reads this, scheduler, board
    {
      World(board.Value(), scheduler.pending, scheduler.jumps, scheduler.rests, clock, over, sel)
    }

    /** The second half of the callback: place, keep or capture the arriving piece. */
    method ConcludeArrival(board: BoardModel, m: PendingMove, captured: bool, before: Option<Piece>,
                           ghost w: World, ghost r: Resolution) returns (changed: bool)
      requires board.Valid() && MoveFits(DimsOf(board.Value()), m)
      requires r.board == board.Value() && r.captured == captured && w.rests == scheduler.rests
      modifies board, scheduler`rests
      ensures board.Valid()
      ensures var s := Conclude(w, m, r, before);
              board.Value() == s.w.board && scheduler.rests == s.w.rests && changed == s.changed
    {
      if !captured {
        board.PlacePieceAt(m.end, Arrived(board.Value(), m));
        scheduler.ScheduleRest(m.id, MakeRest(Long, m.arrival, m.end));
        changed := true;
      } else if IdAt(board.Value(), m.end) == Some(m.id) {
        if before.Some? && before.value.color != Get(board.Value(), m.id).color {
          scheduler.ClearRest(before.value.id);
        }
        scheduler.ScheduleRest(m.id, MakeRest(Long, m.arrival, m.end));
        changed := true;
      } else {
        scheduler.ClearRest(m.id);
        board.SetPieceState(m.id, Captured);
        changed := false;
      }
    }

    /** The callback run for one due move. */
    method SettleArrival(board: BoardModel, m: PendingMove, gameOver: bool, ghost w: World)
      returns (over: bool, changed: bool)
      requires board.Valid() && MoveFits(DimsOf(board.Value()), m)
      requires w == WorldOf(board, gameOver, w.selected).(pending := w.pending)
      modifies board, scheduler`rests
      ensures board.Valid()
      ensures Settlement(WorldOf(board, over, w.selected).(pending := w.pending), changed) == SettleMove(w, m)
    {
      hide CanSettle, Conclude, Resolve, Restore;
      var settles := CanSettleMove(board.Value(), m.id, m.start, m.end);
      if !settles {
        RestorePieceToCell(board, m.id, m.start);
        return gameOver, false;
      }
      if IdAt(board.Value(), m.start) == Some(m.id) {
        board.ClearCell(m.start);
      }
      var before := PieceAt(board.Value(), m.end);
      ghost var r := Resolve(board.Value(), scheduler.jumps, clock, m);
      var captured;
      captured, over := CheckForJumpCapture(board, clock, scheduler.jumps, m, gameOver);
      changed := ConcludeArrival(board, m, captured, before, w, r);
    }

    /** The moves still in flight that the board no longer allows. */
    method FindInvalid(b: Board) returns (bad: seq<PendingMove>)
      requires forall m :: m in scheduler.pending ==> MoveFits(DimsOf(b), m)
      ensures bad == Invalid(b, clock, scheduler.pending)
    {
      hide CanSettle;
      bad := [];
      ghost var rest := scheduler.pending;
      for i := 0 to |scheduler.pending|
        invariant rest == scheduler.pending[i..] && forall m :: m in rest ==> MoveFits(DimsOf(b), m)
        invariant bad + Invalid(b, clock, rest) == Invalid(b, clock, scheduler.pending)
      {
        var m := scheduler.pending[i];
        assert m == rest[0] && MoveFits(DimsOf(b), m);
        rest := rest[1..];
        if clock < m.arrival {
          var settles := CanSettleMove(b, m.id, m.start, m.end);
          if !settles {
            bad := bad + [m];
          }
        }
      }
    }

    method CancelInvalidInFlightMoves(board: BoardModel, ghost w: World)
      requires board.Valid() && w == WorldOf(board, w.gameOver, w.selected) && Fits(w)
      modifies board, scheduler`pending
      ensures board.Valid()
      ensures WorldOf(board, w.gameOver, w.selected) ==
              CancelAll(w, Invalid(w.board, w.clock, w.pending))
    {
      hide CanSettle, Restore;
      var bad := FindInvalid(board.Value());
      for i := 0 to |bad|
        invariant board.Valid() && forall m :: m in bad ==> MoveFits(DimsOf(board.Value()), m)
        invariant CancelAll(WorldOf(board, w.gameOver, w.selected), bad[i..]) == CancelAll(w, bad)
      {
        var m := bad[i];
        assert m in bad;
        assert bad[i..][0] == m && bad[i..][1..] == bad[i + 1..];
        RestorePieceToCell(board, m.id, m.start);
        scheduler.CancelPendingMove(m.id);
      }
    }

    method SettleDueMoves(board: BoardModel, gameOver: bool, ghost w: World) returns (over: bool, changed: bool)
      requires board.Valid() && w == WorldOf(board, gameOver, w.selected) && Fits(w)
      modifies board, scheduler`rests, scheduler`pending
      ensures board.Valid()
      ensures Settlement(WorldOf(board, over, w.selected), changed) == SettleDue(w.(pending := []), w.pending, false)
    {
      hide SettleMove;
      over, changed := gameOver, false;
      var queue := scheduler.pending;
      var still: seq<PendingMove> := [];
      assert queue[0..] == queue;
      for i := 0 to |queue|
        invariant board.Valid() && scheduler.pending == queue
        invariant forall m :: m in queue ==> MoveFits(DimsOf(board.Value()), m)
        invariant SettleDue(WorldOf(board, over, w.selected).(pending := still), queue[i..], changed) ==
                  SettleDue(w.(pending := []), queue, false)
      {
        var m := queue[i];
        assert MoveFits(DimsOf(board.Value()), m);
        assert queue[i..][0] == m && queue[i..][1..] == queue[i + 1..];
        if clock < m.arrival {
          still := still + [m];
        } else {
          var c;
          over, c := SettleArrival(board, m, over, WorldOf(board, over, w.selected).(pending := still));
          changed := changed || c;
        }
      }
      scheduler.pending := still;
    }

    method ExpireJumpsNow(board: BoardModel, ghost w: World)
      requires board.Valid() && w == WorldOf(board, w.gameOver, w.selected) && Fits(w)
      modifies board, scheduler`rests, scheduler`jumps
      ensures board.Valid()
      ensures WorldOf(board, w.gameOver, w.selected) == ExpireJumps(w.(jumps := []), w.jumps)
    {
      hide Restore;
      var queue := scheduler.jumps;
      var still: seq<JumpState> := [];
      assert queue[0..] == queue;
      for i := 0 to |queue|
        invariant board.Valid() && scheduler.jumps == queue
        invariant forall j :: j in queue ==> JumpFits(DimsOf(board.Value()), j)
        invariant ExpireJumps(WorldOf(board, w.gameOver, w.selected).(jumps := still), queue[i..]) ==
                  ExpireJumps(w.(jumps := []), queue)
      {
        var j := queue[i];
        assert JumpFits(DimsOf(board.Value()), j);
        assert queue[i..][0] == j && queue[i..][1..] == queue[i + 1..];
        if clock < j.arrival {
          still := still + [j];
        } else {
          RestorePieceToCell(board, j.id, j.cell);
          scheduler.ScheduleRest(j.id, MakeRest(Short, j.arrival, j.cell));
        }
      }
      scheduler.jumps := still;
    }

    /** settle_pending_moves: due moves, cancelled moves, expired jumps, expired rests. */
    method SettlePendingMoves(board: BoardModel, gameOver: bool, ghost sel: Option<Cell>) returns (over: bool)
      requires board.Valid() && Fits(WorldOf(board, gameOver, sel))
      modifies board, scheduler
      ensures board.Valid()
      ensures WorldOf(board, over, sel) == Settle(old(WorldOf(board, gameOver, sel)))
    {
      hide SettleDue, ExpireJumps, CancelAll, Invalid;
      ghost var w := WorldOf(board, gameOver, sel);
      var changed;
      over, changed := SettleDueMoves(board, gameOver, w);
      if changed {
        CancelInvalidInFlightMoves(board, WorldOf(board, over, sel));
      }
      assert WorldOf(board, over, sel) == AfterArrivals(w);
      ExpireJumpsNow(board, WorldOf(board, over, sel));
      scheduler.ExpireRestsAt(clock);
    }

    method UpdateTime(ms: int, board: BoardModel, gameOver: bool, ghost sel: Option<Cell>) returns (over: bool)
      requires board.Valid() && Fits(WorldOf(board, gameOver, sel))
      modifies this, board, scheduler
      ensures board.Valid()
      ensures WorldOf(board, over, sel) == Tick(old(WorldOf(board, gameOver, sel)), ms)
    {
      hide Settle;
      clock := clock + ms;
      over := SettlePendingMoves(board, gameOver, sel);
    }
  }
}
