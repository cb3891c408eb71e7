/** What a jump does to an opposing arrival on its cell: exactly when it shoots it down, and when it goes home. */
module Guarded {
  import opened Pieces
  import opened Boards
  import opened Paths
  import opened Rules
  import opened Engine
  import opened Conservation
  import opened Invariants
  import opened Runs
  import opened Flights
  import opened Evictions
  import opened Timing
  import opened Landing

  // ---------------------------------------------------------------- one arrival

  /** Under a jump an arrival is captured if and only if it passes the arrival check; otherwise it goes home. */
  lemma JumpDecides(w: World, m: PendingMove)
    requires BoardOk(w.board) && MoveOk(w.board, m) && HostileJump(w.jumps, w.clock, m.end, m.color)
    ensures var b' := SettleMove(w, m).w.board;
            && (IsCaptured(b', m.id) <==> CanSettle(w.board, m.id, m.start, m.end))
            && (IdleOn(b', m.id, m.start) <==> !CanSettle(w.board, m.id, m.start, m.end))
  {
    hide SettleMove, CanSettle, HostileJump, Restore;
    SettleMoveCases(w, m);
    RestoreGrounds(w.board, m.id);
  }

  /** A diagonal step forward of a pawn. */
  predicate PawnCapture(m: PendingMove) {
    m.kind == Pawn && Abs(m.end.col - m.start.col) == 1 && m.end.row - m.start.row == if m.color == White then -1 else 1
  }

  ghost predicate HostileOn(b: Board, c: Cell, color: Color) {
    PieceAt(b, c).Some? && PieceAt(b, c).value.color != color
  }

  /** A capturing pawn under a jump is shot down if and only if a hostile piece stands on the cell itself; the jumper does not. */
  lemma PawnUnderJump(w: World, m: PendingMove)
    requires BoardOk(w.board) && MoveOk(w.board, m) && HostileJump(w.jumps, w.clock, m.end, m.color) && PawnCapture(m)
    ensures var b' := SettleMove(w, m).w.board;
            && (IsCaptured(b', m.id) <==> HostileOn(w.board, m.end, m.color))
            && (IdleOn(b', m.id, m.start) <==> !HostileOn(w.board, m.end, m.color))
  {
    hide SettleMove, HostileJump;
    JumpDecides(w, m);
  }

  // ---------------------------------------------------------------- a whole tick

  /** The game as m finds it when its turn comes among the due moves. */
  ghost function AtArrival(w: World, queue: seq<PendingMove>, m: PendingMove): (r: World)
    requires m in queue && forall x :: x in queue ==> MoveFits(DimsOf(w.board), x)
    ensures DimsOf(r.board) == DimsOf(w.board) && r.jumps == w.jumps && r.clock == w.clock
    decreases |queue|
  {
    var q := queue[0];
    assert MoveFits(DimsOf(w.board), q);
    if q == m then w
    else if w.clock < q.arrival then AtArrival(w.(pending := w.pending + [q]), queue[1..], m)
    else AtArrival(SettleMove(w, q).w, queue[1..], m)
  }

  /** No other due move ends on the cell m left. */
  ghost predicate HomeUndisturbed(clock: int, queue: seq<PendingMove>, m: PendingMove) {
    forall x :: x in queue && x != m && x.arrival <= clock ==> x.end != m.start
  }

  lemma {:induction false} DueUnderJump(w: World, queue: seq<PendingMove>, changed: bool, m: PendingMove)
    requires Steady(w, w.pending + queue, w.jumps) && m in queue && m.arrival <= w.clock
    requires forall x :: x in queue ==> MoveFits(DimsOf(w.board), x)
    requires forall x :: x in w.pending ==> w.clock < x.arrival
    requires HostileJump(w.jumps, w.clock, m.end, m.color)
    ensures var b' := SettleDue(w, queue, changed).w.board;
            if CanSettle(AtArrival(w, queue, m).board, m.id, m.start, m.end) then IsCaptured(b', m.id)
            else HomeUndisturbed(w.clock, queue, m) ==> IdleOn(b', m.id, m.start)
    decreases |queue|
  {
    hide Steady, SettleMove, CanSettle, HostileJump, BoardOk, Onward;
    var q, tail := queue[0], queue[1..];
    assert w.pending + queue == w.pending + [q] + tail;
    SteadyMember(w, w.pending + queue, m);
    SteadyMember(w, w.pending + queue, q);
    var s := SettleMove(w, q);
    if q == m {
      JumpDecides(w, m);
      SettleMoveKeeps(w, m, tail);
      TailStartsElsewhere(w, m, tail);
      if IsCaptured(s.w.board, m.id) {
        SettleDueKeeps(s.w, tail, changed || s.changed);
        CapturedStays(s.w, SettleDue(s.w, tail, changed || s.changed).w, m.id);
      } else if HomeUndisturbed(w.clock, queue, m) {
        SettleDueSpares(s.w, tail, changed || s.changed, m.id);
      }
    } else if w.clock < q.arrival {
      var w1 := w.(pending := w.pending + [q]);
      SteadyQueues(w, w1);
      DueUnderJump(w1, tail, changed, m);
    } else {
      SettleMoveKeeps(w, q, tail);
      DueUnderJump(s.w, tail, changed || s.changed, m);
    }
  }

  lemma TailStartsElsewhere(w: World, m: PendingMove, tail: seq<PendingMove>)
    requires Steady(w, w.pending + [m] + tail, w.jumps)
    ensures forall x :: x in tail ==> x != m && x.start != m.start
  {
    var all := w.pending + [m] + tail;
    NotInTail(w.pending, m, tail);
    forall x | x in tail
      ensures x.start != m.start
    {
      assert x in all && m in all;
      var i :| 0 <= i < |tail| && tail[i] == x;
      assert all[|w.pending|] == m && all[|w.pending| + 1 + i] == x;
      assert Aloft(w.board, x.id) && Aloft(w.board, m.id);
    }
  }

  /** A cell that a flying piece left is its own: nobody else comes home to it. */
  lemma NobodyReturnsTo(w: World, m: PendingMove)
    requires Steady(w, w.pending, w.jumps) && Fits(w) && m in w.pending && m.arrival <= w.clock
    ensures NobodyReturns(w, m.start)
  {
    hide Steady, Spoiled;
    MoveApartFromJumps(w, m);
    forall x | x in w.pending && w.clock < x.arrival
      ensures x.start != m.start
    {
      MoveIdsAreUnique(w, x, m);
      StartsDiffer(w, x, m);
    }
  }

  lemma SettleUnderJump(w: World, m: PendingMove)
    requires Steady(w, w.pending, w.jumps) && Fits(w) && m in w.pending && m.arrival <= w.clock
    requires HostileJump(w.jumps, w.clock, m.end, m.color)
    ensures var b' := Settle(w).board;
            if CanSettle(AtArrival(w.(pending := []), w.pending, m).board, m.id, m.start, m.end) then IsCaptured(b', m.id)
            else HomeUndisturbed(w.clock, w.pending, m) ==> IdleOn(b', m.id, m.start)
  {
    hide Steady, Settle, Later, SettleDue, CanSettle, HostileJump, HomeUndisturbed, AtArrival, Onward, Expired;
    var w0 := w.(pending := []);
    assert w0.pending + w.pending == w.pending;
    SteadyQueues(w, w0);
    DueUnderJump(w0, w.pending, false, m);
    SettleKeeps(w);
    if IsCaptured(DueSettled(w).w.board, m.id) {
      CapturedStays(DueSettled(w).w, Expired(w), m.id);
    } else if HomeUndisturbed(w.clock, w.pending, m) {
      NobodyReturnsTo(w, m);
      LandedStays(w, m.id, m.start);
    }
  }

  /**
   A jump through a whole tick. The arrival is captured if the board it finds lets it settle. Otherwise it goes
   home, and it is there when the tick is over unless another due move ends on that very cell.
   */
  lemma GuardedArrival(w: World, ms: int, m: PendingMove, j: JumpState)
    requires Inv(w) && m in w.pending && j in w.jumps
    requires m.arrival <= w.clock + ms <= j.arrival && m.end == j.cell && m.color != j.color
    ensures var w1 := w.(clock := w.clock + ms, pending := []);
            var b' := Do(w, AdvanceClock(ms)).board;
            (ClockIsFree(w, w.clock + ms);
             if CanSettle(AtArrival(w1, w.pending, m).board, m.id, m.start, m.end) then IsCaptured(b', m.id)
             else
               && (IdleOn(b', m.id, m.start) || IsCaptured(b', m.id))
               && (HomeUndisturbed(w.clock + ms, w.pending, m) ==> IdleOn(b', m.id, m.start)))
  {
    hide Steady, Quiet, Settle, Later, CanSettle, HostileJump, HomeUndisturbed, AtArrival;
    var w1 := w.(clock := w.clock + ms);
    ClockIsFree(w, w.clock + ms);
    JumpGuards(w1.jumps, j, w1.clock, m.end, m.color);
    SettleUnderJump(w1, m);
    GuardedCellIsNeverEntered(w, ms, m, j);
  }

  lemma JumpGuards(jumps: seq<JumpState>, j: JumpState, clock: int, c: Cell, color: Color)
    requires j in jumps && clock <= j.arrival && j.cell == c && j.color != color
    ensures HostileJump(jumps, clock, c, color)
  {
    assert Guards(j, clock, c, color);
  }

  /** Arrivals apart from m do not change the verdict on it: the board before the tick already decides. */
  lemma {:induction false} VerdictStands(w: World, queue: seq<PendingMove>, m: PendingMove)
    requires Steady(w, w.pending + queue, w.jumps) && m in queue
    requires forall x :: x in queue ==> MoveFits(DimsOf(w.board), x)
    requires forall x :: x in queue && x != m && x.arrival <= w.clock ==> Apart(x, m)
    ensures Stored(w.board, m.id)
    ensures CanSettle(AtArrival(w, queue, m).board, m.id, m.start, m.end) <==> CanSettle(w.board, m.id, m.start, m.end)
    decreases |queue|
  {
    hide Steady, SettleMove, CanSettle, BoardOk, Onward, Later, Apart, Undisturbed;
    var q, tail := queue[0], queue[1..];
    assert w.pending + queue == w.pending + [q] + tail;
    SteadyMember(w, w.pending + queue, m);
    SteadyMember(w, w.pending + queue, q);
    if q != m {
      if w.clock < q.arrival {
        var w1 := w.(pending := w.pending + [q]);
        SteadyQueues(w, w1);
        VerdictStands(w1, tail, m);
      } else {
        var s := SettleMove(w, q);
        SettleMoveKeeps(w, q, tail);
        OnwardIsLater(w, s.w);
        ApartLeavesPath(w, q, m);
        SteadyMember(s.w, s.w.pending + tail, m);
        SameVerdict(w.board, s.w.board, m);
        VerdictStands(s.w, tail, m);
      }
    }
  }

  lemma SameVerdict(b: Board, b': Board, m: PendingMove)
    requires MoveOk(b, m) && MoveOk(b', m) && Later(b, b') && Undisturbed(b, b', m)
    ensures CanSettle(b', m.id, m.start, m.end) <==> CanSettle(b, m.id, m.start, m.end)
  {
    hide CanSettle;
    CanSettleFrame(b, b', m.id, m.start, m.end);
  }

  /** Read off before the tick: with the other arrivals out of the way, the jump captures if and only if the move could settle now. */
  lemma GuardedVerdict(w: World, ms: int, m: PendingMove, j: JumpState)
    requires Inv(w) && m in w.pending && j in w.jumps
    requires m.arrival <= w.clock + ms <= j.arrival && m.end == j.cell && m.color != j.color
    requires forall x :: x in w.pending && x != m && x.arrival <= w.clock + ms ==> Apart(x, m) && x.end != m.start
    ensures Stored(w.board, m.id)
    ensures var b' := Do(w, AdvanceClock(ms)).board;
            if CanSettle(w.board, m.id, m.start, m.end) then IsCaptured(b', m.id) else IdleOn(b', m.id, m.start)
  {
    hide Steady, Quiet, Settle, Later, CanSettle, AtArrival, Apart;
    var w1 := w.(clock := w.clock + ms);
    ClockIsFree(w, w.clock + ms);
    var w0 := w1.(pending := []);
    assert w0.pending + w1.pending == w1.pending;
    SteadyQueues(w1, w0);
    VerdictStands(w0, w1.pending, m);
    GuardedArrival(w, ms, m, j);
  }

  // ---------------------------------------------------------------- a pawn that goes home

  const PAWN_HOME := Cell(1, 0)
  const TARGET := Cell(0, 1)

  function PawnAndRook(): Board {
    RawBoard([[None, Some(1)], [Some(2), None]],
             [Piece(1, Black, Rook, TARGET, Idle), Piece(2, White, Pawn, PAWN_HOME, Idle)])
  }

  /** The pawn sets off to capture the rook, the rook jumps, and both are due at 1000. */
  function Dodge(): seq<Action> {
    [Select(PAWN_HOME), MoveSelected(TARGET), JumpAt(TARGET), AdvanceClock(1000)]
  }

  const CAPTURE := PendingMove(2, White, Pawn, PAWN_HOME, TARGET, 0, 1000)
  const DODGE := JumpState(1, Black, Rook, TARGET, 0, 1000)

  function PawnAloft(): World {
    World(RawBoard([[None, Some(1)], [None, None]],
                   [Piece(1, Black, Rook, TARGET, Idle), Piece(2, White, Pawn, PAWN_HOME, Moving)]),
          [CAPTURE], [], map[], 0, false, None)
  }

  function BothAloft(): World {
    World(RawBoard([[None, None], [None, None]],
                   [Piece(1, Black, Rook, TARGET, Moving), Piece(2, White, Pawn, PAWN_HOME, Moving)]),
          [CAPTURE], [DODGE], map[], 0, false, None)
  }

  lemma PawnTakesOff()
    ensures MoveSelectedTo(NewGame(PawnAndRook()).(selected := Some(PAWN_HOME)), TARGET) == PawnAloft()
  {
    var b := PawnAndRook();
    assert IdAt(b, PAWN_HOME) == Some(2) && IdAt(b, TARGET) == Some(1);
    var row: seq<Option<Id>> := [Some(2), None];
    assert row[0 := None] == [None, None];
    assert Lift(b, PAWN_HOME) == PawnAloft().board;
  }

  lemma RookDodges()
    ensures JumpAtCell(PawnAloft(), TARGET) == BothAloft()
  {
    var b := PawnAloft().board;
    assert IdAt(b, TARGET) == Some(1);
    var row: seq<Option<Id>> := [None, Some(1)];
    assert row[1 := None] == [None, None];
    assert Lift(b, TARGET) == BothAloft().board;
  }

  lemma PawnStart()
    ensures StartBoard(PawnAndRook())
  {
    var b := PawnAndRook();
    assert IdAt(b, TARGET) == Some(1) && IdAt(b, PAWN_HOME) == Some(2);
  }

  lemma DodgeIsReachable()
    ensures StartBoard(PawnAndRook()) && Play(PawnAndRook(), Dodge()[..3]) == BothAloft()
  {
    hide Inv, StartBoard, JumpAtCell, MoveSelectedTo, Settle, Run;
    PawnStart();
    var w := NewGame(PawnAndRook());
    NewGameHolds(PawnAndRook());
    PawnTakesOff();
    RookDodges();
    assert Do(w, Select(PAWN_HOME)) == w.(selected := Some(PAWN_HOME));
    ThreeActions(w, Dodge()[..3]);
  }

  lemma PawnCannotSettle()
    ensures !CanSettle(BothAloft().board, 2, PAWN_HOME, TARGET)
  {
    assert IdAt(BothAloft().board, TARGET).None?;
  }

  /**
   Not every opposing arrival inside a jump's window is captured: in this reachable game the jump guards the
   cell, the pawn's capture of it is due, and the tick sends the pawn home unharmed.
   */
  lemma PawnGoesHome()
    ensures StartBoard(PawnAndRook())
    ensures var w := Play(PawnAndRook(), Dodge()[..3]);
            CAPTURE in w.pending && CAPTURE.arrival <= 1000 && HostileJump(w.jumps, 1000, TARGET, White)
    ensures IdleOn(Play(PawnAndRook(), Dodge()).board, 2, PAWN_HOME)
  {
    hide Inv, StartBoard, Run, Do, CanSettle;
    DodgeIsReachable();
    NewGameHolds(PawnAndRook());
    var acts := Dodge();
    assert acts == acts[..3] + [AdvanceClock(1000)];
    RunOneMore(NewGame(PawnAndRook()), acts[..3], AdvanceClock(1000));
    var w := Play(PawnAndRook(), acts[..3]);
    assert DODGE in w.jumps && CAPTURE in w.pending;
    JumpGuards(w.jumps, DODGE, 1000, TARGET, White);
    PawnCannotSettle();
    GuardedVerdict(w, 1000, CAPTURE, DODGE);
  }
}
