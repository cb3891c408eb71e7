/** Time over whole runs: cooldowns, jump windows, promotions and undisturbed landings. */
module Timing {
  import opened Pieces
  import opened Boards
  import opened Paths
  import opened Rules
  import opened Engine
  import opened Conservation
  import opened Invariants
  import opened Runs
  import opened Quiescence
  import opened Flights

  /** No action of the run turns the clock back. */
  predicate Forward(actions: seq<Action>) {
    forall a :: a in actions && a.AdvanceClock? ==> a.ms >= 0
  }

  lemma {:induction false} RunClock(w: World, actions: seq<Action>)
    requires Inv(w) && Forward(actions)
    ensures w.clock <= Run(w, actions).clock
    decreases |actions|
  {
    hide Apply, Steady, Quiet, Later;
    if actions != [] {
      assert actions[0] in actions;
      RunClock(Do(w, actions[0]), actions[1..]);
    }
  }

  // ---------------------------------------------------------------- cooldown

  lemma LiftSpares(w: World, c: Cell, id: Id)
    requires Inv(w) && IdAt(w.board, c).Some? && Free(w, c) && id in w.rests
    ensures Get(Lift(w.board, c), id) == Get(w.board, id)
  {
    FreeIsUnreserved(w, c);
    LiftKeepsBoard(w.board, c);
  }

  /** Until the rest of the piece is over in w', it is captured, or in place with its entry. */
  ghost predicate StillRests(w: World, w': World, id: Id)
    requires Stored(w.board, id) && DimsOf(w'.board) == DimsOf(w.board) && id in w.rests
  {
    w'.clock < w.rests[id].end ==>
      || IsCaptured(w'.board, id)
      || (Get(w'.board, id) == Get(w.board, id) && id in w'.rests && w'.rests[id] == w.rests[id])
  }

  lemma LiftRest(w: World, w': World, c: Cell, id: Id)
    requires Inv(w) && IdAt(w.board, c).Some? && Free(w, c) && id in w.rests && Stored(w.board, id)
    requires w'.board == Lift(w.board, c) && w'.rests == w.rests
    ensures StillRests(w, w', id)
  {
    hide Inv, Lift;
    LiftSpares(w, c, id);
  }

  lemma TickRest(w: World, ms: int, id: Id)
    requires Inv(w) && Fits(w) && id in w.rests && Stored(w.board, id)
    ensures StillRests(w, Tick(w, ms), id)
  {
    hide Steady, Quiet, Settle, Later;
    RestingIsGrounded(w, id);
    var w1 := w.(clock := w.clock + ms);
    ClockIsFree(w, w.clock + ms);
    SettleKeeps(w1);
    OnwardTransitive(w1, DueSettled(w1).w, Expired(w1));
  }

  /** One action cannot move a resting piece: until its rest is over it is idle in place or captured. */
  lemma ApplyRest(w: World, a: Action, id: Id)
    requires Inv(w) && Fits(w) && id in w.rests
    ensures Stored(w.board, id) && StillRests(w, Apply(w, a), id)
  {
    hide Inv, Tick, Lift, CanMove, Free;
    RestingIsGrounded(w, id);
    match a
    case MoveSelected(e) =>
      if MoveSelectedTo(w, e) != w {
        AcceptedIsFree(w, e);
        LiftRest(w, MoveSelectedTo(w, e), w.selected.value, id);
      }
    case JumpSelected =>
      if w.selected.Some? && JumpAtCell(w, w.selected.value) != w {
        LiftRest(w, JumpAtCell(w, w.selected.value), w.selected.value, id);
      }
    case JumpAt(c) =>
      if JumpAtCell(w, c) != w {
        LiftRest(w, JumpAtCell(w, c), c, id);
      }
    case AdvanceClock(ms) => TickRest(w, ms, id);
    case _ =>
  }

  lemma AcceptedIsFree(w: World, e: Cell)
    requires MoveSelectedTo(w, e) != w
    ensures w.selected.Some? && Free(w, w.selected.value) && IdAt(w.board, w.selected.value).Some?
  {
    hide LegalMove, Free, Lift;
  }

  lemma RestingIsGrounded(w: World, id: Id)
    requires Inv(w) && id in w.rests
    ensures Stored(w.board, id) && Get(w.board, id).state != Moving
  {
  }

  lemma {:induction false} RunRest(w: World, actions: seq<Action>, id: Id)
    requires Inv(w) && Forward(actions) && id in w.rests && Stored(w.board, id)
    ensures var w' := Run(w, actions);
            w'.clock < w.rests[id].end ==>
              || IsCaptured(w'.board, id)
              || (Get(w'.board, id) == Get(w.board, id) && id in w'.rests && w'.rests[id] == w.rests[id])
    decreases |actions|
  {
    hide Apply, Steady, Quiet;
    if actions != [] {
      var w1 := Do(w, actions[0]);
      ApplyRest(w, actions[0], id);
      RunClock(w1, actions[1..]);
      if w1.clock < w.rests[id].end && !IsCaptured(w1.board, id) {
        RunRest(w1, actions[1..], id);
      }
    }
  }

  lemma GroundedIsUnscheduled(w: World, id: Id)
    requires Inv(w) && Stored(w.board, id) && Get(w.board, id).state != Moving
    ensures !InMoves(w.pending, id) && !InJumps(w.jumps, id)
  {
  }

  /**
   Cooldown after a landing. Whatever the players do, a piece that landed at time t is neither moving nor
   jumping before t plus the long rest, as long as that time fits the 32-bit rest clock.
   */
  lemma LandedPieceRests(w: World, m: PendingMove, ms: int, actions: seq<Action>)
    requires Inv(w) && m in w.pending && m.arrival <= w.clock + ms && Forward(actions)
    requires IdleOn(Do(w, AdvanceClock(ms)).board, m.id, m.end)
    requires 0 <= m.arrival && m.arrival + 4500 < 0x8000_0000
    ensures var w' := Run(Do(w, AdvanceClock(ms)), actions);
            w'.clock < m.arrival + 4500 ==>
              !InMoves(w'.pending, m.id) && !InJumps(w'.jumps, m.id) &&
              (IsCaptured(w'.board, m.id) || IdleOn(w'.board, m.id, m.end))
  {
    hide Steady, Quiet, Settle, Run;
    var w1 := w.(clock := w.clock + ms);
    ClockIsFree(w, w.clock + ms);
    SettleDueMove(w1, m);
    PendingStart(w, m);
    RunClock(Do(w, AdvanceClock(ms)), actions);
    var w' := Run(Do(w, AdvanceClock(ms)), actions);
    if w'.clock < m.arrival + 4500 {
      RunRest(Do(w, AdvanceClock(ms)), actions, m.id);
      GroundedIsUnscheduled(w', m.id);
    }
  }

  lemma PendingStart(w: World, m: PendingMove)
    requires Inv(w) && m in w.pending
    ensures m.start != m.end && MoveOk(w.board, m)
  {
  }

  /** Cooldown after a jump: the short rest counted from the jump's expiry. */
  lemma JumpedPieceRests(w: World, j: JumpState, ms: int, actions: seq<Action>)
    requires Inv(w) && j in w.jumps && j.arrival <= w.clock + ms && Forward(actions)
    requires 0 <= j.arrival && j.arrival + 2500 < 0x8000_0000
    ensures var w' := Run(Do(w, AdvanceClock(ms)), actions);
            w'.clock < j.arrival + 2500 ==>
              !InMoves(w'.pending, j.id) && !InJumps(w'.jumps, j.id) &&
              (IsCaptured(w'.board, j.id) || IdleOn(w'.board, j.id, j.cell))
  {
    hide Steady, Quiet, Settle, Run;
    var w1 := w.(clock := w.clock + ms);
    ClockIsFree(w, w.clock + ms);
    SettleJump(w1, j);
    RunClock(Do(w, AdvanceClock(ms)), actions);
    var w' := Run(Do(w, AdvanceClock(ms)), actions);
    if w'.clock < j.arrival + 2500 {
      RunRest(Do(w, AdvanceClock(ms)), actions, j.id);
      GroundedIsUnscheduled(w', j.id);
    }
  }

  /** The 32-bit condition is exact: from any arrival past it, the piece is never seen resting at all. */
  lemma RestWindow(kind: RestKind, from: int, cell: Cell, clock: int)
    requires 0 <= from <= clock
    ensures var d := if kind == Long then 4500 else 2500;
            clock < MakeRest(kind, from, cell).end <==> from + d < 0x8000_0000 && clock < from + d
  {
  }

  // ---------------------------------------------------------------- jumps

  lemma ApplyJump(w: World, a: Action, j: JumpState)
    requires Inv(w) && j in w.jumps && (a.AdvanceClock? ==> w.clock + a.ms < j.arrival)
    ensures j in Do(w, a).jumps && Get(Do(w, a).board, j.id) == Get(w.board, j.id)
  {
    hide Steady, Quiet, Settle, Lift, Later;
    match a
    case MoveSelected(e) =>
      if MoveSelectedTo(w, e) != w {
        LiftSparesJump(w, w.selected.value, j);
      }
    case JumpSelected =>
      if w.selected.Some? && JumpAtCell(w, w.selected.value) != w {
        LiftSparesJump(w, w.selected.value, j);
      }
    case JumpAt(c) =>
      if JumpAtCell(w, c) != w {
        LiftSparesJump(w, c, j);
      }
    case AdvanceClock(ms) =>
      ClockIsFree(w, w.clock + ms);
      SettleJump(w.(clock := w.clock + ms), j);
    case _ =>
  }

  lemma LiftSparesJump(w: World, c: Cell, j: JumpState)
    requires Inv(w) && IdAt(w.board, c).Some? && Free(w, c) && j in w.jumps
    ensures Stored(w.board, j.id) && Get(Lift(w.board, c), j.id) == Get(w.board, j.id)
  {
    FreeIsUnreserved(w, c);
    LiftKeepsBoard(w.board, c);
  }

  /** A jumper cannot be captured inside its window: through any run it stays in the air with its jump. */
  lemma {:induction false} JumperIsSafe(w: World, actions: seq<Action>, j: JumpState)
    requires Inv(w) && Forward(actions) && j in w.jumps && Run(w, actions).clock < j.arrival
    ensures var w' := Run(w, actions);
            j in w'.jumps && Get(w'.board, j.id) == Get(w.board, j.id) && Get(w'.board, j.id).state == Moving
    decreases |actions|
  {
    hide Apply, Steady, Quiet, Later;
    JumpPiece(w, j);
    if actions != [] {
      var w1 := Do(w, actions[0]);
      RunClock(w1, actions[1..]);
      ApplyJump(w, actions[0], j);
      JumperIsSafe(w1, actions[1..], j);
    }
  }

  lemma JumpPiece(w: World, j: JumpState)
    requires Inv(w) && j in w.jumps
    ensures JumpOk(w.board, j)
  {
  }

  /** The first settlement past the window puts the jumper back, idle on the cell it jumped from. */
  lemma JumperComesHome(w: World, actions: seq<Action>, j: JumpState, ms: int)
    requires Inv(w) && Forward(actions) && j in w.jumps
    requires Run(w, actions).clock < j.arrival <= Run(w, actions).clock + ms
    ensures var w' := Do(Run(w, actions), AdvanceClock(ms));
            IdleOn(w'.board, j.id, j.cell) && IdAt(w'.board, j.cell) == Some(j.id)
  {
    hide Steady, Quiet, Settle, Run, Later;
    var w1 := Run(w, actions);
    JumperIsSafe(w, actions, j);
    ClockIsFree(w1, w1.clock + ms);
    SettleJump(w1.(clock := w1.clock + ms), j);
    IdleOnGrid(Do(w1, AdvanceClock(ms)), j.id);
  }

  lemma IdleOnGrid(w: World, id: Id)
    requires Inv(w) && Stored(w.board, id) && Get(w.board, id).state == Idle
    ensures IdAt(w.board, Get(w.board, id).cell) == Some(id)
  {
  }

  /** An opposing piece that passes the arrival check under a jump is captured on the spot and lands nowhere. */
  lemma JumpShootsDown(w: World, m: PendingMove)
    requires BoardOk(w.board) && MoveOk(w.board, m)
    requires CanSettle(w.board, m.id, m.start, m.end) && HostileJump(w.jumps, w.clock, m.end, m.color)
    ensures var s := SettleMove(w, m);
            && IsCaptured(s.w.board, m.id)
            && (m.kind == King ==> s.w.gameOver)
            && (forall c :: IdAt(s.w.board, c) == IdAt(w.board, c))
  {
    SettleMoveCases(w, m);
  }

  /** Over a whole tick no opposing move arrives on a guarded cell. */
  lemma GuardedCellIsNeverEntered(w: World, ms: int, m: PendingMove, j: JumpState)
    requires Inv(w) && m in w.pending && j in w.jumps
    requires m.arrival <= w.clock + ms <= j.arrival && m.end == j.cell && m.color != j.color
    ensures var w' := Do(w, AdvanceClock(ms)); IsCaptured(w'.board, m.id) || IdleOn(w'.board, m.id, m.start)
  {
    hide Steady, Quiet, Settle, Later;
    ClockIsFree(w, w.clock + ms);
    assert Guards(j, w.clock + ms, m.end, m.color);
    SettleDueMove(w.(clock := w.clock + ms), m);
  }

  // ---------------------------------------------------------------- promotion

  lemma GroundedKeepsKind(w: World, id: Id)
    requires Steady(w, w.pending, w.jumps) && Fits(w) && Stored(w.board, id) && !Aloft(w.board, id)
    ensures Get(Settle(w).board, id).kind == Get(w.board, id).kind
  {
    hide Steady, Settle, Expired, Later;
    SettleKeeps(w);
    OnwardTransitive(w, DueSettled(w).w, Expired(w));
  }

  lemma AloftIsScheduled(w: World, id: Id)
    requires Steady(w, w.pending, w.jumps) && Aloft(w.board, id)
    ensures InMoves(w.pending, id) || InJumps(w.jumps, id)
    ensures forall m :: m in w.pending ==> MoveOk(w.board, m)
  {
  }

  ghost predicate PawnArrives(w: World, id: Id) {
    exists m :: m in w.pending && m.id == id && m.kind == Pawn && m.arrival <= w.clock &&
      m.end.row == LastRow(m.color, Rows(w.board))
  }

  lemma SettlePromotion(w: World, id: Id)
    requires Steady(w, w.pending, w.jumps) && Fits(w) && Stored(w.board, id)
    requires Get(Settle(w).board, id).kind != Get(w.board, id).kind
    ensures PawnArrives(w, id) && Get(Settle(w).board, id).kind == Queen
  {
    hide Steady, Settle, Later, HostileJump, MakeRest;
    if !Aloft(w.board, id) {
      GroundedKeepsKind(w, id);
      assert false;
    }
    AloftIsScheduled(w, id);
    if InMoves(w.pending, id) {
      var m :| m in w.pending && m.id == id;
      if w.clock < m.arrival {
        SettleFlyingMove(w, m);
      } else {
        SettleDueMove(w, m);
      }
    } else {
      var j :| j in w.jumps && j.id == id;
      SettleJump(w, j);
    }
  }

  /** A kind changes only when a tick makes a pawn move due that ends on that pawn's last row. */
  lemma PromotionIsEarned(w: World, a: Action, id: Id)
    requires Inv(w) && Stored(w.board, id)
    ensures var q := Get(Do(w, a).board, id);
            q.kind != Get(w.board, id).kind ==>
              a.AdvanceClock? && PawnArrives(w.(clock := w.clock + a.ms), id) && q.kind == Queen
  {
    hide Steady, Quiet, Settle, Later, PawnArrives;
    if !a.AdvanceClock? {
      OnlyTicksPromote(w, a, id);
    } else if Get(Do(w, a).board, id).kind != Get(w.board, id).kind {
      ClockIsFree(w, w.clock + a.ms);
      SettlePromotion(w.(clock := w.clock + a.ms), id);
    }
  }

  lemma OnlyTicksPromote(w: World, a: Action, id: Id)
    requires Inv(w) && Stored(w.board, id) && !a.AdvanceClock?
    ensures Get(Do(w, a).board, id).kind == Get(w.board, id).kind
  {
    hide Steady, Quiet, Settle, Later;
  }
}
