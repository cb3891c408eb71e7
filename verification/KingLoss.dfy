/** When the loss of a king ends the game, and a reachable game in which it does not. */
module KingLoss {
  import opened Pieces
  import opened Boards
  import opened Rules
  import opened Engine
  import opened Conservation
  import opened Invariants
  import opened Runs
  import opened Quiescence
  import opened Flights
  import opened Evictions

  /** A king went from play to captured. */
  ghost predicate KingFalls(b: Board, b': Board)
    requires DimsOf(b') == DimsOf(b)
  {
    exists id :: Stored(b, id) && Get(b, id).kind == King && Get(b, id).state != Captured && Get(b', id).state == Captured
  }

  ghost predicate KingOn(b: Board, c: Cell) {
    PieceAt(b, c).Some? && PieceAt(b, c).value.kind == King
  }

  /** Every loss of a king so far has ended the game. */
  ghost predicate Announced(w: World) {
    KingLost(w.board) ==> w.gameOver
  }

  /** A restoration costs a king if and only if one stands on the reserved cell. */
  lemma RestoreFellsKing(b: Board, id: Id)
    requires BoardOk(b) && Aloft(b, id)
    ensures var c := Get(b, id).cell;
            KingFalls(b, Restore(b, id, c)) <==> KingOn(b, c)
  {
    hide Restore;
    var c := Get(b, id).cell;
    forall i | Stored(b, i)
      ensures Falls(b, Restore(b, id, c), i) <==> IdAt(b, c) == Some(i)
    {
      RestoreEvicts(b, id, i);
    }
    if KingOn(b, c) {
      assert Falls(b, Restore(b, id, c), IdAt(b, c).value);
    }
  }

  /** When one arrival costs a king, and when it ends the game, both read off the board before it. */
  lemma ArrivalRaisesFlag(w: World, m: PendingMove)
    requires BoardOk(w.board) && MoveOk(w.board, m)
    ensures var s := SettleMove(w, m).w;
            var possible := CanSettle(w.board, m.id, m.start, m.end);
            var guarded := HostileJump(w.jumps, w.clock, m.end, m.color);
            && (KingFalls(w.board, s.board) <==>
                if !possible then KingOn(w.board, m.start)
                else if guarded then m.kind == King
                else KingOn(w.board, m.end))
            && (s.gameOver <==> (w.gameOver || (possible && if guarded then m.kind == King else KingOn(w.board, m.end))))
  {
    hide SettleMove, LandedBoard, Restore, CanSettle, HostileJump;
    SettleMoveCases(w, m);
    var s := SettleMove(w, m).w;
    forall i | Stored(w.board, i)
      ensures Falls(w.board, s.board, i) <==>
              (if !CanSettle(w.board, m.id, m.start, m.end) then IdAt(w.board, m.start) == Some(i)
               else if HostileJump(w.jumps, w.clock, m.end, m.color) then i == m.id
               else IdAt(w.board, m.end) == Some(i))
    {
      ArrivalEvicts(w, m, i);
    }
    if KingOn(w.board, m.start) {
      assert Falls(w.board, s.board, IdAt(w.board, m.start).value) <==> !CanSettle(w.board, m.id, m.start, m.end);
    }
    if KingOn(w.board, m.end) && CanSettle(w.board, m.id, m.start, m.end) && !HostileJump(w.jumps, w.clock, m.end, m.color) {
      assert Falls(w.board, s.board, IdAt(w.board, m.end).value);
    }
    if CanSettle(w.board, m.id, m.start, m.end) && HostileJump(w.jumps, w.clock, m.end, m.color) {
      assert Falls(w.board, s.board, m.id);
    }
  }

  /** One arrival costs a king in silence if and only if it goes home to a cell where a king stands. */
  lemma SilentArrival(w: World, m: PendingMove)
    requires BoardOk(w.board) && MoveOk(w.board, m) && !w.gameOver
    ensures var s := SettleMove(w, m).w;
            (KingFalls(w.board, s.board) && !s.gameOver) <==>
            (!CanSettle(w.board, m.id, m.start, m.end) && KingOn(w.board, m.start))
  {
    hide SettleMove, CanSettle, HostileJump;
    ArrivalRaisesFlag(w, m);
  }

  // ---------------------------------------------------------------- a whole settlement, exactly

  lemma NewlyLost(b: Board, b': Board)
    requires Later(b, b')
    ensures KingLost(b') <==> (KingLost(b) || KingFalls(b, b'))
  {
    if KingLost(b') {
      var id :| Stored(b', id) && Get(b', id).kind == King && Get(b', id).state == Captured;
      assert Stored(b, id) && Get(b, id).kind == King;
    }
    if KingLost(b) {
      KingStaysLost(b, b');
    }
  }

  /** No due move goes home to a cell where a king stands, each judged on the board it arrives on. */
  ghost predicate LoudArrivals(w: World, queue: seq<PendingMove>)
    requires forall m :: m in queue ==> MoveFits(DimsOf(w.board), m)
    decreases |queue|
  {
    if queue == [] then true
    else
      var q := queue[0];
      assert MoveFits(DimsOf(w.board), q);
      if w.clock < q.arrival then LoudArrivals(w.(pending := w.pending + [q]), queue[1..])
      else
        && (CanSettle(w.board, q.id, q.start, q.end) || !KingOn(w.board, q.start))
        && LoudArrivals(SettleMove(w, q).w, queue[1..])
  }

  lemma {:induction false} DueExact(w: World, queue: seq<PendingMove>, changed: bool)
    requires Steady(w, w.pending + queue, w.jumps) && Announced(w)
    requires forall m :: m in queue ==> MoveFits(DimsOf(w.board), m)
    requires forall m :: m in w.pending ==> w.clock < m.arrival
    ensures var w' := SettleDue(w, queue, changed).w;
            Announced(w') <==> (w'.gameOver || LoudArrivals(w, queue))
    decreases |queue|
  {
    hide Steady, SettleMove, CanSettle, KingOn, Onward, KingLost, Later;
    if queue != [] {
      var q, tail := queue[0], queue[1..];
      assert w.pending + queue == w.pending + [q] + tail;
      if w.clock < q.arrival {
        var w1 := w.(pending := w.pending + [q]);
        SteadyQueues(w, w1);
        DueExact(w1, tail, changed);
      } else {
        SteadyMember(w, w.pending + queue, q);
        var s := SettleMove(w, q);
        SettleMoveKeeps(w, q, tail);
        AnnouncedStep(w, q);
        if Announced(s.w) {
          DueExact(s.w, tail, changed || s.changed);
        } else {
          SettleDueKeeps(s.w, tail, changed || s.changed);
          LostForGood(s.w, SettleDue(w, queue, changed).w);
        }
      }
    }
  }

  lemma AnnouncedStep(w: World, m: PendingMove)
    requires BoardOk(w.board) && MoveOk(w.board, m) && Announced(w)
    ensures var s := SettleMove(w, m).w;
            Announced(s) <==> (s.gameOver || CanSettle(w.board, m.id, m.start, m.end) || !KingOn(w.board, m.start))
  {
    hide SettleMove, CanSettle, HostileJump, KingLost, Later, KingOn;
    ArrivalRaisesFlag(w, m);
    SettleMoveOnward(w, m);
    OnwardIsLater(w, SettleMove(w, m).w);
    NewlyLost(w.board, SettleMove(w, m).w.board);
  }

  lemma LostForGood(w: World, w': World)
    requires Onward(w, w') && KingLost(w.board)
    ensures KingLost(w'.board)
  {
    KingStaysLost(w.board, w'.board);
  }

  /** No king stands where a spoiled move comes home, nor, after that, where a due jump does. */
  ghost predicate LoudReturns(w: World)
    requires Fits(w)
  {
    && (forall m :: m in w.pending && w.clock < m.arrival && Spoiled(w, m) ==> !KingOn(DueSettled(w).w.board, m.start))
    && (forall j :: j in w.jumps && j.arrival <= w.clock ==> !KingOn(AfterArrivals(w).board, j.cell))
  }

  /** The cancel phase costs a king if and only if one stands where a spoiled move comes home. */
  lemma CancelFellsKing(w: World)
    requires Steady(w, w.pending, w.jumps) && Fits(w)
    ensures KingFalls(DueSettled(w).w.board, AfterArrivals(w).board) <==>
            exists m :: m in w.pending && w.clock < m.arrival && Spoiled(w, m) && KingOn(DueSettled(w).w.board, m.start)
  {
    hide Steady, Onward, SettleDue, CancelAll, CanSettle, KingOn;
    DueSettledKeeps(w);
    var s := DueSettled(w);
    if s.changed {
      var bad := Invalid(s.w.board, s.w.clock, s.w.pending);
      SteadyUnique(s.w, s.w.pending);
      InvalidUnique(s.w.board, s.w.clock, s.w.pending);
      forall m | m in w.pending && w.clock < m.arrival
        ensures Spoiled(w, m) <==> m in bad
      {
        StaysQueued(w, m);
      }
      assert forall m :: m in bad ==> m in w.pending && w.clock < m.arrival;
      CancelKings(s.w, bad);
    }
  }

  lemma StaysQueued(w: World, m: PendingMove)
    requires Steady(w, w.pending, w.jumps) && Fits(w) && m in w.pending && w.clock < m.arrival
    ensures m in DueSettled(w).w.pending
  {
    hide Steady, SettleDue;
    var w0 := w.(pending := []);
    assert w0.pending + w.pending == w.pending;
    SteadyQueues(w, w0);
    SettleDueDone(w0, w.pending, false, m);
  }

  lemma CancelKings(w: World, bad: seq<PendingMove>)
    requires Steady(w, w.pending, w.jumps)
    requires UniqueMoves(bad) && forall m :: m in bad ==> m in w.pending && MoveFits(DimsOf(w.board), m)
    ensures KingFalls(w.board, CancelAll(w, bad).board) <==> exists m :: m in bad && KingOn(w.board, m.start)
  {
    hide Steady, CancelAll;
    var b' := CancelAll(w, bad).board;
    forall i | Stored(w.board, i) && Get(w.board, i).state != Captured
      ensures Falls(w.board, b', i) <==> exists m :: m in bad && IdAt(w.board, m.start) == Some(i)
    {
      CancelEvicts(w, bad, i);
    }
    if m :| m in bad && KingOn(w.board, m.start) {
      GridIsIdle(w, w.pending, w.jumps, m.start);
      assert Falls(w.board, b', IdAt(w.board, m.start).value);
    }
  }

  lemma GridIsIdle(w: World, ms: seq<PendingMove>, js: seq<JumpState>, c: Cell)
    requires Steady(w, ms, js) && IdAt(w.board, c).Some?
    ensures Get(w.board, IdAt(w.board, c).value).state == Idle
  {
  }

  /** The jump phase costs a king if and only if one stands where a due jump comes home. */
  lemma ExpireKings(w: World, queue: seq<JumpState>)
    requires Steady(w, w.pending, w.jumps + queue)
    requires forall j :: j in queue ==> JumpFits(DimsOf(w.board), j)
    requires forall j :: j in w.jumps ==> w.clock < j.arrival
    ensures KingFalls(w.board, ExpireJumps(w, queue).board) <==>
            exists j :: j in queue && j.arrival <= w.clock && KingOn(w.board, j.cell)
  {
    hide Steady, ExpireJumps;
    var b' := ExpireJumps(w, queue).board;
    forall i | Stored(w.board, i) && Get(w.board, i).state != Captured
      ensures Falls(w.board, b', i) <==>
              exists j :: j in queue && j.arrival <= w.clock && IdAt(w.board, j.cell) == Some(i)
    {
      ExpireEvicts(w, queue, i);
    }
    if j :| j in queue && j.arrival <= w.clock && KingOn(w.board, j.cell) {
      GridIsIdle(w, w.pending, w.jumps + queue, j.cell);
      assert Falls(w.board, b', IdAt(w.board, j.cell).value);
    }
  }

  lemma ExpireFellsKing(w: World)
    requires Steady(w, w.pending, w.jumps) && Fits(w)
    ensures KingFalls(AfterArrivals(w).board, Expired(w).board) <==>
            exists j :: j in w.jumps && j.arrival <= w.clock && KingOn(AfterArrivals(w).board, j.cell)
  {
    hide Steady, Onward, AfterArrivals, ExpireJumps, KingOn;
    AfterArrivalsKeeps(w);
    var w1 := AfterArrivals(w);
    var w0 := w1.(jumps := []);
    SteadyQueues(w1, w0);
    assert w0.jumps + w1.jumps == w1.jumps;
    ExpireKings(w0, w1.jumps);
  }

  /** The board's history through the three phases. */
  lemma LostThroughPhases(w: World)
    requires Steady(w, w.pending, w.jumps) && Fits(w)
    ensures Settle(w).gameOver == DueSettled(w).w.gameOver
    ensures KingLost(Settle(w).board) <==>
            (KingLost(DueSettled(w).w.board) || KingFalls(DueSettled(w).w.board, AfterArrivals(w).board) ||
             KingFalls(AfterArrivals(w).board, Expired(w).board))
  {
    hide Steady, SettleDue, CancelAll, ExpireJumps, KingLost, KingFalls, Later;
    DueSettledKeeps(w);
    AfterArrivalsKeeps(w);
    SettleKeeps(w);
    OnwardIsLater(DueSettled(w).w, AfterArrivals(w));
    OnwardIsLater(AfterArrivals(w), Expired(w));
    NewlyLost(DueSettled(w).w.board, AfterArrivals(w).board);
    NewlyLost(AfterArrivals(w).board, Expired(w).board);
  }

  /**
   Exactly when a settlement loses a king in silence: the game is not over and a king stands where some piece
   comes home, be it an arrival that is no longer possible, a move the arrivals spoiled, or a jump that ends.
   */
  lemma SettlementExact(w: World)
    requires Steady(w, w.pending, w.jumps) && Fits(w) && Announced(w)
    ensures Announced(Settle(w)) <==>
            (Settle(w).gameOver || (LoudArrivals(w.(pending := []), w.pending) && LoudReturns(w)))
  {
    hide Steady, SettleDue, AfterArrivals, Expired, Settle, KingLost, KingFalls, LoudArrivals, KingOn, CanSettle;
    var w0 := w.(pending := []);
    SteadyQueues(w, w0);
    assert w0.pending + w.pending == w.pending;
    DueExact(w0, w.pending, false);
    CancelFellsKing(w);
    ExpireFellsKing(w);
    LostThroughPhases(w);
  }

  /** With no move due, a tick costs a king in silence if and only if one stands on the cell of a jump that ends. */
  lemma TickWithoutArrivals(w: World, ms: int)
    requires Inv(w) && Announced(w) && forall m :: m in w.pending ==> w.clock + ms < m.arrival
    ensures Announced(Do(w, AdvanceClock(ms))) <==>
            (w.gameOver || forall j :: j in w.jumps && j.arrival <= w.clock + ms ==> !KingOn(w.board, j.cell))
  {
    hide Steady, Quiet, Settle, SettleDue, KingLost, KingOn, CancelAll, ExpireJumps, LoudArrivals;
    var w1 := w.(clock := w.clock + ms);
    ClockIsFree(w, w.clock + ms);
    var w0 := w1.(pending := []);
    NoMoveDue(w0, w1.pending, false);
    assert w0.pending + w1.pending == w1.pending;
    NoArrivals(w0, w1.pending);
    SettlementExact(w1);
    LostThroughPhases(w1);
  }

  lemma {:induction false} NoArrivals(w: World, queue: seq<PendingMove>)
    requires forall m :: m in queue ==> MoveFits(DimsOf(w.board), m) && w.clock < m.arrival
    ensures LoudArrivals(w, queue)
    decreases |queue|
  {
    if queue != [] {
      assert queue[0] in queue;
      NoArrivals(w.(pending := w.pending + [queue[0]]), queue[1..]);
    }
  }

  // ---------------------------------------------------------------- a king lost in silence

  const KING_HOME := Cell(0, 0)
  const ROOK_HOME := Cell(0, 1)

  function KingAndRook(): Board {
    RawBoard([[Some(1), Some(2)]],
             [Piece(1, White, King, KING_HOME, Idle), Piece(2, Black, Rook, ROOK_HOME, Idle)])
  }

  /** The rook jumps, the king steps under it, and one tick passes both deadlines. */
  function LateTick(): seq<Action> {
    [JumpAt(ROOK_HOME), Select(KING_HOME), MoveSelected(ROOK_HOME), AdvanceClock(1001)]
  }

  function Airborne(): World {
    World(RawBoard([[None, None]],
                   [Piece(1, White, King, KING_HOME, Moving), Piece(2, Black, Rook, ROOK_HOME, Moving)]),
          [PendingMove(1, White, King, KING_HOME, ROOK_HOME, 0, 1000)],
          [JumpState(2, Black, Rook, ROOK_HOME, 0, 1000)], map[], 0, false, None)
  }

  function RookAloft(): World {
    World(RawBoard([[Some(1), None]],
                   [Piece(1, White, King, KING_HOME, Idle), Piece(2, Black, Rook, ROOK_HOME, Moving)]),
          [], [JumpState(2, Black, Rook, ROOK_HOME, 0, 1000)], map[], 0, false, None)
  }

  lemma RookTakesOff()
    ensures JumpAtCell(NewGame(KingAndRook()), ROOK_HOME) == RookAloft()
  {
    var b := KingAndRook();
    assert IdAt(b, ROOK_HOME) == Some(2);
    var c: seq<Option<Id>> := [Some(1), Some(2)];
    assert c[1 := None] == [Some(1), None];
    assert Lift(b, ROOK_HOME) == RookAloft().board;
  }

  lemma KingTakesOff()
    ensures MoveSelectedTo(RookAloft().(selected := Some(KING_HOME)), ROOK_HOME) == Airborne()
  {
    var b := RookAloft().board;
    assert IdAt(b, KING_HOME) == Some(1);
    var c: seq<Option<Id>> := [Some(1), None];
    assert c[0 := None] == [None, None];
    assert Lift(b, KING_HOME) == Airborne().board;
  }

  function KingLanded(): World {
    World(RawBoard([[None, Some(1)]],
                   [Piece(1, White, King, ROOK_HOME, Idle), Piece(2, Black, Rook, ROOK_HOME, Moving)]),
          [], [JumpState(2, Black, Rook, ROOK_HOME, 0, 1000)], map[1 := MakeRest(Long, 1000, ROOK_HOME)], 1001, false, None)
  }

  /** The jump's window closed at 1000, so at 1001 it does not protect the cell. */
  lemma KingLands()
    ensures var w := Airborne().(clock := 1001);
            Fits(w) && AfterArrivals(w) == KingLanded()
  {
    var w := Airborne().(clock := 1001, pending := []);
    var m := PendingMove(1, White, King, KING_HOME, ROOK_HOME, 0, 1000);
    assert CanSettle(w.board, 1, KING_HOME, ROOK_HOME);
    assert IdAt(w.board, ROOK_HOME).None? && IdAt(w.board, KING_HOME).None?;
    assert !HostileJump(w.jumps, 1001, ROOK_HOME, White);
    var c: seq<Option<Id>> := [None, None];
    assert c[1 := Some(1)] == [None, Some(1)];
    assert Place(w.board, ROOK_HOME, Arrived(w.board, m)) == KingLanded().board;
    assert SettleMove(w, m) == Settlement(KingLanded(), true);
    assert SettleDue(w, [m], false) == Settlement(KingLanded(), true);
  }

  lemma RookEvictsKing()
    ensures var w := ExpireJumps(KingLanded().(jumps := []), KingLanded().jumps);
            Get(w.board, 1) == Piece(1, White, King, ROOK_HOME, Captured) && !w.gameOver
  {
    var w := KingLanded().(jumps := []);
    var j := KingLanded().jumps[0];
    assert IdAt(w.board, ROOK_HOME) == Some(1);
    var w1 := w.(board := Restore(w.board, j.id, j.cell), rests := w.rests[j.id := MakeRest(Short, j.arrival, j.cell)]);
    assert ExpireJumps(w, [j]) == w1;
  }

  lemma PiecesStart()
    ensures StartBoard(KingAndRook())
  {
    var b := KingAndRook();
    assert IdAt(b, KING_HOME) == Some(1) && IdAt(b, ROOK_HOME) == Some(2);
  }

  lemma LastTick(w: World)
    requires Inv(w) && w == Airborne()
    ensures var w' := Do(w, AdvanceClock(1001));
            Get(w'.board, 1) == Piece(1, White, King, ROOK_HOME, Captured) && !w'.gameOver
  {
    hide AfterArrivals, ExpireJumps, Inv;
    KingLands();
    RookEvictsKing();
  }

  /** Three requests put both pieces in the air. */
  lemma BothTakeOff()
    ensures StartBoard(KingAndRook()) && Play(KingAndRook(), LateTick()[..3]) == Airborne()
  {
    hide Inv, StartBoard, JumpAtCell, MoveSelectedTo, Settle, Run;
    PiecesStart();
    var w := NewGame(KingAndRook());
    NewGameHolds(KingAndRook());
    RookTakesOff();
    KingTakesOff();
    assert Do(Do(w, JumpAt(ROOK_HOME)), Select(KING_HOME)) == RookAloft().(selected := Some(KING_HOME));
    ThreeActions(w, LateTick()[..3]);
  }

  /** A reachable game, two pieces and four actions, whose only white king is captured while the game goes on. */
  lemma KingLostInSilence()
    ensures StartBoard(KingAndRook())
    ensures var w := Play(KingAndRook(), LateTick());
            Get(w.board, 1) == Piece(1, White, King, ROOK_HOME, Captured) && !w.gameOver
  {
    hide Inv, StartBoard, Run, Do;
    BothTakeOff();
    NewGameHolds(KingAndRook());
    var acts := LateTick();
    assert acts == acts[..3] + [AdvanceClock(1001)];
    RunOneMore(NewGame(KingAndRook()), acts[..3], AdvanceClock(1001));
    LastTick(Play(KingAndRook(), acts[..3]));
  }

  /** At 1000 the window is still open: the king is shot down and the game is over. */
  lemma KingIsShotDown()
    ensures var w := Airborne().(clock := 1000);
            Fits(w) && Settle(w).gameOver
  {
    var w := Airborne().(clock := 1000, pending := []);
    var m := PendingMove(1, White, King, KING_HOME, ROOK_HOME, 0, 1000);
    assert CanSettle(w.board, 1, KING_HOME, ROOK_HOME);
    assert Guards(w.jumps[0], 1000, ROOK_HOME, White);
    assert w.jumps[0] in w.jumps;
    assert SettleMove(w, m).w.gameOver;
    assert SettleDue(w, [m], false).w.gameOver;
  }

  lemma PunctualTicks(w: World)
    requires Inv(w) && w == Airborne()
    ensures Do(Do(w, AdvanceClock(1000)), AdvanceClock(1)).gameOver
  {
    hide Settle, Inv;
    KingIsShotDown();
  }

  /** The size of a tick matters: from one reachable game, 1000 and 1 milliseconds end what 1001 at once leaves open. */
  lemma TickSizeMatters()
    ensures StartBoard(KingAndRook())
    ensures var w := Play(KingAndRook(), LateTick()[..3]);
            Do(Do(w, AdvanceClock(1000)), AdvanceClock(1)).gameOver && !Do(w, AdvanceClock(1001)).gameOver
  {
    hide Do, Run, StartBoard, Inv;
    BothTakeOff();
    var w := Play(KingAndRook(), LateTick()[..3]);
    PunctualTicks(w);
    LastTick(w);
  }
}
