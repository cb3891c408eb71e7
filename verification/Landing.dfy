/** From request to arrival: an undisturbed move lands at its first settlement past the arrival time. */
module Landing {
  import opened Pieces
  import opened Boards
  import opened Paths
  import opened Rules
  import opened Engine
  import opened Conservation
  import opened Invariants
  import opened Runs
  import opened Quiescence
  import opened Flights
  import opened Timing

  /** The cells the arrival check reads hold the same ids on both boards. */
  ghost predicate Undisturbed(b: Board, b': Board, m: PendingMove) {
    && (forall p :: Between(p, m.start, m.end) ==> IdAt(b', p) == IdAt(b, p))
    && IdAt(b', m.end) == IdAt(b, m.end)
  }

  /** An accepted request could settle at once: the two legality checks agree through the lift. */
  lemma AcceptedCouldSettle(w: World, e: Cell)
    requires Inv(w) && MoveSelectedTo(w, e) != w
    ensures var w1 := MoveSelectedTo(w, e);
            var m := w1.pending[|w.pending|];
            MoveOk(w1.board, m) && CanSettle(w1.board, m.id, m.start, m.end)
  {
    var w1 := MoveSelectedTo(w, e);
    var s := w.selected.value;
    MoveKeeps(w, e);
    RequestMatchesArrival(w.board, s, e);
    assert w1.pending[|w.pending|] in w1.pending;
    hide Steady, Quiet, CanSettle, BoardOk;
    CanSettleFrame(Clear(w.board, s), w1.board, IdAt(w.board, s).value, s, e);
  }

  /** Nothing that stays off the path and the destination can spoil a move in flight. */
  lemma StillSettles(b: Board, b': Board, m: PendingMove)
    requires MoveOk(b, m) && MoveOk(b', m) && Later(b, b') && Undisturbed(b, b', m)
    requires CanSettle(b, m.id, m.start, m.end)
    ensures CanSettle(b', m.id, m.start, m.end)
  {
    hide CanSettle;
    CanSettleFrame(b, b', m.id, m.start, m.end);
  }

  /** The cells the arrival check of m reads. */
  predicate OnPath(c: Cell, m: PendingMove) {
    Between(c, m.start, m.end) || c == m.end
  }

  /** Whatever becomes of x, neither of its ends is on m's path. */
  predicate Apart(x: PendingMove, m: PendingMove) {
    !OnPath(x.start, m) && !OnPath(x.end, m)
  }

  /** An arrival apart from m leaves m's path alone, whether it lands, goes home or is shot down. */
  lemma ApartLeavesPath(w: World, x: PendingMove, m: PendingMove)
    requires BoardOk(w.board) && MoveOk(w.board, x) && Apart(x, m)
    ensures Undisturbed(w.board, SettleMove(w, x).w.board, m)
  {
    hide SettleMove, CanSettle, BoardOk, Between;
    SettleMoveGrounds(w, x);
  }

  /** Arrivals elsewhere leave an idle piece exactly as it stands. */
  lemma {:induction false} SettleDueSpares(w: World, queue: seq<PendingMove>, changed: bool, id: Id)
    requires Steady(w, w.pending + queue, w.jumps)
    requires forall x :: x in queue ==> MoveFits(DimsOf(w.board), x)
    requires Stored(w.board, id) && Get(w.board, id).state == Idle
    requires forall x :: x in queue && x.arrival <= w.clock ==>
               x.start != Get(w.board, id).cell && x.end != Get(w.board, id).cell
    ensures Get(SettleDue(w, queue, changed).w.board, id) == Get(w.board, id)
    decreases |queue|
  {
    hide Steady, SettleMove, CanSettle, BoardOk, Onward;
    if queue != [] {
      var q, tail := queue[0], queue[1..];
      assert w.pending + queue == w.pending + [q] + tail;
      assert q in queue;
      if w.clock < q.arrival {
        var w1 := w.(pending := w.pending + [q]);
        SteadyQueues(w, w1);
        SettleDueSpares(w1, tail, changed, id);
      } else {
        SteadyMember(w, w.pending + queue, q);
        SettleMoveKeeps(w, q, tail);
        SettleMoveGrounds(w, q);
        var s := SettleMove(w, q);
        SettleDueSpares(s.w, tail, changed || s.changed, id);
      }
    }
  }

  /** Among any number of due moves, one that is possible and kept apart from lands. */
  lemma {:induction false} ArrivalLands(w: World, queue: seq<PendingMove>, changed: bool, m: PendingMove)
    requires Steady(w, w.pending + queue, w.jumps) && m in queue && m.arrival <= w.clock
    requires forall x :: x in queue ==> MoveFits(DimsOf(w.board), x)
    requires forall x :: x in queue && x != m && x.arrival <= w.clock ==> Apart(x, m)
    requires Stored(w.board, m.id) && CanSettle(w.board, m.id, m.start, m.end)
    requires !HostileJump(w.jumps, w.clock, m.end, m.color)
    ensures var b' := SettleDue(w, queue, changed).w.board;
            IdleOn(b', m.id, m.end) && Get(b', m.id).kind == Promote(Get(w.board, m.id), m.end.row, Rows(w.board)).kind
    decreases |queue|
  {
    hide Steady, SettleMove, CanSettle, HostileJump, LandedBoard, BoardOk, Onward, Between, Later;
    var q, tail := queue[0], queue[1..];
    assert w.pending + queue == w.pending + [q] + tail;
    SteadyMember(w, w.pending + queue, m);
    SteadyMember(w, w.pending + queue, q);
    var s := SettleMove(w, q);
    if q == m {
      LandsNow(w, m, tail);
      SettleDueSpares(s.w, tail, changed || s.changed, m.id);
    } else if w.clock < q.arrival {
      var w1 := w.(pending := w.pending + [q]);
      SteadyQueues(w, w1);
      ArrivalLands(w1, tail, changed, m);
    } else {
      SettleMoveKeeps(w, q, tail);
      OnwardIsLater(w, s.w);
      ApartLeavesPath(w, q, m);
      SteadyMember(s.w, s.w.pending + tail, m);
      StillSettles(w.board, s.w.board, m);
      ArrivalLands(s.w, tail, changed || s.changed, m);
    }
  }

  lemma LandsNow(w: World, m: PendingMove, tail: seq<PendingMove>)
    requires Steady(w, w.pending + [m] + tail, w.jumps) && MoveOk(w.board, m)
    requires CanSettle(w.board, m.id, m.start, m.end) && !HostileJump(w.jumps, w.clock, m.end, m.color)
    ensures var s := SettleMove(w, m);
            && m !in tail && Steady(s.w, s.w.pending + tail, s.w.jumps) && IdleOn(s.w.board, m.id, m.end)
            && Get(s.w.board, m.id).kind == Promote(Get(w.board, m.id), m.end.row, Rows(w.board)).kind
  {
    hide Steady, SettleMove, CanSettle, HostileJump, LandedBoard, Onward;
    SteadyUnique(w, w.pending + [m] + tail);
    NotInTail(w.pending, m, tail);
    SteadyMember(w, w.pending + [m] + tail, m);
    SettleMoveKeeps(w, m, tail);
    SettleMoveCases(w, m);
    PlaceGrounds(w.board, m);
  }

  lemma NotInTail(before: seq<PendingMove>, m: PendingMove, tail: seq<PendingMove>)
    requires UniqueMoves(before + [m] + tail)
    ensures m !in tail
  {
    var all := before + [m] + tail;
    assert all[|before|] == m && forall i :: 0 <= i < |tail| ==> all[|before| + 1 + i] == tail[i];
  }

  /** Nobody comes home to c in this settlement: no jump that ends, and no move that the arrivals spoil. */
  ghost predicate NobodyReturns(w: World, c: Cell)
    requires Fits(w)
  {
    && (forall j :: j in w.jumps && j.arrival <= w.clock ==> j.cell != c)
    && (forall x :: x in w.pending && w.clock < x.arrival && Spoiled(w, x) ==> x.start != c)
  }

  /** The later phases of the settlement touch only the cells that pieces come home to. */
  lemma LandedStays(w: World, id: Id, c: Cell)
    requires Steady(w, w.pending, w.jumps) && Fits(w) && Stored(w.board, id) && NobodyReturns(w, c)
    requires IdleOn(DueSettled(w).w.board, id, c)
    ensures Get(Settle(w).board, id) == Get(DueSettled(w).w.board, id)
  {
    hide SettleDue, Steady, Onward, BoardOk, CancelAll, ExpireJumps, CanSettle;
    DueSettledKeeps(w);
    AfterArrivalsKeeps(w);
    SettleKeeps(w);
    var s := DueSettled(w);
    if s.changed {
      var bad := Invalid(s.w.board, s.w.clock, s.w.pending);
      SteadyUnique(s.w, s.w.pending);
      InvalidUnique(s.w.board, s.w.clock, s.w.pending);
      forall x | x in bad
        ensures x.start != c
      {
        assert x in w.pending && Spoiled(w, x);
      }
      CancelAllSpares(s.w, bad, id);
    }
    var w1 := AfterArrivals(w);
    var w2 := w1.(jumps := []);
    SteadyQueues(w1, w2);
    assert w2.jumps + w1.jumps == w1.jumps;
    ExpireJumpsSpares(w2, w1.jumps, id);
  }

  /** The action leaves m's path alone, also between the arrivals of a tick and its cancel phase. */
  ghost predicate CalmAction(w: World, a: Action, m: PendingMove)
    requires Inv(w)
  {
    && Undisturbed(w.board, Do(w, a).board, m)
    && (a.AdvanceClock? ==>
          (ClockIsFree(w, w.clock + a.ms);
           Undisturbed(w.board, DueSettled(w.(clock := w.clock + a.ms)).w.board, m)))
  }

  ghost predicate Calm(w: World, actions: seq<Action>, m: PendingMove)
    requires Inv(w)
    decreases |actions|
  {
    actions == [] || (CalmAction(w, actions[0], m) && Calm(Do(w, actions[0]), actions[1..], m))
  }

  ghost predicate Airborne(w: World, m: PendingMove) {
    m in w.pending && MoveOk(w.board, m) && CanSettle(w.board, m.id, m.start, m.end)
  }

  /** Arrivals that leave its path alone do not spoil a move. */
  lemma CalmIsUnspoiled(w: World, m: PendingMove)
    requires Steady(w, w.pending, w.jumps) && Fits(w) && Airborne(w, m) && w.clock < m.arrival
    requires Undisturbed(w.board, DueSettled(w).w.board, m)
    ensures !Spoiled(w, m)
  {
    hide Steady, CanSettle, Later, SettleDue, Undisturbed;
    DueSettledKeeps(w);
    var w0 := w.(pending := []);
    assert w0.pending + w.pending == w.pending;
    SteadyQueues(w, w0);
    SettleDueDone(w0, w.pending, false, m);
    var s := DueSettled(w);
    SteadyMember(s.w, s.w.pending, m);
    OnwardIsLater(w, s.w);
    StillSettles(w.board, s.w.board, m);
  }

  /** Before its arrival time, a move whose path is left alone stays in flight and stays possible. */
  lemma CalmTick(w: World, ms: int, m: PendingMove)
    requires Inv(w) && Airborne(w, m) && CalmAction(w, AdvanceClock(ms), m) && w.clock + ms < m.arrival
    ensures Airborne(Do(w, AdvanceClock(ms)), m)
  {
    hide Steady, Quiet, CanSettle, Later, SettleDue, Undisturbed, Settle;
    var w1 := w.(clock := w.clock + ms);
    ClockIsFree(w, w.clock + ms);
    CalmIsUnspoiled(w1, m);
    SettleFlyingMove(w1, m);
    hide Spoiled;
    var w' := Do(w, AdvanceClock(ms));
    PendingStart(w', m);
    StillSettles(w.board, w'.board, m);
  }

  lemma CalmInput(w: World, a: Action, m: PendingMove)
    requires Inv(w) && Airborne(w, m) && CalmAction(w, a, m) && !a.AdvanceClock?
    ensures Airborne(Do(w, a), m)
  {
    hide Steady, Quiet, CanSettle, Later, Undisturbed, CanMove, Free;
    var w' := Do(w, a);
    assert m in w'.pending;
    PendingStart(w', m);
    StillSettles(w.board, w'.board, m);
  }

  lemma {:induction false} StaysAirborne(w: World, actions: seq<Action>, m: PendingMove)
    requires Inv(w) && Forward(actions) && Airborne(w, m) && Calm(w, actions, m) && Run(w, actions).clock < m.arrival
    ensures Airborne(Run(w, actions), m)
    decreases |actions|
  {
    hide Inv, Airborne, CalmAction, Apply;
    if actions != [] {
      var a := actions[0];
      var w' := Do(w, a);
      RunClock(w', actions[1..]);
      if a.AdvanceClock? {
        CalmTick(w, a.ms, m);
      } else {
        CalmInput(w, a, m);
      }
      StaysAirborne(w', actions[1..], m);
    }
  }

  /** The next tick is the first to reach the arrival time, and nothing it settles or restores is in the way. */
  ghost predicate ReadyToLand(w: World, m: PendingMove, ms: int)
    requires Inv(w)
  {
    && w.clock < m.arrival <= w.clock + ms
    && (forall x :: x in w.pending && x != m && x.arrival <= w.clock + ms ==> Apart(x, m))
    && !HostileJump(w.jumps, w.clock + ms, m.end, m.color)
    && (ClockIsFree(w, w.clock + ms); NobodyReturns(w.(clock := w.clock + ms), m.end))
  }

  lemma LandsLater(w: World, m: PendingMove, ms: int)
    requires Inv(w)
    ensures ReadyToLand(w, m, ms) ==> w.clock < m.arrival
  {
  }

  lemma TouchesDown(w: World, m: PendingMove, ms: int)
    requires Inv(w) && Airborne(w, m) && ReadyToLand(w, m, ms)
    ensures IdleOn(Do(w, AdvanceClock(ms)).board, m.id, m.end)
  {
    hide Steady, Quiet, Settle, CanSettle, HostileJump, Later, SettleDue, NobodyReturns, Apart;
    var w3 := w.(clock := w.clock + ms);
    ClockIsFree(w, w.clock + ms);
    var w0 := w3.(pending := []);
    assert w0.pending + w3.pending == w3.pending;
    SteadyQueues(w3, w0);
    ArrivalLands(w0, w3.pending, false, m);
    LandedStays(w3, m.id, m.end);
  }

  /**
   From request to arrival. A move is requested and any run follows that ends before its arrival time and
   leaves its path alone: the piece is still in flight, never landed early. Then comes the first settlement
   past the arrival time. If every other move due at it has its ends off the path, no hostile jump covers the
   destination and nobody comes home to it at that settlement, the piece stands on its destination afterwards.
   */
  lemma UndisturbedMoveLands(w: World, e: Cell, actions: seq<Action>, ms: int)
    requires Inv(w) && MoveSelectedTo(w, e) != w && Forward(actions)
    ensures
      var w1 := Do(w, MoveSelected(e));
      var m := w1.pending[|w.pending|];
      var w2 := Run(w1, actions);
      && (Calm(w1, actions, m) && w2.clock < m.arrival ==> Airborne(w2, m))
      && (Calm(w1, actions, m) && ReadyToLand(w2, m, ms) ==> IdleOn(Do(w2, AdvanceClock(ms)).board, m.id, e))
  {
    hide Steady, Quiet, Settle, Run, CanSettle, Later, Calm, ReadyToLand;
    var w1 := Do(w, MoveSelected(e));
    var m := w1.pending[|w.pending|];
    AcceptedCouldSettle(w, e);
    var w2 := Run(w1, actions);
    if Calm(w1, actions, m) && w2.clock < m.arrival {
      StaysAirborne(w1, actions, m);
      if ReadyToLand(w2, m, ms) {
        TouchesDown(w2, m, ms);
      }
    }
    assert ReadyToLand(w2, m, ms) ==> w2.clock < m.arrival by {
      LandsLater(w2, m, ms);
    }
  }

  /**
   An accepted request lifts exactly the selected piece: its cell empties and stays reserved, every other cell,
   piece, flight and rest is untouched, and the new entry describes the piece as it stood.
   */
  lemma RequestLiftsOnePiece(w: World, e: Cell)
    requires Inv(w) && MoveSelectedTo(w, e) != w
    ensures var w' := MoveSelectedTo(w, e);
            var s := w.selected.value;
            var p := PieceAt(w.board, s).value;
            && Get(w'.board, p.id) == p.(state := Moving)
            && (forall c :: IdAt(w'.board, c) == if c == s then None else IdAt(w.board, c))
            && (forall i :: Stored(w.board, i) && i != p.id ==> Get(w'.board, i) == Get(w.board, i))
            && |w'.pending| == |w.pending| + 1 && w'.pending[..|w.pending|] == w.pending
            && (var m := w'.pending[|w.pending|];
                m.id == p.id && m.color == p.color && m.kind == p.kind && m.start == s && m.end == e &&
                m.startTime == w.clock && m.arrival == w.clock + 1000 * if PieceAt(w.board, e).Some? then 1 else Steps(s, e))
            && w'.jumps == w.jumps && w'.rests == w.rests && w'.clock == w.clock && w'.selected.None?
  {
    hide Inv, CanSettle, Geometry;
    RequestedCapture(w, w.selected.value, e);
  }

  lemma RequestedCapture(w: World, s: Cell, e: Cell)
    requires CanMove(w, s, e)
    ensures PieceAt(w.board, e).Some? ==> PieceAt(w.board, e).value.color != PieceAt(w.board, s).value.color
  {
  }

  // ---------------------------------------------------------------- which requests are accepted

  /** The piece on c is neither resting nor standing on a cell that somebody in the air will come home to. */
  ghost predicate Ready(w: World, c: Cell) {
    PieceAt(w.board, c).Some? && IdAt(w.board, c).value !in w.rests &&
    forall i :: Aloft(w.board, i) ==> Get(w.board, i).cell != c
  }

  lemma FreeIsReady(w: World, c: Cell)
    requires Inv(w) && IdAt(w.board, c).Some?
    ensures Free(w, c) <==> Ready(w, c)
  {
    if Free(w, c) {
      FreeIsUnreserved(w, c);
    }
    if Ready(w, c) {
      forall m | m in w.pending
        ensures m.start != c
      {
        assert Aloft(w.board, m.id);
      }
      forall j | j in w.jumps
        ensures j.cell != c
      {
        assert Aloft(w.board, j.id);
      }
    }
  }

  /** A move request is accepted exactly for a ready piece, a legal destination, and no friend in flight to it. */
  lemma MoveAccepted(w: World, e: Cell)
    requires Inv(w)
    ensures MoveSelectedTo(w, e) != w <==>
            (w.selected.Some? && var s := w.selected.value;
             Ready(w, s) && LegalMove(w.board, s, e) &&
             forall m :: m in w.pending && m.end == e ==> m.color != PieceAt(w.board, s).value.color)
  {
    hide Steady, LegalMove, Lift, Free, Ready;
    if w.selected.Some? && IdAt(w.board, w.selected.value).Some? {
      var s := w.selected.value;
      FreeIsReady(w, s);
      QuietMoves(w);
      LegalStaysInside(w.board, s, e);
    } else if w.selected.Some? {
      NobodyIsReady(w, w.selected.value);
    }
  }

  lemma QuietMoves(w: World)
    requires Inv(w)
    ensures forall m :: m in w.pending ==> w.clock < m.arrival
  {
  }

  lemma LegalStaysInside(b: Board, s: Cell, e: Cell)
    ensures LegalMove(b, s, e) ==> InBounds(b, e) && PieceAt(b, s).Some?
  {
  }

  lemma NobodyIsReady(w: World, c: Cell)
    requires IdAt(w.board, c).None?
    ensures !Ready(w, c)
  {
  }

  /** A jump is accepted exactly for a ready piece, which it lifts for one second with everything else left alone. */
  lemma JumpLiftsOnePiece(w: World, c: Cell)
    requires Inv(w)
    ensures JumpAtCell(w, c) != w <==> Ready(w, c)
    ensures JumpAtCell(w, c) != w ==>
              var w' := JumpAtCell(w, c);
              var p := PieceAt(w.board, c).value;
              && Get(w'.board, p.id) == p.(state := Moving)
              && (forall d :: IdAt(w'.board, d) == if d == c then None else IdAt(w.board, d))
              && (forall i :: Stored(w.board, i) && i != p.id ==> Get(w'.board, i) == Get(w.board, i))
              && w' == w.(board := w'.board, jumps := w.jumps + [JumpState(p.id, p.color, p.kind, c, w.clock, w.clock + 1000)])
  {
    hide Inv, Free, Ready;
    if IdAt(w.board, c).Some? {
      FreeIsReady(w, c);
    } else {
      NobodyIsReady(w, c);
    }
  }

  /** Who changes the shared selection, and to what. */
  lemma SelectionAfter(w: World, a: Action)
    requires Inv(w)
    ensures var w' := Do(w, a);
            w'.selected ==
            match a
            case Select(c) => if InBounds(w.board, c) then Some(c) else w.selected
            case ClearSelection => None
            case MoveSelected(e) => if w'.pending != w.pending then None else w.selected
            case JumpSelected => None
            case JumpAt(_) => w.selected
            case AdvanceClock(_) => w.selected
  {
    hide Inv, Settle, CanMove, Free, Lift;
  }
}
