/** What every settlement and every action keeps, and what a whole run can never undo. */
module Invariants {
  import opened Pieces
  import opened Boards
  import opened Rules
  import opened Engine
  import opened Conservation

  /** Every rest entry belongs to a captured piece or to one idle on exactly the recorded cell. */
  ghost predicate RestsOk(b: Board, rests: map<Id, Rest>) {
    forall id :: id in rests ==>
      Stored(b, id) && InBounds(b, rests[id].cell) &&
      (Get(b, id).state == Captured || (Get(b, id).state == Idle && Get(b, id).cell == rests[id].cell))
  }

  ghost predicate KingLost(b: Board) {
    exists id :: Stored(b, id) && Get(b, id).kind == King && Get(b, id).state == Captured
  }

  /** Nothing scheduled is due: moves, jumps and rests all end strictly after the clock. */
  ghost predicate Quiet(w: World) {
    && (forall m :: m in w.pending ==> w.clock < m.arrival)
    && (forall j :: j in w.jumps ==> w.clock < j.arrival)
    && (forall id :: id in w.rests ==> w.clock < w.rests[id].end)
  }

  /** The part of the invariant that also holds in the middle of the settlement loops. */
  ghost predicate Steady(w: World, ms: seq<PendingMove>, js: seq<JumpState>) {
    && BoardOk(w.board)
    && FlightsOk(w.board, ms, js)
    && RestsOk(w.board, w.rests)
    && (w.gameOver ==> KingLost(w.board))
  }

  /** The invariant of a game between two actions. */
  ghost predicate Inv(w: World) {
    Steady(w, w.pending, w.jumps) && Quiet(w)
  }

  /** What time cannot undo: sizes, colours, captures; a kind changes only from pawn to queen, and no pawn gets stuck. */
  ghost predicate Later(b: Board, b': Board) {
    && DimsOf(b') == DimsOf(b)
    && (forall id :: Stored(b, id) ==>
          && Get(b', id).color == Get(b, id).color
          && (Get(b', id).kind == Get(b, id).kind || (Get(b, id).kind == Pawn && Get(b', id).kind == Queen))
          && (Get(b, id).state == Captured ==> Get(b', id) == Get(b, id))
          && PawnStep(b, Get(b, id), Get(b', id)))
  }

  lemma LaterTransitive(a: Board, b: Board, c: Board)
    requires Later(a, b) && Later(b, c)
    ensures Later(a, c)
  {
    assert forall id :: Stored(a, id) ==> Stored(b, id);
  }

  /**
   What a settlement may do to pieces that are not in the air: leave piece and rest entry exactly alone, or
   capture the piece.
   */
  ghost predicate Spared(w: World, w': World, id: Id)
    requires DimsOf(w'.board) == DimsOf(w.board) && Stored(w.board, id)
  {
    && Get(w'.board, id) == Get(w.board, id)
    && (id in w.rests <==> id in w'.rests)
    && (id in w.rests ==> w'.rests[id] == w.rests[id])
  }

  ghost predicate Onward(w: World, w': World) {
    && Later(w.board, w'.board)
    && (forall id :: Stored(w.board, id) && Get(w.board, id).state != Moving ==>
          Spared(w, w', id) || Get(w'.board, id) == Get(w.board, id).(state := Captured))
  }

  lemma OnwardTransitive(a: World, b: World, c: World)
    requires Onward(a, b) && Onward(b, c)
    ensures Onward(a, c)
  {
    LaterTransitive(a.board, b.board, c.board);
  }

  lemma OnwardIsLater(w: World, w': World)
    requires Onward(w, w')
    ensures Later(w.board, w'.board)
  {
  }

  lemma KingStaysLost(b: Board, b': Board)
    requires Later(b, b') && KingLost(b)
    ensures KingLost(b')
  {
    var id :| Stored(b, id) && Get(b, id).kind == King && Get(b, id).state == Captured;
    assert Get(b', id) == Get(b, id);
  }

  /** Grounding one piece is a step onward as long as it touches no rest entry but its own and its victim's. */
  lemma GroundsIsOnward(w: World, w': World, id: Id, c: Cell)
    requires Grounds(w.board, w'.board, id, c)
    requires forall i :: i != id && Stored(w.board, i) && Get(w'.board, i).state != Captured ==>
               (i in w.rests <==> i in w'.rests) && (i in w.rests ==> w'.rests[i] == w.rests[i])
    ensures Onward(w, w')
  {
  }

  /** Rest entries survive a grounding: the piece that came down had none, a captured one may keep it. */
  lemma GroundsKeepsRests(b: Board, b': Board, id: Id, c: Cell, rests: map<Id, Rest>)
    requires RestsOk(b, rests) && Grounds(b, b', id, c)
    ensures RestsOk(b', rests) && id !in rests
  {
  }

  // ---------------------------------------------------------------- phase 1: due moves

  /** One callback of for_each_pending_due keeps everything, with the settled move gone from the queue. */
  lemma SettleMoveKeeps(w: World, m: PendingMove, after: seq<PendingMove>)
    requires Steady(w, w.pending + [m] + after, w.jumps) && MoveOk(w.board, m)
    ensures var w' := SettleMove(w, m).w;
            Steady(w', w'.pending + after, w'.jumps) && Onward(w, w')
  {
    var s := SettleMove(w, m);
    var c := Touched(w.board, m);
    SettleMoveCases(w, m);
    SettleMoveGrounds(w, m);
    GroundMove(w.board, s.w.board, w.pending, m, after, w.jumps, c);
    SettleMoveOnward(w, m);
    GroundsKeepsRests(w.board, s.w.board, m.id, c, w.rests);
    if w.gameOver {
      KingStaysLost(w.board, s.w.board);
    }
    LandingRest(w, m);
    LostKing(w, m);
  }

  lemma SettleMoveOnward(w: World, m: PendingMove)
    requires BoardOk(w.board) && MoveOk(w.board, m)
    ensures Onward(w, SettleMove(w, m).w)
  {
    hide SettleMove, LandedBoard, Restore;
    SettleMoveCases(w, m);
    SettleMoveGrounds(w, m);
    PlaceGrounds(w.board, m);
    GroundsIsOnward(w, SettleMove(w, m).w, m.id, Touched(w.board, m));
  }

  lemma LandingRest(w: World, m: PendingMove)
    requires BoardOk(w.board) && MoveOk(w.board, m) && RestsOk(w.board, w.rests)
    ensures RestsOk(SettleMove(w, m).w.board, SettleMove(w, m).w.rests)
  {
    hide SettleMove, LandedBoard, Restore;
    SettleMoveCases(w, m);
    SettleMoveGrounds(w, m);
    GroundsKeepsRests(w.board, SettleMove(w, m).w.board, m.id, Touched(w.board, m), w.rests);
    PlaceGrounds(w.board, m);
  }

  /** A callback raises the game-over flag only when it captures a king. */
  lemma LostKing(w: World, m: PendingMove)
    requires BoardOk(w.board) && MoveOk(w.board, m)
    ensures SettleMove(w, m).w.gameOver && !w.gameOver ==> KingLost(SettleMove(w, m).w.board)
  {
    hide SettleMove, LandedBoard, Restore;
    SettleMoveCases(w, m);
    var s := SettleMove(w, m);
    if s.w.gameOver && !w.gameOver {
      if HostileJump(w.jumps, w.clock, m.end, m.color) {
        assert Get(s.w.board, m.id).state == Captured && Get(s.w.board, m.id).kind == King;
      } else {
        PlaceGrounds(w.board, m);
        var victim := IdAt(w.board, m.end).value;
        assert Get(s.w.board, victim).state == Captured && Get(s.w.board, victim).kind == King;
      }
    }
  }

  lemma {:induction false} SettleDueKeeps(w: World, queue: seq<PendingMove>, changed: bool)
    requires Steady(w, w.pending + queue, w.jumps)
    requires forall m :: m in queue ==> MoveFits(DimsOf(w.board), m)
    requires forall m :: m in w.pending ==> w.clock < m.arrival
    ensures var w' := SettleDue(w, queue, changed).w;
            Steady(w', w'.pending, w'.jumps) && Onward(w, w')
    ensures forall m :: m in SettleDue(w, queue, changed).w.pending ==> w.clock < m.arrival
    decreases |queue|
  {
    if queue == [] {
      assert w.pending + queue == w.pending;
    } else {
      var m, tail := queue[0], queue[1..];
      assert w.pending + queue == w.pending + [m] + tail;
      if w.clock < m.arrival {
        SettleDueKeeps(w.(pending := w.pending + [m]), tail, changed);
      } else {
        var s := SettleMove(w, m);
        assert m in w.pending + [m] + tail;
        SettleMoveKeeps(w, m, tail);
        SettleDueKeeps(s.w, tail, changed || s.changed);
        OnwardTransitive(w, s.w, SettleDue(w, queue, changed).w);
      }
    }
  }

  // ---------------------------------------------------------------- phase 2: moves made impossible

  lemma {:induction false} DropSplits(ms: seq<PendingMove>, m: PendingMove) returns (before: seq<PendingMove>, after: seq<PendingMove>)
    requires m in ms && UniqueMoves(ms)
    ensures ms == before + [m] + after && Drop(ms, m.id) == before + after
  {
    if ms[0].id == m.id {
      assert ms[0] == m;
      before, after := [], ms[1..];
    } else {
      before, after := DropSplits(ms[1..], m);
      before := [ms[0]] + before;
      assert ms == [ms[0]] + ms[1..];
    }
  }

  lemma {:induction false} CancelAllKeeps(w: World, bad: seq<PendingMove>)
    requires Steady(w, w.pending, w.jumps)
    requires UniqueMoves(bad) && forall m :: m in bad ==> m in w.pending && MoveFits(DimsOf(w.board), m)
    ensures var w' := CancelAll(w, bad);
            Steady(w', w'.pending, w'.jumps) && Onward(w, w')
    decreases |bad|
  {
    if bad != [] {
      var m := bad[0];
      assert m in bad;
      assert MoveOk(w.board, m);
      var w1 := w.(board := Restore(w.board, m.id, m.start), pending := Drop(w.pending, m.id));
      CancelOne(w, m);
      forall x | x in bad[1..]
        ensures x in w1.pending && MoveFits(DimsOf(w1.board), x)
      {
        assert x in bad && x.id != m.id;
      }
      CancelAllKeeps(w1, bad[1..]);
      OnwardTransitive(w, w1, CancelAll(w, bad));
    }
  }

  lemma CancelOne(w: World, m: PendingMove)
    requires Steady(w, w.pending, w.jumps) && m in w.pending && MoveOk(w.board, m)
    ensures var w1 := w.(board := Restore(w.board, m.id, m.start), pending := Drop(w.pending, m.id));
            && Steady(w1, w1.pending, w1.jumps) && Onward(w, w1)
            && (forall x :: x in w.pending && x.id != m.id ==> x in w1.pending)
            && Grounds(w.board, w1.board, m.id, m.start) && Get(w1.board, m.id).state == Idle
            && Get(w1.board, m.id).cell == m.start && IdAt(w1.board, m.start) == Some(m.id)
  {
    var w1 := w.(board := Restore(w.board, m.id, m.start), pending := Drop(w.pending, m.id));
    var before, after := DropSplits(w.pending, m);
    RestoreGrounds(w.board, m.id);
    GroundMove(w.board, w1.board, before, m, after, w.jumps, m.start);
    GroundsIsOnward(w, w1, m.id, m.start);
    GroundsKeepsRests(w.board, w1.board, m.id, m.start, w.rests);
    if w.gameOver {
      KingStaysLost(w.board, w1.board);
    }
  }

  lemma {:induction false} InvalidUnique(b: Board, clock: int, ms: seq<PendingMove>)
    requires UniqueMoves(ms) && forall m :: m in ms ==> MoveFits(DimsOf(b), m)
    ensures UniqueMoves(Invalid(b, clock, ms))
  {
    if ms != [] {
      InvalidUnique(b, clock, ms[1..]);
      var tail := Invalid(b, clock, ms[1..]);
      forall x | x in tail
        ensures x.id != ms[0].id && (x.color == ms[0].color ==> x.end != ms[0].end)
      {
        assert x in ms[1..];
      }
    }
  }

  // ---------------------------------------------------------------- phase 3: jumps that end

  lemma ExpireOne(w: World, j: JumpState, after: seq<JumpState>)
    requires Steady(w, w.pending, w.jumps + [j] + after) && JumpOk(w.board, j)
    ensures var w1 := w.(board := Restore(w.board, j.id, j.cell),
                         rests := w.rests[j.id := MakeRest(Short, j.arrival, j.cell)]);
            && Steady(w1, w1.pending, w1.jumps + after) && Onward(w, w1)
            && Grounds(w.board, w1.board, j.id, j.cell) && Get(w1.board, j.id).state == Idle
            && Get(w1.board, j.id).cell == j.cell && IdAt(w1.board, j.cell) == Some(j.id)
  {
    var w1 := w.(board := Restore(w.board, j.id, j.cell),
                 rests := w.rests[j.id := MakeRest(Short, j.arrival, j.cell)]);
    RestoreGrounds(w.board, j.id);
    GroundJump(w.board, w1.board, w.pending, w.jumps, j, after, j.cell);
    GroundsIsOnward(w, w1, j.id, j.cell);
    GroundsKeepsRests(w.board, w1.board, j.id, j.cell, w.rests);
    if w.gameOver {
      KingStaysLost(w.board, w1.board);
    }
  }

  lemma {:induction false} ExpireJumpsKeeps(w: World, queue: seq<JumpState>)
    requires Steady(w, w.pending, w.jumps + queue)
    requires forall j :: j in queue ==> JumpFits(DimsOf(w.board), j)
    requires forall j :: j in w.jumps ==> w.clock < j.arrival
    ensures var w' := ExpireJumps(w, queue);
            Steady(w', w'.pending, w'.jumps) && Onward(w, w')
    ensures forall j :: j in ExpireJumps(w, queue).jumps ==> w.clock < j.arrival
    decreases |queue|
  {
    if queue == [] {
      assert w.jumps + queue == w.jumps;
    } else {
      var j, tail := queue[0], queue[1..];
      assert w.jumps + queue == w.jumps + [j] + tail;
      assert j in w.jumps + [j] + tail;
      if w.clock < j.arrival {
        ExpireJumpsKeeps(w.(jumps := w.jumps + [j]), tail);
      } else {
        var w1 := w.(board := Restore(w.board, j.id, j.cell),
                     rests := w.rests[j.id := MakeRest(Short, j.arrival, j.cell)]);
        ExpireOne(w, j, tail);
        ExpireJumpsKeeps(w1, tail);
        OnwardTransitive(w, w1, ExpireJumps(w, queue));
      }
    }
  }

  // ---------------------------------------------------------------- settlement and actions

  lemma SteadyFits(w: World)
    requires Steady(w, w.pending, w.jumps)
    ensures Fits(w)
  {
  }

  /** The world after the due moves, before the cancel phase. */
  ghost function DueSettled(w: World): Settlement
    requires Fits(w)
  {
    SettleDue(w.(pending := []), w.pending, false)
  }

  /** Settlement up to its last phase, which only drops rest entries that are over. */
  ghost function Expired(w: World): World
    requires Fits(w)
  {
    var w1 := AfterArrivals(w);
    ExpireJumps(w1.(jumps := []), w1.jumps)
  }

  lemma DueSettledKeeps(w: World)
    requires Steady(w, w.pending, w.jumps) && Fits(w)
    ensures var w1 := DueSettled(w).w;
            && Steady(w1, w1.pending, w1.jumps) && Onward(w, w1)
            && w1.clock == w.clock && w1.jumps == w.jumps
            && (forall m :: m in w1.pending ==> w.clock < m.arrival)
  {
    var w0 := w.(pending := []);
    assert w0.pending + w.pending == w.pending;
    SettleDueKeeps(w0, w.pending, false);
  }

  lemma AfterArrivalsKeeps(w: World)
    requires Steady(w, w.pending, w.jumps) && Fits(w)
    ensures var w1 := AfterArrivals(w);
            && Steady(w1, w1.pending, w1.jumps) && Onward(DueSettled(w).w, w1)
            && w1.jumps == w.jumps
            && (forall m :: m in w1.pending ==> w.clock < m.arrival)
  {
    DueSettledKeeps(w);
    var s := DueSettled(w);
    OnwardReflexive(s.w);
    if s.changed {
      InvalidUnique(s.w.board, s.w.clock, s.w.pending);
      CancelAllKeeps(s.w, Invalid(s.w.board, s.w.clock, s.w.pending));
    }
  }

  lemma OnwardReflexive(w: World)
    ensures Onward(w, w)
  {
  }

  /** A settlement at any clock restores the whole invariant, including quiescence. */
  lemma SettleKeeps(w: World)
    requires Steady(w, w.pending, w.jumps) && Fits(w)
    ensures Inv(Settle(w)) && Later(w.board, Settle(w).board)
    ensures Onward(w, DueSettled(w).w) && Onward(DueSettled(w).w, Expired(w)) && Onward(AfterArrivals(w), Expired(w))
    ensures Settle(w) == Expired(w).(rests := ExpireRests(Expired(w).rests, w.clock))
  {
    hide SettleDue, AfterArrivals, ExpireJumps;
    DueSettledKeeps(w);
    AfterArrivalsKeeps(w);
    var w1 := AfterArrivals(w);
    var w0 := w1.(jumps := []);
    assert w0.jumps + w1.jumps == w1.jumps;
    ExpireJumpsKeeps(w0, w1.jumps);
    OnwardTransitive(DueSettled(w).w, w1, Expired(w));
    OnwardTransitive(w, DueSettled(w).w, Expired(w));
  }

  /** Taking an idle piece off the grid reserves its cell: nobody else in the air has left it. */
  lemma LiftKeepsBoard(b: Board, c: Cell)
    requires BoardOk(b) && IdAt(b, c).Some?
    requires forall i :: Aloft(b, i) ==> Get(b, i).cell != c
    ensures BoardOk(Lift(b, c)) && Later(b, Lift(b, c))
    ensures Get(Lift(b, c), IdAt(b, c).value) == Get(b, IdAt(b, c).value).(state := Moving)
    ensures forall i :: Stored(b, i) && i != IdAt(b, c).value ==> Get(Lift(b, c), i) == Get(b, i)
  {
    var id := IdAt(b, c).value;
    var b' := Lift(b, c);
    forall i | Stored(b', i) && Get(b', i).state == Idle
      ensures IdAt(b', Get(b', i).cell) == Some(i)
    {
      assert Get(b', i) == Get(b, i);
      assert IdAt(b, Get(b, i).cell) == Some(i);
    }
    forall i | Aloft(b', i)
      ensures InBounds(b', Get(b', i).cell) && (i != id ==> Aloft(b, i) && Get(b', i).cell != c)
    {
      assert i == id || Get(b', i) == Get(b, i);
    }
    assert Get(b', id).cell == c;
  }

  /** In a quiet world a free cell is reserved by nobody, and its piece carries no rest entry. */
  lemma FreeIsUnreserved(w: World, c: Cell)
    requires Inv(w) && IdAt(w.board, c).Some? && Free(w, c)
    ensures forall i :: Aloft(w.board, i) ==> Get(w.board, i).cell != c
    ensures IdAt(w.board, c).value !in w.rests
    ensures !InMoves(w.pending, IdAt(w.board, c).value) && !InJumps(w.jumps, IdAt(w.board, c).value)
  {
    forall i | Aloft(w.board, i)
      ensures Get(w.board, i).cell != c
    {
      if InMoves(w.pending, i) {
        var m :| m in w.pending && m.id == i;
        assert w.clock < m.arrival && m.start != c;
      } else {
        var j :| j in w.jumps && j.id == i;
        assert w.clock < j.arrival && j.cell != c;
      }
    }
  }

  lemma LiftKeepsRests(w: World, c: Cell)
    requires Inv(w) && IdAt(w.board, c).Some? && Free(w, c)
    ensures RestsOk(Lift(w.board, c), w.rests)
  {
    FreeIsUnreserved(w, c);
    LiftKeepsBoard(w.board, c);
  }

  lemma MoveKeeps(w: World, e: Cell)
    requires Inv(w)
    ensures Inv(MoveSelectedTo(w, e)) && Later(w.board, MoveSelectedTo(w, e).board)
  {
    var w' := MoveSelectedTo(w, e);
    if w' != w {
      var s := w.selected.value;
      var id := IdAt(w.board, s).value;
      FreeIsUnreserved(w, s);
      LiftKeepsBoard(w.board, s);
      LiftKeepsRests(w, s);
      var m := w'.pending[|w.pending|];
      assert MoveOk(w'.board, m) && w'.clock < m.arrival;
      forall x | x in w'.pending
        ensures MoveOk(w'.board, x) && w'.clock < x.arrival
      {
        assert x in w.pending || x == m;
      }
      assert UniqueMoves(w'.pending) by {
        forall i | 0 <= i < |w.pending|
          ensures w.pending[i].id != id && (w.pending[i].color == m.color ==> w.pending[i].end != e)
        {
          assert w.pending[i] in w.pending;
        }
      }
      forall i | Aloft(w'.board, i)
        ensures InMoves(w'.pending, i) || InJumps(w'.jumps, i)
      {
        if i == id {
          assert m in w'.pending;
        } else if InMoves(w.pending, i) {
          var x :| x in w.pending && x.id == i;
          assert x in w'.pending;
        }
      }
      if w.gameOver {
        KingStaysLost(w.board, w'.board);
      }
    }
  }

  lemma JumpKeeps(w: World, c: Cell)
    requires Inv(w)
    ensures Inv(JumpAtCell(w, c)) && Later(w.board, JumpAtCell(w, c).board)
  {
    var w' := JumpAtCell(w, c);
    if w' != w {
      var id := IdAt(w.board, c).value;
      FreeIsUnreserved(w, c);
      LiftKeepsBoard(w.board, c);
      LiftKeepsRests(w, c);
      var j := w'.jumps[|w.jumps|];
      assert JumpOk(w'.board, j) && w'.clock < j.arrival;
      forall x | x in w'.jumps
        ensures JumpOk(w'.board, x) && w'.clock < x.arrival
      {
        assert x in w.jumps || x == j;
      }
      assert UniqueJumps(w'.jumps) by {
        forall i | 0 <= i < |w.jumps|
          ensures w.jumps[i].id != id
        {
          assert w.jumps[i] in w.jumps;
        }
      }
      forall i | Aloft(w'.board, i)
        ensures InMoves(w'.pending, i) || InJumps(w'.jumps, i)
      {
        if i == id {
          assert j in w'.jumps;
        } else if InJumps(w.jumps, i) {
          var x :| x in w.jumps && x.id == i;
          assert x in w'.jumps;
        }
      }
      if w.gameOver {
        KingStaysLost(w.board, w'.board);
      }
    }
  }

  lemma SelectionIsFree(w: World, sel: Option<Cell>)
    requires Inv(w)
    ensures Inv(w.(selected := sel))
  {
  }

  lemma ClockIsFree(w: World, clock: int)
    requires Inv(w)
    ensures var w1 := w.(clock := clock); Steady(w1, w1.pending, w1.jumps) && Fits(w1)
  {
  }

  lemma LaterReflexive(b: Board)
    ensures Later(b, b)
  {
  }

  /** Every action, with any tick size, keeps the invariant and undoes nothing. */
  lemma ApplyKeeps(w: World, a: Action)
    requires Inv(w) && Fits(w)
    ensures Inv(Apply(w, a)) && Later(w.board, Apply(w, a).board)
  {
    hide Settle, MoveSelectedTo, JumpAtCell, Later, Steady, Quiet;
    match a
    case Select(c) =>
      SelectionIsFree(w, Some(c));
      LaterReflexive(w.board);
    case ClearSelection =>
      SelectionIsFree(w, None);
      LaterReflexive(w.board);
    case MoveSelected(e) => MoveKeeps(w, e);
    case JumpSelected =>
      LaterReflexive(w.board);
      if w.selected.Some? {
        JumpKeeps(w, w.selected.value);
        SelectionIsFree(JumpAtCell(w, w.selected.value), None);
      }
    case JumpAt(c) => JumpKeeps(w, c);
    case AdvanceClock(ms) =>
      ClockIsFree(w, w.clock + ms);
      SettleKeeps(w.(clock := w.clock + ms));
  }
}
