/** What becomes of every flight: landings, aborts, jump windows, restorations and cooldowns. */
module Flights {
  import opened Pieces
  import opened Boards
  import opened Paths
  import opened Rules
  import opened Engine
  import opened Conservation
  import opened Invariants
  import opened Runs

  predicate IdleOn(b: Board, id: Id, c: Cell)
    requires Stored(b, id)
  {
    Get(b, id).state == Idle && Get(b, id).cell == c
  }

  predicate IsCaptured(b: Board, id: Id)
    requires Stored(b, id)
  {
    Get(b, id).state == Captured
  }

  // ---------------------------------------------------------------- due moves

  /** The kind of a piece after its move: unchanged, or queen for a pawn bound for its last row. */
  predicate KindAfter(b: Board, m: PendingMove)
    requires Stored(b, m.id)
  {
    Get(b, m.id).kind == m.kind ||
    (m.kind == Pawn && Get(b, m.id).kind == Queen && m.end.row == LastRow(m.color, Rows(b)))
  }

  /**
   The end of a due move: captured, back home, or landed with a long rest. It lands only if no hostile
   jump guards the destination.
   */
  ghost predicate Done(w: World, m: PendingMove)
    requires Stored(w.board, m.id)
  {
    KindAfter(w.board, m) && Ended(w, m)
  }

  ghost predicate Ended(w: World, m: PendingMove)
    requires Stored(w.board, m.id)
  {
    || IsCaptured(w.board, m.id)
    || IdleOn(w.board, m.id, m.start)
    || (IdleOn(w.board, m.id, m.end) && !HostileJump(w.jumps, w.clock, m.end, m.color) &&
        m.id in w.rests && w.rests[m.id] == MakeRest(Long, m.arrival, m.end))
  }

  lemma SettleMoveDone(w: World, m: PendingMove)
    requires BoardOk(w.board) && MoveOk(w.board, m)
    ensures Done(SettleMove(w, m).w, m)
  {
    hide SettleMove, LandedBoard, Restore;
    SettleMoveCases(w, m);
    PlaceGrounds(w.board, m);
    RestoreGrounds(w.board, m.id);
  }

  lemma DoneStays(w: World, w': World, m: PendingMove)
    requires Stored(w.board, m.id) && Done(w, m) && Onward(w, w') && w'.jumps == w.jumps && w'.clock == w.clock
    ensures Done(w', m)
  {
  }

  lemma {:induction false} SettleDueDone(w: World, queue: seq<PendingMove>, changed: bool, m: PendingMove)
    requires Steady(w, w.pending + queue, w.jumps)
    requires forall x :: x in queue ==> MoveFits(DimsOf(w.board), x)
    requires forall x :: x in w.pending ==> w.clock < x.arrival
    requires m in queue
    ensures var w' := SettleDue(w, queue, changed).w;
            if w.clock < m.arrival then m in w'.pending else Done(w', m)
    decreases |queue|
  {
    hide Steady, Onward, SettleMove, Done;
    var q, tail := queue[0], queue[1..];
    assert w.pending + queue == w.pending + [q] + tail;
    if w.clock < q.arrival {
      var w1 := w.(pending := w.pending + [q]);
      SteadyQueues(w, w1);
      if q == m {
        KeptStays(w1, tail, changed, m);
      } else {
        SettleDueDone(w1, tail, changed, m);
      }
    } else {
      var s := SettleMove(w, q);
      SteadyMember(w, w.pending + [q] + tail, q);
      SettleMoveKeeps(w, q, tail);
      if q == m {
        SettleMoveDone(w, m);
        SettleDueKeeps(s.w, tail, changed || s.changed);
        DoneStays(s.w, SettleDue(w, queue, changed).w, m);
      } else {
        SettleDueDone(s.w, tail, changed || s.changed, m);
      }
    }
  }

  lemma SteadyQueues(w: World, w': World)
    requires w' == w.(pending := w'.pending, jumps := w'.jumps)
    ensures forall ms, js :: Steady(w, ms, js) ==> Steady(w', ms, js)
  {
  }

  lemma SteadyMember(w: World, ms: seq<PendingMove>, m: PendingMove)
    requires Steady(w, ms, w.jumps) && m in ms
    ensures BoardOk(w.board) && MoveOk(w.board, m)
  {
  }

  lemma {:induction false} KeptStays(w: World, queue: seq<PendingMove>, changed: bool, m: PendingMove)
    requires forall x :: x in queue ==> MoveFits(DimsOf(w.board), x)
    requires m in w.pending
    ensures m in SettleDue(w, queue, changed).w.pending
    decreases |queue|
  {
    hide SettleMove;
    if queue != [] {
      if w.clock < queue[0].arrival {
        KeptStays(w.(pending := w.pending + [queue[0]]), queue[1..], changed, m);
      } else {
        assert MoveFits(DimsOf(w.board), queue[0]);
        var s := SettleMove(w, queue[0]);
        KeptStays(s.w, queue[1..], changed || s.changed, m);
      }
    }
  }

  // ---------------------------------------------------------------- restorations

  /** Cancelling other moves leaves an idle piece alone when none of them started on its cell. */
  lemma {:induction false} CancelAllSpares(w: World, bad: seq<PendingMove>, id: Id)
    requires Steady(w, w.pending, w.jumps)
    requires UniqueMoves(bad) && forall m :: m in bad ==> m in w.pending && MoveFits(DimsOf(w.board), m)
    requires Stored(w.board, id) && Get(w.board, id).state == Idle
    requires forall m :: m in bad ==> m.start != Get(w.board, id).cell
    ensures Get(CancelAll(w, bad).board, id) == Get(w.board, id)
    decreases |bad|
  {
    hide Steady, Onward, Restore, Drop, BoardOk, MoveOk;
    if bad != [] {
      var m := bad[0];
      assert m in bad;
      SteadyMember(w, w.pending, m);
      var w1 := w.(board := Restore(w.board, m.id, m.start), pending := Drop(w.pending, m.id));
      CancelOne(w, m);
      assert forall x :: x in bad[1..] ==> x in bad && x.id != m.id;
      assert Get(w1.board, id) == Get(w.board, id);
      CancelAllSpares(w1, bad[1..], id);
    }
  }

  /** The cancel phase sends each invalid move home, and keeps every other move flying. */
  lemma {:induction false} CancelAllOutcome(w: World, bad: seq<PendingMove>, m: PendingMove)
    requires Steady(w, w.pending, w.jumps)
    requires UniqueMoves(bad) && forall x :: x in bad ==> x in w.pending && MoveFits(DimsOf(w.board), x)
    requires m in w.pending && MoveOk(w.board, m)
    ensures m in bad ==> Get(CancelAll(w, bad).board, m.id) == Get(w.board, m.id).(state := Idle)
    ensures m !in bad ==> m in CancelAll(w, bad).pending
    decreases |bad|
  {
    hide Steady, Onward, Restore, Drop, BoardOk, MoveOk;
    if bad != [] {
      var q := bad[0];
      assert q in bad;
      SteadyMember(w, w.pending, q);
      var w1 := w.(board := Restore(w.board, q.id, q.start), pending := Drop(w.pending, q.id));
      CancelOne(w, q);
      RestoreGrounds(w.board, q.id);
      MoveIdsAreUnique(w, m, q);
      assert forall x :: x in bad[1..] ==> x in bad && x.id != q.id;
      if m == q {
        forall x | x in bad[1..]
          ensures x.start != m.start
        {
          StartsDiffer(w, x, m);
        }
        CancelAllSpares(w1, bad[1..], m.id);
      } else {
        SteadyMember(w1, w1.pending, m);
        CancelAllOutcome(w1, bad[1..], m);
      }
    }
  }

  lemma MoveIdsAreUnique(w: World, a: PendingMove, b: PendingMove)
    requires Steady(w, w.pending, w.jumps) && a in w.pending && b in w.pending
    ensures a.id == b.id ==> a == b
  {
  }

  lemma StartsDiffer(w: World, a: PendingMove, b: PendingMove)
    requires Steady(w, w.pending, w.jumps) && a in w.pending && b in w.pending && a.id != b.id
    ensures a.start != b.start
  {
    assert Aloft(w.board, a.id) && Aloft(w.board, b.id);
  }

  lemma {:induction false} ExpireJumpsSpares(w: World, queue: seq<JumpState>, id: Id)
    requires Steady(w, w.pending, w.jumps + queue)
    requires forall j :: j in queue ==> JumpFits(DimsOf(w.board), j)
    requires Stored(w.board, id)
    requires Get(w.board, id).state == Idle ==>
               forall j :: j in queue && j.arrival <= w.clock ==> j.cell != Get(w.board, id).cell
    requires Get(w.board, id).state == Moving ==> !InJumps(queue, id)
    ensures Get(ExpireJumps(w, queue).board, id) == Get(w.board, id)
    ensures Get(w.board, id).state == Idle ==>
              (id in w.rests <==> id in ExpireJumps(w, queue).rests) &&
              (id in w.rests ==> ExpireJumps(w, queue).rests[id] == w.rests[id])
    ensures forall j :: j in w.jumps ==> j in ExpireJumps(w, queue).jumps
    decreases |queue|
  {
    hide Steady, Onward, Restore, BoardOk, JumpOk;
    if queue != [] {
      var j, tail := queue[0], queue[1..];
      assert w.jumps + queue == w.jumps + [j] + tail;
      assert j in queue;
      if w.clock < j.arrival {
        SteadyQueues(w, w.(jumps := w.jumps + [j]));
        ExpireJumpsSpares(w.(jumps := w.jumps + [j]), tail, id);
      } else {
        JumpMember(w, w.jumps + [j] + tail, j);
        ExpireOne(w, j, tail);
        var w1 := w.(board := Restore(w.board, j.id, j.cell),
                     rests := w.rests[j.id := MakeRest(Short, j.arrival, j.cell)]);
        assert Get(w1.board, id) == Get(w.board, id);
        ExpireJumpsSpares(w1, tail, id);
      }
    }
  }

  lemma JumpMember(w: World, js: seq<JumpState>, j: JumpState)
    requires Steady(w, w.pending, js) && j in js
    ensures BoardOk(w.board) && JumpOk(w.board, j)
  {
  }

  /** Each jump of the queue goes on untouched, or ends with its piece home and resting. */
  lemma {:induction false} ExpireJumpsOutcome(w: World, queue: seq<JumpState>, j: JumpState)
    requires Steady(w, w.pending, w.jumps + queue)
    requires forall x :: x in queue ==> JumpFits(DimsOf(w.board), x)
    requires j in queue
    ensures var w' := ExpireJumps(w, queue);
            if w.clock < j.arrival then
              j in w'.jumps && Get(w'.board, j.id) == Get(w.board, j.id)
            else
              && Get(w'.board, j.id) == Get(w.board, j.id).(state := Idle)
              && j.id in w'.rests && w'.rests[j.id] == MakeRest(Short, j.arrival, j.cell)
    decreases |queue|
  {
    hide Steady, Onward, Restore, BoardOk;
    var q, tail := queue[0], queue[1..];
    assert w.jumps + queue == w.jumps + [q] + tail;
    assert q in queue;
    JumpMember(w, w.jumps + [q] + tail, q);
    JumpMember(w, w.jumps + queue, j);
    if w.clock < q.arrival {
      var w1 := w.(jumps := w.jumps + [q]);
      SteadyQueues(w, w1);
      if q == j {
        TailApart(w, w.jumps, q, tail);
        ExpireJumpsSpares(w1, tail, j.id);
      } else {
        ExpireJumpsOutcome(w1, tail, j);
      }
    } else {
      ExpireOne(w, q, tail);
      RestoreGrounds(w.board, q.id);
      TailApart(w, w.jumps, q, tail);
      var w1 := w.(board := Restore(w.board, q.id, q.cell),
                   rests := w.rests[q.id := MakeRest(Short, q.arrival, q.cell)]);
      if q == j {
        ExpireJumpsSpares(w1, tail, j.id);
      } else {
        assert Get(w1.board, j.id) == Get(w.board, j.id);
        ExpireJumpsOutcome(w1, tail, j);
      }
    }
  }

  /** Later entries of the jump queue concern other pieces on other cells. */
  lemma TailApart(w: World, kept: seq<JumpState>, j: JumpState, tail: seq<JumpState>)
    requires Steady(w, w.pending, kept + [j] + tail)
    ensures !InJumps(tail, j.id) && forall x :: x in tail ==> x.cell != j.cell
  {
    var all := kept + [j] + tail;
    forall x | x in tail
      ensures x.id != j.id && x.cell != j.cell
    {
      var i :| 0 <= i < |tail| && tail[i] == x;
      assert all[|kept|] == j && all[|kept| + 1 + i] == x;
      assert j in all && x in all;
      assert Aloft(w.board, j.id) && Aloft(w.board, x.id);
    }
  }

  // ---------------------------------------------------------------- a whole settlement

  /**
   Jumps through a settlement. Before its expiry a jump is untouched, so its piece cannot be captured; the
   settlement that expires it leaves the jumper idle on its own cell.
   */
  lemma SettleJump(w: World, j: JumpState)
    requires Steady(w, w.pending, w.jumps) && Fits(w) && j in w.jumps
    ensures var w' := Settle(w);
            if w.clock < j.arrival then
              j in w'.jumps && Get(w'.board, j.id) == Get(w.board, j.id)
            else
              && Get(w'.board, j.id) == Get(w.board, j.id).(state := Idle)
              && IdleOn(w'.board, j.id, j.cell)
              && (w.clock < MakeRest(Short, j.arrival, j.cell).end ==>
                    j.id in w'.rests && w'.rests[j.id] == MakeRest(Short, j.arrival, j.cell))
  {
    hide Steady, Onward, AfterArrivals, ExpireJumps;
    AfterArrivalsKeeps(w);
    SettleKeeps(w);
    JumpMember(w, w.jumps, j);
    var w1 := AfterArrivals(w);
    JumpMember(w1, w1.jumps, j);
    var w0 := w1.(jumps := []);
    SteadyQueues(w1, w0);
    assert w0.jumps + w1.jumps == w1.jumps;
    ExpireJumpsOutcome(w0, w1.jumps, j);
  }

  /** A due move through a settlement ends captured, home, or landed; never landed under a hostile jump. */
  lemma SettleDueMove(w: World, m: PendingMove)
    requires Steady(w, w.pending, w.jumps) && Fits(w) && m in w.pending && m.arrival <= w.clock
    ensures var w' := Settle(w);
            || IsCaptured(w'.board, m.id)
            || IdleOn(w'.board, m.id, m.start)
            || (IdleOn(w'.board, m.id, m.end) && !HostileJump(w.jumps, w.clock, m.end, m.color) &&
                (w.clock < MakeRest(Long, m.arrival, m.end).end ==>
                   m.id in w'.rests && w'.rests[m.id] == MakeRest(Long, m.arrival, m.end)))
    ensures KindAfter(Settle(w).board, m)
  {
    hide Steady, AfterArrivals, ExpireJumps, SettleDue;
    var w0 := w.(pending := []);
    assert w0.pending + w.pending == w.pending;
    SteadyQueues(w, w0);
    SteadyMember(w, w.pending, m);
    SettleDueDone(w0, w.pending, false, m);
    SettleKeeps(w);
    DueSettledKeeps(w);
  }

  /** Some arrival changed the board, and on the board after all arrivals the move is no longer possible. */
  ghost predicate Spoiled(w: World, m: PendingMove)
    requires Fits(w) && m in w.pending
  {
    DueSettled(w).changed && !CanSettle(DueSettled(w).w.board, m.id, m.start, m.end)
  }

  /** A move that is not due never lands: it is sent home, idle on the cell it left, exactly when it is spoiled. */
  lemma SettleFlyingMove(w: World, m: PendingMove)
    requires Steady(w, w.pending, w.jumps) && Fits(w) && m in w.pending && w.clock < m.arrival
    ensures var w' := Settle(w);
            if Spoiled(w, m)
            then Get(w'.board, m.id) == Get(w.board, m.id).(state := Idle) && IdleOn(w'.board, m.id, m.start)
            else m in w'.pending && Get(w'.board, m.id) == Get(w.board, m.id)
  {
    hide Steady, Onward, AfterArrivals, ExpireJumps, SettleDue;
    var w0 := w.(pending := []);
    assert w0.pending + w.pending == w.pending;
    SteadyQueues(w, w0);
    SteadyMember(w, w.pending, m);
    SettleDueDone(w0, w.pending, false, m);
    DueSettledKeeps(w);
    SettleKeeps(w);
    var s := DueSettled(w);
    SteadyMember(s.w, s.w.pending, m);
    CancelPhase(w, m);
    var w1 := AfterArrivals(w);
    AfterArrivalsKeeps(w);
    MoveApartFromJumps(s.w, m);
    var w2 := w1.(jumps := []);
    SteadyQueues(w1, w2);
    assert w2.jumps + w1.jumps == w1.jumps;
    ExpireJumpsSpares(w2, w1.jumps, m.id);
  }

  lemma CancelPhase(w: World, m: PendingMove)
    requires Steady(w, w.pending, w.jumps) && Fits(w)
    requires m in w.pending && m in DueSettled(w).w.pending && MoveOk(DueSettled(w).w.board, m) && w.clock < m.arrival
    ensures if Spoiled(w, m)
            then Get(AfterArrivals(w).board, m.id) == Get(DueSettled(w).w.board, m.id).(state := Idle)
            else m in AfterArrivals(w).pending && MoveOk(AfterArrivals(w).board, m)
  {
    hide SettleDue, Steady, Onward, BoardOk;
    DueSettledKeeps(w);
    AfterArrivalsKeeps(w);
    var s := DueSettled(w);
    if s.changed {
      var bad := Invalid(s.w.board, s.w.clock, s.w.pending);
      SteadyUnique(s.w, s.w.pending);
      InvalidUnique(s.w.board, s.w.clock, s.w.pending);
      CancelAllOutcome(s.w, bad, m);
    }
    if m in AfterArrivals(w).pending {
      SteadyMember(AfterArrivals(w), AfterArrivals(w).pending, m);
    }
  }

  lemma SteadyUnique(w: World, ms: seq<PendingMove>)
    requires Steady(w, ms, w.jumps)
    ensures UniqueMoves(ms)
  {
  }

  lemma MoveApartFromJumps(w: World, m: PendingMove)
    requires Steady(w, w.pending, w.jumps) && m in w.pending
    ensures !InJumps(w.jumps, m.id) && forall j :: j in w.jumps ==> j.cell != m.start
  {
    assert forall j :: j in w.jumps ==> Aloft(w.board, j.id) && Aloft(w.board, m.id) && j.id != m.id;
  }
}
