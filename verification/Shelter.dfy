/**
 Games in which every captured king ends the game. A game is sheltered if no king stands on, or is bound for, a
 cell that another airborne piece may come home to. Ticks keep a game sheltered and lose no king in silence.
 */
module Shelter {
  import opened Pieces
  import opened Boards
  import opened Rules
  import opened Engine
  import opened Conservation
  import opened Invariants
  import opened Runs
  import opened Flights
  import opened KingLoss

  /** No airborne piece other than id has left c. */
  ghost predicate NobodyElseLeft(b: Board, c: Cell, id: Id) {
    forall i :: Aloft(b, i) && i != id ==> Get(b, i).cell != c
  }

  ghost predicate Sheltered(b: Board, ms: seq<PendingMove>) {
    && (forall i :: Aloft(b, i) ==> !KingOn(b, Get(b, i).cell))
    && (forall m :: m in ms && m.kind == King ==> NobodyElseLeft(b, m.end, m.id))
  }

  // ---------------------------------------------------------------- settlement keeps the shelter

  /** Away from c a grounding leaves the grid, and the kings on it, alone. */
  lemma KingsElsewhere(b: Board, b': Board, id: Id, c: Cell, d: Cell)
    requires BoardOk(b) && Grounds(b, b', id, c) && d != c
    ensures KingOn(b', d) <==> KingOn(b, d)
  {
    if IdAt(b, d).Some? {
      var k := IdAt(b, d).value;
      assert Get(b, k).cell == d;
    }
  }

  /** A grounding keeps the shelter unless it puts a king on a cell that somebody in the air left. */
  lemma GroundingShelters(b: Board, b': Board, id: Id, c: Cell, ms: seq<PendingMove>, ms': seq<PendingMove>)
    requires BoardOk(b) && Grounds(b, b', id, c) && Sheltered(b, ms) && forall m :: m in ms' ==> m in ms
    requires KingOn(b', c) ==> forall i :: Aloft(b', i) ==> Get(b', i).cell != c
    ensures Sheltered(b', ms')
  {
    hide BoardOk, KingOn;
    forall i | Aloft(b', i)
      ensures Aloft(b, i) && Get(b', i) == Get(b, i) && !KingOn(b', Get(b', i).cell)
    {
      if Get(b', i).cell != c {
        KingsElsewhere(b, b', id, c, Get(b', i).cell);
      }
    }
    forall m | m in ms' && m.kind == King
      ensures NobodyElseLeft(b', m.end, m.id)
    {
      assert m in ms;
    }
  }

  /** A piece that comes home stands on a cell nobody else has left. */
  lemma HomeIsOwn(b: Board, b': Board, id: Id)
    requires BoardOk(b) && Aloft(b, id) && Grounds(b, b', id, Get(b, id).cell)
    ensures forall i :: Aloft(b', i) ==> Get(b', i).cell != Get(b, id).cell
  {
    forall i | Aloft(b', i)
      ensures Get(b', i).cell != Get(b, id).cell
    {
      assert i != id && Get(b', i) == Get(b, i) && Aloft(b, i);
    }
  }

  /** One due move keeps the shelter, and does not go home to a king. */
  lemma ArrivalShelters(w: World, m: PendingMove, after: seq<PendingMove>)
    requires BoardOk(w.board) && MoveOk(w.board, m) && Sheltered(w.board, w.pending + [m] + after)
    ensures var s := SettleMove(w, m).w; Sheltered(s.board, s.pending + after)
    ensures !KingOn(w.board, m.start)
  {
    hide SettleMove, BoardOk, Restore, LandedBoard, CanSettle, HostileJump;
    var b, s := w.board, SettleMove(w, m).w;
    var ms := w.pending + [m] + after;
    assert Aloft(b, m.id);
    SettleMoveCases(w, m);
    if !CanSettle(b, m.id, m.start, m.end) {
      RestoreGrounds(b, m.id);
      HomeIsOwn(b, s.board, m.id);
      GroundingShelters(b, s.board, m.id, m.start, ms, s.pending + after);
    } else if HostileJump(w.jumps, w.clock, m.end, m.color) {
      CaptureGrounds(b, m.id, m.start);
      HomeIsOwn(b, s.board, m.id);
      GroundingShelters(b, s.board, m.id, m.start, ms, s.pending + after);
    } else {
      PlaceGrounds(b, m);
      assert KingOn(s.board, m.end) ==> m.kind == King;
      assert m in ms;
      GroundingShelters(b, s.board, m.id, m.end, ms, s.pending + after);
    }
  }

  lemma {:induction false} DueShelters(w: World, queue: seq<PendingMove>, changed: bool)
    requires Steady(w, w.pending + queue, w.jumps) && Sheltered(w.board, w.pending + queue)
    requires forall m :: m in queue ==> MoveFits(DimsOf(w.board), m)
    requires forall m :: m in w.pending ==> w.clock < m.arrival
    ensures var w' := SettleDue(w, queue, changed).w; Sheltered(w'.board, w'.pending)
    ensures LoudArrivals(w, queue)
    decreases |queue|
  {
    hide Steady, Sheltered, SettleMove, CanSettle, KingOn, BoardOk, Onward;
    if queue == [] {
      assert w.pending + queue == w.pending;
    } else {
      var q, tail := queue[0], queue[1..];
      assert w.pending + queue == w.pending + [q] + tail;
      SteadyMember(w, w.pending + queue, q);
      if w.clock < q.arrival {
        var w1 := w.(pending := w.pending + [q]);
        SteadyQueues(w, w1);
        DueShelters(w1, tail, changed);
      } else {
        ArrivalShelters(w, q, tail);
        SettleMoveKeeps(w, q, tail);
        var s := SettleMove(w, q);
        DueShelters(s.w, tail, changed || s.changed);
      }
    }
  }

  lemma {:induction false} CancelShelters(w: World, bad: seq<PendingMove>)
    requires Steady(w, w.pending, w.jumps) && Sheltered(w.board, w.pending)
    requires UniqueMoves(bad) && forall m :: m in bad ==> m in w.pending && MoveFits(DimsOf(w.board), m)
    ensures var w' := CancelAll(w, bad); Sheltered(w'.board, w'.pending)
    decreases |bad|
  {
    hide Steady, Sheltered, Onward, Restore, Drop, BoardOk, KingOn;
    if bad != [] {
      var m := bad[0];
      assert m in bad;
      SteadyMember(w, w.pending, m);
      var w1 := w.(board := Restore(w.board, m.id, m.start), pending := Drop(w.pending, m.id));
      CancelOne(w, m);
      HomeIsOwn(w.board, w1.board, m.id);
      GroundingShelters(w.board, w1.board, m.id, m.start, w.pending, w1.pending);
      assert forall x :: x in bad[1..] ==> x in bad && x.id != m.id;
      CancelShelters(w1, bad[1..]);
    }
  }

  lemma {:induction false} ExpireShelters(w: World, queue: seq<JumpState>)
    requires Steady(w, w.pending, w.jumps + queue) && Sheltered(w.board, w.pending)
    requires forall j :: j in queue ==> JumpFits(DimsOf(w.board), j)
    ensures var w' := ExpireJumps(w, queue); Sheltered(w'.board, w'.pending)
    decreases |queue|
  {
    hide Steady, Sheltered, Onward, Restore, BoardOk, KingOn;
    if queue != [] {
      var j, tail := queue[0], queue[1..];
      assert w.jumps + queue == w.jumps + [j] + tail;
      JumpMember(w, w.jumps + [j] + tail, j);
      if w.clock < j.arrival {
        SteadyQueues(w, w.(jumps := w.jumps + [j]));
        ExpireShelters(w.(jumps := w.jumps + [j]), tail);
      } else {
        var w1 := w.(board := Restore(w.board, j.id, j.cell),
                     rests := w.rests[j.id := MakeRest(Short, j.arrival, j.cell)]);
        ExpireOne(w, j, tail);
        HomeIsOwn(w.board, w1.board, j.id);
        GroundingShelters(w.board, w1.board, j.id, j.cell, w.pending, w1.pending);
        ExpireShelters(w1, tail);
      }
    }
  }

  lemma AftermathShelters(w: World)
    requires Steady(w, w.pending, w.jumps) && Fits(w) && Sheltered(DueSettled(w).w.board, DueSettled(w).w.pending)
    ensures Sheltered(AfterArrivals(w).board, AfterArrivals(w).pending)
    ensures Sheltered(Settle(w).board, Settle(w).pending)
  {
    hide Steady, Sheltered, Onward, SettleDue, CancelAll, ExpireJumps;
    DueSettledKeeps(w);
    AfterArrivalsKeeps(w);
    var s := DueSettled(w);
    if s.changed {
      var bad := Invalid(s.w.board, s.w.clock, s.w.pending);
      SteadyUnique(s.w, s.w.pending);
      InvalidUnique(s.w.board, s.w.clock, s.w.pending);
      CancelShelters(s.w, bad);
    }
    var w1 := AfterArrivals(w);
    var w0 := w1.(jumps := []);
    SteadyQueues(w1, w0);
    assert w0.jumps + w1.jumps == w1.jumps;
    ExpireShelters(w0, w1.jumps);
  }

  lemma DueSettledShelters(w: World)
    requires Steady(w, w.pending, w.jumps) && Fits(w) && Sheltered(w.board, w.pending)
    ensures LoudArrivals(w.(pending := []), w.pending)
    ensures Sheltered(DueSettled(w).w.board, DueSettled(w).w.pending)
  {
    hide Steady, Sheltered, SettleDue, LoudArrivals;
    var w0 := w.(pending := []);
    SteadyQueues(w, w0);
    assert w0.pending + w.pending == w.pending;
    DueShelters(w0, w.pending, false);
  }

  /** Whoever is in the air in a sheltered game has no king to come home to. */
  lemma ReturnsAreLoud(w: World)
    requires Steady(w, w.pending, w.jumps) && Fits(w) && Sheltered(w.board, w.pending)
    ensures LoudReturns(w)
  {
    hide Steady, Onward, SettleDue, AfterArrivals, CanSettle, KingOn, LoudArrivals;
    DueSettledShelters(w);
    AftermathShelters(w);
    DueSettledKeeps(w);
    AfterArrivalsKeeps(w);
    forall m | m in w.pending && w.clock < m.arrival && Spoiled(w, m)
      ensures !KingOn(DueSettled(w).w.board, m.start)
    {
      StaysQueued(w, m);
      SteadyMember(DueSettled(w).w, DueSettled(w).w.pending, m);
      assert Aloft(DueSettled(w).w.board, m.id);
    }
    forall j | j in w.jumps && j.arrival <= w.clock
      ensures !KingOn(AfterArrivals(w).board, j.cell)
    {
      JumpMember(AfterArrivals(w), w.jumps, j);
      assert Aloft(AfterArrivals(w).board, j.id);
    }
  }

  /** A settlement of a sheltered game keeps it sheltered and loses no king in silence. */
  lemma SettlementShelters(w: World)
    requires Steady(w, w.pending, w.jumps) && Fits(w) && Sheltered(w.board, w.pending) && Announced(w)
    ensures Sheltered(Settle(w).board, Settle(w).pending) && Announced(Settle(w))
  {
    hide Steady, Sheltered, Announced, Settle, SettleDue, AfterArrivals, LoudArrivals, LoudReturns;
    DueSettledShelters(w);
    AftermathShelters(w);
    ReturnsAreLoud(w);
    SettlementExact(w);
  }
}
