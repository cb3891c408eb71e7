/** Who is captured when a flight ends: read off the board before, for each of the ways it can end. */
module Evictions {
  import opened Pieces
  import opened Boards
  import opened Rules
  import opened Engine
  import opened Conservation
  import opened Invariants
  import opened Flights

  /** The piece goes from play to captured. */
  ghost predicate Falls(b: Board, b': Board, id: Id)
    requires DimsOf(b') == DimsOf(b) && Stored(b, id)
  {
    Get(b, id).state != Captured && Get(b', id).state == Captured
  }

  /** A restoration captures exactly the piece on the reserved cell, friend or foe. */
  lemma RestoreEvicts(b: Board, id: Id, i: Id)
    requires BoardOk(b) && Aloft(b, id) && Stored(b, i)
    ensures var c := Get(b, id).cell;
            Falls(b, Restore(b, id, c), i) <==> IdAt(b, c) == Some(i)
  {
    hide Restore;
    RestoreGrounds(b, id);
    var c := Get(b, id).cell;
    var b' := Restore(b, id, c);
    if Falls(b, b', i) {
      assert i != id && IdAt(b, Get(b, i).cell) == Some(i);
    }
  }

  /** One due move captures exactly: the piece on its start, if it goes home; itself, under a jump; else the piece it lands on. */
  lemma ArrivalEvicts(w: World, m: PendingMove, i: Id)
    requires BoardOk(w.board) && MoveOk(w.board, m) && Stored(w.board, i)
    ensures Falls(w.board, SettleMove(w, m).w.board, i) <==>
            (if !CanSettle(w.board, m.id, m.start, m.end) then IdAt(w.board, m.start) == Some(i)
             else if HostileJump(w.jumps, w.clock, m.end, m.color) then i == m.id
             else IdAt(w.board, m.end) == Some(i))
  {
    hide SettleMove, CanSettle, HostileJump, Restore, LandedBoard;
    SettleMoveCases(w, m);
    if !CanSettle(w.board, m.id, m.start, m.end) {
      RestoreEvicts(w.board, m.id, i);
    } else if !HostileJump(w.jumps, w.clock, m.end, m.color) {
      PlaceGrounds(w.board, m);
      if Falls(w.board, LandedBoard(w.board, m), i) {
        assert IdAt(w.board, Get(w.board, i).cell) == Some(i);
      }
    }
  }

  /** The cancel loop captures exactly the pieces on the cells its moves come home to. */
  lemma {:induction false} CancelEvicts(w: World, bad: seq<PendingMove>, i: Id)
    requires Steady(w, w.pending, w.jumps)
    requires UniqueMoves(bad) && forall m :: m in bad ==> m in w.pending && MoveFits(DimsOf(w.board), m)
    requires Stored(w.board, i) && Get(w.board, i).state != Captured
    ensures Falls(w.board, CancelAll(w, bad).board, i) <==> exists m :: m in bad && IdAt(w.board, m.start) == Some(i)
    decreases |bad|
  {
    hide Steady, Onward, Restore, Drop, BoardOk;
    if bad != [] {
      var q, tail := bad[0], bad[1..];
      assert q in bad;
      SteadyMember(w, w.pending, q);
      var w1 := w.(board := Restore(w.board, q.id, q.start), pending := Drop(w.pending, q.id));
      CancelOne(w, q);
      RestoreEvicts(w.board, q.id, i);
      forall x | x in tail
        ensures x in bad && x.id != q.id && x.start != q.start && IdAt(w1.board, x.start) == IdAt(w.board, x.start)
      {
        assert x in bad;
        StartsDiffer(w, x, q);
      }
      if Get(w1.board, i).state == Captured {
        CancelAllKeeps(w1, tail);
        CapturedStays(w1, CancelAll(w1, tail), i);
      } else {
        CancelEvicts(w1, tail, i);
      }
    }
  }

  lemma CapturedStays(w: World, w': World, i: Id)
    requires Onward(w, w') && Stored(w.board, i) && Get(w.board, i).state == Captured
    ensures Get(w'.board, i).state == Captured
  {
  }

  /** The jump loop captures exactly the pieces on the cells its due jumps come home to. */
  lemma {:induction false} ExpireEvicts(w: World, queue: seq<JumpState>, i: Id)
    requires Steady(w, w.pending, w.jumps + queue)
    requires forall j :: j in queue ==> JumpFits(DimsOf(w.board), j)
    requires forall j :: j in w.jumps ==> w.clock < j.arrival
    requires Stored(w.board, i) && Get(w.board, i).state != Captured
    ensures Falls(w.board, ExpireJumps(w, queue).board, i) <==>
            exists j :: j in queue && j.arrival <= w.clock && IdAt(w.board, j.cell) == Some(i)
    decreases |queue|
  {
    hide Steady, Onward, Restore, BoardOk;
    if queue != [] {
      var q, tail := queue[0], queue[1..];
      assert w.jumps + queue == w.jumps + [q] + tail;
      assert q in queue;
      JumpMember(w, w.jumps + [q] + tail, q);
      if w.clock < q.arrival {
        var w1 := w.(jumps := w.jumps + [q]);
        SteadyQueues(w, w1);
        ExpireEvicts(w1, tail, i);
      } else {
        var w1 := w.(board := Restore(w.board, q.id, q.cell),
                     rests := w.rests[q.id := MakeRest(Short, q.arrival, q.cell)]);
        ExpireOne(w, q, tail);
        RestoreEvicts(w.board, q.id, i);
        TailApart(w, w.jumps, q, tail);
        assert forall x :: x in tail ==> IdAt(w1.board, x.cell) == IdAt(w.board, x.cell);
        if Get(w1.board, i).state == Captured {
          ExpireJumpsKeeps(w1, tail);
          CapturedStays(w1, ExpireJumps(w1, tail), i);
        } else {
          ExpireEvicts(w1, tail, i);
        }
      }
    }
  }
}
