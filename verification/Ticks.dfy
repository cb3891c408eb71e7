/** Exactly when one tick can be split in two, as long as no move falls due in between. */
module Ticks {
  import opened Pieces
  import opened Boards
  import opened Rules
  import opened Engine
  import opened Conservation
  import opened Invariants
  import opened Runs
  import opened Quiescence
  import opened Flights
  import opened Evictions

  // ---------------------------------------------------------------- arrivals

  /** The callback reads the clock only through the jump windows, and those only if the move can settle. */
  lemma SettleMoveAtEither(w: World, m: PendingMove, late: int)
    requires BoardOk(w.board) && MoveOk(w.board, m)
    requires CanSettle(w.board, m.id, m.start, m.end) ==>
               (HostileJump(w.jumps, w.clock, m.end, m.color) <==> HostileJump(w.jumps, late, m.end, m.color))
    ensures var s := SettleMove(w, m); SettleMove(w.(clock := late), m) == s.(w := s.w.(clock := late))
  {
    hide SettleMove, CanSettle, HostileJump, Restore, LandedBoard, BoardOk;
    SettleMoveCases(w, m);
    SettleMoveCases(w.(clock := late), m);
  }

  /**
   Every due move that can settle when its turn comes meets a hostile jump at the later clock if it meets one
   at the earlier: no window that would decide an arrival closes in between.
   */
  ghost predicate GuardsAgree(w: World, queue: seq<PendingMove>, late: int)
    requires forall m :: m in queue ==> MoveFits(DimsOf(w.board), m)
    decreases |queue|
  {
    if queue == [] then true
    else
      var q := queue[0];
      assert MoveFits(DimsOf(w.board), q);
      if w.clock < q.arrival then GuardsAgree(w.(pending := w.pending + [q]), queue[1..], late)
      else
        && (CanSettle(w.board, q.id, q.start, q.end) && HostileJump(w.jumps, w.clock, q.end, q.color) ==>
              HostileJump(w.jumps, late, q.end, q.color))
        && GuardsAgree(SettleMove(w, q).w, queue[1..], late)
  }

  lemma LaterGuardsWereThere(jumps: seq<JumpState>, early: int, late: int, c: Cell, color: Color)
    requires early <= late && HostileJump(jumps, late, c, color)
    ensures HostileJump(jumps, early, c, color)
  {
    var j :| j in jumps && Guards(j, late, c, color);
    assert Guards(j, early, c, color);
  }

  ghost predicate SameDue(ms: seq<PendingMove>, early: int, late: int) {
    early <= late && forall m :: m in ms ==> m.arrival <= early || late < m.arrival
  }

  lemma {:induction false} DueAtEither(w: World, queue: seq<PendingMove>, changed: bool, late: int)
    requires Steady(w, w.pending + queue, w.jumps) && SameDue(queue, w.clock, late)
    requires forall m :: m in queue ==> MoveFits(DimsOf(w.board), m)
    requires GuardsAgree(w, queue, late)
    ensures var s := SettleDue(w, queue, changed);
            SettleDue(w.(clock := late), queue, changed) == s.(w := s.w.(clock := late))
    decreases |queue|
  {
    hide Steady, SettleMove, CanSettle, HostileJump, BoardOk, Onward;
    if queue != [] {
      var q, tail := queue[0], queue[1..];
      assert q in queue;
      assert w.pending + queue == w.pending + [q] + tail;
      SteadyMember(w, w.pending + queue, q);
      if w.clock < q.arrival {
        var w1 := w.(pending := w.pending + [q]);
        SteadyQueues(w, w1);
        DueAtEither(w1, tail, changed, late);
      } else {
        if HostileJump(w.jumps, late, q.end, q.color) {
          LaterGuardsWereThere(w.jumps, w.clock, late, q.end, q.color);
        }
        SettleMoveAtEither(w, q, late);
        SettleMoveKeeps(w, q, tail);
        var s := SettleMove(w, q);
        DueAtEither(s.w, tail, changed || s.changed, late);
      }
    }
  }

  /** Two boards on which the same grounded piece has different cells. */
  ghost predicate Differ(b: Board, b': Board, id: Id) {
    && Stored(b, id) && Stored(b', id)
    && Get(b, id).state != Moving && Get(b', id).state != Moving && Get(b, id).cell != Get(b', id).cell
  }

  /** Grounded pieces keep their cell for good, so such a difference stays. */
  lemma DifferenceStays(a: World, a': World, b: World, b': World, id: Id)
    requires Differ(a.board, b.board, id) && Onward(a, a') && Onward(b, b')
    ensures Differ(a'.board, b'.board, id)
  {
  }

  ghost predicate BoardOnward(b: Board, b': Board) {
    && DimsOf(b') == DimsOf(b)
    && forall i :: Stored(b, i) && Get(b, i).state != Moving ==> Get(b', i).state != Moving && Get(b', i).cell == Get(b, i).cell
  }

  /** Shot down at one clock, landed at the other. */
  lemma VerdictsDiffer(w: World, m: PendingMove, late: int)
    requires BoardOk(w.board) && MoveOk(w.board, m) && CanSettle(w.board, m.id, m.start, m.end)
    requires HostileJump(w.jumps, w.clock, m.end, m.color) && !HostileJump(w.jumps, late, m.end, m.color)
    ensures Differ(SettleMove(w, m).w.board, SettleMove(w.(clock := late), m).w.board, m.id)
  {
    hide SettleMove, CanSettle, HostileJump, Restore, LandedBoard, BoardOk;
    SettleMoveCases(w, m);
    SettleMoveCases(w.(clock := late), m);
    PlaceGrounds(w.board, m);
  }

  lemma {:induction false} DueDiffers(w: World, queue: seq<PendingMove>, changed: bool, late: int) returns (id: Id)
    requires Steady(w, w.pending + queue, w.jumps) && SameDue(queue, w.clock, late)
    requires forall m :: m in queue ==> MoveFits(DimsOf(w.board), m)
    requires forall m :: m in w.pending ==> w.clock < m.arrival && late < m.arrival
    requires !GuardsAgree(w, queue, late)
    ensures Differ(SettleDue(w, queue, changed).w.board, SettleDue(w.(clock := late), queue, changed).w.board, id)
    decreases |queue|
  {
    hide Steady, SettleMove, CanSettle, HostileJump, BoardOk, Onward, Differ;
    var q, tail := queue[0], queue[1..];
    assert q in queue;
    assert w.pending + queue == w.pending + [q] + tail;
    SteadyMember(w, w.pending + queue, q);
    if w.clock < q.arrival {
      var w1 := w.(pending := w.pending + [q]);
      SteadyQueues(w, w1);
      id := DueDiffers(w1, tail, changed, late);
    } else {
      var wl := w.(clock := late);
      SteadyAnyClock(w, late, w.pending + queue);
      var s, sl := SettleMove(w, q), SettleMove(wl, q);
      SettleMoveKeeps(w, q, tail);
      SettleMoveKeeps(wl, q, tail);
      if HostileJump(w.jumps, late, q.end, q.color) {
        LaterGuardsWereThere(w.jumps, w.clock, late, q.end, q.color);
      }
      if CanSettle(w.board, q.id, q.start, q.end) &&
         HostileJump(w.jumps, w.clock, q.end, q.color) && !HostileJump(w.jumps, late, q.end, q.color) {
        id := q.id;
        VerdictsDiffer(w, q, late);
        SettleDueKeeps(s.w, tail, changed || s.changed);
        SettleDueKeeps(sl.w, tail, changed || sl.changed);
        DifferenceStays(s.w, SettleDue(s.w, tail, changed || s.changed).w,
                        sl.w, SettleDue(sl.w, tail, changed || sl.changed).w, id);
      } else {
        SettleMoveAtEither(w, q, late);
        id := DueDiffers(s.w, tail, changed || s.changed, late);
      }
    }
  }

  lemma SteadyAnyClock(w: World, late: int, ms: seq<PendingMove>)
    requires Steady(w, ms, w.jumps)
    ensures Steady(w.(clock := late), ms, w.jumps)
  {
  }

  // ---------------------------------------------------------------- cancellations

  lemma {:induction false} InvalidAtEither(b: Board, ms: seq<PendingMove>, early: int, late: int)
    requires SameDue(ms, early, late) && forall m :: m in ms ==> MoveFits(DimsOf(b), m)
    ensures Invalid(b, late, ms) == Invalid(b, early, ms)
  {
    hide CanSettle;
    if ms != [] {
      assert ms[0] in ms;
      InvalidAtEither(b, ms[1..], early, late);
    }
  }

  lemma {:induction false} CancelAtEither(w: World, bad: seq<PendingMove>, late: int)
    requires forall m :: m in bad ==> MoveFits(DimsOf(w.board), m)
    ensures CancelAll(w.(clock := late), bad) == CancelAll(w, bad).(clock := late)
    decreases |bad|
  {
    hide Restore, Drop;
    if bad != [] {
      var m := bad[0];
      assert m in bad;
      CancelAtEither(w.(board := Restore(w.board, m.id, m.start), pending := Drop(w.pending, m.id)), bad[1..], late);
    }
  }

  lemma ArrivalsAtEither(w: World, late: int)
    requires Steady(w, w.pending, w.jumps) && Fits(w) && SameDue(w.pending, w.clock, late)
    requires GuardsAgree(w.(pending := []), w.pending, late)
    ensures AfterArrivals(w.(clock := late)) == AfterArrivals(w).(clock := late)
  {
    hide Steady, SettleDue, CancelAll, Invalid, GuardsAgree;
    var w0 := w.(pending := []);
    assert w0.pending + w.pending == w.pending;
    SteadyQueues(w, w0);
    DueAtEither(w0, w.pending, false, late);
    var s := DueSettled(w);
    if s.changed {
      InvalidAtEither(s.w.board, s.w.pending, w.clock, late);
      CancelAtEither(s.w, Invalid(s.w.board, w.clock, s.w.pending), late);
    }
  }

  // ---------------------------------------------------------------- jumps that end in two batches

  lemma SameBoard(b: Board, b': Board)
    requires DimsOf(b) == DimsOf(b')
    requires forall c :: IdAt(b, c) == IdAt(b', c)
    requires forall i :: Stored(b, i) ==> Get(b, i) == Get(b', i)
    ensures b == b'
  {
    forall i | 0 <= i < |b.pieces|
      ensures b.pieces[i] == b'.pieces[i]
    {
      assert Get(b, i + 1) == Get(b', i + 1);
    }
    forall r | 0 <= r < |b.cells|
      ensures b.cells[r] == b'.cells[r]
    {
      forall c | 0 <= c < |b.cells[r]|
        ensures b.cells[r][c] == b'.cells[r][c]
      {
        assert IdAt(b, Cell(r, c)) == IdAt(b', Cell(r, c));
      }
    }
  }

  /** A restoration, cell by cell and piece by piece. */
  lemma RestoreExactly(b: Board, id: Id, i: Id)
    requires BoardOk(b) && Aloft(b, id) && Stored(b, i)
    ensures var c := Get(b, id).cell;
            var b' := Restore(b, id, c);
            && (forall d :: IdAt(b', d) == if d == c then Some(id) else IdAt(b, d))
            && Get(b', i) == (if i == id then Get(b, i).(state := Idle)
                              else if IdAt(b, c) == Some(i) then Get(b, i).(state := Captured)
                              else Get(b, i))
  {
    hide Restore;
    RestoreGrounds(b, id);
    RestoreEvicts(b, id, i);
  }

  /** Restorations of different pieces commute: they come home to different cells. */
  lemma RestoresCommute(b: Board, i: Id, k: Id)
    requires BoardOk(b) && Aloft(b, i) && Aloft(b, k) && i != k
    ensures var ci, ck := Get(b, i).cell, Get(b, k).cell;
            Restore(Restore(b, i, ci), k, ck) == Restore(Restore(b, k, ck), i, ci)
  {
    hide Restore;
    var ci, ck := Get(b, i).cell, Get(b, k).cell;
    var bi, bk := Restore(b, i, ci), Restore(b, k, ck);
    RestoreGrounds(b, i);
    RestoreGrounds(b, k);
    RestoreExactly(b, i, k);
    RestoreExactly(b, k, i);
    forall x | Stored(b, x)
      ensures Get(Restore(bi, k, ck), x) == Get(Restore(bk, i, ci), x)
      ensures forall d :: IdAt(Restore(bi, k, ck), d) == IdAt(Restore(bk, i, ci), d)
    {
      RestoreExactly(b, i, x);
      RestoreExactly(b, k, x);
      RestoreExactly(bi, k, x);
      RestoreExactly(bk, i, x);
    }
    assert Stored(b, i);
    SameBoard(Restore(bi, k, ck), Restore(bk, i, ci));
  }

  function Home(w: World, j: JumpState): (r: World)
    requires JumpFits(DimsOf(w.board), j)
    ensures DimsOf(r.board) == DimsOf(w.board)
  {
    w.(board := Restore(w.board, j.id, j.cell), rests := w.rests[j.id := MakeRest(Short, j.arrival, j.cell)])
  }

  /** The entries of the queue are different airborne pieces. */
  ghost predicate Flyers(b: Board, queue: seq<JumpState>) {
    BoardOk(b) && UniqueJumps(queue) && forall q :: q in queue ==> JumpOk(b, q)
  }

  lemma HomeKeepsFlyers(w: World, j: JumpState, queue: seq<JumpState>)
    requires Flyers(w.board, queue) && JumpOk(w.board, j) && forall q :: q in queue ==> q.id != j.id
    ensures Flyers(Home(w, j).board, queue)
  {
    hide Restore, BoardOk;
    RestoreGrounds(w.board, j.id);
  }

  lemma HomesCommute(w: World, j: JumpState, k: JumpState)
    requires BoardOk(w.board) && JumpOk(w.board, j) && JumpOk(w.board, k) && j.id != k.id
    ensures Home(Home(w, j), k) == Home(Home(w, k), j)
  {
    hide Restore, BoardOk;
    RestoresCommute(w.board, j.id, k.id);
    assert w.rests[j.id := MakeRest(Short, j.arrival, j.cell)][k.id := MakeRest(Short, k.arrival, k.cell)] ==
           w.rests[k.id := MakeRest(Short, k.arrival, k.cell)][j.id := MakeRest(Short, j.arrival, j.cell)];
  }

  lemma TailOfFlyers(b: Board, queue: seq<JumpState>)
    requires Flyers(b, queue) && queue != []
    ensures JumpOk(b, queue[0]) && Flyers(b, queue[1..]) && forall q :: q in queue[1..] ==> q.id != queue[0].id
  {
    assert queue[0] in queue;
    forall q | q in queue[1..]
      ensures q.id != queue[0].id && q in queue
    {
      var i :| 0 <= i < |queue[1..]| && queue[1..][i] == q;
      assert queue[i + 1] == q;
    }
  }

  ghost predicate JumpsFit(b: Board, queue: seq<JumpState>) {
    forall j :: j in queue ==> JumpFits(DimsOf(b), j)
  }

  /** Jumps kept before the loop stay in front. */
  lemma {:induction false} KeptInFront(w: World, kept: seq<JumpState>, queue: seq<JumpState>)
    requires JumpsFit(w.board, queue)
    ensures var r := ExpireJumps(w, queue);
            ExpireJumps(w.(jumps := kept + w.jumps), queue) == r.(jumps := kept + r.jumps)
    decreases |queue|
  {
    hide Restore;
    if queue != [] {
      var q, tail := queue[0], queue[1..];
      assert q in queue;
      if w.clock < q.arrival {
        assert kept + w.jumps + [q] == kept + (w.jumps + [q]);
        KeptInFront(w.(jumps := w.jumps + [q]), kept, tail);
      } else {
        KeptInFront(Home(w, q), kept, tail);
      }
    }
  }

  /** One more jump may end before the loop or after it. */
  lemma {:induction false} HomeBeforeOrAfter(w: World, j: JumpState, queue: seq<JumpState>)
    requires Flyers(w.board, queue) && JumpOk(w.board, j) && forall q :: q in queue ==> q.id != j.id
    ensures JumpsFit(w.board, queue) && Home(ExpireJumps(w, queue), j) == ExpireJumps(Home(w, j), queue)
    decreases |queue|
  {
    hide Restore, Flyers;
    FlyersFit(w.board, queue);
    if queue != [] {
      var q, tail := queue[0], queue[1..];
      assert q in queue;
      TailOfFlyers(w.board, queue);
      if w.clock < q.arrival {
        HomeBeforeOrAfter(w.(jumps := w.jumps + [q]), j, tail);
      } else {
        HomeKeepsFlyers(w, q, tail);
        StillFlies(w, q, j);
        HomesCommute(w, q, j);
        HomeBeforeOrAfter(Home(w, q), j, tail);
      }
    }
  }

  lemma FlyersFit(b: Board, queue: seq<JumpState>)
    requires Flyers(b, queue)
    ensures JumpsFit(b, queue) && BoardOk(b)
  {
  }

  lemma StillFlies(w: World, q: JumpState, j: JumpState)
    requires BoardOk(w.board) && JumpOk(w.board, q) && JumpOk(w.board, j) && q.id != j.id
    ensures JumpOk(Home(w, q).board, j)
  {
    hide Restore, BoardOk;
    RestoreGrounds(w.board, q.id);
  }

  /** Ending the jumps in two batches is ending them in one. */
  lemma {:induction false} TwoBatches(w: World, queue: seq<JumpState>, late: int)
    requires Flyers(w.board, queue) && w.jumps == [] && w.clock <= late
    ensures JumpsFit(w.board, queue)
    ensures var s := ExpireJumps(w, queue);
            ExpireJumps(s.(clock := late, jumps := []), s.jumps) == ExpireJumps(w.(clock := late), queue)
    decreases |queue|
  {
    hide Restore, Flyers;
    FlyersFit(w.board, queue);
    if queue != [] {
      var q, tail := queue[0], queue[1..];
      assert q in queue;
      TailOfFlyers(w.board, queue);
      if q.arrival <= w.clock {
        HomeKeepsFlyers(w, q, tail);
        TwoBatches(Home(w, q), tail, late);
      } else {
        StageOneKeeps(w, q, tail);
        if q.arrival <= late {
          HomeKeepsFlyers(w, q, tail);
          HomeBeforeOrAfter(w, q, tail);
          TwoBatches(Home(w, q), tail, late);
          SecondBatchFirst(w, q, tail, late);
        } else {
          TwoBatches(w, tail, late);
          var r := ExpireJumps(w, tail);
          BothKeep(r.(clock := late, jumps := []), w.(clock := late), q, r.jumps, tail);
          assert [q] + tail == queue;
        }
      }
    }
  }

  /** One turn of the jump loop. */
  lemma FirstJump(w: World, q: JumpState, tail: seq<JumpState>)
    requires JumpFits(DimsOf(w.board), q) && JumpsFit(w.board, tail)
    ensures JumpsFit(w.board, [q] + tail)
    ensures ExpireJumps(w, [q] + tail) ==
            if w.clock < q.arrival then ExpireJumps(w.(jumps := w.jumps + [q]), tail) else ExpireJumps(Home(w, q), tail)
  {
    hide Restore;
    assert ([q] + tail)[1..] == tail && ([q] + tail)[0] == q;
  }

  lemma StageOneKeeps(w: World, q: JumpState, tail: seq<JumpState>)
    requires JumpFits(DimsOf(w.board), q) && JumpsFit(w.board, tail) && w.jumps == [] && w.clock < q.arrival
    ensures JumpsFit(w.board, [q] + tail)
    ensures var r := ExpireJumps(w, tail); ExpireJumps(w, [q] + tail) == r.(jumps := [q] + r.jumps)
  {
    hide ExpireJumps, JumpsFit;
    FirstJump(w, q, tail);
    assert w.jumps + [q] == [q] + w.jumps;
    KeptInFront(w, [q], tail);
  }

  lemma SecondBatchFirst(w: World, q: JumpState, tail: seq<JumpState>, late: int)
    requires JumpFits(DimsOf(w.board), q) && JumpsFit(w.board, tail) && w.jumps == [] && q.arrival <= late
    requires Home(ExpireJumps(w, tail), q) == ExpireJumps(Home(w, q), tail)
    ensures var r, s := ExpireJumps(w, tail), ExpireJumps(Home(w, q), tail);
            ExpireJumps(r.(clock := late, jumps := []), [q] + r.jumps) == ExpireJumps(s.(clock := late, jumps := []), s.jumps)
  {
    hide Restore, ExpireJumps;
    var r := ExpireJumps(w, tail);
    FirstJump(r.(clock := late, jumps := []), q, r.jumps);
  }

  lemma BothKeep(a: World, b: World, q: JumpState, forA: seq<JumpState>, forB: seq<JumpState>)
    requires JumpsFit(a.board, forA) && JumpsFit(b.board, forB) && DimsOf(a.board) == DimsOf(b.board)
    requires JumpFits(DimsOf(a.board), q) && a.jumps == [] && b.jumps == [] && a.clock < q.arrival && b.clock < q.arrival
    requires ExpireJumps(a, forA) == ExpireJumps(b, forB)
    ensures JumpsFit(a.board, [q] + forA) && JumpsFit(b.board, [q] + forB)
    ensures ExpireJumps(a, [q] + forA) == ExpireJumps(b, [q] + forB)
  {
    hide ExpireJumps, JumpsFit;
    StageOneKeeps(a, q, forA);
    StageOneKeeps(b, q, forB);
  }

  /** Rests that are over by the later clock may as well have been dropped before the jump loop. */
  lemma {:induction false} RestsDropEarlyOrLate(w: World, w': World, queue: seq<JumpState>, late: int)
    requires JumpsFit(w.board, queue) && w' == w.(rests := w'.rests)
    requires ExpireRests(w.rests, late) == ExpireRests(w'.rests, late)
    ensures var r, r' := ExpireJumps(w, queue), ExpireJumps(w', queue);
            r' == r.(rests := r'.rests) && ExpireRests(r.rests, late) == ExpireRests(r'.rests, late)
    decreases |queue|
  {
    hide Restore, ExpireRests;
    if queue != [] {
      var q, tail := queue[0], queue[1..];
      assert q in queue;
      if w.clock < q.arrival {
        RestsDropEarlyOrLate(w.(jumps := w.jumps + [q]), w'.(jumps := w.jumps + [q]), tail, late);
      } else {
        SameRestAdded(w.rests, w'.rests, q.id, MakeRest(Short, q.arrival, q.cell), late);
        RestsDropEarlyOrLate(Home(w, q), Home(w', q), tail, late);
      }
    }
  }

  lemma SameRestAdded(r: map<Id, Rest>, r': map<Id, Rest>, id: Id, rest: Rest, late: int)
    requires ExpireRests(r, late) == ExpireRests(r', late)
    ensures ExpireRests(r[id := rest], late) == ExpireRests(r'[id := rest], late)
  {
    var e, e' := ExpireRests(r, late), ExpireRests(r', late);
    assert forall i :: i in e <==> i in r && late < r[i].end;
    assert forall i :: i in e' <==> i in r' && late < r'[i].end;
    assert forall i :: i in e ==> e[i] == r[i] && e'[i] == r'[i];
  }

  lemma RestsEndOnce(rests: map<Id, Rest>, early: int, late: int)
    requires early <= late
    ensures ExpireRests(ExpireRests(rests, early), late) == ExpireRests(rests, late)
  {
  }

  // ---------------------------------------------------------------- two ticks and one

  /** With no move due, only jumps and rests end. */
  lemma NoArrivalsAtAll(w: World)
    requires Fits(w) && forall m :: m in w.pending ==> w.clock < m.arrival
    ensures AfterArrivals(w) == w
  {
    hide SettleDue, CancelAll, Invalid;
    var w0 := w.(pending := []);
    NoMoveDue(w0, w.pending, false);
    assert w0.pending + w.pending == w.pending;
  }

  lemma JumpersFly(w: World)
    requires Steady(w, w.pending, w.jumps)
    ensures Flyers(w.board, w.jumps) && JumpsFit(w.board, w.jumps)
  {
  }

  /** The game between the two ticks: what is in the air was in the air, and no move in it is due by the later clock. */
  lemma Between(w: World, late: int)
    requires Steady(w, w.pending, w.jumps) && Fits(w) && SameDue(w.pending, w.clock, late)
    ensures forall m :: m in Settle(w).pending ==> late < m.arrival
    ensures AfterArrivals(w).jumps == w.jumps && Settle(w).jumps == Expired(w).jumps
    ensures Settle(w).(rests := Expired(w).rests) == Expired(w)
  {
    hide Steady, Onward, SettleDue, CancelAll, Invalid, ExpireJumps;
    AfterArrivalsKeeps(w);
    forall m | m in AfterArrivals(w).pending
      ensures late < m.arrival
    {
      assert m in w.pending;
    }
  }

  lemma AgreeingTicksCompose(w: World, late: int)
    requires Steady(w, w.pending, w.jumps) && Fits(w) && SameDue(w.pending, w.clock, late)
    requires GuardsAgree(w.(pending := []), w.pending, late)
    ensures Settle(Settle(w).(clock := late)) == Settle(w.(clock := late))
  {
    hide Steady, AfterArrivals, ExpireJumps, ExpireRests, GuardsAgree, Flyers, Onward;
    ArrivalsAtEither(w, late);
    AfterArrivalsKeeps(w);
    Between(w, late);
    var w1 := AfterArrivals(w);
    JumpersFly(w1);
    var e := Expired(w);
    TwoBatches(w1.(jumps := []), w1.jumps, late);
    var t := Settle(w).(clock := late);
    NoArrivalsAtAll(t);
    RestsEndOnce(e.rests, w.clock, late);
    RestsDropEarlyOrLate(e.(clock := late, jumps := []), t.(jumps := []), e.jumps, late);
  }

  lemma DisagreeingTicksDiffer(w: World, late: int)
    requires Steady(w, w.pending, w.jumps) && Fits(w) && SameDue(w.pending, w.clock, late)
    requires !GuardsAgree(w.(pending := []), w.pending, late)
    ensures Settle(Settle(w).(clock := late)) != Settle(w.(clock := late))
  {
    hide Steady, Settle, SettleDue, Expired, GuardsAgree, Differ, Onward, ExpireRests, Quiet;
    var w0, wl := w.(pending := []), w.(clock := late);
    assert w0.pending + w.pending == w.pending;
    SteadyQueues(w, w0);
    SteadyAnyClock(w, late, w.pending);
    var id := DueDiffers(w0, w.pending, false, late);
    SettleKeeps(w);
    SettleKeeps(wl);
    DifferenceStays(DueSettled(w).w, Expired(w), DueSettled(wl).w, Expired(wl), id);
    SettleOnward(Settle(w), late);
    StillDiffers(Expired(w).board, Settle(Settle(w).(clock := late)).board, Expired(wl).board, id);
  }

  lemma StillDiffers(b: Board, b': Board, b2: Board, id: Id)
    requires Differ(b, b2, id) && BoardOnward(b, b')
    ensures b' != b2
  {
  }

  /** A later settlement leaves grounded pieces on their cells. */
  lemma SettleOnward(t: World, late: int)
    requires Inv(t)
    ensures Fits(t) && BoardOnward(t.board, Settle(t.(clock := late)).board)
  {
    hide Steady, Settle, Expired, SettleDue, Quiet;
    ClockIsFree(t, late);
    SettleKeeps(t.(clock := late));
    OnwardTransitive(t.(clock := late), DueSettled(t.(clock := late)).w, Expired(t.(clock := late)));
  }

  /**
   Exactly when a tick can be split. As long as no move falls due between the two clocks, two ticks do what one
   does if and only if every due move that can settle is guarded at the later clock when it is at the earlier.
   Jumps and rests may end in between.
   */
  lemma TicksComposeExactly(w: World, first: int, second: int)
    requires Steady(w, w.pending, w.jumps) && Fits(w)
    requires SameDue(w.pending, w.clock + first, w.clock + first + second)
    ensures var w1 := w.(clock := w.clock + first);
            Tick(Tick(w, first), second) == Tick(w, first + second) <==>
            GuardsAgree(w1.(pending := []), w.pending, w1.clock + second)
  {
    hide Steady, Settle, GuardsAgree;
    var w1 := w.(clock := w.clock + first);
    SteadyAnyClock(w, w1.clock, w.pending);
    if GuardsAgree(w1.(pending := []), w.pending, w1.clock + second) {
      AgreeingTicksCompose(w1, w1.clock + second);
    } else {
      DisagreeingTicksDiffer(w1, w1.clock + second);
    }
  }
}
