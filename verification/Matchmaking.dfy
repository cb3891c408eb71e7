/** The matchmaking queues: pairing, timeouts and the write-through store (player_matchmaking_queue, remote_matchmaking_service). */
module Matchmaking {
  import opened Pieces
  import opened Codecs

  // ---------------------------------------------------------------- one queue as a value

  function Distance(a: QueuedPlayer, b: QueuedPlayer): int {
    if a.elo < b.elo then b.elo - a.elo else a.elo - b.elo
  }

  predicate Compatible(a: QueuedPlayer, b: QueuedPlayer, maxDiff: int) {
    Distance(a, b) <= maxDiff
  }

  function Removed(q: seq<QueuedPlayer>, id: int): (r: seq<QueuedPlayer>)
    ensures forall p :: p in r <==> p in q && p.playerId != id
  {
    if q == [] then []
    else if q[0].playerId == id then Removed(q[1..], id)
    else [q[0]] + Removed(q[1..], id)
  }

  /** The earliest waiting player the newcomer can play, by index. */
  function FirstCompatible(q: seq<QueuedPlayer>, incoming: QueuedPlayer, maxDiff: int): (i: Option<nat>)
    ensures i.Some? ==> i.value < |q| && Compatible(incoming, q[i.value], maxDiff) &&
                        forall k :: 0 <= k < i.value ==> !Compatible(incoming, q[k], maxDiff)
    ensures i.None? ==> forall k :: 0 <= k < |q| ==> !Compatible(incoming, q[k], maxDiff)
  {
    if q == [] then None
    else if Compatible(incoming, q[0], maxDiff) then Some(0)
    else
      var i := FirstCompatible(q[1..], incoming, maxDiff);
      if i.None? then None else Some(i.value + 1)
  }

  datatype Pair = Pair(white: QueuedPlayer, black: QueuedPlayer)

  datatype Entered = Entered(queue: seq<QueuedPlayer>, pair: Option<Pair>)

  /** enter_queue on one region: drop a stale entry, pair with the earliest match, or wait at the end. */
  function Enter(q: seq<QueuedPlayer>, incoming: QueuedPlayer, maxDiff: int): Entered {
    var r := Removed(q, incoming.playerId);
    var i := FirstCompatible(r, incoming, maxDiff);
    if i.Some? then Entered(r[..i.value] + r[i.value + 1..], Some(Pair(r[i.value], incoming)))
    else Entered(r + [incoming], None)
  }

  predicate TimedOut(p: QueuedPlayer, now: int, limit: int) {
    now - p.enqueued >= limit
  }

  function Remaining(q: seq<QueuedPlayer>, now: int, limit: int): seq<QueuedPlayer> {
    if q == [] then []
    else if TimedOut(q[0], now, limit) then Remaining(q[1..], now, limit)
    else [q[0]] + Remaining(q[1..], now, limit)
  }

  function Expired(q: seq<QueuedPlayer>, now: int, limit: int): seq<int> {
    if q == [] then []
    else (if TimedOut(q[0], now, limit) then [q[0].playerId] else []) + Expired(q[1..], now, limit)
  }

  /** Nobody waits twice, and no two who wait could play each other. */
  ghost predicate QueueOk(q: seq<QueuedPlayer>, maxDiff: int) {
    forall i, k :: 0 <= i < k < |q| ==> q[i].playerId != q[k].playerId && !Compatible(q[i], q[k], maxDiff)
  }

  lemma {:induction false} RemovedKeeps(q: seq<QueuedPlayer>, id: int, maxDiff: int)
    requires QueueOk(q, maxDiff)
    ensures QueueOk(Removed(q, id), maxDiff)
  {
    if q != [] {
      RemovedKeeps(q[1..], id, maxDiff);
      var tail := Removed(q[1..], id);
      forall k | 0 <= k < |tail|
        ensures q[0].playerId != tail[k].playerId && !Compatible(q[0], tail[k], maxDiff)
      {
        assert tail[k] in q[1..];
      }
    }
  }

  lemma {:induction false} RemainingKeeps(q: seq<QueuedPlayer>, now: int, limit: int, maxDiff: int)
    requires QueueOk(q, maxDiff)
    ensures QueueOk(Remaining(q, now, limit), maxDiff)
    ensures forall p :: p in Remaining(q, now, limit) <==> p in q && !TimedOut(p, now, limit)
  {
    if q != [] {
      RemainingKeeps(q[1..], now, limit, maxDiff);
      var tail := Remaining(q[1..], now, limit);
      forall k | 0 <= k < |tail|
        ensures q[0].playerId != tail[k].playerId && !Compatible(q[0], tail[k], maxDiff)
      {
        assert tail[k] in q[1..];
      }
    }
  }

  lemma {:induction false} ExpiredExact(q: seq<QueuedPlayer>, now: int, limit: int)
    ensures forall id :: id in Expired(q, now, limit) <==> exists p :: p in q && p.playerId == id && p.enqueued + limit <= now
    ensures Expired(q, now, limit) == [] ==> Remaining(q, now, limit) == q
    ensures |Expired(q, now, limit)| + |Remaining(q, now, limit)| == |q|
  {
    if q != [] {
      ExpiredExact(q[1..], now, limit);
      assert forall p :: p in q <==> p == q[0] || p in q[1..];
      assert [q[0]] + q[1..] == q;
    }
  }

  /** Somebody else in the queue suits the newcomer. */
  predicate Suits(p: QueuedPlayer, incoming: QueuedPlayer, maxDiff: int) {
    p.playerId != incoming.playerId && incoming.elo - maxDiff <= p.elo <= incoming.elo + maxDiff
  }

  /** Removing a player's own entries keeps the first suitable one first. */
  lemma {:induction false} FirstSuitable(q: seq<QueuedPlayer>, incoming: QueuedPlayer, maxDiff: int)
    ensures var r := Removed(q, incoming.playerId);
            var i := FirstCompatible(r, incoming, maxDiff);
            if i.None? then forall k :: 0 <= k < |q| ==> !Suits(q[k], incoming, maxDiff)
            else exists k :: 0 <= k < |q| && q[k] == r[i.value] && Suits(q[k], incoming, maxDiff) &&
                   forall j :: 0 <= j < k ==> !Suits(q[j], incoming, maxDiff)
  {
    if q != [] {
      FirstSuitable(q[1..], incoming, maxDiff);
      var r, t := Removed(q, incoming.playerId), Removed(q[1..], incoming.playerId);
      var i, j := FirstCompatible(r, incoming, maxDiff), FirstCompatible(t, incoming, maxDiff);
      if Suits(q[0], incoming, maxDiff) {
        assert r[0] == q[0];
      } else if j.Some? {
        var k :| 0 <= k < |q[1..]| && q[1..][k] == t[j.value] && Suits(q[1..][k], incoming, maxDiff) &&
          forall n :: 0 <= n < k ==> !Suits(q[1..][n], incoming, maxDiff);
        forall n | 0 <= n < k + 1
          ensures !Suits(q[n], incoming, maxDiff)
        {
          assert n > 0 ==> q[n] == q[1..][n - 1];
        }
        assert q[k + 1] == q[1..][k];
      }
    }
  }

  /**
   Entering keeps the queue in order. A pair is made exactly when somebody else suits, is never a player with
   himself, takes the longest waiting match, and takes both players out; without a pair the newcomer waits and
   nobody else moved.
   */
  lemma EnterKeeps(q: seq<QueuedPlayer>, incoming: QueuedPlayer, maxDiff: int)
    requires QueueOk(q, maxDiff)
    ensures var e := Enter(q, incoming, maxDiff);
            && QueueOk(e.queue, maxDiff)
            && (e.pair.Some? <==> exists p :: p in q && Suits(p, incoming, maxDiff))
            && (e.pair.Some? ==>
                  && (exists k :: 0 <= k < |q| && q[k] == e.pair.value.white &&
                        forall j :: 0 <= j < k ==> !Suits(q[j], incoming, maxDiff))
                  && e.pair.value.black == incoming && e.pair.value.white in q
                  && e.pair.value.white.playerId != incoming.playerId
                  && Compatible(e.pair.value.white, incoming, maxDiff)
                  && (forall p :: p in e.queue <==>
                        p in q && p.playerId != incoming.playerId && p.playerId != e.pair.value.white.playerId))
            && (e.pair.None? ==>
                  forall p :: p in e.queue <==> p == incoming || (p in q && p.playerId != incoming.playerId))
  {
    RemovedKeeps(q, incoming.playerId, maxDiff);
    FirstSuitable(q, incoming, maxDiff);
    var r := Removed(q, incoming.playerId);
    var i := FirstCompatible(r, incoming, maxDiff);
    if i.Some? {
      PairTaken(r, i.value, maxDiff);
      assert r[i.value] in r;
    } else {
      forall k | 0 <= k < |r|
        ensures r[k].playerId != incoming.playerId && !Compatible(r[k], incoming, maxDiff)
      {
        assert r[k] in r;
      }
    }
  }

  lemma PairTaken(r: seq<QueuedPlayer>, i: nat, maxDiff: int)
    requires QueueOk(r, maxDiff) && i < |r|
    ensures QueueOk(r[..i] + r[i + 1..], maxDiff)
    ensures forall p :: p in r[..i] + r[i + 1..] <==> p in r && p.playerId != r[i].playerId
  {
    var rest := r[..i] + r[i + 1..];
    assert forall k :: 0 <= k < |rest| ==> rest[k] == r[if k < i then k else k + 1];
    forall p | p in r && p.playerId != r[i].playerId
      ensures p in rest
    {
      var k :| 0 <= k < |r| && r[k] == p;
      assert rest[if k < i then k else k - 1] == p;
    }
  }

  /** At most two waiting players can ever suit one newcomer. */
  lemma AtMostTwoSuit(q: seq<QueuedPlayer>, newcomer: QueuedPlayer, maxDiff: int, i: nat, j: nat, k: nat)
    requires QueueOk(q, maxDiff) && i < j < k < |q|
    ensures !(Compatible(newcomer, q[i], maxDiff) && Compatible(newcomer, q[j], maxDiff) && Compatible(newcomer, q[k], maxDiff))
  {
    assert !Compatible(q[i], q[j], maxDiff) && !Compatible(q[j], q[k], maxDiff) && !Compatible(q[i], q[k], maxDiff);
  }

  // ---------------------------------------------------------------- the order of waiting

  /** a waits ahead of b. */
  ghost predicate Before(q: seq<QueuedPlayer>, a: QueuedPlayer, b: QueuedPlayer) {
    exists i, k :: 0 <= i < k < |q| && q[i] == a && q[k] == b
  }

  lemma BeforeSplits(x: QueuedPlayer, q: seq<QueuedPlayer>, a: QueuedPlayer, b: QueuedPlayer)
    ensures Before([x] + q, a, b) <==> (x == a && b in q) || Before(q, a, b)
  {
    var all := [x] + q;
    if i, k :| 0 <= i < k < |all| && all[i] == a && all[k] == b {
      assert b == q[k - 1];
      assert i > 0 ==> q[i - 1] == a;
    }
    if x == a && b in q {
      var k :| 0 <= k < |q| && q[k] == b;
      assert all[0] == a && all[k + 1] == b;
    }
    if i, k :| 0 <= i < k < |q| && q[i] == a && q[k] == b {
      assert all[i + 1] == a && all[k + 1] == b;
    }
  }

  lemma BeforeAppended(q: seq<QueuedPlayer>, x: QueuedPlayer, a: QueuedPlayer, b: QueuedPlayer)
    ensures Before(q + [x], a, b) <==> (x == b && a in q) || Before(q, a, b)
  {
    var all := q + [x];
    if i, k :| 0 <= i < k < |all| && all[i] == a && all[k] == b {
      assert a == q[i];
      assert k < |q| ==> q[k] == b;
    }
    if x == b && a in q {
      var i :| 0 <= i < |q| && q[i] == a;
      assert all[i] == a && all[|q|] == b;
    }
    if i, k :| 0 <= i < k < |q| && q[i] == a && q[k] == b {
      assert all[i] == a && all[k] == b;
    }
  }

  /** Removing a player does not reorder the others. */
  lemma {:induction false} RemovedOrder(q: seq<QueuedPlayer>, id: int, a: QueuedPlayer, b: QueuedPlayer)
    requires a.playerId != id && b.playerId != id
    ensures Before(Removed(q, id), a, b) <==> Before(q, a, b)
  {
    if q != [] {
      RemovedOrder(q[1..], id, a, b);
      assert q == [q[0]] + q[1..];
      BeforeSplits(q[0], q[1..], a, b);
      BeforeSplits(q[0], Removed(q[1..], id), a, b);
    }
  }

  /** Timeouts do not reorder those who go on waiting. */
  lemma {:induction false} RemainingOrder(q: seq<QueuedPlayer>, now: int, limit: int, a: QueuedPlayer, b: QueuedPlayer)
    requires !TimedOut(a, now, limit) && !TimedOut(b, now, limit)
    ensures Before(Remaining(q, now, limit), a, b) <==> Before(q, a, b)
    ensures b in Remaining(q, now, limit) <==> b in q
  {
    if q != [] {
      RemainingOrder(q[1..], now, limit, a, b);
      assert q == [q[0]] + q[1..];
      BeforeSplits(q[0], q[1..], a, b);
      BeforeSplits(q[0], Remaining(q[1..], now, limit), a, b);
    }
  }

  lemma TakenOrder(r: seq<QueuedPlayer>, i: nat, a: QueuedPlayer, b: QueuedPlayer)
    requires i < |r| && a != r[i] && b != r[i]
    ensures Before(r[..i] + r[i + 1..], a, b) <==> Before(r, a, b)
  {
    var rest := r[..i] + r[i + 1..];
    if x, y :| 0 <= x < y < |rest| && rest[x] == a && rest[y] == b {
      var x', y' := if x < i then x else x + 1, if y < i then y else y + 1;
      assert r[x'] == a && r[y'] == b;
    }
    if x, y :| 0 <= x < y < |r| && r[x] == a && r[y] == b {
      var x', y' := if x < i then x else x - 1, if y < i then y else y - 1;
      assert rest[x'] == a && rest[y'] == b;
    }
  }

  /** Entering reorders nobody, and whoever has to wait waits behind everybody else. */
  lemma EnterOrder(q: seq<QueuedPlayer>, incoming: QueuedPlayer, maxDiff: int, a: QueuedPlayer, b: QueuedPlayer)
    requires QueueOk(q, maxDiff)
    ensures var e := Enter(q, incoming, maxDiff);
            a in e.queue && b in e.queue ==>
              (Before(e.queue, a, b) <==> if b == incoming then a != incoming else a != incoming && Before(q, a, b))
  {
    EnterKeeps(q, incoming, maxDiff);
    RemovedKeeps(q, incoming.playerId, maxDiff);
    var r := Removed(q, incoming.playerId);
    var i := FirstCompatible(r, incoming, maxDiff);
    var e := Enter(q, incoming, maxDiff);
    if a in e.queue && b in e.queue {
      if i.Some? {
        RemovedOrder(q, incoming.playerId, a, b);
        TakenOrder(r, i.value, a, b);
      } else {
        BeforeAppended(r, incoming, a, b);
        if a != incoming && b != incoming {
          RemovedOrder(q, incoming.playerId, a, b);
        }
        if Before(r, a, b) {
          assert a in r && b in r;
        }
      }
    }
  }

  /** Entries in the order of their entry times, none later than t. */
  ghost predicate InOrder(q: seq<QueuedPlayer>, t: int) {
    && (forall i, k :: 0 <= i < k < |q| ==> q[i].enqueued <= q[k].enqueued)
    && (forall p :: p in q ==> p.enqueued <= t)
  }

  lemma TailInOrder(q: seq<QueuedPlayer>, t: int)
    requires InOrder(q, t) && q != []
    ensures InOrder(q[1..], t) && q[0].enqueued <= t && forall p :: p in q[1..] ==> q[0].enqueued <= p.enqueued
  {
    assert q[0] in q;
    forall p | p in q[1..]
      ensures q[0].enqueued <= p.enqueued && p in q
    {
      var k :| 0 <= k < |q[1..]| && q[1..][k] == p;
      assert q[k + 1] == p;
    }
  }

  lemma FirstInOrder(x: QueuedPlayer, q: seq<QueuedPlayer>, t: int)
    requires InOrder(q, t) && x.enqueued <= t && forall p :: p in q ==> x.enqueued <= p.enqueued
    ensures InOrder([x] + q, t)
  {
    assert forall k :: 0 <= k < |q| ==> q[k] in q;
  }

  lemma LastInOrder(q: seq<QueuedPlayer>, x: QueuedPlayer, t: int)
    requires InOrder(q, t) && t <= x.enqueued
    ensures InOrder(q + [x], x.enqueued)
  {
    assert forall k :: 0 <= k < |q| ==> q[k] in q;
  }

  lemma {:induction false} RemovedInOrder(q: seq<QueuedPlayer>, id: int, t: int)
    requires InOrder(q, t)
    ensures InOrder(Removed(q, id), t)
  {
    hide InOrder;
    if q == [] {
      assert Removed(q, id) == q;
    } else {
      TailInOrder(q, t);
      RemovedInOrder(q[1..], id, t);
      FirstInOrder(q[0], Removed(q[1..], id), t);
    }
  }

  lemma {:induction false} RemainingInOrder(q: seq<QueuedPlayer>, now: int, limit: int, t: int)
    requires InOrder(q, t)
    ensures InOrder(Remaining(q, now, limit), t)
    ensures forall p :: p in Remaining(q, now, limit) ==> p in q
  {
    hide InOrder;
    if q == [] {
      assert Remaining(q, now, limit) == q;
    } else {
      TailInOrder(q, t);
      RemainingInOrder(q[1..], now, limit, t);
      FirstInOrder(q[0], Remaining(q[1..], now, limit), t);
    }
  }

  lemma TakenInOrder(r: seq<QueuedPlayer>, i: nat, t: int, later: int)
    requires InOrder(r, t) && i < |r| && t <= later
    ensures InOrder(r[..i] + r[i + 1..], later)
  {
    var rest := r[..i] + r[i + 1..];
    assert forall k :: 0 <= k < |rest| ==> rest[k] == r[if k < i then k else k + 1];
    assert forall p :: p in rest ==> p in r;
  }

  lemma EnterInOrder(q: seq<QueuedPlayer>, incoming: QueuedPlayer, maxDiff: int, t: int)
    requires InOrder(q, t) && t <= incoming.enqueued
    ensures InOrder(Enter(q, incoming, maxDiff).queue, incoming.enqueued)
  {
    hide InOrder;
    RemovedInOrder(q, incoming.playerId, t);
    var r := Removed(q, incoming.playerId);
    var i := FirstCompatible(r, incoming, maxDiff);
    if i.Some? {
      TakenInOrder(r, i.value, t, incoming.enqueued);
    } else {
      LastInOrder(r, incoming, t);
    }
  }

  // ---------------------------------------------------------------- all regions

  type Regions = map<string, seq<QueuedPlayer>>

  const LOCAL: string := "local"

  function Waiting(s: Regions, region: string): seq<QueuedPlayer> {
    if region in s then s[region] else []
  }

  datatype Request = Enqueue(region: string, player: QueuedPlayer)
                   | Leave(region: string, playerId: int)
                   | Process(region: string, now: int)

  /** The queue an operation touches. Only entering maps the empty region to the default one. */
  function Target(r: Request): string {
    if r.Enqueue? && r.region == [] then LOCAL else r.region
  }

  datatype Config = Config(maxDiff: int, timeout: int)

  function Serve(s: Regions, r: Request, c: Config): Regions {
    var t := Target(r);
    match r
    case Enqueue(_, p) => s[t := Enter(Waiting(s, t), p, c.maxDiff).queue]
    case Leave(_, id) => s[t := Removed(Waiting(s, t), id)]
    case Process(_, now) =>
      if Expired(Waiting(s, t), now, c.timeout) == [] then s
      else s[t := Remaining(Waiting(s, t), now, c.timeout)]
  }

  function ServeAll(s: Regions, rs: seq<Request>, c: Config): Regions
    decreases |rs|
  {
    if rs == [] then s else ServeAll(Serve(s, rs[0], c), rs[1..], c)
  }

  ghost predicate RegionsOk(s: Regions, maxDiff: int) {
    forall region :: QueueOk(Waiting(s, region), maxDiff)
  }

  /** One request keeps every queue in order and touches no other region. */
  lemma ServeKeeps(s: Regions, r: Request, c: Config)
    requires RegionsOk(s, c.maxDiff)
    ensures RegionsOk(Serve(s, r, c), c.maxDiff)
    ensures forall region :: region != Target(r) ==> Waiting(Serve(s, r, c), region) == Waiting(s, region)
  {
    var t := Target(r);
    var q := Waiting(s, t);
    match r {
      case Enqueue(_, p) => EnterKeeps(q, p, c.maxDiff);
      case Leave(_, id) => RemovedKeeps(q, id, c.maxDiff);
      case Process(_, now) => RemainingKeeps(q, now, c.timeout, c.maxDiff);
    }
    var s' := Serve(s, r, c);
    forall region
      ensures QueueOk(Waiting(s', region), c.maxDiff)
    {
      assert region != t ==> Waiting(s', region) == Waiting(s, region);
    }
  }

  lemma {:induction false} EveryRunKeepsQueues(rs: seq<Request>, s: Regions, c: Config)
    requires RegionsOk(s, c.maxDiff)
    ensures RegionsOk(ServeAll(s, rs, c), c.maxDiff)
    decreases |rs|
  {
    hide RegionsOk, Serve;
    if rs != [] {
      ServeKeeps(s, rs[0], c);
      EveryRunKeepsQueues(rs[1..], Serve(s, rs[0], c), c);
    }
  }

  lemma RunFromEmptyStore(rs: seq<Request>, c: Config)
    ensures RegionsOk(ServeAll(map[], rs, c), c.maxDiff)
  {
    EveryRunKeepsQueues(rs, map[], c);
  }

  /** The clock of the requests never runs backwards: each newcomer enters at or after t and everybody before. */
  ghost predicate Timely(rs: seq<Request>, t: int)
    decreases |rs|
  {
    if rs == [] then true
    else if rs[0].Enqueue? then t <= rs[0].player.enqueued && Timely(rs[1..], rs[0].player.enqueued)
    else Timely(rs[1..], t)
  }

  function LastEntry(rs: seq<Request>, t: int): int
    decreases |rs|
  {
    if rs == [] then t else LastEntry(rs[1..], if rs[0].Enqueue? then rs[0].player.enqueued else t)
  }

  ghost predicate AllInOrder(s: Regions, t: int) {
    forall region :: InOrder(Waiting(s, region), t)
  }

  lemma ServeInOrder(s: Regions, r: Request, c: Config, t: int)
    requires AllInOrder(s, t) && (r.Enqueue? ==> t <= r.player.enqueued)
    ensures AllInOrder(Serve(s, r, c), if r.Enqueue? then r.player.enqueued else t)
  {
    hide Enter, Removed, Remaining, Expired;
    var target := Target(r);
    var q := Waiting(s, target);
    match r {
      case Enqueue(_, p) => EnterInOrder(q, p, c.maxDiff, t);
      case Leave(_, id) => RemovedInOrder(q, id, t);
      case Process(_, now) => RemainingInOrder(q, now, c.timeout, t);
    }
    var s' := Serve(s, r, c);
    forall region
      ensures InOrder(Waiting(s', region), if r.Enqueue? then r.player.enqueued else t)
    {
      assert region != target ==> Waiting(s', region) == Waiting(s, region);
    }
  }

  /** Every timely run keeps every queue in the order of entry. */
  lemma {:induction false} RunInOrder(rs: seq<Request>, s: Regions, c: Config, t: int)
    requires AllInOrder(s, t) && Timely(rs, t)
    ensures AllInOrder(ServeAll(s, rs, c), LastEntry(rs, t))
    decreases |rs|
  {
    hide AllInOrder, Serve;
    if rs != [] {
      ServeInOrder(s, rs[0], c, t);
      RunInOrder(rs[1..], Serve(s, rs[0], c), c, if rs[0].Enqueue? then rs[0].player.enqueued else t);
    }
  }

  /** After every timely run from an empty store, a newcomer is paired with the one who has waited longest of all who suit. */
  lemma LongestWaitingIsPaired(rs: seq<Request>, c: Config, t: int, region: string, p: QueuedPlayer)
    requires Timely(rs, t)
    ensures var q := Waiting(ServeAll(map[], rs, c), region);
            var e := Enter(q, p, c.maxDiff);
            e.pair.Some? ==> forall x :: x in q && Suits(x, p, c.maxDiff) ==> e.pair.value.white.enqueued <= x.enqueued
  {
    hide Enter, ServeAll, QueueOk;
    RunInOrder(rs, map[], c, t);
    RunFromEmptyStore(rs, c);
    var q := Waiting(ServeAll(map[], rs, c), region);
    EnterKeeps(q, p, c.maxDiff);
  }

  ghost predicate IsWaiting(s: Regions, region: string, id: int) {
    exists p :: p in Waiting(s, region) && p.playerId == id
  }

  /**
   Leaving with the region text one entered with takes the player out of the queue that text stands for,
   except for the empty text: entering with it waits in the default region, leaving with it looks elsewhere.
   */
  lemma LeaveUndoesEnter(s: Regions, region: string, p: QueuedPlayer, c: Config)
    requires RegionsOk(s, c.maxDiff)
    ensures var entered := Serve(s, Enqueue(region, p), c);
            var left := Serve(entered, Leave(region, p.playerId), c);
            var home := Target(Enqueue(region, p));
            && home == (if region == "" then "local" else region)
            && (IsWaiting(entered, home, p.playerId) ==> (!IsWaiting(left, home, p.playerId) <==> region != ""))
  {
  }

  // ---------------------------------------------------------------- the objects

  /** The runtime store's queue table. */
  class RuntimeStore {
    var queues: Regions

    constructor ()
      ensures queues == map[]
    {
      queues := map[];
    }

    method SetMatchmakingQueue(region: string, queue: seq<QueuedPlayer>)
      modifies this
      ensures queues == old(queues)[region := queue]
    {
      queues := queues[region := queue];
    }
  }

  class PlayerQueue {
    const store: RuntimeStore
    const region: string
    const config: Config
    var waiting: seq<QueuedPlayer>

    /** The stored queue always equals the one in memory. */
    ghost predicate Valid()
      reads this, store
    {
      Waiting(store.queues, region) == waiting
    }

    constructor (store: RuntimeStore, region: string, config: Config)
      ensures Valid() && this.store == store && this.region == region && this.config == config
    {
      this.store, this.region, this.config := store, region, config;
      this.waiting := Waiting(store.queues, region);
    }

    method Remove(id: int)
      requires Valid()
      modifies this, store
      ensures Valid() && waiting == Removed(old(waiting), id)
      ensures store.queues == old(store.queues)[region := waiting]
    {
      var kept: seq<QueuedPlayer> := [];
      for i := 0 to |waiting|
        invariant kept + Removed(waiting[i..], id) == Removed(waiting, id)
      {
        assert waiting[i..][1..] == waiting[i + 1..];
        if waiting[i].playerId != id {
          kept := kept + [waiting[i]];
        }
      }
      waiting := kept;
      store.SetMatchmakingQueue(region, waiting);
    }

    method TryPair(incoming: QueuedPlayer) returns (pair: Option<Pair>)
      requires Valid()
      modifies this, store
      ensures Valid()
      ensures var i := FirstCompatible(old(waiting), incoming, config.maxDiff);
              if i.Some? then
                && pair == Some(Pair(old(waiting)[i.value], incoming))
                && waiting == old(waiting)[..i.value] + old(waiting)[i.value + 1..]
                && store.queues == old(store.queues)[region := waiting]
              else pair == None && waiting == old(waiting) && store.queues == old(store.queues)
    {
      for i := 0 to |waiting|
        invariant waiting == old(waiting) && store.queues == old(store.queues)
        invariant forall k :: 0 <= k < i ==> !Compatible(incoming, waiting[k], config.maxDiff)
      {
        if Compatible(incoming, waiting[i], config.maxDiff) {
          var white := waiting[i];
          waiting := waiting[..i] + waiting[i + 1..];
          store.SetMatchmakingQueue(region, waiting);
          return Some(Pair(white, incoming));
        }
      }
      return None;
    }

    method Append(player: QueuedPlayer)
      requires Valid()
      modifies this, store
      ensures Valid() && waiting == old(waiting) + [player]
      ensures store.queues == old(store.queues)[region := waiting]
    {
      waiting := waiting + [player];
      store.SetMatchmakingQueue(region, waiting);
    }

    /** The three steps of enter_queue on one queue: drop a stale entry, try to pair, else wait. */
    method Admit(player: QueuedPlayer) returns (pair: Option<Pair>)
      requires Valid()
      modifies this, store
      ensures Valid() && Entered(waiting, pair) == Enter(old(waiting), player, config.maxDiff)
      ensures store.queues == old(store.queues)[region := waiting]
    {
      Remove(player.playerId);
      pair := TryPair(player);
      if pair.None? {
        Append(player);
      }
    }

    method CheckTimeouts(now: int) returns (timedOut: seq<int>)
      requires Valid()
      modifies this, store
      ensures Valid() && timedOut == Expired(old(waiting), now, config.timeout)
      ensures store.queues == Serve(old(store.queues), Process(region, now), config)
    {
      timedOut := [];
      var kept: seq<QueuedPlayer> := [];
      for i := 0 to |waiting|
        invariant kept + Remaining(waiting[i..], now, config.timeout) == Remaining(waiting, now, config.timeout)
        invariant timedOut + Expired(waiting[i..], now, config.timeout) == Expired(waiting, now, config.timeout)
      {
        assert waiting[i..][1..] == waiting[i + 1..];
        if TimedOut(waiting[i], now, config.timeout) {
          timedOut := timedOut + [waiting[i].playerId];
        } else {
          kept := kept + [waiting[i]];
        }
      }
      ExpiredExact(waiting, now, config.timeout);
      assert waiting[|waiting|..] == [];
      assert kept == Remaining(waiting, now, config.timeout) && timedOut == Expired(waiting, now, config.timeout);
      waiting := kept;
      if timedOut != [] {
        store.SetMatchmakingQueue(region, waiting);
      }
    }
  }

  /** One queue object per region, created on first use. */
  class MatchmakingService {
    const store: RuntimeStore
    const config: Config
    const defaultQueue: PlayerQueue
    var regionQueues: map<string, PlayerQueue>

    ghost function Repr(): set<object>
      reads this
    {
      {store, defaultQueue} + regionQueues.Values
    }

    ghost predicate Valid()
      reads this, Repr()
    {
      && defaultQueue.store == store && defaultQueue.region == LOCAL && defaultQueue.config == config
      && defaultQueue.Valid()
      && (forall r :: r in regionQueues ==>
            && regionQueues[r].store == store && regionQueues[r].region == r && regionQueues[r].config == config
            && r != LOCAL && regionQueues[r] != defaultQueue && regionQueues[r].Valid())
    }

    constructor (config: Config)
      ensures Valid() && fresh(store) && fresh(defaultQueue) && store.queues == map[] && this.config == config
      ensures regionQueues == map[]
    {
      var s := new RuntimeStore();
      store, this.config, regionQueues := s, config, map[];
      defaultQueue := new PlayerQueue(s, LOCAL, config);
    }

    method QueueFor(region: string) returns (queue: PlayerQueue)
      requires Valid()
      modifies this
      ensures Valid() && queue in Repr() && fresh(Repr() - old(Repr()))
      ensures queue.store == store && queue.region == region && queue.config == config && queue.Valid()
    {
      if region == LOCAL {
        return defaultQueue;
      }
      if region in regionQueues {
        assert regionQueues[region] in regionQueues.Values;
        return regionQueues[region];
      }
      queue := new PlayerQueue(store, region, config);
      regionQueues := regionQueues[region := queue];
      assert regionQueues[region] in regionQueues.Values;
    }

    /** enter_queue; allocation and notification of a found pair happen outside this model. */
    method EnterQueue(region: string, player: QueuedPlayer) returns (pair: Option<Pair>)
      requires Valid()
      modifies this, Repr()
      ensures Valid() && fresh(Repr() - old(Repr()))
      ensures store.queues == Serve(old(store.queues), Enqueue(region, player), config)
      ensures pair == Enter(Waiting(old(store.queues), Target(Enqueue(region, player))), player, config.maxDiff).pair
    {
      var target := if region == [] then LOCAL else region;
      var queue := QueueFor(target);
      pair := queue.Admit(player);
    }

    method LeaveQueue(playerId: int, region: string)
      requires Valid()
      modifies this, Repr()
      ensures Valid() && fresh(Repr() - old(Repr()))
      ensures store.queues == Serve(old(store.queues), Leave(region, playerId), config)
    {
      var queue := QueueFor(region);
      queue.Remove(playerId);
    }

    /** process_queue and drain_timeouts; the caller notifies the players returned. */
    method ProcessQueue(region: string, now: int) returns (timedOut: seq<int>)
      requires Valid()
      modifies this, Repr()
      ensures Valid() && fresh(Repr() - old(Repr()))
      ensures store.queues == Serve(old(store.queues), Process(region, now), config)
      ensures timedOut == Expired(Waiting(old(store.queues), region), now, config.timeout)
    {
      var queue := QueueFor(region);
      timedOut := queue.CheckTimeouts(now);
    }
  }
}
