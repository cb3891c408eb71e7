/** Rooms from creation to result: at most one result per room, and no finished room survives a server tick. */
module Rooms {
  import opened Basics
  import opened Pieces
  import opened Engine

  /** A match as the room code uses it: start, advance, feed an allowed input, ask for the outcome. */
  datatype Match<!G> = Match(start: G, tick: (G, int) -> G, submit: (G, Color, Action) -> G,
                             over: G -> bool, winner: G -> Option<Color>)

  datatype GamePlayer = GamePlayer(playerId: int, userId: int)

  datatype Room<G> = Room(active: bool, white: Option<GamePlayer>, black: Option<GamePlayer>, dbGameId: Option<int>, game: G)

  datatype FinishReason = Disconnect | Resignation | KingCapture

  /** What finishing a room does to the outside world, tagged with the room. */
  datatype Effect = RatingsUpdated(room: int, winner: Color)
                  | GameFinished(room: int, game: int, winner: Color)
                  | GameAbandoned(room: int, game: int)
                  | ResultAnnounced(room: int, winner: Color, reason: FinishReason)
                  | RoomUnregistered(room: int)

  datatype Server<G> = Server(rooms: map<int, Room<G>>, nextId: int, log: seq<Effect>)

  datatype RoomInput = Resign(side: Color) | Act(side: Color, action: Action)

  /** What one server tick finds out about a room: connections, queued inputs, stored profiles. */
  datatype Env = Env(bothGone: bool, gone: Option<Color>, inputs: seq<RoomInput>, profiles: bool)

  const FRAME_MS: int := 16

  /** Room::reset */
  function Reset<G>(r: Room<G>, m: Match<G>): Room<G> {
    Room(false, None, None, None, m.start)
  }

  /** The effects of finishing a room whose two players are set. */
  function Batch(id: int, db: Option<int>, winner: Option<Color>, reason: FinishReason, profiles: bool): seq<Effect> {
    (if db.Some? && winner.Some? && profiles then
       [RatingsUpdated(id, winner.value), GameFinished(id, db.value, winner.value), ResultAnnounced(id, winner.value, reason)]
     else if db.Some? && winner.None? && reason == Disconnect then [GameAbandoned(id, db.value)]
     else []) + [RoomUnregistered(id)]
  }

  /** GameResultHandler::finish with cleanup_finished_room */
  function Finish<G>(s: Server<G>, id: int, winner: Option<Color>, reason: FinishReason, profiles: bool, m: Match<G>): (r: Server<G>)
    ensures r.rooms.Keys == s.rooms.Keys && r.nextId == s.nextId
  {
    if id !in s.rooms || s.rooms[id].white.None? || s.rooms[id].black.None? then s
    else
      s.(rooms := s.rooms[id := Reset(s.rooms[id], m)],
         log := s.log + Batch(id, s.rooms[id].dbGameId, winner, reason, profiles))
  }

  /** The inputs up to the first resignation, and who resigned. */
  function Play<G>(g: G, inputs: seq<RoomInput>, m: Match<G>): (G, Option<Color>) {
    if inputs == [] then (g, None)
    else match inputs[0]
      case Resign(side) => (g, Some(side))
      case Act(side, a) => Play(m.submit(g, side, a), inputs[1..], m)
  }

  /** Inputs are fed in order up to the first resignation; those after it are not read. */
  lemma {:induction false} FirstResignationCounts<G>(g: G, before: seq<RoomInput>, side: Color, rest: seq<RoomInput>, m: Match<G>)
    requires forall i :: 0 <= i < |before| ==> before[i].Act?
    ensures Play(g, before, m).1.None?
    ensures Play(g, before + [Resign(side)] + rest, m) == (Play(g, before, m).0, Some(side))
    decreases |before|
  {
    var all := before + [Resign(side)] + rest;
    if before != [] {
      assert all[1..] == before[1..] + [Resign(side)] + rest;
      FirstResignationCounts(m.submit(g, before[0].side, before[0].action), before[1..], side, rest, m);
    }
  }

  function ApplyInputs<G>(s: Server<G>, id: int, env: Env, m: Match<G>): (r: Server<G>)
    requires id in s.rooms
    ensures r.rooms.Keys == s.rooms.Keys && r.nextId == s.nextId
  {
    var (g, resigned) := Play(s.rooms[id].game, env.inputs, m);
    var s1 := s.(rooms := s.rooms[id := s.rooms[id].(game := g)]);
    if resigned.None? then s1 else Finish(s1, id, Some(Opponent(resigned.value)), Resignation, env.profiles, m)
  }

  /** One turn of the loop in ActiveRoomProcessor::process. */
  function ProcessRoom<G>(s: Server<G>, id: int, elapsed: int, env: Env, m: Match<G>): (r: Server<G>)
    requires id in s.rooms
    ensures r.rooms.Keys == s.rooms.Keys && r.nextId == s.nextId
  {
    var r := s.rooms[id];
    if r.white.None? || r.black.None? then s
    else if env.bothGone then Finish(s, id, None, Disconnect, env.profiles, m)
    else if env.gone.Some? then Finish(s, id, Some(Opponent(env.gone.value)), Disconnect, env.profiles, m)
    else
      var g := if elapsed >= FRAME_MS && !m.over(r.game) then m.tick(r.game, elapsed) else r.game;
      var s1 := s.(rooms := s.rooms[id := r.(game := g)]);
      var s2 := if r.active && !m.over(g) then ApplyInputs(s1, id, env, m) else s1;
      if m.over(s2.rooms[id].game)
      then Finish(s2, id, m.winner(s2.rooms[id].game), KingCapture, env.profiles, m)
      else s2
  }

  function ProcessAll<G>(s: Server<G>, order: seq<int>, elapsed: int, env: int -> Env, m: Match<G>): (r: Server<G>)
    requires forall id :: id in order ==> id in s.rooms
    ensures r.rooms.Keys == s.rooms.Keys && r.nextId == s.nextId
    decreases |order|
  {
    if order == [] then s
    else
      assert order[0] in order;
      ProcessAll(ProcessRoom(s, order[0], elapsed, env(order[0]), m), order[1..], elapsed, env, m)
  }

  function RemoveInactive<G>(s: Server<G>): Server<G> {
    s.(rooms := map id | id in s.rooms && s.rooms[id].active :: s.rooms[id])
  }

  /** LocalGameHost::create_room */
  function CreateRoom<G>(s: Server<G>, white: GamePlayer, black: GamePlayer, db: Option<int>, m: Match<G>): Server<G> {
    s.(rooms := s.rooms[s.nextId := Room(true, Some(white), Some(black), db, m.start)], nextId := s.nextId + 1)
  }

  function Rebound(p: Option<GamePlayer>, user: int, player: int): Option<GamePlayer> {
    if p.Some? && p.value.userId == user then Some(p.value.(playerId := player)) else p
  }

  /** Room::rebind_player */
  function Rebind<G>(s: Server<G>, id: int, user: int, player: int): Server<G> {
    if id !in s.rooms then s
    else
      var r := s.rooms[id];
      s.(rooms := s.rooms[id := r.(white := Rebound(r.white, user, player), black := Rebound(r.black, user, player))])
  }

  // ---------------------------------------------------------------- invariant

  /** The recorded effects of one room. */
  function Results(log: seq<Effect>, id: int): seq<Effect> {
    if log == [] then []
    else Results(log[..|log| - 1], id) + if log[|log| - 1].room == id then [log[|log| - 1]] else []
  }

  predicate SameKind(e: Effect, f: Effect) {
    || (e.RatingsUpdated? && f.RatingsUpdated?)
    || ((e.GameFinished? || e.GameAbandoned?) && (f.GameFinished? || f.GameAbandoned?))
    || (e.ResultAnnounced? && f.ResultAnnounced?)
    || (e.RoomUnregistered? && f.RoomUnregistered?)
  }

  /** Each kind of effect at most once. */
  ghost predicate AtMostOnce(es: seq<Effect>) {
    forall i, k :: 0 <= i < k < |es| ==> !SameKind(es[i], es[k])
  }

  ghost predicate RoomOk<G>(r: Room<G>) {
    if r.active then r.white.Some? && r.black.Some? else r.white.None? && r.black.None? && r.dbGameId.None?
  }

  ghost predicate ServerOk<G>(s: Server<G>) {
    && (forall id :: id in s.rooms ==> id < s.nextId && RoomOk(s.rooms[id]))
    && (forall id :: AtMostOnce(Results(s.log, id)))
    && (forall id :: id in s.rooms && s.rooms[id].active ==> Results(s.log, id) == [])
    && (forall id :: id >= s.nextId ==> Results(s.log, id) == [])
  }

  lemma {:induction false} ResultsAppend(log: seq<Effect>, more: seq<Effect>, id: int)
    ensures Results(log + more, id) == Results(log, id) + Results(more, id)
    decreases |more|
  {
    if more == [] {
      assert log + more == log;
    } else {
      var n := |more| - 1;
      assert (log + more)[..|log + more| - 1] == log + more[..n];
      ResultsAppend(log, more[..n], id);
    }
  }

  lemma BatchResults(id: int, db: Option<int>, winner: Option<Color>, reason: FinishReason, profiles: bool, other: int)
    ensures var b := Batch(id, db, winner, reason, profiles);
            Results(b, other) == (if other == id then b else []) && AtMostOnce(b)
  {
    var b := Batch(id, db, winner, reason, profiles);
    ResultsOwn(b, id, other);
  }

  lemma {:induction false} ResultsOwn(es: seq<Effect>, id: int, other: int)
    requires forall i :: 0 <= i < |es| ==> es[i].room == id
    ensures Results(es, other) == if other == id then es else []
  {
    if es != [] {
      var n := |es| - 1;
      ResultsOwn(es[..n], id, other);
      assert es[..n] + [es[n]] == es;
    }
  }

  /** Finishing keeps the invariant, logs one batch for an active room, and leaves the room inactive. */
  lemma FinishKeeps<G>(s: Server<G>, id: int, winner: Option<Color>, reason: FinishReason, profiles: bool, m: Match<G>)
    requires ServerOk(s) && id in s.rooms
    ensures var s' := Finish(s, id, winner, reason, profiles, m);
            && ServerOk(s') && s'.rooms.Keys == s.rooms.Keys && s'.nextId == s.nextId
            && !s'.rooms[id].active
            && Results(s'.log, id) == (if s.rooms[id].active then Batch(id, s.rooms[id].dbGameId, winner, reason, profiles)
                                       else Results(s.log, id))
            && (forall k :: k in s.rooms && k != id ==> s'.rooms[k] == s.rooms[k])
            && (forall k :: k != id ==> Results(s'.log, k) == Results(s.log, k))
  {
    hide Results, Batch, AtMostOnce;
    var s' := Finish(s, id, winner, reason, profiles, m);
    if s.rooms[id].active {
      var b := Batch(id, s.rooms[id].dbGameId, winner, reason, profiles);
      forall k
        ensures Results(s'.log, k) == if k == id then b else Results(s.log, k)
      {
        ResultsAppend(s.log, b, k);
        BatchResults(id, s.rooms[id].dbGameId, winner, reason, profiles, k);
        assert Results(s.log, id) + b == b;
        assert Results(s.log, k) + [] == Results(s.log, k);
      }
      BatchResults(id, s.rooms[id].dbGameId, winner, reason, profiles, id);
    }
  }

  lemma GameChangeKeeps<G>(s: Server<G>, id: int, g: G)
    requires ServerOk(s) && id in s.rooms
    ensures ServerOk(s.(rooms := s.rooms[id := s.rooms[id].(game := g)]))
  {
  }

  /** One room's turn: the others are untouched, and the room ends up inactive or with its game still on. */
  lemma ProcessRoomKeeps<G>(s: Server<G>, id: int, elapsed: int, env: Env, m: Match<G>)
    requires ServerOk(s) && id in s.rooms && !m.over(m.start)
    ensures var s' := ProcessRoom(s, id, elapsed, env, m);
            && ServerOk(s') && s'.rooms.Keys == s.rooms.Keys && s'.nextId == s.nextId
            && (s'.rooms[id].active ==> !m.over(s'.rooms[id].game))
            && (forall k :: k in s.rooms && k != id ==> s'.rooms[k] == s.rooms[k])
            && (s.rooms[id].active && !s'.rooms[id].active ==> RoomUnregistered(id) in Results(s'.log, id))
            && (forall k :: k != id ==> Results(s'.log, k) == Results(s.log, k))
  {
    hide ServerOk, Finish, Play, Results, Batch;
    var r := s.rooms[id];
    BatchUnregisters(id);
    KeptRoomOk(s, id);
    FinishKeeps(s, id, None, Disconnect, env.profiles, m);
    if env.gone.Some? {
      FinishKeeps(s, id, Some(Opponent(env.gone.value)), Disconnect, env.profiles, m);
    }
    var g := if elapsed >= FRAME_MS && !m.over(r.game) then m.tick(r.game, elapsed) else r.game;
    var s1 := s.(rooms := s.rooms[id := r.(game := g)]);
    GameChangeKeeps(s, id, g);
    var s2 := if r.active && !m.over(g) then ApplyInputs(s1, id, env, m) else s1;
    InputsKeep(s1, id, env, m);
    FinishKeeps(s2, id, m.winner(s2.rooms[id].game), KingCapture, env.profiles, m);
  }

  lemma BatchUnregisters(id: int)
    ensures forall db, winner, reason, profiles :: RoomUnregistered(id) in Batch(id, db, winner, reason, profiles)
  {
    forall db, winner, reason, profiles
      ensures RoomUnregistered(id) in Batch(id, db, winner, reason, profiles)
    {
      var b := Batch(id, db, winner, reason, profiles);
      assert b[|b| - 1] == RoomUnregistered(id);
    }
  }

  lemma KeptRoomOk<G>(s: Server<G>, id: int)
    requires ServerOk(s) && id in s.rooms
    ensures RoomOk(s.rooms[id])
  {
  }

  lemma InputsKeep<G>(s: Server<G>, id: int, env: Env, m: Match<G>)
    requires ServerOk(s) && id in s.rooms
    ensures var s' := ApplyInputs(s, id, env, m);
            && ServerOk(s') && s'.rooms.Keys == s.rooms.Keys && s'.nextId == s.nextId
            && (forall k :: k in s.rooms && k != id ==> s'.rooms[k] == s.rooms[k])
            && (s.rooms[id].active && !s'.rooms[id].active ==> RoomUnregistered(id) in Results(s'.log, id))
            && (forall k :: k != id ==> Results(s'.log, k) == Results(s.log, k))
  {
    hide ServerOk, Finish, Play, Results, Batch;
    BatchUnregisters(id);
    var (g, resigned) := Play(s.rooms[id].game, env.inputs, m);
    GameChangeKeeps(s, id, g);
    if resigned.Some? {
      FinishKeeps(s.(rooms := s.rooms[id := s.rooms[id].(game := g)]), id, Some(Opponent(resigned.value)), Resignation, env.profiles, m);
    }
  }

  lemma {:induction false} ProcessAllKeeps<G>(s: Server<G>, order: seq<int>, elapsed: int, env: int -> Env, m: Match<G>)
    requires ServerOk(s) && !m.over(m.start) && forall id :: id in order ==> id in s.rooms
    requires forall i, k :: 0 <= i < k < |order| ==> order[i] != order[k]
    ensures var s' := ProcessAll(s, order, elapsed, env, m);
            && ServerOk(s')
            && (forall id :: id in order && s'.rooms[id].active ==> !m.over(s'.rooms[id].game))
            && (forall id :: id in s.rooms && id !in order ==> s'.rooms[id] == s.rooms[id])
            && (forall id :: id in order && s.rooms[id].active && !s'.rooms[id].active ==> RoomUnregistered(id) in Results(s'.log, id))
            && (forall id :: id !in order ==> Results(s'.log, id) == Results(s.log, id))
    decreases |order|
  {
    hide ServerOk, ProcessRoom, Results;
    if order != [] {
      var id, tail := order[0], order[1..];
      assert id in order && id !in tail;
      var s1 := ProcessRoom(s, id, elapsed, env(id), m);
      ProcessRoomKeeps(s, id, elapsed, env(id), m);
      ProcessAllKeeps(s1, tail, elapsed, env, m);
    }
  }

  /** order lists each active room exactly once, in some order. */
  ghost predicate ListsActive<G>(s: Server<G>, order: seq<int>) {
    && (forall id :: id in order <==> id in s.rooms && s.rooms[id].active)
    && (forall i, k :: 0 <= i < k < |order| ==> order[i] != order[k])
  }

  /** A server tick: process the active rooms, then remove the inactive ones. */
  function TickServer<G>(s: Server<G>, order: seq<int>, elapsed: int, env: int -> Env, m: Match<G>): Server<G>
    requires forall id :: id in order ==> id in s.rooms
  {
    RemoveInactive(ProcessAll(s, order, elapsed, env, m))
  }

  /** After a tick every room left is active, complete, unreported, and its game is still on; exactly the unreported survive. */
  lemma TickLeavesOnlyLiveRooms<G>(s: Server<G>, order: seq<int>, elapsed: int, env: int -> Env, m: Match<G>)
    requires ServerOk(s) && ListsActive(s, order) && !m.over(m.start)
    ensures var s' := TickServer(s, order, elapsed, env, m);
            && ServerOk(s')
            && (forall id :: id in s'.rooms ==>
                  id in s.rooms && s'.rooms[id].active && !m.over(s'.rooms[id].game) && Results(s'.log, id) == [])
            && (forall id :: id in s.rooms && s.rooms[id].active ==> (id in s'.rooms <==> Results(s'.log, id) == []))
  {
    hide ProcessRoom, ProcessAll, AtMostOnce, RoomOk, Results;
    ProcessAllKeeps(s, order, elapsed, env, m);
    var s1 := ProcessAll(s, order, elapsed, env, m);
    assert forall id :: id in s1.rooms && id !in order ==> s1.rooms[id] == s.rooms[id];
  }

  /** Whoever leaves loses: a single disconnected player, or the first to resign in a game that the turn's tick leaves on. */
  lemma LeaverLoses<G>(s: Server<G>, id: int, elapsed: int, env: Env, m: Match<G>, loser: Color)
    requires ServerOk(s) && id in s.rooms && s.rooms[id].active && s.rooms[id].dbGameId.Some? && env.profiles && !env.bothGone
    requires
      || env.gone == Some(loser)
      || (var r := s.rooms[id].game;
          var g := if elapsed >= FRAME_MS && !m.over(r) then m.tick(r, elapsed) else r;
          env.gone.None? && !m.over(m.start) && !m.over(g) && Play(g, env.inputs, m).1 == Some(loser))
    ensures var s' := ProcessRoom(s, id, elapsed, env, m);
            && GameFinished(id, s.rooms[id].dbGameId.value, Opponent(loser)) in Results(s'.log, id)
            && RatingsUpdated(id, Opponent(loser)) in Results(s'.log, id)
  {
    hide Results, Play;
    var db := s.rooms[id].dbGameId;
    var reason := if env.gone.Some? then Disconnect else Resignation;
    var b := Batch(id, db, Some(Opponent(loser)), reason, true);
    ResultsAppend(s.log, b, id);
    BatchResults(id, db, Some(Opponent(loser)), reason, true, id);
    assert b[0] == RatingsUpdated(id, Opponent(loser)) && b[1] == GameFinished(id, db.value, Opponent(loser));
  }

  /** Both players gone: the game is abandoned, nobody wins, nobody is rated. */
  lemma BothGoneIsAbandoned<G>(s: Server<G>, id: int, elapsed: int, env: Env, m: Match<G>)
    requires ServerOk(s) && id in s.rooms && s.rooms[id].active && env.bothGone
    ensures var db := s.rooms[id].dbGameId;
            Results(ProcessRoom(s, id, elapsed, env, m).log, id) ==
            (if db.Some? then [GameAbandoned(id, db.value)] else []) + [RoomUnregistered(id)]
  {
    hide Results, Finish;
    KeptRoomOk(s, id);
    FinishKeeps(s, id, None, Disconnect, env.profiles, m);
  }

  /** A tick that ends the game records and rates exactly the winner the match names; without one, only the room closes. */
  lemma KingCaptureIsRecorded<G>(s: Server<G>, id: int, elapsed: int, env: Env, m: Match<G>)
    requires ServerOk(s) && id in s.rooms && s.rooms[id].active && !env.bothGone && env.gone.None?
    requires elapsed >= 16 && !m.over(s.rooms[id].game) && m.over(m.tick(s.rooms[id].game, elapsed))
    ensures var winner, db := m.winner(m.tick(s.rooms[id].game, elapsed)), s.rooms[id].dbGameId;
            Results(ProcessRoom(s, id, elapsed, env, m).log, id) ==
            (if winner.Some? && db.Some? && env.profiles
             then [RatingsUpdated(id, winner.value), GameFinished(id, db.value, winner.value),
                   ResultAnnounced(id, winner.value, KingCapture)]
             else []) + [RoomUnregistered(id)]
  {
    hide Results, Finish, Play;
    var g := m.tick(s.rooms[id].game, elapsed);
    KeptRoomOk(s, id);
    GameChangeKeeps(s, id, g);
    FinishKeeps(s.(rooms := s.rooms[id := s.rooms[id].(game := g)]), id, m.winner(g), KingCapture, env.profiles, m);
  }

  /** Otherwise the turn advances the game and feeds it the inputs, and nothing is recorded. */
  lemma TurnGoesOn<G>(s: Server<G>, id: int, elapsed: int, env: Env, m: Match<G>)
    requires ServerOk(s) && id in s.rooms && s.rooms[id].active && !env.bothGone && env.gone.None?
    requires var r := s.rooms[id].game;
             var g := if elapsed >= 16 && !m.over(r) then m.tick(r, elapsed) else r;
             !m.over(g) && Play(g, env.inputs, m).1.None? && !m.over(Play(g, env.inputs, m).0)
    ensures var r := s.rooms[id].game;
            var g := if elapsed >= 16 && !m.over(r) then m.tick(r, elapsed) else r;
            var s' := ProcessRoom(s, id, elapsed, env, m);
            s'.rooms[id] == s.rooms[id].(game := Play(g, env.inputs, m).0) && s'.log == s.log
  {
    hide Results, Finish, Play;
    KeptRoomOk(s, id);
  }

  /** A new room is live under a fresh id; a returning player keeps his side under his new connection. */
  lemma NewAndReturning<G>(s: Server<G>, white: GamePlayer, black: GamePlayer, db: Option<int>, m: Match<G>, player: int)
    requires ServerOk(s) && white.userId != black.userId
    ensures var s1 := CreateRoom(s, white, black, db, m);
            var s2 := Rebind(s1, s.nextId, black.userId, player);
            && s.nextId !in s.rooms
            && s1.rooms == s.rooms[s.nextId := Room(true, Some(white), Some(black), db, m.start)]
            && s2.rooms == s.rooms[s.nextId := Room(true, Some(white), Some(GamePlayer(player, black.userId)), db, m.start)]
  {
  }

  // ---------------------------------------------------------------- runs

  datatype Event = Create(white: GamePlayer, black: GamePlayer, db: Option<int>)
                 | Reconnect(room: int, user: int, player: int)
                 | ServerTick(order: seq<int>, elapsed: int, env: int -> Env)

  /** A tick's order must list the active rooms; anything else the event may carry is ignored. */
  ghost function Step<G>(s: Server<G>, e: Event, m: Match<G>): Server<G> {
    match e
    case Create(w, b, db) => CreateRoom(s, w, b, db, m)
    case Reconnect(id, user, player) => Rebind(s, id, user, player)
    case ServerTick(order, elapsed, env) => if ListsActive(s, order) then TickServer(s, order, elapsed, env, m) else s
  }

  lemma StepKeeps<G>(s: Server<G>, e: Event, m: Match<G>)
    requires ServerOk(s) && !m.over(m.start)
    ensures ServerOk(Step(s, e, m)) && s.nextId <= Step(s, e, m).nextId
    ensures forall id :: id in Step(s, e, m).rooms ==> id in s.rooms || id == s.nextId
  {
    hide ProcessAll, AtMostOnce;
    match e
    case Create(w, b, db) =>
    case Reconnect(id, user, player) =>
    case ServerTick(order, elapsed, env) =>
      if ListsActive(s, order) {
        TickLeavesOnlyLiveRooms(s, order, elapsed, env, m);
      }
  }

  ghost function RunServer<G>(s: Server<G>, events: seq<Event>, m: Match<G>): Server<G>
    decreases |events|
  {
    if events == [] then s else RunServer(Step(s, events[0], m), events[1..], m)
  }

  /** Over every run each room's result effects happen at most once, and a live room has none. */
  lemma {:induction false} ResultsHappenAtMostOnce<G>(s: Server<G>, events: seq<Event>, m: Match<G>, id: int)
    requires ServerOk(s) && !m.over(m.start)
    ensures var s' := RunServer(s, events, m);
            && ServerOk(s') && s.nextId <= s'.nextId
            && AtMostOnce(Results(s'.log, id))
            && (id in s'.rooms && s'.rooms[id].active ==> Results(s'.log, id) == [])
    decreases |events|
  {
    hide Step;
    if events != [] {
      StepKeeps(s, events[0], m);
      ResultsHappenAtMostOnce(Step(s, events[0], m), events[1..], m, id);
    }
  }

  /** A room that is gone never comes back: ids are issued in increasing order only. */
  lemma {:induction false} IdsAreNeverReused<G>(s: Server<G>, events: seq<Event>, m: Match<G>, id: int)
    requires ServerOk(s) && !m.over(m.start) && id < s.nextId && id !in s.rooms
    ensures id !in RunServer(s, events, m).rooms
    decreases |events|
  {
    hide Step, ServerOk;
    if events != [] {
      StepKeeps(s, events[0], m);
      IdsAreNeverReused(Step(s, events[0], m), events[1..], m, id);
    }
  }

  lemma EmptyServer<G>(s: Server<G>)
    requires s.rooms == map[] && s.nextId == 1 && s.log == []
    ensures ServerOk(s)
  {
  }

  // ---------------------------------------------------------------- the objects

  /** RoomManager, ActiveRoomProcessor and GameResultHandler over one table of rooms. */
  class GameServer<!G> {
    const game: Match<G>
    var rooms: map<int, Room<G>>
    var nextId: int
    var log: seq<Effect>

    ghost function Value(): Server<G>
      reads this
    {
      Server(rooms, nextId, log)
    }

    constructor (game: Match<G>)
      ensures this.game == game && ServerOk(Value())
    {
      this.game, rooms, nextId, log := game, map[], 1, [];
    }

    method CreateGame(white: GamePlayer, black: GamePlayer, db: Option<int>) returns (id: int)
      modifies this
      ensures id == old(nextId) && Value() == CreateRoom(old(Value()), white, black, db, game)
    {
      id := nextId;
      nextId := nextId + 1;
      rooms := rooms[id := Room(true, Some(white), Some(black), db, game.start)];
    }

    method FinishRoom(id: int, winner: Option<Color>, reason: FinishReason, profiles: bool)
      modifies this
      ensures Value() == Finish(old(Value()), id, winner, reason, profiles, game)
    {
      if id !in rooms || rooms[id].white.None? || rooms[id].black.None? {
        return;
      }
      var db := rooms[id].dbGameId;
      if db.Some? {
        if winner.Some? {
          if profiles {
            log := log + [RatingsUpdated(id, winner.value), GameFinished(id, db.value, winner.value)];
            log := log + [ResultAnnounced(id, winner.value, reason)];
          }
        } else if reason == Disconnect {
          log := log + [GameAbandoned(id, db.value)];
        }
      }
      log := log + [RoomUnregistered(id)];
      rooms := rooms[id := Reset(rooms[id], game)];
    }

    /** apply_room_inputs: stops at the first resignation, which finishes the room. */
    method ApplyRoomInputs(id: int, env: Env)
      requires id in rooms
      modifies this
      ensures Value() == ApplyInputs(old(Value()), id, env, game)
    {
      hide Finish;
      var g := rooms[id].game;
      assert env.inputs[0..] == env.inputs;
      for i := 0 to |env.inputs|
        invariant Value() == old(Value())
        invariant Play(g, env.inputs[i..], game) == Play(rooms[id].game, env.inputs, game)
      {
        assert env.inputs[i..][1..] == env.inputs[i + 1..];
        match env.inputs[i] {
          case Resign(side) =>
            rooms := rooms[id := rooms[id].(game := g)];
            FinishRoom(id, Some(Opponent(side)), Resignation, env.profiles);
            return;
          case Act(side, a) => g := game.submit(g, side, a);
        }
      }
      rooms := rooms[id := rooms[id].(game := g)];
    }

    method ProcessOne(id: int, elapsed: int, env: Env)
      requires id in rooms
      modifies this
      ensures Value() == ProcessRoom(old(Value()), id, elapsed, env, game)
    {
      hide Finish, ApplyInputs;
      var r := rooms[id];
      if r.white.None? || r.black.None? {
        return;
      }
      if env.bothGone {
        FinishRoom(id, None, Disconnect, env.profiles);
        return;
      }
      if env.gone.Some? {
        FinishRoom(id, Some(Opponent(env.gone.value)), Disconnect, env.profiles);
        return;
      }
      var g := r.game;
      if elapsed >= FRAME_MS && !game.over(g) {
        g := game.tick(g, elapsed);
      }
      rooms := rooms[id := r.(game := g)];
      if r.active && !game.over(g) {
        ApplyRoomInputs(id, env);
      }
      if game.over(rooms[id].game) {
        FinishRoom(id, game.winner(rooms[id].game), KingCapture, env.profiles);
      }
    }

    /** active_rooms: the table is visited in no particular order. */
    method ActiveRooms() returns (order: seq<int>)
      ensures ListsActive(Value(), order)
    {
      order := [];
      var todo := rooms.Keys;
      while todo != {}
        invariant todo <= rooms.Keys
        invariant forall id :: id in order <==> id in rooms && id !in todo && rooms[id].active
        invariant forall i, k :: 0 <= i < k < |order| ==> order[i] != order[k]
        decreases todo
      {
        SomeMember(todo);
        var id :| id in todo;
        todo := todo - {id};
        if rooms[id].active {
          assert forall i :: 0 <= i < |order| ==> order[i] in order && order[i] != id;
          order := order + [id];
        }
      }
    }

    method RemoveInactiveRooms()
      modifies this
      ensures Value() == RemoveInactive(old(Value()))
    {
      var todo := rooms.Keys;
      ghost var before := rooms;
      while todo != {}
        invariant todo <= before.Keys && nextId == old(nextId) && log == old(log)
        invariant rooms == map id | id in before && (id in todo || before[id].active) :: before[id]
        decreases todo
      {
        SomeMember(todo);
        var id :| id in todo;
        if !rooms[id].active {
          rooms := rooms - {id};
        }
        todo := todo - {id};
      }
    }

    /** process followed by remove_inactive_rooms, as in the server's tick. */
    method Tick(elapsed: int, env: int -> Env)
      requires ServerOk(Value()) && !game.over(game.start)
      modifies this
      ensures ServerOk(Value())
      ensures exists order :: ListsActive(old(Value()), order) && Value() == TickServer(old(Value()), order, elapsed, env, game)
      ensures forall id :: id in rooms ==> rooms[id].active && !game.over(rooms[id].game)
    {
      hide ServerOk, ProcessRoom, Results;
      var order := ActiveRooms();
      ghost var s := Value();
      assert order[0..] == order;
      for i := 0 to |order|
        invariant forall id :: id in order ==> id in rooms
        invariant ProcessAll(Value(), order[i..], elapsed, env, game) == ProcessAll(s, order, elapsed, env, game)
      {
        assert order[i] in order;
        assert order[i..][0] == order[i] && order[i..][1..] == order[i + 1..];
        ProcessOne(order[i], elapsed, env(order[i]));
      }
      TickLeavesOnlyLiveRooms(s, order, elapsed, env, game);
      RemoveInactiveRooms();
    }
  }
}
