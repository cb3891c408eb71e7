/** The '|' codecs of matchmaking, game creation and the runtime store, with the exact condition of each round trip. */
module Codecs {
  import opened Pieces
  import opened Text

  // ---------------------------------------------------------------- fields

  /** The text cut at every separator. */
  function Split(s: string, sep: char): (fields: seq<string>)
    ensures |fields| >= 1
  {
    if s == [] then [[]]
    else
      var rest := Split(s[1..], sep);
      if s[0] == sep then [[]] + rest else [[s[0]] + rest[0]] + rest[1..]
  }

  function Join(fields: seq<string>, sep: char): string
    requires |fields| >= 1
  {
    if |fields| == 1 then fields[0] else fields[0] + [sep] + Join(fields[1..], sep)
  }

  lemma {:induction false} SplitField(f: string, rest: string, sep: char)
    requires sep !in f
    ensures Split(f + [sep] + rest, sep) == [f] + Split(rest, sep)
  {
    var s := f + [sep] + rest;
    if f == [] {
      assert s[1..] == rest;
    } else {
      assert s[1..] == f[1..] + [sep] + rest;
      SplitField(f[1..], rest, sep);
      assert [f[0]] + f[1..] == f;
    }
  }

  lemma {:induction false} SplitPlain(f: string, sep: char)
    requires sep !in f
    ensures Split(f, sep) == [f]
  {
    if f != [] {
      SplitPlain(f[1..], sep);
      assert [f[0]] + f[1..] == f;
    }
  }

  /** Splitting inverts joining; the last field may hold separators, which then cut it further. */
  lemma {:induction false} JoinRoundTrip(fields: seq<string>, sep: char)
    requires |fields| >= 1 && forall i :: 0 <= i < |fields| - 1 ==> sep !in fields[i]
    ensures var n := |fields| - 1;
            Split(Join(fields, sep), sep) == fields[..n] + Split(fields[n], sep)
  {
    var n := |fields| - 1;
    if n == 0 {
      assert fields[..0] + Split(fields[0], sep) == Split(fields[0], sep);
    } else {
      SplitField(fields[0], Join(fields[1..], sep), sep);
      JoinRoundTrip(fields[1..], sep);
      assert [fields[0]] + fields[1..][..n - 1] == fields[..n];
    }
  }

  lemma {:induction false} SplitHead(s: string, sep: char)
    ensures sep !in Split(s, sep)[0] && Split(s, sep)[0] <= s
    ensures Split(s, sep)[0] == s <==> sep !in s
  {
    if s != [] {
      SplitHead(s[1..], sep);
      assert s == [s[0]] + s[1..];
    }
  }

  /** field_at as a specification. */
  function FieldAt(s: string, index: nat): Option<string> {
    var fields := Split(s, '|');
    if index < |fields| then Some(fields[index]) else None
  }

  /** The position of sep at or after start, or the length. */
  method FindFrom(s: string, sep: char, start: nat) returns (next: nat)
    requires start <= |s|
    ensures start <= next <= |s| && sep !in s[start..next] && (next < |s| ==> s[next] == sep)
  {
    next := start;
    while next < |s| && s[next] != sep
      invariant start <= next <= |s| && sep !in s[start..next]
    {
      next := next + 1;
    }
  }

  lemma CutAt(s: string, sep: char, start: nat, next: nat)
    requires start <= next <= |s| && sep !in s[start..next] && (next < |s| ==> s[next] == sep)
    ensures Split(s[start..], sep) ==
            if next < |s| then [s[start..next]] + Split(s[next + 1..], sep) else [s[start..next]]
  {
    if next < |s| {
      assert s[start..] == s[start..next] + [sep] + s[next + 1..];
      SplitField(s[start..next], s[next + 1..], sep);
    } else {
      assert s[start..] == s[start..next];
      SplitPlain(s[start..], sep);
    }
  }

  method ReadField(s: string, index: nat) returns (field: Option<string>)
    ensures field == FieldAt(s, index)
  {
    hide Split;
    var start := 0;
    ghost var all := Split(s, '|');
    assert s[0..] == s;
    var current := 0;
    while true
      invariant current <= index && start <= |s| && current < |all| && all[current..] == Split(s[start..], '|')
      decreases index - current
    {
      var next := FindFrom(s, '|', start);
      CutAt(s, '|', start, next);
      assert all[current] == all[current..][0] && all[current + 1..] == all[current..][1..];
      if current == index {
        return Some(s[start..next]);
      }
      if next == |s| {
        return None;
      }
      start, current := next + 1, current + 1;
    }
  }

  // ---------------------------------------------------------------- numbers

  predicate U64(n: int) {
    0 <= n < TWO64
  }

  /** parse_integral and parse_user_id: digits only, accumulated modulo 2^64. */
  function ParseU64(s: string): Option<int> {
    var n := ParseDecimal(s);
    if n.None? then None else Some(n.value % TWO64)
  }

  method ParseIntegral(token: string) returns (r: Option<int>)
    ensures r == ParseU64(token)
  {
    if token == [] {
      return None;
    }
    var value := 0;
    for i := 0 to |token|
      invariant AllDigits(token[..i]) && value == ValueOf(token[..i]) % TWO64
    {
      assert token[..i + 1][..i] == token[..i];
      if !IsDigit(token[i]) {
        return None;
      }
      WrapStep(ValueOf(token[..i]), DigitValue(token[i]));
      value := (value * 10 + DigitValue(token[i])) % TWO64;
    }
    assert token[..|token|] == token;
    return Some(value);
  }

  lemma WrapStep(v: nat, d: nat)
    ensures (v % TWO64 * 10 + d) % TWO64 == (v * 10 + d) % TWO64
  {
  }

  lemma U64ReadsBack(n: int)
    requires U64(n)
    ensures ParseU64(DecimalInt(n)) == Some(n) && Stoull(DecimalInt(n)) == Some(n) && '|' !in DecimalInt(n)
  {
    NumbersReadBack(n);
  }

  // ---------------------------------------------------------------- matchmaking messages

  datatype MatchRequest = MatchRequest(playerId: int, userId: int, elo: int, region: string)

  function EncodeMatchRequest(r: MatchRequest): string {
    Join([DecimalInt(r.playerId), DecimalInt(r.userId), DecimalInt(r.elo), r.region], '|')
  }

  function DecodeMatchRequest(body: string): Option<MatchRequest> {
    var p, u, e, r := FieldAt(body, 0), FieldAt(body, 1), FieldAt(body, 2), FieldAt(body, 3);
    if p.None? || u.None? || e.None? || r.None? then None else
    var player, user, elo := ParseU64(p.value), ParseU64(u.value), Stoi(e.value);
    if player.None? || user.None? || elo.None? then None
    else Some(MatchRequest(player.value, user.value, elo.value, r.value))
  }

  /** A request survives the wire if and only if its region has no separator. */
  lemma MatchRequestRoundTrip(r: MatchRequest)
    requires U64(r.playerId) && U64(r.userId) && -TWO31 <= r.elo < TWO31
    ensures DecodeMatchRequest(EncodeMatchRequest(r)) == Some(r) <==> '|' !in r.region
  {
    hide Split, Join, DecimalInt, ParseU64, Stoi;
    U64ReadsBack(r.playerId);
    U64ReadsBack(r.userId);
    NumbersReadBack(r.elo);
    JoinRoundTrip([DecimalInt(r.playerId), DecimalInt(r.userId), DecimalInt(r.elo), r.region], '|');
    SplitHead(r.region, '|');
  }

  datatype MatchResponse = Queued(message: string) | Error(message: string)

  function EncodeMatchResponse(r: MatchResponse): string {
    Join([if r.Queued? then "queued" else "error", r.message], '|')
  }

  function DecodeMatchResponse(body: string): Option<MatchResponse> {
    var status := FieldAt(body, 0);
    var message := if FieldAt(body, 1).Some? then FieldAt(body, 1).value else [];
    if status == Some("queued") then Some(Queued(message))
    else if status == Some("error") then Some(Error(message))
    else None
  }

  lemma MatchResponseRoundTrip(r: MatchResponse)
    ensures DecodeMatchResponse(EncodeMatchResponse(r)) == Some(r) <==> '|' !in r.message
  {
    hide Split, Join;
    JoinRoundTrip([if r.Queued? then "queued" else "error", r.message], '|');
    SplitHead(r.message, '|');
  }

  datatype MatchNotification = MatchNotification(whitePlayer: int, whiteUser: int, blackPlayer: int, blackUser: int,
                                                 roomId: int, serverId: string, endpoint: string)

  function NotificationFields(n: MatchNotification): seq<string> {
    [DecimalInt(n.whitePlayer), DecimalInt(n.whiteUser), DecimalInt(n.blackPlayer), DecimalInt(n.blackUser),
     DecimalInt(n.roomId), n.serverId, n.endpoint]
  }

  function EncodeMatchNotification(n: MatchNotification): string {
    Join(NotificationFields(n), '|')
  }

  function DecodeMatchNotification(body: string): Option<MatchNotification> {
    var f := Split(body, '|');
    if |f| < 7 then None else
    var wp, wu, bp, bu, room := Stoull(f[0]), Stoull(f[1]), Stoull(f[2]), Stoull(f[3]), Stoull(f[4]);
    if wp.None? || wu.None? || bp.None? || bu.None? || room.None? then None
    else Some(MatchNotification(wp.value, wu.value, bp.value, bu.value, room.value, f[5], f[6]))
  }

  predicate NotificationOk(n: MatchNotification) {
    U64(n.whitePlayer) && U64(n.whiteUser) && U64(n.blackPlayer) && U64(n.blackUser) && U64(n.roomId)
  }

  lemma {:induction false} SplitContains(fields: seq<string>, sep: char, k: nat)
    requires |fields| > k && forall i :: 0 <= i < k ==> sep !in fields[i]
    ensures |Split(Join(fields, sep), sep)| > k
    ensures Split(Join(fields, sep), sep)[..k] == fields[..k]
    ensures Split(Join(fields, sep), sep)[k] == Split(fields[k], sep)[0]
  {
    if k == 0 {
      if |fields| > 1 {
        HeadOfConcat(fields[0], [sep] + Join(fields[1..], sep), sep);
        assert fields[0] + [sep] + Join(fields[1..], sep) == fields[0] + ([sep] + Join(fields[1..], sep));
      }
    } else {
      SplitField(fields[0], Join(fields[1..], sep), sep);
      SplitContains(fields[1..], sep, k - 1);
      assert [fields[0]] + fields[1..][..k - 1] == fields[..k];
    }
  }

  /** A separator after s ends its first field at the latest. */
  lemma {:induction false} HeadOfConcat(s: string, rest: string, sep: char)
    requires rest != [] && rest[0] == sep
    ensures Split(s + rest, sep)[0] == Split(s, sep)[0]
  {
    if s == [] {
      assert s + rest == rest;
    } else {
      assert (s + rest)[1..] == s[1..] + rest;
      HeadOfConcat(s[1..], rest, sep);
    }
  }

  lemma MatchNotificationRoundTrip(n: MatchNotification)
    requires NotificationOk(n)
    ensures DecodeMatchNotification(EncodeMatchNotification(n)) == Some(n) <==> '|' !in n.serverId && '|' !in n.endpoint
  {
    hide Split, Join, DecimalInt, Stoull;
    U64ReadsBack(n.whitePlayer);
    U64ReadsBack(n.whiteUser);
    U64ReadsBack(n.blackPlayer);
    U64ReadsBack(n.blackUser);
    U64ReadsBack(n.roomId);
    var f := NotificationFields(n);
    SplitContains(f, '|', 5);
    SplitHead(n.serverId, '|');
    if '|' !in n.serverId {
      JoinRoundTrip(f, '|');
      SplitHead(n.endpoint, '|');
    }
  }

  function EncodeTimeout(playerId: int): string {
    Join(["timeout", DecimalInt(playerId)], '|')
  }

  function DecodeTimeout(body: string): Option<int> {
    var kind, player := FieldAt(body, 0), FieldAt(body, 1);
    if kind != Some("timeout") || player.None? then None else ParseU64(player.value)
  }

  lemma TimeoutRoundTrip(playerId: int)
    requires U64(playerId)
    ensures DecodeTimeout(EncodeTimeout(playerId)) == Some(playerId)
  {
    hide DecimalInt, ParseU64, Split, Join;
    U64ReadsBack(playerId);
    JoinRoundTrip(["timeout", DecimalInt(playerId)], '|');
    SplitPlain(DecimalInt(playerId), '|');
  }

  // ---------------------------------------------------------------- game creation messages

  datatype CreationRequest = CreationRequest(whiteUser: int, blackUser: int, dbGameId: Option<int>)

  function EncodeCreationRequest(r: CreationRequest): string {
    Join([DecimalInt(r.whiteUser), DecimalInt(r.blackUser), if r.dbGameId.Some? then DecimalInt(r.dbGameId.value) else []], '|')
  }

  function DecodeCreationRequest(body: string): Option<CreationRequest> {
    var w, b, d := FieldAt(body, 0), FieldAt(body, 1), FieldAt(body, 2);
    if w.None? || b.None? then None else
    var white, black := ParseU64(w.value), ParseU64(b.value);
    if white.None? || black.None? then None
    else if d.None? || d.value == [] then Some(CreationRequest(white.value, black.value, None))
    else if Stoi(d.value).None? then None
    else Some(CreationRequest(white.value, black.value, Stoi(d.value)))
  }

  /** Creation requests always survive, with or without a database id. */
  lemma CreationRequestRoundTrip(r: CreationRequest)
    requires U64(r.whiteUser) && U64(r.blackUser) && (r.dbGameId.Some? ==> -TWO31 <= r.dbGameId.value < TWO31)
    ensures DecodeCreationRequest(EncodeCreationRequest(r)) == Some(r)
  {
    hide Split, Join, DecimalInt, ParseU64, Stoi;
    U64ReadsBack(r.whiteUser);
    U64ReadsBack(r.blackUser);
    var last := if r.dbGameId.Some? then DecimalInt(r.dbGameId.value) else [];
    if r.dbGameId.Some? {
      NumbersReadBack(r.dbGameId.value);
    }
    JoinRoundTrip([DecimalInt(r.whiteUser), DecimalInt(r.blackUser), last], '|');
    SplitPlain(last, '|');
  }

  datatype CreationResponse = CreationResponse(roomId: int, serverId: string, endpoint: Option<string>)

  function EncodeCreationResponse(r: CreationResponse): string {
    Join([DecimalInt(r.roomId), r.serverId, if r.endpoint.Some? then r.endpoint.value else []], '|')
  }

  function DecodeCreationResponse(body: string): Option<CreationResponse> {
    var id, server, e := FieldAt(body, 0), FieldAt(body, 1), FieldAt(body, 2);
    if id.None? || server.None? || Stoull(id.value).None? then None
    else Some(CreationResponse(Stoull(id.value).value, server.value, if e.None? || e.value == [] then None else e))
  }

  /** A response survives exactly when no text field has a separator and a present endpoint is not empty. */
  lemma CreationResponseRoundTrip(r: CreationResponse)
    requires U64(r.roomId)
    ensures DecodeCreationResponse(EncodeCreationResponse(r)) == Some(r) <==>
            '|' !in r.serverId && (r.endpoint.Some? ==> r.endpoint.value != [] && '|' !in r.endpoint.value)
  {
    hide Split, Join, DecimalInt, Stoull;
    U64ReadsBack(r.roomId);
    var last := if r.endpoint.Some? then r.endpoint.value else [];
    var f := [DecimalInt(r.roomId), r.serverId, last];
    SplitContains(f, '|', 1);
    SplitHead(r.serverId, '|');
    if '|' !in r.serverId {
      JoinRoundTrip(f, '|');
      SplitHead(last, '|');
    }
  }

  // ---------------------------------------------------------------- runtime store values

  datatype Location = Location(roomId: int, serverId: string, endpoint: string)

  function EncodeLocation(l: Location): string {
    Join([DecimalInt(l.roomId), l.serverId, l.endpoint], '|')
  }

  /** parse_player_location_value: the first two separators cut, the endpoint is everything after. */
  function DecodeLocation(value: string): Option<Location> {
    var f := Split(value, '|');
    if |f| < 3 then None
    else
      var room := Stoull(f[0]);
      if room.None? then None else Some(Location(room.value, f[1], Join(f[2..], '|')))
  }

  lemma {:induction false} SplitJoin(s: string, sep: char)
    ensures Join(Split(s, sep), sep) == s
  {
    if s != [] {
      SplitJoin(s[1..], sep);
      var rest := Split(s[1..], sep);
      if s[0] == sep {
        assert ([[]] + rest)[1..] == rest;
        assert [] + [sep] + Join(rest, sep) == s;
      } else if |rest| == 1 {
        assert [s[0]] + rest[0] == s;
      } else {
        var head: string := [s[0]] + rest[0];
        assert ([head] + rest[1..])[1..] == rest[1..];
        assert head + [sep] + Join(rest[1..], sep) == [s[0]] + Join(rest, sep);
      }
    }
  }

  /** A location survives exactly when its server id has no separator; the endpoint may hold any. */
  lemma LocationRoundTrip(l: Location)
    requires U64(l.roomId)
    ensures DecodeLocation(EncodeLocation(l)) == Some(l) <==> '|' !in l.serverId
  {
    hide Split, Join, DecimalInt, Stoull;
    U64ReadsBack(l.roomId);
    var f := [DecimalInt(l.roomId), l.serverId, l.endpoint];
    SplitContains(f, '|', 1);
    SplitHead(l.serverId, '|');
    if '|' !in l.serverId {
      JoinRoundTrip(f, '|');
      SplitJoin(l.endpoint, '|');
      assert (f[..2] + Split(l.endpoint, '|'))[2..] == Split(l.endpoint, '|');
    }
  }

  method ParsePlayerLocation(value: string) returns (r: Option<Location>)
    ensures r == DecodeLocation(value)
  {
    hide Split, Join, Stoull;
    assert value[0..] == value;
    var first := FindFrom(value, '|', 0);
    CutAt(value, '|', 0, first);
    if first == |value| {
      return None;
    }
    var second := FindFrom(value, '|', first + 1);
    CutAt(value, '|', first + 1, second);
    if second == |value| {
      return None;
    }
    var room := Stoull(value[..first]);
    if room.None? {
      return None;
    }
    SplitJoin(value[second + 1..], '|');
    ghost var f := Split(value, '|');
    assert f[2..] == Split(value[second + 1..], '|');
    r := Some(Location(room.value, value[first + 1..second], value[second + 1..]));
  }

  datatype QueuedPlayer = QueuedPlayer(playerId: int, userId: int, elo: int, enqueued: int)

  predicate PlayerOk(p: QueuedPlayer) {
    U64(p.playerId) && U64(p.userId) && -TWO31 <= p.elo < TWO31 && -TWO63 <= p.enqueued < TWO63
  }

  function EncodeEntry(p: QueuedPlayer): string {
    Join([DecimalInt(p.playerId), DecimalInt(p.userId), DecimalInt(p.elo), DecimalInt(p.enqueued)], '|')
  }

  function DecodeEntry(line: string): Option<QueuedPlayer> {
    var f := Split(line, '|');
    if |f| < 4 then None else
    var p, u, e, t := Stoull(f[0]), Stoull(f[1]), Stoi(f[2]), Stoll(f[3]);
    if p.None? || u.None? || e.None? || t.None? then None
    else Some(QueuedPlayer(p.value, u.value, e.value, t.value))
  }

  lemma EntryRoundTrip(p: QueuedPlayer)
    requires PlayerOk(p)
    ensures DecodeEntry(EncodeEntry(p)) == Some(p)
    ensures '\n' !in EncodeEntry(p) && EncodeEntry(p) != []
  {
    hide Split, Join, DecimalInt, Stoull, Stoi, Stoll;
    NumbersReadBack(p.playerId);
    NumbersReadBack(p.userId);
    NumbersReadBack(p.elo);
    NumbersReadBack(p.enqueued);
    var f := [DecimalInt(p.playerId), DecimalInt(p.userId), DecimalInt(p.elo), DecimalInt(p.enqueued)];
    JoinRoundTrip(f, '|');
    SplitPlain(f[3], '|');
    JoinAvoids(f, '|', '\n');
    JoinNonEmpty(f, '|');
  }

  function EncodeQueue(queue: seq<QueuedPlayer>): string {
    if queue == [] then []
    else Join(seq(|queue|, i requires 0 <= i < |queue| => EncodeEntry(queue[i])), '\n')
  }

  /** Lines that do not decode are skipped. */
  function DecodeLines(lines: seq<string>): seq<QueuedPlayer> {
    if lines == [] then []
    else
      var p := DecodeEntry(lines[0]);
      (if p.Some? then [p.value] else []) + DecodeLines(lines[1..])
  }

  /** decode_queue_value: an empty text holds no line; a final line break opens none. */
  function DecodeQueue(value: string): seq<QueuedPlayer> {
    if value == [] then []
    else
      var lines := Split(value, '\n');
      DecodeLines(if lines[|lines| - 1] == [] then lines[..|lines| - 1] else lines)
  }

  lemma {:induction false} DecodeLinesRoundTrip(queue: seq<QueuedPlayer>, lines: seq<string>)
    requires |lines| == |queue| && forall i :: 0 <= i < |queue| ==> DecodeEntry(lines[i]) == Some(queue[i])
    ensures DecodeLines(lines) == queue
  {
    hide DecodeEntry;
    if queue != [] {
      DecodeLinesRoundTrip(queue[1..], lines[1..]);
      assert [queue[0]] + queue[1..] == queue;
    }
  }

  /** Queues of every length come back, the empty one included. */
  lemma QueueRoundTrip(queue: seq<QueuedPlayer>)
    requires forall i :: 0 <= i < |queue| ==> PlayerOk(queue[i])
    ensures DecodeQueue(EncodeQueue(queue)) == queue
  {
    hide Split, Join, DecodeEntry, EncodeEntry, PlayerOk;
    if queue != [] {
      var lines := seq(|queue|, i requires 0 <= i < |queue| => EncodeEntry(queue[i]));
      forall i | 0 <= i < |queue|
        ensures DecodeEntry(lines[i]) == Some(queue[i]) && '\n' !in lines[i] && lines[i] != []
      {
        EntryRoundTrip(queue[i]);
      }
      JoinRoundTrip(lines, '\n');
      SplitPlain(lines[|lines| - 1], '\n');
      var n := |lines| - 1;
      assert lines[..n] + [lines[n]] == lines;
      JoinNonEmpty(lines, '\n');
      DecodeLinesRoundTrip(queue, lines);
    }
  }

  lemma {:induction false} JoinAvoids(fields: seq<string>, sep: char, ch: char)
    requires |fields| >= 1 && ch != sep && forall i :: 0 <= i < |fields| ==> ch !in fields[i]
    ensures ch !in Join(fields, sep)
  {
    if |fields| > 1 {
      JoinAvoids(fields[1..], sep, ch);
    }
  }

  lemma JoinNonEmpty(fields: seq<string>, sep: char)
    requires |fields| >= 1 && fields[0] != []
    ensures Join(fields, sep) != []
  {
    if |fields| > 1 {
      var rest: string := [sep] + Join(fields[1..], sep);
      assert Join(fields, sep) == fields[0] + rest;
    }
    assert |Join(fields, sep)| >= |fields[0]| > 0;
  }

  method EncodeQueueValue(queue: seq<QueuedPlayer>) returns (encoded: string)
    ensures encoded == EncodeQueue(queue)
  {
    hide EncodeEntry;
    encoded := [];
    ghost var lines := seq(|queue|, i requires 0 <= i < |queue| => EncodeEntry(queue[i]));
    for i := 0 to |queue|
      invariant encoded == if i == 0 then [] else Join(lines[..i], '\n')
    {
      assert lines[..i + 1] == lines[..i] + [lines[i]];
      if i > 0 {
        JoinSnoc(lines[..i], lines[i], '\n');
        encoded := encoded + ['\n'];
      }
      encoded := encoded + EncodeEntry(queue[i]);
    }
    assert lines[..|lines|] == lines;
  }

  lemma {:induction false} JoinSnoc(fields: seq<string>, last: string, sep: char)
    requires |fields| >= 1
    ensures Join(fields + [last], sep) == Join(fields, sep) + [sep] + last
  {
    assert (fields + [last])[1..] == fields[1..] + [last];
    if |fields| > 1 {
      JoinSnoc(fields[1..], last, sep);
    } else {
      assert Join(fields[1..] + [last], sep) == last;
    }
  }

  method DecodeQueueValue(value: string) returns (queue: seq<QueuedPlayer>)
    ensures queue == DecodeQueue(value)
  {
    hide DecodeEntry, DecodeQueue;
    NothingLeft();
    queue := [];
    var start := 0;
    assert value[0..] == value;
    while start < |value|
      invariant start <= |value|
      invariant queue + DecodeQueue(value[start..]) == DecodeQueue(value)
      decreases |value| - start
    {
      var end := FindFrom(value, '\n', start);
      var player := DecodeEntry(value[start..end]);
      QueueStep(value, start, end);
      if player.Some? {
        queue := queue + [player.value];
      }
      if end == |value| {
        return;
      }
      start := end + 1;
    }
    assert value[start..] == [];
  }

  /** One turn of the decoding loop. */
  lemma QueueStep(value: string, start: nat, end: nat)
    requires start <= end <= |value| && start < |value| && '\n' !in value[start..end] && (end < |value| ==> value[end] == '\n')
    ensures DecodeQueue(value[start..]) ==
            (var p := DecodeEntry(value[start..end]); if p.Some? then [p.value] else []) +
            if end < |value| then DecodeQueue(value[end + 1..]) else []
  {
    hide DecodeEntry, Split;
    CutAt(value, '\n', start, end);
    var first := value[start..end];
    if end == |value| {
      assert DecodeLines([first][1..]) == [];
    } else if end + 1 == |value| {
      NothingLeft();
      assert value[end + 1..] == [];
      assert ([first] + [[]])[..1] == [first];
      assert DecodeLines([first][1..]) == [];
    } else {
      var rest := Split(value[end + 1..], '\n');
      var kept := if rest[|rest| - 1] == [] then rest[..|rest| - 1] else rest;
      var all := [first] + rest;
      assert (if all[|all| - 1] == [] then all[..|all| - 1] else all) == [first] + kept;
      assert ([first] + kept)[1..] == kept;
    }
  }

  lemma NothingLeft()
    ensures Split([], '\n') == [[]] && DecodeQueue([]) == []
  {
  }
}
