/** How the client session store folds each server broadcast into its local
    state (src/store/roomStore.ts, `setupSocketListeners`). Every handler is a
    function from the current session and the payload to the next session. */
module RoomEvents {
  import opened GameTypes

  /** The slice of the store that server broadcasts write. */
  datatype Session = Session(
    roomCode: Option<string>,
    isHost: bool,
    players: seq<Player>,
    status: RoomStatus,
    error: Option<string>,
    gameState: Option<GameState>)

  /** The store's initial values for this slice; also the value the delayed
      reset after `game:over` and `leaveRoom` restore. */
  const InitialSession := Session(None, false, [], Waiting, None, None)

  const InvalidCreated := "Invalid room creation response"
  const InvalidJoined := "Invalid room join response"
  const InvalidUpdated := "Invalid room update response"
  const InvalidStarted := "Invalid game start response"

  // ---------------------------------------------------------------------
  // Player lists

  /** Everything about a player except the two game statistics. */
  predicate SamePerson(p: Player, q: Player) {
    && p.id == q.id && p.nickname == q.nickname && p.isHost == q.isHost
    && p.isReady == q.isReady && p.joinedAt == q.joinedAt
  }

  /** A room member as the store keeps it: the wire fields, score 0. */
  predicate FreshFromWire(p: Player, w: WirePlayer) {
    && p.id == w.id && p.nickname == w.nickname && p.isHost == w.isHost
    && p.isReady == w.isReady && p.joinedAt == w.joinedAt
    && p.score == 0 && p.matchesFound == 0
  }

  function FromWire(w: WirePlayer): Player {
    Player(w.id, w.nickname, 0, 0, w.isHost, w.isReady, w.joinedAt)
  }

  /** `Object.values(players).map(...)` of the room handlers. */
  function ConvertPlayers(ws: seq<WirePlayer>): seq<Player> {
    if ws == [] then [] else [FromWire(ws[0])] + ConvertPlayers(ws[1..])
  }

  lemma {:induction false} ConvertPlayersSpec(ws: seq<WirePlayer>)
    ensures |ConvertPlayers(ws)| == |ws|
    ensures forall i :: 0 <= i < |ws| ==> FreshFromWire(ConvertPlayers(ws)[i], ws[i])
  {
    if ws != [] {
      ConvertPlayersSpec(ws[1..]);
      assert forall i :: 1 <= i < |ws| ==> ConvertPlayers(ws)[i] == ConvertPlayers(ws[1..])[i - 1];
    }
  }

  /** The `players` a room payload installs: absent means none. */
  function RoomPlayers(players: Option<Record<WirePlayer>>): seq<Player> {
    ConvertPlayers(Values(players.GetOr([])))
  }

  /** `players.map(p => ({...p, score: 0, matchesFound: 0}))` of `game:started`. */
  function ResetScores(ps: seq<Player>): seq<Player> {
    if ps == [] then [] else [ps[0].(score := 0, matchesFound := 0)] + ResetScores(ps[1..])
  }

  lemma {:induction false} ResetScoresSpec(ps: seq<Player>)
    ensures |ResetScores(ps)| == |ps|
    ensures forall i :: 0 <= i < |ps| ==>
      SamePerson(ResetScores(ps)[i], ps[i]) && ResetScores(ps)[i].score == 0 && ResetScores(ps)[i].matchesFound == 0
  {
    if ps != [] {
      ResetScoresSpec(ps[1..]);
      assert forall i :: 1 <= i < |ps| ==> ResetScores(ps)[i] == ResetScores(ps[1..])[i - 1];
    }
  }

  /** The score merge of `cardFlipped`, `match`, `noMatch` and `turnChanged`:
      a player listed in the snapshot's `players` takes its statistics. */
  function MergeScores(ps: seq<Player>, stats: Record<Player>): seq<Player> {
    if ps == [] then []
    else
      var p := ps[0];
      var merged := match Lookup(stats, p.id)
        case Some(u) => p.(score := u.score, matchesFound := u.matchesFound)
        case None => p;
      [merged] + MergeScores(ps[1..], stats)
  }

  lemma {:induction false} MergeScoresSpec(ps: seq<Player>, stats: Record<Player>)
    ensures |MergeScores(ps, stats)| == |ps|
    ensures forall i :: 0 <= i < |ps| ==> SamePerson(MergeScores(ps, stats)[i], ps[i])
    ensures forall i :: 0 <= i < |ps| && Lookup(stats, ps[i].id).Some? ==>
      && MergeScores(ps, stats)[i].score == Lookup(stats, ps[i].id).value.score
      && MergeScores(ps, stats)[i].matchesFound == Lookup(stats, ps[i].id).value.matchesFound
    ensures forall i :: 0 <= i < |ps| && Lookup(stats, ps[i].id).None? ==> MergeScores(ps, stats)[i] == ps[i]
  {
    if ps != [] {
      MergeScoresSpec(ps[1..], stats);
      assert forall i :: 1 <= i < |ps| ==> MergeScores(ps, stats)[i] == MergeScores(ps[1..], stats)[i - 1];
    }
  }

  /** Merging the same statistics twice is merging them once. */
  lemma {:induction false} MergeScoresIdempotent(ps: seq<Player>, stats: Record<Player>)
    ensures MergeScores(MergeScores(ps, stats), stats) == MergeScores(ps, stats)
  {
    if ps != [] {
      MergeScoresIdempotent(ps[1..], stats);
    }
  }

  /** `players.filter(p => p.id !== id)` of `player:left`. */
  function RemovePlayer(ps: seq<Player>, id: string): seq<Player> {
    if ps == [] then []
    else if ps[0].id == id then RemovePlayer(ps[1..], id)
    else [ps[0]] + RemovePlayer(ps[1..], id)
  }

  /** Number of players with the given id. */
  function CountId(ps: seq<Player>, id: string): nat {
    if ps == [] then 0 else (if ps[0].id == id then 1 else 0) + CountId(ps[1..], id)
  }

  lemma {:induction false} RemovePlayerSpec(ps: seq<Player>, id: string)
    ensures forall p :: p in RemovePlayer(ps, id) ==> p in ps && p.id != id
    ensures forall p :: p in ps && p.id != id ==> p in RemovePlayer(ps, id)
    ensures |RemovePlayer(ps, id)| == |ps| - CountId(ps, id)
  {
    if ps != [] {
      RemovePlayerSpec(ps[1..], id);
    }
  }

  /** Filtering keeps order: it distributes over concatenation. */
  lemma {:induction false} RemovePlayerKeepsOrder(a: seq<Player>, b: seq<Player>, id: string)
    ensures RemovePlayer(a + b, id) == RemovePlayer(a, id) + RemovePlayer(b, id)
  {
    if a != [] {
      assert (a + b)[1..] == a[1..] + b;
      RemovePlayerKeepsOrder(a[1..], b, id);
    } else {
      assert a + b == b;
    }
  }

  /** A list without the id is kept as it is. */
  lemma {:induction false} RemoveAbsentPlayer(ps: seq<Player>, id: string)
    requires forall p :: p in ps ==> p.id != id
    ensures RemovePlayer(ps, id) == ps
  {
    if ps != [] {
      assert ps[0] in ps;
      assert forall p :: p in ps[1..] ==> p in ps;
      RemoveAbsentPlayer(ps[1..], id);
      assert [ps[0]] + ps[1..] == ps;
    }
  }

  // ---------------------------------------------------------------------
  // Cards

  /** Everything about a card except whether and by whom it is flipped. */
  predicate SameFace(c: Card, d: Card) {
    && c.id == d.id && c.content == d.content && c.difficulty == d.difficulty
    && c.isMatched == d.isMatched && c.matchingCardId == d.matchingCardId
    && c.position == d.position && c.cardType == d.cardType
  }

  /** The card patch of `game:cardFlipped`, applied to the LOCAL cards. */
  function PatchCards(cs: seq<Card>, cardId: string, flipper: string): seq<Card> {
    if cs == [] then []
    else
      var c := cs[0];
      [if c.id == cardId then c.(isFlipped := true, flippedBy := Some(flipper)) else c]
        + PatchCards(cs[1..], cardId, flipper)
  }

  lemma {:induction false} PatchCardsSpec(cs: seq<Card>, cardId: string, flipper: string)
    ensures |PatchCards(cs, cardId, flipper)| == |cs|
    ensures forall i :: 0 <= i < |cs| && cs[i].id == cardId ==>
      && SameFace(PatchCards(cs, cardId, flipper)[i], cs[i])
      && PatchCards(cs, cardId, flipper)[i].isFlipped
      && PatchCards(cs, cardId, flipper)[i].flippedBy == Some(flipper)
    ensures forall i :: 0 <= i < |cs| && cs[i].id != cardId ==> PatchCards(cs, cardId, flipper)[i] == cs[i]
  {
    if cs != [] {
      PatchCardsSpec(cs[1..], cardId, flipper);
      assert forall i :: 1 <= i < |cs| ==> PatchCards(cs, cardId, flipper)[i] == PatchCards(cs[1..], cardId, flipper)[i - 1];
    }
  }

  // ---------------------------------------------------------------------
  // Decimal rendering of the clock, for the fallback host id `host-<now>`

  function Digit(d: nat): char
    requires d < 10
  {
    ('0' as int + d) as char
  }

  /** The number a string of decimal digits stands for, read left to right. */
  function DecimalValue(s: string): int {
    if s == [] then 0 else DecimalValue(s[..|s| - 1]) * 10 + (s[|s| - 1] as int - '0' as int)
  }

  function DecimalString(n: nat): (s: string)
    ensures |s| >= 1
    ensures forall i :: 0 <= i < |s| ==> '0' <= s[i] <= '9'
    decreases n
  {
    if n < 10 then [Digit(n)] else DecimalString(n / 10) + [Digit(n % 10)]
  }

  /** Reading back the digits of `DecimalString` gives the number. */
  lemma {:induction false} DecimalRoundTrip(n: nat)
    ensures DecimalValue(DecimalString(n)) == n
    decreases n
  {
    if n >= 10 {
      var s := DecimalString(n);
      DecimalRoundTrip(n / 10);
      assert s[..|s| - 1] == DecimalString(n / 10);
    }
  }

  /** The host player built when `room:created` carries no `players`. */
  function HostPlayer(host: Option<HostInfo>, now: nat): Player {
    var id := if host.Some? && Present(host.value.id) then host.value.id.value
              else "host-" + DecimalString(now);
    var nickname := if host.Some? && Present(host.value.nickname) then host.value.nickname.value
                    else "Host";
    Player(id, nickname, 0, 0, true, false, now)
  }

  // ---------------------------------------------------------------------
  // The handlers

  /** `room:created` (also the one-shot listener armed by `createRoom`). */
  function OnRoomCreated(s: Session, d: RoomCreatedData, now: nat): Session {
    if !Present(d.roomCode) then s.(error := Some(InvalidCreated))
    else
      var players := if d.players.Some? then ConvertPlayers(Values(d.players.value))
                     else [HostPlayer(d.host, now)];
      s.(roomCode := d.roomCode, isHost := true, players := players, status := Waiting, error := None)
  }

  /** `room:joined`. It does not clear `error`. */
  function OnRoomJoined(s: Session, d: RoomJoinedData): Session {
    if !Present(d.roomCode) then s.(error := Some(InvalidJoined))
    else s.(roomCode := d.roomCode, isHost := false, players := RoomPlayers(d.players),
            status := d.status.GetOr(Waiting))
  }

  /** `room:updated`: membership and status only. */
  function OnRoomUpdated(s: Session, d: RoomUpdatedData): Session {
    if !Present(d.roomCode) then s.(error := Some(InvalidUpdated))
    else s.(players := RoomPlayers(d.players), status := d.status.GetOr(Waiting))
  }

  /** `game:started`. */
  function OnGameStarted(s: Session, g: GameState): Session {
    if g.gameId == "" then s.(error := Some(InvalidStarted))
    else s.(status := Playing, gameState := Some(g), error := None, players := ResetScores(s.players))
  }

  /** The snapshot `game:cardFlipped` installs: the payload's game with the
      local cards, one of them patched. */
  function FlippedSnapshot(local: GameState, d: CardFlippedData): GameState {
    d.gameState.(cards := PatchCards(local.cards, d.cardId, d.playerId))
  }

  /** `game:cardFlipped`, global listener. */
  function OnCardFlipped(s: Session, d: CardFlippedData): Session {
    if s.gameState.None? then s
    else s.(gameState := Some(FlippedSnapshot(s.gameState.value, d)),
            players := MergeScores(s.players, d.gameState.players))
  }

  /** `game:cardFlipped`, one-shot listener armed by `flipCard`: as the global
      one, and it also copies `timeLeft` into `turnTimeLeft`. */
  function OnCardFlippedOnce(s: Session, d: CardFlippedData): Session {
    if s.gameState.None? then s
    else s.(gameState := Some(FlippedSnapshot(s.gameState.value, d).(turnTimeLeft := d.timeLeft)),
            players := MergeScores(s.players, d.gameState.players))
  }

  /** `game:match`, `game:noMatch` and `game:turnChanged`: install the
      snapshot and merge its statistics. */
  function OnSnapshot(s: Session, g: GameState): Session {
    s.(gameState := Some(g), players := MergeScores(s.players, g.players))
  }

  /** `game:over`, immediate part. */
  function OnGameOver(s: Session, d: GameOverData): Session {
    s.(gameState := Some(d.gameState.(winners := Some(d.winners), isTie := Some(d.isTie),
                                       gameOverMessage := Some(d.message))))
  }

  /** `game:over`, the reset scheduled 5 seconds later. */
  function GameOverReset(s: Session): Session {
    s.(gameState := None, status := Waiting, roomCode := None, isHost := false, players := [], error := None)
  }

  /** `player:joined`: appended without deduplication. */
  function OnPlayerJoined(s: Session, p: JoinedPlayer, now: nat): Session {
    s.(players := s.players + [Player(p.id, p.nickname, 0, 0, false, false, now)])
  }

  /** `player:left`. */
  function OnPlayerLeft(s: Session, id: string): Session {
    s.(players := RemovePlayer(s.players, id))
  }

  /** The transport's `error` event. */
  function OnSocketError(s: Session, message: Option<string>): Session {
    s.(error := message)
  }

  /** What the listeners registered at start-up do with an event. Nothing is
      registered for `game:error` there. */
  function Apply(s: Session, e: ServerEvent, now: nat): Session {
    match e
    case RoomCreated(d) => OnRoomCreated(s, d, now)
    case RoomJoined(d) => OnRoomJoined(s, d)
    case RoomUpdated(d) => OnRoomUpdated(s, d)
    case GameStarted(g) => OnGameStarted(s, g)
    case CardFlipped(d) => OnCardFlipped(s, d)
    case Match(d) => OnSnapshot(s, d.gameState)
    case NoMatch(d) => OnSnapshot(s, d.gameState)
    case TurnChanged(d) => OnSnapshot(s, d.gameState)
    case GameOver(d) => OnGameOver(s, d)
    case PlayerJoined(p) => OnPlayerJoined(s, p, now)
    case PlayerLeft(id) => OnPlayerLeft(s, id)
    case SocketError(m) => OnSocketError(s, m)
    case GameError(_) => s
  }

  // ---------------------------------------------------------------------
  // Properties of the handlers

  lemma RoomCreatedSpec(s: Session, d: RoomCreatedData, now: nat)
    ensures !Present(d.roomCode) ==> OnRoomCreated(s, d, now) == s.(error := Some(InvalidCreated))
    ensures Present(d.roomCode) ==>
      var r := OnRoomCreated(s, d, now);
      && r.roomCode == d.roomCode && r.isHost && r.status == Waiting && r.error == None
      && r.gameState == s.gameState
      && (d.players.Some? ==>
            |r.players| == |d.players.value|
            && forall i :: 0 <= i < |r.players| ==> FreshFromWire(r.players[i], d.players.value[i].value))
      && (d.players.None? ==> r.players == [HostPlayer(d.host, now)])
  {
    if Present(d.roomCode) && d.players.Some? {
      ConvertPlayersSpec(Values(d.players.value));
    }
  }

  /** The host player takes the payload's host id and nickname when they are
      non-empty, and is otherwise a fresh host with the fallback values; it
      joined now, is host, not ready, and has no score. */
  lemma HostPlayerSpec(host: Option<HostInfo>, now: nat)
    ensures var p := HostPlayer(host, now);
      && p.isHost && !p.isReady && p.score == 0 && p.matchesFound == 0 && p.joinedAt == now
      && (host.Some? && Present(host.value.id) ==> p.id == host.value.id.value)
      && (!(host.Some? && Present(host.value.id)) ==> p.id == "host-" + DecimalString(now))
      && (host.Some? && Present(host.value.nickname) ==> p.nickname == host.value.nickname.value)
      && (!(host.Some? && Present(host.value.nickname)) ==> p.nickname == "Host")
  {
  }

  /** Without host data the host player is named "Host" and its id is
      "host-" followed by digits whose decimal value is the clock. */
  lemma HostFallback(now: nat)
    ensures HostPlayer(None, now).nickname == "Host"
    ensures var id := HostPlayer(None, now).id;
      && |id| > 5 && id[..5] == "host-"
      && (forall i :: 5 <= i < |id| ==> '0' <= id[i] <= '9')
      && DecimalValue(id[5..]) == now
  {
    var id := HostPlayer(None, now).id;
    assert id[5..] == DecimalString(now);
    DecimalRoundTrip(now);
  }

  lemma RoomJoinedSpec(s: Session, d: RoomJoinedData)
    ensures !Present(d.roomCode) ==> OnRoomJoined(s, d) == s.(error := Some(InvalidJoined))
    ensures Present(d.roomCode) ==>
      var r := OnRoomJoined(s, d);
      && r.roomCode == d.roomCode && !r.isHost && r.error == s.error && r.gameState == s.gameState
      && r.status == (if d.status.Some? then d.status.value else Waiting)
      && |r.players| == |d.players.GetOr([])|
      && forall i :: 0 <= i < |r.players| ==> FreshFromWire(r.players[i], d.players.GetOr([])[i].value)
  {
    ConvertPlayersSpec(Values(d.players.GetOr([])));
  }

  lemma RoomUpdatedSpec(s: Session, d: RoomUpdatedData)
    ensures !Present(d.roomCode) ==> OnRoomUpdated(s, d) == s.(error := Some(InvalidUpdated))
    ensures Present(d.roomCode) ==>
      var r := OnRoomUpdated(s, d);
      && r.roomCode == s.roomCode && r.isHost == s.isHost && r.gameState == s.gameState && r.error == s.error
      && r.status == (if d.status.Some? then d.status.value else Waiting)
      && |r.players| == |d.players.GetOr([])|
      && forall i :: 0 <= i < |r.players| ==> FreshFromWire(r.players[i], d.players.GetOr([])[i].value)
  {
    ConvertPlayersSpec(Values(d.players.GetOr([])));
  }

  /** Applying the same `room:updated` twice is applying it once. */
  lemma RoomUpdatedIdempotent(s: Session, d: RoomUpdatedData)
    ensures OnRoomUpdated(OnRoomUpdated(s, d), d) == OnRoomUpdated(s, d)
  {
  }

  /** `room:updated` replaces the member list wholesale: the earlier list
      does not matter. */
  lemma RoomUpdatedForgetsOldPlayers(s: Session, t: Session, d: RoomUpdatedData)
    requires Present(d.roomCode)
    ensures OnRoomUpdated(s, d).players == OnRoomUpdated(t, d).players
    ensures OnRoomUpdated(s, d).status == OnRoomUpdated(t, d).status
  {
  }

  lemma GameStartedSpec(s: Session, g: GameState)
    ensures g.gameId == "" ==> OnGameStarted(s, g) == s.(error := Some(InvalidStarted))
    ensures g.gameId != "" ==>
      var r := OnGameStarted(s, g);
      && r.status == Playing && r.gameState == Some(g) && r.error == None
      && r.roomCode == s.roomCode && r.isHost == s.isHost
      && |r.players| == |s.players|
      && forall i :: 0 <= i < |s.players| ==>
           SamePerson(r.players[i], s.players[i]) && r.players[i].score == 0 && r.players[i].matchesFound == 0
  {
    ResetScoresSpec(s.players);
  }

  lemma {:induction false} ResetScoresIdempotent(ps: seq<Player>)
    ensures ResetScores(ResetScores(ps)) == ResetScores(ps)
  {
    if ps != [] {
      ResetScoresIdempotent(ps[1..]);
    }
  }

  /** A repeated `game:started` changes nothing more. */
  lemma GameStartedIdempotent(s: Session, g: GameState)
    ensures OnGameStarted(OnGameStarted(s, g), g) == OnGameStarted(s, g)
  {
    ResetScoresIdempotent(s.players);
  }

  lemma CardFlippedSpec(s: Session, d: CardFlippedData)
    ensures s.gameState.None? ==> OnCardFlipped(s, d) == s
    ensures s.gameState.Some? ==>
      var r := OnCardFlipped(s, d);
      var local := s.gameState.value.cards;
      && r.roomCode == s.roomCode && r.isHost == s.isHost && r.status == s.status && r.error == s.error
      && r.gameState.Some?
      && r.gameState.value.(cards := d.gameState.cards) == d.gameState
      && |r.gameState.value.cards| == |local|
      && (forall i :: 0 <= i < |local| && local[i].id == d.cardId ==>
            && SameFace(r.gameState.value.cards[i], local[i])
            && r.gameState.value.cards[i].isFlipped
            && r.gameState.value.cards[i].flippedBy == Some(d.playerId))
      && (forall i :: 0 <= i < |local| && local[i].id != d.cardId ==> r.gameState.value.cards[i] == local[i])
      && r.players == MergeScores(s.players, d.gameState.players)
  {
    if s.gameState.Some? {
      PatchCardsSpec(s.gameState.value.cards, d.cardId, d.playerId);
    }
  }

  /** The cards after `game:cardFlipped` are the local cards, not the
      payload's: a payload listing other cards does not replace them. */
  lemma CardFlippedKeepsLocalCards(s: Session, d: CardFlippedData)
    requires s.gameState.Some?
    ensures var cs := OnCardFlipped(s, d).gameState.value.cards;
      |cs| == |s.gameState.value.cards|
      && forall i :: 0 <= i < |cs| ==> cs[i].id == s.gameState.value.cards[i].id
  {
    PatchCardsSpec(s.gameState.value.cards, d.cardId, d.playerId);
  }

  /** The global listener keeps the payload's `turnTimeLeft`; the one-shot
      listener of `flipCard` takes `timeLeft` instead and otherwise agrees. */
  lemma CardFlippedListenersDiffer(s: Session, d: CardFlippedData)
    requires s.gameState.Some?
    ensures OnCardFlipped(s, d).gameState.value.turnTimeLeft == d.gameState.turnTimeLeft
    ensures OnCardFlippedOnce(s, d).gameState.value.turnTimeLeft == d.timeLeft
    ensures OnCardFlippedOnce(s, d) ==
      OnCardFlipped(s, d).(gameState := Some(OnCardFlipped(s, d).gameState.value.(turnTimeLeft := d.timeLeft)))
  {
  }

  lemma {:induction false} PatchCardsIdempotent(cs: seq<Card>, cardId: string, flipper: string)
    ensures PatchCards(PatchCards(cs, cardId, flipper), cardId, flipper) == PatchCards(cs, cardId, flipper)
  {
    if cs != [] {
      PatchCardsIdempotent(cs[1..], cardId, flipper);
    }
  }

  /** A duplicated `game:cardFlipped` changes nothing more. */
  lemma CardFlippedIdempotent(s: Session, d: CardFlippedData)
    ensures OnCardFlipped(OnCardFlipped(s, d), d) == OnCardFlipped(s, d)
  {
    if s.gameState.Some? {
      PatchCardsIdempotent(s.gameState.value.cards, d.cardId, d.playerId);
      MergeScoresIdempotent(s.players, d.gameState.players);
    }
  }

  lemma SnapshotSpec(s: Session, g: GameState)
    ensures var r := OnSnapshot(s, g);
      && r.gameState == Some(g)
      && r.roomCode == s.roomCode && r.isHost == s.isHost && r.status == s.status && r.error == s.error
      && |r.players| == |s.players|
      && (forall i :: 0 <= i < |s.players| ==> SamePerson(r.players[i], s.players[i]))
      && (forall i :: 0 <= i < |s.players| && Lookup(g.players, s.players[i].id).Some? ==>
            && r.players[i].score == Lookup(g.players, s.players[i].id).value.score
            && r.players[i].matchesFound == Lookup(g.players, s.players[i].id).value.matchesFound)
      && (forall i :: 0 <= i < |s.players| && Lookup(g.players, s.players[i].id).None? ==>
            r.players[i] == s.players[i])
  {
    MergeScoresSpec(s.players, g.players);
  }

  lemma SnapshotIdempotent(s: Session, g: GameState)
    ensures OnSnapshot(OnSnapshot(s, g), g) == OnSnapshot(s, g)
  {
    MergeScoresIdempotent(s.players, g.players);
  }

  lemma GameOverSpec(s: Session, d: GameOverData)
    ensures var r := OnGameOver(s, d);
      && r.(gameState := s.gameState) == s
      && r.gameState.Some?
      && r.gameState.value.winners == Some(d.winners)
      && r.gameState.value.isTie == Some(d.isTie)
      && r.gameState.value.gameOverMessage == Some(d.message)
      && r.gameState.value.(winners := d.gameState.winners, isTie := d.gameState.isTie,
                            gameOverMessage := d.gameState.gameOverMessage) == d.gameState
  {
  }

  /** Five seconds after `game:over` the slice is back at its initial values,
      whatever it held. */
  lemma GameOverResetSpec(s: Session)
    ensures GameOverReset(s) == InitialSession
  {
  }

  lemma PlayerJoinedSpec(s: Session, p: JoinedPlayer, now: nat)
    ensures var r := OnPlayerJoined(s, p, now);
      && r.(players := s.players) == s
      && |r.players| == |s.players| + 1
      && r.players[..|s.players|] == s.players
      && var q := r.players[|s.players|];
         q.id == p.id && q.nickname == p.nickname && !q.isHost && !q.isReady
         && q.score == 0 && q.matchesFound == 0 && q.joinedAt == now
  {
  }

  /** No deduplication: a player announced twice is listed twice. */
  lemma {:induction false} CountIdAppend(ps: seq<Player>, q: Player)
    ensures CountId(ps + [q], q.id) == CountId(ps, q.id) + 1
  {
    if ps != [] {
      assert (ps + [q])[1..] == ps[1..] + [q];
      CountIdAppend(ps[1..], q);
    } else {
      assert ps + [q] == [q];
    }
  }

  lemma PlayerJoinedTwice(s: Session, p: JoinedPlayer, now: nat)
    ensures var r := OnPlayerJoined(OnPlayerJoined(s, p, now), p, now);
      CountId(r.players, p.id) == CountId(s.players, p.id) + 2
  {
    var q := Player(p.id, p.nickname, 0, 0, false, false, now);
    CountIdAppend(s.players, q);
    CountIdAppend(s.players + [q], q);
  }

  lemma PlayerLeftSpec(s: Session, id: string)
    ensures var r := OnPlayerLeft(s, id);
      && r.(players := s.players) == s
      && (forall p :: p in r.players ==> p in s.players && p.id != id)
      && (forall p :: p in s.players && p.id != id ==> p in r.players)
      && |r.players| == |s.players| - CountId(s.players, id)
  {
    RemovePlayerSpec(s.players, id);
  }

  lemma {:induction false} RemovePlayerIdempotent(ps: seq<Player>, id: string)
    ensures RemovePlayer(RemovePlayer(ps, id), id) == RemovePlayer(ps, id)
  {
    RemovePlayerSpec(ps, id);
    RemoveAbsentPlayer(RemovePlayer(ps, id), id);
  }

  /** The transport's `error` event sets `error` to the message (nothing
      when the message is missing) and changes nothing else. */
  lemma SocketErrorSpec(s: Session, message: Option<string>)
    ensures OnSocketError(s, message).error == message
    ensures OnSocketError(s, message).(error := s.error) == s
  {
  }

  /** Only `room:created` and `room:joined` change the room code or the host
      flag; every other broadcast leaves both as they were. */
  lemma OnlyRoomEventsSetIdentity(s: Session, e: ServerEvent, now: nat)
    requires !e.RoomCreated? && !e.RoomJoined?
    ensures Apply(s, e, now).roomCode == s.roomCode
    ensures Apply(s, e, now).isHost == s.isHost
  {
  }
}
