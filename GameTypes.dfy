/** Values exchanged between the game client and the server: the shared game
    records (`Card`, `Player`, `GameState`) and the payloads of the server's
    broadcasts. A JavaScript object used as a dictionary (`Record<string, V>`)
    is an association list in its enumeration order, so `Object.values` and
    keyed lookup can both be stated. */
module GameTypes {

  datatype Option<+T> = None | Some(value: T) {
    function GetOr(default: T): T {
      match this
      case Some(v) => v
      case None => default
    }
  }

  /** JavaScript truthiness of an optional string: absent and "" are falsy. */
  predicate Present(s: Option<string>) {
    s.Some? && s.value != ""
  }

  // ---------------------------------------------------------------------
  // Dictionaries keyed by string (JavaScript objects)

  datatype Entry<V> = Entry(key: string, value: V)

  type Record<V> = seq<Entry<V>>

  /** `Object.values(r)`: the values in enumeration order. */
  function Values<V>(r: Record<V>): (vs: seq<V>)
    ensures |vs| == |r|
    ensures forall i :: 0 <= i < |r| ==> vs[i] == r[i].value
  {
    if r == [] then [] else [r[0].value] + Values(r[1..])
  }

  /** `r[k]`: the value stored under key `k`, if any. */
  function Lookup<V>(r: Record<V>, k: string): (v: Option<V>)
    ensures v.None? <==> forall i :: 0 <= i < |r| ==> r[i].key != k
    ensures v.Some? ==> exists i :: 0 <= i < |r| && r[i] == Entry(k, v.value)
  {
    if r == [] then None
    else if r[0].key == k then Some(r[0].value)
    else Lookup(r[1..], k)
  }

  // ---------------------------------------------------------------------
  // src/types/game.ts

  datatype CardType = Bug | Solution
  datatype Difficulty = Easy | Medium | Hard
  datatype GameStatus = GameWaiting | GamePlaying | GameFinished

  datatype Card = Card(
    id: string,
    content: string,
    difficulty: Difficulty,
    isFlipped: bool,
    isMatched: bool,
    matchingCardId: string,
    position: int,
    cardType: CardType,
    flippedBy: Option<string>)

  datatype Player = Player(
    id: string,
    nickname: string,
    score: int,
    matchesFound: int,
    isHost: bool,
    isReady: bool,
    joinedAt: int)

  datatype Winner = Winner(id: string, nickname: string, score: int)

  /** A game snapshot. `flippedCards` and `matchedCards` are optional because
      the board treats a missing list as empty. A missing `gameId` is "". */
  datatype GameState = GameState(
    gameId: string,
    cards: seq<Card>,
    currentPlayerId: Option<string>,
    currentTurn: string,
    flippedCards: Option<seq<string>>,
    matchedCards: Option<seq<string>>,
    turnTimeLeft: int,
    status: GameStatus,
    createdAt: int,
    startedAt: Option<int>,
    endedAt: Option<int>,
    winnerId: Option<string>,
    players: Record<Player>,
    winners: Option<seq<Winner>>,
    isTie: Option<bool>,
    gameOverMessage: Option<string>)

  // ---------------------------------------------------------------------
  // src/types/socket.ts

  datatype RoomStatus = Waiting | Ready | Playing

  /** A room member as the server sends it: no score fields. */
  datatype WirePlayer = WirePlayer(
    id: string,
    nickname: string,
    isReady: bool,
    isHost: bool,
    joinedAt: int)

  /** The optional `host` of `room:created`; both fields may be missing. */
  datatype HostInfo = HostInfo(id: Option<string>, nickname: Option<string>)

  datatype RoomCreatedData = RoomCreatedData(
    roomCode: Option<string>,
    host: Option<HostInfo>,
    players: Option<Record<WirePlayer>>)

  datatype RoomJoinedData = RoomJoinedData(
    roomCode: Option<string>,
    players: Option<Record<WirePlayer>>,
    status: Option<RoomStatus>)

  datatype RoomUpdatedData = RoomUpdatedData(
    roomCode: Option<string>,
    players: Option<Record<WirePlayer>>,
    status: Option<RoomStatus>,
    maxPlayers: int,
    currentPlayers: int)

  datatype CardFlippedData = CardFlippedData(
    gameState: GameState, cardId: string, playerId: string, timeLeft: int)

  datatype MatchData = MatchData(
    gameState: GameState, playerId: string, matchedCards: (string, string), message: string)

  datatype NoMatchData = NoMatchData(
    gameState: GameState, playerId: string, cards: (string, string), message: string)

  datatype CurrentPlayer = CurrentPlayer(id: string, nickname: string)

  datatype TurnChangedData = TurnChangedData(
    gameState: GameState, currentPlayer: CurrentPlayer, message: string)

  datatype GameOverData = GameOverData(
    gameState: GameState, winners: seq<Winner>, isTie: bool, message: string)

  /** `player:joined` carries a room member; only its id and nickname are read. */
  datatype JoinedPlayer = JoinedPlayer(id: string, nickname: string)

  /** Server-to-client events the store listens to. `SocketError` is the
      transport-level `error` event; `GameError` is `game:error`. */
  datatype ServerEvent =
    | RoomCreated(created: RoomCreatedData)
    | RoomJoined(joined: RoomJoinedData)
    | RoomUpdated(updated: RoomUpdatedData)
    | GameStarted(game: GameState)
    | CardFlipped(flipped: CardFlippedData)
    | Match(matched: MatchData)
    | NoMatch(noMatch: NoMatchData)
    | TurnChanged(turnChanged: TurnChangedData)
    | GameOver(over: GameOverData)
    | PlayerJoined(newcomer: JoinedPlayer)
    | PlayerLeft(leaverId: string)
    | SocketError(errorMessage: Option<string>)
    | GameError(gameErrorMessage: string)

  /** Client-to-server intents, as emitted. */
  datatype Intent =
    | CreateRoomIntent(nickname: string)
    | JoinRoomIntent(roomCode: string, nickname: string)
    | StartGameIntent(roomCode: string)
    | FlipCardIntent(gameId: string, roomCode: string, cardId: string)
}
