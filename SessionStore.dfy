/** The client session store of src/store/roomStore.ts as a whole: the
    broadcast slice of RoomEvents plus the store's private bookkeeping, the
    intents it emits, and which listener is armed for the events whose
    listeners `createRoom` and `flipCard` replace. Each action is specified
    by a step function on the whole state; the class `RoomStore` performs the
    same actions by updating its fields. */
module SessionStore {
  import opened GameTypes
  import opened RoomEvents

  /** Milliseconds `createRoom` waits after the previous creation. */
  const CreateCooldown := 2000
  /** Milliseconds a stored room snapshot stays usable. */
  const RestoreWindow := 5 * 60 * 1000
  const LostConnection := "Lost connection to server. Reconnecting..."

  /** Who handles `room:created` or `game:cardFlipped`: the listener
      registered at start-up, a one-shot listener registered by an action
      after it removed every other listener, or nobody once that one fired. */
  datatype Listener = Global | OneShot | Detached

  /** The store's private fields, the armed listeners and the emitted intents. */
  datatype Internals = Internals(
    isLeaving: bool,
    lastCreateTime: int,
    turnTimer: Option<nat>,
    flippedCardId: Option<string>,
    roomCreatedListener: Listener,
    cardFlippedListener: Listener,
    flipErrorArmed: bool,
    outbox: seq<Intent>)

  datatype StoreState = StoreState(session: Session, internals: Internals)

  const InitialInternals := Internals(false, 0, None, None, Global, Global, false, [])
  const InitialStore := StoreState(InitialSession, InitialInternals)

  // ---------------------------------------------------------------------
  // Actions as step functions

  function Emit(st: StoreState, intent: Intent): StoreState {
    st.(internals := st.internals.(outbox := st.internals.outbox + [intent]))
  }

  /** The two guards of `createRoom`: not already in (or creating) a room,
      and not within the cooldown. */
  predicate MayCreate(st: StoreState, now: int) {
    && !(Present(st.session.roomCode) || st.session.isHost)
    && !(now - st.internals.lastCreateTime < CreateCooldown)
  }

  function CreateRoomStep(st: StoreState, nickname: string, now: int): StoreState {
    if !MayCreate(st, now) then st
    else
      var armed := st.(session := st.session.(isHost := true, status := Waiting, error := None),
                       internals := st.internals.(lastCreateTime := now, roomCreatedListener := OneShot));
      Emit(armed, CreateRoomIntent(nickname))
  }

  function JoinRoomStep(st: StoreState, roomCode: string, nickname: string): StoreState {
    Emit(st.(session := st.session.(roomCode := Some(roomCode), isHost := false)),
         JoinRoomIntent(roomCode, nickname))
  }

  /** `leaveRoom` acts unless a leave is in progress or there is no room. */
  predicate MayLeave(st: StoreState) {
    !st.internals.isLeaving && (Present(st.session.roomCode) || st.session.isHost)
  }

  function LeaveRoomStep(st: StoreState): StoreState {
    if !MayLeave(st) then st
    else StoreState(InitialSession, st.internals.(isLeaving := false, lastCreateTime := 0))
  }

  function StartGameStep(st: StoreState, connected: bool): StoreState {
    if !connected then st.(session := st.session.(error := Some(LostConnection)))
    else if !st.session.isHost || !Present(st.session.roomCode) then st
    else Emit(st, StartGameIntent(st.session.roomCode.value))
  }

  /** `flipCard` needs a game with an id and a room code. */
  predicate MayFlip(st: StoreState) {
    && st.session.gameState.Some? && st.session.gameState.value.gameId != ""
    && Present(st.session.roomCode)
  }

  function FlipCardStep(st: StoreState, cardId: string): StoreState {
    if !MayFlip(st) then st
    else
      var first := if Present(st.internals.flippedCardId) then st.internals.flippedCardId else Some(cardId);
      var armed := st.(internals := st.internals.(flippedCardId := first, cardFlippedListener := OneShot,
                                                  flipErrorArmed := true));
      Emit(armed, FlipCardIntent(st.session.gameState.value.gameId, st.session.roomCode.value, cardId))
  }

  /** `setPlayers`; `None` stands for an argument that is not an array. */
  function SetPlayersStep(st: StoreState, players: Option<seq<Player>>): StoreState {
    st.(session := st.session.(players := if players.Some? then players.value else []))
  }

  /** One inbound event, handled by whichever listener is armed for it. */
  function ReceiveStep(st: StoreState, e: ServerEvent, now: nat): StoreState {
    match e
    case RoomCreated(d) =>
      (match st.internals.roomCreatedListener
       case Global => st.(session := OnRoomCreated(st.session, d, now))
       case OneShot => StoreState(OnRoomCreated(st.session, d, now),
                                  st.internals.(roomCreatedListener := Detached))
       case Detached => st)
    case CardFlipped(d) =>
      (match st.internals.cardFlippedListener
       case Global => st.(session := OnCardFlipped(st.session, d))
       case OneShot => StoreState(OnCardFlippedOnce(st.session, d),
                                  st.internals.(cardFlippedListener := Detached))
       case Detached => st)
    case GameError(m) =>
      if st.internals.flipErrorArmed
      then StoreState(st.session.(error := Some(m)), st.internals.(flipErrorArmed := false))
      else st
    case _ => st.(session := Apply(st.session, e, now))
  }

  /** The reset that `game:over` schedules five seconds later. */
  function GameOverResetStep(st: StoreState): StoreState {
    st.(session := GameOverReset(st.session))
  }

  /** The room snapshot kept in session storage across a reload. */
  datatype StoredRoom = StoredRoom(isHost: bool, roomCode: Option<string>, nickname: string, timestamp: int)

  datatype Restore = Recreate(nickname: string) | Rejoin(roomCode: string, nickname: string) | Discard | Ignore

  predicate IsFresh(stored: StoredRoom, now: int) {
    now - stored.timestamp < RestoreWindow
  }

  /** What `restoreRoomState` does with the stored snapshot, if any. */
  function RestoreDecision(stored: Option<StoredRoom>, now: int): (r: Restore)
    ensures r.Discard? <==> stored.Some? && !IsFresh(stored.value, now)
    ensures r.Recreate? <==> stored.Some? && IsFresh(stored.value, now) && stored.value.isHost
    ensures r.Rejoin? <==>
      stored.Some? && IsFresh(stored.value, now) && !stored.value.isHost && Present(stored.value.roomCode)
    ensures r.Recreate? ==> r.nickname == stored.value.nickname
    ensures r.Rejoin? ==> r.roomCode == stored.value.roomCode.value && r.nickname == stored.value.nickname
  {
    match stored
    case None => Ignore
    case Some(s) =>
      if !IsFresh(s, now) then Discard
      else if s.isHost then Recreate(s.nickname)
      else if Present(s.roomCode) then Rejoin(s.roomCode.value, s.nickname)
      else Ignore
  }

  function RestoreStep(st: StoreState, stored: Option<StoredRoom>, now: int): StoreState {
    match RestoreDecision(stored, now)
    case Recreate(nickname) => CreateRoomStep(st, nickname, now)
    case Rejoin(code, nickname) => JoinRoomStep(st, code, nickname)
    case _ => st
  }

  /** Every way the store's state can change. */
  datatype Action =
    | CreateRoomAction(nickname: string, now: nat)
    | JoinRoomAction(roomCode: string, nickname: string)
    | LeaveRoomAction
    | StartGameAction(connected: bool)
    | FlipCardAction(cardId: string)
    | SetPlayersAction(players: Option<seq<Player>>)
    | ReceiveAction(event: ServerEvent, now: nat)
    | GameOverResetAction
    | RestoreAction(stored: Option<StoredRoom>, now: nat)

  function Step(st: StoreState, a: Action): StoreState {
    match a
    case CreateRoomAction(n, now) => CreateRoomStep(st, n, now)
    case JoinRoomAction(c, n) => JoinRoomStep(st, c, n)
    case LeaveRoomAction => LeaveRoomStep(st)
    case StartGameAction(c) => StartGameStep(st, c)
    case FlipCardAction(id) => FlipCardStep(st, id)
    case SetPlayersAction(ps) => SetPlayersStep(st, ps)
    case ReceiveAction(e, now) => ReceiveStep(st, e, now)
    case GameOverResetAction => GameOverResetStep(st)
    case RestoreAction(s, now) => RestoreStep(st, s, now)
  }

  // ---------------------------------------------------------------------
  // Properties of the actions

  lemma CreateRoomSpec(st: StoreState, nickname: string, now: int)
    ensures Present(st.session.roomCode) || st.session.isHost ==> CreateRoomStep(st, nickname, now) == st
    ensures now - st.internals.lastCreateTime < CreateCooldown ==> CreateRoomStep(st, nickname, now) == st
    ensures MayCreate(st, now) ==>
      var r := CreateRoomStep(st, nickname, now);
      && r.session == st.session.(isHost := true, status := Waiting, error := None)
      && r.internals.lastCreateTime == now
      && r.internals.roomCreatedListener == OneShot
      && r.internals.outbox == st.internals.outbox + [CreateRoomIntent(nickname)]
      && r.internals.(lastCreateTime := st.internals.lastCreateTime,
                      roomCreatedListener := st.internals.roomCreatedListener,
                      outbox := st.internals.outbox) == st.internals
  {
  }

  /** Once a creation went through, the very next `createRoom` does
      nothing: the host flag alone blocks it. */
  lemma CreateRoomBlocksRepeat(st: StoreState, n1: string, t1: int, n2: string, t2: int)
    requires MayCreate(st, t1)
    ensures var once := CreateRoomStep(st, n1, t1);
      CreateRoomStep(once, n2, t2) == once
  {
  }

  /** The store holds or is creating a room: the condition under which
      `createRoom` refuses and `leaveRoom` acts. */
  predicate InRoom(st: StoreState) {
    Present(st.session.roomCode) || st.session.isHost
  }

  /** The actions that can take the store out of a room: `leaveRoom`, the
      delayed reset after `game:over`, and `joinRoom` with an empty code,
      which drops the host flag without installing a code. */
  predicate ExitsRoom(a: Action) {
    a.LeaveRoomAction? || a.GameOverResetAction? || (a.JoinRoomAction? && a.roomCode == "")
  }

  lemma StepKeepsInRoom(st: StoreState, a: Action)
    requires InRoom(st) && !ExitsRoom(a)
    ensures InRoom(Step(st, a))
  {
  }

  lemma {:induction false} RunKeepsInRoom(st: StoreState, actions: seq<Action>)
    requires InRoom(st)
    requires forall k :: 0 <= k < |actions| ==> !ExitsRoom(actions[k])
    ensures InRoom(Run(st, actions))
    decreases |actions|
  {
    if actions != [] {
      StepKeepsInRoom(st, actions[0]);
      RunKeepsInRoom(Step(st, actions[0]), actions[1..]);
    }
  }

  /** After a creation went through, every later `createRoom` does nothing
      until an action that exits the room has run. */
  lemma CreateRoomBlockedUntilExit(st: StoreState, n1: string, t1: int, actions: seq<Action>, n2: string, t2: int)
    requires MayCreate(st, t1)
    requires forall k :: 0 <= k < |actions| ==> !ExitsRoom(actions[k])
    ensures var later := Run(CreateRoomStep(st, n1, t1), actions);
      CreateRoomStep(later, n2, t2) == later
  {
    RunKeepsInRoom(CreateRoomStep(st, n1, t1), actions);
  }

  /** Leaving resets the cooldown clock, so a creation two seconds after
      time zero goes through again. */
  lemma LeaveReenablesCreate(st: StoreState, now: int)
    requires MayLeave(st) && now >= CreateCooldown
    ensures MayCreate(LeaveRoomStep(st), now)
  {
  }

  lemma JoinRoomSpec(st: StoreState, roomCode: string, nickname: string)
    ensures var r := JoinRoomStep(st, roomCode, nickname);
      && r.session == st.session.(roomCode := Some(roomCode), isHost := false)
      && r.internals.outbox == st.internals.outbox + [JoinRoomIntent(roomCode, nickname)]
      && r.internals.(outbox := st.internals.outbox) == st.internals
  {
  }

  lemma LeaveRoomSpec(st: StoreState)
    ensures !MayLeave(st) ==> LeaveRoomStep(st) == st
    ensures MayLeave(st) ==>
      var r := LeaveRoomStep(st);
      && r.session == InitialSession
      && !r.internals.isLeaving && r.internals.lastCreateTime == 0
      && r.internals.(isLeaving := st.internals.isLeaving, lastCreateTime := st.internals.lastCreateTime)
         == st.internals
    ensures !MayLeave(LeaveRoomStep(st))
  {
  }

  /** A second `leaveRoom` does nothing. */
  lemma LeaveRoomIdempotent(st: StoreState)
    ensures LeaveRoomStep(LeaveRoomStep(st)) == LeaveRoomStep(st)
  {
    LeaveRoomSpec(st);
  }

  lemma StartGameSpec(st: StoreState, connected: bool)
    ensures !connected ==> StartGameStep(st, connected) == st.(session := st.session.(error := Some(LostConnection)))
    ensures connected && !(st.session.isHost && Present(st.session.roomCode)) ==> StartGameStep(st, connected) == st
    ensures connected && st.session.isHost && Present(st.session.roomCode) ==>
      StartGameStep(st, connected) == Emit(st, StartGameIntent(st.session.roomCode.value))
  {
  }

  lemma FlipCardSpec(st: StoreState, cardId: string)
    ensures !MayFlip(st) ==> FlipCardStep(st, cardId) == st
    ensures MayFlip(st) ==>
      var r := FlipCardStep(st, cardId);
      && r.session == st.session
      && r.internals.flippedCardId == (if Present(st.internals.flippedCardId) then st.internals.flippedCardId
                                      else Some(cardId))
      && r.internals.cardFlippedListener == OneShot && r.internals.flipErrorArmed
      && r.internals.outbox == st.internals.outbox +
           [FlipCardIntent(st.session.gameState.value.gameId, st.session.roomCode.value, cardId)]
      && r.internals.(flippedCardId := st.internals.flippedCardId,
                      cardFlippedListener := st.internals.cardFlippedListener,
                      flipErrorArmed := st.internals.flipErrorArmed,
                      outbox := st.internals.outbox) == st.internals
  {
  }

  /** After the store's own flip, the next `game:cardFlipped` goes to the
      one-shot listener (which copies `timeLeft`), and the one after that
      reaches no listener at all. */
  lemma FlipThenTwoBroadcasts(st: StoreState, cardId: string, d1: CardFlippedData, d2: CardFlippedData, t1: nat, t2: nat)
    requires MayFlip(st)
    ensures var flipped := FlipCardStep(st, cardId);
      var first := ReceiveStep(flipped, CardFlipped(d1), t1);
      && first.session == OnCardFlippedOnce(flipped.session, d1)
      && first.session.gameState.value.turnTimeLeft == d1.timeLeft
      && ReceiveStep(first, CardFlipped(d2), t2) == first
  {
  }

  /** A `game:error` is only heard while a flip's error listener is armed. */
  lemma GameErrorNeedsFlip(st: StoreState, m: string, now: nat)
    ensures !st.internals.flipErrorArmed ==> ReceiveStep(st, GameError(m), now) == st
    ensures st.internals.flipErrorArmed ==>
      ReceiveStep(st, GameError(m), now) == StoreState(st.session.(error := Some(m)), st.internals.(flipErrorArmed := false))
  {
  }

  /** After the store's own `createRoom`, the next `room:created` goes to the
      one-shot listener, and the one after that reaches no listener at all. */
  lemma CreateThenTwoBroadcasts(st: StoreState, n: string, now: int, d1: RoomCreatedData, d2: RoomCreatedData, t1: nat, t2: nat)
    requires MayCreate(st, now)
    ensures var created := CreateRoomStep(st, n, now);
      var first := ReceiveStep(created, RoomCreated(d1), t1);
      && first.session == OnRoomCreated(created.session, d1, t1)
      && ReceiveStep(first, RoomCreated(d2), t2) == first
  {
  }

  /** Inbound events never emit, never touch the create cooldown, the leave
      flag, the first-flip id or the turn timer. */
  lemma ReceiveKeepsBookkeeping(st: StoreState, e: ServerEvent, now: nat)
    ensures var r := ReceiveStep(st, e, now).internals;
      && r.outbox == st.internals.outbox
      && r.lastCreateTime == st.internals.lastCreateTime
      && r.isLeaving == st.internals.isLeaving
      && r.flippedCardId == st.internals.flippedCardId
      && r.turnTimer == st.internals.turnTimer
  {
  }

  /** A stale snapshot neither creates nor joins a room. */
  lemma RestoreStaleIsInert(st: StoreState, stored: StoredRoom, now: int)
    requires !IsFresh(stored, now)
    ensures RestoreStep(st, Some(stored), now) == st
  {
  }

  /** A fresh host snapshot re-issues `createRoom` with the stored nickname. */
  lemma RestoreHostRecreates(st: StoreState, stored: StoredRoom, now: int)
    requires IsFresh(stored, now) && stored.isHost && MayCreate(st, now)
    ensures RestoreStep(st, Some(stored), now).internals.outbox
            == st.internals.outbox + [CreateRoomIntent(stored.nickname)]
  {
  }

  /** The leave-in-progress flag is set and cleared inside one `leaveRoom`,
      so no action ever leaves it set. */
  lemma NeverLeftLeaving(st: StoreState, a: Action)
    requires !st.internals.isLeaving
    ensures !Step(st, a).internals.isLeaving
  {
  }

  /** Nothing in the store ever sets the turn timer. */
  lemma TurnTimerUntouched(st: StoreState, a: Action)
    ensures Step(st, a).internals.turnTimer == st.internals.turnTimer
  {
  }

  /** The first-flip id, once recorded, is never replaced or cleared, not
      even by `leaveRoom`. */
  lemma FirstFlipSticks(st: StoreState, a: Action)
    requires Present(st.internals.flippedCardId)
    ensures Step(st, a).internals.flippedCardId == st.internals.flippedCardId
  {
  }

  /** Actions taken one after another, from left to right. */
  function Run(st: StoreState, actions: seq<Action>): StoreState
    decreases |actions|
  {
    if actions == [] then st else Run(Step(st, actions[0]), actions[1..])
  }

  lemma {:induction false} RunKeepsSettled(st: StoreState, actions: seq<Action>)
    requires !st.internals.isLeaving
    ensures !Run(st, actions).internals.isLeaving
    decreases |actions|
  {
    if actions != [] {
      NeverLeftLeaving(st, actions[0]);
      RunKeepsSettled(Step(st, actions[0]), actions[1..]);
    }
  }

  lemma {:induction false} RunKeepsFirstFlip(st: StoreState, actions: seq<Action>)
    requires Present(st.internals.flippedCardId)
    ensures Run(st, actions).internals.flippedCardId == st.internals.flippedCardId
    decreases |actions|
  {
    if actions != [] {
      FirstFlipSticks(st, actions[0]);
      RunKeepsFirstFlip(Step(st, actions[0]), actions[1..]);
    }
  }

  // ---------------------------------------------------------------------
  // The store object

  class RoomStore {
    var roomCode: Option<string>
    var isHost: bool
    var players: seq<Player>
    var status: RoomStatus
    var error: Option<string>
    var gameState: Option<GameState>
    var isLeaving: bool
    var lastCreateTime: int
    var turnTimer: Option<nat>
    var flippedCardId: Option<string>
    var roomCreatedListener: Listener
    var cardFlippedListener: Listener
    var flipErrorArmed: bool
    var outbox: seq<Intent>

    function Slice(): Session
      reads this
    {
      Session(roomCode, isHost, players, status, error, gameState)
    }

    function State(): StoreState
      reads this
    {
      StoreState(Slice(), Internals(isLeaving, lastCreateTime, turnTimer, flippedCardId,
                                      roomCreatedListener, cardFlippedListener, flipErrorArmed, outbox))
    }

    constructor ()
      ensures State() == InitialStore
    {
      roomCode, isHost, players, status, error, gameState := None, false, [], Waiting, None, None;
      isLeaving, lastCreateTime, turnTimer, flippedCardId := false, 0, None, None;
      roomCreatedListener, cardFlippedListener, flipErrorArmed := Global, Global, false;
      outbox := [];
    }

    /** The `set(...)` of a handler: writes the whole broadcast slice. */
    method SetSession(s: Session)
      modifies this
      ensures State() == old(State()).(session := s)
    {
      roomCode, isHost, players, status, error, gameState :=
        s.roomCode, s.isHost, s.players, s.status, s.error, s.gameState;
    }

    method SetPlayers(ps: Option<seq<Player>>)
      modifies this
      ensures State() == SetPlayersStep(old(State()), ps)
    {
      players := if ps.Some? then ps.value else [];
    }

    method CreateRoom(nickname: string, now: nat)
      modifies this
      ensures State() == CreateRoomStep(old(State()), nickname, now)
    {
      if Present(roomCode) || isHost {
        return;
      }
      if now - lastCreateTime < CreateCooldown {
        return;
      }
      lastCreateTime := now;
      isHost := true;
      status := Waiting;
      error := None;
      roomCreatedListener := OneShot;
      outbox := outbox + [CreateRoomIntent(nickname)];
    }

    method JoinRoom(code: string, nickname: string)
      modifies this
      ensures State() == JoinRoomStep(old(State()), code, nickname)
    {
      roomCode := Some(code);
      isHost := false;
      outbox := outbox + [JoinRoomIntent(code, nickname)];
    }

    method LeaveRoom()
      modifies this
      ensures State() == LeaveRoomStep(old(State()))
    {
      if isLeaving || (!Present(roomCode) && !isHost) {
        return;
      }
      isLeaving := true;
      roomCode := None;
      isHost := false;
      players := [];
      status := Waiting;
      error := None;
      gameState := None;
      isLeaving := false;
      lastCreateTime := 0;
    }

    /** `restoreRoomState`, given the stored snapshot (if any) and the clock;
        `discard` says whether the snapshot is removed from storage. */
    method RestoreRoomState(stored: Option<StoredRoom>, now: nat) returns (discard: bool)
      modifies this
      ensures State() == RestoreStep(old(State()), stored, now)
      ensures discard <==> stored.Some? && !IsFresh(stored.value, now)
    {
      discard := false;
      if stored.Some? {
        var s := stored.value;
        if now - s.timestamp < RestoreWindow {
          if s.isHost {
            CreateRoom(s.nickname, now);
          } else if Present(s.roomCode) {
            JoinRoom(s.roomCode.value, s.nickname);
          }
        } else {
          discard := true;
        }
      }
    }

    method StartGame(connected: bool)
      modifies this
      ensures State() == StartGameStep(old(State()), connected)
    {
      if !connected {
        error := Some(LostConnection);
        return;
      }
      if !isHost || !Present(roomCode) {
        return;
      }
      outbox := outbox + [StartGameIntent(roomCode.value)];
    }

    method FlipCard(cardId: string)
      modifies this
      ensures State() == FlipCardStep(old(State()), cardId)
    {
      if gameState.None? || gameState.value.gameId == "" || !Present(roomCode) {
        return;
      }
      if !Present(flippedCardId) {
        flippedCardId := Some(cardId);
      }
      cardFlippedListener := OneShot;
      flipErrorArmed := true;
      outbox := outbox + [FlipCardIntent(gameState.value.gameId, roomCode.value, cardId)];
    }

    /** Delivery of one server event to the store's listeners. */
    method Receive(e: ServerEvent, now: nat)
      modifies this
      ensures State() == ReceiveStep(old(State()), e, now)
    {
      match e
      case RoomCreated(d) =>
        if roomCreatedListener == Global {
          SetSession(OnRoomCreated(Slice(), d, now));
        } else if roomCreatedListener == OneShot {
          roomCreatedListener := Detached;
          SetSession(OnRoomCreated(Slice(), d, now));
        }
      case CardFlipped(d) =>
        if cardFlippedListener == Global {
          SetSession(OnCardFlipped(Slice(), d));
        } else if cardFlippedListener == OneShot {
          cardFlippedListener := Detached;
          SetSession(OnCardFlippedOnce(Slice(), d));
        }
      case GameError(m) =>
        if flipErrorArmed {
          flipErrorArmed := false;
          error := Some(m);
        }
      case _ =>
        SetSession(Apply(Slice(), e, now));
    }

    method ResetAfterGameOver()
      modifies this
      ensures State() == GameOverResetStep(old(State()))
    {
      gameState := None;
      status := Waiting;
      roomCode := None;
      isHost := false;
      players := [];
      error := None;
    }
  }
}
