# Bughunt client session store, in Dafny

This project models the browser client of a two-player memory-card game. The
server decides every move. The client keeps a local session store that
mirrors the server's broadcasts, and it sends intents: create, join, leave,
start and flip. It also derives what the game board shows and which card
clicks become flips.

- `GameTypes.dfy` holds the records of `src/types/game.ts` (`Card`, `Player`,
  `GameState`) and the payloads of `src/types/socket.ts`. A JavaScript object
  used as a dictionary (`Record<string, V>`) is an association list kept in
  its enumeration order. `Values` is `Object.values`; `Lookup` is `obj[key]`.
  JavaScript truthiness of strings is `Present`: an absent string and `""`
  are both falsy.
- `RoomEvents.dfy` covers the listeners of `setupSocketListeners`. Each is a
  pure function from the broadcast slice of the store (`Session`) and the
  payload to the next `Session`.
- `SessionStore.dfy` covers the store's actions: `createRoom`, `joinRoom`,
  `leaveRoom`, `restoreRoomState`, `startGame`, `flipCard` and `setPlayers`.
  - Each action is specified by a step function on the whole store state
    (`StoreState`). That state includes the private fields, the emitted
    intents (`outbox`), and which listener currently handles `room:created`,
    `game:cardFlipped` and `game:error`.
  - The class `RoomStore` performs each action by updating its fields. Each
    method is proved equal to its step function.
- `GameBoard.dfy` and `CardComponent.dfy` cover the board's derived view and
  the card's click guard.

Where the code departs from a clean "replace the slice wholesale" design, the model follows the code:

- `game:cardFlipped` does not replace the game snapshot wholesale. It keeps
  the local `cards` and patches the one flipped card
  (`CardFlippedKeepsLocalCards`).
- `createRoom` and `flipCard` remove every listener for `room:created` and
  for `game:cardFlipped`, then register a one-shot listener. After that
  listener fires, nothing listens for that event until the action runs
  again (`CreateThenTwoBroadcasts`, `FlipThenTwoBroadcasts`).
- Only the one-shot `game:cardFlipped` listener copies `timeLeft` into
  `turnTimeLeft` (`CardFlippedListenersDiffer`).
- `game:error` is only heard after a `flipCard` (`GameErrorNeedsFlip`).
- `flipCard` does not check whose turn it is. Only the board's disabled
  flag does that (`ClickReachesFlip`).
- The client has no turn countdown and never emits `game:turnTimeout`.
  `_turnTimer` is never set (`TurnTimerUntouched`).
- `_isLeaving` is set and cleared inside one `leaveRoom` call, so it is
  never observed set (`NeverLeftLeaving`, `RunKeepsSettled`).
- `_flippedCardId` is never cleared, not even by `leaveRoom`
  (`FirstFlipSticks`, `RunKeepsFirstFlip`).
- `isMyTurn` compares with `===`. When `currentTurn` is empty,
  `currentPlayerId` is missing and the connection has no id, both sides are
  `undefined`, so it reports "my turn" (`IsMyTurnSpec`).

## Model

| member | source | states |
|---|---|---|
| `RoomEvents.ConvertPlayersSpec` | src/store/roomStore.ts:173-190 | converting a room payload's players keeps their number and order; each keeps id, nickname, host and ready flags and join time, with score 0 and 0 matches |
| `RoomEvents.ResetScoresSpec` | src/store/roomStore.ts:220-224 | the score reset keeps every player, in order, with everything but score and matches unchanged and both set to 0 |
| `RoomEvents.ResetScoresIdempotent` | src/store/roomStore.ts:220-224 | resetting scores twice is resetting them once |
| `RoomEvents.MergeScoresSpec` | src/store/roomStore.ts:297-307 | the score merge keeps the list's length and order; a player present in the snapshot's players takes that entry's score and matches; any other player is unchanged |
| `RoomEvents.MergeScoresIdempotent` | src/store/roomStore.ts:297-307 | merging the same snapshot twice is merging it once |
| `RoomEvents.RemovePlayerSpec` | src/store/roomStore.ts:444-446 | the filter keeps exactly the players whose id differs, and removes as many as carry that id |
| `RoomEvents.RemovePlayerKeepsOrder` | src/store/roomStore.ts:445 | the filter distributes over concatenation, so the survivors keep their order |
| `RoomEvents.RemoveAbsentPlayer` | src/store/roomStore.ts:445 | removing an id nobody has leaves the list as it was |
| `RoomEvents.RemovePlayerIdempotent` | src/store/roomStore.ts:444-446 | a repeated `player:left` for the same id changes nothing more |
| `RoomEvents.PatchCardsSpec` | src/store/roomStore.ts:251-260 | the patch keeps every card in place; a card whose id equals the flipped id becomes flipped by the given player, with its other fields kept; every other card is unchanged |
| `RoomEvents.PatchCardsIdempotent` | src/store/roomStore.ts:251-260 | patching the same card twice is patching it once |
| `RoomEvents.RoomCreatedSpec` | src/store/roomStore.ts:49-107 | without a room code only `error` changes; otherwise the code is taken, the store becomes host, status is waiting, error is cleared and the game is kept; players come from the payload (score 0); if the payload has no players object, they are exactly the one host player `HostPlayer` builds |
| `RoomEvents.DecimalRoundTrip` | src/store/roomStore.ts:63 | the decimal digits written for the clock read back, left to right, as the clock's value |
| `RoomEvents.HostPlayerSpec` | src/store/roomStore.ts:62-70 | the host player takes the payload host's id and nickname when they are non-empty, else `host-<now>` and "Host"; it is host, not ready, with score and matches 0, joined now |
| `RoomEvents.HostFallback` | src/store/roomStore.ts:62-70 | with no host data the host player is called "Host" and its id is "host-" followed by digits whose decimal value is the clock |
| `RoomEvents.RoomJoinedSpec` | src/store/roomStore.ts:119-157 | without a room code only `error` changes; otherwise the code is taken, the store is not host, players come from the payload with score 0 (none if missing), status defaults to waiting, and error and game are kept |
| `RoomEvents.RoomUpdatedSpec` | src/store/roomStore.ts:161-198 | without a room code only `error` changes; otherwise only players (score 0, from the payload) and status (default waiting) change; room code, host flag, game and error are kept |
| `RoomEvents.RoomUpdatedIdempotent` | src/store/roomStore.ts:161-198 | applying the same `room:updated` twice equals applying it once |
| `RoomEvents.RoomUpdatedForgetsOldPlayers` | src/store/roomStore.ts:173-197 | with a room code, the resulting players and status do not depend on the previous state |
| `RoomEvents.GameStartedSpec` | src/store/roomStore.ts:201-228 | without a game id only `error` changes; otherwise status is playing, the game is the payload, error is cleared, room code and host flag are kept, and every player keeps id, nickname and order with score and matches 0 |
| `RoomEvents.GameStartedIdempotent` | src/store/roomStore.ts:201-228 | a repeated `game:started` changes nothing more |
| `RoomEvents.CardFlippedSpec` | src/store/roomStore.ts:239-283 | with no local game nothing changes; otherwise the game is the payload's except for its cards, which are the local cards with exactly the flipped one marked flipped by the player, and scores are merged; room code, host flag, status and error are kept |
| `RoomEvents.CardFlippedKeepsLocalCards` | src/store/roomStore.ts:251-260 | the cards after `game:cardFlipped` are the local cards (same number, same ids in order), not the payload's |
| `RoomEvents.CardFlippedListenersDiffer` | src/store/roomStore.ts:779-818 | the start-up listener keeps the payload's `turnTimeLeft`; the one-shot listener of `flipCard` sets it to `timeLeft` and otherwise gives the same state |
| `RoomEvents.CardFlippedIdempotent` | src/store/roomStore.ts:247-282 | a duplicated `game:cardFlipped` changes nothing more |
| `RoomEvents.SnapshotSpec` | src/store/roomStore.ts:286-383 | `game:match`, `game:noMatch` and `game:turnChanged` install the payload's game and merge its statistics into the players; nothing else changes |
| `RoomEvents.SnapshotIdempotent` | src/store/roomStore.ts:295-313 | a repeated match, no-match or turn-change snapshot changes nothing more |
| `RoomEvents.GameOverSpec` | src/store/roomStore.ts:395-402 | `game:over` changes only the game: the payload's snapshot with the winners, the tie flag and the message attached |
| `RoomEvents.GameOverResetSpec` | src/store/roomStore.ts:405-415 | the delayed reset leaves no game, status waiting, no room code, not host, no players and no error, whatever the state was |
| `RoomEvents.PlayerJoinedSpec` | src/store/roomStore.ts:419-437 | `player:joined` appends exactly one player after the unchanged list, not host, not ready, score 0, joined now; nothing else changes |
| `RoomEvents.PlayerJoinedTwice` | src/store/roomStore.ts:423-436 | there is no deduplication: announcing a player twice adds two entries with its id |
| `RoomEvents.PlayerLeftSpec` | src/store/roomStore.ts:440-447 | `player:left` removes every player with the id, keeps every other one, and changes nothing else |
| `RoomEvents.SocketErrorSpec` | src/store/roomStore.ts:449-454 | the transport's `error` event sets `error` to the message, or to nothing when the message is missing, and changes nothing else |
| `RoomEvents.OnlyRoomEventsSetIdentity` | src/store/roomStore.ts:43-468 | apart from `room:created` and `room:joined`, no broadcast changes the room code or the host flag in its immediate update; the delayed reset after `game:over` clears both (`GameOverResetSpec`) |
| `SessionStore.RestoreDecision` | src/store/roomStore.ts:680-695 | a snapshot older than 5 minutes is discarded; a fresh one re-creates the room when it was the host's, else re-joins when it has a room code, else does nothing |
| `SessionStore.CreateRoomSpec` | src/store/roomStore.ts:490-517 | `createRoom` does nothing with a room code or host flag, or within 2000 ms of the last creation; otherwise it records the time, becomes host, sets status waiting, clears the error, arms the one-shot `room:created` listener and emits the create intent, and changes nothing else |
| `SessionStore.CreateRoomBlocksRepeat` | src/store/roomStore.ts:494-498 | after a creation went through, the next `createRoom` is a no-op |
| `SessionStore.StepKeepsInRoom` | src/store/roomStore.ts:490-700 | holding or creating a room (room code or host flag) survives every action except `leaveRoom`, the delayed reset after `game:over`, and `joinRoom` with an empty code |
| `SessionStore.RunKeepsInRoom` | src/store/roomStore.ts:490-700 | over any sequence of actions without such an exit, the store stays in its room |
| `SessionStore.CreateRoomBlockedUntilExit` | src/store/roomStore.ts:494-498 | after a creation went through, every later `createRoom` is a no-op until one of those exits has run |
| `SessionStore.LeaveReenablesCreate` | src/store/roomStore.ts:654-666 | leaving resets the create time to 0, so a `createRoom` at a clock of 2000 ms or more is allowed again |
| `SessionStore.JoinRoomSpec` | src/store/roomStore.ts:618-635 | `joinRoom` takes the room code, drops the host flag and emits the join intent, with no guard |
| `SessionStore.LeaveRoomSpec` | src/store/roomStore.ts:637-666 | `leaveRoom` does nothing while leaving or with neither room code nor host flag; otherwise the broadcast slice is back to its initial values and the leave flag and create time are reset, while every other private field, both listeners, the error listener and the intents are kept; afterwards a leave would do nothing |
| `SessionStore.LeaveRoomIdempotent` | src/store/roomStore.ts:640-644 | a second `leaveRoom` is a no-op |
| `SessionStore.StartGameSpec` | src/store/roomStore.ts:702-744 | disconnected, `startGame` only sets the reconnecting error; connected but not a host with a room code, it does nothing; otherwise the new state is the old one with only the start intent, carrying the room code, emitted |
| `SessionStore.FlipCardSpec` | src/store/roomStore.ts:746-835 | without a game id or room code `flipCard` does nothing; otherwise it records the card as the first flip only if none is recorded, arms the one-shot flip and error listeners, and emits the flip intent with game id, room code and card id; nothing else changes |
| `SessionStore.CreateThenTwoBroadcasts` | src/store/roomStore.ts:526-594 | after a creation went through, the next `room:created` is handled by the one-shot listener; the one after that changes nothing |
| `SessionStore.FlipThenTwoBroadcasts` | src/store/roomStore.ts:775-818 | after a flip, the next `game:cardFlipped` is handled by the one-shot listener and sets `turnTimeLeft` from `timeLeft`; the one after that changes nothing |
| `SessionStore.GameErrorNeedsFlip` | src/store/roomStore.ts:820-825 | `game:error` sets the error and disarms its listener, changing nothing else, only when a flip armed that listener; otherwise it changes nothing |
| `SessionStore.ReceiveKeepsBookkeeping` | src/store/roomStore.ts:43-468 | no inbound event emits anything or changes the create time, the leave flag, the first-flip id or the timer |
| `SessionStore.RestoreStaleIsInert` | src/store/roomStore.ts:686-695 | a stale snapshot neither creates nor joins a room |
| `SessionStore.RestoreHostRecreates` | src/store/roomStore.ts:686-688 | a fresh host snapshot issues the create intent with the stored nickname when creation is allowed |
| `SessionStore.NeverLeftLeaving` | src/store/roomStore.ts:654-666 | no action leaves the leave-in-progress flag set |
| `SessionStore.TurnTimerUntouched` | src/store/roomStore.ts:470-480 | no action changes `_turnTimer` from its initial value |
| `SessionStore.FirstFlipSticks` | src/store/roomStore.ts:766-772 | once a first-flip id is recorded, no action replaces or clears it |
| `SessionStore.RunKeepsSettled` | src/store/roomStore.ts:637-666 | over any sequence of actions the leave flag stays clear |
| `SessionStore.RunKeepsFirstFlip` | src/store/roomStore.ts:766-772 | over any sequence of actions the recorded first-flip id stays the same |
| `SessionStore.RoomStore.constructor` | src/store/roomStore.ts:470-480 | the store starts with no room, not host, no players, status waiting, no error, no game, zero create time and the start-up listeners |
| `SessionStore.RoomStore.SetPlayers` | src/store/roomStore.ts:484-485 | `setPlayers` stores the list, or an empty list when given no array |
| `SessionStore.RoomStore.CreateRoom` | src/store/roomStore.ts:490-616 | the field updates of `createRoom` give exactly `CreateRoomStep` of the old state |
| `SessionStore.RoomStore.JoinRoom` | src/store/roomStore.ts:618-635 | the field updates of `joinRoom` give exactly `JoinRoomStep` |
| `SessionStore.RoomStore.LeaveRoom` | src/store/roomStore.ts:637-673 | setting the leave flag, resetting and clearing it give exactly `LeaveRoomStep` |
| `SessionStore.RoomStore.RestoreRoomState` | src/store/roomStore.ts:676-700 | restoring calls `createRoom` or `joinRoom` as `RestoreDecision` says, and reports the snapshot as discarded exactly when it is stale |
| `SessionStore.RoomStore.StartGame` | src/store/roomStore.ts:702-744 | the field updates of `startGame` give exactly `StartGameStep` |
| `SessionStore.RoomStore.FlipCard` | src/store/roomStore.ts:746-839 | the field updates of `flipCard` give exactly `FlipCardStep` |
| `SessionStore.RoomStore.Receive` | src/store/roomStore.ts:43-825 | delivering an event to whichever listener is armed (the start-up listeners of lines 43-468, the one-shot `room:created` listener of `createRoom` at 529-594, or the one-shot `game:cardFlipped` and `game:error` listeners of `flipCard` at 779-825) gives exactly `ReceiveStep` |
| `SessionStore.RoomStore.ResetAfterGameOver` | src/store/roomStore.ts:405-415 | the delayed reset gives exactly `GameOverResetStep` |
| `CardComponent.ClickTarget` | src/components/Card.tsx:25-30 | a click calls `flipCard` exactly when the card is not disabled, not flipped and not matched, and then with the card's own id |
| `GameBoard.FindPlayer` | src/components/GameBoard.tsx:36 | the first player in order whose id equals the current player id, or none when no player has it |
| `GameBoard.CurrentPlayerIdSpec` | src/components/GameBoard.tsx:35 | the current player is `currentTurn`, or `currentPlayerId` when `currentTurn` is empty |
| `GameBoard.IsMyTurnSpec` | src/components/GameBoard.tsx:48-61 | it is my turn exactly when the current player id equals my connection id, including when both are missing |
| `GameBoard.RenderGate` | src/components/GameBoard.tsx:23-31 | the board is rendered exactly when status is playing and there is a game; otherwise the loading view is |
| `GameBoard.RenderedCards` | src/components/GameBoard.tsx:147-162 | one card per game card in order, with its id, text, flip flag and flipper; shown matched iff its id is in `matchedCards`; disabled iff not my turn, two or more flipped ids, flipped, or matched |
| `GameBoard.MissingListsReadEmpty` | src/components/GameBoard.tsx:39-40 | missing `matchedCards` and `flippedCards` act as empty lists |
| `GameBoard.RenderedPanels` | src/components/GameBoard.tsx:97-116 | the score column shows the snapshot's players in order, each under its display name (" (You)" appended for the local player), with score and matches, and highlights exactly the current player |
| `GameBoard.TurnLabelNamesCurrentPlayer` | src/components/GameBoard.tsx:129-143 | when it is not my turn, the banner names the first snapshot player holding the turn |
| `GameBoard.BannerReportsFirstWinner` | src/components/GameBoard.tsx:66-89 | when winners are shown and it is not a tie, the winner and score reported are those of `winners[0]` |
| `GameBoard.ClickReachesFlip` | src/components/GameBoard.tsx:154-159 | with the card's guard, a click reaches `flipCard` with the card's id exactly when it is my turn, fewer than two cards are flipped and the card is neither flipped nor matched |

## Left out

- The socket transport is not modelled: connecting, disconnecting and reconnecting (`src/lib/socket.ts`, `src/lib/socketInit.ts`, and the connect and disconnect calls in `createRoom`, `leaveRoom` and `startGame`). Emits are appended to `outbox`. Connectivity is a parameter of `StartGame`.
- `RoomStore.CreateRoom` emits at once. When the socket is not connected, the source waits for `connect` before it emits and re-arms the `room:created` listener.
- Console logging is left out.
- `Date.now()` is the `now` parameter. The host fallback in `room:created` reads the clock twice; the model uses one value for both reads.
- The 5-second `setTimeout` after `game:over` becomes the separate `ResetAfterGameOver` transition. When it fires is not modelled.
- `sessionStorage` and `JSON.parse` are not modelled. The stored snapshot is a parameter of `RestoreRoomState`. A missing entry, a parse failure and server-side rendering (`typeof window`) all count as no snapshot. A missing timestamp is not modelled. The code that writes the snapshot is not part of this model.
- The `try`/`catch` around the emit in `startGame` is left out: an emit that throws is not modelled.
- The one-line setters `setRoomCode`, `setHost`, `setStatus`, `setError` and `setGameState` are left out. Each only assigns its one field.
- JavaScript numbers are unbounded integers: no fractions, `NaN` or infinities. Object lookup sees only the object's own keys, not inherited names such as `constructor`.
- `Record` (a JavaScript object as an association list) does not enforce unique keys. On a list with a repeated key `Lookup` takes the first entry, while `JSON.parse` keeps the last; payloads are assumed to have unique keys.
- Page components, routing, styling, the `showGameOver` toast timer and `isHovered` are UI-only and left out. `GameOverBanner` gives the toast's content, not when it is visible.
- Server-side game logic is not modelled: deck building, match resolution, turn advance, winners and turn timeout. The client only copies these from payloads.
