/** What the game board of src/components/GameBoard.tsx derives from the
    store: whose turn it is, which cards are matched or disabled, the player
    panels and the game-over banner. `me` is the local connection id, absent
    while the connection has none. */
module GameBoard {
  import opened GameTypes
  import opened CardComponent

  /** `currentTurn`, falling back to `currentPlayerId` when it is empty. */
  function CurrentPlayerId(g: GameState): Option<string> {
    if g.currentTurn != "" then Some(g.currentTurn) else g.currentPlayerId
  }

  /** `matchedCards`, a missing list read as empty. */
  function MatchedIds(g: GameState): seq<string> {
    g.matchedCards.GetOr([])
  }

  /** `flippedCards`, a missing list read as empty. */
  function FlippedIds(g: GameState): seq<string> {
    g.flippedCards.GetOr([])
  }

  /** Strict equality of the current player id and the connection id; two
      absent ids are equal. */
  predicate IsMyTurn(g: GameState, me: Option<string>) {
    CurrentPlayerId(g) == me
  }

  predicate IsDisabled(g: GameState, me: Option<string>, c: Card) {
    !IsMyTurn(g, me) || |FlippedIds(g)| >= 2 || c.isFlipped || c.id in MatchedIds(g)
  }

  /** `formatPlayerName`. */
  function DisplayName(id: string, nickname: string, me: Option<string>): string {
    nickname + (if me == Some(id) then " (You)" else "")
  }

  /** `players.find(p => p.id === id)`. */
  function FindPlayer(ps: seq<Player>, id: Option<string>): (r: Option<Player>)
    ensures r.None? <==> forall k :: 0 <= k < |ps| ==> Some(ps[k].id) != id
    ensures r.Some? ==> exists k :: 0 <= k < |ps| && ps[k] == r.value && Some(ps[k].id) == id
                                   && forall j :: 0 <= j < k ==> Some(ps[j].id) != id
  {
    if ps == [] then None
    else if Some(ps[0].id) == id then Some(ps[0])
    else
      var r := FindPlayer(ps[1..], id);
      assert r.Some? ==> exists k :: 1 <= k < |ps| && ps[k] == r.value && Some(ps[k].id) == id
                                     && forall j :: 0 <= j < k ==> Some(ps[j].id) != id
        by {
          if r.Some? {
            var k :| 0 <= k < |ps[1..]| && ps[1..][k] == r.value && Some(ps[1..][k].id) == id
                     && forall j :: 0 <= j < k ==> Some(ps[1..][j].id) != id;
            assert ps[k + 1] == r.value;
            assert forall j :: 1 <= j < k + 1 ==> ps[j] == ps[1..][j - 1];
          }
        }
      r
  }

  /** The props the board passes to one card. */
  function PropsFor(g: GameState, me: Option<string>, c: Card): CardProps {
    CardProps(c.id, c.content, c.isFlipped, c.id in MatchedIds(g), IsDisabled(g, me, c), c.flippedBy)
  }

  /** One entry of the score column. */
  datatype PlayerPanel = PlayerPanel(name: string, score: int, matchesFound: int, isCurrent: bool)

  datatype View =
    | Loading
    | Board(turnLabel: string, myTurn: bool, panels: seq<PlayerPanel>, cards: seq<CardProps>)

  function TurnLabel(g: GameState, me: Option<string>): string {
    if IsMyTurn(g, me) then "Your Turn!"
    else
      var shown := match FindPlayer(Values(g.players), CurrentPlayerId(g))
        case Some(p) => DisplayName(p.id, p.nickname, me)
        case None => DisplayName("", "Loading...", me);
      "Current Turn: " + shown
  }

  function Panel(g: GameState, me: Option<string>, p: Player): PlayerPanel {
    PlayerPanel(DisplayName(p.id, p.nickname, me), p.score, p.matchesFound, Some(p.id) == CurrentPlayerId(g))
  }

  /** The board, or the loading view unless a game is being played. The
      players shown are those of the game snapshot, not the store's list. */
  function Render(status: RoomStatus, gameState: Option<GameState>, me: Option<string>): View {
    if status != Playing || gameState.None? then Loading
    else
      var g := gameState.value;
      var ps := Values(g.players);
      Board(TurnLabel(g, me), IsMyTurn(g, me),
            seq(|ps|, i requires 0 <= i < |ps| => Panel(g, me, ps[i])),
            seq(|g.cards|, i requires 0 <= i < |g.cards| => PropsFor(g, me, g.cards[i])))
  }

  datatype Banner =
    | TieBanner(message: Option<string>)
    | WinnerBanner(winnerName: string, score: int, message: Option<string>)
    /** Not a tie but no winner listed: reading `winners[0]` fails. */
    | UnrenderableBanner

  /** The content of the game-over toast while it is shown. */
  function GameOverBanner(g: GameState, me: Option<string>): Option<Banner> {
    if g.winners.None? then None
    else
      var message := if Present(g.gameOverMessage) then g.gameOverMessage else None;
      if g.isTie == Some(true) then Some(TieBanner(message))
      else if g.winners.value == [] then Some(UnrenderableBanner)
      else
        var w := g.winners.value[0];
        Some(WinnerBanner(DisplayName(w.id, w.nickname, me), w.score, message))
  }

  // ---------------------------------------------------------------------
  // Properties

  lemma CurrentPlayerIdSpec(g: GameState)
    ensures g.currentTurn != "" ==> CurrentPlayerId(g) == Some(g.currentTurn)
    ensures g.currentTurn == "" ==> CurrentPlayerId(g) == g.currentPlayerId
  {
  }

  /** It is my turn exactly when the current player id is my connection id,
      including the case where neither exists. */
  lemma IsMyTurnSpec(g: GameState, me: Option<string>)
    ensures g.currentTurn != "" ==> (IsMyTurn(g, me) <==> me == Some(g.currentTurn))
    ensures g.currentTurn == "" ==> (IsMyTurn(g, me) <==> me == g.currentPlayerId)
    ensures g.currentTurn == "" && g.currentPlayerId.None? && me.None? ==> IsMyTurn(g, me)
  {
  }

  lemma RenderGate(status: RoomStatus, gameState: Option<GameState>, me: Option<string>)
    ensures Render(status, gameState, me).Board? <==> status == Playing && gameState.Some?
  {
  }

  /** One rendered card per game card, in order, with the flags the board
      derives for it. */
  lemma RenderedCards(status: RoomStatus, g: GameState, me: Option<string>)
    requires status == Playing
    ensures var v := Render(status, Some(g), me);
      && v.Board?
      && v.myTurn == IsMyTurn(g, me)
      && |v.cards| == |g.cards|
      && forall i :: 0 <= i < |g.cards| ==>
           var p := v.cards[i];
           var c := g.cards[i];
           && p.id == c.id && p.text == c.content && p.isFlipped == c.isFlipped && p.playerId == c.flippedBy
           && (p.isMatched <==> c.id in MatchedIds(g))
           && (p.isDisabled <==>
                 !IsMyTurn(g, me) || |FlippedIds(g)| >= 2 || c.isFlipped || c.id in MatchedIds(g))
  {
  }

  /** Absent `matchedCards`/`flippedCards`: nothing shown matched, and only
      turn and the card's own flag disable a card. */
  lemma MissingListsReadEmpty(g: GameState, me: Option<string>, c: Card)
    requires g.matchedCards.None? && g.flippedCards.None?
    ensures !PropsFor(g, me, c).isMatched
    ensures PropsFor(g, me, c).isDisabled <==> !IsMyTurn(g, me) || c.isFlipped
  {
  }

  /** The score column lists the snapshot's players in order, each under its
      display name (" (You)" marks the local player), and highlights the
      current one. */
  lemma RenderedPanels(g: GameState, me: Option<string>)
    ensures var v := Render(Playing, Some(g), me);
      && |v.panels| == |g.players|
      && forall i :: 0 <= i < |g.players| ==>
           var p := g.players[i].value;
           && v.panels[i].name == DisplayName(p.id, p.nickname, me)
           && v.panels[i].score == p.score && v.panels[i].matchesFound == p.matchesFound
           && (v.panels[i].isCurrent <==> CurrentPlayerId(g) == Some(p.id))
  {
  }

  /** The turn banner names the first snapshot player holding the turn. */
  lemma TurnLabelNamesCurrentPlayer(g: GameState, me: Option<string>, k: nat)
    requires !IsMyTurn(g, me)
    requires k < |g.players| && Some(g.players[k].value.id) == CurrentPlayerId(g)
    requires forall j :: 0 <= j < k ==> Some(g.players[j].value.id) != CurrentPlayerId(g)
    ensures TurnLabel(g, me) == "Current Turn: " + g.players[k].value.nickname
  {
    var ps := Values(g.players);
    var r := FindPlayer(ps, CurrentPlayerId(g));
    var m :| 0 <= m < |ps| && ps[m] == r.value && Some(ps[m].id) == CurrentPlayerId(g)
             && forall j :: 0 <= j < m ==> Some(ps[j].id) != CurrentPlayerId(g);
    assert m == k;
    assert me != Some(g.players[k].value.id);
  }

  /** Not a tie: the banner reports `winners[0]` and its score. */
  lemma BannerReportsFirstWinner(g: GameState, me: Option<string>)
    requires g.winners.Some? && g.winners.value != [] && g.isTie != Some(true)
    ensures var w := g.winners.value[0];
      GameOverBanner(g, me) == Some(WinnerBanner(DisplayName(w.id, w.nickname, me), w.score,
                                                 if Present(g.gameOverMessage) then g.gameOverMessage else None))
  {
  }

  /** Board and card together: a click on a rendered card calls `flipCard`
      with that card's id exactly when it is my turn, fewer than two cards
      are flipped, and the card is neither flipped nor matched. */
  lemma ClickReachesFlip(g: GameState, me: Option<string>, c: Card)
    ensures ClickTarget(PropsFor(g, me, c)).Some? <==>
      IsMyTurn(g, me) && |FlippedIds(g)| < 2 && !c.isFlipped && c.id !in MatchedIds(g)
    ensures ClickTarget(PropsFor(g, me, c)).Some? ==> ClickTarget(PropsFor(g, me, c)).value == c.id
  {
  }
}
