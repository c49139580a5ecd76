/**
 * How the client and the shipped server read each other's messages: the
 * `type` strings the client sends against the server's router, the history
 * items the client submits against the fields the prompt reads, and the
 * events the server sends against the fields the client's reducer reads.
 */
module Compat {
  import opened Protocol
  import opened Gateway
  import opened GeminiClient
  import opened ClientApp

  /** The server's handler for each client command. */
  lemma {:induction false} ClientCommandsRouted(c: Command)
    ensures c.CreateRoomCommand? ==> Route(Some(CommandType(c))) == CreateRoom
    ensures c.JoinRoomCommand? ==> Route(Some(CommandType(c))) == JoinRoom
    ensures c.LeaveRoomCommand? ==> Route(Some(CommandType(c))) == LeaveRoom
    ensures c.StartGameCommand? ==> Route(Some(CommandType(c))) == StartGame
    ensures c.SubmitSearchHistoryCommand? ==> Route(Some(CommandType(c))) == SubmitSearchHistory
    ensures Route(Some(CommandType(c))) == Unknown <==>
              c.SubmitRankingsCommand? || c.StartNextRoundCommand? || c.SetMaxRoundsCommand?
  {
    if c.SubmitRankingsCommand? || c.StartNextRoundCommand? || c.SetMaxRoundsCommand? {
      RouteUnknown(Some(CommandType(c)));
    }
  }

  /**
   * A history item as the server reads it: the prompt takes `query`, which
   * the client's items (url, title, visit time) do not have.
   */
  function AsServerEntry(item: SubmittedItem): (e: HistoryEntry)
    ensures e.query.None?
  {
    HistoryEntry(None, None)
  }

  function AsServerHistory(items: seq<SubmittedItem>): (h: seq<HistoryEntry>)
    ensures |h| == |items|
    ensures forall i | 0 <= i < |h| :: h[i] == AsServerEntry(items[i])
  {
    if items == [] then [] else [AsServerEntry(items[0])] + AsServerHistory(items[1..])
  }

  /** Every history line of the prompt built from a client's submission reads "- undefined". */
  lemma ClientHistoryPromptsUndefined(items: seq<SubmittedItem>)
    ensures forall l | l in Lines(AsServerHistory(items)) :: l == "- undefined"
  {
  }

  /**
   * A server event as the client parses it. Replies to the sender are flat
   * objects; broadcasts put their fields under `payload`, of which the client
   * reads only the search term.
   */
  function AsReceived(e: Event): (m: ServerMessage)
    ensures m.hostId.None? && m.playerId.None? && m.players.None? && m.currentRound.None? && m.maxRounds.None?
  {
    var flat := ServerMessage(None, None, None, None, None, None, None, None, None, None, None);
    var wrapped := flat.(payload := Some(Payload(None, None, None)));
    match e
    case RoomCreated(id, name) => flat.(kind := Some("roomCreated"), roomId := Some(id), roomName := name)
    case RoomJoined(id, _) => flat.(kind := Some("roomJoined"), roomId := id)
    case JoinRoomFailed(_) => flat.(kind := Some("joinRoomFailed"))
    case RoomLeft(id) => flat.(kind := Some("roomLeft"), roomId := Some(id))
    case PlayerJoined(_) => wrapped.(kind := Some("playerJoined"))
    case PlayerLeft(_) => wrapped.(kind := Some("playerLeft"))
    case GameStarted(_) => wrapped.(kind := Some("gameStarted"))
    case SearchRevealed(a) =>
      flat.(kind := Some("searchRevealed"), payload := Some(Payload(Some(a.selectedSearchTerm), None, None)))
    case RoundResults(_) => wrapped.(kind := Some("roundResults"))
    case ChatMessage(_, _) => wrapped.(kind := Some("chatMessage"))
    case Error(_) => flat.(kind := Some("error"))
  }

  /**
   * The server sends neither `hostId` nor `playerId`, so after creating or
   * joining a room both are missing and every client sees itself as host,
   * with an empty roster.
   */
  lemma EveryoneIsHost(s: AppState, e: Event)
    requires e.RoomCreated? || e.RoomJoined?
    ensures var r := Reduce(s, AsReceived(e));
            IsHost(r) && r.currentPlayerId.None? && r.playersInRoom == []
  {
  }

  /** The server's `roomCreated` puts the client in the new room, in the lobby unless a game had ended or ranking was on. */
  lemma CreatedRoomReachesClient(s: AppState, id: string, name: Option<string>)
    requires id != "" && !s.gameEnded && !s.rankingPhaseStarted && !s.gameStarted
    ensures Reduce(s, AsReceived(RoomCreated(id, name))).currentRoomId == Some(id)
    ensures SelectView(Reduce(s, AsReceived(RoomCreated(id, name)))) == LobbyScreen
  {
  }

  /** `searchRevealed` shows the selected term, with no timestamp. */
  lemma RevealedTermReachesClient(s: AppState, a: Analysis)
    ensures Reduce(s, AsReceived(SearchRevealed(a))).revealedSearchTerm == Some(a.selectedSearchTerm)
    ensures Reduce(s, AsReceived(SearchRevealed(a))).revealedSearchTimestamp.None?
  {
  }

  /** The client has no case for these server events, and they change nothing. */
  lemma UnhandledEventsIgnored(s: AppState, e: Event)
    requires e.JoinRoomFailed? || e.RoomLeft? || e.RoundResults? || e.ChatMessage? || e.Error?
    ensures Reduce(s, AsReceived(e)) == s
  {
    ReduceIgnoresOtherKinds(s, AsReceived(e));
  }
}
