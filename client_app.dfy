/**
 * The browser client's session state (extension/src/App.tsx): the state
 * record its `useState` hooks hold, the reducer `handleWebSocketMessage`
 * applies to every message from the server, the leave-room reset, the
 * guarded senders, the name lookup and the choice of screen.
 *
 * Every setter in the message handler takes a value from the message or a
 * constant, never from the current state, so the handler is modelled as a
 * function from (state, message) to the new state. A missing field of the
 * message (`undefined`) and `null` are both `None`.
 */
module ClientApp {
  import opened Protocol

  /** One `[playerId, score]` pair of `finalScores`, in the order `Object.entries` lists them. */
  datatype ScoreEntry = ScoreEntry(playerId: string, score: int)

  /** The `payload` object of a broadcast, with the fields the client reads. */
  datatype Payload = Payload(searchTerm: Option<string>, timestamp: Option<int>, finalScores: Option<seq<ScoreEntry>>)

  /** A parsed message from the server, with every field the handler reads. */
  datatype ServerMessage = ServerMessage(
    kind: Option<string>,
    roomId: Option<string>,
    roomName: Option<string>,
    hostId: Option<string>,
    playerId: Option<string>,
    players: Option<seq<Player>>,
    submittedPlayerIds: Option<seq<string>>,
    currentTurnPlayerId: Option<string>,
    currentRound: Option<int>,
    maxRounds: Option<int>,
    payload: Option<Payload>)

  /** The session fields of the App component. */
  datatype AppState = AppState(
    currentRoomId: Option<string>,
    currentRoomName: Option<string>,
    currentPlayerId: Option<string>,
    hostId: Option<string>,
    playersInRoom: seq<Player>,
    gameStarted: bool,
    submittedPlayerIds: seq<string>,
    revealedSearchTerm: Option<string>,
    revealedSearchTimestamp: Option<int>,
    currentTurnPlayerId: Option<string>,
    currentRound: Option<int>,
    maxRounds: Option<int>,
    rankingPhaseStarted: bool,
    gameEnded: bool,
    finalScores: Option<seq<ScoreEntry>>)

  const InitialRound: int := 0
  const DefaultMaxRounds: int := 3

  /** The values the hooks start with, and the values a leave restores. */
  const Initial: AppState :=
    AppState(None, None, None, None, [], false, [], None, None, None,
             Some(InitialRound), Some(DefaultMaxRounds), false, false, None)

  /** The message types the handler has a state-changing case for ("error" only raises an alert). */
  const StateKinds: set<string> :=
    {"roomCreated", "roomJoined", "playerJoined", "playerLeft", "gameStarted", "turnAdvanced",
     "searchRevealed", "rankingPhaseStarted", "rankingsResults", "newRoundStarted", "gameEnded",
     "maxRoundsUpdated"}

  /**
   * `handleWebSocketMessage`. Reading `lastMessage.payload.x` when the
   * message has no payload throws a TypeError, which the socket's message
   * handler catches: the setters that already ran keep their effect, so
   * `searchRevealed` and `rankingsResults` without a payload change nothing
   * and `gameEnded` without one only sets the ended flag.
   */
  function Reduce(s: AppState, m: ServerMessage): (r: AppState)
    ensures r.gameEnded && !s.gameEnded ==> m.kind == Some("gameEnded")
    ensures r.currentRoomId != s.currentRoomId ==> m.kind in {Some("roomCreated"), Some("roomJoined"), Some("gameEnded")}
  {
    if m.kind == Some("roomCreated") then
      s.(currentRoomId := m.roomId, currentRoomName := m.roomName, hostId := m.hostId,
         currentPlayerId := m.hostId, playersInRoom := m.players.GetOr([]),
         currentRound := m.currentRound, maxRounds := m.maxRounds)
    else if m.kind == Some("roomJoined") then
      s.(currentRoomId := m.roomId, currentPlayerId := m.playerId, playersInRoom := m.players.GetOr([]),
         hostId := m.hostId, currentRound := m.currentRound, maxRounds := m.maxRounds)
    else if m.kind == Some("playerJoined") || m.kind == Some("playerLeft") then
      s.(playersInRoom := m.players.GetOr([]), submittedPlayerIds := m.submittedPlayerIds.GetOr([]),
         hostId := m.hostId, currentTurnPlayerId := m.currentTurnPlayerId)
    else if m.kind == Some("gameStarted") then
      s.(gameStarted := true, currentTurnPlayerId := m.currentTurnPlayerId,
         currentRound := m.currentRound, maxRounds := m.maxRounds)
    else if m.kind == Some("turnAdvanced") then
      s.(currentTurnPlayerId := m.currentTurnPlayerId)
    else if m.kind == Some("searchRevealed") then
      match m.payload
      case None => s
      case Some(p) => s.(revealedSearchTerm := p.searchTerm, revealedSearchTimestamp := p.timestamp)
    else if m.kind == Some("rankingPhaseStarted") then
      s.(rankingPhaseStarted := true, revealedSearchTerm := None, revealedSearchTimestamp := None)
    else if m.kind == Some("rankingsResults") then
      match m.payload
      case None => s
      case Some(p) => s.(finalScores := p.finalScores, rankingPhaseStarted := false)
    else if m.kind == Some("newRoundStarted") then
      s.(revealedSearchTerm := None, revealedSearchTimestamp := None, submittedPlayerIds := [],
         currentTurnPlayerId := m.currentTurnPlayerId, currentRound := m.currentRound,
         maxRounds := m.maxRounds, rankingPhaseStarted := false, gameEnded := false, finalScores := None)
    else if m.kind == Some("gameEnded") then
      match m.payload
      case None => s.(gameEnded := true)
      case Some(p) => s.(gameEnded := true, finalScores := p.finalScores, gameStarted := false, currentRoomId := None)
    else if m.kind == Some("maxRoundsUpdated") then
      s.(maxRounds := m.maxRounds)
    else
      s
  }

  /** A message of any other type, "error" included, leaves every field as it was. */
  lemma ReduceIgnoresOtherKinds(s: AppState, m: ServerMessage)
    requires m.kind.None? || m.kind.value !in StateKinds
    ensures Reduce(s, m) == s
  {
  }

  /** No case reads the current state, so handling the same message twice is handling it once. */
  lemma {:induction false} ReduceIdempotent(s: AppState, m: ServerMessage)
    ensures Reduce(Reduce(s, m), m) == Reduce(s, m)
  {
    var r := Reduce(s, m);
    if m.kind == Some("roomCreated") || m.kind == Some("roomJoined") {
    } else if m.kind == Some("playerJoined") || m.kind == Some("playerLeft") || m.kind == Some("gameStarted") {
    } else if m.kind == Some("turnAdvanced") || m.kind == Some("searchRevealed") {
    } else if m.kind == Some("rankingPhaseStarted") || m.kind == Some("rankingsResults") {
    } else if m.kind == Some("newRoundStarted") || m.kind == Some("gameEnded") {
    } else if m.kind == Some("maxRoundsUpdated") {
    } else {
      assert r == s;
    }
  }

  /** After `roomCreated` the client's own id is the host id, whatever it was before. */
  lemma RoomCreatedMakesHost(s: AppState, m: ServerMessage)
    requires m.kind == Some("roomCreated")
    ensures Reduce(s, m).currentPlayerId == Reduce(s, m).hostId == m.hostId
    ensures IsHost(Reduce(s, m))
  {
  }

  /** `rankingPhaseStarted` raises the ranking flag and hides the revealed term. */
  lemma RankingPhaseHidesTerm(s: AppState, m: ServerMessage)
    requires m.kind == Some("rankingPhaseStarted")
    ensures var r := Reduce(s, m);
            r.rankingPhaseStarted && r.revealedSearchTerm.None? && r.revealedSearchTimestamp.None?
  {
  }

  /** `rankingsResults` with a payload stores its scores and lowers the ranking flag. */
  lemma RankingsResultsStoresScores(s: AppState, m: ServerMessage)
    requires m.kind == Some("rankingsResults") && m.payload.Some?
    ensures var r := Reduce(s, m);
            r.finalScores == m.payload.value.finalScores && !r.rankingPhaseStarted
  {
  }

  /**
   * `newRoundStarted` clears everything the previous round left behind and
   * copies the turn and round fields; the room, the roster and the game flag
   * stay.
   */
  lemma NewRoundResets(s: AppState, m: ServerMessage)
    requires m.kind == Some("newRoundStarted")
    ensures var r := Reduce(s, m);
            && r.revealedSearchTerm.None? && r.revealedSearchTimestamp.None? && r.submittedPlayerIds == []
            && !r.rankingPhaseStarted && !r.gameEnded && r.finalScores.None?
            && r.currentTurnPlayerId == m.currentTurnPlayerId && r.currentRound == m.currentRound
            && r.maxRounds == m.maxRounds
            && r.currentRoomId == s.currentRoomId && r.playersInRoom == s.playersInRoom
            && r.gameStarted == s.gameStarted
  {
  }

  /** `gameEnded` with a payload ends the game and forgets the room. */
  lemma GameEndedLeavesRoom(s: AppState, m: ServerMessage)
    requires m.kind == Some("gameEnded") && m.payload.Some?
    ensures var r := Reduce(s, m);
            r.gameEnded && !r.gameStarted && r.currentRoomId.None? && r.finalScores == m.payload.value.finalScores
  {
  }

  /**
   * The screen is chosen by testing the room id first, so a `gameEnded`
   * message with its payload forgets the room and leads to the home screen,
   * not the game-over screen. The only message after which the game-over
   * screen can newly appear is a `gameEnded` without a payload, which sets
   * the flag and then throws before it forgets the room.
   */
  lemma {:induction false} GameOverNeverFollowsGameEnd(s: AppState, m: ServerMessage)
    requires !s.gameEnded
    ensures SelectView(Reduce(s, m)) == GameOverScreen ==> m.kind == Some("gameEnded") && m.payload.None?
    ensures m.kind == Some("gameEnded") && m.payload.Some? ==> SelectView(Reduce(s, m)) == HomeScreen
  {
    if SelectView(Reduce(s, m)) == GameOverScreen {
      assert Reduce(s, m).gameEnded;
    }
  }

  /** The commands the client sends, with the fields it puts in them. */
  datatype Command =
    | CreateRoomCommand(roomName: string)
    | JoinRoomCommand(roomId: string, playerName: string)
    | LeaveRoomCommand(roomId: string)
    | StartGameCommand(roomId: string)
    | SubmitSearchHistoryCommand(roomId: string, history: seq<SubmittedItem>)
    | SubmitRankingsCommand(roomId: string, rankings: seq<string>)
    | StartNextRoundCommand(roomId: string)
    | SetMaxRoundsCommand(roomId: string, maxRounds: int)

  /** The `type` field of each command. */
  function CommandType(c: Command): string
  {
    match c
    case CreateRoomCommand(_) => "createRoom"
    case JoinRoomCommand(_, _) => "joinRoom"
    case LeaveRoomCommand(_) => "leaveRoom"
    case StartGameCommand(_) => "startGame"
    case SubmitSearchHistoryCommand(_, _) => "submitSearchHistory"
    case SubmitRankingsCommand(_, _) => "submitRankings"
    case StartNextRoundCommand(_) => "startNextRound"
    case SetMaxRoundsCommand(_, _) => "setMaxRounds"
  }

  /** A browser-history item as the extension reads it. */
  datatype HistoryItem = HistoryItem(
    id: string, lastVisitTime: int, title: Option<string>, url: Option<string>, visitCount: Option<int>)

  /** The part of a history item the client submits. */
  datatype SubmittedItem = SubmittedItem(url: Option<string>, title: Option<string>, lastVisitTime: int)

  function Submitted(history: seq<HistoryItem>): (r: seq<SubmittedItem>)
    ensures |r| == |history|
    ensures forall i | 0 <= i < |r| ::
              r[i] == SubmittedItem(history[i].url, history[i].title, history[i].lastVisitTime)
  {
    if history == [] then [] else [SubmittedItem(history[0].url, history[0].title, history[0].lastVisitTime)]
                                  + Submitted(history[1..])
  }

  /** `handleCreateRoom`: sends only when a room name was typed. */
  function CreateRoomRequest(roomName: string): (r: Option<Command>)
    ensures r.Some? <==> roomName != ""
    ensures r.Some? ==> CommandType(r.value) == "createRoom" && r.value.roomName == roomName
  {
    if roomName != "" then Some(CreateRoomCommand(roomName)) else None
  }

  /** `handleJoinRoom`: sends only when both a room id and a player name were typed. */
  function JoinRoomRequest(roomId: string, playerName: string): (r: Option<Command>)
    ensures r.Some? <==> roomId != "" && playerName != ""
    ensures r.Some? ==> CommandType(r.value) == "joinRoom" && r.value.roomId == roomId && r.value.playerName == playerName
  {
    if roomId != "" && playerName != "" then Some(JoinRoomCommand(roomId, playerName)) else None
  }

  /** The in-room actions: the room the command names, or none for a create. */
  function CommandRoom(c: Command): Option<string>
  {
    if c.CreateRoomCommand? then None else Some(c.roomId)
  }

  /** `handleStartGame`: sends only while in a room. */
  function StartGameRequest(s: AppState): (r: Option<Command>)
    ensures r.Some? <==> Truthy(s.currentRoomId)
    ensures r.Some? ==> CommandType(r.value) == "startGame" && CommandRoom(r.value) == s.currentRoomId
  {
    if Truthy(s.currentRoomId) then Some(StartGameCommand(s.currentRoomId.value)) else None
  }

  /** `handleSubmitHistory`: sends the url, title and visit time of every item, in order, while in a room. */
  function SubmitHistoryRequest(s: AppState, history: seq<HistoryItem>): (r: Option<Command>)
    ensures r.Some? <==> Truthy(s.currentRoomId)
    ensures r.Some? ==> && CommandType(r.value) == "submitSearchHistory" && CommandRoom(r.value) == s.currentRoomId
                        && |r.value.history| == |history|
  {
    if Truthy(s.currentRoomId) then Some(SubmitSearchHistoryCommand(s.currentRoomId.value, Submitted(history))) else None
  }

  /** `handleSubmitRankings`: sends the given order unchanged while in a room. */
  function SubmitRankingsRequest(s: AppState, rankings: seq<string>): (r: Option<Command>)
    ensures r.Some? <==> Truthy(s.currentRoomId)
    ensures r.Some? ==> && CommandType(r.value) == "submitRankings" && CommandRoom(r.value) == s.currentRoomId
                        && r.value.rankings == rankings
  {
    if Truthy(s.currentRoomId) then Some(SubmitRankingsCommand(s.currentRoomId.value, rankings)) else None
  }

  /** `handleNextRound`: sends only while in a room. */
  function NextRoundRequest(s: AppState): (r: Option<Command>)
    ensures r.Some? <==> Truthy(s.currentRoomId)
    ensures r.Some? ==> CommandType(r.value) == "startNextRound" && CommandRoom(r.value) == s.currentRoomId
  {
    if Truthy(s.currentRoomId) then Some(StartNextRoundCommand(s.currentRoomId.value)) else None
  }

  /** `handleSetMaxRounds`: sends only while in a room. */
  function SetMaxRoundsRequest(s: AppState, rounds: int): (r: Option<Command>)
    ensures r.Some? <==> Truthy(s.currentRoomId)
    ensures r.Some? ==> && CommandType(r.value) == "setMaxRounds" && CommandRoom(r.value) == s.currentRoomId
                        && r.value.maxRounds == rounds
  {
    if Truthy(s.currentRoomId) then Some(SetMaxRoundsCommand(s.currentRoomId.value, rounds)) else None
  }

  /**
   * `handleLeaveRoom`: while in a room, sends `leaveRoom` for it and puts
   * every session field back to its initial value; outside a room it does
   * nothing.
   */
  function LeaveRoom(s: AppState): (r: (AppState, Option<Command>))
    ensures Truthy(s.currentRoomId) ==> r.0 == Initial && r.1 == Some(LeaveRoomCommand(s.currentRoomId.value))
    ensures !Truthy(s.currentRoomId) ==> r.0 == s && r.1.None?
  {
    if Truthy(s.currentRoomId) then (Initial, Some(LeaveRoomCommand(s.currentRoomId.value))) else (s, None)
  }

  /** Leaving always ends on the home screen, and a second leave sends nothing. */
  lemma LeaveRoomGoesHome(s: AppState)
    ensures SelectView(LeaveRoom(s).0) == HomeScreen
    ensures LeaveRoom(LeaveRoom(s).0).1.None?
  {
  }

  /** `playersInRoom.find(p => p.id === id)`: the first player with that id. */
  function FindPlayer(players: seq<Player>, id: string): (r: Option<Player>)
    ensures r.None? <==> forall p | p in players :: p.id != id
    ensures r.Some? ==> exists i | 0 <= i < |players| ::
              players[i] == r.value && r.value.id == id && forall j | 0 <= j < i :: players[j].id != id
  {
    if players == [] then None
    else if players[0].id == id then Some(players[0])
    else
      var rest := FindPlayer(players[1..], id);
      assert forall p | p in players[1..] :: p in players;
      if rest.Some? then
        var i :| 0 <= i < |players[1..]| && players[1..][i] == rest.value && rest.value.id == id
                 && forall j | 0 <= j < i :: players[1..][j].id != id;
        assert players[i + 1] == rest.value;
        rest
      else rest
  }

  /**
   * `getPlayerNameById`: the name of the first player with that id, or the
   * id itself when there is none or that name is empty.
   */
  function PlayerNameById(players: seq<Player>, id: string): (name: string)
    ensures (forall p | p in players :: p.id != id) ==> name == id
    ensures name != id ==> exists i | 0 <= i < |players| ::
              && players[i].id == id && players[i].name == name && name != ""
              && forall j | 0 <= j < i :: players[j].id != id
    ensures forall i | 0 <= i < |players| && players[i].id == id && players[i].name != "" ::
              (forall j | 0 <= j < i :: players[j].id != id) ==> name == players[i].name
  {
    var found := FindPlayer(players, id);
    if found.Some? && found.value.name != "" then found.value.name else id
  }

  /** The five screens App can render. */
  datatype Screen = HomeScreen | GameOverScreen | RankingScreen | LobbyScreen | GameScreen

  /** The conditional at the end of App: room first, then the ended flag, the ranking flag, the started flag. */
  function SelectView(s: AppState): (v: Screen)
    ensures v == HomeScreen <==> !Truthy(s.currentRoomId)
    ensures v == GameOverScreen <==> Truthy(s.currentRoomId) && s.gameEnded
    ensures v == RankingScreen <==> Truthy(s.currentRoomId) && !s.gameEnded && s.rankingPhaseStarted
    ensures v == LobbyScreen <==> Truthy(s.currentRoomId) && !s.gameEnded && !s.rankingPhaseStarted && !s.gameStarted
    ensures v == GameScreen <==> Truthy(s.currentRoomId) && !s.gameEnded && !s.rankingPhaseStarted && s.gameStarted
  {
    if !Truthy(s.currentRoomId) then HomeScreen
    else if s.gameEnded then GameOverScreen
    else if s.rankingPhaseStarted then RankingScreen
    else if !s.gameStarted then LobbyScreen
    else GameScreen
  }

  /** `currentPlayerId === hostId`, as the lobby and game screens are told; two missing ids are equal. */
  predicate IsHost(s: AppState)
  {
    s.currentPlayerId == s.hostId
  }
}
