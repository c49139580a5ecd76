/**
 * The message router of the game server as shipped in server/dist/index.js:
 * the four handlers it shares with server/src/index.ts (module Handlers)
 * plus the game-phase commands startGame, submitSearchHistory and
 * submitVote, which read and write the game fields of a room.
 *
 * The phase fields are modelled as initialised (WaitingForPlayers, empty
 * maps, no term) and `VOTING` as a state of its own; module AsWritten
 * models what the shipped Room.js and RoomState.js actually provide.
 */
module Gateway {
  import opened Protocol
  import opened Rooms
  import opened RoomManagers
  import opened Handlers
  import opened GeminiClient

  /** Which branch of the `switch (parsedMessage.type)` runs. */
  datatype Handler =
    | CreateRoom | JoinRoom | StartGame | SubmitSearchHistory | SubmitVote | LeaveRoom | Chat | Unknown

  /** The `type` string of each recognised command. */
  function KindName(h: Handler): string
  {
    match h
    case CreateRoom => "createRoom"
    case JoinRoom => "joinRoom"
    case StartGame => "startGame"
    case SubmitSearchHistory => "submitSearchHistory"
    case SubmitVote => "submitVote"
    case LeaveRoom => "leaveRoom"
    case Chat => "chatMessage"
    case Unknown => ""
  }

  /** The switch: an exact match on `type`, and the default branch for anything else or a missing type. */
  function Route(kind: Option<string>): (h: Handler)
    ensures h != Unknown ==> kind == Some(KindName(h))
  {
    if kind == Some("createRoom") then CreateRoom
    else if kind == Some("joinRoom") then JoinRoom
    else if kind == Some("startGame") then StartGame
    else if kind == Some("submitSearchHistory") then SubmitSearchHistory
    else if kind == Some("submitVote") then SubmitVote
    else if kind == Some("leaveRoom") then LeaveRoom
    else if kind == Some("chatMessage") then Chat
    else Unknown
  }

  /** Every recognised command is reached by its own `type` string. */
  lemma RouteKindName(h: Handler)
    requires h != Unknown
    ensures Route(Some(KindName(h))) == h
  {
  }

  /** A message is handled by the default branch exactly when its type names no command. */
  lemma RouteUnknown(kind: Option<string>)
    ensures Route(kind) == Unknown <==> forall h: Handler | h != Unknown :: kind != Some(KindName(h))
  {
    if Route(kind) != Unknown {
      assert kind == Some(KindName(Route(kind)));
    }
  }

  const CannotStartMessage: string := "Cannot start game."
  const CannotSubmitHistoryMessage: string := "Cannot submit history at this time."
  const ProcessingFailedMessage: string := "Failed to process search history."
  const CannotVoteMessage: string := "Cannot submit vote at this time."
  const ResultsPlaceholder: string := "Scores calculated (placeholder)."

  /** `roomManager.getRoom(parsedMessage.roomId)`: a missing id finds no room. */
  function Lookup(manager: RoomManager, roomId: Option<string>): (r: Room?)
    reads manager
    ensures r != null <==> roomId.Some? && roomId.value in manager.rooms
    ensures r != null ==> r == manager.rooms[roomId.value]
  {
    if roomId.Some? then manager.GetRoom(roomId.value) else null
  }

  /**
   * startGame: a room waiting for players moves to InGame and every member
   * hears `gameStarted` with its id; any other request (no such room, or a
   * room past that phase) gets an error back and changes nothing.
   */
  method HandleStartGame(manager: RoomManager, out: Outbox, conn: Connection, roomId: Option<string>)
    requires manager.Valid()
    modifies manager.rooms.Values`currentState, out
    ensures manager.Valid()
    ensures forall k | k in manager.rooms && Some(k) != roomId ::
              manager.rooms[k].currentState == old(manager.rooms[k].currentState)
    ensures var ok := roomId.Some? && roomId.value in manager.rooms
                      && old(manager.rooms[roomId.value].currentState) == WaitingForPlayers;
            && (ok ==>
                  var room := manager.rooms[roomId.value];
                  && room.currentState == InGame
                  && old(out.sent) <= out.sent
                  && BroadcastOf(out.sent[|old(out.sent)|..], room.players.Keys, GameStarted(roomId.value)))
            && (!ok ==>
                  && (forall k | k in manager.rooms :: manager.rooms[k].currentState == old(manager.rooms[k].currentState))
                  && out.sent == old(out.sent) + [Envelope(conn.id, Error(CannotStartMessage))])
  {
    var room := Lookup(manager, roomId);
    if room != null && room.currentState == WaitingForPlayers {
      room.currentState := InGame;
      room.Broadcast(GameStarted(room.id), out);
    } else {
      out.Send(conn.id, Error(CannotStartMessage));
    }
  }

  /**
   * A room just created waits for players, so a startGame for it is
   * accepted: the room moves to InGame, and the `gameStarted` broadcast
   * reaches nobody because nobody is seated yet.
   */
  method CreateThenStart(manager: RoomManager, out: Outbox, conn: Connection, roomName: Option<string>, newRoomId: string)
    requires manager.Valid()
    modifies manager, manager.rooms.Values`currentState, out
    ensures manager.Valid()
    ensures newRoomId in manager.rooms && manager.rooms[newRoomId].currentState == InGame
    ensures out.sent == old(out.sent) + [Envelope(conn.id, RoomCreated(newRoomId, roomName))]
  {
    HandleCreateRoom(manager, out, conn, roomName, newRoomId);
    ghost var afterCreate := out.sent;
    HandleStartGame(manager, out, conn, Some(newRoomId));
    PrefixThenRest(afterCreate, out.sent);
    BroadcastToNobody(out.sent[|afterCreate|..], GameStarted(newRoomId));
  }

  /**
   * The accepted branch of submitSearchHistory, for one room: `history` is
   * stored under `pid`; once there are as many stored histories as seated
   * players, one seated player is picked at random (`chosen`). If that
   * player has a stored history it is analysed, its term becomes the round's
   * term, every member hears `searchRevealed` and the room moves to Voting;
   * if not, every member hears an error and the phase stays. Either way the
   * stored histories are then cleared.
   */
  method CollectHistory(room: Room, out: Outbox, pid: string, history: seq<HistoryEntry>,
                        model: string -> ModelReply, parse: string -> Option<Analysis>)
    returns (chosen: Option<string>)
    modifies room`submittedSearchHistories, room`currentRoundSearchTerm, room`currentState, out
    ensures old(out.sent) <= out.sent
    ensures var stored := old(room.submittedSearchHistories)[pid := history];
            && (|stored| != |room.players| ==>
                  && chosen == None && out.sent == old(out.sent)
                  && room.submittedSearchHistories == stored
                  && room.currentRoundSearchTerm == old(room.currentRoundSearchTerm)
                  && room.currentState == old(room.currentState))
            && (|stored| == |room.players| ==>
                  && chosen.Some? && chosen.value in room.players
                  && room.submittedSearchHistories == map[]
                  && (chosen.value in stored ==>
                        var result := ProcessSearchHistory(stored[chosen.value], model, parse);
                        && room.currentRoundSearchTerm == Some(result.selectedSearchTerm)
                        && room.currentState == Voting
                        && BroadcastOf(out.sent[|old(out.sent)|..], room.players.Keys, SearchRevealed(result)))
                  && (chosen.value !in stored ==>
                        && room.currentRoundSearchTerm == old(room.currentRoundSearchTerm)
                        && room.currentState == old(room.currentState)
                        && BroadcastOf(out.sent[|old(out.sent)|..], room.players.Keys, Error(ProcessingFailedMessage))))
  {
    chosen := None;
    room.submittedSearchHistories := room.submittedSearchHistories[pid := history];
    if |room.submittedSearchHistories| == |room.players| {
      assert pid in room.submittedSearchHistories;
      assert room.players != map[];
      var pick :| pick in room.players;
      chosen := Some(pick);
      if pick in room.submittedSearchHistories {
        var result := ProcessSearchHistory(room.submittedSearchHistories[pick], model, parse);
        room.currentRoundSearchTerm := Some(result.selectedSearchTerm);
        room.Broadcast(SearchRevealed(result), out);
        room.currentState := Voting;
      } else {
        room.Broadcast(Error(ProcessingFailedMessage), out);
      }
      room.submittedSearchHistories := map[];
    }
  }

  /**
   * submitSearchHistory. Without a player id, a room id or a history the
   * message is ignored. A room that is missing or not InGame answers an
   * error to the sender; in a room that is InGame the history is collected
   * as CollectHistory states.
   */
  method HandleSubmitSearchHistory(
    manager: RoomManager, out: Outbox, conn: Connection, roomId: Option<string>,
    history: Option<seq<HistoryEntry>>, model: string -> ModelReply, parse: string -> Option<Analysis>)
    returns (chosen: Option<string>)
    requires manager.Valid()
    modifies manager.rooms.Values`submittedSearchHistories, manager.rooms.Values`currentRoundSearchTerm,
             manager.rooms.Values`currentState, out
    ensures manager.Valid()
    ensures forall k | k in manager.rooms && Some(k) != roomId ::
              && manager.rooms[k].submittedSearchHistories == old(manager.rooms[k].submittedSearchHistories)
              && manager.rooms[k].currentRoundSearchTerm == old(manager.rooms[k].currentRoundSearchTerm)
              && manager.rooms[k].currentState == old(manager.rooms[k].currentState)
    ensures var accepted := && Truthy(conn.playerId) && Truthy(roomId) && history.Some?
                            && roomId.value in manager.rooms
                            && old(manager.rooms[roomId.value].currentState) == InGame;
            && (!accepted ==>
                  && chosen == None
                  && (forall k | k in manager.rooms ::
                        && manager.rooms[k].submittedSearchHistories == old(manager.rooms[k].submittedSearchHistories)
                        && manager.rooms[k].currentRoundSearchTerm == old(manager.rooms[k].currentRoundSearchTerm)
                        && manager.rooms[k].currentState == old(manager.rooms[k].currentState))
                  && out.sent == old(out.sent)
                                 + (if Truthy(conn.playerId) && Truthy(roomId) && history.Some?
                                    then [Envelope(conn.id, Error(CannotSubmitHistoryMessage))] else []))
            && (accepted ==>
                  var room := manager.rooms[roomId.value];
                  var stored := old(room.submittedSearchHistories)[conn.playerId.value := history.value];
                  && old(out.sent) <= out.sent
                  && (|stored| != |room.players| ==>
                        && chosen == None && out.sent == old(out.sent)
                        && room.submittedSearchHistories == stored
                        && room.currentRoundSearchTerm == old(room.currentRoundSearchTerm)
                        && room.currentState == InGame)
                  && (|stored| == |room.players| ==>
                        && chosen.Some? && chosen.value in room.players
                        && room.submittedSearchHistories == map[]
                        && (chosen.value in stored ==>
                              var result := ProcessSearchHistory(stored[chosen.value], model, parse);
                              && room.currentRoundSearchTerm == Some(result.selectedSearchTerm)
                              && room.currentState == Voting
                              && BroadcastOf(out.sent[|old(out.sent)|..], room.players.Keys, SearchRevealed(result)))
                        && (chosen.value !in stored ==>
                              && room.currentRoundSearchTerm == old(room.currentRoundSearchTerm)
                              && room.currentState == InGame
                              && BroadcastOf(out.sent[|old(out.sent)|..], room.players.Keys,
                                             Error(ProcessingFailedMessage)))))
  {
    chosen := None;
    if Truthy(conn.playerId) && Truthy(roomId) && history.Some? {
      var room := Lookup(manager, roomId);
      if room != null && room.currentState == InGame {
        chosen := CollectHistory(room, out, conn.playerId.value, history.value, model, parse);
      } else {
        out.Send(conn.id, Error(CannotSubmitHistoryMessage));
      }
    }
  }

  /**
   * submitVote. Without a player id, a room id or a vote the message is
   * ignored. A room that is missing or not in Voting answers an error to the
   * sender. Otherwise the vote is stored under the player's id; once there
   * are as many votes as seated players, every member hears the placeholder
   * `roundResults`, the votes are cleared and the room goes back to InGame.
   */
  method HandleSubmitVote(manager: RoomManager, out: Outbox, conn: Connection, roomId: Option<string>, vote: Option<string>)
    requires manager.Valid()
    modifies manager.rooms.Values`submittedVotes, manager.rooms.Values`currentState, out
    ensures manager.Valid()
    ensures forall k | k in manager.rooms && Some(k) != roomId ::
              && manager.rooms[k].submittedVotes == old(manager.rooms[k].submittedVotes)
              && manager.rooms[k].currentState == old(manager.rooms[k].currentState)
    ensures !(Truthy(conn.playerId) && Truthy(roomId) && Truthy(vote)) ==>
              && out.sent == old(out.sent)
              && forall k | k in manager.rooms ::
                   && manager.rooms[k].submittedVotes == old(manager.rooms[k].submittedVotes)
                   && manager.rooms[k].currentState == old(manager.rooms[k].currentState)
    ensures Truthy(conn.playerId) && Truthy(roomId) && Truthy(vote) ==>
              var id := roomId.value;
              var accepted := id in manager.rooms && old(manager.rooms[id].currentState) == Voting;
              && (!accepted ==>
                    && out.sent == old(out.sent) + [Envelope(conn.id, Error(CannotVoteMessage))]
                    && forall k | k in manager.rooms ::
                         && manager.rooms[k].submittedVotes == old(manager.rooms[k].submittedVotes)
                         && manager.rooms[k].currentState == old(manager.rooms[k].currentState))
              && (accepted ==>
                    var room := manager.rooms[id];
                    var votes := old(room.submittedVotes)[conn.playerId.value := vote.value];
                    && (|votes| != |room.players| ==>
                          && out.sent == old(out.sent)
                          && room.submittedVotes == votes
                          && room.currentState == Voting)
                    && (|votes| == |room.players| ==>
                          && room.submittedVotes == map[]
                          && room.currentState == InGame
                          && old(out.sent) <= out.sent
                          && BroadcastOf(out.sent[|old(out.sent)|..], room.players.Keys, RoundResults(ResultsPlaceholder))))
  {
    if Truthy(conn.playerId) && Truthy(roomId) && Truthy(vote) {
      var room := Lookup(manager, roomId);
      if room != null && room.currentState == Voting {
        room.submittedVotes := room.submittedVotes[conn.playerId.value := vote.value];
        if |room.submittedVotes| == |room.players| {
          room.Broadcast(RoundResults(ResultsPlaceholder), out);
          room.submittedVotes := map[];
          room.currentState := InGame;
        }
      } else {
        out.Send(conn.id, Error(CannotVoteMessage));
      }
    }
  }

  /**
   * One inbound message, routed by its type. `newRoomId` is the random id a
   * createRoom would get; `model` and `parse` stand for the term-selection
   * service. Returns the player picked by a submitSearchHistory that
   * completed a round, if any.
   */
  method Dispatch(manager: RoomManager, out: Outbox, conn: Connection, msg: Inbound, newRoomId: string,
                  model: string -> ModelReply, parse: string -> Option<Analysis>)
    returns (chosen: Option<string>)
    requires manager.Valid()
    modifies manager, manager.rooms.Values, conn, out
    ensures manager.Valid()
    ensures Route(msg.kind) != SubmitSearchHistory ==> chosen == None
    ensures Route(msg.kind) == Unknown ==>
              && out.sent == old(out.sent) + [Envelope(conn.id, Error(UnknownTypeMessage))]
              && manager.rooms == old(manager.rooms) && conn.playerId == old(conn.playerId)
              && forall k | k in manager.rooms ::
                   && manager.rooms[k].players == old(manager.rooms[k].players)
                   && manager.rooms[k].currentState == old(manager.rooms[k].currentState)
                   && manager.rooms[k].submittedSearchHistories == old(manager.rooms[k].submittedSearchHistories)
                   && manager.rooms[k].submittedVotes == old(manager.rooms[k].submittedVotes)
                   && manager.rooms[k].currentRoundSearchTerm == old(manager.rooms[k].currentRoundSearchTerm)
    ensures Route(msg.kind) !in {CreateRoom, JoinRoom, LeaveRoom} ==>
              manager.rooms == old(manager.rooms) && conn.playerId == old(conn.playerId)
  {
    chosen := None;
    match Route(msg.kind)
    case CreateRoom =>
      HandleCreateRoom(manager, out, conn, msg.roomName, newRoomId);
    case JoinRoom =>
      HandleJoinRoom(manager, out, conn, msg.roomId, msg.playerName);
    case StartGame =>
      HandleStartGame(manager, out, conn, msg.roomId);
    case SubmitSearchHistory =>
      chosen := HandleSubmitSearchHistory(manager, out, conn, msg.roomId, msg.history, model, parse);
    case SubmitVote =>
      HandleSubmitVote(manager, out, conn, msg.roomId, msg.vote);
    case LeaveRoom =>
      HandleLeaveRoom(manager, out, conn, msg.roomId);
    case Chat =>
      HandleChatMessage(manager, out, conn, msg.roomId, msg.text);
    case Unknown =>
      HandleUnknown(out, conn);
  }
}
