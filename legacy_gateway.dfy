/**
 * The message router of server/src/index.ts: the TypeScript source of the
 * server, which knows only createRoom, joinRoom, leaveRoom and chatMessage.
 * The game-phase commands of the shipped router fall to its default branch.
 */
module LegacyGateway {
  import opened Protocol
  import opened RoomManagers
  import opened Handlers
  import opened Gateway

  /** The switch of server/src/index.ts. */
  function LegacyRoute(kind: Option<string>): (h: Handler)
    ensures h in {CreateRoom, JoinRoom, LeaveRoom, Chat, Unknown}
    ensures h != Unknown ==> kind == Some(KindName(h))
  {
    if kind == Some("createRoom") then CreateRoom
    else if kind == Some("joinRoom") then JoinRoom
    else if kind == Some("leaveRoom") then LeaveRoom
    else if kind == Some("chatMessage") then Chat
    else Unknown
  }

  /**
   * Both routers agree on every message except the three game-phase
   * commands, which the TypeScript router answers as unknown.
   */
  lemma LegacyRouteAgrees(kind: Option<string>)
    ensures Route(kind) in {StartGame, SubmitSearchHistory, SubmitVote} ==> LegacyRoute(kind) == Unknown
    ensures Route(kind) !in {StartGame, SubmitSearchHistory, SubmitVote} ==> LegacyRoute(kind) == Route(kind)
  {
  }

  /** One inbound message handled by the TypeScript server. */
  method DispatchLegacy(manager: RoomManager, out: Outbox, conn: Connection, msg: Inbound, newRoomId: string)
    requires manager.Valid()
    modifies manager, manager.rooms.Values, conn, out
    ensures manager.Valid()
    ensures LegacyRoute(msg.kind) == Unknown ==>
              && out.sent == old(out.sent) + [Envelope(conn.id, Error(UnknownTypeMessage))]
              && manager.rooms == old(manager.rooms) && conn.playerId == old(conn.playerId)
              && forall k | k in manager.rooms ::
                   && manager.rooms[k].players == old(manager.rooms[k].players)
                   && manager.rooms[k].currentState == old(manager.rooms[k].currentState)
                   && manager.rooms[k].submittedSearchHistories == old(manager.rooms[k].submittedSearchHistories)
                   && manager.rooms[k].submittedVotes == old(manager.rooms[k].submittedVotes)
                   && manager.rooms[k].currentRoundSearchTerm == old(manager.rooms[k].currentRoundSearchTerm)
    ensures LegacyRoute(msg.kind) == Chat ==>
              manager.rooms == old(manager.rooms) && conn.playerId == old(conn.playerId)
  {
    match LegacyRoute(msg.kind)
    case CreateRoom =>
      HandleCreateRoom(manager, out, conn, msg.roomName, newRoomId);
    case JoinRoom =>
      HandleJoinRoom(manager, out, conn, msg.roomId, msg.playerName);
    case LeaveRoom =>
      HandleLeaveRoom(manager, out, conn, msg.roomId);
    case Chat =>
      HandleChatMessage(manager, out, conn, msg.roomId, msg.text);
    case Unknown =>
      HandleUnknown(out, conn);
  }
}
