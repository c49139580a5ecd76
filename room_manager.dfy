/**
 * The room registry (server/src/RoomManager.ts): rooms by id, with create,
 * lookup, join and leave. Room ids come from `Math.random` and are never
 * checked for collisions, so the caller supplies the id.
 */
module RoomManagers {
  import opened Protocol
  import opened Rooms

  class RoomManager {
    var rooms: map<string, Room>

    /**
     * Each room is registered under its own id and is itself valid. Because a
     * room's id is a constant, two keys never share one room object.
     */
    ghost predicate Valid()
      reads this`rooms, rooms.Values`players
    {
      && (forall k | k in rooms :: rooms[k].id == k)
      && (forall r | r in rooms.Values :: r.Valid())
    }

    constructor ()
      ensures Valid() && rooms == map[]
    {
      rooms := map[];
    }

    /**
     * Registers a fresh, empty room under `id` (overwriting any room that
     * already had that id) and returns it. An absent capacity means the
     * default one.
     */
    method CreateRoom(id: string, name: Option<string>, maxPlayers: Option<int>) returns (room: Room)
      requires Valid()
      modifies this
      ensures Valid() && fresh(room)
      ensures rooms == old(rooms)[id := room]
      ensures room.id == id && room.name == name && room.maxPlayers == maxPlayers.GetOr(DefaultCapacity)
      ensures room.players == map[] && room.currentState == WaitingForPlayers
      ensures room.submittedSearchHistories == map[] && room.submittedVotes == map[]
      ensures room.currentRoundSearchTerm == None
    {
      room := new Room(id, name, maxPlayers.GetOr(DefaultCapacity));
      rooms := rooms[id := room];
    }

    /** The room registered under `id`, or null when there is none. */
    function GetRoom(id: string): (r: Room?)
      reads this
      ensures r != null <==> id in rooms
      ensures r != null ==> r == rooms[id]
    {
      if id in rooms then rooms[id] else null
    }

    /**
     * Seats `player` in room `roomId`. Fails, changing nothing, when there is
     * no such room; otherwise the outcome is that of Room.AddPlayer.
     */
    method JoinRoom(roomId: Option<string>, player: Player, out: Outbox) returns (ok: bool)
      requires Valid()
      modifies rooms.Values`players, out
      ensures Valid()
      ensures forall k | k in rooms && Some(k) != roomId :: rooms[k].players == old(rooms[k].players)
      ensures ok <==> roomId.Some? && roomId.value in rooms
                      && old(|rooms[roomId.value].players|) < rooms[roomId.value].maxPlayers
      ensures ok ==> (rooms[roomId.value].players == old(rooms[roomId.value].players)[player.id := player]
                      && old(out.sent) <= out.sent
                      && BroadcastOf(out.sent[|old(out.sent)|..], rooms[roomId.value].players.Keys,
                                     PlayerJoined(player.name)))
      ensures !ok ==> out.sent == old(out.sent) && forall k | k in rooms :: rooms[k].players == old(rooms[k].players)
    {
      if roomId.None? {
        return false;
      }
      var room := GetRoom(roomId.value);
      if room == null {
        return false;
      }
      ok := room.AddPlayer(player, out);
    }

    /**
     * Unseats `playerId` from room `roomId` and unregisters the room once it
     * has no players left. Nothing happens when there is no such room.
     */
    method LeaveRoom(roomId: string, playerId: string, out: Outbox)
      requires Valid()
      modifies this, rooms.Values`players, out
      ensures Valid()
      ensures rooms.Keys <= old(rooms.Keys)
      ensures forall k | k in rooms :: rooms[k] == old(rooms[k])
      ensures forall k | k in rooms && k != roomId :: rooms[k].players == old(rooms[k].players)
      ensures roomId !in old(rooms) ==> (rooms == old(rooms) && out.sent == old(out.sent))
      ensures roomId in old(rooms) ==>
                var room := old(rooms[roomId]);
                && room.players == old(room.players) - {playerId}
                && rooms == (if room.players == map[] then old(rooms) - {roomId} else old(rooms))
                && (playerId !in old(room.players) ==> out.sent == old(out.sent))
                && (playerId in old(room.players) ==>
                      (old(out.sent) <= out.sent
                       && BroadcastOf(out.sent[|old(out.sent)|..], room.players.Keys,
                                      PlayerLeft(old(room.players)[playerId].name))))
    {
      var room := GetRoom(roomId);
      if room != null {
        room.RemovePlayer(playerId, out);
        if |room.players| == 0 {
          rooms := rooms - {roomId};
        }
      }
    }
  }
}
