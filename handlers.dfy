/**
 * The command handlers that server/src/index.ts and server/dist/index.js
 * share, written once: createRoom, joinRoom, leaveRoom, chatMessage, the
 * unknown-type reply and the close handler. Each handler runs to completion
 * before the next message is handled.
 */
module Handlers {
  import opened Protocol
  import opened Rooms
  import opened RoomManagers

  /** One client connection: its random id and, once it has asked to join, its player id. */
  class Connection {
    const id: string
    var playerId: Option<string>

    constructor (id: string)
      ensures this.id == id && playerId == None
    {
      this.id := id;
      playerId := None;
    }
  }

  const JoinFailedMessage: string := "Could not join room."
  const UnknownTypeMessage: string := "Unknown message type."

  /** `Guest-` and the first five characters of the connection id (fewer if it is shorter). */
  function GuestName(connId: string): (r: string)
    ensures |r| == 6 + (if |connId| < 5 then |connId| else 5)
    ensures r[..6] == "Guest-" && r[6..] <= connId
  {
    "Guest-" + (if |connId| < 5 then connId else connId[..5])
  }

  /** The name a joining player gets: the requested one when present and non-empty, else the guest name. */
  function JoinName(playerName: Option<string>, connId: string): (r: string)
    ensures Truthy(playerName) ==> r == playerName.value
    ensures !Truthy(playerName) ==> r == GuestName(connId)
  {
    if Truthy(playerName) then playerName.value else GuestName(connId)
  }

  /** Every envelope of a broadcast carries its event and goes to a member. */
  lemma BroadcastMembers(d: seq<Envelope>, members: set<string>, event: Event)
    requires BroadcastOf(d, members, event)
    ensures forall i | 0 <= i < |d| :: d[i].event == event && d[i].to in members
  {
    forall i | 0 <= i < |d| ensures d[i].to in members {
      assert d[i].to in (set j | 0 <= j < |d| :: d[j].to);
    }
  }

  /** createRoom: registers a fresh empty room under the random id and tells the sender only. */
  method HandleCreateRoom(manager: RoomManager, out: Outbox, conn: Connection, roomName: Option<string>, newRoomId: string)
    requires manager.Valid()
    modifies manager, out
    ensures manager.Valid()
    ensures newRoomId in manager.rooms && fresh(manager.rooms[newRoomId])
    ensures manager.rooms == old(manager.rooms)[newRoomId := manager.rooms[newRoomId]]
    ensures var room := manager.rooms[newRoomId];
            && room.name == roomName && room.players == map[] && room.maxPlayers == DefaultCapacity
            && room.currentState == WaitingForPlayers
    ensures out.sent == old(out.sent) + [Envelope(conn.id, RoomCreated(newRoomId, roomName))]
  {
    var room := manager.CreateRoom(newRoomId, roomName, None);
    out.Send(conn.id, RoomCreated(room.id, room.name));
  }

  /**
   * joinRoom: links the connection to its player id first, then seats the
   * player; members hear `playerJoined` before the sender gets `roomJoined`,
   * and a failed join answers `joinRoomFailed` and seats nobody.
   */
  method HandleJoinRoom(manager: RoomManager, out: Outbox, conn: Connection, roomId: Option<string>, playerName: Option<string>)
    requires manager.Valid()
    modifies conn, manager.rooms.Values`players, out
    ensures manager.Valid()
    ensures conn.playerId == Some(conn.id)
    ensures var name := JoinName(playerName, conn.id);
            var ok := roomId.Some? && roomId.value in manager.rooms
                      && old(|manager.rooms[roomId.value].players|) < manager.rooms[roomId.value].maxPlayers;
            && (ok ==>
                  && manager.rooms[roomId.value].players == old(manager.rooms[roomId.value].players)[conn.id := Player(conn.id, name)]
                  && |out.sent| > |old(out.sent)|
                  && old(out.sent) <= out.sent[..|out.sent| - 1]
                  && BroadcastOf(out.sent[|old(out.sent)|..|out.sent| - 1], manager.rooms[roomId.value].players.Keys, PlayerJoined(name))
                  && out.sent[|out.sent| - 1] == Envelope(conn.id, RoomJoined(roomId, name)))
            && (!ok ==>
                  && (forall k | k in manager.rooms :: manager.rooms[k].players == old(manager.rooms[k].players))
                  && out.sent == old(out.sent) + [Envelope(conn.id, JoinRoomFailed(JoinFailedMessage))])
    ensures forall k | k in manager.rooms && Some(k) != roomId :: manager.rooms[k].players == old(manager.rooms[k].players)
  {
    var name := JoinName(playerName, conn.id);
    var player := Player(conn.id, name);
    conn.playerId := Some(player.id);
    ghost var before := out.sent;
    var ok := manager.JoinRoom(roomId, player, out);
    ghost var mid := out.sent;
    if ok {
      out.Send(conn.id, RoomJoined(roomId, name));
      assert out.sent[..|out.sent| - 1] == mid;
      assert out.sent[|before|..|out.sent| - 1] == mid[|before|..];
    } else {
      out.Send(conn.id, JoinRoomFailed(JoinFailedMessage));
    }
  }

  /**
   * leaveRoom: when the connection has a player id and the message a room id,
   * leaves that room through the registry and answers `roomLeft`, whether or
   * not the room existed. Otherwise nothing happens.
   */
  method HandleLeaveRoom(manager: RoomManager, out: Outbox, conn: Connection, roomId: Option<string>)
    requires manager.Valid()
    modifies manager, manager.rooms.Values`players, out
    ensures manager.Valid()
    ensures !(Truthy(conn.playerId) && Truthy(roomId)) ==>
              && manager.rooms == old(manager.rooms)
              && (forall k | k in manager.rooms :: manager.rooms[k].players == old(manager.rooms[k].players))
              && out.sent == old(out.sent)
    ensures Truthy(conn.playerId) && Truthy(roomId) ==>
              var id := roomId.value;
              var pid := conn.playerId.value;
              && |out.sent| > |old(out.sent)| && old(out.sent) <= out.sent[..|out.sent| - 1]
              && out.sent[|out.sent| - 1] == Envelope(conn.id, RoomLeft(id))
              && manager.rooms.Keys <= old(manager.rooms).Keys
              && (forall k | k in manager.rooms :: manager.rooms[k] == old(manager.rooms[k]))
              && (forall k | k in manager.rooms && k != id :: manager.rooms[k].players == old(manager.rooms[k].players))
              && (id !in old(manager.rooms) ==>
                    manager.rooms == old(manager.rooms) && out.sent == old(out.sent) + [Envelope(conn.id, RoomLeft(id))])
              && (id in old(manager.rooms) ==>
                    var room := old(manager.rooms[id]);
                    && room.players == old(room.players) - {pid}
                    && manager.rooms == (if room.players == map[] then old(manager.rooms) - {id} else old(manager.rooms))
                    && (pid !in old(room.players) ==> out.sent == old(out.sent) + [Envelope(conn.id, RoomLeft(id))])
                    && (pid in old(room.players) ==>
                          BroadcastOf(out.sent[|old(out.sent)|..|out.sent| - 1], room.players.Keys,
                                      PlayerLeft(old(room.players)[pid].name))))
  {
    if Truthy(conn.playerId) && Truthy(roomId) {
      manager.LeaveRoom(roomId.value, conn.playerId.value, out);
      ghost var mid := out.sent;
      out.Send(conn.id, RoomLeft(roomId.value));
      assert out.sent[..|out.sent| - 1] == mid;
      assert out.sent[|old(out.sent)|..|out.sent| - 1] == mid[|old(out.sent)|..];
    }
  }

  /**
   * chatMessage: with a player id, a room id and a non-empty text, broadcasts
   * the text under the sender's name when the room exists and the sender
   * sits in it; in every other case nothing happens. No room changes.
   */
  method HandleChatMessage(manager: RoomManager, out: Outbox, conn: Connection, roomId: Option<string>, text: Option<string>)
    modifies out
    ensures var delivered := Truthy(conn.playerId) && Truthy(roomId) && Truthy(text)
                             && roomId.value in manager.rooms
                             && conn.playerId.value in manager.rooms[roomId.value].players;
            && (delivered ==>
                  var room := manager.rooms[roomId.value];
                  && old(out.sent) <= out.sent
                  && BroadcastOf(out.sent[|old(out.sent)|..], room.players.Keys,
                                 ChatMessage(room.players[conn.playerId.value].name, text.value)))
            && (!delivered ==> out.sent == old(out.sent))
  {
    if Truthy(conn.playerId) && Truthy(roomId) && Truthy(text) {
      var room := manager.GetRoom(roomId.value);
      if room != null && conn.playerId.value in room.players {
        var sender := room.players[conn.playerId.value];
        room.Broadcast(ChatMessage(sender.name, text.value), out);
      }
    }
  }

  /** Any unrecognised `type`: an error to the sender and nothing else. */
  method HandleUnknown(out: Outbox, conn: Connection)
    modifies out
    ensures out.sent == old(out.sent) + [Envelope(conn.id, Error(UnknownTypeMessage))]
  {
    out.Send(conn.id, Error(UnknownTypeMessage));
  }

  /**
   * close: removes the connection's player from every room that seats it,
   * through Room.RemovePlayer; no room is unregistered, even one left empty.
   * Every envelope sent is a `playerLeft` for that player, addressed to a
   * player who remains in a room the player left; `origin` names that room.
   * The envelopes on behalf of each room that seated the player are one
   * broadcast to the players who remain in it, and a room that did not seat
   * the player sends nothing.
   */
  method HandleClose(manager: RoomManager, out: Outbox, conn: Connection) returns (ghost origin: seq<Room>)
    requires manager.Valid()
    modifies manager.rooms.Values`players, out
    ensures manager.Valid()
    ensures !Truthy(conn.playerId) ==>
              out.sent == old(out.sent) && forall r | r in manager.rooms.Values :: r.players == old(r.players)
    ensures Truthy(conn.playerId) ==>
              forall r | r in manager.rooms.Values :: r.players == old(r.players) - {conn.playerId.value}
    ensures old(out.sent) <= out.sent
    ensures var notices := out.sent[|old(out.sent)|..];
            && |notices| == |origin|
            && forall i | 0 <= i < |origin| ::
                 && conn.playerId.Some? && origin[i] in manager.rooms.Values
                 && conn.playerId.value in old(origin[i].players)
                 && notices[i].to in origin[i].players
                 && notices[i].event == PlayerLeft(old(origin[i].players)[conn.playerId.value].name)
    ensures Truthy(conn.playerId) ==>
              var pid := conn.playerId.value;
              forall r | r in manager.rooms.Values ::
                && (pid in old(r.players) ==>
                      BroadcastOf(NoticesFrom(out.sent[|old(out.sent)|..], origin, r), r.players.Keys,
                                  PlayerLeft(old(r.players)[pid].name)))
                && (pid !in old(r.players) ==> NoticesFrom(out.sent[|old(out.sent)|..], origin, r) == [])
  {
    origin := [];
    if !Truthy(conn.playerId) {
      return;
    }
    var pid := conn.playerId.value;
    var pending := manager.rooms.Values;
    ghost var all := pending;
    ghost var start := SeatsOf(all);
    ghost var now := start;
    ghost var notices: seq<Envelope> := [];
    while pending != {}
      invariant manager.rooms.Values == all
      invariant forall r | r in all :: start[r] == old(r.players)
      invariant Seated(all, now)
      invariant Unseating(all, start, now, pending, pid)
      invariant Notified(all, start, now, pending, pid, notices, origin)
      invariant Complete(all, start, pending, pid, notices, origin)
      invariant out.sent == old(out.sent) + notices
      decreases pending
    {
      var room :| room in pending;
      ghost var step := RemoveFromRoom(room, out, pid, all, now);
      UnseatingStep(all, start, now, pending, pid, room);
      assert now[room] == start[room];
      CompleteStep(all, start, pending, pid, notices, origin, room, step);
      NotifiedStep(all, start, now, pending, pid, notices, origin, room, step);
      AppendAssoc(old(out.sent), notices, step);
      now := now[room := now[room] - {pid}];
      notices := notices + step;
      origin := origin + Repeat(room, |step|);
      pending := pending - {room};
    }
    AppendAssoc(old(out.sent), notices, []);
  }

  /** Who sits in each room of `all`. */
  ghost function SeatsOf(all: set<Room>): (m: map<Room, map<string, Player>>)
    reads all`players
    ensures m.Keys == all && forall r | r in all :: m[r] == r.players
  {
    map r | r in all :: r.players
  }

  /** `now` tells who sits in each room of `all`, and every one of them is valid. */
  ghost predicate Seated(all: set<Room>, now: map<Room, map<string, Player>>)
    reads all`players
  {
    && now.Keys == all
    && forall r | r in all :: r.players == now[r] && r.Valid()
  }

  /**
   * Progress of the close handler over the rooms `all`, seated as `start`
   * before it and as `now` at this point: the rooms still `pending` are
   * untouched and the others have lost `pid`.
   */
  ghost predicate Unseating(all: set<Room>, start: map<Room, map<string, Player>>, now: map<Room, map<string, Player>>,
                            pending: set<Room>, pid: string)
  {
    && pending <= all && start.Keys == all && now.Keys == all
    && (forall r | r in pending :: now[r] == start[r])
    && (forall r | r in all && r !in pending :: now[r] == start[r] - {pid})
  }

  lemma UnseatingStep(all: set<Room>, start: map<Room, map<string, Player>>, now: map<Room, map<string, Player>>,
                      pending: set<Room>, pid: string, room: Room)
    requires Unseating(all, start, now, pending, pid) && room in pending
    ensures Unseating(all, start, now[room := now[room] - {pid}], pending - {room}, pid)
  {
  }

  /**
   * The close handler's notices so far: `notices[i]` is a `playerLeft` for
   * `pid` sent on behalf of the handled room `origin[i]`, which seated `pid`
   * at the start, to a player who is still in it.
   */
  ghost predicate Notified(all: set<Room>, start: map<Room, map<string, Player>>, now: map<Room, map<string, Player>>,
                           pending: set<Room>, pid: string, notices: seq<Envelope>, origin: seq<Room>)
  {
    && |notices| == |origin|
    && forall i | 0 <= i < |origin| ::
         && origin[i] in all && origin[i] in start && origin[i] in now && origin[i] !in pending
         && pid in start[origin[i]]
         && notices[i].to in now[origin[i]]
         && notices[i].event == PlayerLeft(start[origin[i]][pid].name)
  }

  /** Every envelope of `d` tells a player who stays in a room seated as `seats` that `pid` left it. */
  ghost predicate LeftNotices(d: seq<Envelope>, pid: string, seats: map<string, Player>)
  {
    forall i | 0 <= i < |d| ::
      && d[i].to in seats - {pid}
      && pid in seats && d[i].event == PlayerLeft(seats[pid].name)
  }

  /** Handling one pending room keeps Notified, with the new notices attributed to it. */
  lemma NotifiedStep(all: set<Room>, start: map<Room, map<string, Player>>, now: map<Room, map<string, Player>>,
                     pending: set<Room>, pid: string, notices: seq<Envelope>, origin: seq<Room>,
                     room: Room, step: seq<Envelope>)
    requires Notified(all, start, now, pending, pid, notices, origin)
    requires room in all && room in start && room in now && room in pending && now[room] == start[room]
    requires LeftNotices(step, pid, now[room])
    ensures Notified(all, start, now[room := now[room] - {pid}], pending - {room}, pid,
                     notices + step, origin + Repeat(room, |step|))
  {
    var now', notices', origin' := now[room := now[room] - {pid}], notices + step, origin + Repeat(room, |step|);
    forall i | 0 <= i < |origin'|
      ensures && origin'[i] in all && origin'[i] in start && origin'[i] in now' && origin'[i] !in pending - {room}
              && pid in start[origin'[i]]
              && notices'[i].to in now'[origin'[i]]
              && notices'[i].event == PlayerLeft(start[origin'[i]][pid].name)
    {
      if i < |origin| {
        assert origin'[i] == origin[i] && notices'[i] == notices[i];
      } else {
        var j := i - |origin|;
        assert origin'[i] == room && notices'[i] == step[j];
        assert step[j].to in now[room] - {pid};
      }
    }
  }

  /** The envelopes of `notices` sent on behalf of room `r`, in order. */
  ghost function NoticesFrom(notices: seq<Envelope>, origin: seq<Room>, r: Room): seq<Envelope>
  {
    if notices == [] || origin == [] then []
    else (if origin[0] == r then [notices[0]] else []) + NoticesFrom(notices[1..], origin[1..], r)
  }

  lemma {:induction false} NoticesFromAppend(n1: seq<Envelope>, o1: seq<Room>, n2: seq<Envelope>, o2: seq<Room>, r: Room)
    requires |n1| == |o1|
    ensures NoticesFrom(n1 + n2, o1 + o2, r) == NoticesFrom(n1, o1, r) + NoticesFrom(n2, o2, r)
  {
    if n1 == [] {
      assert n1 + n2 == n2 && o1 + o2 == o2;
    } else {
      assert (n1 + n2)[1..] == n1[1..] + n2 && (o1 + o2)[1..] == o1[1..] + o2;
      NoticesFromAppend(n1[1..], o1[1..], n2, o2, r);
    }
  }

  lemma {:induction false} NoticesFromRepeat(step: seq<Envelope>, room: Room, r: Room)
    ensures NoticesFrom(step, Repeat(room, |step|), r) == if r == room then step else []
  {
    if step != [] {
      assert Repeat(room, |step|)[1..] == Repeat(room, |step[1..]|);
      NoticesFromRepeat(step[1..], room, r);
      assert [step[0]] + step[1..] == step;
    }
  }

  lemma {:induction false} NoticesFromAbsent(notices: seq<Envelope>, origin: seq<Room>, r: Room)
    requires forall i | 0 <= i < |origin| :: origin[i] != r
    ensures NoticesFrom(notices, origin, r) == []
  {
    if notices != [] && origin != [] {
      NoticesFromAbsent(notices[1..], origin[1..], r);
    }
  }

  /**
   * For every handled room: the notices on its behalf are one `playerLeft`
   * broadcast to those who remain if it seated `pid`, and none otherwise.
   */
  ghost predicate Complete(all: set<Room>, start: map<Room, map<string, Player>>, pending: set<Room>, pid: string,
                           notices: seq<Envelope>, origin: seq<Room>)
  {
    forall r | r in all && r in start && r !in pending ::
      && (pid in start[r] ==>
            BroadcastOf(NoticesFrom(notices, origin, r), (start[r] - {pid}).Keys, PlayerLeft(start[r][pid].name)))
      && (pid !in start[r] ==> NoticesFrom(notices, origin, r) == [])
  }

  /** Handling one pending room completes its notices and leaves the other rooms' as they were. */
  lemma CompleteStep(all: set<Room>, start: map<Room, map<string, Player>>, pending: set<Room>, pid: string,
                     notices: seq<Envelope>, origin: seq<Room>, room: Room, step: seq<Envelope>)
    requires Complete(all, start, pending, pid, notices, origin)
    requires |notices| == |origin| && forall i | 0 <= i < |origin| :: origin[i] !in pending
    requires room in pending && room in start
    requires pid in start[room] ==> BroadcastOf(step, (start[room] - {pid}).Keys, PlayerLeft(start[room][pid].name))
    requires pid !in start[room] ==> step == []
    ensures Complete(all, start, pending - {room}, pid, notices + step, origin + Repeat(room, |step|))
  {
    NoticesFromAbsent(notices, origin, room);
    forall r | r in all && r in start && r !in pending - {room}
      ensures && (pid in start[r] ==>
                    BroadcastOf(NoticesFrom(notices + step, origin + Repeat(room, |step|), r), (start[r] - {pid}).Keys,
                                PlayerLeft(start[r][pid].name)))
              && (pid !in start[r] ==> NoticesFrom(notices + step, origin + Repeat(room, |step|), r) == [])
    {
      NoticesFromAppend(notices, origin, step, Repeat(room, |step|), r);
      NoticesFromRepeat(step, room, r);
      if r == room {
        assert NoticesFrom(notices + step, origin + Repeat(room, |step|), r) == step;
      } else {
        assert NoticesFrom(notices + step, origin + Repeat(room, |step|), r) == NoticesFrom(notices, origin, r);
      }
    }
  }

  /** The close handler's loop body for one room: Room.RemovePlayer, naming what it sent. */
  method RemoveFromRoom(room: Room, out: Outbox, pid: string, ghost all: set<Room>,
                        ghost now: map<Room, map<string, Player>>)
    returns (ghost step: seq<Envelope>)
    requires Seated(all, now) && room in all
    modifies room`players, out
    ensures Seated(all, now[room := now[room] - {pid}])
    ensures out.sent == old(out.sent) + step
    ensures LeftNotices(step, pid, now[room])
    ensures pid in now[room] ==> BroadcastOf(step, (now[room] - {pid}).Keys, PlayerLeft(now[room][pid].name))
    ensures pid !in now[room] ==> step == []
  {
    ghost var seats := now[room];
    ghost var before := out.sent;
    room.RemovePlayer(pid, out);
    step := out.sent[|before|..];
    PrefixThenRest(before, out.sent);
    assert room.players == seats - {pid};
    LeftNoticesOfBroadcast(step, pid, seats);
  }

  /** The notices of one RemovePlayer are all `playerLeft` for `pid`, to players who remain. */
  lemma LeftNoticesOfBroadcast(step: seq<Envelope>, pid: string, seats: map<string, Player>)
    requires pid in seats ==> BroadcastOf(step, (seats - {pid}).Keys, PlayerLeft(seats[pid].name))
    requires pid !in seats ==> step == []
    ensures LeftNotices(step, pid, seats)
  {
    if pid in seats {
      BroadcastMembers(step, (seats - {pid}).Keys, PlayerLeft(seats[pid].name));
    }
  }
}
