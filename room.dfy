/**
 * One game room (server/src/Room.ts): a bounded map of players that tells
 * its members about every change in membership.
 *
 * The game fields (`currentState`, the two submission maps and the revealed
 * term) are read and written by the command handlers of server/dist/index.js.
 * server/dist/Room.js never initialises them; this model starts them at
 * `WaitingForPlayers`, empty maps and no term (see module AsWritten for what
 * the uninitialised fields do).
 */
module Rooms {
  import opened Protocol

  /**
   * The phases named in server/dist/RoomState.js, plus `Voting`: the handlers
   * use a `RoomState.VOTING` that the enum does not declare, so it gets its
   * own constructor here.
   */
  datatype RoomState = WaitingForPlayers | InGame | Ranking | RoundEnd | GameEnd | Voting

  /** Capacity of a room created without an explicit one. */
  const DefaultCapacity := 2

  class Room {
    const id: string
    const name: Option<string>
    const maxPlayers: int
    var players: map<string, Player>
    var currentState: RoomState
    var submittedSearchHistories: map<string, seq<HistoryEntry>>
    var submittedVotes: map<string, string>
    var currentRoundSearchTerm: Option<string>

    /** Players are keyed by their own id, and never more than the capacity. */
    ghost predicate Valid()
      reads this`players
    {
      && (|players| <= maxPlayers || players == map[])
      && forall k | k in players :: players[k].id == k
    }

    constructor (id: string, name: Option<string>, maxPlayers: int := DefaultCapacity)
      ensures Valid()
      ensures this.id == id && this.name == name && this.maxPlayers == maxPlayers
      ensures players == map[] && currentState == WaitingForPlayers
      ensures submittedSearchHistories == map[] && submittedVotes == map[]
      ensures currentRoundSearchTerm == None
    {
      this.id := id;
      this.name := name;
      this.maxPlayers := maxPlayers;
      players := map[];
      currentState := WaitingForPlayers;
      submittedSearchHistories := map[];
      submittedVotes := map[];
      currentRoundSearchTerm := None;
    }

    /** Seats `player` while the room is below capacity, then tells every member (the newcomer too). */
    method AddPlayer(player: Player, out: Outbox) returns (ok: bool)
      requires Valid()
      modifies this`players, out
      ensures Valid()
      ensures ok <==> old(|players|) < maxPlayers
      ensures ok ==> players == old(players)[player.id := player]
      ensures ok ==> (old(out.sent) <= out.sent
                  && BroadcastOf(out.sent[|old(out.sent)|..], players.Keys, PlayerJoined(player.name)))
      ensures !ok ==> players == old(players) && out.sent == old(out.sent)
    {
      if |players| < maxPlayers {
        assert |players[player.id := player]| <= |players| + 1 by {
          assert players[player.id := player].Keys == players.Keys + {player.id};
        }
        players := players[player.id := player];
        Broadcast(PlayerJoined(player.name), out);
        ok := true;
      } else {
        ok := false;
      }
    }

    /** Unseats `playerId` if present and tells the players who remain; otherwise does nothing. */
    method RemovePlayer(playerId: string, out: Outbox)
      requires Valid()
      modifies this`players, out
      ensures Valid()
      ensures players == old(players) - {playerId}
      ensures playerId !in old(players) ==> out.sent == old(out.sent)
      ensures playerId in old(players) ==> (old(out.sent) <= out.sent
                  && BroadcastOf(out.sent[|old(out.sent)|..], players.Keys, PlayerLeft(old(players)[playerId].name)))
    {
      if playerId in players {
        var player := players[playerId];
        assert |players - {playerId}| <= |players| by {
          assert (players - {playerId}).Keys <= players.Keys;
        }
        players := players - {playerId};
        Broadcast(PlayerLeft(player.name), out);
      }
    }

    /** Sends `event` once to every current player; the room itself is unchanged. */
    method Broadcast(event: Event, out: Outbox)
      modifies out
      ensures old(out.sent) <= out.sent
      ensures BroadcastOf(out.sent[|old(out.sent)|..], players.Keys, event)
    {
      var pending := players.Keys;
      ghost var start := |out.sent|;
      while pending != {}
        invariant pending <= players.Keys
        invariant start <= |out.sent| && out.sent[..start] == old(out.sent)
        invariant BroadcastOf(out.sent[start..], players.Keys - pending, event)
        decreases pending
      {
        var p :| p in pending;
        ghost var before := out.sent[start..];
        out.Send(p, event);
        assert out.sent[start..] == before + [Envelope(p, event)];
        BroadcastExtend(before, players.Keys - pending, event, p);
        assert players.Keys - pending + {p} == players.Keys - (pending - {p});
        pending := pending - {p};
      }
    }
  }
}
