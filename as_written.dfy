/**
 * The game phase of a room exactly as the shipped server provides it.
 *
 * server/dist/Room.js assigns only `id`, `name`, `players` and `maxPlayers`:
 * `currentState`, `submittedSearchHistories` and `submittedVotes` stay
 * `undefined`. server/dist/RoomState.js has no `VOTING` member, so
 * `RoomState.VOTING` is `undefined` too. This module follows the phase
 * checks of server/dist/index.js over those values; the rest of the model
 * (module Gateway) uses initialised fields and a Voting phase of its own.
 */
module AsWritten {
  import opened Protocol

  /** A phase field as JavaScript holds it: unassigned, or one of the enum's strings. */
  datatype PhaseValue = Undefined | Phase(name: string)

  /** The members of the compiled `RoomState` enum. */
  const EnumMembers: set<string> := {"WAITING_FOR_PLAYERS", "IN_GAME", "RANKING", "ROUND_END", "GAME_END"}

  /** `RoomState[key]`: the member's string, or `undefined` for a key the enum lacks. */
  function Member(key: string): (v: PhaseValue)
    ensures v.Undefined? <==> key !in EnumMembers
  {
    if key in EnumMembers then Phase(key) else Undefined
  }

  /** The phase fields of a shipped room; `None` is a map that was never created. */
  datatype ShippedRoom = ShippedRoom(
    players: map<string, Player>,
    state: PhaseValue,
    histories: Option<map<string, seq<HistoryEntry>>>,
    votes: Option<map<string, string>>)

  /** `new Room(id, name)` as compiled: a roster, and nothing else. */
  function Fresh(players: map<string, Player>): (r: ShippedRoom)
    ensures r.state.Undefined? && r.histories.None? && r.votes.None?
  {
    ShippedRoom(players, Undefined, None, None)
  }

  /**
   * What reaches a room's phase: a roster change (join, leave, close), a
   * startGame, a history (with the player the random pick would choose) or
   * a vote, each with the fields the guards require present.
   */
  datatype PhaseCommand =
    | Roster(players: map<string, Player>)
    | StartGame
    | SubmitHistory(playerId: string, history: seq<HistoryEntry>, pick: string)
    | SubmitVote(playerId: string, vote: string)

  /** A handler either refuses (an error to the sender), completes, or throws on an undefined map. */
  datatype Outcome = Refused | Done(room: ShippedRoom) | Threw

  /** The phase effect of one command, with the comparisons of server/dist/index.js. */
  function Apply(r: ShippedRoom, c: PhaseCommand): (o: Outcome)
    ensures c.StartGame? ==> (o.Refused? <==> r.state != Phase("WAITING_FOR_PLAYERS"))
    ensures c.SubmitVote? && r.state.Undefined? && r.votes.None? ==> o.Threw?
  {
    match c
    case Roster(players) => Done(r.(players := players))
    case StartGame =>
      if r.state == Member("WAITING_FOR_PLAYERS") then Done(r.(state := Member("IN_GAME"))) else Refused
    case SubmitHistory(pid, history, pick) =>
      if r.state != Member("IN_GAME") then Refused
      else if r.histories.None? then Threw
      else
        var stored := r.histories.value[pid := history];
        if |stored| != |r.players| then Done(r.(histories := Some(stored)))
        else if pick in stored then Done(r.(histories := Some(map[]), state := Member("VOTING")))
        else Done(r.(histories := Some(map[])))
    case SubmitVote(pid, vote) =>
      if r.state != Member("VOTING") then Refused
      else if r.votes.None? then Threw
      else
        var votes := r.votes.value[pid := vote];
        if |votes| != |r.players| then Done(r.(votes := Some(votes)))
        else Done(r.(votes := Some(map[]), state := Member("IN_GAME")))
  }

  /** The room after a series of commands, or `None` once a handler has thrown. */
  function Run(r: ShippedRoom, cmds: seq<PhaseCommand>): Option<ShippedRoom>
    decreases |cmds|
  {
    if cmds == [] then Some(r)
    else
      match Apply(r, cmds[0])
      case Refused => Run(r, cmds[1..])
      case Done(next) => Run(next, cmds[1..])
      case Threw => None
  }

  /** A freshly created room refuses startGame. */
  lemma FreshRoomRefusesStart(players: map<string, Player>)
    ensures Apply(Fresh(players), StartGame) == Refused
  {
  }

  /**
   * A freshly created room passes the voting guard (`undefined ===
   * undefined`) and then throws on the missing vote map.
   */
  lemma FreshRoomVoteThrows(players: map<string, Player>, playerId: string, vote: string)
    ensures Apply(Fresh(players), SubmitVote(playerId, vote)) == Threw
  {
  }

  /**
   * Whatever arrives, a shipped room never leaves its undefined phase: every
   * startGame and every history is refused, and the first vote throws.
   */
  lemma {:induction false} NeverStarts(r: ShippedRoom, cmds: seq<PhaseCommand>)
    requires r.state.Undefined? && r.histories.None? && r.votes.None?
    ensures Run(r, cmds).Some? ==> Run(r, cmds).value.state.Undefined?
    ensures forall i | 0 <= i < |cmds| && cmds[i].StartGame? :: Run(r, cmds[..i]).Some? ==> Apply(Run(r, cmds[..i]).value, StartGame) == Refused
    decreases |cmds|
  {
    if cmds != [] {
      var o := Apply(r, cmds[0]);
      assert o.Refused? || o.Threw? || (o.Done? && o.room.state.Undefined? && o.room.histories.None? && o.room.votes.None?);
      assert Run(r, cmds[..0]) == Some(r);
      if !o.Threw? {
        var next := if o.Done? then o.room else r;
        assert Run(r, cmds) == Run(next, cmds[1..]);
        NeverStarts(next, cmds[1..]);
        forall i | 1 <= i < |cmds| && cmds[i].StartGame?
          ensures Run(r, cmds[..i]).Some? ==> Apply(Run(r, cmds[..i]).value, StartGame) == Refused
        {
          assert cmds[..i][1..] == cmds[1..][..i - 1];
          assert Run(r, cmds[..i]) == Run(next, cmds[1..][..i - 1]);
        }
      } else {
        forall i | 1 <= i < |cmds| && cmds[i].StartGame?
          ensures Run(r, cmds[..i]).Some? ==> Apply(Run(r, cmds[..i]).value, StartGame) == Refused
        {
          assert cmds[..i][0] == cmds[0];
          assert Run(r, cmds[..i]) == None;
        }
      }
    }
  }

  /**
   * Even with the fields initialised, revealing a term moves the room to
   * `RoomState.VOTING`, which is `undefined`: a one-player room that
   * completes its history round ends with no phase at all.
   */
  lemma RevealLosesPhase(players: map<string, Player>, playerId: string, history: seq<HistoryEntry>)
    requires players.Keys == {playerId}
    ensures var r := ShippedRoom(players, Member("IN_GAME"), Some(map[]), Some(map[]));
            var o := Apply(r, SubmitHistory(playerId, history, playerId));
            o.Done? && o.room.state.Undefined?
  {
    var stored: map<string, seq<HistoryEntry>> := map[playerId := history];
    assert stored.Keys == players.Keys;
    assert |stored| == |stored.Keys| == |players.Keys| == |players|;
  }
}
