/**
 * Wire-level vocabulary of the game server: decoded inbound commands, the
 * outbound events it emits, and the outbox that stands for every
 * `ws.send` the server performs.
 *
 * JavaScript's `undefined` (a missing JSON field) is `None`; a field is
 * "truthy" when it is present and not the empty string.
 */
module Protocol {

  datatype Option<+T> = None | Some(value: T)
  {
    function GetOr(default: T): T
    {
      match this
      case Some(v) => v
      case None => default
    }
  }

  /** JavaScript truthiness of an optional string field. */
  predicate Truthy(o: Option<string>)
  {
    o.Some? && o.value != ""
  }

  /** A seated player: the id is the id of the player's connection. */
  datatype Player = Player(id: string, name: string)

  /** One entry of a submitted search history, as the server reads it. */
  datatype HistoryEntry = HistoryEntry(query: Option<string>, timestamp: Option<int>)

  /** The record the term-selection service answers with. */
  datatype Analysis = Analysis(
    selectedSearchTerm: string,
    sentiment: string,
    keywords: seq<string>,
    category: string)

  /** An inbound command after `JSON.parse`: its `type` and the fields the handlers read. */
  datatype Inbound = Inbound(
    kind: Option<string>,
    roomName: Option<string>,
    roomId: Option<string>,
    playerName: Option<string>,
    history: Option<seq<HistoryEntry>>,
    vote: Option<string>,
    text: Option<string>)

  /** Every event the server sends, with the fields it puts in it. */
  datatype Event =
    | RoomCreated(roomId: string, roomName: Option<string>)
    | RoomJoined(joinedRoomId: Option<string>, playerName: string)
    | JoinRoomFailed(failure: string)
    | RoomLeft(leftRoomId: string)
    | PlayerJoined(joinedName: string)
    | PlayerLeft(leftName: string)
    | GameStarted(startedRoomId: string)
    | SearchRevealed(analysis: Analysis)
    | RoundResults(results: string)
    | ChatMessage(sender: string, text: string)
    | Error(message: string)

  /** One `send` on the connection whose id is `to`. */
  datatype Envelope = Envelope(to: string, event: Event)

  /** Everything the server has sent so far, in order. */
  class Outbox {
    var sent: seq<Envelope>

    constructor ()
      ensures sent == []
    {
      sent := [];
    }

    method Send(to: string, event: Event)
      modifies this
      ensures sent == old(sent) + [Envelope(to, event)]
    {
      sent := sent + [Envelope(to, event)];
    }
  }

  function Recipients(d: seq<Envelope>): (r: seq<string>)
    ensures |r| == |d|
    ensures forall i | 0 <= i < |d| :: r[i] == d[i].to
  {
    if d == [] then [] else [d[0].to] + Recipients(d[1..])
  }

  predicate Distinct<T(==)>(s: seq<T>)
  {
    forall i, j | 0 <= i < j < |s| :: s[i] != s[j]
  }

  /** How many envelopes of `d` go to `who`. */
  function CountTo(d: seq<Envelope>, who: string): nat
  {
    if d == [] then 0 else (if d[0].to == who then 1 else 0) + CountTo(d[1..], who)
  }

  /**
   * `d` is one broadcast of `event` to `members`: every envelope carries the
   * event, no member is addressed twice and exactly the members are addressed.
   * The order is left open: the source walks a Map in insertion order.
   */
  ghost predicate BroadcastOf(d: seq<Envelope>, members: set<string>, event: Event)
  {
    && (forall i | 0 <= i < |d| :: d[i].event == event)
    && Distinct(Recipients(d))
    && (set i | 0 <= i < |d| :: d[i].to) == members
  }

  /** Extending a broadcast by one envelope for a new member. */
  lemma BroadcastExtend(d: seq<Envelope>, members: set<string>, event: Event, who: string)
    requires BroadcastOf(d, members, event) && who !in members
    ensures BroadcastOf(d + [Envelope(who, event)], members + {who}, event)
  {
    var e := d + [Envelope(who, event)];
    assert Recipients(e) == Recipients(d) + [who];
    forall x | x in (set i | 0 <= i < |e| :: e[i].to)
      ensures x in members + {who}
    {
      var i :| 0 <= i < |e| && e[i].to == x;
      if i < |d| { assert d[i].to == x; }
    }
    forall x | x in members + {who}
      ensures x in (set i | 0 <= i < |e| :: e[i].to)
    {
      if x == who {
        assert e[|d|].to == x;
      } else {
        var i :| 0 <= i < |d| && d[i].to == x;
        assert e[i].to == x;
      }
    }
  }

  /** A broadcast to nobody sends nothing. */
  lemma BroadcastToNobody(d: seq<Envelope>, event: Event)
    requires BroadcastOf(d, {}, event)
    ensures d == []
  {
    BroadcastSize(d, {}, event);
  }

  lemma {:induction false} CountToDistinct(d: seq<Envelope>, who: string)
    requires Distinct(Recipients(d))
    ensures CountTo(d, who) == if who in (set i | 0 <= i < |d| :: d[i].to) then 1 else 0
  {
    if d != [] {
      var rest := d[1..];
      assert Recipients(rest) == Recipients(d)[1..];
      CountToDistinct(rest, who);
      AddresseesCons(d);
      HeadNotRepeated(d);
    }
  }

  /** The addressees of a non-empty sequence: its head's, and those of the rest. */
  lemma AddresseesCons(d: seq<Envelope>)
    requires d != []
    ensures (set i | 0 <= i < |d| :: d[i].to) == {d[0].to} + (set i | 0 <= i < |d[1..]| :: d[1..][i].to)
  {
    var rest := d[1..];
    var all := set i | 0 <= i < |d| :: d[i].to;
    var tail := set i | 0 <= i < |rest| :: rest[i].to;
    forall x | x in all ensures x in {d[0].to} + tail {
      var i :| 0 <= i < |d| && d[i].to == x;
      if i > 0 { assert rest[i - 1].to == x; }
    }
    forall x | x in tail ensures x in all {
      var i :| 0 <= i < |rest| && rest[i].to == x;
      assert d[i + 1].to == x;
    }
  }

  /** With distinct recipients, the head's addressee is nobody else's. */
  lemma HeadNotRepeated(d: seq<Envelope>)
    requires d != [] && Distinct(Recipients(d))
    ensures d[0].to !in (set i | 0 <= i < |d[1..]| :: d[1..][i].to)
  {
    var rest := d[1..];
    forall i | 0 <= i < |rest| ensures rest[i].to != d[0].to {
      assert Recipients(d)[0] != Recipients(d)[i + 1];
    }
  }

  /** A broadcast addresses each member exactly once and nobody else. */
  lemma BroadcastReachesEachMemberOnce(d: seq<Envelope>, members: set<string>, event: Event, who: string)
    requires BroadcastOf(d, members, event)
    ensures CountTo(d, who) == if who in members then 1 else 0
  {
    CountToDistinct(d, who);
  }

  lemma {:induction false} DistinctSetSize(s: seq<string>)
    requires Distinct(s)
    ensures |set i | 0 <= i < |s| :: s[i]| == |s|
  {
    if s != [] {
      var last := |s| - 1;
      var init := s[..last];
      DistinctSetSize(init);
      var all := set i | 0 <= i < |s| :: s[i];
      var front := set i | 0 <= i < |init| :: init[i];
      assert all == front + {s[last]} by {
        forall x | x in all ensures x in front + {s[last]} {
          var i :| 0 <= i < |s| && s[i] == x;
          if i < last { assert init[i] == x; }
        }
      }
      assert s[last] !in front by {
        forall i | 0 <= i < |init| ensures init[i] != s[last] {
          assert s[i] != s[last];
        }
      }
    }
  }

  /** A broadcast sends exactly one envelope per member. */
  lemma BroadcastSize(d: seq<Envelope>, members: set<string>, event: Event)
    requires BroadcastOf(d, members, event)
    ensures |d| == |members|
  {
    var r := Recipients(d);
    DistinctSetSize(r);
    assert (set i | 0 <= i < |r| :: r[i]) == (set i | 0 <= i < |d| :: d[i].to);
  }

  /** A sequence that extends `a` is `a` followed by the rest. */
  lemma PrefixThenRest<T>(a: seq<T>, b: seq<T>)
    requires a <= b
    ensures b == a + b[|a|..] && (a + b[|a|..])[|a|..] == b[|a|..]
  {
  }

  lemma AppendAssoc<T>(a: seq<T>, b: seq<T>, c: seq<T>)
    ensures a + b + c == a + (b + c) && (a + b)[|a|..] == b
  {
  }

  /** `n` copies of `x`. */
  function Repeat<T>(x: T, n: nat): (r: seq<T>)
    ensures |r| == n && forall i | 0 <= i < n :: r[i] == x
  {
    if n == 0 then [] else [x] + Repeat(x, n - 1)
  }
}
