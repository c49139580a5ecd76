/**
 * The ranking screen (extension/src/views/RankingView.tsx): the list of
 * player ids the user orders, its drag-and-drop reorder and its submit.
 *
 * The reorder follows `Array.prototype.indexOf` and `splice` exactly,
 * including `indexOf`'s -1 for a missing id and `splice`'s reading of a
 * negative start as counted from the end.
 */
module RankingView {
  import opened Protocol
  import opened ClientApp

  /** `players.map(p => p.id)`. */
  function Ids(players: seq<Player>): (r: seq<string>)
    ensures |r| == |players|
    ensures forall i | 0 <= i < |r| :: r[i] == players[i].id
  {
    if players == [] then [] else [players[0].id] + Ids(players[1..])
  }

  /**
   * `initialPlayersToRank` as ids: every player but the current one, in
   * roster order. With no current player (`null`) nobody is left out.
   */
  function PlayersToRank(players: seq<Player>, current: Option<string>): (r: seq<string>)
    ensures |r| <= |players|
    ensures forall x :: x in r <==> x in Ids(players) && Some(x) != current
    ensures current.None? ==> r == Ids(players)
  {
    if players == [] then []
    else
      var rest := PlayersToRank(players[1..], current);
      assert Ids(players) == [players[0].id] + Ids(players[1..]);
      if Some(players[0].id) != current then [players[0].id] + rest else rest
  }

  /**
   * When the current player sits at index `k` and nobody else has that id,
   * the list to rank is the roster with exactly that seat taken out.
   */
  lemma {:induction false} PlayersToRankDropsOnlySelf(players: seq<Player>, k: int)
    requires 0 <= k < |players|
    requires forall j | 0 <= j < |players| && j != k :: players[j].id != players[k].id
    ensures PlayersToRank(players, Some(players[k].id)) == Ids(players[..k] + players[k + 1..])
  {
    var me := Some(players[k].id);
    var tail := players[1..];
    if k == 0 {
      assert players[..0] + players[1..] == tail;
      NobodyDropped(tail, me);
    } else {
      TailUnique(players, k);
      PlayersToRankDropsOnlySelf(tail, k - 1);
      var others := tail[..k - 1] + tail[k..];
      SeatRemoved(players, k);
      IdsCons(players[0], others);
      PlayersToRankCons(players, me);
    }
  }

  /** Uniqueness of the current id carries over to the rest of the roster. */
  lemma TailUnique(players: seq<Player>, k: int)
    requires 0 < k < |players|
    requires forall j | 0 <= j < |players| && j != k :: players[j].id != players[k].id
    ensures players[1..][k - 1] == players[k]
    ensures forall j | 0 <= j < |players[1..]| && j != k - 1 :: players[1..][j].id != players[1..][k - 1].id
  {
    forall j | 0 <= j < |players[1..]| && j != k - 1
      ensures players[1..][j].id != players[1..][k - 1].id
    {
      assert players[1..][j] == players[j + 1];
    }
  }

  /** Taking out seat `k > 0` keeps the first seat in front. */
  lemma SeatRemoved(players: seq<Player>, k: int)
    requires 0 < k < |players|
    ensures players[..k] + players[k + 1..] == [players[0]] + (players[1..][..k - 1] + players[1..][k..])
  {
  }

  lemma IdsCons(p: Player, rest: seq<Player>)
    ensures Ids([p] + rest) == [p.id] + Ids(rest)
  {
    assert ([p] + rest)[1..] == rest;
  }

  /** A first player who is not the current one stays first. */
  lemma PlayersToRankCons(players: seq<Player>, current: Option<string>)
    requires players != [] && Some(players[0].id) != current
    ensures PlayersToRank(players, current) == [players[0].id] + PlayersToRank(players[1..], current)
  {
  }

  /** With nobody holding the current id, the list to rank is the whole roster. */
  lemma {:induction false} NobodyDropped(players: seq<Player>, current: Option<string>)
    requires forall p | p in players :: Some(p.id) != current
    ensures PlayersToRank(players, current) == Ids(players)
  {
    if players != [] {
      NobodyDropped(players[1..], current);
      assert Ids(players) == [players[0].id] + Ids(players[1..]);
    }
  }

  /** `items.indexOf(x)`: the first index holding `x`, or -1. */
  function IndexOf(items: seq<string>, x: string): (i: int)
    ensures -1 <= i < |items|
    ensures i == -1 <==> x !in items
    ensures 0 <= i ==> items[i] == x && x !in items[..i]
  {
    if items == [] then -1
    else if items[0] == x then 0
    else
      var i := IndexOf(items[1..], x);
      assert items[1..][..if i < 0 then 0 else i] == items[1..if i < 0 then 1 else i + 1];
      if i < 0 then -1 else i + 1
  }

  /** Where `splice(start, …)` begins on a list of `len` elements: negative starts count from the end. */
  function SpliceStart(len: nat, start: int): (k: nat)
    ensures k <= len
    ensures 0 <= start <= len ==> k == start
  {
    if start < 0 then (if len + start < 0 then 0 else len + start)
    else if start > len then len
    else start
  }

  /** `s` without the element at `i`. */
  function Remove<T>(s: seq<T>, i: nat): (r: seq<T>)
    requires i < |s|
    ensures |r| == |s| - 1
    ensures multiset(r) + multiset{s[i]} == multiset(s)
  {
    assert s == s[..i] + [s[i]] + s[i + 1..];
    s[..i] + s[i + 1..]
  }

  /** `s` with `x` placed at index `i`. */
  function Insert<T>(s: seq<T>, i: nat, x: T): (r: seq<T>)
    requires i <= |s|
    ensures |r| == |s| + 1 && r[i] == x
    ensures multiset(r) == multiset(s) + multiset{x}
    ensures Remove(r, i) == s
  {
    assert s == s[..i] + s[i..];
    var r := s[..i] + [x] + s[i..];
    assert r[..i] == s[..i] && r[i + 1..] == s[i..];
    r
  }

  /**
   * `handleDragEnd`: with no drop target (`over` is null) reading `over.id`
   * throws and the list stays; dropping an item on itself changes nothing;
   * otherwise the item at `indexOf(active)` is spliced out and spliced back
   * in at `indexOf(over)`, both positions taken in the list before the move.
   * A drag needs a non-empty list to start from.
   */
  function DragEnd(items: seq<string>, active: string, over: Option<string>): (r: seq<string>)
    requires items != []
    ensures over.None? || over.value == active ==> r == items
    ensures |r| == |items|
    ensures multiset(r) == multiset(items)
  {
    if over.None? || over.value == active then items
    else
      var from := SpliceStart(|items|, IndexOf(items, active));
      var rest := Remove(items, from);
      Insert(rest, SpliceStart(|rest|, IndexOf(items, over.value)), items[from])
  }

  /**
   * Moving one listed item onto another: the moved item lands at the index
   * the target had, and taking it back out leaves the other items in their
   * old relative order.
   */
  lemma DragEndMoves(items: seq<string>, active: string, over: string)
    requires active in items && over in items && active != over
    ensures var r := DragEnd(items, active, Some(over));
            && r[IndexOf(items, over)] == active
            && Remove(r, IndexOf(items, over)) == Remove(items, IndexOf(items, active))
  {
  }

  /** One finished drag: the dragged id and the id it was dropped on, if any. */
  datatype Drag = Drag(active: string, over: Option<string>)

  /** The list after a series of drags, applied in order. */
  function DragAll(items: seq<string>, drags: seq<Drag>): seq<string>
    requires items != []
    decreases drags
  {
    if drags == [] then items
    else
      var next := DragEnd(items, drags[0].active, drags[0].over);
      assert |next| == |items|;
      DragAll(next, drags[1..])
  }

  /** However many drags happen, the submitted order is a rearrangement of the initial list. */
  lemma {:induction false} DragAllPermutes(items: seq<string>, drags: seq<Drag>)
    requires items != []
    ensures |DragAll(items, drags)| == |items|
    ensures multiset(DragAll(items, drags)) == multiset(items)
    decreases drags
  {
    if drags != [] {
      var next := DragEnd(items, drags[0].active, drags[0].over);
      DragAllPermutes(next, drags[1..]);
    }
  }

  /** `onSubmit`: hands the current order, unchanged, to App's ranking sender. */
  function OnSubmit(s: AppState, ranked: seq<string>): (r: Option<Command>)
    ensures r.Some? <==> Truthy(s.currentRoomId)
    ensures r.Some? ==> r.value == SubmitRankingsCommand(s.currentRoomId.value, ranked)
  {
    SubmitRankingsRequest(s, ranked)
  }
}
