/**
 * The game-over screen (extension/src/views/GameOverView.tsx): the final
 * scores ordered from highest to lowest, the winner, and the names shown.
 *
 * `Array.prototype.sort` is stable, so entries with equal scores keep the
 * order `Object.entries` gave them; the sort is modelled as a stable
 * insertion sort and specified by what any stable descending sort yields.
 */
module GameOverView {
  import opened Protocol
  import opened ClientApp

  /** Non-increasing by score. */
  predicate SortedDesc(s: seq<ScoreEntry>)
  {
    forall i, j | 0 <= i < j < |s| :: s[i].score >= s[j].score
  }

  /** The entries holding score `v`, in the order they appear. */
  function WithScore(s: seq<ScoreEntry>, v: int): (r: seq<ScoreEntry>)
    ensures forall e | e in r :: e in s && e.score == v
  {
    if s == [] then []
    else (if s[0].score == v then [s[0]] else []) + WithScore(s[1..], v)
  }

  /**
   * Places `e`, which came before every entry of `s`, in front of the first
   * entry that does not score strictly higher.
   */
  function InsertDesc(e: ScoreEntry, s: seq<ScoreEntry>): (r: seq<ScoreEntry>)
    requires SortedDesc(s)
    ensures SortedDesc(r)
    ensures multiset(r) == multiset(s) + multiset{e}
    ensures r[0] == e || r[0] == s[0]
  {
    if s == [] then [e]
    else if s[0].score > e.score then
      var rest := InsertDesc(e, s[1..]);
      ConsSorted(s[0], rest);
      assert s == [s[0]] + s[1..];
      [s[0]] + rest
    else
      ConsSorted(e, s);
      [e] + s
  }

  /** An entry scoring at least the head of a sorted list can go in front of it. */
  lemma ConsSorted(x: ScoreEntry, t: seq<ScoreEntry>)
    requires SortedDesc(t) && (t == [] || x.score >= t[0].score)
    ensures SortedDesc([x] + t)
  {
    var r := [x] + t;
    forall i, j | 0 <= i < j < |r|
      ensures r[i].score >= r[j].score
    {
      if i == 0 && j > 1 {
        assert t[0].score >= t[j - 1].score;
      }
    }
  }

  /** Inserting keeps every score's entries in their order, with `e` ahead of its equals. */
  lemma {:induction false} InsertDescStable(e: ScoreEntry, s: seq<ScoreEntry>, v: int)
    requires SortedDesc(s)
    ensures WithScore(InsertDesc(e, s), v) == if e.score == v then [e] + WithScore(s, v) else WithScore(s, v)
  {
    var r := InsertDesc(e, s);
    if s == [] {
      assert WithScore([e], v) == (if e.score == v then [e] else []) + WithScore([], v);
    } else if s[0].score > e.score {
      InsertDescStable(e, s[1..], v);
      assert r[1..] == InsertDesc(e, s[1..]);
    } else {
      assert r[1..] == s;
    }
  }

  /** `entries.sort(([, a], [, b]) => b - a)`. */
  function SortDesc(s: seq<ScoreEntry>): (r: seq<ScoreEntry>)
    ensures SortedDesc(r)
    ensures multiset(r) == multiset(s)
  {
    if s == [] then []
    else
      var rest := SortDesc(s[1..]);
      assert s == [s[0]] + s[1..];
      InsertDesc(s[0], rest)
  }

  /** The sort is stable: for every score, its entries keep their relative order. */
  lemma {:induction false} SortDescStable(s: seq<ScoreEntry>, v: int)
    ensures WithScore(SortDesc(s), v) == WithScore(s, v)
  {
    if s != [] {
      var rest := SortDesc(s[1..]);
      SortDescStable(s[1..], v);
      InsertDescStable(s[0], rest, v);
      assert SortDesc(s) == InsertDesc(s[0], rest);
      assert WithScore(s, v) == (if s[0].score == v then [s[0]] else []) + WithScore(s[1..], v);
    }
  }

  /** `sortedScores`: no scores (`null`) give the empty list. */
  function SortedScores(finalScores: Option<seq<ScoreEntry>>): (r: seq<ScoreEntry>)
    ensures finalScores.None? ==> r == []
    ensures finalScores.Some? ==> SortedDesc(r) && multiset(r) == multiset(finalScores.value)
  {
    match finalScores
    case None => []
    case Some(entries) => SortDesc(entries)
  }

  /** `winnerId`: the id of the first sorted entry, or null when there is none. */
  function WinnerId(sorted: seq<ScoreEntry>): (w: Option<string>)
    ensures w.None? <==> sorted == []
    ensures w.Some? ==> w.value == sorted[0].playerId
  {
    if |sorted| > 0 then Some(sorted[0].playerId) else None
  }

  /**
   * The winner holds the top score, and among entries sharing it the winner
   * is the one `Object.entries` listed first.
   */
  lemma {:induction false} WinnerHasTopScore(entries: seq<ScoreEntry>)
    requires entries != []
    ensures var sorted := SortedScores(Some(entries));
            exists i | 0 <= i < |entries| ::
              && entries[i].playerId == WinnerId(sorted).value
              && (forall j | 0 <= j < |entries| :: entries[i].score >= entries[j].score)
              && (forall j | 0 <= j < i :: entries[j].score < entries[i].score)
  {
    var sorted := SortedScores(Some(entries));
    assert |sorted| == |multiset(entries)| == |entries|;
    var top := sorted[0];
    forall j | 0 <= j < |entries|
      ensures top.score >= entries[j].score
    {
      assert entries[j] in multiset(sorted);
      var k :| 0 <= k < |sorted| && sorted[k] == entries[j];
      if k > 0 {
        assert sorted[0].score >= sorted[k].score;
      }
    }
    assert WithScore(sorted, top.score) == [top] + WithScore(sorted[1..], top.score);
    SortDescStable(entries, top.score);
    var i := FirstWithScore(entries, top.score);
    assert entries[i] == top;
  }

  /**
   * When some entry scores `v`, the first entry of WithScore is the earliest
   * such entry.
   */
  lemma {:induction false} FirstWithScoreIs(s: seq<ScoreEntry>, v: int)
    requires WithScore(s, v) != []
    ensures exists i | 0 <= i < |s| :: s[i] == WithScore(s, v)[0] && s[i].score == v
              && forall j | 0 <= j < i :: s[j].score != v
  {
    if s[0].score != v {
      assert WithScore(s, v) == WithScore(s[1..], v);
      FirstWithScoreIs(s[1..], v);
      var i :| 0 <= i < |s[1..]| && s[1..][i] == WithScore(s[1..], v)[0] && s[1..][i].score == v
               && forall j | 0 <= j < i :: s[1..][j].score != v;
      assert s[i + 1] == s[1..][i];
      forall j | 0 <= j < i + 1
        ensures s[j].score != v
      {
        if j > 0 {
          assert s[j] == s[1..][j - 1];
        }
      }
    }
  }

  /** The index of the earliest entry scoring `v`, when WithScore names it. */
  function FirstWithScore(s: seq<ScoreEntry>, v: int): (i: int)
    requires WithScore(s, v) != []
    ensures 0 <= i < |s| && s[i] == WithScore(s, v)[0] && s[i].score == v
    ensures forall j | 0 <= j < i :: s[j].score != v
  {
    FirstWithScoreIs(s, v);
    var i :| 0 <= i < |s| && s[i] == WithScore(s, v)[0] && s[i].score == v
             && forall j | 0 <= j < i :: s[j].score != v;
    i
  }

  /** `winnerName`: the winner's display name, or 'N/A' when there is no winner id (or it is empty). */
  function WinnerName(players: seq<Player>, winnerId: Option<string>): (name: string)
    ensures !Truthy(winnerId) ==> name == "N/A"
    ensures Truthy(winnerId) ==> name == PlayerNameById(players, winnerId.value)
  {
    if Truthy(winnerId) then PlayerNameById(players, winnerId.value) else "N/A"
  }

  /** Without scores there is no winner, and the name shown is 'N/A'. */
  lemma NoScoresNoWinner(players: seq<Player>)
    ensures SortedScores(None) == [] && WinnerId(SortedScores(None)).None?
    ensures WinnerName(players, WinnerId(SortedScores(None))) == "N/A"
  {
  }

  /** A score row whose player is not in the roster shows the player id. */
  lemma RowNameFallsBackToId(players: seq<Player>, entry: ScoreEntry)
    requires forall p | p in players :: p.id != entry.playerId
    ensures PlayerNameById(players, entry.playerId) == entry.playerId
  {
  }
}
