/** The scoreboard: the players, highest score first, numbered from 1. */
module Scoreboard {
  import opened Common

  /** The sort key. Only all-present or all-absent scores are sorted (see
      `Uniform`), and with all absent every comparison is equal, so reading
      an absent score as 0 orders both cases as `b.score - a.score` does. */
  function Key(p: Player): int {
    p.score.GetOr(0)
  }

  /** Every player has a score, or none has. With a mix, `b.score - a.score`
      is NaN for some pairs and the comparator is inconsistent. */
  ghost predicate Uniform(players: seq<Player>) {
    (forall i :: 0 <= i < |players| ==> players[i].score.Some?)
    || (forall i :: 0 <= i < |players| ==> players[i].score.None?)
  }

  ghost predicate NonIncreasing(s: seq<Player>) {
    forall i, j :: 0 <= i < j < |s| ==> Key(s[i]) >= Key(s[j])
  }

  /** Places `p` in front of the first player it does not score below, so
      that it stays ahead of players with an equal score. */
  function Insert(p: Player, s: seq<Player>): (r: seq<Player>)
    requires NonIncreasing(s)
    ensures |r| == |s| + 1
    ensures forall k :: 0 <= k < |r| ==> r[k] == p || r[k] in s
    ensures NonIncreasing(r)
    ensures |s| > 0 && Key(s[0]) > Key(p) ==> r[0] == s[0]
    ensures (|s| == 0 || Key(s[0]) <= Key(p)) ==> r[0] == p
  {
    if s == [] || Key(s[0]) <= Key(p) then [p] + s
    else
      var rest := Insert(p, s[1..]);
      assert s == [s[0]] + s[1..];
      [s[0]] + rest
  }

  /** Insertion adds exactly the one player: the result is a permutation of
      `s` with `p` added. */
  lemma {:induction false} InsertPermutes(p: Player, s: seq<Player>)
    requires NonIncreasing(s)
    ensures multiset(Insert(p, s)) == multiset(s) + multiset{p}
  {
    if !(s == [] || Key(s[0]) <= Key(p)) {
      InsertPermutes(p, s[1..]);
      assert s == [s[0]] + s[1..];
    }
  }

  /** `[...players].sort((a, b) => b.score - a.score)`, a stable sort on a
      copy: highest score first. */
  function SortedPlayers(players: seq<Player>): (sorted: seq<Player>)
    requires Uniform(players)
    ensures |sorted| == |players|
    ensures multiset(sorted) == multiset(players)
    ensures NonIncreasing(sorted)
  {
    if players == [] then []
    else
      assert players == [players[0]] + players[1..];
      InsertPermutes(players[0], SortedPlayers(players[1..]));
      Insert(players[0], SortedPlayers(players[1..]))
  }

  /** Before the first round is scored nobody has a score, and the
      scoreboard keeps the roster order. */
  lemma {:induction false} NoScoresKeepOrder(players: seq<Player>)
    requires forall i :: 0 <= i < |players| ==> players[i].score.None?
    ensures SortedPlayers(players) == players
  {
    if players != [] {
      NoScoresKeepOrder(players[1..]);
      assert players == [players[0]] + players[1..];
    }
  }

  /** One line of the scoreboard. */
  datatype Row = Row(position: nat, name: string, score: Option<int>)

  /** The rendered rows: position `index + 1`, name and score of each sorted
      player. */
  function Rows(sorted: seq<Player>): (rows: seq<Row>)
    ensures |rows| == |sorted|
    ensures forall i :: 0 <= i < |rows| ==> rows[i] == Row(i + 1, sorted[i].name, sorted[i].score)
  {
    seq(|sorted|, i requires 0 <= i < |sorted| => Row(i + 1, sorted[i].name, sorted[i].score))
  }
}
