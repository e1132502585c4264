/** The client's game slice: players, stories, round, scores, the story under
    judgement, votes and the vote lock, changed in place by six reducers. */
module GameSlice {
  import opened Common

  /** A JavaScript number as it can sit in `scores`: an integer, or NaN once
      `+=` has been applied to a missing entry (`undefined + n` is NaN). */
  datatype Score = Num(value: int) | NaN

  /** `scores[k] += d`, where a missing entry reads as `undefined`. */
  function Add(x: Option<Score>, d: int): (r: Score)
    ensures (x.Some? && x.value.Num?) <==> r.Num?
    ensures r.Num? ==> r.value == x.value.value + d
  {
    match x
    case Some(Num(v)) => Num(v + d)
    case _ => NaN
  }

  function Lookup(scores: map<PlayerId, Score>, k: PlayerId): Option<Score> {
    if k in scores then Some(scores[k]) else None
  }

  /** Points are doubled after round 4. */
  function Multiplier(round: int): (m: int)
    ensures 1 <= m <= 2
    ensures m == 2 <==> round > 4
  {
    if round > 4 then 2 else 1
  }

  /** The voters whose vote is not for `owner`: the players the author fooled
      (`Object.values(votes).filter(v => v !== owner).length`). */
  function Fooled(votes: map<PlayerId, PlayerId>, owner: PlayerId): set<PlayerId> {
    set voter | voter in votes && votes[voter] != owner
  }

  function FooledCount(votes: map<PlayerId, PlayerId>, owner: PlayerId): (n: nat)
    ensures n <= |votes|
  {
    var fooled := Fooled(votes, owner);
    assert fooled <= votes.Keys;
    SubsetSize(fooled, votes.Keys);
    |fooled|
  }

  lemma {:induction false} SubsetSize<K>(a: set<K>, b: set<K>)
    requires a <= b
    ensures |a| <= |b|
    decreases b
  {
    if a != {} {
      var x :| x in a;
      SubsetSize(a - {x}, b - {x});
    }
  }

  /** The author's own vote, which can never name the author when cast
      through the game screen, is one of the fooled votes: fooledCount counts
      it. */
  lemma OwnVoteIsFooled(votes: map<PlayerId, PlayerId>, owner: PlayerId)
    requires owner in votes && votes[owner] != owner
    ensures FooledCount(votes, owner) == 1 + FooledCount(map k | k in votes && k != owner :: votes[k], owner)
  {
    var others := map k | k in votes && k != owner :: votes[k];
    assert Fooled(votes, owner) == Fooled(others, owner) + {owner};
  }

  /** Entries of `scores` that `endRound` writes: a voter who named the
      author, and the author when the author is a key of `votes`. */
  predicate Touched(votes: map<PlayerId, PlayerId>, owner: PlayerId, k: PlayerId) {
    k in votes && (votes[k] == owner || k == owner)
  }

  /** What `endRound` adds to entry `k`: 2*m for a correct guess, and
      fooledCount*m to the author, who is only reached while iterating over
      `votes` when the author has voted. */
  function ReducerDelta(votes: map<PlayerId, PlayerId>, owner: PlayerId, round: int, k: PlayerId): (d: int)
    ensures 0 <= d
    ensures !Touched(votes, owner, k) ==> d == 0
    ensures k == owner && owner !in votes ==> d == 0
  {
    var m := Multiplier(round);
    (if k in votes && votes[k] == owner then 2 * m else 0)
    + (if k == owner && owner in votes then FooledCount(votes, owner) * m else 0)
  }

  /** The scores after the entries of the voters in `done` have been
      processed by the `forEach` of `endRound`. */
  ghost function ScoresAfter(scores: map<PlayerId, Score>, votes: map<PlayerId, PlayerId>, owner: PlayerId,
                             round: int, done: set<PlayerId>): map<PlayerId, Score>
  {
    map k | k in scores.Keys + (set v | v in done && Touched(votes, owner, v)) ::
      if k in done && Touched(votes, owner, k) then Add(Lookup(scores, k), ReducerDelta(votes, owner, round, k))
      else scores[k]
  }

  /** The scores `endRound` leaves behind. */
  ghost function EndRoundScores(scores: map<PlayerId, Score>, votes: map<PlayerId, PlayerId>, owner: PlayerId,
                                round: int): (after: map<PlayerId, Score>)
    ensures scores.Keys <= after.Keys
    ensures forall k :: k in after && k !in scores ==> Touched(votes, owner, k) && after[k] == NaN
  {
    ScoresAfter(scores, votes, owner, round, votes.Keys)
  }

  /** The scoring rule of `endRound`, entry by entry: a voter who named the
      author gains 2*m; the author gains fooledCount*m when (and only when)
      the author is a key of `votes`; every other entry, present or not, is
      left exactly as it was; a missing entry that is written becomes NaN. */
  lemma EndRoundScoring(scores: map<PlayerId, Score>, votes: map<PlayerId, PlayerId>, owner: PlayerId,
                        round: int, k: PlayerId)
    ensures var after := EndRoundScores(scores, votes, owner, round);
      && (!Touched(votes, owner, k) ==> Lookup(after, k) == Lookup(scores, k))
      && (Touched(votes, owner, k) ==> Lookup(after, k) == Some(Add(Lookup(scores, k), ReducerDelta(votes, owner, round, k))))
      && (k != owner && k in votes && votes[k] == owner ==> ReducerDelta(votes, owner, round, k) == 2 * Multiplier(round))
      && (k == owner && owner in votes && votes[k] != owner ==>
            ReducerDelta(votes, owner, round, k) == FooledCount(votes, owner) * Multiplier(round))
      && (k == owner && owner !in votes ==> Lookup(after, k) == Lookup(scores, k))
  {
  }

  /** `endRound` never lowers a numeric score: every entry that held a number
      holds a number at least as large. */
  lemma EndRoundNeverDecreases(scores: map<PlayerId, Score>, votes: map<PlayerId, PlayerId>, owner: PlayerId,
                               round: int, k: PlayerId)
    requires k in scores && scores[k].Num?
    ensures var after := EndRoundScores(scores, votes, owner, round);
      k in after && after[k].Num? && after[k].value >= scores[k].value
  {
  }

  /** Processing one more voter `v` changes entry `v` only. */
  lemma {:induction false} ScoresAfterStep(scores: map<PlayerId, Score>, votes: map<PlayerId, PlayerId>, owner: PlayerId,
                                           round: int, done: set<PlayerId>, v: PlayerId)
    requires v in votes && v !in done
    ensures var before := ScoresAfter(scores, votes, owner, round, done);
      ScoresAfter(scores, votes, owner, round, done + {v})
      == if Touched(votes, owner, v) then before[v := Add(Lookup(scores, v), ReducerDelta(votes, owner, round, v))]
         else before
  {
    var before := ScoresAfter(scores, votes, owner, round, done);
    var after := ScoresAfter(scores, votes, owner, round, done + {v});
    assert Lookup(before, v) == Lookup(scores, v);
    if Touched(votes, owner, v) {
      assert after.Keys == before.Keys + {v};
    } else {
      assert after.Keys == before.Keys;
    }
  }

  /** The `forEach` callback for the entry `[voter, votes[voter]]`: a
      touched entry gains its delta, and nothing else changes. */
  method ScoreVote(scores: map<PlayerId, Score>, votes: map<PlayerId, PlayerId>, owner: PlayerId, round: int,
                   voter: PlayerId) returns (next: map<PlayerId, Score>)
    requires voter in votes
    ensures Touched(votes, owner, voter) ==>
              next == scores[voter := Add(Lookup(scores, voter), ReducerDelta(votes, owner, round, voter))]
    ensures !Touched(votes, owner, voter) ==> next == scores
  {
    next := scores;
    var vote := votes[voter];
    var multiplier := if round > 4 then 2 else 1;
    if vote == owner {
      next := next[voter := Add(Lookup(next, voter), 2 * multiplier)];
    }
    if voter == owner {
      var fooledCount := FooledCount(votes, owner);
      next := next[owner := Add(Lookup(next, owner), fooledCount * multiplier)];
    }
  }

  /** The `forEach` over `Object.entries(votes)` inside `endRound`, on a copy
      of the scores: a voter who named the author gains 2*m, and the author,
      when reached as a voter, gains fooledCount*m. */
  method ScoreRound(scores0: map<PlayerId, Score>, votes: map<PlayerId, PlayerId>, owner: PlayerId, round: int)
    returns (scores: map<PlayerId, Score>)
    ensures scores == EndRoundScores(scores0, votes, owner, round)
  {
    scores := scores0;
    var pending := votes.Keys;
    while pending != {}
      invariant pending <= votes.Keys
      invariant scores == ScoresAfter(scores0, votes, owner, round, votes.Keys - pending)
      decreases pending
    {
      var voter :| voter in pending;
      ScoresAfterStep(scores0, votes, owner, round, votes.Keys - pending, voter);
      assert Lookup(scores, voter) == Lookup(scores0, voter);
      scores := ScoreVote(scores, votes, owner, round, voter);
      assert votes.Keys - (pending - {voter}) == (votes.Keys - pending) + {voter};
      pending := pending - {voter};
    }
    assert votes.Keys - pending == votes.Keys;
  }

  /** The whole state of the slice as a value. */
  datatype GameValue = GameValue(players: seq<Player>, stories: seq<Story>, round: int,
                                 scores: map<PlayerId, Score>, currentStory: Option<Story>,
                                 votes: map<PlayerId, PlayerId>, voteLocked: bool)

  /** The slice's `initialState`. */
  const Initial := GameValue([], [], 1, map[], None, map[], false)

  class GameState {
    var players: seq<Player>
    var stories: seq<Story>
    var round: int
    var scores: map<PlayerId, Score>
    var currentStory: Option<Story>
    var votes: map<PlayerId, PlayerId>
    var voteLocked: bool

    ghost function Value(): GameValue
      reads this
    {
      GameValue(players, stories, round, scores, currentStory, votes, voteLocked)
    }

    /** The store starts from `initialState`. */
    constructor ()
      ensures Value() == Initial
    {
      players, stories, round := [], [], 1;
      scores, currentStory, votes, voteLocked := map[], None, map[], false;
    }

    /** `submitStory`: one story, stamped with the current round, appended. */
    method SubmitStory(text: string, playerId: PlayerId)
      modifies this
      ensures Value() == old(Value()).(stories := old(stories) + [Story(text, playerId, old(round))])
    {
      stories := stories + [Story(text, playerId, round)];
    }

    /** `lockVote`: records (or replaces) the player's vote and locks voting. */
    method LockVote(playerId: PlayerId, vote: PlayerId)
      modifies this
      ensures Value() == old(Value()).(votes := old(votes)[playerId := vote], voteLocked := true)
      ensures votes[playerId] == vote
      ensures forall k :: k != playerId ==> (k in votes <==> k in old(votes))
      ensures forall k :: k != playerId && k in votes ==> votes[k] == old(votes)[k]
    {
      votes := votes[playerId := vote];
      voteLocked := true;
    }

    /** `endRound`: scores the round, steps the round and clears the votes.
        With no story under judgement `state.currentStory.owner` throws, the
        reducer is abandoned and the state stays as it was (`ok` is false). */
    method EndRound() returns (ok: bool)
      modifies this
      ensures ok == old(currentStory).Some?
      ensures !ok ==> Value() == old(Value())
      ensures ok ==> Value() == old(Value()).(
                scores := EndRoundScores(old(scores), old(votes), old(currentStory).value.owner, old(round)),
                round := old(round) + 1, voteLocked := false, votes := map[])
    {
      if currentStory.None? {
        return false;
      }
      var owner := currentStory.value.owner;
      var s := ScoreRound(scores, votes, owner, round);
      scores := s;
      round := round + 1;
      voteLocked := false;
      votes := map[];
      ok := true;
    }

    /** `addPlayer`: appends the player and gives it a score of 0. */
    method AddPlayer(player: Player)
      modifies this
      ensures Value() == old(Value()).(players := old(players) + [player], scores := old(scores)[player.id := Num(0)])
    {
      players := players + [player];
      scores := scores[player.id := Num(0)];
    }

    /** `setCurrentStory`: the story under judgement (null clears it). */
    method SetCurrentStory(story: Option<Story>)
      modifies this
      ensures Value() == old(Value()).(currentStory := story)
    {
      currentStory := story;
    }

    /** `resetGame`: back to `initialState`, whatever the state was, so a
        second reset changes nothing. */
    method ResetGame()
      modifies this
      ensures Value() == Initial
    {
      players := [];
      stories := [];
      round := 1;
      scores := map[];
      currentStory := None;
      votes := map[];
      voteLocked := false;
    }
  }
}
