/** The game screen's round logic: choosing the topic, noticing that everyone
    has submitted or voted, picking the story to judge, scoring a round and
    stepping to the next one. Every database write goes through the lobby
    store; `Math.random` and key order are parameters. */
module GameScreen {
  import opened Common
  import opened Store
  import opened GameSlice
  import Helpers

  /** What the listener does about the topic for a snapshot. */
  datatype TopicAction =
    | ShowStored(topic: string)   // a topic is stored: show it
    | Publish(topic: string)      // host, no topic stored: write and show `topics[round - 1]`
    | Keep                        // nothing to do
    | Fail                        // `topics[round - 1]` is undefined and `set` throws

  /** The topic branch of the game listener for the stored `currentTopic`,
      the host flag and the stored `round` (both tested for truthiness). */
  function TopicStep(stored: Option<string>, isHost: bool, round: Option<int>): (a: TopicAction)
    ensures stored.Some? && stored.value != "" ==> a == ShowStored(stored.value)
    ensures a.Publish? <==> (stored.None? || stored.value == "") && isHost && round.Some?
                            && 1 <= round.value <= |Helpers.StoryTopics()|
    ensures a.Publish? ==> a.topic == Helpers.StoryTopics()[round.value - 1]
    ensures a.Fail? <==> (stored.None? || stored.value == "") && isHost && round.Some?
                         && (round.value < 0 || round.value > |Helpers.StoryTopics()|)
    ensures !isHost ==> !a.Publish? && !a.Fail?
  {
    var topics := Helpers.StoryTopics();
    if stored.Some? && stored.value != "" then ShowStored(stored.value)
    else if isHost && round.Some? && round.value != 0 then
      if 1 <= round.value <= |topics| then Publish(topics[round.value - 1]) else Fail
    else Keep
  }

  /** Once a topic is stored no later snapshot replaces it, whatever the
      round: the topic of the first published round stays for the game. */
  lemma TopicIsNeverRefreshed(t: string, isHost: bool, r1: Option<int>, r2: Option<int>)
    requires t != ""
    ensures TopicStep(Some(t), isHost, r1) == TopicStep(Some(t), isHost, r2) == ShowStored(t)
  {
  }

  /** `stories && Object.keys(stories).length === players.length`. */
  predicate AllSubmitted(stories: map<PlayerId, Story>, rosterSize: nat): (all: bool)
    ensures all ==> rosterSize > 0 && |stories| == rosterSize
    ensures |stories| != rosterSize ==> !all
  {
    |stories| > 0 && |stories| == rosterSize
  }

  /** `votes && Object.keys(votes).length === players.length`. */
  predicate AllVoted(votes: map<PlayerId, PlayerId>, rosterSize: nat): (all: bool)
    ensures all ==> rosterSize > 0 && |votes| == rosterSize
    ensures |votes| != rosterSize ==> !all
  {
    |votes| > 0 && |votes| == rosterSize
  }

  /** Stories are never cleared between rounds: once a full roster has
      submitted, the first submission of a later round already reports that
      everyone has submitted. */
  lemma {:induction false} StaleStoriesAdvanceEarly(stories: map<PlayerId, Story>, id: PlayerId, s: Story)
    requires id in stories
    ensures AllSubmitted(stories[id := s], |stories|)
  {
    assert stories[id := s].Keys == stories.Keys;
  }

  /** `Object.values(stories)[pick]`, with `order` the key order and `pick`
      the injected `Math.floor(Math.random() * n)`. */
  function PickStory(stories: map<PlayerId, Story>, order: seq<PlayerId>, pick: nat): (s: Story)
    requires Enumerates(order, stories.Keys)
    requires pick < |order|
    ensures s in stories.Values
    ensures order[pick] in stories && s == stories[order[pick]]
  {
    stories[order[pick]]
  }

  /** The phase after the round `nextRound - 1`: eight rounds, then game over. */
  function NextPhase(nextRound: int): (p: Phase)
    ensures p == GameOver <==> nextRound > 8
    ensures p != GameOver ==> p == Submission
  {
    if nextRound > 8 then GameOver else Submission
  }

  /** What `handleNextRound` adds to the score of the player `id`: 2*m for a
      correct guess, and fooledCount*m to the author, found by scanning the
      roster rather than the votes. */
  function ScreenDelta(votes: map<PlayerId, PlayerId>, owner: PlayerId, round: int, id: PlayerId): (d: int)
    ensures 0 <= d
    ensures id != owner && !(id in votes && votes[id] == owner) ==> d == 0
    ensures id != owner && id in votes && votes[id] == owner ==> d == 2 * Multiplier(round)
  {
    var m := Multiplier(round);
    (if id in votes && votes[id] == owner then 2 * m else 0)
    + (if id == owner then FooledCount(votes, owner) * m else 0)
  }

  /** The score `handleNextRound` writes for `p`: `(p.score || 0)` plus its
      delta. */
  function ScreenScore(p: Player, votes: map<PlayerId, PlayerId>, owner: PlayerId, round: int): (score: int)
    ensures score >= p.score.GetOr(0)
    ensures p.id != owner && !(p.id in votes && votes[p.id] == owner) ==> score == p.score.GetOr(0)
  {
    p.score.GetOr(0) + ScreenDelta(votes, owner, round, p.id)
  }

  /** When the author has voted, the screen's scoring and the reducer's
      scoring give every player the same delta, and so the same score. */
  lemma ScoringAgreesWhenOwnerVoted(scores: map<PlayerId, Score>, votes: map<PlayerId, PlayerId>, owner: PlayerId,
                                    round: int, p: Player)
    requires owner in votes
    requires p.id in scores && scores[p.id] == Num(p.score.GetOr(0))
    ensures ScreenDelta(votes, owner, round, p.id) == ReducerDelta(votes, owner, round, p.id)
    ensures EndRoundScores(scores, votes, owner, round)[p.id] == Num(ScreenScore(p, votes, owner, round))
  {
    EndRoundScoring(scores, votes, owner, round, p.id);
  }

  /** When the author has not voted but fooled someone, the screen credits
      the author and the reducer leaves the author's entry as it was. */
  lemma ScoringDivergesWhenOwnerSilent(scores: map<PlayerId, Score>, votes: map<PlayerId, PlayerId>, owner: PlayerId,
                                       round: int)
    requires owner !in votes && FooledCount(votes, owner) > 0
    ensures ScreenDelta(votes, owner, round, owner) == FooledCount(votes, owner) * Multiplier(round) > 0
    ensures ReducerDelta(votes, owner, round, owner) == 0
    ensures Lookup(EndRoundScores(scores, votes, owner, round), owner) == Lookup(scores, owner)
  {
    EndRoundScoring(scores, votes, owner, round, owner);
  }

  /** The two scorings agree for every player exactly when the author has
      voted or nobody was fooled. */
  lemma ScoringAgreement(votes: map<PlayerId, PlayerId>, owner: PlayerId, round: int)
    ensures (forall id :: ScreenDelta(votes, owner, round, id) == ReducerDelta(votes, owner, round, id))
            <==> (owner in votes || FooledCount(votes, owner) == 0)
  {
    if !(owner in votes || FooledCount(votes, owner) == 0) {
      assert ScreenDelta(votes, owner, round, owner) != ReducerDelta(votes, owner, round, owner);
    }
  }

  /** Round 2, author P1, votes {P2: P1, P3: P1, P4: P2}: the screen gives
      P1 +1, P2 +2, P3 +2 and P4 nothing; round 6 doubles every delta. The
      author did not vote, so the reducer gives P1 nothing. */
  lemma ScoringExample()
    ensures var votes := map["P2" := "P1", "P3" := "P1", "P4" := "P2"];
      && ScreenDelta(votes, "P1", 2, "P1") == 1 && ScreenDelta(votes, "P1", 2, "P2") == 2
      && ScreenDelta(votes, "P1", 2, "P3") == 2 && ScreenDelta(votes, "P1", 2, "P4") == 0
      && ScreenDelta(votes, "P1", 6, "P1") == 2 && ScreenDelta(votes, "P1", 6, "P2") == 4
      && ScreenDelta(votes, "P1", 6, "P3") == 4 && ScreenDelta(votes, "P1", 6, "P4") == 0
      && ReducerDelta(votes, "P1", 2, "P1") == 0
  {
    var votes := map["P2" := "P1", "P3" := "P1", "P4" := "P2"];
    assert Fooled(votes, "P1") == {"P4"} by {
      assert "P4" in Fooled(votes, "P1");
      forall v | v in Fooled(votes, "P1") ensures v == "P4" {
        assert v in votes.Keys && votes.Keys == {"P2", "P3", "P4"};
      }
    }
  }

  /** The lobby's player entries after `handleNextRound` has written the
      score of each roster player in turn. */
  function WithScores(ps: map<PlayerId, Player>, roster: seq<Player>, votes: map<PlayerId, PlayerId>,
                      owner: PlayerId, round: int): (r: map<PlayerId, Player>)
    requires forall i :: 0 <= i < |roster| ==> roster[i].id in ps
    ensures r.Keys == ps.Keys
    decreases |roster|
  {
    if roster == [] then ps
    else
      var last := roster[|roster| - 1];
      var before := WithScores(ps, roster[..|roster| - 1], votes, owner, round);
      before[last.id := before[last.id].(score := Some(ScreenScore(last, votes, owner, round)))]
  }

  /** Entries of players off the roster are left as they were. */
  lemma {:induction false} WithScoresKeepsOthers(ps: map<PlayerId, Player>, roster: seq<Player>,
                                                 votes: map<PlayerId, PlayerId>, owner: PlayerId, round: int,
                                                 id: PlayerId)
    requires forall i :: 0 <= i < |roster| ==> roster[i].id in ps
    requires id in ps && forall i :: 0 <= i < |roster| ==> roster[i].id != id
    ensures WithScores(ps, roster, votes, owner, round)[id] == ps[id]
    decreases |roster|
  {
    if roster != [] {
      var init := roster[..|roster| - 1];
      assert forall k :: 0 <= k < |init| ==> init[k] == roster[k];
      WithScoresKeepsOthers(ps, init, votes, owner, round, id);
    }
  }

  /** With distinct ids on the roster, each roster player's entry ends up
      with its `ScreenScore` and everything else in it kept; entries of
      players off the roster are untouched. */
  lemma {:induction false} WithScoresSpec(ps: map<PlayerId, Player>, roster: seq<Player>,
                                          votes: map<PlayerId, PlayerId>, owner: PlayerId, round: int)
    requires forall i :: 0 <= i < |roster| ==> roster[i].id in ps
    requires forall i, j :: 0 <= i < j < |roster| ==> roster[i].id != roster[j].id
    ensures forall i :: 0 <= i < |roster| ==>
              WithScores(ps, roster, votes, owner, round)[roster[i].id]
              == ps[roster[i].id].(score := Some(ScreenScore(roster[i], votes, owner, round)))
    ensures forall id :: id in ps && (forall i :: 0 <= i < |roster| ==> roster[i].id != id) ==>
              WithScores(ps, roster, votes, owner, round)[id] == ps[id]
    decreases |roster|
  {
    forall id | id in ps && (forall i :: 0 <= i < |roster| ==> roster[i].id != id)
      ensures WithScores(ps, roster, votes, owner, round)[id] == ps[id]
    {
      WithScoresKeepsOthers(ps, roster, votes, owner, round, id);
    }
    if roster != [] {
      var init := roster[..|roster| - 1];
      var last := roster[|roster| - 1];
      WithScoresSpec(ps, init, votes, owner, round);
      var before := WithScores(ps, init, votes, owner, round);
      var after := WithScores(ps, roster, votes, owner, round);
      assert after == before[last.id := before[last.id].(score := Some(ScreenScore(last, votes, owner, round)))];
      assert forall k :: 0 <= k < |init| ==> init[k] == roster[k];
      forall i | 0 <= i < |roster|
        ensures after[roster[i].id] == ps[roster[i].id].(score := Some(ScreenScore(roster[i], votes, owner, round)))
      {
        if i < |roster| - 1 {
          assert roster[i].id != last.id;
        } else {
          WithScoresKeepsOthers(ps, init, votes, owner, round, last.id);
        }
      }
    }
  }

  /** The lobby after `handleNextRound`: scores written, votes and the story
      under judgement cleared, `round` stepped and the next phase set.
      Stories and the topic stay. */
  function RoundClosed(l: Lobby, roster: seq<Player>, votes: map<PlayerId, PlayerId>, owner: PlayerId,
                       round: int): (r: Lobby)
    requires forall i :: 0 <= i < |roster| ==> roster[i].id in l.players
    ensures r.votes == map[] && r.currentStory == None && r.round == Some(round + 1)
    ensures r.phase == Some(GameOver) <==> round + 1 > 8
    ensures r.phase != Some(GameOver) ==> r.phase == Some(Submission)
    ensures r.stories == l.stories && r.currentTopic == l.currentTopic && r.status == l.status && r.host == l.host
    ensures r.players.Keys == l.players.Keys
  {
    l.(players := WithScores(l.players, roster, votes, owner, round), votes := map[], currentStory := None,
       round := Some(round + 1), phase := Some(NextPhase(round + 1)))
  }

  /** What the game listener did with a snapshot. */
  datatype GameEvent =
    | Closed     // no lobby: alert and back to login
    | Refreshed  // state taken over from the snapshot
    | Failed     // publishing an undefined topic threw; the rest of the callback did not run

  /** The game screen's route params and state. */
  class GameScreenState {
    const playerId: PlayerId
    const lobbyCode: LobbyCode
    const isHost: bool
    var phase: Phase
    var topic: string
    var players: seq<Player>
    var loading: bool

    constructor (playerId: PlayerId, lobbyCode: LobbyCode, isHost: bool)
      ensures this.playerId == playerId && this.lobbyCode == lobbyCode && this.isHost == isHost
      ensures phase == Submission && topic == "" && players == [] && loading
    {
      this.playerId := playerId;
      this.lobbyCode := lobbyCode;
      this.isHost := isHost;
      phase := Submission;
      topic := "";
      players := [];
      loading := true;
    }

    /** The lobby listener; `order` is the key order of the players object. */
    method OnSnapshot(db: LobbyStore, game: GameState, order: seq<PlayerId>) returns (event: GameEvent)
      requires db.Valid()
      requires Enumerates(order, At(db.lobbies, lobbyCode).players.Keys)
      modifies this, db, game
      ensures db.Valid()
      ensures var l := At(old(db.lobbies), lobbyCode);
        var step := TopicStep(l.currentTopic, isHost, l.round);
        && (event == Closed <==> l == Empty)
        && (event == Failed <==> l != Empty && step == Fail)
        && (event == Closed <==> lobbyCode !in old(db.lobbies))
        && (event == Closed ==> players == old(players) && phase == old(phase))
        && (event != Refreshed ==> topic == old(topic) && loading == old(loading))
        && (event != Closed ==> players == PlayerList(l.players, order))
        && (event != Closed ==> phase == l.phase.GetOr(old(phase)))
        && (step.Publish? && event != Closed ==>
              db.lobbies == Put(old(db.lobbies), lobbyCode, l.(currentTopic := Some(step.topic))))
        && (!step.Publish? || event == Closed ==> db.lobbies == old(db.lobbies))
        && (event == Refreshed ==> topic == (if step.ShowStored? || step.Publish? then step.topic else old(topic)))
        && (event == Refreshed ==> !loading)
        && (event == Refreshed && l.currentStory.Some? ==>
              game.Value() == old(game.Value()).(currentStory := l.currentStory))
        && (event != Refreshed || l.currentStory.None? ==> game.Value() == old(game.Value()))
    {
      db.Exists(lobbyCode);
      var data := At(db.lobbies, lobbyCode);
      if data == Empty {
        return Closed;
      }
      players := PlayerList(data.players, order);
      if data.phase.Some? {
        phase := data.phase.value;
      }
      var step := TopicStep(data.currentTopic, isHost, data.round);
      match step {
        case ShowStored(t) =>
          topic := t;
        case Publish(t) =>
          db.SetCurrentTopic(lobbyCode, t);
          topic := t;
        case Fail =>
          return Failed;
        case Keep =>
      }
      if data.currentStory.Some? {
        game.SetCurrentStory(data.currentStory);
      }
      loading := false;
      event := Refreshed;
    }

    /** `checkAllSubmitted`: on a full set of stories the phase becomes
        'voting' and the picked story goes up for judgement. */
    method CheckAllSubmitted(db: LobbyStore, order: seq<PlayerId>, pick: nat) returns (advanced: bool)
      requires db.Valid()
      requires Enumerates(order, At(db.lobbies, lobbyCode).stories.Keys)
      requires |order| > 0 ==> pick < |order|
      modifies db
      ensures db.Valid()
      ensures var stories := At(old(db.lobbies), lobbyCode).stories;
        && (advanced <==> AllSubmitted(stories, |players|))
        && (!advanced ==> db.lobbies == old(db.lobbies))
        && (advanced ==> |order| > 0 && db.lobbies == Put(old(db.lobbies), lobbyCode,
              At(old(db.lobbies), lobbyCode).(phase := Some(Voting), currentStory := Some(PickStory(stories, order, pick)))))
    {
      var stories := At(db.lobbies, lobbyCode).stories;
      advanced := AllSubmitted(stories, |players|);
      if advanced {
        EnumerationSize(order, stories.Keys);
        ghost var l := At(db.lobbies, lobbyCode);
        ghost var before := db.lobbies;
        db.SetPhase(lobbyCode, Voting);
        var story := PickStory(stories, order, pick);
        db.SetCurrentStory(lobbyCode, Some(story));
        PutTwice(before, lobbyCode, l.(phase := Some(Voting)), l.(phase := Some(Voting), currentStory := Some(story)));
      }
    }

    /** `handleSubmitStory`: the story goes to the database and the game
        slice; the host then checks whether everyone has submitted. `order`
        and `pick` serve that check. */
    method HandleSubmitStory(db: LobbyStore, game: GameState, text: string, order: seq<PlayerId>, pick: nat)
      returns (advanced: bool)
      requires db.Valid()
      requires isHost ==> Enumerates(order, At(db.lobbies, lobbyCode).stories.Keys + {playerId}) && pick < |order|
      modifies db, game
      ensures db.Valid()
      ensures game.Value() == old(game.Value()).(stories := old(game.stories) + [Story(text, playerId, old(game.round))])
      ensures var l := At(old(db.lobbies), lobbyCode);
        var stories := l.stories[playerId := Story(text, playerId, old(game.round))];
        && (advanced <==> isHost && AllSubmitted(stories, |players|))
        && (!advanced ==> db.lobbies == Put(old(db.lobbies), lobbyCode, l.(stories := stories)))
        && (advanced ==> db.lobbies == Put(old(db.lobbies), lobbyCode,
              l.(stories := stories, phase := Some(Voting), currentStory := Some(PickStory(stories, order, pick)))))
    {
      var story := Story(text, playerId, game.round);
      ghost var l := At(db.lobbies, lobbyCode);
      ghost var before := db.lobbies;
      db.SetStory(lobbyCode, playerId, story);
      game.SubmitStory(text, playerId);
      advanced := false;
      if isHost {
        advanced := CheckAllSubmitted(db, order, pick);
        if advanced {
          var stories := l.stories[playerId := story];
          PutTwice(before, lobbyCode, l.(stories := stories),
                   l.(stories := stories, phase := Some(Voting), currentStory := Some(PickStory(stories, order, pick))));
        }
      }
    }

    /** `checkAllVoted`: on a full set of votes the phase becomes 'results'. */
    method CheckAllVoted(db: LobbyStore) returns (advanced: bool)
      requires db.Valid()
      modifies db
      ensures db.Valid()
      ensures advanced <==> AllVoted(At(old(db.lobbies), lobbyCode).votes, |players|)
      ensures !advanced ==> db.lobbies == old(db.lobbies)
      ensures advanced ==> db.lobbies == Put(old(db.lobbies), lobbyCode, At(old(db.lobbies), lobbyCode).(phase := Some(Results)))
    {
      var votes := At(db.lobbies, lobbyCode).votes;
      advanced := AllVoted(votes, |players|);
      if advanced {
        db.SetPhase(lobbyCode, Results);
      }
    }

    /** `handleVote`: a vote for oneself is refused and changes nothing; any
        other vote replaces this player's vote in the database and in the
        game slice, and the host then checks whether everyone has voted.
        Only this client's own vote ever reaches its game slice. */
    method HandleVote(db: LobbyStore, game: GameState, votedForId: PlayerId) returns (accepted: bool, advanced: bool)
      requires db.Valid()
      modifies db, game
      ensures db.Valid()
      ensures accepted <==> votedForId != playerId
      ensures !accepted ==> !advanced && db.lobbies == old(db.lobbies) && game.Value() == old(game.Value())
      ensures accepted ==> game.Value() == old(game.Value()).(votes := old(game.votes)[playerId := votedForId], voteLocked := true)
      ensures game.votes.Keys <= old(game.votes.Keys) + {playerId}
      ensures var l := At(old(db.lobbies), lobbyCode);
        var votes := l.votes[playerId := votedForId];
        && (advanced <==> accepted && isHost && AllVoted(votes, |players|))
        && (accepted && !advanced ==> db.lobbies == Put(old(db.lobbies), lobbyCode, l.(votes := votes)))
        && (advanced ==> db.lobbies == Put(old(db.lobbies), lobbyCode, l.(votes := votes, phase := Some(Results))))
    {
      if votedForId == playerId {
        return false, false;
      }
      ghost var l := At(db.lobbies, lobbyCode);
      ghost var before := db.lobbies;
      db.SetVote(lobbyCode, playerId, votedForId);
      game.LockVote(playerId, votedForId);
      accepted, advanced := true, false;
      if isHost {
        advanced := CheckAllVoted(db);
        if advanced {
          var votes := l.votes[playerId := votedForId];
          PutTwice(before, lobbyCode, l.(votes := votes), l.(votes := votes, phase := Some(Results)));
        }
      }
    }

    /** The `players.forEach` of `handleNextRound`: one score write per
        roster player, in roster order. */
    method RecordScores(db: LobbyStore, votes: map<PlayerId, PlayerId>, owner: PlayerId, round: int)
      requires db.Valid()
      requires forall i :: 0 <= i < |players| ==> players[i].id in At(db.lobbies, lobbyCode).players
      modifies db
      ensures db.Valid()
      ensures var l := At(old(db.lobbies), lobbyCode);
        db.lobbies == Put(old(db.lobbies), lobbyCode, l.(players := WithScores(l.players, players, votes, owner, round)))
    {
      ghost var lobbies0 := db.lobbies;
      ghost var l0 := At(db.lobbies, lobbyCode);
      PutSame(lobbies0, lobbyCode);
      assert players[..0] == [];
      for i := 0 to |players|
        invariant db.Valid()
        invariant db.lobbies == Put(lobbies0, lobbyCode, l0.(players := WithScores(l0.players, players[..i], votes, owner, round)))
      {
        var player := players[i];
        var score := ScreenScore(player, votes, owner, round);
        ghost var done := WithScores(l0.players, players[..i], votes, owner, round);
        assert players[..i + 1][..i] == players[..i];
        db.SetPlayerScore(lobbyCode, player.id, score);
        PutTwice(lobbies0, lobbyCode, l0.(players := done),
                 l0.(players := done[player.id := done[player.id].(score := Some(score))]));
      }
      assert players[..|players|] == players;
    }

    /** `handleNextRound` (host only): scores every roster player from the
        game slice's votes, clears the votes and the story under judgement,
        steps the round and sets the next phase, then ends the round in the
        game slice. With no story under judgement `currentStory.owner`
        throws before anything is written (`ok` is false). */
    method HandleNextRound(db: LobbyStore, game: GameState) returns (ok: bool)
      requires db.Valid()
      requires forall i :: 0 <= i < |players| ==> players[i].id in At(db.lobbies, lobbyCode).players
      modifies db, game
      ensures db.Valid()
      ensures ok <==> old(game.currentStory).Some?
      ensures !ok ==> db.lobbies == old(db.lobbies) && game.Value() == old(game.Value())
      ensures ok ==> var owner := old(game.currentStory).value.owner;
        && db.lobbies == Put(old(db.lobbies), lobbyCode,
             RoundClosed(At(old(db.lobbies), lobbyCode), players, old(game.votes), owner, old(game.round)))
        && game.Value() == old(game.Value()).(
             scores := EndRoundScores(old(game.scores), old(game.votes), owner, old(game.round)),
             round := old(game.round) + 1, voteLocked := false, votes := map[])
    {
      if game.currentStory.None? {
        return false;
      }
      var currentStory := game.currentStory.value;
      var votes := game.votes;
      var storyOwner := currentStory.owner;
      var round := game.round;
      ghost var lobbies0 := db.lobbies;
      ghost var l0 := At(db.lobbies, lobbyCode);
      RecordScores(db, votes, storyOwner, round);
      ghost var scored := l0.(players := WithScores(l0.players, players, votes, storyOwner, round));
      db.ClearVotes(lobbyCode);
      PutTwice(lobbies0, lobbyCode, scored, scored.(votes := map[]));
      db.SetCurrentStory(lobbyCode, None);
      PutTwice(lobbies0, lobbyCode, scored.(votes := map[]), scored.(votes := map[], currentStory := None));
      var nextRound := round + 1;
      db.SetRound(lobbyCode, nextRound);
      PutTwice(lobbies0, lobbyCode, scored.(votes := map[], currentStory := None),
               scored.(votes := map[], currentStory := None, round := Some(nextRound)));
      if nextRound > 8 {
        db.SetPhase(lobbyCode, GameOver);
      } else {
        db.SetPhase(lobbyCode, Submission);
      }
      PutTwice(lobbies0, lobbyCode, scored.(votes := map[], currentStory := None, round := Some(nextRound)),
               RoundClosed(l0, players, votes, storyOwner, round));
      ok := game.EndRound();
    }
  }
}
