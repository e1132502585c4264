# StoryWarz round engine in Dafny

StoryWarz is a party game for phones. Players meet in a lobby identified by a six-character code. In each of eight rounds everyone writes a story on a topic. The host's client picks one story, everyone guesses its author, and points go to correct guessers and to the author for every player fooled. Shared state lives in one realtime-database node per lobby. Each client also keeps a Redux game slice.

This project models the parts that decide things:

- the game slice (`redux/gameSlice.js`): a class whose six reducers update its fields in place;
- the lobby tree, as a store class: a map from lobby code to a typed lobby record, with one method per `set(ref(...), value)` path the screens write. Writing null deletes. A lobby left with no children disappears.
- the lobby screen (`screens/LobbyScreen.js`): entering, the listener, starting and leaving, as a class holding the route params and the roster;
- the game screen's round logic (`screens/GameScreen.js`): topic choice, the "everyone has submitted / voted" checks, the story pick, the vote guard and round scoring. The handlers are methods of a screen class that write to the store and dispatch to the slice. The pure pieces are functions.
- the helpers (`utils/helpers.js`): lobby codes, shuffle, vote list, topics;
- the login decisions (`screens/LoginScreen.js`), the scoreboard order (`components/Scoreboard.js`) and the story-input guard (`components/StoryInput.js`).

Randomness, ids, clocks and key order are parameters:

- `Math.floor(Math.random() * n)` becomes an injected index below `n`;
- the `uuidv4()` player id and the `new Date().toISOString()` stamps are arguments;
- the order in which `Object.keys`, `Object.values` and `Object.entries` walk an object is an injected sequence that enumerates the keys exactly once (`Common.Enumerates`).

JavaScript numbers in scores are integers, or NaN once `+=` hits a missing entry (`GameSlice.Score`). `String.prototype.trim` is modelled with the ECMAScript whitespace set (`JsText`).

Files:

- `common.dfy`: Option, Player, Story, key enumerations.
- `js_text.dfy`: trim.
- `helpers.dfy`: the helpers.
- `game_slice.dfy`: the slice and its scoring.
- `store.dfy`: the lobby tree.
- `lobby_screen.dfy`, `game_screen.dfy`, `login_screen.dfy`, `scoreboard.dfy`, `story_input.dfy`: one per screen or component.

### Behaviour of the code that the model keeps

The model keeps these behaviours of the code:

- Errors are alerts, not typed errors.
- A repeated vote or story overwrites the earlier one.
- There is no full-roster check: "/10" is display text.
- Stories are never cleared between rounds.
- The topic is `topics[round - 1]`, with no wrap-around.

Consequences the lemmas make explicit:

- **The two scorings disagree.** `endRound` credits the author's fooling bonus only when the author is a key of `votes` (`gameSlice.js:35`). `handleNextRound` credits it while scanning the roster (`GameScreen.js:171`). They agree exactly when the author has voted or nobody was fooled (`GameScreen.ScoringAgreement`).
  - Example: round 2, author P1, votes {P2: P1, P3: P1, P4: P2}. The screen gives P1 +1, P2 +2, P3 +2 and P4 nothing; round 6 doubles each delta. The reducer gives P1 nothing (`GameScreen.ScoringExample`).
  - `fooledCount` counts the author's own vote, which the vote guard never lets name the author (`GameSlice.OwnVoteIsFooled`).
- **Only the host's vote is scored.** `handleNextRound` and `endRound` read the host's Redux `votes`. Those only ever gain the local player's own vote (`GameScreen.GameScreenState.HandleVote`).
- **Later rounds advance early.** Stories from the last round stay in the lobby, so in any later round the first submission already satisfies the "everyone has submitted" check (`GameScreen.StaleStoriesAdvanceEarly`).
- **An unknown code is never "not found".** A guest entering a code nobody hosts writes its own player entry, and that write creates the lobby. The entered lobby is never empty (`LobbyScreen.Entered`), so the "Lobby Not Found" branch of the listener cannot fire right after that guest enters.
- **The topic is stuck.**
  - `round` is first written by `handleNextRound`, so in round 1 no topic is published.
  - Once a topic is stored it is never replaced (`GameScreen.TopicIsNeverRefreshed`).
  - For a stored round outside 1..8 the publish throws, and the rest of the listener does not run (`GameScreen.TopicAction.Fail`).

## Model

| member | source | states |
|---|---|---|
| JsText.TrimStart | StoryWarz/screens/LoginScreen.js:27 | the result is a suffix of the input, what was dropped is all whitespace, and the result does not start with whitespace |
| JsText.TrimEnd | StoryWarz/screens/LoginScreen.js:27 | the result is a prefix of the input, what was dropped is all whitespace, and the result does not end with whitespace |
| JsText.Trim | StoryWarz/screens/LoginScreen.js:27 | `s.trim()` is no longer than `s` and is empty or neither starts nor ends with whitespace |
| JsText.TrimMargins | StoryWarz/screens/LoginScreen.js:27 | a trimmed string is the piece of the input between two all-whitespace margins |
| JsText.TrimStartBlank | StoryWarz/components/StoryInput.js:14 | dropping leading whitespace leaves nothing exactly when the string is all whitespace |
| JsText.TrimBlank | StoryWarz/components/StoryInput.js:14 | `s.trim()` is empty if and only if `s` is all whitespace |
| Common.EnumerationSize | StoryWarz/utils/helpers.js:25 | a walk over an object's keys visits as many entries as the object has keys |
| Helpers.GenerateLobbyCode | StoryWarz/utils/helpers.js:7-17 | the code has exactly 6 characters; character i is the alphabet character at the i-th injected index; none is I, O, 1 or 0 |
| Helpers.NoLookalikes | StoryWarz/utils/helpers.js:8 | no character of the alphabet is I, O, 1 or 0 |
| Helpers.Swap | StoryWarz/utils/helpers.js:40 | the destructuring swap exchanges positions i and j and keeps every other position |
| Helpers.SwapPermutes | StoryWarz/utils/helpers.js:40 | a swap keeps the multiset of elements |
| Helpers.SwapElements | StoryWarz/utils/helpers.js:40 | the destructuring swap on the array leaves its contents equal to the swapped sequence |
| Helpers.ShuffleStep | StoryWarz/utils/helpers.js:38-41 | the partner for step i is at most i, and the run from i is the swap at i followed by the run from i - 1 |
| Helpers.ShuffleStepsPermutes | StoryWarz/utils/helpers.js:38-41 | the swaps for i down to 1, with partners 0 <= j <= i, keep the length and the multiset |
| Helpers.Shuffled | StoryWarz/utils/helpers.js:36-43 | the shuffle keeps the length and is a permutation of its input for any valid partners |
| Helpers.ShuffleArray | StoryWarz/utils/helpers.js:36-43 | Fisher-Yates on a copy returns the specified shuffle, a permutation of the argument, and leaves the argument unchanged |
| Helpers.VotesToArray | StoryWarz/utils/helpers.js:24-29 | one `{voter, vote}` per key in key order, with `vote == votes[voter]`; as many entries as keys; every vote appears |
| Helpers.StoryTopics | StoryWarz/utils/helpers.js:49-58 | exactly 8 topics, no two alike, so `topics[round - 1]` is defined for rounds 1 to 8 |
| GameSlice.Add | StoryWarz/redux/gameSlice.js:33-38 | `scores[k] += d` yields a number exactly when the entry held one, and that number is the old value plus d; a missing entry becomes NaN |
| GameSlice.Multiplier | StoryWarz/redux/gameSlice.js:31 | points are worth 1 or 2, and 2 exactly after round 4 |
| GameSlice.FooledCount | StoryWarz/redux/gameSlice.js:36-37 | the count of votes not naming the author is at most the number of votes |
| GameSlice.OwnVoteIsFooled | StoryWarz/redux/gameSlice.js:35-38 | the author's own vote, which never names the author, is one of the votes fooledCount counts |
| GameSlice.ReducerDelta | StoryWarz/redux/gameSlice.js:30-40 | the amount added to an entry is never negative; an entry the loop does not reach gets nothing, and so does an author who has not voted |
| GameSlice.EndRoundScores | StoryWarz/redux/gameSlice.js:30-40 | every entry that was there stays; an entry the loop adds belongs to a reached voter and is NaN |
| GameSlice.EndRoundScoring | StoryWarz/redux/gameSlice.js:29-40 | a correct guesser gains exactly 2*m; the author gains fooledCount*m only when the author is a key of votes; every other entry, present or not, is unchanged |
| GameSlice.EndRoundNeverDecreases | StoryWarz/redux/gameSlice.js:30-40 | every numeric score stays numeric and does not decrease |
| GameSlice.ScoresAfterStep | StoryWarz/redux/gameSlice.js:30-39 | processing one more voter in the forEach changes that voter's entry only, by its delta |
| GameSlice.ScoreVote | StoryWarz/redux/gameSlice.js:30-39 | the callback for one vote entry adds that voter's delta to a touched entry and changes nothing else |
| GameSlice.ScoreRound | StoryWarz/redux/gameSlice.js:30-40 | the forEach over the vote entries produces exactly the specified end-of-round scores, whatever the key order |
| GameSlice.GameState.constructor | StoryWarz/redux/gameSlice.js:6-14 | the slice starts from the initial state |
| GameSlice.GameState.SubmitStory | StoryWarz/redux/gameSlice.js:16-22 | appends exactly one story `{text, owner, round}` stamped with the current round; nothing else changes |
| GameSlice.GameState.LockVote | StoryWarz/redux/gameSlice.js:23-26 | sets this player's vote, replacing an earlier one, keeps every other voter's entry, and locks voting |
| GameSlice.GameState.EndRound | StoryWarz/redux/gameSlice.js:27-44 | with no story under judgement nothing changes; otherwise scores become the end-of-round scores, round steps by 1, votes are emptied, voteLocked is false, and players, stories and currentStory are untouched |
| GameSlice.GameState.AddPlayer | StoryWarz/redux/gameSlice.js:45-48 | appends the player and sets its score to 0; nothing else changes |
| GameSlice.GameState.SetCurrentStory | StoryWarz/redux/gameSlice.js:49-51 | replaces the story under judgement and nothing else |
| GameSlice.GameState.ResetGame | StoryWarz/redux/gameSlice.js:52-60 | yields exactly the initial state from any state, so a second reset changes nothing |
| Store.At | StoryWarz/screens/GameScreen.js:34 | a code with nothing stored reads as the empty node |
| Store.Put | StoryWarz/screens/LobbyScreen.js:107 | the node under the code reads back as written; an empty node is deleted; other lobbies are untouched |
| Store.PutTwice | StoryWarz/screens/GameScreen.js:180-191 | a second write to the same lobby overrides the first |
| Store.PutSame | StoryWarz/screens/GameScreen.js:176 | writing back the stored node changes nothing |
| Store.HostLobby | StoryWarz/screens/LobbyScreen.js:34-38 | the host's node names the host, is waiting and has no players |
| Store.PlayerList | StoryWarz/screens/LobbyScreen.js:68 | `Object.values(players)` lists each entry once, in key order |
| Store.LobbyStore.Exists | StoryWarz/screens/LobbyScreen.js:54-55 | a lobby exists exactly when its node has a child, so both listeners' `snapshot.val()` checks ask whether the code is stored |
| Store.LobbyStore.constructor | StoryWarz/screens/LobbyScreen.js:28 | the tree starts with no lobbies |
| Store.LobbyStore.SetLobby | StoryWarz/screens/LobbyScreen.js:34-38 | replaces or, with null, deletes the whole lobby node |
| Store.LobbyStore.SetPlayer | StoryWarz/screens/LobbyScreen.js:49 | writes or, with null, removes one player entry; nothing else in the lobby changes |
| Store.LobbyStore.SetPlayerScore | StoryWarz/screens/GameScreen.js:176 | sets one player's score and keeps the rest of the entry |
| Store.LobbyStore.SetStatus | StoryWarz/screens/LobbyScreen.js:97 | sets `status` only |
| Store.LobbyStore.SetPhase | StoryWarz/screens/GameScreen.js:107 | sets `phase` only |
| Store.LobbyStore.SetRound | StoryWarz/screens/GameScreen.js:184 | sets `round` only |
| Store.LobbyStore.SetCurrentTopic | StoryWarz/screens/GameScreen.js:61 | sets `currentTopic` only |
| Store.LobbyStore.SetStory | StoryWarz/screens/GameScreen.js:88 | sets this player's story, replacing an earlier one, and keeps the others |
| Store.LobbyStore.SetCurrentStory | StoryWarz/screens/GameScreen.js:112 | sets or, with null, clears `currentStory` only |
| Store.LobbyStore.SetVote | StoryWarz/screens/GameScreen.js:126 | sets this voter's vote, replacing an earlier one, and keeps the others |
| Store.LobbyStore.ClearVotes | StoryWarz/screens/GameScreen.js:180 | removes all votes and nothing else |
| LobbyScreen.NewPlayer | StoryWarz/screens/LobbyScreen.js:42-47 | the entry carries id, name, host flag and join time, and no score |
| LobbyScreen.Entered | StoryWarz/screens/LobbyScreen.js:32-49 | the host's lobby is the fresh host node plus this player; a guest's lobby is the old one with this player's entry added |
| LobbyScreen.JoinKeepsOthers | StoryWarz/screens/LobbyScreen.js:42-49 | joining leaves the presence and the entry of every other player unchanged |
| LobbyScreen.HostLobbyFresh | StoryWarz/screens/LobbyScreen.js:32-49 | after the host enters, the lobby holds exactly the host, is waiting, and has no stories, votes, phase or round, whatever was there before |
| LobbyScreen.LobbyScreenState.constructor | StoryWarz/screens/LobbyScreen.js:15-17 | the screen starts with its route params, an empty roster and loading |
| LobbyScreen.LobbyScreenState.Enter | StoryWarz/screens/LobbyScreen.js:23-50 | resets the slice and adds this player to it; the lobby becomes `Entered` of the old lobby; other lobbies are untouched |
| LobbyScreen.LobbyScreenState.OnSnapshot | StoryWarz/screens/LobbyScreen.js:53-81 | the lobby is reported missing exactly when nothing is stored under the code, and then nothing changes; otherwise the roster is the lobby's players, loading ends, and the screen moves to the game exactly when status is playing |
| LobbyScreen.LobbyScreenState.HandleStartGame | StoryWarz/screens/LobbyScreen.js:89-98 | starts exactly when there are at least 3 players; then only `status` becomes playing, otherwise nothing is written |
| LobbyScreen.LobbyScreenState.HandleLeaveLobby | StoryWarz/screens/LobbyScreen.js:100-111 | a guest's leaving removes exactly its own entry; a host's leaving deletes the whole lobby |
| GameScreen.TopicStep | StoryWarz/screens/GameScreen.js:56-63 | a stored topic is shown and never overwritten; the host publishes `topics[round - 1]` exactly when no topic is stored and round is 1 to 8; a non-host never writes |
| GameScreen.TopicIsNeverRefreshed | StoryWarz/screens/GameScreen.js:56-57 | once a topic is stored every later snapshot shows the same topic, whatever the round |
| GameScreen.AllSubmitted | StoryWarz/screens/GameScreen.js:105 | all have submitted only when the roster is non-empty and the stories object has exactly as many keys as the roster |
| GameScreen.AllVoted | StoryWarz/screens/GameScreen.js:143 | all have voted only when the roster is non-empty and the votes object has exactly as many keys as the roster |
| GameScreen.StaleStoriesAdvanceEarly | StoryWarz/screens/GameScreen.js:105 | with last round's stories still stored, one more submission by a player already in the set satisfies the all-submitted check |
| GameScreen.PickStory | StoryWarz/screens/GameScreen.js:110-112 | the picked story is one of the snapshot's stories, the one at the injected index in [0, n) |
| GameScreen.NextPhase | StoryWarz/screens/GameScreen.js:187-192 | game over exactly when the next round exceeds 8, otherwise submission |
| GameScreen.ScreenDelta | StoryWarz/screens/GameScreen.js:162-174 | the amount added to a player's score is never negative; a player who neither guessed right nor wrote the story gets nothing; a correct guesser other than the author gets exactly 2*m |
| GameScreen.ScreenScore | StoryWarz/screens/GameScreen.js:161-174 | the new score is never below `score or 0`, and equals it for a player who neither guessed right nor wrote the story |
| GameScreen.ScoringAgreesWhenOwnerVoted | StoryWarz/screens/GameScreen.js:161-177 | when the author has voted, the screen's and the reducer's scoring give every player the same delta and the same resulting score |
| GameScreen.ScoringDivergesWhenOwnerSilent | StoryWarz/screens/GameScreen.js:171-174 | when the author has not voted but fooled someone, the screen credits fooledCount*m > 0 and the reducer leaves the author's entry unchanged |
| GameScreen.ScoringAgreement | StoryWarz/screens/GameScreen.js:161-177 | the two scorings agree for every player if and only if the author has voted or nobody was fooled |
| GameScreen.ScoringExample | StoryWarz/screens/GameScreen.js:161-177 | round 2, author P1, votes {P2: P1, P3: P1, P4: P2}: deltas +1, +2, +2, 0; round 6 doubles them; the reducer gives P1 nothing |
| GameScreen.WithScores | StoryWarz/screens/GameScreen.js:161-177 | the score writes keep the set of player entries |
| GameScreen.WithScoresKeepsOthers | StoryWarz/screens/GameScreen.js:161-177 | the score writes leave the entry of a player off the roster as it was |
| GameScreen.WithScoresSpec | StoryWarz/screens/GameScreen.js:161-177 | with distinct roster ids each roster player's entry gets its screen score and keeps its other fields; other entries are untouched |
| GameScreen.RoundClosed | StoryWarz/screens/GameScreen.js:179-192 | after the next-round writes, votes and currentStory are cleared, round steps by 1, the phase is game over exactly past round 8 and submission otherwise, and stories, topic, status and host stay |
| GameScreen.GameScreenState.constructor | StoryWarz/screens/GameScreen.js:18-22 | the screen starts in the submission phase with no topic, an empty roster and loading |
| GameScreen.GameScreenState.OnSnapshot | StoryWarz/screens/GameScreen.js:33-71 | the lobby is reported closed exactly when nothing is stored under the code, and then nothing changes; on a closed lobby or a failed topic publish the topic and loading stay as they were; otherwise the roster and phase follow the snapshot, the topic follows `TopicStep` with at most the one topic write, and a stored story under judgement goes to the slice |
| GameScreen.GameScreenState.CheckAllSubmitted | StoryWarz/screens/GameScreen.js:99-115 | the phase becomes voting, with the picked story under judgement, exactly when the stories are non-empty and as many as the roster; otherwise nothing is written |
| GameScreen.GameScreenState.HandleSubmitStory | StoryWarz/screens/GameScreen.js:79-97 | stores this player's story in the lobby and in the slice; only the host then checks for all submitted |
| GameScreen.GameScreenState.CheckAllVoted | StoryWarz/screens/GameScreen.js:137-148 | the phase becomes results exactly when the votes are non-empty and as many as the roster; otherwise nothing is written |
| GameScreen.GameScreenState.HandleVote | StoryWarz/screens/GameScreen.js:117-135 | a vote for oneself is refused and changes nothing; any other vote replaces this player's vote in the lobby and in the slice, locks voting, and lets the host check for all voted |
| GameScreen.GameScreenState.RecordScores | StoryWarz/screens/GameScreen.js:161-177 | the forEach writes every roster player's screen score into the lobby, in roster order |
| GameScreen.GameScreenState.HandleNextRound | StoryWarz/screens/GameScreen.js:150-196 | with no story under judgement nothing changes; otherwise the lobby becomes `RoundClosed` and the slice ends the round |
| LoginScreen.HandleStartLobby | StoryWarz/screens/LoginScreen.js:26-41 | refused exactly when the username is blank; a blank code hosts the generated code; any other code is trimmed and joined as a guest; the username goes on untrimmed |
| LoginScreen.HandleJoinLobby | StoryWarz/screens/LoginScreen.js:43-55 | refused exactly when the username or the code is blank; otherwise the trimmed code, as a guest, with the username untrimmed |
| LoginScreen.StartWithCodeIsJoin | StoryWarz/screens/LoginScreen.js:33-54 | with both fields filled in, "Create Lobby" gives the same navigation as "Join Lobby" |
| LoginScreen.OpenedCodeIsTrimmed | StoryWarz/screens/LoginScreen.js:50-54 | a joined code is non-empty and has no whitespace at either end |
| Scoreboard.Insert | StoryWarz/components/Scoreboard.js:9 | insertion into a non-increasing list keeps it non-increasing, makes it one longer and adds only the one player; the player goes in front exactly when it does not score below the head |
| Scoreboard.InsertPermutes | StoryWarz/components/Scoreboard.js:9 | the inserted list is a permutation of the old list plus the player |
| Scoreboard.SortedPlayers | StoryWarz/components/Scoreboard.js:9 | the sorted copy is in non-increasing score order and is a permutation of the players |
| Scoreboard.NoScoresKeepOrder | StoryWarz/components/Scoreboard.js:9 | with no scores yet, the sort keeps the roster order |
| Scoreboard.Rows | StoryWarz/components/Scoreboard.js:11-17 | the positions shown are 1 to n, each with that player's name and score |
| StoryInput.StoryInputState.constructor | StoryWarz/components/StoryInput.js:11 | the buffer starts empty |
| StoryInput.StoryInputState.SetStory | StoryWarz/components/StoryInput.js:28-30 | the buffer takes the typed text, at most 500 characters |
| StoryInput.StoryInputState.HandleSubmit | StoryWarz/components/StoryInput.js:13-18 | blank text is not sent and stays in the buffer; other text is sent once, untrimmed and at most 500 characters, and the buffer is emptied |

## Left out

- Database plumbing (`getDatabase`, `ref`, `onValue`, `off`, `onlyOnce`) and the Redux `dispatch`. A listener is a method given the store's current state. A `set` is a store method.
- Listener timing. The echo snapshot that follows each write is not modelled, and neither is the stale `players` closure inside `checkAllSubmitted` and `checkAllVoted`. The checks read the screen's current roster.
- `uuidv4()` is regenerated on every render of the lobby screen. Here the player id is one parameter per screen instance.
- Rendering, navigation, `Alert`, fonts and splash screens. Navigation outcomes are returned as values (`LobbyEvent`, `GameEvent`, `Navigation`).
- The display-only components (VotingCard, RetroButton, GameLobby) and the constants. `handleStartGame` checks no host flag, because the only host check is which buttons GameLobby shows.
- Lobby children other than the ten the screens use.
- Store.LobbyStore.SetPlayerScore: requires the player's entry to exist. A score written under a departed player's id would make Firebase create an entry holding only a score; that case is not modelled. GameScreen.GameScreenState.HandleNextRound and GameScreen.GameScreenState.RecordScores require every roster player to be in the lobby for the same reason.
- Scoreboard.SortedPlayers: requires every player to have a score, or none. With a mix, `b.score - a.score` is NaN for some pairs. The order then depends on the engine's sort.
- Scoreboard.SortedPlayers: stability is stated only for the no-scores case (`Scoreboard.NoScoresKeepOrder`), not for equal scores in general.
- JavaScript numbers are unbounded integers. Scores stay far below 2^53, and the only NaN that arises is `+=` on a missing entry.
- GameScreen.WithScoresSpec: states the written scores only for a roster with distinct ids. With repeated ids, `WithScores` still models the writes in order: the last one wins.
- Exceptions are outcomes, not unwinding:
  - `endRound` and `handleNextRound` with no story under judgement return `ok == false` and change nothing;
  - publishing an undefined topic in the game listener returns `Failed`.
