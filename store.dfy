/** The shared `lobbies/` tree of the realtime database, one typed record per
    lobby code. Writing a child of a missing lobby creates the lobby, writing
    null removes the child, and a lobby left with no children disappears. */
module Store {
  import opened Common

  type LobbyCode = string

  /** The two values the screens write to `status`. */
  datatype Status = Waiting | Playing

  /** The four values the screens write to `phase`. */
  datatype Phase = Submission | Voting | Results | GameOver

  /** One lobby node. Absent children are `None` or empty maps. */
  datatype Lobby = Lobby(host: Option<PlayerId>, status: Option<Status>, createdAt: Option<string>,
                         players: map<PlayerId, Player>, phase: Option<Phase>, round: Option<int>,
                         currentTopic: Option<string>, stories: map<PlayerId, Story>,
                         currentStory: Option<Story>, votes: map<PlayerId, PlayerId>)

  /** A node with no children: the database stores nothing for it. */
  const Empty := Lobby(None, None, None, map[], None, None, None, map[], None, map[])

  /** The lobby stored under `code`, `Empty` when there is none. */
  function At(lobbies: map<LobbyCode, Lobby>, code: LobbyCode): (l: Lobby)
    ensures code !in lobbies ==> l == Empty
  {
    if code in lobbies then lobbies[code] else Empty
  }

  /** Stores `l` under `code`; an empty node is not kept. */
  function Put(lobbies: map<LobbyCode, Lobby>, code: LobbyCode, l: Lobby): (r: map<LobbyCode, Lobby>)
    ensures At(r, code) == l
    ensures l == Empty <==> code !in r
    ensures forall c :: c != code ==> (c in r <==> c in lobbies) && At(r, c) == At(lobbies, c)
  {
    if l == Empty then lobbies - {code} else lobbies[code := l]
  }

  /** A second write to the same lobby overrides the first. */
  lemma PutTwice(lobbies: map<LobbyCode, Lobby>, code: LobbyCode, l1: Lobby, l2: Lobby)
    ensures Put(Put(lobbies, code, l1), code, l2) == Put(lobbies, code, l2)
  {
  }

  /** No stored lobby is an empty node. */
  ghost predicate Pruned(lobbies: map<LobbyCode, Lobby>) {
    forall c :: c in lobbies ==> lobbies[c] != Empty
  }

  /** Writing back what is stored changes nothing. */
  lemma PutSame(lobbies: map<LobbyCode, Lobby>, code: LobbyCode)
    requires Pruned(lobbies)
    ensures Put(lobbies, code, At(lobbies, code)) == lobbies
  {
  }

  /** The node `{host, status: 'waiting', createdAt}` the host writes over
      the whole lobby. */
  function HostLobby(host: PlayerId, createdAt: string): (l: Lobby)
    ensures l != Empty && l.players == map[] && l.status == Some(Waiting) && l.host == Some(host)
  {
    Empty.(host := Some(host), status := Some(Waiting), createdAt := Some(createdAt))
  }

  /** `Object.values(players)`, walking the keys in the order `order`. */
  function PlayerList(players: map<PlayerId, Player>, order: seq<PlayerId>): (list: seq<Player>)
    requires Enumerates(order, players.Keys)
    ensures |list| == |order| == |players|
    ensures forall i :: 0 <= i < |list| ==> order[i] in players && list[i] == players[order[i]]
  {
    EnumerationSize(order, players.Keys);
    seq(|order|, i requires 0 <= i < |order| => players[order[i]])
  }

  class LobbyStore {
    var lobbies: map<LobbyCode, Lobby>

    /** The database never holds an empty node. */
    ghost predicate Valid()
      reads this
    {
      Pruned(lobbies)
    }

    /** A lobby exists exactly when its node has a child. */
    lemma Exists(code: LobbyCode)
      requires Valid()
      ensures code in lobbies <==> At(lobbies, code) != Empty
    {
    }

    constructor ()
      ensures Valid() && lobbies == map[]
    {
      lobbies := map[];
    }

    /** `set(lobbies/code, l)`; `None` is null and deletes the lobby. */
    method SetLobby(code: LobbyCode, l: Option<Lobby>)
      requires Valid()
      modifies this
      ensures Valid()
      ensures lobbies == Put(old(lobbies), code, l.GetOr(Empty))
    {
      lobbies := Put(lobbies, code, l.GetOr(Empty));
    }

    /** `set(lobbies/code/players/id, p)`; `None` removes the entry. */
    method SetPlayer(code: LobbyCode, id: PlayerId, p: Option<Player>)
      requires Valid()
      modifies this
      ensures Valid()
      ensures var l := At(old(lobbies), code);
        lobbies == Put(old(lobbies), code, l.(players := if p.Some? then l.players[id := p.value] else l.players - {id}))
    {
      var l := At(lobbies, code);
      lobbies := Put(lobbies, code, l.(players := if p.Some? then l.players[id := p.value] else l.players - {id}));
    }

    /** `set(lobbies/code/players/id/score, score)` on an existing entry. */
    method SetPlayerScore(code: LobbyCode, id: PlayerId, score: int)
      requires Valid()
      requires id in At(lobbies, code).players
      modifies this
      ensures Valid()
      ensures var l := At(old(lobbies), code);
        lobbies == Put(old(lobbies), code, l.(players := l.players[id := l.players[id].(score := Some(score))]))
    {
      var l := At(lobbies, code);
      lobbies := Put(lobbies, code, l.(players := l.players[id := l.players[id].(score := Some(score))]));
    }

    /** `set(lobbies/code/status, s)`. */
    method SetStatus(code: LobbyCode, s: Status)
      requires Valid()
      modifies this
      ensures Valid()
      ensures lobbies == Put(old(lobbies), code, At(old(lobbies), code).(status := Some(s)))
    {
      lobbies := Put(lobbies, code, At(lobbies, code).(status := Some(s)));
    }

    /** `set(lobbies/code/phase, p)`. */
    method SetPhase(code: LobbyCode, p: Phase)
      requires Valid()
      modifies this
      ensures Valid()
      ensures lobbies == Put(old(lobbies), code, At(old(lobbies), code).(phase := Some(p)))
    {
      lobbies := Put(lobbies, code, At(lobbies, code).(phase := Some(p)));
    }

    /** `set(lobbies/code/round, r)`. */
    method SetRound(code: LobbyCode, r: int)
      requires Valid()
      modifies this
      ensures Valid()
      ensures lobbies == Put(old(lobbies), code, At(old(lobbies), code).(round := Some(r)))
    {
      lobbies := Put(lobbies, code, At(lobbies, code).(round := Some(r)));
    }

    /** `set(lobbies/code/currentTopic, t)`. */
    method SetCurrentTopic(code: LobbyCode, t: string)
      requires Valid()
      modifies this
      ensures Valid()
      ensures lobbies == Put(old(lobbies), code, At(old(lobbies), code).(currentTopic := Some(t)))
    {
      lobbies := Put(lobbies, code, At(lobbies, code).(currentTopic := Some(t)));
    }

    /** `set(lobbies/code/stories/id, s)`. */
    method SetStory(code: LobbyCode, id: PlayerId, s: Story)
      requires Valid()
      modifies this
      ensures Valid()
      ensures var l := At(old(lobbies), code);
        lobbies == Put(old(lobbies), code, l.(stories := l.stories[id := s]))
    {
      var l := At(lobbies, code);
      lobbies := Put(lobbies, code, l.(stories := l.stories[id := s]));
    }

    /** `set(lobbies/code/currentStory, s)`; `None` is null. */
    method SetCurrentStory(code: LobbyCode, s: Option<Story>)
      requires Valid()
      modifies this
      ensures Valid()
      ensures lobbies == Put(old(lobbies), code, At(old(lobbies), code).(currentStory := s))
    {
      lobbies := Put(lobbies, code, At(lobbies, code).(currentStory := s));
    }

    /** `set(lobbies/code/votes/voter, vote)`. */
    method SetVote(code: LobbyCode, voter: PlayerId, vote: PlayerId)
      requires Valid()
      modifies this
      ensures Valid()
      ensures var l := At(old(lobbies), code);
        lobbies == Put(old(lobbies), code, l.(votes := l.votes[voter := vote]))
    {
      var l := At(lobbies, code);
      lobbies := Put(lobbies, code, l.(votes := l.votes[voter := vote]));
    }

    /** `set(lobbies/code/votes, null)`. */
    method ClearVotes(code: LobbyCode)
      requires Valid()
      modifies this
      ensures Valid()
      ensures lobbies == Put(old(lobbies), code, At(old(lobbies), code).(votes := map[]))
    {
      lobbies := Put(lobbies, code, At(lobbies, code).(votes := map[]));
    }
  }
}
