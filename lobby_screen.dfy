/** The lobby screen: entering a lobby (the host first creates it), following
    its roster, starting the game and leaving. The player id that `uuidv4`
    produces and the timestamps are parameters. */
module LobbyScreen {
  import opened Common
  import opened Store
  import opened GameSlice

  /** What the lobby listener does with a snapshot. */
  datatype LobbyEvent =
    | NotFound   // no lobby under the code: alert and back to login
    | Stay       // roster refreshed, still waiting
    | ToGame     // `status` is 'playing': on to the game screen

  /** The player entry a client writes for itself; it has no score yet. */
  function NewPlayer(id: PlayerId, username: string, isHost: bool, joinedAt: string): (p: Player)
    ensures p.id == id && p.name == username && p.isHost == isHost && p.joinedAt == joinedAt && p.score == None
  {
    Player(id, username, isHost, joinedAt, None)
  }

  /** The lobby after a client has entered it: the host's write replaces the
      whole node before the player's own entry is added. */
  function Entered(l: Lobby, isHost: bool, p: Player, createdAt: string): (r: Lobby)
    ensures r != Empty && p.id in r.players && r.players[p.id] == p
    ensures isHost ==> r == HostLobby(p.id, createdAt).(players := map[p.id := p])
    ensures !isHost ==> r == l.(players := l.players[p.id := p])
  {
    var base := if isHost then HostLobby(p.id, createdAt) else l;
    var r := base.(players := base.players[p.id := p]);
    assert p.id in r.players && p.id !in Empty.players;
    r
  }

  /** Joining never disturbs the entries of the players already there. */
  lemma JoinKeepsOthers(l: Lobby, p: Player, createdAt: string, other: PlayerId)
    requires other != p.id
    ensures other in Entered(l, false, p, createdAt).players <==> other in l.players
    ensures other in l.players ==> Entered(l, false, p, createdAt).players[other] == l.players[other]
  {
  }

  /** A fresh host lobby holds exactly the host, waiting, whatever was
      stored under the code before. */
  lemma HostLobbyFresh(l: Lobby, p: Player, createdAt: string)
    ensures var r := Entered(l, true, p, createdAt);
      r.players.Keys == {p.id} && r.status == Some(Waiting) && r.host == Some(p.id)
      && r.stories == map[] && r.votes == map[] && r.phase == None && r.round == None
  {
  }

  /** The lobby screen's route params and state. */
  class LobbyScreenState {
    const username: string
    const lobbyCode: LobbyCode
    const isHost: bool
    const playerId: PlayerId
    var players: seq<Player>
    var loading: bool

    constructor (username: string, lobbyCode: LobbyCode, isHost: bool, playerId: PlayerId)
      ensures this.username == username && this.lobbyCode == lobbyCode
      ensures this.isHost == isHost && this.playerId == playerId
      ensures players == [] && loading
    {
      this.username := username;
      this.lobbyCode := lobbyCode;
      this.isHost := isHost;
      this.playerId := playerId;
      players := [];
      loading := true;
    }

    /** The writes of the mount effect: reset the game slice, create the lobby
        if hosting, write this player's entry and add it to the slice. */
    method Enter(db: LobbyStore, game: GameState, createdAt: string, joinedAt: string)
      requires db.Valid()
      modifies db, game
      ensures db.Valid()
      ensures db.lobbies == Put(old(db.lobbies), lobbyCode,
                                Entered(At(old(db.lobbies), lobbyCode), isHost,
                                        NewPlayer(playerId, username, isHost, joinedAt), createdAt))
      ensures game.Value() == Initial.(players := [NewPlayer(playerId, username, isHost, joinedAt)],
                                       scores := map[playerId := Num(0)])
    {
      game.ResetGame();
      if isHost {
        db.SetLobby(lobbyCode, Some(HostLobby(playerId, createdAt)));
      }
      var newPlayer := NewPlayer(playerId, username, isHost, joinedAt);
      db.SetPlayer(lobbyCode, playerId, Some(newPlayer));
      game.AddPlayer(newPlayer);
    }

    /** The lobby listener; `order` is the key order of the players object. */
    method OnSnapshot(db: LobbyStore, order: seq<PlayerId>) returns (event: LobbyEvent)
      requires db.Valid()
      requires Enumerates(order, At(db.lobbies, lobbyCode).players.Keys)
      modifies this
      ensures var l := At(db.lobbies, lobbyCode);
        && (l == Empty <==> event == NotFound)
        && (event == NotFound <==> lobbyCode !in db.lobbies)
        && (event == NotFound ==> players == old(players) && loading == old(loading))
        && (event != NotFound ==> players == PlayerList(l.players, order) && !loading)
        && (event != NotFound ==> (event == ToGame <==> l.status == Some(Playing)))
    {
      db.Exists(lobbyCode);
      var data := At(db.lobbies, lobbyCode);
      if data == Empty {
        return NotFound;
      }
      players := PlayerList(data.players, order);
      event := if data.status == Some(Playing) then ToGame else Stay;
      loading := false;
    }

    /** `handleStartGame`: with fewer than three players nothing is written;
        otherwise `status` becomes 'playing' and nothing else changes. */
    method HandleStartGame(db: LobbyStore) returns (started: bool)
      requires db.Valid()
      modifies db
      ensures db.Valid()
      ensures started <==> |players| >= 3
      ensures !started ==> db.lobbies == old(db.lobbies)
      ensures started ==> db.lobbies == Put(old(db.lobbies), lobbyCode,
                                           At(old(db.lobbies), lobbyCode).(status := Some(Playing)))
    {
      if |players| < 3 {
        return false;
      }
      db.SetStatus(lobbyCode, Playing);
      started := true;
    }

    /** `handleLeaveLobby`: removes this player's entry; a leaving host then
        deletes the whole lobby. */
    method HandleLeaveLobby(db: LobbyStore)
      requires db.Valid()
      modifies db
      ensures db.Valid()
      ensures isHost ==> db.lobbies == old(db.lobbies) - {lobbyCode}
      ensures !isHost ==> var l := At(old(db.lobbies), lobbyCode);
                db.lobbies == Put(old(db.lobbies), lobbyCode, l.(players := l.players - {playerId}))
    {
      db.SetPlayer(lobbyCode, playerId, None);
      if isHost {
        db.SetLobby(lobbyCode, None);
      }
    }
  }
}
