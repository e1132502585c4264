/** The two buttons of the login form decide, from the username and lobby
    code fields, whether to refuse or which lobby to open and as whom. */
module LoginScreen {
  import opened JsText

  /** The outcome of a button press. */
  datatype Navigation =
    | Rejected(message: string)
    | ToLobby(username: string, lobbyCode: string, isHost: bool)

  /** `handleStartLobby`. `generated` is the code `generateLobbyCode` returns,
      used only when the code field is blank. A blank username is refused;
      a blank code makes this client the host of the generated lobby; any
      other code is trimmed and joined as a guest. The username goes on
      untrimmed. */
  function HandleStartLobby(username: string, lobbyCode: string, generated: string): (n: Navigation)
    ensures n.Rejected? <==> AllWhitespace(username)
    ensures n.ToLobby? ==> n.username == username
    ensures n.ToLobby? && AllWhitespace(lobbyCode) ==> n.lobbyCode == generated && n.isHost
    ensures n.ToLobby? && !AllWhitespace(lobbyCode) ==> n.lobbyCode == Trim(lobbyCode) && !n.isHost
  {
    TrimBlank(username);
    TrimBlank(lobbyCode);
    if |Trim(username)| == 0 then Rejected("Please enter a username")
    else
      var code := Trim(lobbyCode);
      ToLobby(username, if code != "" then code else generated, code == "")
  }

  /** `handleJoinLobby`: refused when either field is blank; otherwise the
      trimmed code, as a guest, with the username untrimmed. */
  function HandleJoinLobby(username: string, lobbyCode: string): (n: Navigation)
    ensures n.Rejected? <==> AllWhitespace(username) || AllWhitespace(lobbyCode)
    ensures n.ToLobby? ==> n.username == username && n.lobbyCode == Trim(lobbyCode) && !n.isHost
  {
    TrimBlank(username);
    TrimBlank(lobbyCode);
    if |Trim(username)| == 0 || |Trim(lobbyCode)| == 0 then Rejected("Please enter both username and lobby code")
    else ToLobby(username, Trim(lobbyCode), false)
  }

  /** With a code filled in, "Create Lobby" does what "Join Lobby" does. */
  lemma StartWithCodeIsJoin(username: string, lobbyCode: string, generated: string)
    requires !AllWhitespace(lobbyCode) && !AllWhitespace(username)
    ensures HandleStartLobby(username, lobbyCode, generated) == HandleJoinLobby(username, lobbyCode)
  {
    TrimBlank(lobbyCode);
  }

  /** The code a successful join opens is never blank and has no
      whitespace at either end. */
  lemma OpenedCodeIsTrimmed(username: string, lobbyCode: string)
    requires HandleJoinLobby(username, lobbyCode).ToLobby?
    ensures var code := HandleJoinLobby(username, lobbyCode).lobbyCode;
      code != [] && !IsWhitespace(code[0]) && !IsWhitespace(code[|code| - 1])
  {
    var code := Trim(lobbyCode);
    assert HandleJoinLobby(username, lobbyCode).lobbyCode == code && |code| != 0;
  }
}
