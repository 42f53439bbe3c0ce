/** The token endpoint of the web server (main.py, `generate_token`): the
    room-name rule, the defaults taken from the request body, and the
    credential guard that runs before anything is signed. The signature
    itself is not modelled; the token is the set of claims it would sign. */
module TokenIssuer {
  import opened Wrappers
  import opened Text

  /** The request body; each key may be missing. */
  datatype TokenRequest = TokenRequest(
    agentId: Option<string>,
    language: Option<string>,
    voice: Option<string>,
    userName: Option<string>)

  /** `LIVEKIT_API_KEY`, `LIVEKIT_API_SECRET` and `LIVEKIT_URL`. */
  datatype Credentials = Credentials(
    apiKey: Option<string>,
    apiSecret: Option<string>,
    livekitUrl: Option<string>)

  datatype VideoGrant = VideoGrant(room: string, roomJoin: bool, canPublish: bool, canSubscribe: bool)

  /** The claims handed to the signing routine. */
  datatype AccessToken = AccessToken(
    apiKey: string, apiSecret: string, identity: string, name: string, grant: VideoGrant)

  datatype TokenResponse = TokenResponse(
    token: AccessToken, roomName: string, livekitUrl: Option<string>, agentId: string)

  /** Both failures surface as HTTP 500. */
  datatype TokenError = CredentialsMissing | BadRequestBody {
    function Status(): int { 500 }
  }

  const RoomPrefix: string := "test-"

  /** `f"test-{agent_id}-{timestamp}"`. Its hyphen split is "test", the
      pieces of the agent id, and the timestamp's digits. */
  function RoomName(agentId: string, timestamp: nat): (name: string)
    ensures StartsWith(name, RoomPrefix)
    ensures Split(name, '-') == ["test"] + Split(agentId, '-') + [Decimal(timestamp)]
  {
    var digits := Decimal(timestamp);
    RoomNamePieces(agentId, digits);
    "test-" + agentId + "-" + digits
  }

  lemma RoomNamePieces(agentId: string, digits: string)
    requires IsDigits(digits)
    ensures Split("test-" + agentId + "-" + digits, '-') == ["test"] + Split(agentId, '-') + [digits]
  {
    var head := "test";
    assert '-' !in head;
    assert "test-" + agentId + "-" + digits == head + ['-'] + agentId + ['-'] + digits;
    assert '-' !in digits;
    SplitFramed(head, agentId, digits, '-');
  }

  /** The credential guard: both key and secret set and non-empty. */
  predicate CredentialsPresent(c: Credentials): (b: bool)
    ensures !b <==> c.apiKey in {None, Some("")} || c.apiSecret in {None, Some("")}
  {
    Truthy(c.apiKey) && Truthy(c.apiSecret)
  }

  /** `generate_token`. `body` is `None` when the request body is not a
      JSON object; `userClock` and `roomClock` are the two clock readings,
      in whole seconds, that the default user name and the room name use. */
  function GenerateToken(body: Option<TokenRequest>, userClock: nat, roomClock: nat, creds: Credentials)
    : (r: Result<TokenResponse, TokenError>)
    ensures r.Failure? <==> body.None? || !CredentialsPresent(creds)
    ensures body.None? ==> r == Failure(BadRequestBody)
    ensures body.Some? && !CredentialsPresent(creds) ==> r == Failure(CredentialsMissing)
    ensures r.Failure? ==> r.error.Status() == 500
    ensures r.Success? ==>
      var agentId := body.value.agentId.GetOr("default");
      && r.value.agentId == agentId
      && r.value.roomName == RoomName(agentId, roomClock)
      && r.value.token.grant == VideoGrant(r.value.roomName, true, true, true)
      && r.value.token.apiKey == creds.apiKey.value
      && r.value.token.apiSecret == creds.apiSecret.value
      && r.value.token.identity == r.value.token.name
         == body.value.userName.GetOr("Tester-" + Decimal(userClock))
      && r.value.livekitUrl == creds.livekitUrl
    ensures r.Success? ==>
      StartsWith(r.value.roomName, RoomPrefix)
      && Split(r.value.roomName, '-')[1] == Split(r.value.agentId, '-')[0]
  {
    match body
    case None => Failure(BadRequestBody)
    case Some(req) =>
      var agentId := req.agentId.GetOr("default");
      var userName := req.userName.GetOr("Tester-" + Decimal(userClock));
      var roomName := RoomName(agentId, roomClock);
      if !CredentialsPresent(creds) then Failure(CredentialsMissing)
      else
        var grant := VideoGrant(roomName, true, true, true);
        var token := AccessToken(creds.apiKey.value, creds.apiSecret.value, userName, userName, grant);
        Success(TokenResponse(token, roomName, creds.livekitUrl, agentId))
  }

  /** A request for agent "acme" gets a room named `test-acme-<digits>`. */
  lemma AcmeRoomShape(userClock: nat, roomClock: nat, creds: Credentials)
    requires CredentialsPresent(creds)
    ensures var r := GenerateToken(Some(TokenRequest(Some("acme"), None, None, None)), userClock, roomClock, creds);
      && r.Success?
      && Split(r.value.roomName, '-') == ["test", "acme", Decimal(roomClock)]
      && IsDigits(Split(r.value.roomName, '-')[2])
  {
    SplitWithoutSeparator("acme", '-');
  }

  /** A request without an agent id gets the room of agent "default". */
  lemma MissingAgentIdIsDefault(userClock: nat, roomClock: nat, creds: Credentials)
    requires CredentialsPresent(creds)
    ensures var r := GenerateToken(Some(TokenRequest(None, None, None, None)), userClock, roomClock, creds);
      && r.Success?
      && r.value.agentId == "default"
      && Split(r.value.roomName, '-') == ["test", "default", Decimal(roomClock)]
  {
    SplitWithoutSeparator("default", '-');
  }
}
