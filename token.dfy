/** Token refresh with a password-login fallback (utils/token.ts). */
module Token {
  import opened Wrappers
  import opened Transport
  import opened SecureStore

  /** The one error every failure of refreshTokens turns into. */
  const RefreshFailure: string := "Could not refresh tokens."
  /** The error getAuthTokens rethrows in its place. */
  const RetrieveFailure: string := "Could not retrieve updated tokens."

  datatype TokenPair = TokenPair(accessToken: string, refreshToken: string)

  /** What getUserCredentials returns: the two stored strings, each possibly `null`. */
  datatype Credentials = Credentials(userName: Option<string>, rawPassword: Option<string>)

  /** What a sequence of awaited calls did: how it ended, the store afterwards, and its effects in order. */
  datatype Run<+T> = Run(result: Result<T>, items: Items, events: seq<Event>)

  function PairOf(reply: AuthReply): TokenPair
    requires reply.Tokens?
  {
    TokenPair(reply.token, reply.refreshToken)
  }

  /** The credentials getUserCredentials reads. */
  function CredentialsIn(items: Items): Credentials
  {
    Credentials(Get(items, UserNameKey), Get(items, RawPasswordKey))
  }

  /** The store after updateTokens: the pair is stored, every other key keeps its value. */
  function WithTokens(items: Items, pair: TokenPair): (r: Items)
    ensures r.Keys == items.Keys + {AccessTokenKey, RefreshTokenKey}
    ensures Get(r, AccessTokenKey) == Some(pair.accessToken)
    ensures Get(r, RefreshTokenKey) == Some(pair.refreshToken)
    ensures forall k :: k != AccessTokenKey && k != RefreshTokenKey ==> Get(r, k) == Get(items, k)
  {
    items[AccessTokenKey := pair.accessToken][RefreshTokenKey := pair.refreshToken]
  }

  /** The two writes of updateTokens, access token first. */
  function TokenWrites(pair: TokenPair): seq<Event>
  {
    [Stored(AccessTokenKey, pair.accessToken), Stored(RefreshTokenKey, pair.refreshToken)]
  }

  /** The refresh was rejected with 401 and both stored credentials are truthy,
      so refreshTokens logs in with them. */
  predicate FallsBackToLogin(items: Items, refreshReply: AuthReply)
  {
    && refreshReply == Failed(Some(401))
    && Truthy(Get(items, UserNameKey))
    && Truthy(Get(items, RawPasswordKey))
  }

  /** The requests refreshTokens sends, in order: none without a refresh token; else one
      refresh with the stored refresh token, followed, on the fallback only, by one login
      with the stored user name and password. */
  function CallsMade(items: Items, refreshReply: AuthReply): seq<Event>
  {
    var refreshToken := Get(items, RefreshTokenKey);
    if !Truthy(refreshToken) then []
    else
      [Sent(RefreshAuthToken(refreshToken.value))]
      + if FallsBackToLogin(items, refreshReply)
        then [Sent(LoginWithPassword(Get(items, UserNameKey).value, Get(items, RawPasswordKey).value))]
        else []
  }

  /** refreshTokens, given what the refresh and (if it is sent) the login request answer. */
  function RefreshRun(items: Items, refreshReply: AuthReply, loginReply: AuthReply): (run: Run<TokenPair>)
    // without a truthy refresh token it fails at once: no request, no write
    ensures !Truthy(Get(items, RefreshTokenKey)) ==> run == Run(Err(RefreshFailure), items, [])
    // it succeeds exactly when the refresh, or else the fallback login, answers with tokens
    ensures run.result.Ok? <==>
      Truthy(Get(items, RefreshTokenKey))
      && (refreshReply.Tokens? || (FallsBackToLogin(items, refreshReply) && loginReply.Tokens?))
    // and then returns the pair that reply carries and stores it
    ensures run.result.Ok? ==>
      && run.result.value == (if refreshReply.Tokens? then PairOf(refreshReply) else PairOf(loginReply))
      && run.items == WithTokens(items, run.result.value)
    // every failure is the one error, and leaves the store as it was
    ensures run.result.Err? ==> run.result.message == RefreshFailure && run.items == items
    // the requests it sends, then the two token writes on success and no write otherwise
    ensures run.events == CallsMade(items, refreshReply) + (if run.result.Ok? then TokenWrites(run.result.value) else [])
  {
    var refreshToken := Get(items, RefreshTokenKey);
    if !Truthy(refreshToken) then Run(Err(RefreshFailure), items, [])
    else
      var refreshCall := [Sent(RefreshAuthToken(refreshToken.value))];
      match refreshReply
      case Tokens(token, refresh_token) =>
        var pair := TokenPair(token, refresh_token);
        Run(Ok(pair), WithTokens(items, pair), refreshCall + TokenWrites(pair))
      case Failed(status) =>
        if status != Some(401) then Run(Err(RefreshFailure), items, refreshCall)
        else
          var creds := CredentialsIn(items);
          if !Truthy(creds.userName) || !Truthy(creds.rawPassword) then Run(Err(RefreshFailure), items, refreshCall)
          else
            var loginCall := [Sent(LoginWithPassword(creds.userName.value, creds.rawPassword.value))];
            match loginReply
            case Tokens(token, refresh_token) =>
              var pair := TokenPair(token, refresh_token);
              Run(Ok(pair), WithTokens(items, pair), refreshCall + loginCall + TokenWrites(pair))
            case Failed(_) => Run(Err(RefreshFailure), items, refreshCall + loginCall)
  }

  predicate IsLoginRequest(e: Event)
  {
    e.Sent? && e.request.LoginWithPassword?
  }

  /** What refreshTokens does to the outside world: requests first, the refresh one first of all;
      exactly one login, with the stored credentials, on the 401 fallback and none otherwise;
      writes to the two token keys only, and no delete and no other effect. */
  lemma RefreshRunEffects(items: Items, refreshReply: AuthReply, loginReply: AuthReply)
    ensures var run := RefreshRun(items, refreshReply, loginReply);
      var refreshToken := Get(items, RefreshTokenKey);
      && (Truthy(refreshToken) ==> |run.events| >= 1 && run.events[0] == Sent(RefreshAuthToken(refreshToken.value)))
      && (Truthy(refreshToken) && FallsBackToLogin(items, refreshReply) ==>
            && |run.events| >= 2
            && run.events[1] == Sent(LoginWithPassword(Get(items, UserNameKey).value, Get(items, RawPasswordKey).value))
            && forall i :: 0 <= i < |run.events| && i != 1 ==> !IsLoginRequest(run.events[i]))
      && (!(Truthy(refreshToken) && FallsBackToLogin(items, refreshReply)) ==>
            forall i :: 0 <= i < |run.events| ==> !IsLoginRequest(run.events[i]))
      && (forall i :: 0 <= i < |run.events| ==>
            || run.events[i].Sent?
            || (run.events[i].Stored? && run.events[i].key in {AccessTokenKey, RefreshTokenKey}))
  {
    var run := RefreshRun(items, refreshReply, loginReply);
    var calls := CallsMade(items, refreshReply);
    var writes := if run.result.Ok? then TokenWrites(run.result.value) else [];
    assert run.events == calls + writes;
    assert forall i :: 0 <= i < |writes| ==> writes[i].Stored? && writes[i].key in {AccessTokenKey, RefreshTokenKey};
    assert forall i :: 0 <= i < |calls| ==> calls[i].Sent?;
    assert forall i :: 1 <= i < |calls| ==> IsLoginRequest(calls[i]) ==> i == 1 && FallsBackToLogin(items, refreshReply);
  }

  /** getAuthTokens: always a refresh, with refreshTokens' error replaced by its own. */
  function GetAuthTokensRun(items: Items, refreshReply: AuthReply, loginReply: AuthReply): (run: Run<TokenPair>)
    ensures run.items == RefreshRun(items, refreshReply, loginReply).items
    ensures run.events == RefreshRun(items, refreshReply, loginReply).events
    ensures run.result.Ok? ==> run.result == RefreshRun(items, refreshReply, loginReply).result
    ensures run.result.Err? <==> RefreshRun(items, refreshReply, loginReply).result.Err?
    ensures run.result.Err? ==> run.result.message == RetrieveFailure
    // the pair returned is never read back from the store: a reply of this run delivered it
    ensures run.result.Ok? ==>
      || (refreshReply.Tokens? && run.result.value == PairOf(refreshReply))
      || (loginReply.Tokens? && run.result.value == PairOf(loginReply))
  {
    var refresh := RefreshRun(items, refreshReply, loginReply);
    match refresh.result
    case Ok(_) => refresh
    case Err(_) => Run(Err(RetrieveFailure), refresh.items, refresh.events)
  }

  /** getUserCredentials: reads the two stored credentials. */
  method GetUserCredentials(d: Device) returns (creds: Credentials)
    ensures creds.userName == Get(d.items, UserNameKey)
    ensures creds.rawPassword == Get(d.items, RawPasswordKey)
  {
    var userName := Get(d.items, UserNameKey);
    var rawPassword := Get(d.items, RawPasswordKey);
    creds := Credentials(userName, rawPassword);
  }

  /** updateTokens: two separate writes, access token first. */
  method UpdateTokens(d: Device, newAccessToken: string, newRefreshToken: string)
    modifies d
    ensures d.items == WithTokens(old(d.items), TokenPair(newAccessToken, newRefreshToken))
    ensures d.trace == old(d.trace) + TokenWrites(TokenPair(newAccessToken, newRefreshToken))
  {
    d.SetItem(AccessTokenKey, newAccessToken);
    d.SetItem(RefreshTokenKey, newRefreshToken);
  }

  /** refreshTokens */
  method RefreshTokens(d: Device, refreshReply: AuthReply, loginReply: AuthReply) returns (r: Result<TokenPair>)
    modifies d
    ensures var run := RefreshRun(old(d.items), refreshReply, loginReply);
      r == run.result && d.items == run.items && d.trace == old(d.trace) + run.events
  {
    var refreshToken := Get(d.items, RefreshTokenKey);
    if !Truthy(refreshToken) {
      return Err(RefreshFailure);
    }
    d.Send(RefreshAuthToken(refreshToken.value));
    match refreshReply {
      case Tokens(token, refresh_token) =>
        UpdateTokens(d, token, refresh_token);
        return Ok(TokenPair(token, refresh_token));
      case Failed(status) =>
        if status != Some(401) {
          return Err(RefreshFailure);
        }
        var creds := GetUserCredentials(d);
        if !Truthy(creds.userName) || !Truthy(creds.rawPassword) {
          return Err(RefreshFailure);
        }
        d.Send(LoginWithPassword(creds.userName.value, creds.rawPassword.value));
        match loginReply {
          case Tokens(token, refresh_token) =>
            UpdateTokens(d, token, refresh_token);
            return Ok(TokenPair(token, refresh_token));
          case Failed(_) =>
            return Err(RefreshFailure);
        }
    }
  }

  /** getAuthTokens */
  method GetAuthTokens(d: Device, refreshReply: AuthReply, loginReply: AuthReply) returns (r: Result<TokenPair>)
    modifies d
    ensures var run := GetAuthTokensRun(old(d.items), refreshReply, loginReply);
      r == run.result && d.items == run.items && d.trace == old(d.trace) + run.events
  {
    r := RefreshTokens(d, refreshReply, loginReply);
    if r.Err? {
      r := Err(RetrieveFailure);
    }
  }
}
