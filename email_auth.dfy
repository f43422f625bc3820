/**
 * `EmailAuthService` and `AuthSessionBuilder`: e-mail sign-up and login
 * against the app's own API, and the session built from the returned tokens.
 * The reply arrives as a parameter: the response, and the body as
 * `JSONDecoder` reads it (None where it would throw).
 */
module EmailAuth {
  import opened Wrappers
  import opened Bytes
  import opened Http
  import opened Auth
  import HostedUI

  const SignUpPath: string := "/v1/auth/email/signup"
  const LoginPath: string := "/v1/auth/email/login"

  /** A token lifetime in seconds when the API leaves `expiresIn` out. */
  const DefaultExpiresIn: int := 3600

  datatype TokenResponse = TokenResponse(accessToken: string, refreshToken: Option<string>, idToken: string, expiresIn: Option<int>)

  datatype EmailAuthError =
    | ApiFailure(api: ApiError)
    | ResponseUnreadable   // `JSONDecoder` threw on a successful response
    | ClaimsUnreadable     // the identity token's JSON did not parse

  /** `AuthSessionBuilder.build`; `now`, `freshId` and `fallbackSubject` stand for `Date()` and two fresh UUIDs. */
  function Build(tokens: TokenResponse, now: int, freshId: nat, fallbackSubject: string,
                 base64: string -> Option<seq<Byte>>, json: seq<Byte> -> HostedUI.Json): (r: Result<AuthSession, EmailAuthError>)
    ensures r.Failure? <==> HostedUI.DecodeJWTClaims(tokens.idToken, base64, json).Failure?
    ensures r.Failure? ==> r.error == ClaimsUnreadable
    ensures r.Success? ==>
      && r.value.accessToken == tokens.accessToken
      && r.value.refreshToken == tokens.refreshToken
      && r.value.idToken == tokens.idToken
      && r.value.expiresAt == now + tokens.expiresIn.GetOr(DefaultExpiresIn)
      && r.value.user == HostedUI.UserFromClaims(HostedUI.DecodeJWTClaims(tokens.idToken, base64, json).value, fallbackSubject)
  {
    match HostedUI.DecodeJWTClaims(tokens.idToken, base64, json)
    case Failure(_) => Failure(ClaimsUnreadable)
    case Success(claims) =>
      Success(AuthSession(freshId, tokens.accessToken, tokens.refreshToken, tokens.idToken,
                          now + tokens.expiresIn.GetOr(DefaultExpiresIn), HostedUI.UserFromClaims(claims, fallbackSubject)))
  }

  /** Without a stated lifetime a session lasts exactly an hour. */
  lemma BuildDefaultsToAnHour(tokens: TokenResponse, now: int, freshId: nat, fallbackSubject: string,
                              base64: string -> Option<seq<Byte>>, json: seq<Byte> -> HostedUI.Json)
    requires tokens.expiresIn.None?
    requires Build(tokens, now, freshId, fallbackSubject, base64, json).Success?
    ensures var s := Build(tokens, now, freshId, fallbackSubject, base64, json).value;
      !s.IsExpired(now + 3599) && s.IsExpired(now + 3600)
  {
  }

  /** The POST `send` issues below the base URL. */
  function SendRequest(path: string): (r: Request)
    ensures r.httpMethod == "POST" && r.headers == [("Content-Type", "application/json")]
    ensures r.path == CleanPath(path)
  {
    Request("POST", CleanPath(path), [("Content-Type", "application/json")])
  }

  /** The two routes, each below the base URL without its leading slash. */
  lemma Routes()
    ensures SendRequest(SignUpPath).path == "v1/auth/email/signup"
    ensures SendRequest(LoginPath).path == "v1/auth/email/login"
  {
  }

  /**
   * `send`'s verdict on the reply: a non-HTTP response or a status of 400 or
   * more throws with the body text, or "Unknown error"; otherwise the tokens
   * become a session.
   */
  function SendResult(response: Response, asTokens: Option<TokenResponse>, now: int, freshId: nat, fallbackSubject: string,
                      base64: string -> Option<seq<Byte>>, json: seq<Byte> -> HostedUI.Json): (r: Result<AuthSession, EmailAuthError>)
    ensures !IsSuccess(response) ==> r == Failure(ApiFailure(ResponseError(Some(response.text.GetOr("Unknown error")))))
    ensures IsSuccess(response) && asTokens.None? ==> r == Failure(ResponseUnreadable)
    ensures IsSuccess(response) && asTokens.Some? ==> r == Build(asTokens.value, now, freshId, fallbackSubject, base64, json)
  {
    if !IsSuccess(response) then Failure(ApiFailure(ResponseError(Some(response.text.GetOr("Unknown error")))))
    else if asTokens.None? then Failure(ResponseUnreadable)
    else Build(asTokens.value, now, freshId, fallbackSubject, base64, json)
  }

  /** A refused request always carries a message, and a session only comes from a successful response. */
  lemma FailuresCarryAMessage(response: Response, asTokens: Option<TokenResponse>, now: int, freshId: nat, fallbackSubject: string,
                              base64: string -> Option<seq<Byte>>, json: seq<Byte> -> HostedUI.Json)
    ensures var r := SendResult(response, asTokens, now, freshId, fallbackSubject, base64, json);
      && (r.Failure? && r.error.ApiFailure? ==> r.error.api.message.Some?)
      && (r.Success? ==> response.status.Some? && response.status.value < 400)
  {
  }
}
