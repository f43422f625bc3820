/**
 * `HostedUILoginController`: the Cognito hosted sign-in. The browser session,
 * the HTTP exchange and the decoders are inputs: `parsesAsUrl` stands for
 * `URLComponents(string:)`, `base64` for `Data(base64Encoded:)` (standard
 * base64, not base64url) and `json` for `JSONSerialization`.
 */
module HostedUI {
  import opened Wrappers
  import opened Strings
  import opened Bytes
  import opened Manifest
  import opened Auth
  import SessionStorage

  datatype Provider = Apple | Google {
    function DisplayName(): string {
      match this
      case Apple => "Continue with Apple"
      case Google => "Continue with Google"
    }

    /** The `identity_provider` value the hosted UI expects. */
    function HostedUIIdentifier(): string {
      match this
      case Apple => "SignInWithApple"
      case Google => "Google"
    }
  }

  /** The two providers have different button titles and ask the hosted UI for different identity providers. */
  lemma ProvidersDistinguished(p: Provider, q: Provider)
    ensures p.DisplayName() == q.DisplayName() ==> p == q
    ensures p.HostedUIIdentifier() == q.HostedUIIdentifier() ==> p == q
  {
    if p != q {
      assert p.DisplayName()[14] != q.DisplayName()[14];
      assert |p.HostedUIIdentifier()| != |q.HostedUIIdentifier()|;
    }
  }

  datatype HostedUILoginError = InvalidConfiguration | Cancelled | MissingCallback | TokenExchangeFailed

  datatype RefreshTokenError = AuthFailed | Transient

  /** Everything the controller can throw: its own errors, and those of the calls it makes with `try`. */
  datatype ControllerError =
    | LoginError(login: HostedUILoginError)
    | RefreshError(refresh: RefreshTokenError)
    | NetworkFailed         // `URLSession` threw
    | PayloadUnreadable     // `JSONDecoder` threw on a 200 response
    | ClaimsUnreadable      // `JSONSerialization` threw on the token body
    | StoreFailed           // `AuthSessionStorage.store` threw

  // ---------------------------------------------------------------- JWT claims

  /** A claim's value: a string, or anything else JSON can hold. */
  datatype ClaimValue = Text(s: string) | NonText

  type Claims = map<string, ClaimValue>

  /** The JSON reader's verdict on the decoded bytes. */
  datatype Json = Malformed | NotAnObject | Object(claims: Claims)

  function Repeat(c: char, n: nat): (r: string)
    ensures |r| == n && forall k :: 0 <= k < n ==> r[k] == c
  {
    if n == 0 then [] else [c] + Repeat(c, n - 1)
  }

  /** Pads a base64 body with '=' to the next multiple of four characters. */
  function PadBase64(body: string): (r: string)
    ensures |r| % 4 == 0 && |body| <= |r| < |body| + 4
    ensures r[..|body|] == body
    ensures forall k :: |body| <= k < |r| ==> r[k] == '='
  {
    var requiredLength := ((|body| + 3) / 4) * 4;
    if |body| == requiredLength then body else body + Repeat('=', requiredLength - |body|)
  }

  /** No padding is the smallest padding: a body whose length is a multiple of four is left alone. */
  lemma PadBase64Aligned(body: string)
    requires |body| % 4 == 0
    ensures PadBase64(body) == body
  {
  }

  /**
   * `decodeJWTClaims`: the second non-empty '.'-piece, padded and decoded.
   * Too few pieces, a body that is not base64, or JSON that is not an object
   * give no claims; JSON that does not parse throws.
   */
  function DecodeJWTClaims(token: string, base64: string -> Option<seq<Byte>>, json: seq<Byte> -> Json): (r: Result<Claims, ControllerError>)
    ensures |Split(token, '.')| < 2 ==> r == Success(map[])
    ensures r.Failure? <==>
      |Split(token, '.')| >= 2 && base64(PadBase64(Split(token, '.')[1])).Some?
        && json(base64(PadBase64(Split(token, '.')[1])).value) == Malformed
    ensures r.Failure? ==> r.error == ClaimsUnreadable
    ensures r.Success? && r.value != map[] ==>
      |Split(token, '.')| >= 2 && base64(PadBase64(Split(token, '.')[1])) == Some(BodyBytes(token, base64))
        && json(BodyBytes(token, base64)) == Object(r.value)
    ensures var parts := Split(token, '.');
      |parts| >= 2 && base64(PadBase64(parts[1])).None? ==> r == Success(map[])
    ensures var parts := Split(token, '.');
      |parts| >= 2 && base64(PadBase64(parts[1])).Some? ==>
        && (json(base64(PadBase64(parts[1])).value) == NotAnObject ==> r == Success(map[]))
        && (json(base64(PadBase64(parts[1])).value).Object? ==> r == Success(json(base64(PadBase64(parts[1])).value).claims))
  {
    var parts := Split(token, '.');
    if |parts| < 2 then Success(map[])
    else
      match base64(PadBase64(parts[1]))
      case None => Success(map[])
      case Some(data) =>
        match json(data)
        case Malformed => Failure(ClaimsUnreadable)
        case NotAnObject => Success(map[])
        case Object(claims) => Success(claims)
  }

  /** The bytes of the token's body, when it has one that decodes. */
  function BodyBytes(token: string, base64: string -> Option<seq<Byte>>): seq<Byte> {
    var parts := Split(token, '.');
    if |parts| >= 2 && base64(PadBase64(parts[1])).Some? then base64(PadBase64(parts[1])).value else []
  }

  /** In a token `header.body.signature` the claims come from `body`, however many dots lead the token. */
  lemma TokenBodyIsSecondPiece(leadingDots: nat, header: string, body: string, signature: string)
    requires header != [] && body != [] && signature != []
    requires '.' !in header && '.' !in body && '.' !in signature
    ensures var token := Repeat('.', leadingDots) + (header + "." + body + "." + signature);
      |Split(token, '.')| == 3 && Split(token, '.')[1] == body
  {
    var parts := [header, body, signature];
    assert Join(parts, '.') == header + "." + body + "." + signature by {
      assert Join(parts[1..], '.') == body + "." + signature by {
        assert Join(parts[2..], '.') == signature;
      }
    }
    SplitOfJoin(parts, '.');
    LeadingDotsIgnored(leadingDots, Join(parts, '.'));
  }

  /** A token `header.body.signature` whose body decodes to a JSON object yields exactly that object's claims. */
  lemma ClaimsOfWellFormedToken(leadingDots: nat, header: string, body: string, signature: string,
                                base64: string -> Option<seq<Byte>>, json: seq<Byte> -> Json)
    requires header != [] && body != [] && signature != []
    requires '.' !in header && '.' !in body && '.' !in signature
    requires base64(PadBase64(body)).Some? && json(base64(PadBase64(body)).value).Object?
    ensures DecodeJWTClaims(Repeat('.', leadingDots) + (header + "." + body + "." + signature), base64, json)
      == Success(json(base64(PadBase64(body)).value).claims)
  {
    TokenBodyIsSecondPiece(leadingDots, header, body, signature);
  }

  lemma {:induction false} LeadingDotsIgnored(n: nat, s: string)
    ensures Split(Repeat('.', n) + s, '.') == Split(s, '.')
  {
    if n == 0 {
      assert Repeat('.', n) + s == s;
    } else {
      LeadingDotsIgnored(n - 1, s);
      assert Repeat('.', n) + s == ['.'] + (Repeat('.', n - 1) + s);
      SplitDropsLeadingSeparator(Repeat('.', n - 1) + s, '.');
    }
  }

  /** A token with one piece (no dot, or dots only at its ends) has no claims. */
  lemma SinglePieceHasNoClaims(token: string, base64: string -> Option<seq<Byte>>, json: seq<Byte> -> Json)
    requires '.' !in token
    ensures DecodeJWTClaims(token, base64, json) == Success(map[])
  {
    SplitWithoutSeparator(token, '.');
  }

  /** A string claim, as `claims[key] as? String`. */
  function TextClaim(claims: Claims, key: string): (r: Option<string>)
    ensures r.Some? <==> key in claims && claims[key].Text?
    ensures r.Some? ==> claims[key] == Text(r.value)
  {
    if key in claims && claims[key].Text? then Some(claims[key].s) else None
  }

  /** The user named by the identity token's claims; `fallbackSubject` stands for the fresh UUID. */
  function UserFromClaims(claims: Claims, fallbackSubject: string): (u: AuthenticatedUser)
    ensures u.subject == TextClaim(claims, "sub").GetOr(fallbackSubject)
    ensures u.email == TextClaim(claims, "email")
    ensures u.givenName == TextClaim(claims, "given_name")
    ensures u.familyName == TextClaim(claims, "family_name")
  {
    AuthenticatedUser(
      TextClaim(claims, "sub").GetOr(fallbackSubject),
      TextClaim(claims, "email"),
      TextClaim(claims, "given_name"),
      TextClaim(claims, "family_name"))
  }

  /** With no claims (an unreadable body) the user is anonymous under the fallback subject. */
  lemma NoClaimsAnonymousUser(fallbackSubject: string)
    ensures UserFromClaims(map[], fallbackSubject) == AuthenticatedUser(fallbackSubject, None, None, None)
  {
  }

  // ---------------------------------------------------------------- sign-in and logout URLs

  datatype QueryItem = QueryItem(name: string, value: string)

  /** A page for the browser session: the URL before its query, the query, and the scheme that ends the session. */
  datatype HostedPage = HostedPage(base: string, query: seq<QueryItem>, callbackScheme: string)

  /** The app's own callback URL. */
  function RedirectUri(scheme: string): string {
    scheme + "://auth"
  }

  /** The complete sign-in configuration: client id, scheme, region and a non-empty domain. */
  predicate HasSignInConfiguration(auth: AuthConfig) {
    && auth.cognitoClientId.Some? && auth.scheme.Some? && auth.region.Some?
    && auth.hostedUIDomain.Some? && auth.hostedUIDomain.value != []
  }

  /** The authorize page `signIn` opens, or `invalidConfiguration`. */
  function AuthorizePage(provider: Provider, auth: AuthConfig, parsesAsUrl: string -> bool): (r: Result<HostedPage, HostedUILoginError>)
    ensures r.Failure? ==> r.error == InvalidConfiguration
    ensures !HasSignInConfiguration(auth) ==> r.Failure?
    ensures r.Success? <==> HasSignInConfiguration(auth) && parsesAsUrl("https://" + auth.hostedUIDomain.value + "/oauth2/authorize")
    ensures r.Success? ==>
      && r.value.base == "https://" + auth.hostedUIDomain.value + "/oauth2/authorize"
      && r.value.callbackScheme == auth.scheme.value
      && r.value.query == [
           QueryItem("client_id", auth.cognitoClientId.value),
           QueryItem("response_type", "code"),
           QueryItem("scope", "openid email profile"),
           QueryItem("redirect_uri", RedirectUri(auth.scheme.value)),
           QueryItem("identity_provider", provider.HostedUIIdentifier())]
  {
    if !HasSignInConfiguration(auth) then Failure(InvalidConfiguration)
    else
      var scheme := auth.scheme.value;
      var base := "https://" + auth.hostedUIDomain.value + "/oauth2/authorize";
      if !parsesAsUrl(base) then Failure(InvalidConfiguration)
      else Success(HostedPage(base, [
        QueryItem("client_id", auth.cognitoClientId.value),
        QueryItem("response_type", "code"),
        QueryItem("scope", "openid email profile"),
        QueryItem("redirect_uri", RedirectUri(scheme)),
        QueryItem("identity_provider", provider.HostedUIIdentifier())], scheme))
  }

  /** The logout page: it needs the domain, client id and scheme, but not the region, and accepts an empty domain. */
  function LogoutPage(auth: AuthConfig, parsesAsUrl: string -> bool): (r: Result<HostedPage, HostedUILoginError>)
    ensures r.Failure? ==> r.error == InvalidConfiguration
    ensures r.Success? <==>
      auth.hostedUIDomain.Some? && auth.cognitoClientId.Some? && auth.scheme.Some?
        && parsesAsUrl("https://" + auth.hostedUIDomain.value + "/logout")
    ensures r.Success? ==>
      && r.value.base == "https://" + auth.hostedUIDomain.value + "/logout"
      && r.value.callbackScheme == auth.scheme.value
      && r.value.query == [QueryItem("client_id", auth.cognitoClientId.value), QueryItem("logout_uri", RedirectUri(auth.scheme.value))]
  {
    if auth.hostedUIDomain.None? || auth.cognitoClientId.None? || auth.scheme.None? then Failure(InvalidConfiguration)
    else
      var base := "https://" + auth.hostedUIDomain.value + "/logout";
      if !parsesAsUrl(base) then Failure(InvalidConfiguration)
      else Success(HostedPage(base, [QueryItem("client_id", auth.cognitoClientId.value), QueryItem("logout_uri", RedirectUri(auth.scheme.value))], auth.scheme.value))
  }

  /** Sign-in and logout send the browser back to the same callback, and sign-in's configuration suffices for logout. */
  lemma LogoutMatchesSignIn(provider: Provider, auth: AuthConfig, parsesAsUrl: string -> bool)
    requires AuthorizePage(provider, auth, parsesAsUrl).Success?
    requires parsesAsUrl("https://" + auth.hostedUIDomain.value + "/logout")
    ensures LogoutPage(auth, parsesAsUrl).Success?
    ensures LogoutPage(auth, parsesAsUrl).value.query[1].value == AuthorizePage(provider, auth, parsesAsUrl).value.query[3].value
    ensures LogoutPage(auth, parsesAsUrl).value.callbackScheme == AuthorizePage(provider, auth, parsesAsUrl).value.callbackScheme
  {
  }

  /** The placeholder manifest has no sign-in configuration, so hosted sign-in from it always fails. */
  lemma PlaceholderCannotSignIn(provider: Provider, parsesAsUrl: string -> bool)
    ensures AuthorizePage(provider, Placeholder.auth, parsesAsUrl) == Failure(InvalidConfiguration)
    ensures LogoutPage(Placeholder.auth, parsesAsUrl) == Failure(InvalidConfiguration)
  {
  }

  // ---------------------------------------------------------------- token endpoint

  /** The token endpoint's JSON on success (`TokenExchangeResponse`, `TokenRefreshResponse`). */
  datatype TokenPayload = TokenPayload(accessToken: string, refreshToken: Option<string>, idToken: string, expiresIn: int)

  /** The token endpoint's JSON on failure (`TokenErrorResponse`). */
  datatype TokenErrorPayload = TokenErrorPayload(error: Option<string>, errorDescription: Option<string>)

  /**
   * What came back from the token endpoint: a thrown transport error, a
   * response that is not HTTP, or an HTTP status with the body as each
   * decoder reads it (None where that decoder would throw).
   */
  datatype TokenReply =
    | TransportError
    | NonHttp
    | Http(statusCode: int, asTokens: Option<TokenPayload>, asError: Option<TokenErrorPayload>)

  /** The session built from a 200 response's tokens; the identifier and the fallback subject are fresh UUIDs. */
  function SessionFromTokens(payload: TokenPayload, refreshToken: Option<string>, now: int, freshId: nat, fallbackSubject: string,
                             base64: string -> Option<seq<Byte>>, json: seq<Byte> -> Json): (r: Result<AuthSession, ControllerError>)
    ensures r.Failure? <==> DecodeJWTClaims(payload.idToken, base64, json).Failure?
    ensures r.Success? ==>
      && r.value.accessToken == payload.accessToken
      && r.value.idToken == payload.idToken
      && r.value.refreshToken == refreshToken
      && r.value.expiresAt == now + payload.expiresIn
      && r.value.user == UserFromClaims(DecodeJWTClaims(payload.idToken, base64, json).value, fallbackSubject)
  {
    match DecodeJWTClaims(payload.idToken, base64, json)
    case Failure(e) => Failure(e)
    case Success(claims) =>
      Success(AuthSession(freshId, payload.accessToken, refreshToken, payload.idToken, now + payload.expiresIn,
                          UserFromClaims(claims, fallbackSubject)))
  }

  /**
   * `refreshSession`: needs the domain and client id; a non-HTTP response is
   * transient; a non-200 status is `authFailed` exactly when the error body
   * says "invalid_grant", and transient otherwise.
   */
  function RefreshSession(auth: AuthConfig, refreshToken: string, reply: TokenReply, now: int, freshId: nat, fallbackSubject: string,
                          base64: string -> Option<seq<Byte>>, json: seq<Byte> -> Json): (r: Result<AuthSession, ControllerError>)
    ensures auth.hostedUIDomain.None? || auth.cognitoClientId.None? ==> r == Failure(LoginError(InvalidConfiguration))
    ensures auth.hostedUIDomain.Some? && auth.cognitoClientId.Some? ==>
      && (reply.NonHttp? ==> r == Failure(RefreshError(Transient)))
      && (reply.TransportError? ==> r == Failure(NetworkFailed))
      && (reply.Http? && reply.statusCode != 200 ==>
            (r == Failure(RefreshError(AuthFailed)) <==> IsInvalidGrant(reply.asError))
            && (r == Failure(RefreshError(Transient)) <==> !IsInvalidGrant(reply.asError)))
      && (reply.Http? && reply.statusCode == 200 && reply.asTokens.None? ==> r == Failure(PayloadUnreadable))
      && (reply.Http? && reply.statusCode == 200 && reply.asTokens.Some? ==>
            var payload := reply.asTokens.value;
            r == SessionFromTokens(payload, Some(payload.refreshToken.GetOr(refreshToken)), now, freshId, fallbackSubject, base64, json))
    ensures r.Success? ==> reply.Http? && reply.statusCode == 200 && reply.asTokens.Some?
    ensures r.Success? ==>
      && r.value.refreshToken == Some(reply.asTokens.value.refreshToken.GetOr(refreshToken))
      && r.value.expiresAt == now + reply.asTokens.value.expiresIn
  {
    if auth.hostedUIDomain.None? || auth.cognitoClientId.None? then Failure(LoginError(InvalidConfiguration))
    else
      match reply
      case TransportError => Failure(NetworkFailed)
      case NonHttp => Failure(RefreshError(Transient))
      case Http(status, asTokens, asError) =>
        if status != 200 then
          if IsInvalidGrant(asError) then Failure(RefreshError(AuthFailed)) else Failure(RefreshError(Transient))
        else
          match asTokens
          case None => Failure(PayloadUnreadable)
          case Some(payload) =>
            SessionFromTokens(payload, Some(payload.refreshToken.GetOr(refreshToken)), now, freshId, fallbackSubject, base64, json)
  }

  /** The error body names the grant as invalid. */
  predicate IsInvalidGrant(asError: Option<TokenErrorPayload>) {
    asError.Some? && asError.value.error == Some("invalid_grant")
  }

  /** A refreshed session always carries a refresh token: the new one, or else the one it was refreshed with. */
  lemma RefreshKeepsARefreshToken(auth: AuthConfig, refreshToken: string, reply: TokenReply, now: int, freshId: nat, fallbackSubject: string,
                                  base64: string -> Option<seq<Byte>>, json: seq<Byte> -> Json)
    requires reply.Http? && reply.asTokens.Some? && reply.asTokens.value.refreshToken.None?
    requires RefreshSession(auth, refreshToken, reply, now, freshId, fallbackSubject, base64, json).Success?
    ensures RefreshSession(auth, refreshToken, reply, now, freshId, fallbackSubject, base64, json).value.refreshToken == Some(refreshToken)
    ensures !RefreshSession(auth, refreshToken, reply, now, freshId, fallbackSubject, base64, json).value.IsExpired(now)
      <==> reply.asTokens.value.expiresIn > 0
  {
  }

  // ---------------------------------------------------------------- the sign-in flow

  /** How the browser session ended: cancelled, with no callback URL, or with one (and its `code` item, if any). */
  datatype BrowserOutcome = CancelledLogin | NoCallback | Callback(code: Option<string>)

  /** `exchangeCode` up to storing: a code is needed, and only a 200 response with readable tokens gives a session. */
  function ExchangedSession(code: Option<string>, reply: TokenReply, now: int, freshId: nat, fallbackSubject: string,
                            base64: string -> Option<seq<Byte>>, json: seq<Byte> -> Json): (r: Result<AuthSession, ControllerError>)
    ensures code.None? ==> r == Failure(LoginError(TokenExchangeFailed))
    ensures code.Some? && (reply.NonHttp? || (reply.Http? && reply.statusCode != 200)) ==> r == Failure(LoginError(TokenExchangeFailed))
    ensures code.Some? && reply.TransportError? ==> r == Failure(NetworkFailed)
    ensures code.Some? && reply.Http? && reply.statusCode == 200 && reply.asTokens.None? ==> r == Failure(PayloadUnreadable)
    ensures code.Some? && reply.Http? && reply.statusCode == 200 && reply.asTokens.Some? ==>
      r == SessionFromTokens(reply.asTokens.value, reply.asTokens.value.refreshToken, now, freshId, fallbackSubject, base64, json)
    ensures r.Success? ==> code.Some? && reply.Http? && reply.statusCode == 200 && reply.asTokens.Some?
    ensures r.Success? ==> r.value.refreshToken == reply.asTokens.value.refreshToken && r.value.expiresAt == now + reply.asTokens.value.expiresIn
  {
    if code.None? then Failure(LoginError(TokenExchangeFailed))
    else
      match reply
      case TransportError => Failure(NetworkFailed)
      case NonHttp => Failure(LoginError(TokenExchangeFailed))
      case Http(status, asTokens, _) =>
        if status != 200 then Failure(LoginError(TokenExchangeFailed))
        else
          match asTokens
          case None => Failure(PayloadUnreadable)
          case Some(payload) => SessionFromTokens(payload, payload.refreshToken, now, freshId, fallbackSubject, base64, json)
  }

  /** The outcome of the browser session before the code exchange. */
  function BrowserResult(outcome: BrowserOutcome): (r: Result<Option<string>, ControllerError>)
    ensures r.Failure? <==> !outcome.Callback?
    ensures outcome == CancelledLogin ==> r == Failure(LoginError(Cancelled))
    ensures outcome == NoCallback ==> r == Failure(LoginError(MissingCallback))
  {
    match outcome
    case CancelledLogin => Failure(LoginError(Cancelled))
    case NoCallback => Failure(LoginError(MissingCallback))
    case Callback(code) => Success(code)
  }

  /**
   * `signIn`: validates the configuration, runs the browser session, exchanges
   * the code and stores the session. The session is returned only when it was
   * stored; nothing is stored on any failure before that.
   */
  method SignIn(storage: SessionStorage.AuthSessionStorage, provider: Provider, auth: AuthConfig, parsesAsUrl: string -> bool,
                browser: BrowserOutcome, reply: TokenReply, now: int, freshId: nat, fallbackSubject: string,
                base64: string -> Option<seq<Byte>>, json: seq<Byte> -> Json, encodes: bool)
    returns (r: Result<AuthSession, ControllerError>)
    modifies storage`slot
    ensures AuthorizePage(provider, auth, parsesAsUrl).Failure? ==> r == Failure(LoginError(InvalidConfiguration))
    ensures r.Success? ==> storage.slot == Some(SessionStorage.Encoded(r.value))
    ensures r.Success? ==>
      browser.Callback? && Success(r.value) == ExchangedSession(browser.code, reply, now, freshId, fallbackSubject, base64, json)
    ensures r.Failure? ==> storage.slot == old(storage.slot)
    ensures AuthorizePage(provider, auth, parsesAsUrl).Success? ==>
      && (browser == CancelledLogin ==> r == Failure(LoginError(Cancelled)))
      && (browser == NoCallback ==> r == Failure(LoginError(MissingCallback)))
      && (browser.Callback? && ExchangedSession(browser.code, reply, now, freshId, fallbackSubject, base64, json).Failure? ==>
            r == ExchangedSession(browser.code, reply, now, freshId, fallbackSubject, base64, json))
      && (browser.Callback? && ExchangedSession(browser.code, reply, now, freshId, fallbackSubject, base64, json).Success? ==>
            (r.Success? <==> encodes) && (!encodes ==> r == Failure(StoreFailed)))
  {
    var page := AuthorizePage(provider, auth, parsesAsUrl);
    if page.Failure? {
      return Failure(LoginError(page.error));
    }
    var code := BrowserResult(browser);
    if code.Failure? {
      return Failure(code.error);
    }
    var session := ExchangedSession(code.value, reply, now, freshId, fallbackSubject, base64, json);
    if session.Failure? {
      return session;
    }
    var stored := storage.Store(session.value, encodes);
    if stored.Fail? {
      return Failure(StoreFailed);
    }
    r := session;
  }
}
