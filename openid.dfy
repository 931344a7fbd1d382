/**
 * The OpenID Connect protocol engine (`OpenIdClient` in
 * src/agent/client/openid.rs): building the client from configuration,
 * starting a login, exchanging a code or a refresh token, and logging out.
 *
 * The network, verification, randomness, the clock and the browser are
 * parameters: URL parsing (`parse`), provider discovery (`discover`), the
 * token endpoint (`tokenEndpoint`), ID-token verification (`verify`), the
 * wall-clock `expires` helper, freshly generated secrets, and the current
 * location of the browser tab. The openidconnect builder calls the engine
 * makes (`from_provider_metadata`, `set_redirect_uri`, `authorize_url`,
 * `add_scope`, `set_pkce_challenge`, `url`) and `append_pair` are small
 * functions below that follow that library's documented behaviour.
 */
module OpenId {
  import opened Wrappers
  import opened Context

  /**
   * A parsed URL: `base` stands for everything except the query (scheme,
   * authority, path and fragment), and `query` is the ordered name/value pairs.
   */
  datatype Url = Url(base: string, query: seq<(string, string)>)

  /** `query_pairs_mut().append_pair(name, value)`: one more pair at the end of the query. */
  function AppendPair(url: Url, name: string, value: string): Url {
    url.(query := url.query + [(name, value)])
  }

  /** The signed ID token as the token endpoint returns it; never inspected here. */
  type IdToken(==)

  /** The standard part of a discovery document (endpoints, keys, algorithms). */
  type StandardMetadata(==)

  datatype OAuth2Error = Configuration(message: string) | LoginResult(message: string)

  /** The OpenID part of the configuration. */
  datatype Config = Config(issuerUrl: string, clientId: string, endSessionUrl: Option<string>)

  /** The part of the agent's configuration a login reads. */
  datatype InnerConfig = InnerConfig(scopes: seq<string>)

  /** Discovered provider metadata with its one extension field. */
  datatype ProviderMetadata = ProviderMetadata(standard: StandardMetadata, endSessionEndpoint: Option<Url>)

  /**
   * The library's client: provider data fixed at discovery, whether its
   * authorization requests carry the `openid` scope, and a redirect URI.
   */
  datatype CoreClient = CoreClient(provider: StandardMetadata, clientId: string,
                                   clientSecret: Option<string>, useOpenIdScope: bool,
                                   redirectUri: Option<Url>)
  {
    /** The scopes the library puts on a request before any the caller adds. */
    function InitialScopes(): seq<string> {
      if useOpenIdScope then ["openid"] else []
    }

    /** `CoreClient::set_redirect_uri`. */
    function WithRedirectUri(url: Url): CoreClient {
      this.(redirectUri := Some(url))
    }
  }

  /**
   * `CoreClient::from_provider_metadata(metadata, ClientId::new(id), None)`:
   * no client secret, no redirect URI, and the `openid` scope enabled.
   */
  function FromProviderMetadata(metadata: ProviderMetadata, clientId: string): CoreClient {
    CoreClient(metadata.standard, clientId, None, true, None)
  }

  /** The secret material a login attempt draws from the random source. */
  datatype LoginSecrets = LoginSecrets(pkceChallenge: string, pkceVerifier: string,
                                       csrfToken: string, nonce: string)

  /** A PKCE challenge and the transformation it declares. */
  datatype PkceChallenge = PkceChallenge(challenge: string, challengeMethod: string)

  /**
   * The authorization URL as the library encodes it: the client supplies the
   * authorization endpoint, the client id and the redirect URI; the rest are
   * its query parameters.
   */
  datatype AuthorizationUrl = AuthorizationUrl(client: CoreClient, flow: AuthenticationFlow,
                                               scopes: seq<string>, state: string, nonce: string,
                                               pkce: Option<PkceChallenge>)

  /**
   * `CoreAuthenticationFlow`: which response types the request asks for. The
   * Authorization Code flow is encoded as `response_type=code`.
   */
  datatype AuthenticationFlow =
    | AuthorizationCode
    | Implicit(includeToken: bool)
    | Hybrid(responseTypes: seq<string>)

  /** The library's authorization-request builder. */
  datatype AuthorizationRequest = AuthorizationRequest(client: CoreClient, flow: AuthenticationFlow,
                                                       state: string, nonce: string,
                                                       scopes: seq<string>, pkce: Option<PkceChallenge>)
  {
    function AddScope(scope: string): AuthorizationRequest {
      this.(scopes := scopes + [scope])
    }

    function SetPkceChallenge(challenge: PkceChallenge): AuthorizationRequest {
      this.(pkce := Some(challenge))
    }

    /** `url()`: the URL, with the CSRF state and the nonce bound into it. */
    function BuildUrl(): (AuthorizationUrl, string, string) {
      (AuthorizationUrl(client, flow, scopes, state, nonce, pkce), state, nonce)
    }
  }

  /**
   * `client.authorize_url(flow, ...)` with the generated CSRF token and
   * nonce; the request starts with the client's initial scopes.
   */
  function AuthorizeUrl(client: CoreClient, flow: AuthenticationFlow, state: string, nonce: string): AuthorizationRequest {
    AuthorizationRequest(client, flow, state, nonce, client.InitialScopes(), None)
  }

  /** What a login attempt persists across the redirect to the provider. */
  datatype OpenIdLoginState = OpenIdLoginState(pkceVerifier: string, nonce: string)

  datatype LoginContext = LoginContext(url: AuthorizationUrl, csrfToken: string, state: OpenIdLoginState)

  /** A request to the token endpoint. */
  datatype TokenRequest =
    | AuthorizationCodeGrant(code: string, pkceVerifier: string)
    | RefreshTokenGrant(refreshToken: string)

  /** The token endpoint's answer; `expiresIn` is the declared lifetime in seconds. */
  datatype TokenResponse = TokenResponse(accessToken: string, refreshToken: Option<string>,
                                         expiresIn: Option<nat>, idToken: Option<IdToken>)

  /**
   * The effective end-session URL: a configured value wins when it parses and
   * is an error when it does not; with nothing configured the discovered
   * endpoint is used, and its absence is no error.
   */
  function ResolveEndSessionUrl(configured: Option<string>, discovered: Option<Url>,
                                parse: string -> Result<Url, string>): (r: Result<Option<Url>, string>)
    ensures configured.Some? && parse(configured.value).Success? ==> r == Success(Some(parse(configured.value).value))
    ensures configured.Some? && parse(configured.value).Failure? ==> r == Failure(parse(configured.value).error)
    ensures configured.None? ==> r == Success(discovered)
  {
    var parsed: Result<Option<Url>, string> := match configured
      case Some(url) => (match parse(url)
        case Success(u) => Success(Some(u))
        case Failure(e) => Failure(e))
      case None => Success(None);
    match parsed
    case Success(url) => Success(url.Or(discovered))
    case Failure(e) => Failure(e)
  }

  /** A configured end-session URL that parses makes discovery irrelevant to it. */
  lemma ConfiguredEndSessionWins(url: string, discovered1: Option<Url>, discovered2: Option<Url>,
                                 parse: string -> Result<Url, string>)
    requires parse(url).Success?
    ensures ResolveEndSessionUrl(Some(url), discovered1, parse) == ResolveEndSessionUrl(Some(url), discovered2, parse)
    ensures ResolveEndSessionUrl(Some(url), discovered1, parse).value == Some(parse(url).value)
  {
  }

  /**
   * `from_config` without the allocation: the client and the effective
   * end-session URL, or a `Configuration` error.
   */
  function Configure(config: Config, parse: string -> Result<Url, string>,
                     discover: Url -> Result<ProviderMetadata, string>): (r: Result<(CoreClient, Option<Url>), OAuth2Error>)
    ensures r.Failure? ==> r.error.Configuration?
    ensures parse(config.issuerUrl).Failure? ==>
      r == Failure(Configuration("invalid issuer URL: " + parse(config.issuerUrl).error))
    ensures parse(config.issuerUrl).Success? && discover(parse(config.issuerUrl).value).Failure? ==>
      r == Failure(Configuration("Failed to discover client: " + discover(parse(config.issuerUrl).value).error))
    ensures parse(config.issuerUrl).Success? && discover(parse(config.issuerUrl).value).Success? ==>
      var metadata := discover(parse(config.issuerUrl).value).value;
      var endSession := ResolveEndSessionUrl(config.endSessionUrl, metadata.endSessionEndpoint, parse);
      && (endSession.Failure? ==> r == Failure(Configuration("Unable to parse end_session_url: " + endSession.error)))
      && (endSession.Success? ==> r == Success((FromProviderMetadata(metadata, config.clientId), endSession.value)))
  {
    match parse(config.issuerUrl)
    case Failure(e) => Failure(Configuration("invalid issuer URL: " + e))
    case Success(issuer) =>
      match discover(issuer)
      case Failure(e) => Failure(Configuration("Failed to discover client: " + e))
      case Success(metadata) =>
        match ResolveEndSessionUrl(config.endSessionUrl, metadata.endSessionEndpoint, parse)
        case Failure(e) => Failure(Configuration("Unable to parse end_session_url: " + e))
        case Success(endSessionUrl) =>
          Success((FromProviderMetadata(metadata, config.clientId), endSessionUrl))
  }

  /** A malformed issuer fails before discovery: the discovery outcome cannot matter. */
  lemma BadIssuerSkipsDiscovery(config: Config, parse: string -> Result<Url, string>,
                                discover1: Url -> Result<ProviderMetadata, string>,
                                discover2: Url -> Result<ProviderMetadata, string>)
    requires parse(config.issuerUrl).Failure?
    ensures Configure(config, parse, discover1) == Configure(config, parse, discover2)
  {
  }

  /** A configured end-session URL that does not parse is an error even when discovery offers one. */
  lemma BadEndSessionUrlIsFatal(config: Config, parse: string -> Result<Url, string>,
                                discover: Url -> Result<ProviderMetadata, string>)
    requires config.endSessionUrl.Some? && parse(config.endSessionUrl.value).Failure?
    ensures Configure(config, parse, discover).Failure?
  {
  }

  /** With nothing configured, a successful discovery always yields a client, with or without an end-session URL. */
  lemma ConfigureWithoutEndSessionUrl(config: Config, parse: string -> Result<Url, string>,
                                      discover: Url -> Result<ProviderMetadata, string>)
    requires config.endSessionUrl.None?
    requires parse(config.issuerUrl).Success? && discover(parse(config.issuerUrl).value).Success?
    ensures Configure(config, parse, discover).Success?
    ensures Configure(config, parse, discover).value.1 == discover(parse(config.issuerUrl).value).value.endSessionEndpoint
  {
  }

  /** A client built from configuration puts the `openid` scope first on every authorization request. */
  lemma ConfiguredClientRequestsOpenId(config: Config, parse: string -> Result<Url, string>,
                                       discover: Url -> Result<ProviderMetadata, string>)
    requires Configure(config, parse, discover).Success?
    ensures Configure(config, parse, discover).value.0.InitialScopes() == ["openid"]
  {
  }

  class OpenIdClient {
    var client: CoreClient
    var endSessionUrl: Option<Url>

    constructor (client: CoreClient, endSessionUrl: Option<Url>)
      ensures this.client == client && this.endSessionUrl == endSessionUrl
    {
      this.client := client;
      this.endSessionUrl := endSessionUrl;
    }

    /** `from_config`: the client built by `Configure`, freshly allocated, or its error. */
    static method FromConfig(config: Config, parse: string -> Result<Url, string>,
                             discover: Url -> Result<ProviderMetadata, string>) returns (r: Result<OpenIdClient, OAuth2Error>)
      ensures var configured := Configure(config, parse, discover);
        && (configured.Failure? ==> r == Failure(configured.error))
        && (configured.Success? ==>
              && r.Success? && fresh(r.value)
              && r.value.client == configured.value.0 && r.value.endSessionUrl == configured.value.1)
    {
      match Configure(config, parse, discover)
      case Failure(e) =>
        r := Failure(e);
      case Success((client, endSessionUrl)) =>
        var engine := new OpenIdClient(client, endSessionUrl);
        r := Success(engine);
    }

    /** Rebinds the redirect URI and nothing else. */
    method SetRedirectUri(url: Url)
      modifies this
      ensures client == old(client).(redirectUri := Some(url))
      ensures endSessionUrl == old(endSessionUrl)
    {
      client := client.WithRedirectUri(url);
    }

    /**
     * Builds the authorization URL for one login attempt on a copy of the
     * client bound to `redirectUrl`, and returns the secrets bound into it.
     */
    method MakeLoginContext(config: InnerConfig, redirectUrl: Url, secrets: LoginSecrets)
      returns (r: Result<LoginContext, OAuth2Error>)
      ensures r.Success?
      ensures r.value.url.client == client.(redirectUri := Some(redirectUrl))
      ensures r.value.url.flow == AuthorizationCode
      ensures r.value.url.scopes == client.InitialScopes() + config.scopes
      ensures r.value.url.pkce == Some(PkceChallenge(secrets.pkceChallenge, "S256"))
      ensures r.value.csrfToken == r.value.url.state == secrets.csrfToken
      ensures r.value.state.nonce == r.value.url.nonce == secrets.nonce
      ensures r.value.state.pkceVerifier == secrets.pkceVerifier
    {
      var login := client.WithRedirectUri(redirectUrl);
      var pkce := PkceChallenge(secrets.pkceChallenge, "S256");
      var start := AuthorizeUrl(login, AuthorizationCode, secrets.csrfToken, secrets.nonce);
      var req := start;
      for i := 0 to |config.scopes|
        invariant req == start.(scopes := start.scopes + config.scopes[..i])
      {
        req := req.AddScope(config.scopes[i]);
      }
      assert config.scopes[..|config.scopes|] == config.scopes;
      var (url, state, nonce) := req.SetPkceChallenge(pkce).BuildUrl();
      r := Success(LoginContext(url, state, OpenIdLoginState(secrets.pkceVerifier, nonce)));
    }

    /**
     * Exchanges an authorization code, with the stored PKCE verifier, for
     * tokens, and verifies the ID token against the stored nonce.
     */
    function ExchangeCode(code: string, state: OpenIdLoginState,
                          tokenEndpoint: (CoreClient, TokenRequest) -> Result<TokenResponse, string>,
                          verify: (CoreClient, IdToken, string) -> Result<IdTokenClaims, string>,
                          expires: Option<nat> -> Option<uint64>): (r: Result<(OAuth2Context, IdTokenClaims), OAuth2Error>)
      reads this
      ensures r.Failure? ==> r.error.LoginResult?
      ensures var response := tokenEndpoint(client, AuthorizationCodeGrant(code, state.pkceVerifier));
        && (response.Failure? ==> r == Failure(LoginResult("failed to exchange code: " + response.error)))
        && (response.Success? && response.value.idToken.None? ==>
              r == Failure(LoginResult("Server did not return an ID token")))
        && (response.Success? && response.value.idToken.Some? ==>
              var verified := verify(client, response.value.idToken.value, state.nonce);
              && (verified.Failure? ==> r == Failure(LoginResult("failed to verify ID token: " + verified.error)))
              && (verified.Success? ==> r.Success? && r.value.1 == verified.value))
      ensures r.Success? ==>
        var response := tokenEndpoint(client, AuthorizationCodeGrant(code, state.pkceVerifier)).value;
        r.value.0 == Authenticated(response.accessToken, response.refreshToken, Some(r.value.1), expires(response.expiresIn))
    {
      match tokenEndpoint(client, AuthorizationCodeGrant(code, state.pkceVerifier))
      case Failure(e) => Failure(LoginResult("failed to exchange code: " + e))
      case Success(response) =>
        match response.idToken
        case None => Failure(LoginResult("Server did not return an ID token"))
        case Some(idToken) =>
          match verify(client, idToken, state.nonce)
          case Failure(e) => Failure(LoginResult("failed to verify ID token: " + e))
          case Success(claims) =>
            Success((Authenticated(response.accessToken, response.refreshToken, Some(claims),
                                   expires(response.expiresIn)),
                     claims))
    }

    /**
     * Exchanges a refresh token for new tokens; the claims of the session
     * are carried forward without a new verification.
     */
    function ExchangeRefreshToken(refreshToken: string, sessionState: IdTokenClaims,
                                  tokenEndpoint: (CoreClient, TokenRequest) -> Result<TokenResponse, string>,
                                  expires: Option<nat> -> Option<uint64>): (r: Result<(OAuth2Context, IdTokenClaims), OAuth2Error>)
      reads this
      ensures var response := tokenEndpoint(client, RefreshTokenGrant(refreshToken));
        && (r.Success? <==> response.Success?)
        && (response.Failure? ==> r == Failure(LoginResult("failed to exchange refresh token: " + response.error)))
        && (response.Success? ==>
              && r.value.1 == sessionState
              && r.value.0.Authenticated?
              && r.value.0.accessToken == response.value.accessToken
              && r.value.0.refreshToken == response.value.refreshToken
              && r.value.0.claims == Some(sessionState)
              && r.value.0.expires == expires(response.value.expiresIn))
    {
      match tokenEndpoint(client, RefreshTokenGrant(refreshToken))
      case Failure(e) => Failure(LoginResult("failed to exchange refresh token: " + e))
      case Success(response) =>
        Success((Authenticated(response.accessToken, response.refreshToken, Some(sessionState),
                               expires(response.expiresIn)),
                 sessionState))
    }

    /**
     * Where `logout` navigates, if anywhere: the end-session URL, with the
     * current location appended as `redirect_uri` when it can be read.
     */
    method Logout(currentHref: Option<string>) returns (navigation: Option<Url>)
      ensures navigation.Some? <==> endSessionUrl.Some?
      ensures navigation.Some? ==> navigation.value.base == endSessionUrl.value.base
      ensures navigation.Some? && currentHref.Some? ==>
        navigation.value.query == endSessionUrl.value.query + [("redirect_uri", currentHref.value)]
      ensures currentHref.None? ==> navigation == endSessionUrl
    {
      navigation := None;
      if endSessionUrl.Some? {
        var url := endSessionUrl.value;
        if currentHref.Some? {
          url := AppendPair(url, "redirect_uri", currentHref.value);
        }
        navigation := Some(url);
      }
    }
  }

  /**
   * The nonce bound into the authorization URL is the one the ID token is
   * verified against, and the verifier sent with the code is the partner of
   * the challenge in that URL: a successful exchange with the stored login
   * state implies a successful verification against the URL's nonce.
   */
  lemma ExchangeUsesBoundSecrets(engine: OpenIdClient, login: LoginContext, secrets: LoginSecrets, code: string,
                                 tokenEndpoint: (CoreClient, TokenRequest) -> Result<TokenResponse, string>,
                                 verify: (CoreClient, IdToken, string) -> Result<IdTokenClaims, string>,
                                 expires: Option<nat> -> Option<uint64>)
    requires login.state.nonce == login.url.nonce == secrets.nonce
    requires login.url.pkce == Some(PkceChallenge(secrets.pkceChallenge, "S256"))
    requires login.state.pkceVerifier == secrets.pkceVerifier
    requires engine.ExchangeCode(code, login.state, tokenEndpoint, verify, expires).Success?
    ensures var response := tokenEndpoint(engine.client, AuthorizationCodeGrant(code, secrets.pkceVerifier));
      && response.Success? && response.value.idToken.Some?
      && verify(engine.client, response.value.idToken.value, login.url.nonce).Success?
  {
  }

  /** What a successful code exchange shows through the accessors. */
  lemma ExchangeCodeAuthenticates(engine: OpenIdClient, code: string, state: OpenIdLoginState,
                                  tokenEndpoint: (CoreClient, TokenRequest) -> Result<TokenResponse, string>,
                                  verify: (CoreClient, IdToken, string) -> Result<IdTokenClaims, string>,
                                  expires: Option<nat> -> Option<uint64>)
    requires engine.ExchangeCode(code, state, tokenEndpoint, verify, expires).Success?
    ensures var (context, session) := engine.ExchangeCode(code, state, tokenEndpoint, verify, expires).value;
      var response := tokenEndpoint(engine.client, AuthorizationCodeGrant(code, state.pkceVerifier)).value;
      && context.AccessToken() == Some(response.accessToken)
      && context.Claims() == Some(session)
  {
  }

  /**
   * A refresh after a login keeps the verified claims of that login, and the
   * refresh token of the new context comes from the refresh response only.
   */
  lemma RefreshKeepsLoginClaims(engine: OpenIdClient, code: string, state: OpenIdLoginState, refreshToken: string,
                                tokenEndpoint: (CoreClient, TokenRequest) -> Result<TokenResponse, string>,
                                verify: (CoreClient, IdToken, string) -> Result<IdTokenClaims, string>,
                                expires: Option<nat> -> Option<uint64>)
    requires engine.ExchangeCode(code, state, tokenEndpoint, verify, expires).Success?
    requires tokenEndpoint(engine.client, RefreshTokenGrant(refreshToken)).Success?
    ensures var (login, session) := engine.ExchangeCode(code, state, tokenEndpoint, verify, expires).value;
      var refreshed := engine.ExchangeRefreshToken(refreshToken, session, tokenEndpoint, expires);
      && refreshed.Success?
      && refreshed.value.0.Claims() == login.Claims()
      && refreshed.value.0.refreshToken == tokenEndpoint(engine.client, RefreshTokenGrant(refreshToken)).value.refreshToken
  {
  }
}
