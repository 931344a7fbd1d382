# yew-oauth2: authentication state and OpenID Connect engine, in Dafny

This project models two pieces of the yew-oauth2 client library.

- **The authentication state** (`Context`, `context.dfy`). An application observes
  one `OAuth2Context` value. It is one of four variants: `NotInitialized`,
  `NotAuthenticated(reason)`, `Authenticated(accessToken, refreshToken?, claims?, expires?)`
  or `Failed(message)`. `Reason` is `NewSession`, `Expired` or `Logout`.
  The two read-only accessors `AccessToken()` and `Claims()` are modelled here.
  So is the both-or-neither split that `unzipped_with` performs on a context lookup.
- **The OpenID Connect protocol engine** (`OpenId`, `openid.dfy`). `OpenIdClient` is a
  class. Its fields are the library client and the effective end-session URL.
  The engine builds itself from configuration (`Configure`, `FromConfig`).
  It rebinds its redirect URI (`SetRedirectUri`). It builds the authorization URL of
  one login attempt (`MakeLoginContext`). It turns token-endpoint answers into an
  `Authenticated` context (`ExchangeCode`, `ExchangeRefreshToken`). It decides where
  `Logout` navigates.

The network, ID-token verification, randomness, the clock and the browser are
parameters of the operations that use them:

- `parse`: URL parsing. Both `IssuerUrl::new` and `Url::parse` use it.
- `discover`: OpenID provider discovery.
- `tokenEndpoint`: the HTTP request to the token endpoint. It receives the client
  and a `TokenRequest`: a code with its PKCE verifier, or a refresh token.
- `verify`: ID-token verification. It receives the client, the ID token and the
  expected nonce.
- `expires`: the wall-clock helper that turns the declared lifetime into an
  absolute instant.
- `LoginSecrets`: the PKCE challenge/verifier pair, the CSRF token and the nonce
  drawn from the random source.
- `currentHref`: the browser's current location, `None` when it cannot be read.

The openidconnect builder calls the engine makes are not parameters. They are
small Dafny functions that follow the library's documented behaviour; the list is
under "## Left out". A URL is modelled as a base, which stands for everything
except the query, and an ordered list of query pairs, so that `append_pair` is a
plain append. The authorization URL is modelled as the
structured request that the library encodes (`AuthorizationUrl`). The claims, the
ID token and the standard discovery data are abstract types, because the engine
never looks inside them.

The model is the build with the `openid` feature enabled. Only that build has
the `claims` field of `Authenticated` and the `claims()` accessor
(`src/context.rs:25` and `src/context.rs:43`).

Where the sources disagree: `src/context.rs` declares `Authenticated` with four
named fields. `src/agent/client/openid.rs` builds it as
`Authenticated(Authentication { .. })`, from a struct that is not part of this model.
Both carry the same four fields, and the model uses the shape declared in
`src/context.rs`.

`Logout` only adds `redirect_uri` when the current location can be read. It
appends that pair to whatever query the end-session URL already has; it does not
replace an existing `redirect_uri`. This follows the code
(`src/agent/client/openid.rs:210-212`).

## Model

| member | source | states |
|---|---|---|
| `Context.OAuth2Context.AccessToken` | src/context.rs:34-40 | The result is `Some` exactly when the context is `Authenticated`, and then it is that context's access token. |
| `Context.OAuth2Context.Claims` | src/context.rs:42-52 | The result is `Some` exactly when the context is `Authenticated` with claims attached, and then it is those claims. |
| `Context.ClaimsImplyAccessToken` | src/context.rs:35-52 | Claims are never visible unless an access token is visible too. |
| `Context.AuthenticatedWithoutClaims` | src/context.rs:44-52 | An `Authenticated` context without claims answers `None` for claims and still gives its token. |
| `Context.UnauthenticatedStatesAreEmpty` | src/context.rs:36-39 | `NotInitialized`, every `NotAuthenticated` and every `Failed` context give `None` from both accessors. |
| `Context.ReasonIsInvisible` | src/context.rs:55-61 | `Reason` has exactly three values, and two `NotAuthenticated` contexts with any reasons give equal answers from both accessors. |
| `Context.Unzipped` | src/context.rs:96-104 | Both halves are `Some` or both are `None`; they are `Some` exactly when the lookup found a value and a handle, and then they hold those two. |
| `Context.UnzippedRoundTrip` | src/context.rs:100-103 | Pairing the two halves back up gives exactly the lookup result: the split loses nothing. |
| `OpenId.ResolveEndSessionUrl` | src/agent/client/openid.rs:84-91 | A configured URL that parses is the result, whatever was discovered. A configured URL that does not parse gives its parse error. With nothing configured, the result is the discovered endpoint, absent or not. |
| `OpenId.ConfiguredEndSessionWins` | src/agent/client/openid.rs:84-91 | When the configured end-session URL parses, the discovered endpoint has no influence on the outcome. |
| `OpenId.Configure` | src/agent/client/openid.rs:74-100 | Every failure is a `Configuration` error. A bad issuer gives "invalid issuer URL: " and the parse error. A failed discovery gives "Failed to discover client: " and its error. A bad configured end-session URL gives "Unable to parse end_session_url: " and its error. Otherwise the result is the client built from the discovered metadata and the client id, with the resolved end-session URL. |
| `OpenId.BadIssuerSkipsDiscovery` | src/agent/client/openid.rs:75-76 | When the issuer does not parse, the outcome is the same whatever discovery would have answered: discovery is never attempted. |
| `OpenId.BadEndSessionUrlIsFatal` | src/agent/client/openid.rs:84-90 | A configured end-session URL that does not parse makes construction fail, even when discovery offers an endpoint. |
| `OpenId.ConfigureWithoutEndSessionUrl` | src/agent/client/openid.rs:84-91 | With no end-session URL configured, a successful discovery always yields a client, and its end-session URL is the discovered one, possibly absent. |
| `OpenId.ConfiguredClientRequestsOpenId` | src/agent/client/openid.rs:93-94 | A client built from configuration starts every authorization request with the single scope `openid`. |
| `OpenId.OpenIdClient.constructor` | src/agent/client/openid.rs:96-99 | The new engine holds exactly the given client and end-session URL. |
| `OpenId.OpenIdClient.FromConfig` | src/agent/client/openid.rs:74-100 | Returns the error of `Configure` unchanged, or a freshly allocated engine whose fields are the client and end-session URL that `Configure` computed. |
| `OpenId.OpenIdClient.SetRedirectUri` | src/agent/client/openid.rs:102-105 | The client's redirect URI becomes the given URL. The rest of the client and the end-session URL are unchanged. |
| `OpenId.OpenIdClient.MakeLoginContext` | src/agent/client/openid.rs:107-139 | Never fails and does not change the engine. The URL is built on a copy of the client bound to the new redirect URI, with the Authorization Code flow that the engine passes to `authorize_url` (encoded as response type `code`). Its scopes are the client's initial scopes followed by the configured scopes, one per entry, in order. Its PKCE challenge is the generated one with method `S256`. The returned CSRF token and nonce are the ones bound into the URL. The returned verifier is the partner of the URL's challenge. |
| `OpenId.OpenIdClient.ExchangeCode` | src/agent/client/openid.rs:141-180 | The code is sent with the stored PKCE verifier. A failed exchange, a missing ID token and a verification failure against the stored nonce each give their `LoginResult` error, in that order. Otherwise the result is `Authenticated` with the response's access and refresh tokens, `expires` of the declared lifetime, and the verified claims, which are also the returned session state. |
| `OpenId.OpenIdClient.ExchangeRefreshToken` | src/agent/client/openid.rs:182-205 | Succeeds exactly when the refresh request succeeds; its failure gives "failed to exchange refresh token: " and the error as a `LoginResult`. On success the session state is the one passed in, the claims are that state, the tokens come from the response only, and `expires` is computed from the declared lifetime. |
| `OpenId.OpenIdClient.Logout` | src/agent/client/openid.rs:207-215 | Navigates exactly when an end-session URL exists. The target is that URL with `("redirect_uri", current)` appended to its query when the current location is readable, and the URL unchanged otherwise. |
| `OpenId.ExchangeUsesBoundSecrets` | src/agent/client/openid.rs:117-169 | With the login state returned next to an authorization URL, a successful exchange sent the verifier paired with that URL's challenge and verified the ID token against that URL's nonce. |
| `OpenId.ExchangeCodeAuthenticates` | src/agent/client/openid.rs:171-179 | After a successful code exchange, the context's accessors give the response's access token and the returned session claims. |
| `OpenId.RefreshKeepsLoginClaims` | src/agent/client/openid.rs:196-204 | A refresh with the session state of a login keeps that login's claims, and its refresh token is the refresh response's, so it is absent when the response omits it. |

## Left out

- Network I/O (`discover_async`, `request_async` with `async_http_client`) is not modelled. Its outcomes are the `discover` and `tokenEndpoint` parameters, and the asynchrony is not modelled.
- PKCE generation, CSRF and nonce generation, and ID-token checks (signature, issuer, audience, expiry) are not modelled. They come from the openidconnect library and appear only as the `LoginSecrets` input and the `verify` parameter. No property of SHA-256 or of the PKCE transform (RFC 7636) is claimed.
- URL parsing and percent-encoding are left out. `Url::parse` and `IssuerUrl::new` are the one `parse` parameter. The query-string serialisation of the authorization URL is also left out: the model keeps the structured request.
- `OpenId.OpenIdClient.MakeLoginContext`: the initial scope list comes from the openidconnect library, which is not part of this model. The model follows that library's documented behaviour: a client enables the `openid` scope by default, and `authorize_url` then puts it before the caller's scopes. `disable_openid_scope` is not called here, so `useOpenIdScope` is always true for a configured client.
- The library calls are modelled by small functions, not parameters. Each one follows the documented behaviour of openidconnect or `url`. The contracts of `OpenId.OpenIdClient.MakeLoginContext` and `OpenId.OpenIdClient.Logout` depend on that behaviour:
  - `FromProviderMetadata` (`CoreClient::from_provider_metadata`) keeps the standard metadata and the client id, with no client secret, no redirect URI and the `openid` scope enabled.
  - `CoreClient.WithRedirectUri` (`set_redirect_uri`) replaces only the redirect URI.
  - `AuthorizeUrl` (`authorize_url`) starts a request with the given flow, the generated CSRF token and nonce, and the initial scopes.
  - `AuthorizationRequest.AddScope` (`add_scope`) appends one scope at the end.
  - `AuthorizationRequest.SetPkceChallenge` (`set_pkce_challenge`) attaches the challenge.
  - `AuthorizationRequest.BuildUrl` (`url`) encodes the request and returns exactly the CSRF token and nonce it embedded.
  - `AppendPair` (`append_pair`) appends one query pair at the end and leaves the rest of the URL alone.
- The `expires` helper depends on the wall clock. It is the `expires` parameter, a function of the declared lifetime.
- Browser effects are left out. Reading `window().location().href()` is the `currentHref` input, and `set_href` is the returned navigation target. A failed navigation is ignored in the code (`.ok()`), and the model does not represent it.
- `OpenId.OpenIdClient.SetRedirectUri`: the code takes the engine by value and returns it (`mut self`). The model updates a shared object in place, so a caller holding another reference to the same engine would see the change.
- Claims are shared through `Rc` in the code. The model holds them as plain values, so shared identity is value equality.
- `OAuth2Error` may have variants beyond `Configuration` and `LoginResult`. Its declaration is not part of this model, and only those two are produced here.
- The rest of the configuration (`openid::Config`, `InnerConfig`) is not modelled; only the fields this code reads are.
- The yew subscription machinery (`Context`, `Scope`, `Callback`, `ContextHandle`, the `Unzipped` helpers that only forward) is left out, beyond the both-or-neither split of `unzipped_with`. So are serde derives, `log::debug!` and `async_trait`.
