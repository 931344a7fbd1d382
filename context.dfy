/**
 * The authentication state that the rest of the application observes
 * (`OAuth2Context` and `Reason` in src/context.rs), its two read-only
 * accessors, and the both-or-neither shape of `unzipped_with`.
 */
module Context {
  import opened Wrappers

  /** The verified ID-token payload; this core never looks inside it. */
  type IdTokenClaims(==)

  /** Rust's `u64`, the type of the absolute expiry instant. */
  type uint64 = x: int | 0 <= x < 0x1_0000_0000_0000_0000

  /** Why a session is not authenticated. */
  datatype Reason = NewSession | Expired | Logout

  datatype OAuth2Context =
    | NotInitialized
    | NotAuthenticated(reason: Reason)
    | Authenticated(accessToken: string, refreshToken: Option<string>,
                    claims: Option<IdTokenClaims>, expires: Option<uint64>)
    | Failed(message: string)
  {
    /** The access token, present exactly in the authenticated state. */
    function AccessToken(): (r: Option<string>)
      ensures r.Some? <==> Authenticated?
      ensures Authenticated? ==> r == Some(accessToken)
    {
      match this
      case Authenticated(token, _, _, _) => Some(token)
      case _ => None
    }

    /** The claims, present exactly when authenticated with claims attached. */
    function Claims(): (r: Option<IdTokenClaims>)
      ensures r.Some? <==> Authenticated? && claims.Some?
      ensures r.Some? ==> r == claims
    {
      match this
      case Authenticated(_, _, Some(c), _) => Some(c)
      case _ => None
    }
  }

  /** Claims are never visible outside an authenticated state. */
  lemma ClaimsImplyAccessToken(context: OAuth2Context)
    ensures context.Claims().Some? ==> context.AccessToken().Some?
  {
  }

  /** An authenticated context without claims answers `None` for claims but still has its token. */
  lemma AuthenticatedWithoutClaims(token: string, refresh: Option<string>, expires: Option<uint64>)
    ensures Authenticated(token, refresh, None, expires).Claims() == None
    ensures Authenticated(token, refresh, None, expires).AccessToken() == Some(token)
  {
  }

  /** Every state other than `Authenticated` yields neither a token nor claims. */
  lemma UnauthenticatedStatesAreEmpty(context: OAuth2Context)
    requires !context.Authenticated?
    ensures context.AccessToken() == None && context.Claims() == None
  {
  }

  /**
   * `Reason` has exactly three values, and it is invisible to both accessors:
   * any two `NotAuthenticated` contexts give the same answers.
   */
  lemma ReasonIsInvisible(a: Reason, b: Reason)
    ensures a in {NewSession, Expired, Logout}
    ensures NotAuthenticated(a).AccessToken() == NotAuthenticated(b).AccessToken()
    ensures NotAuthenticated(a).Claims() == NotAuthenticated(b).Claims()
  {
  }

  /**
   * `unzipped_with` on a component scope: the context lookup yields the value
   * and its subscription handle together or not at all, and the pair is split
   * into two options that are therefore both `Some` or both `None`.
   */
  function Unzipped<A, H>(found: Option<(A, H)>): (r: (Option<A>, Option<H>))
    ensures r.0.Some? <==> r.1.Some?
    ensures r.0.Some? <==> found.Some?
    ensures found.Some? ==> r.0.value == found.value.0 && r.1.value == found.value.1
  {
    match found
    case Some((context, handle)) => (Some(context), Some(handle))
    case None => (None, None)
  }

  /** Pairs two options back up; the inverse of `Unzipped`. */
  function Zipped<A, H>(pair: (Option<A>, Option<H>)): Option<(A, H)> {
    match pair
    case (Some(context), Some(handle)) => Some((context, handle))
    case _ => None
  }

  /** Splitting loses nothing: zipping the halves gives back the lookup result. */
  lemma UnzippedRoundTrip<A, H>(found: Option<(A, H)>)
    ensures Zipped(Unzipped(found)) == found
  {
  }
}
