/**
 * The Keycloak token cache: an expiry predicate and a refresh that only calls the token
 * endpoint when the cached token is unset or expired, then records the new token, its
 * expiry and the session's `Authorization` header. The token endpoint is a function of the
 * grant type, and the clock is an integer argument in seconds.
 */
module Keycloak {
  import opened Wrappers
  import opened Json

  /**
   * `TokenRequestFailed`: the token endpoint raised. `BadExpiresIn`: the TypeError raised when
   * `expires_in` is missing or not a number. `NoAccessToken`: the KeyError raised when the
   * token has no `access_token`.
   */
  datatype KeycloakError = TokenRequestFailed | BadExpiresIn | NoAccessToken

  /** The cached state: the token dict, its expiry instant and the session headers. */
  datatype TokenState = TokenState(token: Option<Fields>, expiry: Option<real>, headers: Fields)

  /** `_is_token_expired`: expired when the token or its expiry is unset, or `now >= expiry`. */
  predicate IsTokenExpired(s: TokenState, now: int) {
    s.token.None? || s.expiry.None? || now as real >= s.expiry.value
  }

  /** `timedelta(seconds=token.get("expires_in"))`: the seconds, or `None` where Python raises a TypeError. */
  function ExpiresIn(t: Fields): Option<real> {
    match Get(t, "expires_in")
    case Some(JNum(n)) => Some(n)
    case Some(JBool(b)) => Some(if b then 1.0 else 0.0)
    case _ => None
  }

  /** The outcome of one `_refresh_token` call. */
  datatype Refresh = Refresh(state: TokenState, result: Result<Json, KeycloakError>, called: bool)

  /** `self.token["access_token"]` on a cached token. */
  function AccessToken(t: Fields): (r: Result<Json, KeycloakError>)
    ensures r.Ok? <==> Get(t, "access_token").Some?
    ensures r.Ok? ==> Get(t, "access_token") == Some(r.value)
    ensures r.Err? ==> r.error == NoAccessToken
  {
    match Get(t, "access_token")
    case Some(v) => Ok(v)
    case None => Err(NoAccessToken)
  }

  /** The session header a token with access token `v` installs. */
  function Bearer(v: Json): Json {
    JStr("Bearer " + PyStr(v))
  }

  /**
   * `_refresh_token`, as a function of the state before the call. The token endpoint is
   * called iff the cached token is expired. A successful refresh sets the token, then the
   * expiry `now + expires_in`, then the `Authorization` header; a failure at any step keeps
   * what was already assigned.
   */
  function RefreshToken(s: TokenState, now: int, issued: Result<Fields, KeycloakError>): (r: Refresh)
    ensures r.called <==> IsTokenExpired(s, now)
    ensures !IsTokenExpired(s, now) ==> r.state == s && r.result == AccessToken(s.token.value)
    ensures IsTokenExpired(s, now) && issued.Err? ==> r.state == s && r.result == Err(TokenRequestFailed)
    ensures IsTokenExpired(s, now) && issued.Ok? ==>
      && r.state.token == Some(issued.value)
      && (ExpiresIn(issued.value).None? ==> r.state.expiry == s.expiry && r.state.headers == s.headers && r.result == Err(BadExpiresIn))
      && (ExpiresIn(issued.value).Some? ==> r.state.expiry == Some(now as real + ExpiresIn(issued.value).value))
    ensures IsTokenExpired(s, now) && issued.Ok? && ExpiresIn(issued.value).Some? ==>
      match Get(issued.value, "access_token")
      case None => r.state.headers == s.headers && r.result == Err(NoAccessToken)
      case Some(v) =>
        && Get(r.state.headers, "Authorization") == Some(Bearer(v))
        && (forall k :: k != "Authorization" ==> Get(r.state.headers, k) == Get(s.headers, k))
        && r.result == Ok(v)
  {
    if !IsTokenExpired(s, now) then Refresh(s, AccessToken(s.token.value), false)
    else
      match issued
      case Err(_) => Refresh(s, Err(TokenRequestFailed), true)
      case Ok(t) =>
        match ExpiresIn(t)
        case None => Refresh(s.(token := Some(t)), Err(BadExpiresIn), true)
        case Some(n) =>
          var s1 := s.(token := Some(t), expiry := Some(now as real + n));
          match Get(t, "access_token")
          case None => Refresh(s1, Err(NoAccessToken), true)
          case Some(v) => Refresh(s1.(headers := Set(s.headers, "Authorization", Bearer(v))), Ok(v), true)
  }

  /**
   * A token refreshed with a positive lifetime is reused, without a call, by every refresh
   * before it expires, and the second call returns the same access token.
   */
  lemma TokenReused(s: TokenState, now: int, t: Fields, later: int, issued: Result<Fields, KeycloakError>)
    requires IsTokenExpired(s, now)
    requires ExpiresIn(t).Some? && Get(t, "access_token").Some?
    requires now <= later && (later as real) < now as real + ExpiresIn(t).value
    ensures var first := RefreshToken(s, now, Ok(t));
      var second := RefreshToken(first.state, later, issued);
      first.called && !second.called && second.state == first.state && second.result == first.result
  {
    var first := RefreshToken(s, now, Ok(t));
    assert first.state.token == Some(t);
    assert !IsTokenExpired(first.state, later);
  }

  /**
   * A token without `access_token` but with a lifetime is cached before the header update
   * raises, so until it expires every later refresh fails with `NoAccessToken` without calling
   * the endpoint again, and the session keeps its old `Authorization` header.
   */
  lemma MissingAccessTokenPinned(s: TokenState, now: int, t: Fields, later: int, issued: Result<Fields, KeycloakError>)
    requires IsTokenExpired(s, now)
    requires ExpiresIn(t).Some? && Get(t, "access_token").None?
    requires now <= later && (later as real) < now as real + ExpiresIn(t).value
    ensures var first := RefreshToken(s, now, Ok(t));
      var second := RefreshToken(first.state, later, issued);
      first.result == Err(NoAccessToken) && !second.called && second.result == Err(NoAccessToken)
      && second.state.headers == s.headers
  {
    var first := RefreshToken(s, now, Ok(t));
    assert first.state.token == Some(t);
    assert !IsTokenExpired(first.state, later);
  }

  /** The Keycloak-backed session; the client configuration beyond the grant type is not modelled. */
  class KeycloakService {
    const grantType: string
    var token: Option<Fields>
    var tokenExpiry: Option<real>
    var sessionHeaders: Fields

    function State(): TokenState
      reads this
    {
      TokenState(token, tokenExpiry, sessionHeaders)
    }

    /** No token yet; the session starts with the headers the HTTP library gives it. */
    constructor(grantType: string, sessionHeaders: Fields)
      ensures this.grantType == grantType && this.sessionHeaders == sessionHeaders
      ensures token.None? && tokenExpiry.None?
    {
      this.grantType := grantType;
      token := None;
      tokenExpiry := None;
      this.sessionHeaders := sessionHeaders;
    }

    /**
     * `_refresh_token`: the fields are updated step by step, and the token endpoint is
     * asked with this service's grant type only when the cached token is expired.
     */
    method Refresh(now: int, tokenEndpoint: string -> Result<Fields, KeycloakError>)
      returns (r: Result<Json, KeycloakError>, called: bool)
      modifies this
      ensures var spec := RefreshToken(old(State()), now, tokenEndpoint(grantType));
        State() == spec.state && r == spec.result && called == spec.called
    {
      if token.Some? && !IsTokenExpired(State(), now) {
        return AccessToken(token.value), false;
      }
      called := true;
      var issued := tokenEndpoint(grantType);
      if issued.Err? {
        return Err(TokenRequestFailed), called;
      }
      token := Some(issued.value);
      var seconds := ExpiresIn(issued.value);
      if seconds.None? {
        return Err(BadExpiresIn), called;
      }
      tokenExpiry := Some(now as real + seconds.value);
      var access := Get(issued.value, "access_token");
      if access.None? {
        return Err(NoAccessToken), called;
      }
      sessionHeaders := Set(sessionHeaders, "Authorization", Bearer(access.value));
      r := Ok(access.value);
    }

    /** `get_session`: refresh first, then hand out the session, here its headers. */
    method GetSession(now: int, tokenEndpoint: string -> Result<Fields, KeycloakError>)
      returns (r: Result<Fields, KeycloakError>, called: bool)
      modifies this
      ensures var spec := RefreshToken(old(State()), now, tokenEndpoint(grantType));
        && State() == spec.state && called == spec.called
        && r == (if spec.result.Ok? then Ok(spec.state.headers) else Err(spec.result.error))
    {
      var refreshed;
      refreshed, called := Refresh(now, tokenEndpoint);
      if refreshed.Err? {
        return Err(refreshed.error), called;
      }
      r := Ok(sessionHeaders);
    }
  }
}
