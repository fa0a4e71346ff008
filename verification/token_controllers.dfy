/** The web `TokenController` (and the older one at the root of the
    controllers, whose refresh is the same code): checking an access token
    and rotating the refresh token kept in the session. */
module TokenController {
  import opened Wrappers
  import opened Errors
  import opened Tokens
  import Bearer

  const RefreshMissing := NotFoundError("refresh token not found")

  /** JavaScript truthiness of an optional string. */
  predicate Present(v: Option<string>) {
    v.Some? && v.value != ""
  }

  /** The claims of the bearer token in the `Authorization` header. */
  function Verify(ts: TokenService, authorization: Option<string>): (r: Result<Claims, Error>)
    ensures var b := Bearer.AccessToken(authorization);
            && (b.Err? ==> r == Err(Bearer.Missing))
            && (b.Ok? ==> r == ts.verifyAccessToken(b.value))
  {
    var token :- Bearer.AccessToken(authorization);
    ts.verifyAccessToken(token)
  }

  /** A new pair for the verified claims of a refresh token. */
  function Rotate(ts: TokenService, refreshToken: Option<string>): (r: Result<TokenPair, Error>)
    ensures !Present(refreshToken) ==> r == Err(RefreshMissing)
    ensures Present(refreshToken) ==>
              var v := ts.verifyRefreshToken(refreshToken.value);
              && (v.Err? ==> r == Err(v.error))
              && (v.Ok? ==> r == Ok(IssuePair(ts, v.value)))
  {
    if !Present(refreshToken) then Err(RefreshMissing)
    else
      var payload :- ts.verifyRefreshToken(refreshToken.value);
      Ok(TokenPair(ts.accessToken(Claims(payload.uuid, payload.role)),
                   ts.refreshToken(Claims(payload.uuid, payload.role))))
  }

  /** The session's refresh token is replaced by the new one and only the
      access token is answered; a failure leaves the session alone. */
  function Refresh(ts: TokenService, session: Session): (r: (Session, Result<string, Error>))
    ensures var p := Rotate(ts, session.refresh);
            && (p.Err? ==> r == (session, Err(p.error)))
            && (p.Ok? ==> r == (Session(Some(p.value.refresh)), Ok(p.value.access)))
  {
    match Rotate(ts, session.refresh)
    case Err(e) => (session, Err(e))
    case Ok(pair) => (Session(Some(pair.refresh)), Ok(pair.access))
  }

  /** The signer accepts the refresh tokens it issues for these claims. */
  predicate RefreshRoundTrips(ts: TokenService, c: Claims) {
    ts.refreshToken(c) != "" && ts.verifyRefreshToken(ts.refreshToken(c)) == Ok(c)
  }

  /** Rotation can go on for ever: once a session holds a refresh token for
      some claims, after any number of refreshes it still holds one for the
      same claims, and the next refresh answers an access token for them.
      Signing here is a function of the claims alone, so "a token for the
      claims" is one token; the issue time that makes each JWT new is not
      modelled. */
  lemma {:induction false} RotationKeepsClaims(ts: TokenService, session: Session, c: Claims, n: nat)
    requires RefreshRoundTrips(ts, c)
    requires session.refresh == Some(ts.refreshToken(c))
    ensures var s := RefreshedTimes(ts, session, n);
            && s.refresh == Some(ts.refreshToken(c))
            && Refresh(ts, s).1 == Ok(ts.accessToken(c))
  {
    if n > 0 {
      RotationKeepsClaims(ts, session, c, n - 1);
    }
  }

  /** The session after `n` refreshes in a row. */
  function RefreshedTimes(ts: TokenService, session: Session, n: nat): Session {
    if n == 0 then session else Refresh(ts, RefreshedTimes(ts, session, n - 1)).0
  }
}

/** The mobile `MobileTokenController`: the same verification, but the app
    sends its refresh token in the body and receives both new tokens. */
module MobileTokenController {
  import opened Wrappers
  import opened Errors
  import opened Tokens
  import TokenController

  function Refresh(ts: TokenService, refreshToken: Option<string>): (r: Result<TokenPair, Error>)
    ensures !TokenController.Present(refreshToken) ==> r == Err(TokenController.RefreshMissing)
    ensures r.Ok? ==> && refreshToken.Some?
                      && ts.verifyRefreshToken(refreshToken.value).Ok?
                      && r.value == IssuePair(ts, ts.verifyRefreshToken(refreshToken.value).value)
    ensures TokenController.Present(refreshToken) && ts.verifyRefreshToken(refreshToken.value).Err? ==>
              r == Err(ts.verifyRefreshToken(refreshToken.value).error)
    ensures TokenController.Present(refreshToken) && ts.verifyRefreshToken(refreshToken.value).Ok? ==>
              r == Ok(IssuePair(ts, ts.verifyRefreshToken(refreshToken.value).value))
  {
    TokenController.Rotate(ts, refreshToken)
  }

  /** The web session ends up holding the refresh token the app receives. */
  lemma WebKeepsWhatMobileReturns(ts: TokenService, session: Session)
    ensures var m := Refresh(ts, session.refresh);
            var (t, reply) := TokenController.Refresh(ts, session);
            && (m.Ok? <==> reply.Ok?)
            && (m.Ok? ==> t.refresh == Some(m.value.refresh) && reply.value == m.value.access)
  {
  }
}

/** `UserController.deleteUser`: deletes the account of the bearer of a
    valid access token. */
module UserController {
  import opened Wrappers
  import opened Errors
  import opened Tokens
  import opened Accounts
  import Bearer
  import Users

  function DeleteUser(s: Store, ts: TokenService, authorization: Option<string>, fault: Option<Error>)
    : (r: Result<(Store, string), Error>)
    ensures Bearer.AccessToken(authorization).Err? ==> r == Err(Bearer.Missing)
    ensures Bearer.AccessToken(authorization).Ok? ==>
              var v := ts.verifyAccessToken(Bearer.AccessToken(authorization).value);
              && (v.Err? ==> r == Err(v.error))
              && (v.Ok? ==> var d := Users.DeleteUser(s, v.value.uuid, fault);
                            && (r.Ok? <==> d.Ok?)
                            && (r.Err? ==> r.error == d.error)
                            && (r.Ok? ==> r.value == (d.value.0, "success")))
    ensures r.Ok? ==> && var claims := ts.verifyAccessToken(Bearer.AccessToken(authorization).value).value;
                      && claims.uuid in s.users
                      && r.value.0.users.Keys == s.users.Keys - {claims.uuid}
  {
    var token :- Bearer.AccessToken(authorization);
    var claims :- ts.verifyAccessToken(token);
    var (t, _) :- Users.DeleteUser(s, claims.uuid, fault);
    Ok((t, "success"))
  }

  /** Whatever scheme word a header names, the token after it deletes its
      owner's account; a header with no token deletes nothing. */
  lemma DeletesTheBearer(s: Store, ts: TokenService, scheme: string, token: string, c: Claims)
    requires ' ' !in scheme && ' ' !in token && token != ""
    requires ts.verifyAccessToken(token) == Ok(c) && c.uuid in s.users
    ensures var r := DeleteUser(s, ts, Some(scheme + " " + token), None);
            && r.Ok? && c.uuid !in r.value.0.users
    ensures DeleteUser(s, ts, Some(scheme), None) == Err(Bearer.Missing)
  {
    Bearer.TokenAfterAnyScheme(scheme, token, "");
    assert scheme + " " + token + "" == scheme + " " + token;
    Bearer.NoTokenCases(scheme, "");
  }
}
