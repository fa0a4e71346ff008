/** `MobileGoogleOauthService`: Google login for the mobile app. A Google
    profile is accepted only when its `email_verified` flag is truthy; the
    OpenID subject `sub` becomes the account's provider id. */
module MobileGoogle {
  import opened Wrappers
  import opened Errors
  import opened Tokens
  import opened Accounts
  import opened Urls
  import opened OauthClient
  import opened OauthLogin

  datatype TokenBody = TokenBody(accessToken: string)

  /** The fields of Google's userinfo document the service reads;
      `email_verified` may be absent. */
  datatype ProfileBody = ProfileBody(sub: string, email: string, name: string, emailVerified: Option<bool>)

  datatype Api = Api(token: string -> Response<TokenBody>, profile: string -> Response<ProfileBody>)

  const Scope := "email%20profile"

  /** `!email_verified` is false: the flag is present and true. */
  predicate EmailVerified(b: ProfileBody) {
    b.emailVerified == Some(true)
  }

  function GetAccessToken(cfg: ProviderConfig, api: Api, code: string): (r: Result<string, Error>)
    ensures var resp := api.token(TokenUrl(cfg.Mobile(), code));
            && (r.Ok? <==> resp.ok)
            && (r.Ok? ==> r.value == resp.body.accessToken)
            && (r.Err? ==> r.error == UnauthorizedError("Invalid code"))
  {
    var resp := api.token(TokenUrl(cfg.Mobile(), code));
    if !resp.ok then Err(UnauthorizedError("Invalid code"))
    else Ok(resp.body.accessToken)
  }

  function GetProfile(cfg: ProviderConfig, api: Api, accessToken: string): (r: Result<Profile, Error>)
    ensures var resp := api.profile(ProfileUrl(cfg.Mobile(), accessToken));
            && (!resp.ok ==> r == Err(UnauthorizedError("Invalid access token")))
            && (resp.ok && !EmailVerified(resp.body) ==> r == Err(UnauthorizedError("Invalid email")))
            && (r.Ok? <==> resp.ok && EmailVerified(resp.body))
            && (r.Ok? ==> r.value.id == resp.body.sub && r.value.email == resp.body.email
                          && r.value.nickname == resp.body.name)
  {
    var resp := api.profile(ProfileUrl(cfg.Mobile(), accessToken));
    if !resp.ok then Err(UnauthorizedError("Invalid access token"))
    else if !EmailVerified(resp.body) then Err(UnauthorizedError("Invalid email"))
    else Ok(Profile(resp.body.sub, resp.body.email, resp.body.name))
  }

  function Login(s: Store, ts: TokenService, cfg: ProviderConfig, api: Api,
                 fault: Option<Error>, code: string, uuid: string, role: Role)
    : (r: Result<(Store, TokenPair), Error>)
    requires uuid !in s.users
    ensures var a := GetAccessToken(cfg, api, code);
            && (a.Err? ==> r == Err(UnauthorizedError("Invalid code")))
            && (a.Ok? ==> LoginAnswers(s, ts, fault, GOOGLE, GetProfile(cfg, api, a.value), uuid, r))
    ensures fault.Some? && !fault.value.IsNotFound() ==> r.Err?
  {
    var oauthAccess :- GetAccessToken(cfg, api, code);
    var profile :- GetProfile(cfg, api, oauthAccess);
    SignIn(s, ts, fault, GOOGLE, profile, uuid, role)
  }

  /** Login with tokens the app already holds. The ID token is received and
      never looked at. */
  function LoginWithAccess(s: Store, ts: TokenService, cfg: ProviderConfig, api: Api,
                           fault: Option<Error>, accessToken: string, idToken: string,
                           uuid: string, role: Role)
    : (r: Result<(Store, TokenPair), Error>)
    requires uuid !in s.users
    ensures LoginAnswers(s, ts, fault, GOOGLE, GetProfile(cfg, api, accessToken), uuid, r)
    ensures fault.Some? && !fault.value.IsNotFound() ==> r.Err?
  {
    var profile :- GetProfile(cfg, api, accessToken);
    SignIn(s, ts, fault, GOOGLE, profile, uuid, role)
  }

  /** Any ID token, forged or absent, gives the same outcome. */
  lemma IdTokenIsIgnored(s: Store, ts: TokenService, cfg: ProviderConfig, api: Api,
                         fault: Option<Error>, accessToken: string, idToken: string, other: string,
                         uuid: string, role: Role)
    requires uuid !in s.users
    ensures LoginWithAccess(s, ts, cfg, api, fault, accessToken, idToken, uuid, role)
            == LoginWithAccess(s, ts, cfg, api, fault, accessToken, other, uuid, role)
  {
  }

  lemma LoginIsExchangeThenLoginWithAccess(s: Store, ts: TokenService, cfg: ProviderConfig, api: Api,
                                           fault: Option<Error>, code: string, idToken: string,
                                           uuid: string, role: Role)
    requires uuid !in s.users
    ensures var a := GetAccessToken(cfg, api, code);
            a.Ok? ==> Login(s, ts, cfg, api, fault, code, uuid, role)
                      == LoginWithAccess(s, ts, cfg, api, fault, a.value, idToken, uuid, role)
  {
  }

  function LoginUrl(cfg: ProviderConfig): (url: string)
    ensures Readable(cfg.Mobile()) ==>
              ParseUrl(url) == (cfg.endpoints.auth,
                                [("client_id", cfg.clientId), ("redirect_uri", cfg.redirectUris.mobile),
                                 ("response_type", "code"), ("scope", Scope)])
  {
    assert NoAmp(Scope);
    ScopedLoginUrl(cfg.Mobile(), Scope)
  }
}
