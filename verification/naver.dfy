/** The Naver response handling that the mobile, web and legacy Naver
    services share word for word; they differ only in which redirect URI
    they send. */
module NaverApi {
  import opened Wrappers
  import opened Errors
  import opened Tokens
  import opened Accounts
  import opened OauthClient
  import opened OauthLogin

  /** Naver's token answer; either token may be missing. */
  datatype TokenBody = TokenBody(accessToken: Option<string>, refreshToken: Option<string>)

  datatype ProfileFields = ProfileFields(id: string, nickname: string, email: string)

  /** Naver's profile answer: a result code and the profile itself. */
  datatype ProfileBody = ProfileBody(resultcode: string, response: ProfileFields)

  datatype Api = Api(token: string -> Response<TokenBody>, profile: string -> Response<ProfileBody>)

  /** JavaScript truthiness of an optional string: present and non-empty. */
  predicate Truthy(v: Option<string>) {
    v.Some? && v.value != ""
  }

  /** The code exchange; answers (access token, refresh token). */
  function GetAccessToken(c: Client, api: Api, code: string): (r: Result<(string, string), Error>)
    ensures var resp := api.token(TokenUrl(c, code));
            && (r.Ok? <==> resp.ok && Truthy(resp.body.accessToken) && Truthy(resp.body.refreshToken))
            && (r.Ok? ==> r.value == (resp.body.accessToken.value, resp.body.refreshToken.value))
            && (r.Err? ==> r.error == UnauthorizedError("Invalid code"))
  {
    var resp := api.token(TokenUrl(c, code));
    if !resp.ok then Err(UnauthorizedError("Invalid code"))
    else if !Truthy(resp.body.accessToken) || !Truthy(resp.body.refreshToken) then
      Err(UnauthorizedError("Invalid code"))
    else Ok((resp.body.accessToken.value, resp.body.refreshToken.value))
  }

  /** A transport failure is a plain `Error`, not an HTTP exception; a
      result code other than "00" is Unauthorized. */
  function GetProfile(c: Client, api: Api, accessToken: string): (r: Result<Profile, Error>)
    ensures var resp := api.profile(ProfileUrl(c, accessToken));
            && (!resp.ok ==> r == Err(PlainError("Invalid access token")))
            && (resp.ok && resp.body.resultcode != "00" ==> r == Err(UnauthorizedError("Invalid access token")))
            && (r.Ok? <==> resp.ok && resp.body.resultcode == "00")
            && (r.Ok? ==> r.value == Profile(resp.body.response.id, resp.body.response.email,
                                             resp.body.response.nickname))
  {
    var resp := api.profile(ProfileUrl(c, accessToken));
    if !resp.ok then Err(PlainError("Invalid access token"))
    else if resp.body.resultcode != "00" then Err(UnauthorizedError("Invalid access token"))
    else
      var f := resp.body.response;
      Ok(Profile(f.id, f.email, f.nickname))
  }

  /** Profile, then find-or-create under NAVER, then the token pair. */
  function LoginWithAccess(s: Store, ts: TokenService, c: Client, api: Api, fault: Option<Error>,
                           accessToken: string, uuid: string, role: Role)
    : (r: Result<(Store, TokenPair), Error>)
    requires uuid !in s.users
    ensures LoginAnswers(s, ts, fault, NAVER, GetProfile(c, api, accessToken), uuid, r)
    ensures fault.Some? && !fault.value.IsNotFound() ==> r.Err?
  {
    var profile :- GetProfile(c, api, accessToken);
    SignIn(s, ts, fault, NAVER, profile, uuid, role)
  }

  /** Exchange, profile, find-or-create under NAVER, token pair. */
  function Login(s: Store, ts: TokenService, c: Client, api: Api, fault: Option<Error>,
                 code: string, uuid: string, role: Role)
    : (r: Result<(Store, TokenPair), Error>)
    requires uuid !in s.users
    ensures var a := GetAccessToken(c, api, code);
            && (a.Err? ==> r == Err(UnauthorizedError("Invalid code")))
            && (a.Ok? ==> LoginAnswers(s, ts, fault, NAVER, GetProfile(c, api, a.value.0), uuid, r))
    ensures fault.Some? && !fault.value.IsNotFound() ==> r.Err?
  {
    var (access, _) :- GetAccessToken(c, api, code);
    var profile :- GetProfile(c, api, access);
    SignIn(s, ts, fault, NAVER, profile, uuid, role)
  }

  /** Logging in with a code is logging in with the access token it is
      exchanged for; the refresh token Naver returns is dropped. */
  lemma LoginIsExchangeThenLoginWithAccess(s: Store, ts: TokenService, c: Client, api: Api,
                                           fault: Option<Error>, code: string, uuid: string, role: Role)
    requires uuid !in s.users
    ensures var a := GetAccessToken(c, api, code);
            a.Ok? ==> Login(s, ts, c, api, fault, code, uuid, role)
                      == LoginWithAccess(s, ts, c, api, fault, a.value.0, uuid, role)
  {
  }
}

/** `MobileNaverOauthService`: Naver login for the mobile app, using the
    mobile redirect URI; `login` delegates to `loginWithAccess`. */
module MobileNaver {
  import opened Wrappers
  import opened Errors
  import opened Tokens
  import opened Accounts
  import opened Urls
  import opened OauthClient
  import opened OauthLogin
  import NaverApi

  function LoginWithAccess(s: Store, ts: TokenService, cfg: ProviderConfig, api: NaverApi.Api,
                           fault: Option<Error>, accessToken: string, uuid: string, role: Role)
    : (r: Result<(Store, TokenPair), Error>)
    requires uuid !in s.users
    ensures LoginAnswers(s, ts, fault, NAVER, NaverApi.GetProfile(cfg.Mobile(), api, accessToken), uuid, r)
    ensures fault.Some? && !fault.value.IsNotFound() ==> r.Err?
  {
    NaverApi.LoginWithAccess(s, ts, cfg.Mobile(), api, fault, accessToken, uuid, role)
  }

  function Login(s: Store, ts: TokenService, cfg: ProviderConfig, api: NaverApi.Api,
                 fault: Option<Error>, code: string, uuid: string, role: Role)
    : (r: Result<(Store, TokenPair), Error>)
    requires uuid !in s.users
    ensures var a := NaverApi.GetAccessToken(cfg.Mobile(), api, code);
            && (a.Err? ==> r == Err(UnauthorizedError("Invalid code")))
            && (a.Ok? ==> r == LoginWithAccess(s, ts, cfg, api, fault, a.value.0, uuid, role))
            && (a.Ok? ==> LoginAnswers(s, ts, fault, NAVER, NaverApi.GetProfile(cfg.Mobile(), api, a.value.0),
                                       uuid, r))
    ensures fault.Some? && !fault.value.IsNotFound() ==> r.Err?
  {
    var (access, _) :- NaverApi.GetAccessToken(cfg.Mobile(), api, code);
    LoginWithAccess(s, ts, cfg, api, fault, access, uuid, role)
  }

  /** client_id, response_type=code, the mobile redirect URI; no scope. */
  function LoginUrl(cfg: ProviderConfig): (url: string)
    ensures Readable(cfg.Mobile()) ==>
              ParseUrl(url) == (cfg.endpoints.auth,
                                [("client_id", cfg.clientId), ("response_type", "code"),
                                 ("redirect_uri", cfg.redirectUris.mobile)])
  {
    NaverLoginUrl(cfg.Mobile())
  }
}

/** `WebNaverOauthService`: Naver login for the web front end, using the web
    redirect URI. */
module WebNaver {
  import opened Wrappers
  import opened Errors
  import opened Tokens
  import opened Accounts
  import opened Urls
  import opened OauthClient
  import opened OauthLogin
  import NaverApi
  import MobileNaver

  function Login(s: Store, ts: TokenService, cfg: ProviderConfig, api: NaverApi.Api,
                 fault: Option<Error>, code: string, uuid: string, role: Role)
    : (r: Result<(Store, TokenPair), Error>)
    requires uuid !in s.users
    ensures var a := NaverApi.GetAccessToken(cfg.Web(), api, code);
            && (a.Err? ==> r == Err(UnauthorizedError("Invalid code")))
            && (a.Ok? ==> LoginAnswers(s, ts, fault, NAVER, NaverApi.GetProfile(cfg.Web(), api, a.value.0),
                                       uuid, r))
    ensures fault.Some? && !fault.value.IsNotFound() ==> r.Err?
  {
    NaverApi.Login(s, ts, cfg.Web(), api, fault, code, uuid, role)
  }

  function LoginUrl(cfg: ProviderConfig): (url: string)
    ensures Readable(cfg.Web()) ==>
              ParseUrl(url) == (cfg.endpoints.auth,
                                [("client_id", cfg.clientId), ("response_type", "code"),
                                 ("redirect_uri", cfg.redirectUris.web)])
  {
    NaverLoginUrl(cfg.Web())
  }

  /** The web and mobile services differ in nothing but the redirect URI:
      with equal redirect URIs they log in identically. */
  lemma SameAsMobileUpToRedirect(s: Store, ts: TokenService, cfg: ProviderConfig, api: NaverApi.Api,
                                 fault: Option<Error>, code: string, uuid: string, role: Role)
    requires uuid !in s.users && cfg.redirectUris.web == cfg.redirectUris.mobile
    ensures Login(s, ts, cfg, api, fault, code, uuid, role)
            == MobileNaver.Login(s, ts, cfg, api, fault, code, uuid, role)
    ensures LoginUrl(cfg) == MobileNaver.LoginUrl(cfg)
  {
    assert cfg.Web() == cfg.Mobile();
    NaverApi.LoginIsExchangeThenLoginWithAccess(s, ts, cfg.Mobile(), api, fault, code, uuid, role);
  }
}

/** The legacy `NaverOauthService`, configured with a single redirect URI. */
module LegacyNaver {
  import opened Wrappers
  import opened Errors
  import opened Tokens
  import opened Accounts
  import opened Urls
  import opened OauthClient
  import opened OauthLogin
  import NaverApi

  function Login(s: Store, ts: TokenService, c: Client, api: NaverApi.Api,
                 fault: Option<Error>, code: string, uuid: string, role: Role)
    : (r: Result<(Store, TokenPair), Error>)
    requires uuid !in s.users
    ensures var a := NaverApi.GetAccessToken(c, api, code);
            && (a.Err? ==> r == Err(UnauthorizedError("Invalid code")))
            && (a.Ok? ==> LoginAnswers(s, ts, fault, NAVER, NaverApi.GetProfile(c, api, a.value.0), uuid, r))
    ensures fault.Some? && !fault.value.IsNotFound() ==> r.Err?
  {
    NaverApi.Login(s, ts, c, api, fault, code, uuid, role)
  }

  function LoginUrl(c: Client): (url: string)
    ensures Readable(c) ==>
              ParseUrl(url) == (c.endpoints.auth,
                                [("client_id", c.clientId), ("response_type", "code"),
                                 ("redirect_uri", c.redirectUri)])
  {
    NaverLoginUrl(c)
  }
}
