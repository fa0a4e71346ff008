/** `MobileKakaoOauthService`: Kakao login for the mobile app. A Kakao
    profile is accepted only when Kakao reports an email that is present,
    valid and verified; its numeric id becomes the account's provider id in
    decimal. */
module MobileKakao {
  import opened Wrappers
  import opened Errors
  import opened Tokens
  import opened Accounts
  import opened Urls
  import opened OauthClient
  import opened OauthLogin
  import Decimal

  datatype TokenBody = TokenBody(accessToken: string)

  datatype KakaoAccount = KakaoAccount(hasEmail: bool, isEmailValid: bool, isEmailVerified: bool,
                                       email: string)

  /** The fields of Kakao's user document the service reads. */
  datatype ProfileBody = ProfileBody(id: nat, kakaoAccount: KakaoAccount, nickname: string)

  /** Kakao's token and user endpoints, answering a request URL. */
  datatype Api = Api(token: string -> Response<TokenBody>, profile: string -> Response<ProfileBody>)

  const Scope := "account_email%20profile_nickname"

  predicate EmailAccepted(a: KakaoAccount) {
    a.hasEmail && a.isEmailValid && a.isEmailVerified
  }

  /** Exchanges the authorization code at the token endpoint with the mobile
      redirect URI. */
  function GetAccessToken(cfg: ProviderConfig, api: Api, code: string): (r: Result<string, Error>)
    ensures var resp := api.token(TokenUrl(cfg.Mobile(), code));
            && (r.Ok? <==> resp.ok)
            && (r.Ok? ==> r.value == resp.body.accessToken)
            && (r.Err? ==> r.error == UnauthorizedError("Invalid code"))
  {
    var resp := api.token(TokenUrl(cfg.Mobile(), code));
    if !resp.ok then Err(UnauthorizedError("Invalid code"))
    else Ok(resp.body.accessToken)
  }

  function GetProfile(cfg: ProviderConfig, api: Api, accessToken: string): (r: Result<Profile, Error>)
    ensures var resp := api.profile(ProfileUrl(cfg.Mobile(), accessToken));
            && (!resp.ok ==> r == Err(UnauthorizedError("Invalid access token")))
            && (resp.ok && !EmailAccepted(resp.body.kakaoAccount) ==> r == Err(UnauthorizedError("Invalid email")))
            && (r.Ok? <==> resp.ok && EmailAccepted(resp.body.kakaoAccount))
            && (r.Ok? ==> && Decimal.AllDigits(r.value.id)
                          && Decimal.Value(r.value.id) == resp.body.id
                          && r.value.email == resp.body.kakaoAccount.email
                          && r.value.nickname == resp.body.nickname)
  {
    var resp := api.profile(ProfileUrl(cfg.Mobile(), accessToken));
    if !resp.ok then Err(UnauthorizedError("Invalid access token"))
    else
      var body := resp.body;
      if !EmailAccepted(body.kakaoAccount) then Err(UnauthorizedError("Invalid email"))
      else
        Decimal.ValueFromNat(body.id);
        Ok(Profile(Decimal.FromNat(body.id), body.kakaoAccount.email, body.nickname))
  }

  /** Login with a Kakao access token the app already holds. */
  function LoginWithAccess(s: Store, ts: TokenService, cfg: ProviderConfig, api: Api,
                           fault: Option<Error>, accessToken: string, uuid: string, role: Role)
    : (r: Result<(Store, TokenPair), Error>)
    requires uuid !in s.users
    ensures LoginAnswers(s, ts, fault, KAKAO, GetProfile(cfg, api, accessToken), uuid, r)
    ensures fault.Some? && !fault.value.IsNotFound() ==> r.Err?
  {
    var profile :- GetProfile(cfg, api, accessToken);
    SignIn(s, ts, fault, KAKAO, profile, uuid, role)
  }

  /** Login with an authorization code: exchange, profile, then the shared
      find-or-create and token issue. */
  function Login(s: Store, ts: TokenService, cfg: ProviderConfig, api: Api,
                 fault: Option<Error>, code: string, uuid: string, role: Role)
    : (r: Result<(Store, TokenPair), Error>)
    requires uuid !in s.users
    ensures var a := GetAccessToken(cfg, api, code);
            && (a.Err? ==> r == Err(UnauthorizedError("Invalid code")))
            && (a.Ok? ==> LoginAnswers(s, ts, fault, KAKAO, GetProfile(cfg, api, a.value), uuid, r))
    ensures fault.Some? && !fault.value.IsNotFound() ==> r.Err?
  {
    var oauthAccess :- GetAccessToken(cfg, api, code);
    var profile :- GetProfile(cfg, api, oauthAccess);
    SignIn(s, ts, fault, KAKAO, profile, uuid, role)
  }

  /** The two entry points agree: logging in with a code is logging in with
      the access token that code is exchanged for. */
  lemma LoginIsExchangeThenLoginWithAccess(s: Store, ts: TokenService, cfg: ProviderConfig, api: Api,
                                           fault: Option<Error>, code: string, uuid: string, role: Role)
    requires uuid !in s.users
    ensures var a := GetAccessToken(cfg, api, code);
            a.Ok? ==> Login(s, ts, cfg, api, fault, code, uuid, role)
                      == LoginWithAccess(s, ts, cfg, api, fault, a.value, uuid, role)
  {
  }

  /** The authorization request: client id, mobile redirect URI,
      response_type=code and the account_email and profile_nickname scopes. */
  function LoginUrl(cfg: ProviderConfig): (url: string)
    ensures Readable(cfg.Mobile()) ==>
              ParseUrl(url) == (cfg.endpoints.auth,
                                [("client_id", cfg.clientId), ("redirect_uri", cfg.redirectUris.mobile),
                                 ("response_type", "code"), ("scope", Scope)])
  {
    assert NoAmp(Scope);
    ScopedLoginUrl(cfg.Mobile(), Scope)
  }
}
