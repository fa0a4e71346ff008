/** The legacy Google and Kakao services. Both read the provider's answers as
    Google documents, check nothing beyond the HTTP status, and file the
    account under a provider tag fixed in the code. */
module LegacyOauth {
  import opened Wrappers
  import opened Errors
  import opened Tokens
  import opened Accounts
  import opened OauthClient
  import opened OauthLogin

  datatype TokenBody = TokenBody(accessToken: string)

  /** Google's profile document; `verifiedEmail` is carried but never read. */
  datatype ProfileBody = ProfileBody(id: string, email: string, name: string, verifiedEmail: bool)

  datatype Api = Api(token: string -> Response<TokenBody>, profile: string -> Response<ProfileBody>)

  const Scope := "email%20profile"

  /** The code exchange; the decoded body is handed back as it is. */
  function GetAccessToken(c: Client, api: Api, code: string): (r: Result<TokenBody, Error>)
    ensures var resp := api.token(TokenUrl(c, code));
            && (r.Ok? <==> resp.ok)
            && (r.Ok? ==> r.value == resp.body)
            && (r.Err? ==> r.error == UnauthorizedError("Invalid code"))
  {
    var resp := api.token(TokenUrl(c, code));
    if !resp.ok then Err(UnauthorizedError("Invalid code")) else Ok(resp.body)
  }

  /** The profile, handed back as it is: an unverified email is accepted. */
  function GetProfile(c: Client, api: Api, accessToken: string): (r: Result<ProfileBody, Error>)
    ensures var resp := api.profile(ProfileUrl(c, accessToken));
            && (r.Ok? <==> resp.ok)
            && (r.Ok? ==> r.value == resp.body)
            && (r.Err? ==> r.error == UnauthorizedError("Invalid access token"))
  {
    var resp := api.profile(ProfileUrl(c, accessToken));
    if !resp.ok then Err(UnauthorizedError("Invalid access token")) else Ok(resp.body)
  }

  /** The profile the account is filed with: Google's id, email and name;
      a failed fetch stays the error it was. */
  function AsProfile(p: Result<ProfileBody, Error>): Result<Profile, Error> {
    match p
    case Ok(body) => Ok(Profile(body.id, body.email, body.name))
    case Err(e) => Err(e)
  }

  /** Exchange, profile, find-or-create under `provider` with the profile's
      id, email and name, token pair. */
  function Login(s: Store, ts: TokenService, c: Client, api: Api, fault: Option<Error>,
                 provider: Provider, code: string, uuid: string, role: Role)
    : (r: Result<(Store, TokenPair), Error>)
    requires uuid !in s.users
    ensures var a := GetAccessToken(c, api, code);
            && (a.Err? ==> r == Err(UnauthorizedError("Invalid code")))
            && (r.Ok? ==> && a.Ok? && GetProfile(c, api, a.value.accessToken).Ok?
                          && var body := GetProfile(c, api, a.value.accessToken).value;
                          && BoundTo(r.value.0, ts, provider, body.id, r.value.1)
                          && (r.value.0 != s ==> uuid in r.value.0.profiles && r.value.0.profiles[uuid] == body.name))
            && (fault.Some? && !fault.value.IsNotFound() ==> r.Err?)
            && (a.Ok? && GetProfile(c, api, a.value.accessToken).Ok? ==>
                  && (fault.Some? && !fault.value.IsNotFound() ==> r == Err(fault.value))
                  && (fault.None? && Wf(s) ==> r.Ok?))
    ensures var a := GetAccessToken(c, api, code);
            a.Ok? ==> LoginAnswers(s, ts, fault, provider, AsProfile(GetProfile(c, api, a.value.accessToken)), uuid, r)
  {
    var token :- GetAccessToken(c, api, code);
    var body :- GetProfile(c, api, token.accessToken);
    SignIn(s, ts, fault, provider, Profile(body.id, body.email, body.name), uuid, role)
  }
}

/** The legacy `GoogleOauthService`. */
module LegacyGoogle {
  import opened Wrappers
  import opened Errors
  import opened Tokens
  import opened Accounts
  import opened Urls
  import opened OauthClient
  import opened OauthLogin
  import LegacyOauth

  function Login(s: Store, ts: TokenService, c: Client, api: LegacyOauth.Api, fault: Option<Error>,
                 code: string, uuid: string, role: Role)
    : (r: Result<(Store, TokenPair), Error>)
    requires uuid !in s.users
    ensures var a := LegacyOauth.GetAccessToken(c, api, code);
            && (a.Err? ==> r == Err(UnauthorizedError("Invalid code")))
            && (r.Ok? ==> && a.Ok? && LegacyOauth.GetProfile(c, api, a.value.accessToken).Ok?
                          && var body := LegacyOauth.GetProfile(c, api, a.value.accessToken).value;
                          && BoundTo(r.value.0, ts, GOOGLE, body.id, r.value.1)
                          && (r.value.0 != s ==> uuid in r.value.0.profiles && r.value.0.profiles[uuid] == body.name))
            && (fault.Some? && !fault.value.IsNotFound() ==> r.Err?)
            && (a.Ok? && LegacyOauth.GetProfile(c, api, a.value.accessToken).Ok? ==>
                  && (fault.Some? && !fault.value.IsNotFound() ==> r == Err(fault.value))
                  && (fault.None? && Wf(s) ==> r.Ok?))
    ensures var a := LegacyOauth.GetAccessToken(c, api, code);
            a.Ok? ==> LoginAnswers(s, ts, fault, GOOGLE,
                                   LegacyOauth.AsProfile(LegacyOauth.GetProfile(c, api, a.value.accessToken)),
                                   uuid, r)
  {
    LegacyOauth.Login(s, ts, c, api, fault, GOOGLE, code, uuid, role)
  }

  function LoginUrl(c: Client): (url: string)
    ensures Readable(c) ==>
              ParseUrl(url) == (c.endpoints.auth,
                                [("client_id", c.clientId), ("redirect_uri", c.redirectUri),
                                 ("response_type", "code"), ("scope", LegacyOauth.Scope)])
  {
    assert NoAmp(LegacyOauth.Scope);
    ScopedLoginUrl(c, LegacyOauth.Scope)
  }
}

/** The legacy `KakaoOauthService`: Kakao's endpoints and credentials, but
    the account is looked up and created under GOOGLE. */
module LegacyKakao {
  import opened Wrappers
  import opened Errors
  import opened Tokens
  import opened Accounts
  import opened Urls
  import opened OauthClient
  import opened OauthLogin
  import LegacyOauth

  /** As written: the Kakao profile id is filed under GOOGLE. */
  function Login(s: Store, ts: TokenService, c: Client, api: LegacyOauth.Api, fault: Option<Error>,
                 code: string, uuid: string, role: Role)
    : (r: Result<(Store, TokenPair), Error>)
    requires uuid !in s.users
    ensures var a := LegacyOauth.GetAccessToken(c, api, code);
            && (a.Err? ==> r == Err(UnauthorizedError("Invalid code")))
            && (r.Ok? ==> && a.Ok? && LegacyOauth.GetProfile(c, api, a.value.accessToken).Ok?
                          && var body := LegacyOauth.GetProfile(c, api, a.value.accessToken).value;
                          && BoundTo(r.value.0, ts, GOOGLE, body.id, r.value.1)
                          && (r.value.0 != s ==> uuid in r.value.0.profiles && r.value.0.profiles[uuid] == body.name))
            && (fault.Some? && !fault.value.IsNotFound() ==> r.Err?)
            && (a.Ok? && LegacyOauth.GetProfile(c, api, a.value.accessToken).Ok? ==>
                  && (fault.Some? && !fault.value.IsNotFound() ==> r == Err(fault.value))
                  && (fault.None? && Wf(s) ==> r.Ok?))
    ensures var a := LegacyOauth.GetAccessToken(c, api, code);
            a.Ok? ==> LoginAnswers(s, ts, fault, GOOGLE,
                                   LegacyOauth.AsProfile(LegacyOauth.GetProfile(c, api, a.value.accessToken)),
                                   uuid, r)
  {
    LegacyOauth.Login(s, ts, c, api, fault, GOOGLE, code, uuid, role)
  }

  /** Filed under KAKAO, as the mobile Kakao service does. */
  function LoginCorrected(s: Store, ts: TokenService, c: Client, api: LegacyOauth.Api,
                          fault: Option<Error>, code: string, uuid: string, role: Role)
    : (r: Result<(Store, TokenPair), Error>)
    requires uuid !in s.users
    ensures var a := LegacyOauth.GetAccessToken(c, api, code);
            && (a.Err? ==> r == Err(UnauthorizedError("Invalid code")))
            && (r.Ok? ==> && a.Ok? && LegacyOauth.GetProfile(c, api, a.value.accessToken).Ok?
                          && var body := LegacyOauth.GetProfile(c, api, a.value.accessToken).value;
                          && BoundTo(r.value.0, ts, KAKAO, body.id, r.value.1)
                          && (r.value.0 != s ==> uuid in r.value.0.profiles && r.value.0.profiles[uuid] == body.name))
            && (fault.Some? && !fault.value.IsNotFound() ==> r.Err?)
            && (a.Ok? && LegacyOauth.GetProfile(c, api, a.value.accessToken).Ok? ==>
                  && (fault.Some? && !fault.value.IsNotFound() ==> r == Err(fault.value))
                  && (fault.None? && Wf(s) ==> r.Ok?))
    ensures var a := LegacyOauth.GetAccessToken(c, api, code);
            a.Ok? ==> LoginAnswers(s, ts, fault, KAKAO,
                                   LegacyOauth.AsProfile(LegacyOauth.GetProfile(c, api, a.value.accessToken)),
                                   uuid, r)
  {
    LegacyOauth.Login(s, ts, c, api, fault, KAKAO, code, uuid, role)
  }

  function LoginUrl(c: Client): (url: string)
    ensures Readable(c) ==>
              ParseUrl(url) == (c.endpoints.auth,
                                [("client_id", c.clientId), ("redirect_uri", c.redirectUri),
                                 ("response_type", "code"), ("scope", LegacyOauth.Scope)])
  {
    assert NoAmp(LegacyOauth.Scope);
    ScopedLoginUrl(c, LegacyOauth.Scope)
  }

  /** The Kakao user answers for the exchange and the profile succeed. */
  predicate KakaoAnswers(c: Client, api: LegacyOauth.Api, code: string, kakaoId: string) {
    && api.token(TokenUrl(c, code)).ok
    && var access := api.token(TokenUrl(c, code)).body.accessToken;
    && api.profile(ProfileUrl(c, access)).ok
    && api.profile(ProfileUrl(c, access)).body.id == kakaoId
  }

  /** As written, a Kakao user whose Kakao id equals the provider id of an
      existing Google account is signed in as that Google user. */
  lemma KakaoLoginLandsOnGoogleAccount(s: Store, ts: TokenService, c: Client, api: LegacyOauth.Api,
                                       code: string, id: string, uuid: string, role: Role)
    requires uuid !in s.users
    requires KakaoAnswers(c, api, code, id)
    requires GetUser(s, GOOGLE, id).Ok?
    ensures var u := GetUser(s, GOOGLE, id).value;
            Login(s, ts, c, api, None, code, uuid, role)
            == Ok((s, IssuePair(ts, Claims(u.uuid, Some(u.role)))))
  {
    var access := api.token(TokenUrl(c, code)).body.accessToken;
    assert LegacyOauth.GetProfile(c, api, access).Ok?;
  }

  /** Corrected, the same Kakao user gets an account of their own under
      KAKAO, and the Google user keeps theirs. */
  lemma CorrectedKakaoLoginKeepsGoogleAccount(s: Store, ts: TokenService, c: Client,
                                              api: LegacyOauth.Api, code: string, id: string,
                                              uuid: string, role: Role)
    requires Wf(s) && uuid !in s.users
    requires KakaoAnswers(c, api, code, id)
    requires GetUser(s, GOOGLE, id).Ok? && (KAKAO, id) !in s.accounts
    ensures var r := LoginCorrected(s, ts, c, api, None, code, uuid, role);
            && r.Ok?
            && r.value.1 == IssuePair(ts, Claims(uuid, Some(role)))
            && uuid != GetUser(s, GOOGLE, id).value.uuid
            && GetUser(r.value.0, GOOGLE, id) == GetUser(s, GOOGLE, id)
  {
    var access := api.token(TokenUrl(c, code)).body.accessToken;
    assert LegacyOauth.GetProfile(c, api, access).Ok?;
    assert GetUser(s, KAKAO, id).Err?;
  }
}
