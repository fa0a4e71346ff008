/** The OAuth client side shared by every provider service: the provider's
    configuration section and the three URLs the services build from it by
    plain interpolation. The authorization URL carries the parameters of the
    authorization request (section 4.1.1 of RFC 6749), the token URL those of
    the access token request (section 4.1.3 of RFC 6749), sent as a query
    string of a POST. */
module OauthClient {
  import opened Urls

  datatype Endpoints = Endpoints(auth: string, token: string, profile: string)

  datatype RedirectUris = RedirectUris(web: string, mobile: string)

  /** A client with its redirect URI fixed. The legacy configuration sections
      have exactly this shape. */
  datatype Client = Client(clientId: string, clientSecret: string, redirectUri: string,
                           grantType: string, endpoints: Endpoints)

  /** A provider section of the current configuration, which keeps one
      redirect URI for the web front end and one for the mobile app. */
  datatype ProviderConfig = ProviderConfig(clientId: string, clientSecret: string, grantType: string,
                                           endpoints: Endpoints, redirectUris: RedirectUris)
  {
    function Mobile(): (c: Client)
      ensures c.redirectUri == redirectUris.mobile
      ensures c.clientId == clientId && c.clientSecret == clientSecret
      ensures c.grantType == grantType && c.endpoints == endpoints
    {
      Client(clientId, clientSecret, redirectUris.mobile, grantType, endpoints)
    }

    function Web(): (c: Client)
      ensures c.redirectUri == redirectUris.web
      ensures c.clientId == clientId && c.clientSecret == clientSecret
      ensures c.grantType == grantType && c.endpoints == endpoints
    {
      Client(clientId, clientSecret, redirectUris.web, grantType, endpoints)
    }
  }

  /** No interpolated value can be mistaken for a separator. */
  predicate NoAmp(v: string) {
    '&' !in v
  }

  /** The configured values survive a reading of the URLs built from them. */
  predicate Readable(c: Client) {
    && '?' !in c.endpoints.auth && '?' !in c.endpoints.token && '?' !in c.endpoints.profile
    && NoAmp(c.clientId) && NoAmp(c.clientSecret) && NoAmp(c.redirectUri) && NoAmp(c.grantType)
  }

  /** The access token request: client_id, client_secret, redirect_uri, code
      and grant_type, in that order, on the token endpoint. */
  function TokenUrl(c: Client, code: string): (url: string)
    ensures Readable(c) && NoAmp(code) ==> ParseUrl(url) == (c.endpoints.token, TokenParams(c, code))
  {
    var url := c.endpoints.token + "?client_id=" + c.clientId + "&client_secret=" + c.clientSecret
               + "&redirect_uri=" + c.redirectUri + "&code=" + code + "&grant_type=" + c.grantType;
    if Readable(c) && NoAmp(code) then ReadTokenUrl(c, code); url else url
  }

  function TokenParams(c: Client, code: string): seq<Param> {
    [("client_id", c.clientId), ("client_secret", c.clientSecret), ("redirect_uri", c.redirectUri),
     ("code", code), ("grant_type", c.grantType)]
  }

  lemma ReadTokenUrl(c: Client, code: string)
    requires Readable(c) && NoAmp(code)
    ensures ParseUrl(c.endpoints.token + "?client_id=" + c.clientId + "&client_secret=" + c.clientSecret
                     + "&redirect_uri=" + c.redirectUri + "&code=" + code + "&grant_type=" + c.grantType)
            == (c.endpoints.token, TokenParams(c, code))
  {
    var ps := TokenParams(c, code);
    TokenUrlShape(c, code);
    assert Unambiguous(ps) by {
      assert PlainParam(ps[0]) && PlainParam(ps[1]) && PlainParam(ps[2]);
      assert PlainParam(ps[3]) && PlainParam(ps[4]);
    }
    ReadBuilt(c.endpoints.token, ps);
  }

  lemma TokenUrlShape(c: Client, code: string)
    ensures c.endpoints.token + "?client_id=" + c.clientId + "&client_secret=" + c.clientSecret
            + "&redirect_uri=" + c.redirectUri + "&code=" + code + "&grant_type=" + c.grantType
            == Build(c.endpoints.token, TokenParams(c, code))
  {
    var e := c.endpoints.token;
    var ps := TokenParams(c, code);
    var u1 := e + "?client_id=" + c.clientId;
    assert u1 == Build(e, ps[..1]);
    BuildStep(e, ps[..1], ps[1]);
    assert ps[..1] + [ps[1]] == ps[..2];
    var u2 := u1 + "&client_secret=" + c.clientSecret;
    assert u2 == Build(e, ps[..2]);
    BuildStep(e, ps[..2], ps[2]);
    assert ps[..2] + [ps[2]] == ps[..3];
    var u3 := u2 + "&redirect_uri=" + c.redirectUri;
    assert u3 == Build(e, ps[..3]);
    BuildStep(e, ps[..3], ps[3]);
    assert ps[..3] + [ps[3]] == ps[..4];
    var u4 := u3 + "&code=" + code;
    assert u4 == Build(e, ps[..4]);
    BuildStep(e, ps[..4], ps[4]);
    assert ps[..4] + [ps[4]] == ps;
  }

  /** The profile request: the provider's access token as the only parameter. */
  function ProfileUrl(c: Client, accessToken: string): (url: string)
    ensures Readable(c) && NoAmp(accessToken) ==>
              ParseUrl(url) == (c.endpoints.profile, [("access_token", accessToken)])
  {
    var url := c.endpoints.profile + "?access_token=" + accessToken;
    if Readable(c) && NoAmp(accessToken) then ReadProfileUrl(c, accessToken); url else url
  }

  lemma ReadProfileUrl(c: Client, accessToken: string)
    requires Readable(c) && NoAmp(accessToken)
    ensures ParseUrl(c.endpoints.profile + "?access_token=" + accessToken)
            == (c.endpoints.profile, [("access_token", accessToken)])
  {
    var ps := [("access_token", accessToken)];
    assert c.endpoints.profile + "?access_token=" + accessToken == Build(c.endpoints.profile, ps);
    BuildIsUrl(c.endpoints.profile, ps);
    assert Unambiguous(ps) by { assert PlainParam(ps[0]); }
    ParseUrlOf(c.endpoints.profile, ps);
  }

  /** The authorization request of the Google and Kakao services: client_id,
      redirect_uri, response_type=code and a fixed scope. */
  function ScopedLoginUrl(c: Client, scope: string): (url: string)
    ensures Readable(c) && NoAmp(scope) ==> ParseUrl(url) == (c.endpoints.auth, ScopedLoginParams(c, scope))
  {
    var url := c.endpoints.auth + "?client_id=" + c.clientId + "&redirect_uri=" + c.redirectUri
               + "&response_type=code" + "&scope=" + scope;
    if Readable(c) && NoAmp(scope) then ReadScopedLoginUrl(c, scope); url else url
  }

  function ScopedLoginParams(c: Client, scope: string): seq<Param> {
    [("client_id", c.clientId), ("redirect_uri", c.redirectUri), ("response_type", "code"), ("scope", scope)]
  }

  lemma ReadScopedLoginUrl(c: Client, scope: string)
    requires Readable(c) && NoAmp(scope)
    ensures ParseUrl(c.endpoints.auth + "?client_id=" + c.clientId + "&redirect_uri=" + c.redirectUri
                     + "&response_type=code" + "&scope=" + scope)
            == (c.endpoints.auth, ScopedLoginParams(c, scope))
  {
    ReadFourParamTemplate(c.endpoints.auth, c.clientId, c.redirectUri, scope);
  }

  /** The authorization request of the Naver services: client_id,
      response_type=code and redirect_uri, and no scope. */
  function NaverLoginUrl(c: Client): (url: string)
    ensures Readable(c) ==> ParseUrl(url) == (c.endpoints.auth, NaverLoginParams(c))
  {
    var url := c.endpoints.auth + "?client_id=" + c.clientId + "&response_type=code" + "&redirect_uri="
               + c.redirectUri;
    if Readable(c) then ReadNaverLoginUrl(c); url else url
  }

  function NaverLoginParams(c: Client): seq<Param> {
    [("client_id", c.clientId), ("response_type", "code"), ("redirect_uri", c.redirectUri)]
  }

  lemma ReadNaverLoginUrl(c: Client)
    requires Readable(c)
    ensures ParseUrl(c.endpoints.auth + "?client_id=" + c.clientId + "&response_type=code" + "&redirect_uri="
                     + c.redirectUri)
            == (c.endpoints.auth, NaverLoginParams(c))
  {
    ReadThreeParamTemplate(c.endpoints.auth, c.clientId, c.redirectUri);
  }

  lemma ReadFourParamTemplate(e: string, id: string, r: string, scope: string)
    requires '?' !in e && NoAmp(id) && NoAmp(r) && NoAmp(scope)
    ensures ParseUrl(e + "?client_id=" + id + "&redirect_uri=" + r + "&response_type=code" + "&scope=" + scope)
            == (e, [("client_id", id), ("redirect_uri", r), ("response_type", "code"), ("scope", scope)])
  {
    var ps := [("client_id", id), ("redirect_uri", r), ("response_type", "code"), ("scope", scope)];
    FourParamShape(e, id, r, scope);
    assert Unambiguous(ps) by {
      assert PlainParam(ps[0]) && PlainParam(ps[1]) && PlainParam(ps[2]) && PlainParam(ps[3]);
    }
    ReadBuilt(e, ps);
  }

  lemma FourParamShape(e: string, id: string, r: string, scope: string)
    ensures e + "?client_id=" + id + "&redirect_uri=" + r + "&response_type=code" + "&scope=" + scope
            == Build(e, [("client_id", id), ("redirect_uri", r), ("response_type", "code"), ("scope", scope)])
  {
    var ps := [("client_id", id), ("redirect_uri", r), ("response_type", "code"), ("scope", scope)];
    var u1 := e + "?client_id=" + id;
    assert u1 == Build(e, ps[..1]);
    BuildStep(e, ps[..1], ps[1]);
    assert ps[..1] + [ps[1]] == ps[..2];
    var u2 := u1 + "&redirect_uri=" + r;
    assert u2 == Build(e, ps[..2]);
    BuildStep(e, ps[..2], ps[2]);
    assert ps[..2] + [ps[2]] == ps[..3];
    var u3 := u2 + "&response_type=code";
    LiteralPair("&response_type=code", "response_type", "code");
    assert u3 == Build(e, ps[..3]);
    BuildStep(e, ps[..3], ps[3]);
    assert ps[..3] + [ps[3]] == ps;
  }

  lemma ReadThreeParamTemplate(e: string, id: string, r: string)
    requires '?' !in e && NoAmp(id) && NoAmp(r)
    ensures ParseUrl(e + "?client_id=" + id + "&response_type=code" + "&redirect_uri=" + r)
            == (e, [("client_id", id), ("response_type", "code"), ("redirect_uri", r)])
  {
    var ps := [("client_id", id), ("response_type", "code"), ("redirect_uri", r)];
    ThreeParamShape(e, id, r);
    assert Unambiguous(ps) by {
      assert PlainParam(ps[0]) && PlainParam(ps[1]) && PlainParam(ps[2]);
    }
    ReadBuilt(e, ps);
  }

  lemma ThreeParamShape(e: string, id: string, r: string)
    ensures e + "?client_id=" + id + "&response_type=code" + "&redirect_uri=" + r
            == Build(e, [("client_id", id), ("response_type", "code"), ("redirect_uri", r)])
  {
    var ps := [("client_id", id), ("response_type", "code"), ("redirect_uri", r)];
    var u1 := e + "?client_id=" + id;
    assert u1 == Build(e, ps[..1]);
    BuildStep(e, ps[..1], ps[1]);
    assert ps[..1] + [ps[1]] == ps[..2];
    var u2 := u1 + "&response_type=code";
    LiteralPair("&response_type=code", "response_type", "code");
    assert u2 == Build(e, ps[..2]);
    BuildStep(e, ps[..2], ps[2]);
    assert ps[..2] + [ps[2]] == ps;
  }

  /** A literal "&key=value" is the separator and the pair. */
  lemma LiteralPair(lit: string, key: string, value: string)
    requires lit == "&" + key + "=" + value
    ensures lit == "&" + Pair((key, value))
  {
  }

  /** The parameters of an authorization request under section 4.1.1 of
      RFC 6749, read back from the URL: response_type=code, the client id
      and the redirect URI. */
  predicate IsAuthorizationRequest(url: string, c: Client) {
    var ps := ParseUrl(url).1;
    && (exists i :: 0 <= i < |ps| && ps[i] == ("response_type", "code"))
    && (exists i :: 0 <= i < |ps| && ps[i] == ("client_id", c.clientId))
    && (exists i :: 0 <= i < |ps| && ps[i] == ("redirect_uri", c.redirectUri))
  }

  /** The parameters section 4.1.3 of RFC 6749 requires of an access token
      request, read back from the URL: grant_type, the code and the redirect
      URI. The grant type itself is configured, not fixed to
      "authorization_code". */
  predicate IsTokenRequest(url: string, c: Client, code: string) {
    var ps := ParseUrl(url).1;
    && (exists i :: 0 <= i < |ps| && ps[i] == ("grant_type", c.grantType))
    && (exists i :: 0 <= i < |ps| && ps[i] == ("code", code))
    && (exists i :: 0 <= i < |ps| && ps[i] == ("redirect_uri", c.redirectUri))
  }

  lemma LoginUrlsAreAuthorizationRequests(c: Client, scope: string)
    requires Readable(c) && NoAmp(scope)
    ensures IsAuthorizationRequest(ScopedLoginUrl(c, scope), c)
    ensures IsAuthorizationRequest(NaverLoginUrl(c), c)
  {
    var ps := ParseUrl(ScopedLoginUrl(c, scope)).1;
    assert ps[2] == ("response_type", "code") && ps[0] == ("client_id", c.clientId);
    assert ps[1] == ("redirect_uri", c.redirectUri);
    var qs := ParseUrl(NaverLoginUrl(c)).1;
    assert qs[1] == ("response_type", "code") && qs[0] == ("client_id", c.clientId);
    assert qs[2] == ("redirect_uri", c.redirectUri);
  }

  lemma TokenUrlIsTokenRequest(c: Client, code: string)
    requires Readable(c) && NoAmp(code)
    ensures IsTokenRequest(TokenUrl(c, code), c, code)
  {
    var ps := ParseUrl(TokenUrl(c, code)).1;
    assert ps[4] == ("grant_type", c.grantType) && ps[3] == ("code", code);
    assert ps[2] == ("redirect_uri", c.redirectUri);
  }
}
