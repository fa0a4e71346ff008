/** The token service as the rest of the code sees it. Signing and verification
    happen in a remote service, so both are parameters: a TokenService value is
    one particular signer. Nothing here assumes that verification inverts
    signing; lemmas that need it say so in their `requires`. */
module Tokens {
  import opened Wrappers
  import opened Errors

  /** A user role, as the database's role enumeration spells it. */
  type Role = string

  /** The claims of an access or refresh token. The local controller signs
      `{uuid}` alone, the OAuth services sign `{uuid, role}`. */
  datatype Claims = Claims(uuid: string, role: Option<Role>)

  /** The claims of an email-confirmation token. */
  datatype ConfirmPayload = ConfirmPayload(email: string, code: string)

  datatype TokenService = TokenService(
    emailConfirmToken: ConfirmPayload -> string,
    verifyEmailConfirmToken: string -> Result<ConfirmPayload, Error>,
    accessToken: Claims -> string,
    verifyAccessToken: string -> Result<Claims, Error>,
    refreshToken: Claims -> string,
    verifyRefreshToken: string -> Result<Claims, Error>)

  /** The pair of tokens every login answers with. */
  datatype TokenPair = TokenPair(access: string, refresh: string)

  /** Both tokens of a pair signed over the same claims. */
  function IssuePair(ts: TokenService, claims: Claims): TokenPair {
    TokenPair(ts.accessToken(claims), ts.refreshToken(claims))
  }

  /** The server-side session of a web client; only the refresh token the
      controllers keep there is modelled. */
  datatype Session = Session(refresh: Option<string>)

  /** The confirmation token round-trips for this payload. */
  predicate ConfirmRoundTrips(ts: TokenService, p: ConfirmPayload) {
    ts.verifyEmailConfirmToken(ts.emailConfirmToken(p)) == Ok(p)
  }
}
