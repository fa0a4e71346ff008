/** The web `AuthLocalController`. Its service (`src/services/web/auth/local.service.ts`)
    is not part of this model, so the service is a parameter: a record of
    transitions over an abstract state `S`. What the controller adds is the
    orchestration: the verification mail is awaited, and a signup whose mail
    fails is rolled back by deleting the temporary user again. */
module AuthLocalController {
  import opened Wrappers
  import opened Errors
  import opened Tokens
  import opened AuthSchema

  /** The argument of `createTempUser`. */
  datatype TempUser = TempUser(email: string, loginId: string, password: string, nickname: Option<string>)

  datatype LocalService<!S> = LocalService(
    createTempUser: (S, TempUser) -> Result<(S, string), Error>,  // the new state and the mail token
    deleteTempUser: (S, string) -> Result<S, Error>,
    resend: (S, string) -> Result<(S, string), Error>,
    verifyEmail: (S, string) -> Result<S, Error>,
    login: (S, LoginBody) -> Result<TokenPair, Error>)

  /** The state after a request and what the request answers. */
  datatype Outcome<S> = Outcome(state: S, reply: Result<string, Error>)

  const MailFailed := InternalError("Failed to send email")
  const MailAndRollbackFailed := InternalError("Failed to send email and delete temporary user")

  function ToTempUser(body: SignupBody): (u: TempUser)
    ensures u.email == body.email && u.loginId == body.loginId
    ensures u.password == body.password && u.nickname == body.nickname
  {
    TempUser(body.email, body.loginId, body.password, body.nickname)
  }

  /** `delivered(email, token)` is whether the mailer accepted the
      verification mail carrying `token` for `email`. */
  function Signup<S>(svc: LocalService<S>, s: S, body: SignupBody, delivered: (string, string) -> bool)
    : (r: Outcome<S>)
    ensures var c := svc.createTempUser(s, ToTempUser(body));
            && (c.Err? ==> r == Outcome(s, Err(c.error)))
            && (c.Ok? && delivered(body.email, c.value.1) ==> r == Outcome(c.value.0, Ok("success")))
            && (c.Ok? && !delivered(body.email, c.value.1) ==>
                  var d := svc.deleteTempUser(c.value.0, body.email);
                  && (d.Ok? ==> r == Outcome(d.value, Err(MailFailed)))
                  && (d.Err? ==> r == Outcome(c.value.0, Err(MailAndRollbackFailed))))
  {
    match svc.createTempUser(s, ToTempUser(body))
    case Err(e) => Outcome(s, Err(e))
    case Ok((t, token)) =>
      if delivered(body.email, token) then Outcome(t, Ok("success"))
      else
        match svc.deleteTempUser(t, body.email)
        case Ok(u) => Outcome(u, Err(MailFailed))
        case Err(_) => Outcome(t, Err(MailAndRollbackFailed))
  }

  /** A failed mail on resend fails the request and deletes nothing. */
  function Resend<S>(svc: LocalService<S>, s: S, email: string, delivered: (string, string) -> bool)
    : (r: Outcome<S>)
    ensures var c := svc.resend(s, email);
            && (c.Err? ==> r == Outcome(s, Err(c.error)))
            && (c.Ok? ==> r.state == c.value.0)
            && (c.Ok? ==> (r.reply == Ok("email sent") <==> delivered(email, c.value.1)))
            && (c.Ok? && !delivered(email, c.value.1) ==> r.reply == Err(MailFailed))
  {
    match svc.resend(s, email)
    case Err(e) => Outcome(s, Err(e))
    case Ok((t, token)) =>
      if delivered(email, token) then Outcome(t, Ok("email sent")) else Outcome(t, Err(MailFailed))
  }

  function Verify<S>(svc: LocalService<S>, s: S, token: string): (r: Outcome<S>)
    ensures var v := svc.verifyEmail(s, token);
            && (r.reply.Ok? <==> v.Ok?)
            && (v.Ok? ==> r == Outcome(v.value, Ok("success")))
            && (v.Err? ==> r == Outcome(s, Err(v.error)))
  {
    match svc.verifyEmail(s, token)
    case Ok(t) => Outcome(t, Ok("success"))
    case Err(e) => Outcome(s, Err(e))
  }

  /** The refresh token goes into the session, the access token into the reply. */
  function Login<S>(svc: LocalService<S>, s: S, body: LoginBody): (r: Result<(Session, string), Error>)
    ensures var l := svc.login(s, body);
            && (r.Ok? <==> l.Ok?)
            && (r.Err? ==> r.error == l.error)
            && (r.Ok? ==> r.value.0 == Session(Some(l.value.refresh)) && r.value.1 == l.value.access)
  {
    var pair :- svc.login(s, body);
    Ok((Session(Some(pair.refresh)), pair.access))
  }

  /** Deleting the temporary user undoes creating it. */
  predicate Undoes<S(==)>(svc: LocalService<S>, s: S, u: TempUser) {
    var c := svc.createTempUser(s, u);
    c.Ok? ==> svc.deleteTempUser(c.value.0, u.email) == Ok(s)
  }

  /** When deleting the temporary user undoes creating it, a signup either
      succeeds with the temporary user in place or fails and leaves the
      state exactly as it found it. */
  lemma FailedSignupLeavesNoTrace<S>(svc: LocalService<S>, s: S, body: SignupBody,
                                        delivered: (string, string) -> bool)
    requires Undoes(svc, s, ToTempUser(body))
    ensures var r := Signup(svc, s, body, delivered);
            && (r.reply.Err? ==> r.state == s)
            && (r.reply.Ok? ==> r.state == svc.createTempUser(s, ToTempUser(body)).value.0)
            && (svc.createTempUser(s, ToTempUser(body)).Ok? ==> r.reply != Err(MailAndRollbackFailed))
  {
  }
}

/** The mobile `MobileAuthLocalController`: its verify, resend and signup are
    the web controller's, line for line; only login differs, returning both
    tokens in the body because an app keeps no session. */
module MobileAuthLocalController {
  import opened Wrappers
  import opened Errors
  import opened Tokens
  import opened AuthSchema
  import Web = AuthLocalController

  function Login<S>(svc: Web.LocalService<S>, s: S, body: LoginBody): (r: Result<TokenPair, Error>)
    ensures var l := svc.login(s, body);
            && (r.Ok? <==> l.Ok?)
            && (r.Err? ==> r.error == l.error)
            && (r.Ok? ==> r.value == l.value)
  {
    var pair :- svc.login(s, body);
    Ok(TokenPair(pair.access, pair.refresh))
  }

  /** The web reply holds the same access token, and the session the same
      refresh token, as the mobile body. */
  lemma WebLoginSplitsThePair<S>(svc: Web.LocalService<S>, s: S, body: LoginBody)
    ensures var m := Login(svc, s, body);
            var w := Web.Login(svc, s, body);
            && (m.Ok? <==> w.Ok?)
            && (m.Ok? ==> w.value == (Session(Some(m.value.refresh)), m.value.access))
  {
  }
}
