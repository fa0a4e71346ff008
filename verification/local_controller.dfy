/** `LocalController`: the HTTP face of the local-account lifecycle. Signup
    and signin can be switched off by configuration; signup and resend hand a
    confirmation link to the mailer without waiting for it, so a mail that is
    never delivered changes nothing in the reply or the store. */
module LocalController {
  import opened Wrappers
  import opened Errors
  import opened Tokens
  import Hex
  import Text
  import opened Registration

  /** `STATUS_LOCAL_SIGNUP` and `STATUS_LOCAL_SIGNIN`. */
  datatype Flags = Flags(localSignup: bool, localSignin: bool)

  /** The `confirm_email` message handed to the mailer. */
  datatype Mail = Mail(email: string, link: string)

  const SignupDisabled := HttpError(Locked, "Local signup is disabled")
  const SigninDisabled := HttpError(Locked, "Local signin is disabled")

  /** The confirmation link: the configured page with the token as its
      `token` query parameter. */
  function Link(confirmEmailUrl: string, token: string): (link: string)
    ensures '?' !in confirmEmailUrl ==>
              Text.UpTo(link, '?') == confirmEmailUrl && Text.After(link, '?') == "token=" + token
  {
    var link := confirmEmailUrl + "?token=" + token;
    assert link == confirmEmailUrl + ['?'] + ("token=" + token);
    if '?' in confirmEmailUrl then link
    else
      Text.UpToAfterFirst(confirmEmailUrl, '?', "token=" + token);
      link
  }

  /** The token a link carries, as the confirmation page reads it back. */
  function TokenOf(link: string): (token: string)
    ensures forall url, t :: '?' !in url && link == Link(url, t) ==> token == t
  {
    var query := Text.After(link, '?');
    if |query| >= 6 then query[6..] else ""
  }

  function Confirm(s: Store, ts: TokenService, token: string, uuid: string): (r: Result<(Store, string), Error>)
    requires UuidFree(s, uuid)
    ensures var c := Registration.Confirm(s, ts.verifyEmailConfirmToken, token, uuid);
            && (r.Ok? <==> c.Ok?)
            && (r.Err? ==> r.error == c.error)
            && (r.Ok? ==> r.value == (c.value.0, "success"))
  {
    var (t, _) :- Registration.Confirm(s, ts.verifyEmailConfirmToken, token, uuid);
    Ok((t, "success"))
  }

  /** Resend is not switched off by either flag. `delivered` is what the
      mailer eventually reports; it is only logged. */
  function Resend(s: Store, ts: TokenService, confirmEmailUrl: string, email: string,
                  entropy: seq<Hex.byte>, delivered: bool)
    : (r: Result<(Store, Mail, string), Error>)
    requires |entropy| == 8
    ensures var rs := Registration.Resend(s, email, entropy, ts.emailConfirmToken);
            && (r.Ok? <==> rs.Ok?)
            && (r.Err? ==> r.error == rs.error)
            && (r.Ok? ==> && r.value.0 == rs.value.0 && r.value.2 == "email sent"
                          && r.value.1.email == email
                          // the link carries the code stored before the call
                          && PendingCode(s, email).Some?
                          && ('?' !in confirmEmailUrl ==>
                                TokenOf(r.value.1.link)
                                == ts.emailConfirmToken(ConfirmPayload(email, PendingCode(s, email).value))))
  {
    var (t, token) :- Registration.Resend(s, email, entropy, ts.emailConfirmToken);
    Ok((t, Mail(email, Link(confirmEmailUrl, token)), "email sent"))
  }

  function Signup(flags: Flags, s: Store, ts: TokenService, hasher: Hasher, confirmEmailUrl: string,
                  email: string, password: string, nickname: Option<string>,
                  entropy: seq<Hex.byte>, delivered: bool)
    : (r: Result<(Store, Mail, string), Error>)
    requires |entropy| == 8
    ensures !flags.localSignup ==> r == Err(SignupDisabled) && r.error.status.Code() == 423
    ensures flags.localSignup ==>
              var rs := Registration.Signup(s, email, password, nickname, hasher, entropy, ts.emailConfirmToken);
              && (r.Ok? <==> rs.Ok?)
              && (r.Err? ==> r.error == rs.error)
    ensures r.Ok? ==>
              var (t, mail, reply) := r.value;
              && reply == "email sent" && mail.email == email
              && PendingCode(t, email) == Some(Hex.Encode(entropy))
              && ('?' !in confirmEmailUrl ==>
                    TokenOf(mail.link) == ts.emailConfirmToken(ConfirmPayload(email, Hex.Encode(entropy))))
  {
    if !flags.localSignup then Err(SignupDisabled)
    else
      var (t, token) :- Registration.Signup(s, email, password, nickname, hasher, entropy, ts.emailConfirmToken);
      Ok((t, Mail(email, Link(confirmEmailUrl, token)), "email sent"))
  }

  /** The session keeps the refresh token, the reply carries the access
      token; both are signed over `{uuid}` alone. */
  function Signin(flags: Flags, s: Store, ts: TokenService, hasher: Hasher, email: string, password: string)
    : (r: Result<(Session, string), Error>)
    ensures !flags.localSignin ==> r == Err(SigninDisabled) && r.error.status.Code() == 423
    ensures flags.localSignin ==>
              var a := Authenticate(s, email, password, hasher.compare);
              && (r.Ok? <==> a.Ok?)
              && (r.Err? ==> r.error == a.error)
    ensures r.Ok? ==>
              && email in s.members
              && var claims := Claims(s.members[email].uuid, None);
              && r.value == (Session(Some(ts.refreshToken(claims))), ts.accessToken(claims))
  {
    if !flags.localSignin then Err(SigninDisabled)
    else
      var member :- Registration.Signin(s, email, password, hasher);
      var claims := Claims(member.uuid, None);
      Ok((Session(Some(ts.refreshToken(claims))), ts.accessToken(claims)))
  }

  /** What the mailer reports never reaches the reply or the store. */
  lemma MailFailureIsOnlyLogged(flags: Flags, s: Store, ts: TokenService, hasher: Hasher, url: string,
                                email: string, password: string, nickname: Option<string>,
                                entropy: seq<Hex.byte>)
    requires |entropy| == 8
    ensures Signup(flags, s, ts, hasher, url, email, password, nickname, entropy, false)
            == Signup(flags, s, ts, hasher, url, email, password, nickname, entropy, true)
    ensures Resend(s, ts, url, email, entropy, false) == Resend(s, ts, url, email, entropy, true)
  {
  }

  /** Following the mailed link confirms the signup: the page hands the
      link's token to `confirm`, which creates the member. */
  lemma MailedLinkConfirms(flags: Flags, s: Store, ts: TokenService, hasher: Hasher, url: string,
                           email: string, password: string, nickname: Option<string>,
                           entropy: seq<Hex.byte>, uuid: string)
    requires Registration.Wf(s) && flags.localSignup && '?' !in url
    requires email !in s.members && email !in s.pendingInfos
    requires |entropy| == 8 && UuidFree(s, uuid)
    requires ConfirmRoundTrips(ts, ConfirmPayload(email, Hex.Encode(entropy)))
    ensures var r := Signup(flags, s, ts, hasher, url, email, password, nickname, entropy, true);
            && r.Ok?
            && var c := Confirm(r.value.0, ts, TokenOf(r.value.1.link), uuid);
            && c.Ok? && email in c.value.0.members && c.value.0.members[email].uuid == uuid
  {
    var rs := Registration.Signup(s, email, password, nickname, hasher, entropy, ts.emailConfirmToken);
    var t := rs.value.0;
    assert UuidFree(t, uuid);
    assert PendingCode(t, email) == Some(Hex.Encode(entropy));
    var payload := ConfirmPayload(email, Hex.Encode(entropy));
    assert Promote(t, payload, uuid).Ok?;
  }
}
