/** Properties of the local-account lifecycle that relate several calls. */
module RegistrationLemmas {
  import opened Wrappers
  import opened Errors
  import opened Tokens
  import opened Registration
  import Hex

  function EmptyStore(): Store {
    Store(map[], map[], map[], map[], map[], map[], 0, 0)
  }

  lemma EmptyStoreWf()
    ensures Wf(EmptyStore())
  {
  }

  lemma SignupPreservesWf(s: Store, email: string, password: string, nickname: Option<string>,
                          hasher: Hasher, entropy: seq<Hex.byte>, sign: ConfirmPayload -> string)
    requires Wf(s) && |entropy| == 8
    ensures var r := Signup(s, email, password, nickname, hasher, entropy, sign);
            r.Ok? ==> Wf(r.value.0)
  {
  }

  lemma ResendPreservesWf(s: Store, email: string, entropy: seq<Hex.byte>, sign: ConfirmPayload -> string)
    requires Wf(s) && |entropy| == 8
    ensures var r := Resend(s, email, entropy, sign);
            r.Ok? ==> Wf(r.value.0)
  {
  }

  lemma PromotePreservesWf(s: Store, payload: ConfirmPayload, uuid: string)
    requires Wf(s) && UuidFree(s, uuid)
    ensures var r := Promote(s, payload, uuid);
            r.Ok? ==> Wf(r.value.0)
  {
    var r := Promote(s, payload, uuid);
    if r.Ok? {
      var t := r.value.0;
      var email := payload.email;
      var tid := s.pendingInfos[email].tempMemberId;
      forall e | e in t.pendingInfos
        ensures e !in t.members && t.pendingInfos[e].tempMemberId in t.pendingCodes
      {
        assert e != email && e in s.pendingInfos;
        assert s.pendingInfos[e].tempMemberId != tid;
      }
    }
  }

  /** In a reachable store the "Temp member not found" branches of resend and
      confirm, and the member unique-constraint failure, never fire. */
  lemma InternalErrorsUnreachable(s: Store, email: string, entropy: seq<Hex.byte>,
                                  sign: ConfirmPayload -> string, payload: ConfirmPayload, uuid: string)
    requires Wf(s) && |entropy| == 8 && UuidFree(s, uuid)
    ensures email in s.pendingInfos ==> Resend(s, email, entropy, sign).Ok?
    ensures Promote(s, payload, uuid).Err? ==>
              Promote(s, payload, uuid).error in
                {BadRequestError("Member not found"), BadRequestError("Code does not match")}
  {
  }

  /** The whole local lifecycle: a fresh signup, confirmed with the token it
      returned, yields a member who can sign in with the same password. */
  lemma SignupConfirmSignin(s: Store, email: string, password: string, nickname: Option<string>,
                            hasher: Hasher, entropy: seq<Hex.byte>, ts: TokenService, uuid: string)
    requires Wf(s) && email !in s.members && email !in s.pendingInfos
    requires |entropy| == 8 && UuidFree(s, uuid)
    requires ConfirmRoundTrips(ts, ConfirmPayload(email, Hex.Encode(entropy)))
    requires hasher.compare(password, hasher.hash(password))
    ensures var r := Signup(s, email, password, nickname, hasher, entropy, ts.emailConfirmToken);
            && r.Ok?
            && var c := Confirm(r.value.0, ts.verifyEmailConfirmToken, r.value.1, uuid);
            && c.Ok? && c.value.1 == Identity(uuid, email)
            && Signin(c.value.0, email, password, hasher) == Ok(Identity(uuid, email))
  {
    var r := Signup(s, email, password, nickname, hasher, entropy, ts.emailConfirmToken);
    var t := r.value.0;
    assert UuidFree(t, uuid);
    var c := Confirm(t, ts.verifyEmailConfirmToken, r.value.1, uuid);
    var p := Promote(t, ConfirmPayload(email, Hex.Encode(entropy)), uuid);
    assert p.Ok?;
  }

  /** Confirming deletes the pending registration, so replaying the same token
      fails with "Member not found" and creates nothing. */
  lemma ConfirmIsSingleUse(s: Store, verify: string -> Result<ConfirmPayload, Error>, token: string,
                           uuid: string, uuid2: string)
    requires UuidFree(s, uuid)
    requires Confirm(s, verify, token, uuid).Ok?
    requires UuidFree(Confirm(s, verify, token, uuid).value.0, uuid2)
    ensures Confirm(Confirm(s, verify, token, uuid).value.0, verify, token, uuid2)
            == Err(BadRequestError("Member not found"))
  {
  }

  /** After a resend that draws a new code, neither the token of the signup nor
      the token the resend returned confirms: both carry the old code. */
  lemma ResendTokenIsStale(s: Store, email: string, password: string, nickname: Option<string>,
                           hasher: Hasher, entropy0: seq<Hex.byte>, entropy1: seq<Hex.byte>,
                           ts: TokenService, uuid: string)
    requires Wf(s) && email !in s.members && email !in s.pendingInfos
    requires |entropy0| == 8 && |entropy1| == 8 && entropy0 != entropy1
    requires UuidFree(s, uuid)
    requires ConfirmRoundTrips(ts, ConfirmPayload(email, Hex.Encode(entropy0)))
    ensures var r0 := Signup(s, email, password, nickname, hasher, entropy0, ts.emailConfirmToken);
            && r0.Ok?
            && var r1 := Resend(r0.value.0, email, entropy1, ts.emailConfirmToken);
            && r1.Ok?
            && r1.value.1 == r0.value.1
            && Confirm(r1.value.0, ts.verifyEmailConfirmToken, r1.value.1, uuid)
               == Err(BadRequestError("Code does not match"))
  {
    var r0 := Signup(s, email, password, nickname, hasher, entropy0, ts.emailConfirmToken);
    var t0 := r0.value.0;
    var r1 := Resend(t0, email, entropy1, ts.emailConfirmToken);
    Hex.DecodeEncode(entropy0);
    Hex.DecodeEncode(entropy1);
    assert Hex.Encode(entropy0) != Hex.Encode(entropy1);
    assert UuidFree(r1.value.0, uuid);
  }

  /** With the corrected resend, the token it returns confirms the registration. */
  lemma ResendCorrectedTokenConfirms(s: Store, email: string, entropy: seq<Hex.byte>,
                                     ts: TokenService, uuid: string)
    requires Wf(s) && email in s.pendingInfos
    requires |entropy| == 8 && UuidFree(s, uuid)
    requires ConfirmRoundTrips(ts, ConfirmPayload(email, Hex.Encode(entropy)))
    ensures var r := ResendCorrected(s, email, entropy, ts.emailConfirmToken);
            && r.Ok?
            && var c := Confirm(r.value.0, ts.verifyEmailConfirmToken, r.value.1, uuid);
            && c.Ok? && c.value.1 == Identity(uuid, email)
  {
    var r := ResendCorrected(s, email, entropy, ts.emailConfirmToken);
    assert UuidFree(r.value.0, uuid);
    assert Promote(r.value.0, ConfirmPayload(email, Hex.Encode(entropy)), uuid).Ok?;
  }

  /** An unknown email and a wrong password are indistinguishable to the caller. */
  lemma SigninHidesWhichCheckFailed(s: Store, unknown: string, known: string,
                                    password: string, hasher: Hasher)
    requires unknown !in s.members
    requires known in s.members
    requires s.members[known].id in s.providers && s.members[known].id in s.passwords
    requires !hasher.compare(password, s.passwords[s.members[known].id])
    ensures Signin(s, unknown, password, hasher) == Signin(s, known, password, hasher)
    ensures Signin(s, unknown, password, hasher) == Err(UnauthorizedError(IncorrectCredentials))
  {
  }
}
