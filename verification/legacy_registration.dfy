/** The older `SignupService` and `SigninService`: the same pending-registration
    state machine, signing the confirmation payload with the JWT module instead
    of the token service, and answering `confirm` and `signin` with the whole
    member row instead of `{uuid, email}`. */
module LegacyRegistration {
  import opened Wrappers
  import opened Errors
  import opened Tokens
  import opened Registration
  import Hex

  /** `JwtService.sign` and `JwtService.verify` over confirmation payloads. */
  datatype Jwt = Jwt(sign: ConfirmPayload -> string, verify: string -> Result<ConfirmPayload, Error>)

  function Signup(s: Store, email: string, password: string, nickname: Option<string>,
                  hasher: Hasher, entropy: seq<Hex.byte>, jwt: Jwt)
    : (r: Result<(Store, string), Error>)
    requires |entropy| == 8
    ensures SignupSpec(s, email, password, nickname, hasher, jwt.sign, r)
  {
    Registration.Signup(s, email, password, nickname, hasher, entropy, jwt.sign)
  }

  function Resend(s: Store, email: string, entropy: seq<Hex.byte>, jwt: Jwt)
    : (r: Result<(Store, string), Error>)
    requires |entropy| == 8
    ensures ResendSpec(s, email, jwt.sign, r)
  {
    Registration.Resend(s, email, entropy, jwt.sign)
  }

  /** Verifies the token first, then promotes; answers with the new member row. */
  function Confirm(s: Store, jwt: Jwt, token: string, uuid: string): (r: Result<(Store, Member), Error>)
    requires UuidFree(s, uuid)
    ensures jwt.verify(token).Err? ==> r == Err(jwt.verify(token).error)
    ensures jwt.verify(token).Ok? ==> PromoteSpec(s, jwt.verify(token).value, uuid, r)
  {
    var payload :- jwt.verify(token);
    Promote(s, payload, uuid)
  }

  /** Answers with the stored member row itself. */
  function Signin(s: Store, email: string, password: string, hasher: Hasher): (r: Result<Member, Error>)
    ensures AuthenticateSpec(s, email, password, hasher.compare, r)
  {
    Authenticate(s, email, password, hasher.compare)
  }

  /** Both generations of `confirm` leave the same store and name the same member. */
  lemma ConfirmAgreesWithCurrent(s: Store, jwt: Jwt, token: string, uuid: string)
    requires UuidFree(s, uuid)
    ensures var legacy := Confirm(s, jwt, token, uuid);
            var current := Registration.Confirm(s, jwt.verify, token, uuid);
            && (legacy.Ok? <==> current.Ok?)
            && (legacy.Err? ==> legacy.error == current.error)
            && (legacy.Ok? ==> && legacy.value.0 == current.value.0
                                && current.value.1 == Identity(legacy.value.1.uuid, legacy.value.1.email))
  {
  }
}
