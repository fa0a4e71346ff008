/** The local-account lifecycle of `AuthLocalService`: a signup leaves a pending
    registration (a `temp_member_info` row keyed by email pointing at a
    `temp_member` row holding a verification code); `resend` replaces the code;
    `confirm` promotes the pending registration into a member with a password,
    a provider and a profile row; `signin` checks a password.
    Each call is one atomic transition over the tables, which are finite maps;
    a rolled-back transaction is a call that returns an error and no store. */
module Registration {
  import opened Wrappers
  import opened Errors
  import opened Tokens
  import Hex
  import Text

  datatype Member = Member(id: nat, uuid: string, email: string)

  /** A `temp_member_info` row; its email is the key it is stored under. */
  datatype PendingInfo = PendingInfo(tempMemberId: nat, password: string, nickname: string)

  datatype Store = Store(
    members: map<string, Member>,          // member rows by their unique email
    passwords: map<nat, string>,           // password hash by owning member id
    providers: map<nat, string>,           // provider name by owning member id
    profiles: map<nat, string>,            // profile nickname by owning member id
    pendingInfos: map<string, PendingInfo>, // temp_member_info rows by unique email
    pendingCodes: map<nat, string>,        // temp_member rows: id to code
    nextMemberId: nat,                     // the member id sequence
    nextTempId: nat)                       // the temp_member id sequence

  /** bcrypt: `hash` salts and hashes, `compare` checks a password against a hash. */
  datatype Hasher = Hasher(hash: string -> string, compare: (string, string) -> bool)

  /** The public part of a member that the newer service returns. */
  datatype Identity = Identity(uuid: string, email: string)

  const IncorrectCredentials := "Email or password is incorrect."

  /** The code of the pending registration of `email`, if both rows exist. */
  function PendingCode(s: Store, email: string): Option<string> {
    if email in s.pendingInfos && s.pendingInfos[email].tempMemberId in s.pendingCodes
    then Some(s.pendingCodes[s.pendingInfos[email].tempMemberId])
    else None
  }

  /** What `randomBytes(8).toString('hex')` yields. */
  predicate IsCode(c: string) {
    |c| == 16 && Hex.IsHexString(c)
  }

  /** A uuid no member holds yet. */
  predicate UuidFree(s: Store, uuid: string) {
    forall e :: e in s.members ==> s.members[e].uuid != uuid
  }

  /** The invariant every reachable store keeps: rows point where they should,
      ids come from their sequences, and no email is both pending and a member. */
  ghost predicate Wf(s: Store) {
    && (forall e :: e in s.members ==> s.members[e].email == e && s.members[e].id < s.nextMemberId)
    && (forall e1, e2 :: e1 in s.members && e2 in s.members && e1 != e2 ==>
          s.members[e1].id != s.members[e2].id && s.members[e1].uuid != s.members[e2].uuid)
    && (forall id :: id in s.passwords ==> id < s.nextMemberId)
    && (forall id :: id in s.providers ==> id < s.nextMemberId)
    && (forall id :: id in s.profiles ==> id < s.nextMemberId)
    && (forall e :: e in s.pendingInfos ==> e !in s.members && s.pendingInfos[e].tempMemberId in s.pendingCodes)
    && (forall e1, e2 :: e1 in s.pendingInfos && e2 in s.pendingInfos && e1 != e2 ==>
          s.pendingInfos[e1].tempMemberId != s.pendingInfos[e2].tempMemberId)
    && (forall k :: k in s.pendingCodes ==> k < s.nextTempId)
  }

  /** The stored nickname: the given one unless it is absent or empty. */
  function StoredNickname(email: string, nickname: Option<string>): string {
    if nickname.Some? && nickname.value != "" then nickname.value else Text.LocalPart(email)
  }

  // ---------------------------------------------------------------- signup

  /** What a signup promises, independent of how it is computed. */
  ghost predicate SignupSpec(s: Store, email: string, password: string, nickname: Option<string>,
                       hasher: Hasher, sign: ConfirmPayload -> string, r: Result<(Store, string), Error>)
  {
    && (r.Err? <==> email in s.members || email in s.pendingInfos)
    && (email in s.members ==> r == Err(ConflictError("Email already exists")))
    && (email !in s.members && email in s.pendingInfos ==> r == Err(ConflictError("Please confirm the email")))
    && (r.Ok? ==>
          var (t, token) := r.value;
          && t.members == s.members && t.passwords == s.passwords
          && t.providers == s.providers && t.profiles == s.profiles
          && t.pendingInfos.Keys == s.pendingInfos.Keys + {email}
          && (forall e :: e in s.pendingInfos ==> t.pendingInfos[e] == s.pendingInfos[e])
          && t.pendingInfos[email].password == hasher.hash(password)
          && (nickname.Some? && nickname.value != "" ==> t.pendingInfos[email].nickname == nickname.value)
          && (nickname.None? || nickname.value == "" ==>
                var n := t.pendingInfos[email].nickname;
                '@' !in n && n <= email && (n == email || email[|n|] == '@'))
          && PendingCode(t, email).Some? && IsCode(PendingCode(t, email).value)
          && token == sign(ConfirmPayload(email, PendingCode(t, email).value))
          && t.pendingCodes.Keys == s.pendingCodes.Keys + {t.pendingInfos[email].tempMemberId}
          && t.nextMemberId == s.nextMemberId
          && (Wf(s) ==> forall k :: k in s.pendingCodes ==> t.pendingCodes[k] == s.pendingCodes[k])
          && (Wf(s) ==> forall e :: e in s.pendingInfos ==> PendingCode(t, e) == PendingCode(s, e)))
  }

  function Signup(s: Store, email: string, password: string, nickname: Option<string>,
                  hasher: Hasher, entropy: seq<Hex.byte>, sign: ConfirmPayload -> string)
    : (r: Result<(Store, string), Error>)
    requires |entropy| == 8
    ensures SignupSpec(s, email, password, nickname, hasher, sign, r)
    ensures r.Ok? ==> PendingCode(r.value.0, email) == Some(Hex.Encode(entropy))
  {
    if email in s.members then Err(ConflictError("Email already exists"))
    else if email in s.pendingInfos then Err(ConflictError("Please confirm the email"))
    else
      var code := Hex.Encode(entropy);
      var tid := s.nextTempId;
      var info := PendingInfo(tid, hasher.hash(password), StoredNickname(email, nickname));
      var t := s.(pendingInfos := s.pendingInfos[email := info],
                  pendingCodes := s.pendingCodes[tid := code],
                  nextTempId := tid + 1);
      Ok((t, sign(ConfirmPayload(email, code))))
  }

  // ---------------------------------------------------------------- resend

  ghost predicate ResendSpec(s: Store, email: string, sign: ConfirmPayload -> string,
                       r: Result<(Store, string), Error>)
  {
    && (r.Err? <==> PendingCode(s, email).None?)
    && (email !in s.pendingInfos ==> r == Err(BadRequestError("Member not found")))
    && (email in s.pendingInfos && PendingCode(s, email).None? ==>
          r == Err(InternalError("Temp member not found")))
    && (r.Ok? ==>
          var (t, token) := r.value;
          && t.members == s.members && t.pendingInfos == s.pendingInfos
          && t.passwords == s.passwords && t.providers == s.providers && t.profiles == s.profiles
          && t.pendingCodes.Keys == s.pendingCodes.Keys
          && (forall k :: k in s.pendingCodes && k != s.pendingInfos[email].tempMemberId ==>
                t.pendingCodes[k] == s.pendingCodes[k])
          && PendingCode(t, email).Some? && IsCode(PendingCode(t, email).value)
          // the token carries the code that was stored BEFORE the call
          && token == sign(ConfirmPayload(email, PendingCode(s, email).value))
          && (Wf(s) ==> forall e :: e in s.pendingInfos && e != email ==> PendingCode(t, e) == PendingCode(s, e)))
  }

  /** As written: the fresh code is stored, the previous one is signed. */
  function Resend(s: Store, email: string, entropy: seq<Hex.byte>, sign: ConfirmPayload -> string)
    : (r: Result<(Store, string), Error>)
    requires |entropy| == 8
    ensures ResendSpec(s, email, sign, r)
    ensures r.Ok? ==> PendingCode(r.value.0, email) == Some(Hex.Encode(entropy))
  {
    if email !in s.pendingInfos then Err(BadRequestError("Member not found"))
    else
      var tid := s.pendingInfos[email].tempMemberId;
      if tid !in s.pendingCodes then Err(InternalError("Temp member not found"))
      else
        var oldCode := s.pendingCodes[tid];
        var t := s.(pendingCodes := s.pendingCodes[tid := Hex.Encode(entropy)]);
        Ok((t, sign(ConfirmPayload(email, oldCode))))
  }

  /** The evidently intended resend: the code it stores is the code it signs. */
  function ResendCorrected(s: Store, email: string, entropy: seq<Hex.byte>, sign: ConfirmPayload -> string)
    : (r: Result<(Store, string), Error>)
    requires |entropy| == 8
    ensures r.Err? <==> PendingCode(s, email).None?
    ensures r.Ok? ==> PendingCode(r.value.0, email) == Some(Hex.Encode(entropy))
    ensures r.Ok? ==> r.value.1 == sign(ConfirmPayload(email, PendingCode(r.value.0, email).value))
  {
    if email !in s.pendingInfos then Err(BadRequestError("Member not found"))
    else
      var tid := s.pendingInfos[email].tempMemberId;
      if tid !in s.pendingCodes then Err(InternalError("Temp member not found"))
      else
        var code := Hex.Encode(entropy);
        Ok((s.(pendingCodes := s.pendingCodes[tid := code]), sign(ConfirmPayload(email, code))))
  }

  // ---------------------------------------------------------------- confirm

  /** What promoting a verified payload promises. */
  ghost predicate PromoteSpec(s: Store, payload: ConfirmPayload, uuid: string, r: Result<(Store, Member), Error>) {
    var email := payload.email;
    && (r.Ok? <==> PendingCode(s, email) == Some(payload.code) && email !in s.members)
    && (email !in s.pendingInfos ==> r == Err(BadRequestError("Member not found")))
    && (email in s.pendingInfos && PendingCode(s, email).None? ==> r == Err(InternalError("Temp member not found")))
    && (PendingCode(s, email).Some? && PendingCode(s, email).value != payload.code ==>
          r == Err(BadRequestError("Code does not match")))
    && (r.Ok? ==>
          var (t, m) := r.value;
          && m.uuid == uuid && m.email == email
          && email in t.members && t.members[email] == m
          && (forall e :: e != email ==> (e in t.members <==> e in s.members))
          && (forall e :: e in s.members ==> t.members[e] == s.members[e])
          && m.id in t.passwords && t.passwords[m.id] == s.pendingInfos[email].password
          && m.id in t.providers && t.providers[m.id] == "local"
          && m.id in t.profiles && t.profiles[m.id] == s.pendingInfos[email].nickname
          && t.pendingInfos.Keys == s.pendingInfos.Keys - {email}
          && (forall e :: e in t.pendingInfos ==> t.pendingInfos[e] == s.pendingInfos[e])
          && t.pendingCodes == s.pendingCodes - {s.pendingInfos[email].tempMemberId}
          && t.passwords.Keys == s.passwords.Keys + {m.id}
          && (forall id :: id in s.passwords && id != m.id ==> t.passwords[id] == s.passwords[id])
          && t.providers.Keys == s.providers.Keys + {m.id}
          && (forall id :: id in s.providers && id != m.id ==> t.providers[id] == s.providers[id])
          && t.profiles.Keys == s.profiles.Keys + {m.id}
          && (forall id :: id in s.profiles && id != m.id ==> t.profiles[id] == s.profiles[id])
          && PendingCode(t, email).None?)
  }

  /** The transaction of `confirm` once the token is verified. */
  function Promote(s: Store, payload: ConfirmPayload, uuid: string): (r: Result<(Store, Member), Error>)
    requires UuidFree(s, uuid)
    ensures PromoteSpec(s, payload, uuid, r)
  {
    var email := payload.email;
    if email !in s.pendingInfos then Err(BadRequestError("Member not found"))
    else
      var info := s.pendingInfos[email];
      if info.tempMemberId !in s.pendingCodes then Err(InternalError("Temp member not found"))
      else if s.pendingCodes[info.tempMemberId] != payload.code then Err(BadRequestError("Code does not match"))
      else if email in s.members then Err(StorageError(UniqueViolation))
      else
        var id := s.nextMemberId;
        var m := Member(id, uuid, email);
        var t := s.(members := s.members[email := m],
                    passwords := s.passwords[id := info.password],
                    providers := s.providers[id := "local"],
                    profiles := s.profiles[id := info.nickname],
                    pendingInfos := s.pendingInfos - {email},
                    pendingCodes := s.pendingCodes - {info.tempMemberId},
                    nextMemberId := id + 1);
        Ok((t, m))
  }

  function Confirm(s: Store, verify: string -> Result<ConfirmPayload, Error>, token: string, uuid: string)
    : (r: Result<(Store, Identity), Error>)
    requires UuidFree(s, uuid)
    ensures verify(token).Err? ==> r == Err(verify(token).error)
    ensures verify(token).Ok? ==>
              var p := Promote(s, verify(token).value, uuid);
              && (r.Ok? <==> p.Ok?)
              && (r.Err? ==> r.error == p.error)
              && (r.Ok? ==> r.value == (p.value.0, Identity(uuid, verify(token).value.email)))
  {
    var payload :- verify(token);
    var (t, m) :- Promote(s, payload, uuid);
    Ok((t, Identity(m.uuid, m.email)))
  }

  // ---------------------------------------------------------------- signin

  ghost predicate AuthenticateSpec(s: Store, email: string, password: string,
                             compare: (string, string) -> bool, r: Result<Member, Error>)
  {
    && (email !in s.members ==> r == Err(UnauthorizedError(IncorrectCredentials)))
    && (email in s.members ==>
          var id := s.members[email].id;
          && (id !in s.providers ==> r == Err(InternalError("Provider does not exist.")))
          && (id in s.providers && id !in s.passwords ==> r == Err(InternalError("Password does not exist.")))
          && (id in s.providers && id in s.passwords && !compare(password, s.passwords[id]) ==>
                r == Err(UnauthorizedError(IncorrectCredentials)))
          && (r.Ok? <==> id in s.providers && id in s.passwords && compare(password, s.passwords[id])))
    && (r.Ok? ==> email in s.members && r.value == s.members[email])
  }

  /** The checks both sign-in services share; they read the store only. */
  function Authenticate(s: Store, email: string, password: string, compare: (string, string) -> bool)
    : (r: Result<Member, Error>)
    ensures AuthenticateSpec(s, email, password, compare, r)
  {
    if email !in s.members then Err(UnauthorizedError(IncorrectCredentials))
    else
      var m := s.members[email];
      if m.id !in s.providers then Err(InternalError("Provider does not exist."))
      else if m.id !in s.passwords then Err(InternalError("Password does not exist."))
      else if !compare(password, s.passwords[m.id]) then Err(UnauthorizedError(IncorrectCredentials))
      else Ok(m)
  }

  function Signin(s: Store, email: string, password: string, hasher: Hasher): (r: Result<Identity, Error>)
    ensures var a := Authenticate(s, email, password, hasher.compare);
            && (r.Ok? <==> a.Ok?)
            && (r.Err? ==> r.error == a.error)
            && (r.Ok? ==> email in s.members && r.value == Identity(s.members[email].uuid, s.members[email].email))
  {
    var m :- Authenticate(s, email, password, hasher.compare);
    Ok(Identity(m.uuid, m.email))
  }
}
