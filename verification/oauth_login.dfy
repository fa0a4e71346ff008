/** The account-resolution step every OAuth service repeats after it has a
    normalised provider profile: look the account up, create it when the
    lookup answers NotFound, let every other failure through, and sign both
    tokens for the user that was resolved. */
module OauthLogin {
  import opened Wrappers
  import opened Errors
  import opened Tokens
  import opened Accounts

  /** A provider profile after normalisation. */
  datatype Profile = Profile(id: string, email: string, nickname: string)

  /** A provider's HTTP answer: the `ok` flag and the decoded JSON body. */
  datatype Response<T> = Response(ok: bool, body: T)

  /** The outcome of `getUser`: the storage fault when the query itself
      fails, the lookup otherwise. */
  function Lookup(s: Store, fault: Option<Error>, provider: Provider, providerId: string)
    : (r: Result<User, Error>)
    ensures fault.Some? ==> r == Err(fault.value)
    ensures fault.None? ==> r == GetUser(s, provider, providerId)
  {
    if fault.Some? then Err(fault.value) else GetUser(s, provider, providerId)
  }

  /** `getUser(...).catch(NotFound => createUser(...))`. */
  function FindOrCreate(s: Store, fault: Option<Error>, provider: Provider, profile: Profile,
                        uuid: string, role: Role)
    : (r: Result<(Store, User), Error>)
    requires uuid !in s.users
    // an existing link is used as it is, and nothing is written
    ensures fault.None? && GetUser(s, provider, profile.id).Ok? ==>
              r == Ok((s, GetUser(s, provider, profile.id).value))
    // any failure other than NotFound reaches the caller, and nothing is created
    ensures fault.Some? && !fault.value.IsNotFound() ==> r == Err(fault.value)
    // a new link carries the profile's id, email and nickname
    ensures r.Ok? && r.value.0 != s ==>
              && r.value.1 == User(uuid, role)
              && (provider, profile.id) !in s.accounts
              && (provider, profile.id) in r.value.0.accounts && uuid in r.value.0.profiles
              && r.value.0.accounts[(provider, profile.id)] == Account(uuid, profile.email)
              && r.value.0.profiles[uuid] == profile.nickname
    // the user returned owns the account the profile names
    ensures r.Ok? ==> Resolved(r.value.0, r.value.1, provider, profile.id)
    // without faults, a well-formed store always resolves and stays well-formed
    ensures fault.None? && Wf(s) ==> r.Ok? && Wf(r.value.0)
  {
    match Lookup(s, fault, provider, profile.id)
    case Ok(u) => Ok((s, u))
    case Err(e) =>
      if e.IsNotFound() then
        CreateUser(s, provider, profile.id, profile.email, profile.nickname, uuid, role)
      else Err(e)
  }

  /** `u` is the user row that owns the account (provider, providerId). */
  predicate Resolved(t: Store, u: User, provider: Provider, providerId: string) {
    && u.uuid in t.users
    && t.users[u.uuid] == u.role
    && Owns(t, u.uuid, provider, providerId)
  }

  /** Both tokens are signed over the uuid and role of the owner of
      (provider, providerId) in `t`. */
  predicate BoundTo(t: Store, ts: TokenService, provider: Provider, providerId: string, pair: TokenPair) {
    && (provider, providerId) in t.accounts
    && var owner := t.accounts[(provider, providerId)].owner;
    && owner in t.users
    && pair == IssuePair(ts, Claims(owner, Some(t.users[owner])))
  }

  /** What every provider login promises once it holds the profile result
      `p`: a profile error is the answer; a storage failure other than
      NotFound is rethrown as it is; otherwise the tokens are bound to the
      account the profile names, a new account carries the profile's email
      and nickname, and a fault-free well-formed store always logs in. */
  ghost predicate LoginAnswers(s: Store, ts: TokenService, fault: Option<Error>, provider: Provider,
                         p: Result<Profile, Error>, uuid: string,
                         r: Result<(Store, TokenPair), Error>)
  {
    && (p.Err? ==> r == Err(p.error))
    && (r.Ok? ==> p.Ok? && BoundTo(r.value.0, ts, provider, p.value.id, r.value.1))
    && (r.Ok? && r.value.0 != s ==>
          && (provider, p.value.id) in r.value.0.accounts
          && r.value.0.accounts[(provider, p.value.id)] == Account(uuid, p.value.email)
          && uuid in r.value.0.profiles && r.value.0.profiles[uuid] == p.value.nickname)
    && (p.Ok? && fault.Some? && !fault.value.IsNotFound() ==> r == Err(fault.value))
    && (p.Ok? && fault.None? && Wf(s) ==> r.Ok? && Wf(r.value.0))
  }

  /** Find-or-create, then `accessToken` and `refreshToken` over the same
      `{uuid, role}`. */
  function SignIn(s: Store, ts: TokenService, fault: Option<Error>, provider: Provider,
                  profile: Profile, uuid: string, role: Role)
    : (r: Result<(Store, TokenPair), Error>)
    requires uuid !in s.users
    ensures r.Ok? ==> BoundTo(r.value.0, ts, provider, profile.id, r.value.1)
    ensures r.Ok? && r.value.0 != s ==>
              && r.value.0.accounts[(provider, profile.id)] == Account(uuid, profile.email)
              && uuid in r.value.0.profiles && r.value.0.profiles[uuid] == profile.nickname
    ensures fault.Some? && !fault.value.IsNotFound() ==> r == Err(fault.value)
    ensures fault.None? && Wf(s) ==> r.Ok? && Wf(r.value.0)
    ensures fault.None? && GetUser(s, provider, profile.id).Ok? ==> r.Ok? && r.value.0 == s
  {
    var (t, u) :- FindOrCreate(s, fault, provider, profile, uuid, role);
    Ok((t, IssuePair(ts, Claims(u.uuid, Some(u.role)))))
  }

  /** A second sign-in with the same provider id resolves to the same user,
      writes nothing and answers with the same tokens, whatever uuid would
      have been drawn and whatever email and nickname the provider now
      reports. */
  lemma SignInIsIdempotent(s: Store, ts: TokenService, provider: Provider, profile: Profile,
                           later: Profile, uuid: string, uuid2: string, role: Role)
    requires Wf(s) && uuid !in s.users && later.id == profile.id
    ensures var r := SignIn(s, ts, None, provider, profile, uuid, role);
            && r.Ok?
            && uuid2 !in r.value.0.users ==>
                 SignIn(r.value.0, ts, None, provider, later, uuid2, role) == r
  {
    var r := SignIn(s, ts, None, provider, profile, uuid, role);
    var t := r.value.0;
    if uuid2 !in t.users {
      assert GetUser(t, provider, later.id).Ok?;
    }
  }

  /** The same provider id under two different providers names two different
      accounts: a Wf store links each to its own user. */
  lemma ProvidersAreSeparate(s: Store, ts: TokenService, p: Provider, q: Provider, profile: Profile,
                             uuid: string, uuid2: string, role: Role)
    requires Wf(s) && p != q && uuid !in s.users
    requires (p, profile.id) !in s.accounts && (q, profile.id) !in s.accounts
    ensures var r := SignIn(s, ts, None, p, profile, uuid, role);
            && r.Ok?
            && (uuid2 !in r.value.0.users ==>
                  var r2 := SignIn(r.value.0, ts, None, q, profile, uuid2, role);
                  && r2.Ok?
                  && r2.value.0.accounts[(q, profile.id)].owner == uuid2 != uuid)
  {
    var r := SignIn(s, ts, None, p, profile, uuid, role);
    var t := r.value.0;
    assert t.accounts.Keys == s.accounts.Keys + {(p, profile.id)};
    if uuid2 !in t.users {
      assert uuid in t.users;
      assert (q, profile.id) !in t.accounts;
      assert GetUser(t, q, profile.id).Err?;
    }
  }
}
