/** `OauthAccountService`: users, their OAuth accounts and their profiles.
    An OAuth account is identified by the pair (provider, provider-assigned id),
    which the database keeps unique; each account, like each profile, belongs
    to one user, and users are identified by their uuid. */
module Accounts {
  import opened Wrappers
  import opened Errors
  import opened Tokens

  datatype Provider = GOOGLE | KAKAO | NAVER

  datatype User = User(uuid: string, role: Role)

  /** An account row: its owner's uuid and the email captured when it was linked. */
  datatype Account = Account(owner: string, email: string)

  datatype Store = Store(
    users: map<string, Role>,                     // user rows: uuid to role
    accounts: map<(Provider, string), Account>,   // oauth account rows by (provider, providerId)
    profiles: map<string, string>)                // profile nickname by owning uuid

  /** Every account and profile belongs to an existing user. */
  ghost predicate Wf(s: Store) {
    && (forall k :: k in s.accounts ==> s.accounts[k].owner in s.users)
    && (forall u :: u in s.profiles ==> u in s.users)
  }

  /** `uuid` owns the account (provider, providerId). */
  predicate Owns(s: Store, uuid: string, provider: Provider, providerId: string) {
    (provider, providerId) in s.accounts && s.accounts[(provider, providerId)].owner == uuid
  }

  /** The first user that has an account with exactly this provider and id. */
  function GetUser(s: Store, provider: Provider, providerId: string): (r: Result<User, Error>)
    ensures r.Ok? <==> exists u :: u in s.users && Owns(s, u, provider, providerId)
    ensures r.Ok? ==> r.value.uuid in s.users && Owns(s, r.value.uuid, provider, providerId)
                      && r.value.role == s.users[r.value.uuid]
    ensures r.Err? ==> r.error == NotFoundError("User not found")
  {
    var key := (provider, providerId);
    if key in s.accounts && s.accounts[key].owner in s.users then
      var uuid := s.accounts[key].owner;
      Ok(User(uuid, s.users[uuid]))
    else
      Err(NotFoundError("User not found"))
  }

  /** One user with one linked account and one profile, in one write.
      `uuid` is the output of `randomUUID()`, fresh for this store; `role` is
      the role column's default. */
  function CreateUser(s: Store, provider: Provider, providerId: string, email: string,
                      nickname: string, uuid: string, role: Role)
    : (r: Result<(Store, User), Error>)
    requires uuid !in s.users
    ensures r.Err? <==> (provider, providerId) in s.accounts
    ensures r.Err? ==> r.error == StorageError(UniqueViolation)
    ensures r.Ok? ==>
              var (t, u) := r.value;
              && u == User(uuid, role)
              && t.users.Keys == s.users.Keys + {uuid} && t.users[uuid] == role
              && (forall v :: v in s.users ==> t.users[v] == s.users[v])
              && t.accounts.Keys == s.accounts.Keys + {(provider, providerId)}
              && t.accounts[(provider, providerId)] == Account(uuid, email)
              && (forall k :: k in s.accounts ==> t.accounts[k] == s.accounts[k])
              && t.profiles.Keys == s.profiles.Keys + {uuid} && t.profiles[uuid] == nickname
              && (forall v :: v in s.profiles && v != uuid ==> t.profiles[v] == s.profiles[v])
              && (Wf(s) ==> uuid !in s.profiles)
              && (Wf(s) ==> forall k :: k in t.accounts && t.accounts[k].owner == uuid ==> k == (provider, providerId))
              && (Wf(s) ==> Wf(t))
  {
    var key := (provider, providerId);
    if key in s.accounts then Err(StorageError(UniqueViolation))
    else
      var t := Store(s.users[uuid := role],
                     s.accounts[key := Account(uuid, email)],
                     s.profiles[uuid := nickname]);
      Ok((t, User(uuid, role)))
  }

  /** A created link is found again by the same (provider, providerId). */
  lemma GetUserAfterCreateUser(s: Store, provider: Provider, providerId: string, email: string,
                               nickname: string, uuid: string, role: Role)
    requires uuid !in s.users && (provider, providerId) !in s.accounts
    ensures var r := CreateUser(s, provider, providerId, email, nickname, uuid, role);
            r.Ok? && GetUser(r.value.0, provider, providerId) == Ok(User(uuid, role))
  {
  }
}
