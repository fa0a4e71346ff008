/** `UserService.deleteUser`: deletes the user row with the given uuid. The
    database removes the user's OAuth accounts and profile with it (the
    relations cascade). `fault` is a failure of the delete other than a
    missing row. */
module Users {
  import opened Wrappers
  import opened Errors
  import opened Accounts

  /** The store without `uuid` and everything that belongs to it. */
  function Without(s: Store, uuid: string): (t: Store)
    ensures t.users.Keys == s.users.Keys - {uuid}
    ensures t.profiles.Keys == s.profiles.Keys - {uuid}
    ensures forall k :: k in t.accounts <==> k in s.accounts && s.accounts[k].owner != uuid
  {
    Store(s.users - {uuid},
          map k | k in s.accounts && s.accounts[k].owner != uuid :: s.accounts[k],
          s.profiles - {uuid})
  }

  /** `prisma.user.delete`: the deleted row, or Prisma's "record not found". */
  function DeleteRow(s: Store, uuid: string, fault: Option<Error>): (r: Result<(Store, User), Error>)
    ensures fault.Some? ==> r == Err(fault.value)
    ensures fault.None? ==> (r.Err? <==> uuid !in s.users)
    ensures fault.None? && r.Err? ==> r.error == StorageError(RecordNotFound)
  {
    if fault.Some? then Err(fault.value)
    else if uuid !in s.users then Err(StorageError(RecordNotFound))
    else Ok((Without(s, uuid), User(uuid, s.users[uuid])))
  }

  function DeleteUser(s: Store, uuid: string, fault: Option<Error>): (r: Result<(Store, User), Error>)
    ensures fault.None? ==> (r.Ok? <==> uuid in s.users)
    ensures fault.None? && uuid !in s.users ==> r == Err(NotFoundError("User not found"))
    ensures fault == Some(StorageError(RecordNotFound)) ==> r == Err(NotFoundError("User not found"))
    ensures fault.Some? && fault.value != StorageError(RecordNotFound) ==> r == Err(fault.value)
    ensures r.Ok? ==>
              var (t, u) := r.value;
              && uuid in s.users && u == User(uuid, s.users[uuid])
              && t.users.Keys == s.users.Keys - {uuid}
              && (forall v :: v in t.users ==> t.users[v] == s.users[v])
              && (forall k :: k in t.accounts <==> k in s.accounts && s.accounts[k].owner != uuid)
              && (forall k :: k in t.accounts ==> t.accounts[k] == s.accounts[k])
              && t.profiles.Keys == s.profiles.Keys - {uuid}
              && (forall v :: v in t.profiles ==> t.profiles[v] == s.profiles[v])
  {
    match DeleteRow(s, uuid, fault)
    case Ok(res) => Ok(res)
    case Err(e) => if e == StorageError(RecordNotFound) then Err(NotFoundError("User not found")) else Err(e)
  }

  lemma DeleteUserPreservesWf(s: Store, uuid: string)
    requires Wf(s)
    ensures var r := DeleteUser(s, uuid, None);
            r.Ok? ==> Wf(r.value.0)
  {
  }

  /** After a deletion none of the user's accounts resolves any more, and a
      second deletion answers NotFound. */
  lemma DeletedUserIsGone(s: Store, uuid: string, provider: Provider, providerId: string)
    requires Wf(s) && Owns(s, uuid, provider, providerId)
    ensures var r := DeleteUser(s, uuid, None);
            && r.Ok?
            && GetUser(r.value.0, provider, providerId) == Err(NotFoundError("User not found"))
            && DeleteUser(r.value.0, uuid, None) == Err(NotFoundError("User not found"))
  {
    var t := DeleteUser(s, uuid, None).value.0;
    assert (provider, providerId) !in t.accounts;
  }
}
