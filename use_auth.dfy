/**
 * The `useAuth` hook: a `token` state field mirrored in the `accessToken`
 * store key. It never touches the keys the sign-in flows use.
 */
module UseAuth {
  import opened Js
  import opened Storage

  /** The token the mount effect adopts: the stored `accessToken` when it is a non-empty string. */
  function StoredToken(items: map<string, string>): (t: Option<string>)
    ensures t.Some? <==> AccessToken in items && items[AccessToken] != ""
    ensures t.Some? ==> t.value == items[AccessToken]
  {
    var t := Lookup(items, AccessToken);
    if Truthy(t) then t else None
  }

  class AuthHook {
    const storage: LocalStorage
    var token: Option<string>

    /** `useState<string | null>(null)` */
    constructor (storage: LocalStorage)
      ensures this.storage == storage && token == None
    {
      this.storage := storage;
      token := None;
    }

    /** The mount effect: adopts a non-empty stored token, otherwise leaves `token` as it is. */
    method Mount()
      modifies this
      ensures token == (if StoredToken(storage.items).Some? then StoredToken(storage.items) else old(token))
      ensures old(token) == None ==>
                (IsAuthenticated() <==> AccessToken in storage.items && storage.items[AccessToken] != "")
    {
      var t := storage.GetItem(AccessToken);
      if Truthy(t) {
        token := t;
      }
    }

    method Login(accessToken: string)
      modifies this, storage
      ensures storage.items == old(storage.items)[AccessToken := accessToken]
      ensures token == Some(accessToken)
      ensures IsAuthenticated() <==> accessToken != ""
    {
      storage.SetItem(AccessToken, accessToken);
      token := Some(accessToken);
    }

    method Logout()
      modifies this, storage
      ensures storage.items == old(storage.items) - {AccessToken}
      ensures token == None && !IsAuthenticated()
    {
      storage.RemoveItem(AccessToken);
      token := None;
    }

    /** `!!token` */
    predicate IsAuthenticated()
      reads this
    {
      Truthy(token)
    }
  }

  /** Login and logout leave the credentials of the sign-in flows alone. */
  lemma LoginLeavesCredentials(items: map<string, string>, t: string)
    ensures Lookup(items[AccessToken := t], Access) == Lookup(items, Access)
    ensures Lookup(items[AccessToken := t], Refresh) == Lookup(items, Refresh)
    ensures Lookup(items - {AccessToken}, Access) == Lookup(items, Access)
    ensures Lookup(items - {AccessToken}, Refresh) == Lookup(items, Refresh)
  {
  }
}
