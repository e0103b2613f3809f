/**
 * The session provider wrapper: on mount it reads the stored access token and
 * arms the auto-logout watcher; the callback it hands over clears the stored
 * credentials (and then signs out of next-auth, an opaque event here).
 */
module SessionWrapper {
  import opened Js
  import opened Storage
  import opened TokenWatcher

  /** The keys both sign-out paths remove. */
  const CredentialKeys: set<string> := {Access, Refresh, GoogleExchanged}

  /** The store after `access`, `refresh` and `google_exchanged` are removed. */
  function ClearCredentials(items: map<string, string>): (r: map<string, string>)
    ensures Access !in r && Refresh !in r && GoogleExchanged !in r
    ensures forall k :: k in items && k !in CredentialKeys ==> k in r && r[k] == items[k]
    ensures r.Keys <= items.Keys
  {
    items - CredentialKeys
  }

  /** Clearing twice leaves the store as clearing once: a timer firing after a sign-out is harmless. */
  lemma ClearCredentialsIdempotent(items: map<string, string>)
    ensures ClearCredentials(ClearCredentials(items)) == ClearCredentials(items)
  {
  }

  /** The other keys the site uses survive a clear. */
  lemma ClearCredentialsKeepsOtherKeys(items: map<string, string>)
    ensures Lookup(ClearCredentials(items), CookieConsent) == Lookup(items, CookieConsent)
    ensures Lookup(ClearCredentials(items), WelcomeBanner) == Lookup(items, WelcomeBanner)
    ensures Lookup(ClearCredentials(items), AccessToken) == Lookup(items, AccessToken)
  {
  }

  /** The expiry callback: removes the three keys one after the other. */
  method OnExpire(storage: LocalStorage)
    modifies storage
    ensures storage.items == ClearCredentials(old(storage.items))
  {
    storage.RemoveItem(Access);
    storage.RemoveItem(Refresh);
    storage.RemoveItem(GoogleExchanged);
  }

  /**
   * The mount effect (empty dependency list: it runs once per mount). The
   * watcher is armed only when the stored access value is truthy.
   */
  method Mount(storage: LocalStorage, jwtDecode: string -> Decoded, now: int) returns (armed: LogoutAction)
    ensures !Truthy(Lookup(storage.items, Access)) ==> armed == NoOp
    ensures Truthy(Lookup(storage.items, Access)) ==>
              armed == ScheduleAutoLogout(jwtDecode(storage.items[Access]), now)
  {
    var access := storage.GetItem(Access);
    if Truthy(access) {
      armed := ScheduleAutoLogout(jwtDecode(access.value), now);
    } else {
      armed := NoOp;
    }
  }

  /** Mounting with an expired stored token and running the callback it triggers leaves no credentials. */
  lemma ExpiredTokenClearedOnMount(items: map<string, string>, jwtDecode: string -> Decoded, now: int)
    requires Truthy(Lookup(items, Access))
    requires HasExpiry(jwtDecode(items[Access])) && Delay(jwtDecode(items[Access]), now) <= 0
    ensures ScheduleAutoLogout(jwtDecode(items[Access]), now) == Immediate
    ensures Lookup(ClearCredentials(items), Access) == None
  {
  }
}
