/**
 * The browser's `localStorage`: one string-keyed, string-valued store shared
 * by every component, and the keys the site uses in it.
 */
module Storage {
  import opened Js

  /** Django access token (JWT) stored by the sign-in flows. */
  const Access := "access"
  /** Django refresh token. */
  const Refresh := "refresh"
  /** "yes" once the backend has accepted a sign-in; guards the Google exchange. */
  const GoogleExchanged := "google_exchanged"
  /** Token key of the `useAuth` hook, independent of Access. */
  const AccessToken := "accessToken"
  /** "accepted" or "rejected" once the visitor answered the cookie banner. */
  const CookieConsent := "cookie_consent"
  /** Set once the home page has shown its welcome banner. */
  const WelcomeBanner := "hasSeenWelcomeBanner"

  /** `localStorage.getItem(key)`, with None for null. */
  function Lookup(items: map<string, string>, key: string): Option<string> {
    if key in items then Some(items[key]) else None
  }

  class LocalStorage {
    var items: map<string, string>

    constructor (initial: map<string, string>)
      ensures items == initial
    {
      items := initial;
    }

    function GetItem(key: string): (v: Option<string>)
      reads this
      ensures v.Some? <==> key in items
      ensures v.Some? ==> v.value == items[key]
    {
      Lookup(items, key)
    }

    method SetItem(key: string, value: string)
      modifies this
      ensures items == old(items)[key := value]
    {
      items := items[key := value];
    }

    method RemoveItem(key: string)
      modifies this
      ensures items == old(items) - {key}
    {
      items := items - {key};
    }
  }
}
