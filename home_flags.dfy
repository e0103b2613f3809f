/**
 * The home page's two one-shot flags kept in the store: the cookie-consent
 * banner and the welcome banner of the hero section.
 */
module CookieConsentBanner {
  import opened Js
  import opened Storage

  const Accepted := "accepted"
  const Rejected := "rejected"

  /** A freshly mounted banner shows iff no truthy answer is stored. */
  predicate ShowsOnMount(items: map<string, string>) {
    !Truthy(Lookup(items, CookieConsent))
  }

  class ConsentBanner {
    const storage: LocalStorage
    var show: bool

    constructor (storage: LocalStorage)
      ensures this.storage == storage && !show
    {
      this.storage := storage;
      show := false;
    }

    /** The mount effect: `if (!consent) setShow(true)`. */
    method Mount()
      modifies this
      ensures show == (old(show) || ShowsOnMount(storage.items))
    {
      var consent := storage.GetItem(CookieConsent);
      if !Truthy(consent) {
        show := true;
      }
    }

    method Accept()
      modifies this, storage
      ensures storage.items == old(storage.items)[CookieConsent := Accepted]
      ensures !show && !Rendered()
    {
      storage.SetItem(CookieConsent, Accepted);
      show := false;
    }

    method Reject()
      modifies this, storage
      ensures storage.items == old(storage.items)[CookieConsent := Rejected]
      ensures !show && !Rendered()
    {
      storage.SetItem(CookieConsent, Rejected);
      show := false;
    }

    /** Whether the component renders its banner; when hidden it renders null. */
    predicate Rendered()
      reads this
    {
      show
    }
  }

  /** Either answer is remembered: no later mount shows the banner, whatever else the store holds. */
  lemma AnswerIsRemembered(items: map<string, string>, answer: string)
    requires answer == Accepted || answer == Rejected
    ensures !ShowsOnMount(items[CookieConsent := answer])
  {
  }

  /** A visitor who has not answered sees the banner. */
  lemma FirstVisitShowsBanner(items: map<string, string>)
    requires CookieConsent !in items
    ensures ShowsOnMount(items)
  {
  }
}

module WelcomeBannerFlag {
  import opened Js
  import opened Storage

  const Seen := "true"

  /** Whether the banner shows, and the store afterwards. */
  datatype MountResult = MountResult(shown: bool, after: map<string, string>)

  /** The mount effect's net result. */
  function MountEffect(items: map<string, string>): MountResult {
    if !Truthy(Lookup(items, WelcomeBanner)) then MountResult(true, items[WelcomeBanner := Seen])
    else MountResult(false, items)
  }

  class Hero {
    const storage: LocalStorage
    var showBanner: bool

    constructor (storage: LocalStorage)
      ensures this.storage == storage && !showBanner
    {
      this.storage := storage;
      showBanner := false;
    }

    method Mount()
      modifies this, storage
      ensures storage.items == MountEffect(old(storage.items)).after
      ensures showBanner == (old(showBanner) || MountEffect(old(storage.items)).shown)
    {
      var seen := storage.GetItem(WelcomeBanner);
      if !Truthy(seen) {
        showBanner := true;
        storage.SetItem(WelcomeBanner, Seen);
      }
    }

    /** Hides the banner; the store is not touched. */
    method DismissBanner()
      modifies this
      ensures !showBanner
    {
      showBanner := false;
    }
  }

  /** The first mount on a store without the key shows the banner and records it. */
  lemma FirstMountShows(items: map<string, string>)
    requires WelcomeBanner !in items
    ensures MountEffect(items).shown
    ensures MountEffect(items).after == items[WelcomeBanner := Seen]
  {
  }

  /** With the key present, mount shows nothing and leaves the store unchanged. */
  lemma SeenMountIsQuiet(items: map<string, string>)
    requires Truthy(Lookup(items, WelcomeBanner))
    ensures MountEffect(items) == MountResult(false, items)
  {
  }

  /** Whatever the store, a second mount never shows the banner and changes nothing more. */
  lemma SecondMountNeverShows(items: map<string, string>)
    ensures !MountEffect(MountEffect(items).after).shown
    ensures MountEffect(MountEffect(items).after).after == MountEffect(items).after
  {
  }
}
