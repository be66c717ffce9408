/**
 * The cookie-consent gate. As intended, a stored "accepted" or "declined"
 * hides the banner for good, and only "accepted" starts analytics. As
 * written, the start-up fails before it reads the stored choice
 * (`StartupAsWritten`).
 */
module CookieConsent {
  import opened Storage

  const COOKIE_CONSENT_KEY := "cookie_consent"
  const ACCEPTED := "accepted"
  const DECLINED := "declined"

  datatype Consent = Accepted | Declined | Undecided

  /** The visitor's earlier choice, from the stored value (`None` when nothing is stored). */
  function ReadConsent(stored: Option<string>): (c: Consent)
    ensures c == Accepted <==> stored == Some(ACCEPTED)
    ensures c == Declined <==> stored == Some(DECLINED)
  {
    if stored == Some(ACCEPTED) then Accepted
    else if stored == Some(DECLINED) then Declined
    else Undecided
  }

  /** What the page does at start-up for a given store. */
  datatype Startup = Startup(hideBanner: bool, loadAnalytics: bool, bindButtons: bool)

  /**
   * `setupCookieBanner`'s decision: a recorded choice hides the banner and
   * binds no buttons; analytics start only for "accepted"; with no recorded
   * choice the banner is shown and its buttons are bound.
   */
  function StartupFor(store: Store): (s: Startup)
    ensures s.hideBanner <==> COOKIE_CONSENT_KEY in store && store[COOKIE_CONSENT_KEY] in {ACCEPTED, DECLINED}
    ensures s.loadAnalytics <==> COOKIE_CONSENT_KEY in store && store[COOKIE_CONSENT_KEY] == ACCEPTED
    ensures s.loadAnalytics ==> s.hideBanner
    ensures s.bindButtons <==> !s.hideBanner
  {
    match ReadConsent(GetItem(store, COOKIE_CONSENT_KEY))
    case Accepted => Startup(true, true, false)
    case Declined => Startup(true, false, false)
    case Undecided => Startup(false, false, true)
  }

  /**
   * The start-up as the script is written. The top-level call of
   * `setupCookieBanner` runs before the constant holding the consent key is
   * initialised, so reading the consent throws a `ReferenceError` before
   * storage is read: the banner keeps the `hidden` state the page gave it,
   * no button is bound and analytics never load.
   */
  function StartupAsWritten(hiddenInPage: bool): (s: Startup)
    ensures s.hideBanner == hiddenInPage
    ensures !s.loadAnalytics && !s.bindButtons
  {
    Startup(hiddenInPage, false, false)
  }

  /**
   * The gap between the two: with "accepted" stored and the banner visible
   * in the page, the intended start-up hides it and loads analytics, the
   * start-up as written does neither.
   */
  lemma AsWrittenIgnoresStoredChoice(store: Store)
    requires COOKIE_CONSENT_KEY in store && store[COOKIE_CONSENT_KEY] == ACCEPTED
    ensures StartupFor(store) == Startup(true, true, false)
    ensures StartupAsWritten(false) == Startup(false, false, false)
    ensures StartupFor(store) != StartupAsWritten(false)
  {
  }

  /** A choice made on the banner is remembered: the next start-up hides the banner, and loads analytics only if it was "accepted". */
  lemma ChoiceRemembered(store: Store, accepted: bool)
    ensures StartupFor(store[COOKIE_CONSENT_KEY := if accepted then ACCEPTED else DECLINED])
            == Startup(true, accepted, false)
  {
  }

  class CookieBanner {
    var storage: Store
    var bannerHidden: bool
    // Whether the accept and decline buttons have click listeners.
    var buttonsBound: bool
    // How many times `loadAnalytics` has been called.
    var analyticsLoads: nat

    /** `setupCookieBanner` as intended, on a page whose storage is `store`. */
    constructor (store: Store)
      ensures storage == store
      ensures Startup(bannerHidden, analyticsLoads == 1, buttonsBound) == StartupFor(store)
      ensures analyticsLoads <= 1
    {
      storage := store;
      var consent := GetItem(store, COOKIE_CONSENT_KEY);
      if consent == Some(ACCEPTED) || consent == Some(DECLINED) {
        // A choice was already made: keep the banner hidden, bind nothing.
        bannerHidden := true;
        buttonsBound := false;
        analyticsLoads := if consent == Some(ACCEPTED) then 1 else 0;
      } else {
        bannerHidden := false;
        buttonsBound := true;
        analyticsLoads := 0;
      }
    }

    /** `setupCookieBanner` as written: it throws before reading `store`, leaving everything as the page had it. */
    constructor SetupAsWritten(store: Store, hiddenInPage: bool)
      ensures storage == store
      ensures Startup(bannerHidden, analyticsLoads > 0, buttonsBound) == StartupAsWritten(hiddenInPage)
      ensures analyticsLoads == 0
    {
      storage := store;
      bannerHidden := hiddenInPage;
      buttonsBound := false;
      analyticsLoads := 0;
    }

    /** A click on "accept": store "accepted", hide the banner, load analytics (only if the button was bound). */
    method Accept()
      modifies this`storage, this`bannerHidden, this`analyticsLoads
      ensures old(buttonsBound) ==>
                && storage == old(storage)[COOKIE_CONSENT_KEY := ACCEPTED]
                && bannerHidden
                && analyticsLoads == old(analyticsLoads) + 1
      ensures !old(buttonsBound) ==>
                storage == old(storage) && bannerHidden == old(bannerHidden) && analyticsLoads == old(analyticsLoads)
    {
      if !buttonsBound {
        return;
      }
      storage := storage[COOKIE_CONSENT_KEY := ACCEPTED];
      bannerHidden := true;
      analyticsLoads := analyticsLoads + 1;
    }

    /** A click on "decline": store "declined" and hide the banner; analytics are not loaded. */
    method Decline()
      modifies this`storage, this`bannerHidden
      ensures old(buttonsBound) ==> storage == old(storage)[COOKIE_CONSENT_KEY := DECLINED] && bannerHidden
      ensures !old(buttonsBound) ==> storage == old(storage) && bannerHidden == old(bannerHidden)
    {
      if !buttonsBound {
        return;
      }
      storage := storage[COOKIE_CONSENT_KEY := DECLINED];
      bannerHidden := true;
    }
  }
}
