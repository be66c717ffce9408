# Accessibility preferences and cookie consent of the dor-niv landing page

This project models, in Dafny, the two stateful pieces of the site's client script `script.js`:

- **The accessibility widget.** It loads three preferences from the browser's persistent key-value store. These are the font step, link underlining and reduced motion. Missing or corrupt values fall back to defaults, and the font step is clamped to [-1, 2]. The widget presents the preferences as three document attributes. It lets the visitor change them from a panel. Every change is written back under the preference's own key and re-applied at once. The panel is a two-state open/closed machine driven by its toggle button, the Escape key and clicks outside the widget.
- **The cookie-consent gate.** The intended behaviour is this: a stored "accepted" or "declined" hides the banner, and only "accepted" starts analytics. With no recorded choice, the banner is shown and its two buttons record the choice. The script as written never gets that far, because its start-up throws before reading storage (see "## Findings"). The model states both behaviours.

Layout, one module per file:

- `storage.dfy` (`Storage`): the store as a `map<string, string>`, with `getItem` returning `Option<string>`.
- `numbers.dfy` (`Numbers`): `clampNumber`; `String(n)` for integers; `Number(raw)` as a partial integer parser. Its round trip is `Number(String(n)) == n`.
- `preferences.dfy` (`Preferences`): the storage keys, `readStoredNumber`, `readStoredBoolean`, loading, the font actions, and `applyA11yState` as a function on the attributes of the root and body elements.
- `widget.dfy` (`A11yWidget`): `setupA11yWidget` as a class. Its fields are the closure's mutable state (`fontStep`, `linksUnderline`, `reduceMotion`), the storage map, the document attributes, the panel's `hidden` flag, the toggle's attributes and the focus. Each event handler is a method.
- `consent.dfy` (`CookieConsent`): the start-up decision of `setupCookieBanner` as a function, both as intended and as written, and the banner as a class with its accept and decline handlers.
- `scenarios.dfy` (`Scenarios`): short client interactions proved from the handlers' contracts alone.

The widget's object invariant `Widget.Valid` states four things:

- the font step is in range;
- loading the storage again gives exactly the preferences held in memory, so the stored state is the sole source of truth on the next page load;
- the document presents those same preferences;
- the links and motion checkboxes show the two flags.

Every handler preserves this invariant. The preference handlers state it as a pre- and postcondition; the panel handlers state `old(Valid()) ==> Valid()`. The proof rests on `Number(String(n)) == n`.

## Model

| member | source | states |
|---|---|---|
| `Storage.GetItem` | script.js:138 | a key that is present gives its string; a missing key gives `None` (`null`) |
| `Numbers.Clamp` | script.js:133-135 | with min <= max the result lies in [min, max]; a value already in range is returned unchanged; a value below or above the range gives min or max |
| `Numbers.ClampIdempotent` | script.js:133-135 | clamping twice equals clamping once |
| `Numbers.NatToString` | script.js:214 | the decimal numeral of a natural number is non-empty, all digits, and has no leading zero |
| `Numbers.DigitsValueOfNatToString` | script.js:214 | reading back the numeral of n gives n (induction on n) |
| `Numbers.IntToString` | script.js:154 | `String(n)` starts with '-' exactly for negative n, followed by digits |
| `Numbers.ParseNumber` | script.js:140-141 | `Number(raw)` as a partial integer parser: "" is 0; a string of digits is its value unless it reaches the double overflow bound 2^1024 - 2^970, where it is Infinity and so not finite; a "+" or "-" followed by digits is that value with the sign, or not finite past the bound; a bare sign is not a number; a non-digit after the first character or an unsigned non-digit first character is not a finite number; every finite result is below the bound in magnitude |
| `Numbers.ParseNumberOfIntToString` | script.js:214 | an integer of finite magnitude written with `String` reads back through `Number` as the same integer |
| `Numbers.IntToStringInjective` | script.js:154 | distinct integers give distinct strings |
| `Preferences.BoolToString` | script.js:221 | `String(b)` is "true" or "false", and "true" exactly when b holds |
| `Preferences.ReadStoredNumber` | script.js:137-142 | a missing key or a non-finite parse gives the fallback; otherwise the parsed number |
| `Preferences.ReadStoredBoolean` | script.js:144-150 | exactly "true" gives true, exactly "false" gives false, a missing key or any other string gives the fallback; a result other than the fallback is backed by exactly that string |
| `Preferences.LoadPrefs` | script.js:167-169 | the loaded step is in [-1, 2]; a missing or non-finite step loads as 0; an in-range stored step loads as itself; a step above 2 loads as 2 and one below -1 as -1; each flag is true exactly when its key holds "true" |
| `Preferences.OverflowingStepLoadsDefault` | script.js:139-141 | a stored numeral, signed or not, too large for a double is not finite, so the step falls back to 0 |
| `Preferences.LoadExamples` | script.js:167 | a stored "5" loads as 2, "abc" as 0 and "-7" as -1 |
| `Preferences.LoadAfterFontStepWrite` | script.js:214 | writing an in-range step under its key and loading again gives the old preferences with only the step replaced |
| `Preferences.LoadAfterLinksWrite` | script.js:221 | writing the links flag under its key and loading again changes only that flag |
| `Preferences.LoadAfterMotionWrite` | script.js:229 | writing the motion flag under its key and loading again changes only that flag |
| `Preferences.ParseFontAction` | script.js:208-212 | only the exact strings "increase", "decrease" and "reset" are actions; anything else, including no attribute, is none |
| `Preferences.StepAfter` | script.js:209-211 | the step after an action stays in [-1, 2]; increase adds one below 2 and stays at 2; decrease subtracts one above -1 and stays at -1; reset gives 0 |
| `Preferences.IncreasesSaturate` | script.js:209 | k increases from an in-range step give clamp(step + k), so there is no wrap-around |
| `Preferences.ThreeIncreasesFromDefault` | script.js:209 | three increases from 0 end at 2 |
| `Preferences.ApplyA11yState` | script.js:152-157 | afterwards the root's font and reduce-motion attributes and the body's links attribute present the preferences; every other attribute is unchanged |
| `Preferences.ApplyToReflecting` | script.js:152-157 | applying to a document that already presents the preferences changes nothing |
| `Preferences.ApplyIdempotent` | script.js:152-157 | applying twice is the same as applying once |
| `Preferences.ReflectsDecodes` | script.js:154-156 | attributes presenting an in-range step and two flags read back as those preferences |
| `Preferences.ReflectsUnique` | script.js:154-156 | one document presents at most one set of preferences |
| `A11yWidget.WithExpanded` | script.js:178-182 | after `setExpanded(e)`, `aria-expanded` is `String(e)`, so "true" exactly when e holds and "false" otherwise; `aria-label` is the close label when e holds and the open label otherwise; no other attribute is added, and all others are kept |
| `A11yWidget.Widget.IsOpen` | script.js:184 | the panel is open exactly when it is not hidden; when `aria-expanded` is consistent with the panel, it says the same |
| `A11yWidget.Widget.constructor` | script.js:159-176 | loading gives `LoadPrefs` of the store, writes nothing to storage, syncs the checkboxes, applies the attributes and establishes the invariant |
| `A11yWidget.Widget.Apply` | script.js:152-157 | the three attribute writes produce `ApplyA11yState` of the current preferences; storage is not touched |
| `A11yWidget.Widget.SetExpanded` | script.js:178-182 | sets `aria-expanded`, `aria-label` and `hidden` together, so `aria-expanded` is "true" exactly when the panel is shown |
| `A11yWidget.Widget.Close` | script.js:184-190 | the panel ends closed; closing a closed panel changes nothing; closing an open one sets `aria-expanded` to "false" and focuses the toggle |
| `A11yWidget.Widget.Open` | script.js:192-197 | the panel ends open; opening an open panel changes nothing; opening a closed one sets `aria-expanded` to "true" and focuses a control in the panel |
| `A11yWidget.Widget.OnToggleClick` | script.js:199-202 | a toggle click flips the panel and leaves `aria-expanded` consistent with it |
| `A11yWidget.Widget.OnPanelClick` | script.js:204-216 | no recognised action leaves step, storage and document unchanged; an action sets the step to `StepAfter`, changes only the font key of storage to `String(step)`, keeps the body attributes, and leaves the root font attribute equal to the stored string; the invariant holds |
| `A11yWidget.Widget.OnLinksChange` | script.js:218-224 | the flag becomes the checkbox state; only the links key is written, as "true"/"false"; root attributes are unchanged; the body attribute equals the stored string; the invariant holds |
| `A11yWidget.Widget.OnMotionChange` | script.js:226-232 | the flag becomes the checkbox state; only the motion key is written; body attributes are unchanged; the root attribute equals the stored string; the invariant holds |
| `A11yWidget.Widget.OnKeydown` | script.js:234-237 | Escape closes the panel and returns focus to the toggle; any other key changes nothing |
| `A11yWidget.Widget.OnDocumentClick` | script.js:239-245 | a click outside the widget closes an open panel without moving focus; any other click changes nothing |
| `CookieConsent.ReadConsent` | script.js:376-379 | the choice is Accepted exactly for "accepted" and Declined exactly for "declined" |
| `CookieConsent.StartupFor` | script.js:372-391 | the banner is hidden exactly when "accepted" or "declined" is stored; analytics load exactly for "accepted"; the buttons are bound exactly when the banner is shown |
| `CookieConsent.StartupAsWritten` | script.js:252 | the start-up as written: the banner keeps the page's `hidden` state, no button is bound and analytics never load |
| `CookieConsent.AsWrittenIgnoresStoredChoice` | script.js:362-385 | with "accepted" stored and the banner visible, the intended start-up hides it and loads analytics; the start-up as written does neither |
| `CookieConsent.CookieBanner.SetupAsWritten` | script.js:364-376 | the banner as the script is written leaves storage unread and unwritten, keeps the page's `hidden` state, binds no button and loads no analytics |
| `CookieConsent.ChoiceRemembered` | script.js:393-406 | after a choice is stored, the next start-up hides the banner and loads analytics only for "accepted" |
| `CookieConsent.CookieBanner.constructor` | script.js:372-391 | the intended start-up: the banner's state is `StartupFor` of the store, and storage is not written |
| `CookieConsent.CookieBanner.Accept` | script.js:393-399 | stores "accepted" under only the consent key, hides the banner and loads analytics once more; an unbound button does nothing |
| `CookieConsent.CookieBanner.Decline` | script.js:401-406 | stores "declined" under only the consent key and hides the banner; analytics are not loaded |
| `Scenarios.ThreeIncreases` | script.js:208-215 | three increases from step 0 leave "2" both in storage and in the root attribute |
| `Scenarios.OpenThenEscape` | script.js:186-202 | opening sets `aria-expanded` to "true"; Escape right after sets it to "false" and focuses the toggle |
| `Scenarios.TickLinks` | script.js:218-224 | ticking the links checkbox stores "true" and the body attribute shows "true" |

## Left out

- `Numbers.ParseNumber` models `Number(raw)` only on decimal integers. Fractions ("1.5"), exponents ("1e3"), the prefixes "0x", "0o" and "0b", "Infinity", and surrounding whitespace are not modelled. These are floating-point parsing details. In the source a stored "1.5" loads as the font step 1.5, and a stored "0x1" or "0b1" loads as 1; in the model such a string is not a number and loads as 0. Overflow to Infinity is modelled; rounding of large finite numerals is not, and it cannot change a clamped step.
- `Numbers.ParseNumberOfIntToString` and `Preferences.ReflectsDecodes` promise the read-back only below the double overflow bound, and for attributes of an in-range step. Beyond the bound `Number` gives Infinity, so no read-back exists there.
- `Numbers.IntToString` agrees with `String(n)` only below 2^53 in magnitude. Above that, a double holds no exact integer, and `String` writes the shortest digits that read back to the same double, padded with zeros. From 1e21 up it switches to exponent notation. The model only converts font steps in [-1, 2].
- The widget and the cookie banner each hold their own copy of the storage map, while the page has one `localStorage`. This changes nothing observable, because their keys are disjoint: three `a11y_` keys against `cookie_consent`.
- Storage writes always succeed in the model. `setItem` can throw when the quota is exhausted or storage is disabled, and the source does not catch this.
- The early returns of `setupA11yWidget` and `setupCookieBanner` when their elements are missing are not modelled. The `ReferenceError` of the cookie start-up also aborts the rest of the top-level script, so `setupLeadPopup` never runs; the popup is not part of this model. The model assumes the widget, toggle, panel, both checkboxes and the banner with both buttons exist.
- A click on the toggle or inside the panel also bubbles to the document's click listener. The model treats these as separate events and assumes the toggle and panel lie inside `[data-a11y-widget]`. The bubbled click is then `OnDocumentClick(InsideWidget)`, which changes nothing. A client that follows `OnToggleClick` with `OnDocumentClick(OutsideWidget)` describes a different, later click.
- Focus on opening the panel goes through `requestAnimationFrame` to the first button, input or link in the panel. The model moves focus to `PanelControl` at once. It assumes the panel has such a control.
- `loadAnalytics` only logs to the console. It is counted as calls (`analyticsLoads`) rather than modelled.
- The navigation menu, the lead forms and their WhatsApp links, the popup timers and its session flag, and `setupYear` are not part of this model. They consist of DOM and event wiring, foreign calls (`encodeURIComponent`, `window.open`, form validation, `alert`), timers and a clock read.
- The site's stylesheet, which consumes the three attributes, is not part of this model.

## Findings

| source | as written | input that shows it | evidently intended | confidence | as-written member | corrected member |
|---|---|---|---|---|---|---|
| script.js:252 | `setupCookieBanner()` is called at the top level before `const COOKIE_CONSENT_KEY` (script.js:362) is initialised. `getCookieConsent` (script.js:365) reads the constant in its temporal dead zone and throws a `ReferenceError`. Storage is never read, the banner keeps its page state, no button is bound and analytics never load. | a page with `#cookieBanner` visible and `cookie_consent` = "accepted" in storage | a stored choice hides the banner, and "accepted" loads analytics (the comment at script.js:378 says so) | high; not executed | `CookieConsent.StartupAsWritten`, `CookieConsent.AsWrittenIgnoresStoredChoice` | `CookieConsent.StartupFor`, `CookieConsent.CookieBanner.constructor` |
