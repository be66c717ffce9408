/**
 * The accessibility preferences and their pure rules: where they are
 * stored, how stored strings are read back with fallbacks, how the font
 * actions move the font step, and which document attributes present them.
 */
module Preferences {
  import opened Storage
  import opened Numbers

  // Storage keys of the three preferences.
  const FONT_STEP_KEY := "a11y_font_step"
  const LINKS_UNDERLINE_KEY := "a11y_links_underline"
  const REDUCE_MOTION_KEY := "a11y_reduce_motion"

  // The font step range and its default.
  const FONT_STEP_MIN := -1
  const FONT_STEP_MAX := 2
  const FONT_STEP_DEFAULT := 0

  // Attributes written on the root element (font, reduce motion) and on the body (links).
  const FONT_ATTR := "data-a11y-font"
  const REDUCE_MOTION_ATTR := "data-a11y-reduce-motion"
  const LINKS_ATTR := "data-a11y-links"

  /** `String(b)` for a boolean, also the `b ? "true" : "false"` written into attributes. */
  function BoolToString(b: bool): (s: string)
    ensures s == "true" || s == "false"
    ensures s == "true" <==> b
  {
    if b then "true" else "false"
  }

  /**
   * `readStoredNumber`: the fallback when the key is missing or its value is
   * not a finite number, otherwise the number it holds.
   */
  function ReadStoredNumber(store: Store, key: string, fallback: int): (r: int)
    ensures key !in store ==> r == fallback
    ensures key in store && ParseNumber(store[key]).None? ==> r == fallback
    ensures key in store && ParseNumber(store[key]).Some? ==> r == ParseNumber(store[key]).value
  {
    match GetItem(store, key)
    case None => fallback
    case Some(raw) =>
      match ParseNumber(raw)
      case Some(parsed) => parsed
      case None => fallback
  }

  /**
   * `readStoredBoolean`: true only for the exact string "true", false only
   * for the exact string "false", the fallback for a missing key or any
   * other string.
   */
  function ReadStoredBoolean(store: Store, key: string, fallback: bool): (r: bool)
    ensures key in store && store[key] == "true" ==> r
    ensures key in store && store[key] == "false" ==> !r
    ensures key !in store || (store[key] != "true" && store[key] != "false") ==> r == fallback
    ensures r != fallback ==> key in store && store[key] == BoolToString(r)
  {
    match GetItem(store, key)
    case None => fallback
    case Some(raw) =>
      if raw == "true" then true
      else if raw == "false" then false
      else fallback
  }

  datatype Prefs = Prefs(fontStep: int, linksUnderline: bool, reduceMotion: bool)

  predicate InRange(step: int) {
    FONT_STEP_MIN <= step <= FONT_STEP_MAX
  }

  /** The three preferences as the widget loads them at start-up. */
  function LoadPrefs(store: Store): (p: Prefs)
    ensures InRange(p.fontStep)
    ensures FONT_STEP_KEY !in store ==> p.fontStep == FONT_STEP_DEFAULT
    ensures FONT_STEP_KEY in store && ParseNumber(store[FONT_STEP_KEY]).None? ==> p.fontStep == FONT_STEP_DEFAULT
    ensures FONT_STEP_KEY in store && ParseNumber(store[FONT_STEP_KEY]).Some?
            && InRange(ParseNumber(store[FONT_STEP_KEY]).value)
            ==> p.fontStep == ParseNumber(store[FONT_STEP_KEY]).value
    ensures FONT_STEP_KEY in store && ParseNumber(store[FONT_STEP_KEY]).Some?
            && ParseNumber(store[FONT_STEP_KEY]).value > FONT_STEP_MAX
            ==> p.fontStep == FONT_STEP_MAX
    ensures FONT_STEP_KEY in store && ParseNumber(store[FONT_STEP_KEY]).Some?
            && ParseNumber(store[FONT_STEP_KEY]).value < FONT_STEP_MIN
            ==> p.fontStep == FONT_STEP_MIN
    ensures p.linksUnderline <==> LINKS_UNDERLINE_KEY in store && store[LINKS_UNDERLINE_KEY] == "true"
    ensures p.reduceMotion <==> REDUCE_MOTION_KEY in store && store[REDUCE_MOTION_KEY] == "true"
  {
    Prefs(
      Clamp(ReadStoredNumber(store, FONT_STEP_KEY, FONT_STEP_DEFAULT), FONT_STEP_MIN, FONT_STEP_MAX),
      ReadStoredBoolean(store, LINKS_UNDERLINE_KEY, false),
      ReadStoredBoolean(store, REDUCE_MOTION_KEY, false))
  }

  /** A stored "5" loads as the largest step 2; a stored "abc" loads as the default 0. */
  lemma LoadExamples()
    ensures LoadPrefs(map[FONT_STEP_KEY := "5"]).fontStep == 2
    ensures LoadPrefs(map[FONT_STEP_KEY := "abc"]).fontStep == 0
    ensures LoadPrefs(map[FONT_STEP_KEY := "-7"]).fontStep == -1
  {
  }

  /**
   * A numeral, signed or not, too large for a double is +Infinity or
   * -Infinity, not finite, so the step falls back to 0.
   */
  lemma OverflowingStepLoadsDefault(store: Store)
    requires FONT_STEP_KEY in store
    requires var raw := store[FONT_STEP_KEY];
             || (AllDigits(raw) && DigitsValue(raw) >= FLOAT_OVERFLOW)
             || (|raw| > 1 && (raw[0] == '-' || raw[0] == '+') && AllDigits(raw[1..])
                 && DigitsValue(raw[1..]) >= FLOAT_OVERFLOW)
    ensures LoadPrefs(store).fontStep == FONT_STEP_DEFAULT
  {
  }

  // Writing one preference back under its own key and loading again gives
  // the same preferences with that one field replaced.

  lemma LoadAfterFontStepWrite(store: Store, step: int)
    requires InRange(step)
    ensures LoadPrefs(store[FONT_STEP_KEY := IntToString(step)]) == LoadPrefs(store).(fontStep := step)
  {
    ParseNumberOfIntToString(step);
  }

  lemma LoadAfterLinksWrite(store: Store, b: bool)
    ensures LoadPrefs(store[LINKS_UNDERLINE_KEY := BoolToString(b)]) == LoadPrefs(store).(linksUnderline := b)
  {
  }

  lemma LoadAfterMotionWrite(store: Store, b: bool)
    ensures LoadPrefs(store[REDUCE_MOTION_KEY := BoolToString(b)]) == LoadPrefs(store).(reduceMotion := b)
  {
  }

  /** The `data-a11y-font` values a panel button can carry. */
  datatype FontAction = Increase | Decrease | Reset

  /** The recognised value of a clicked element's `data-a11y-font` attribute, if any. */
  function ParseFontAction(attr: Option<string>): (a: Option<FontAction>)
    ensures a == Some(Increase) <==> attr == Some("increase")
    ensures a == Some(Decrease) <==> attr == Some("decrease")
    ensures a == Some(Reset) <==> attr == Some("reset")
  {
    match attr
    case Some("increase") => Some(Increase)
    case Some("decrease") => Some(Decrease)
    case Some("reset") => Some(Reset)
    case _ => None
  }

  /** The font step after one action: one up or down, clamped to the range, or back to 0. */
  function StepAfter(step: int, action: FontAction): (r: int)
    ensures InRange(r)
    ensures action == Reset ==> r == FONT_STEP_DEFAULT
    ensures action == Increase && FONT_STEP_MIN <= step < FONT_STEP_MAX ==> r == step + 1
    ensures action == Increase && step == FONT_STEP_MAX ==> r == FONT_STEP_MAX
    ensures action == Decrease && FONT_STEP_MIN < step <= FONT_STEP_MAX ==> r == step - 1
    ensures action == Decrease && step == FONT_STEP_MIN ==> r == FONT_STEP_MIN
  {
    match action
    case Increase => Clamp(step + 1, FONT_STEP_MIN, FONT_STEP_MAX)
    case Decrease => Clamp(step - 1, FONT_STEP_MIN, FONT_STEP_MAX)
    case Reset => FONT_STEP_DEFAULT
  }

  /** Steps after a sequence of actions, in order. */
  function StepAfterAll(step: int, actions: seq<FontAction>): (r: int)
    decreases |actions|
  {
    if actions == [] then step else StepAfterAll(StepAfter(step, actions[0]), actions[1..])
  }

  /** `k` increases from an in-range step add `k` and stop at the maximum: the cap holds and nothing wraps. */
  lemma {:induction false} IncreasesSaturate(step: int, k: nat)
    requires InRange(step)
    ensures StepAfterAll(step, seq(k, _ => Increase)) == Clamp(step + k, FONT_STEP_MIN, FONT_STEP_MAX)
    decreases k
  {
    if k > 0 {
      var rest := seq(k - 1, _ => Increase);
      assert seq(k, _ => Increase)[1..] == rest;
      IncreasesSaturate(StepAfter(step, Increase), k - 1);
    }
  }

  lemma ThreeIncreasesFromDefault()
    ensures StepAfterAll(FONT_STEP_DEFAULT, [Increase, Increase, Increase]) == FONT_STEP_MAX
  {
  }

  type Attrs = map<string, string>

  /** The attributes of the two elements the preferences are written to. */
  datatype Document = Document(root: Attrs, body: Attrs)

  /** The document presents exactly the preferences `p`. */
  predicate Reflects(doc: Document, p: Prefs) {
    && FONT_ATTR in doc.root && doc.root[FONT_ATTR] == IntToString(p.fontStep)
    && REDUCE_MOTION_ATTR in doc.root && doc.root[REDUCE_MOTION_ATTR] == BoolToString(p.reduceMotion)
    && LINKS_ATTR in doc.body && doc.body[LINKS_ATTR] == BoolToString(p.linksUnderline)
  }

  /** `applyA11yState`: set the three attributes; every other attribute and the storage stay as they were. */
  function ApplyA11yState(doc: Document, p: Prefs): (d: Document)
    ensures Reflects(d, p)
    ensures d.root.Keys == doc.root.Keys + {FONT_ATTR, REDUCE_MOTION_ATTR}
    ensures d.body.Keys == doc.body.Keys + {LINKS_ATTR}
    ensures forall k :: k in doc.root && k != FONT_ATTR && k != REDUCE_MOTION_ATTR ==> d.root[k] == doc.root[k]
    ensures forall k :: k in doc.body && k != LINKS_ATTR ==> d.body[k] == doc.body[k]
  {
    Document(
      doc.root[FONT_ATTR := IntToString(p.fontStep)][REDUCE_MOTION_ATTR := BoolToString(p.reduceMotion)],
      doc.body[LINKS_ATTR := BoolToString(p.linksUnderline)])
  }

  /** Applying to a document that already presents `p` changes nothing, so applying twice is applying once. */
  lemma ApplyToReflecting(doc: Document, p: Prefs)
    requires Reflects(doc, p)
    ensures ApplyA11yState(doc, p) == doc
  {
  }

  lemma ApplyIdempotent(doc: Document, p: Prefs)
    ensures ApplyA11yState(ApplyA11yState(doc, p), p) == ApplyA11yState(doc, p)
  {
  }

  /** The attributes determine the preferences they present: they read back as those preferences. */
  lemma ReflectsDecodes(doc: Document, p: Prefs)
    requires Reflects(doc, p)
    requires InRange(p.fontStep)
    ensures ParseNumber(doc.root[FONT_ATTR]) == Some(p.fontStep)
    ensures doc.root[REDUCE_MOTION_ATTR] == "true" <==> p.reduceMotion
    ensures doc.body[LINKS_ATTR] == "true" <==> p.linksUnderline
  {
    ParseNumberOfIntToString(p.fontStep);
  }

  lemma ReflectsUnique(doc: Document, p: Prefs, q: Prefs)
    requires Reflects(doc, p) && Reflects(doc, q)
    ensures p == q
  {
    IntToStringInjective(p.fontStep, q.fontStep);
  }
}
