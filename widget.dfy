/**
 * The accessibility widget controller: the preferences held in memory, the
 * storage they are persisted to, the document attributes that present them,
 * and the open/closed panel with its toggle button.
 */
module A11yWidget {
  import opened Storage
  import opened Numbers
  import opened Preferences

  const ARIA_EXPANDED := "aria-expanded"
  const ARIA_LABEL := "aria-label"
  const LABEL_WHEN_OPEN := "סגור אפשרויות נגישות"
  const LABEL_WHEN_CLOSED := "פתיחת אפשרויות נגישות"
  const ESCAPE_KEY := "Escape"

  /** Where keyboard focus is, as far as the widget moves it. */
  datatype Focus = Elsewhere | ToggleButton | PanelControl

  /** The target of a click anywhere in the document. */
  datatype ClickTarget = NotANode | InsideWidget | OutsideWidget

  /** The toggle button's attributes once `setExpanded(expanded)` has run on them. */
  function WithExpanded(attrs: Attrs, expanded: bool): (r: Attrs)
    ensures r.Keys == attrs.Keys + {ARIA_EXPANDED, ARIA_LABEL}
    ensures r[ARIA_EXPANDED] == BoolToString(expanded)
    ensures r[ARIA_EXPANDED] == "true" <==> expanded
    ensures r[ARIA_LABEL] == if expanded then LABEL_WHEN_OPEN else LABEL_WHEN_CLOSED
    ensures forall k :: k in attrs && k != ARIA_EXPANDED && k != ARIA_LABEL ==> k in r && r[k] == attrs[k]
  {
    attrs[ARIA_EXPANDED := BoolToString(expanded)][ARIA_LABEL := if expanded then LABEL_WHEN_OPEN else LABEL_WHEN_CLOSED]
  }

  class Widget {
    var storage: Store
    var doc: Document
    var fontStep: int
    var linksUnderline: bool
    var reduceMotion: bool
    // The `checked` state of the two checkboxes in the panel.
    var linksChecked: bool
    var motionChecked: bool
    // `panel.hidden` and the toggle button's attributes.
    var panelHidden: bool
    var toggleAttrs: Attrs
    var focus: Focus

    function Current(): (p: Prefs)
      reads this
    {
      Prefs(fontStep, linksUnderline, reduceMotion)
    }

    /**
     * The font step is in range, loading the storage again would give the
     * preferences held in memory, the document presents them, and the
     * checkboxes show the two flags.
     */
    ghost predicate Valid()
      reads this
    {
      && InRange(fontStep)
      && LoadPrefs(storage) == Current()
      && Reflects(doc, Current())
      && linksChecked == linksUnderline
      && motionChecked == reduceMotion
    }

    /** The toggle button's `aria-expanded` says "true" exactly when the panel is shown. */
    predicate ExpandedMatchesPanel()
      reads this
    {
      ARIA_EXPANDED in toggleAttrs && (toggleAttrs[ARIA_EXPANDED] == "true" <==> !panelHidden)
    }

    /**
     * `isOpen`: the panel is open when it is not hidden; once `setExpanded`
     * has run, `aria-expanded` tells the same.
     */
    function IsOpen(): (open: bool)
      reads this
      ensures open <==> !panelHidden
      ensures ExpandedMatchesPanel() ==> (open <==> toggleAttrs[ARIA_EXPANDED] == "true")
    {
      !panelHidden
    }

    /**
     * `setupA11yWidget`: load the preferences from `store`, show the flags in
     * the checkboxes and apply them to the document. Loading writes nothing
     * to the storage; the panel and the toggle keep their initial state.
     */
    constructor (store: Store, page: Document, hidden: bool, toggle: Attrs, focused: Focus)
      ensures Valid()
      ensures Current() == LoadPrefs(store)
      ensures storage == store
      ensures doc == ApplyA11yState(page, LoadPrefs(store))
      ensures panelHidden == hidden && toggleAttrs == toggle && focus == focused
    {
      storage := store;
      fontStep := Clamp(ReadStoredNumber(store, FONT_STEP_KEY, FONT_STEP_DEFAULT), FONT_STEP_MIN, FONT_STEP_MAX);
      linksUnderline := ReadStoredBoolean(store, LINKS_UNDERLINE_KEY, false);
      reduceMotion := ReadStoredBoolean(store, REDUCE_MOTION_KEY, false);
      linksChecked := linksUnderline;
      motionChecked := reduceMotion;
      doc := page;
      panelHidden := hidden;
      toggleAttrs := toggle;
      focus := focused;
      new;
      Apply();
    }

    /** `applyA11yState` on the current preferences: three attribute writes, no storage access. */
    method Apply()
      modifies this`doc
      ensures doc == ApplyA11yState(old(doc), Current())
    {
      var root := doc.root[FONT_ATTR := IntToString(fontStep)];
      root := root[REDUCE_MOTION_ATTR := BoolToString(reduceMotion)];
      var body := doc.body[LINKS_ATTR := BoolToString(linksUnderline)];
      doc := Document(root, body);
    }

    /** The inner `setExpanded`: `aria-expanded`, `panel.hidden` and `aria-label` follow `expanded`. */
    method SetExpanded(expanded: bool)
      modifies this`toggleAttrs, this`panelHidden
      ensures toggleAttrs == WithExpanded(old(toggleAttrs), expanded)
      ensures IsOpen() == expanded
      ensures ExpandedMatchesPanel()
    {
      toggleAttrs := toggleAttrs[ARIA_EXPANDED := BoolToString(expanded)];
      panelHidden := !expanded;
      toggleAttrs := toggleAttrs[ARIA_LABEL := if expanded then LABEL_WHEN_OPEN else LABEL_WHEN_CLOSED];
    }

    /** `close`: a no-op when the panel is already closed; otherwise hide it and focus the toggle. */
    method Close()
      modifies this`toggleAttrs, this`panelHidden, this`focus
      ensures !IsOpen()
      ensures !old(IsOpen()) ==> toggleAttrs == old(toggleAttrs) && focus == old(focus)
      ensures old(IsOpen()) ==> toggleAttrs == WithExpanded(old(toggleAttrs), false) && focus == ToggleButton
      ensures old(IsOpen()) ==> ExpandedMatchesPanel()
      ensures old(Valid()) ==> Valid()
    {
      if !IsOpen() {
        return;
      }
      SetExpanded(false);
      focus := ToggleButton;
    }

    /**
     * `open`: a no-op when the panel is already open; otherwise show it and
     * move focus to the first control inside it.
     */
    method Open()
      modifies this`toggleAttrs, this`panelHidden, this`focus
      ensures IsOpen()
      ensures old(IsOpen()) ==> toggleAttrs == old(toggleAttrs) && focus == old(focus)
      ensures !old(IsOpen()) ==> toggleAttrs == WithExpanded(old(toggleAttrs), true) && focus == PanelControl
      ensures !old(IsOpen()) ==> ExpandedMatchesPanel()
      ensures old(Valid()) ==> Valid()
    {
      if IsOpen() {
        return;
      }
      SetExpanded(true);
      focus := PanelControl;
    }

    /** A click on the toggle button flips the panel. */
    method OnToggleClick()
      modifies this`toggleAttrs, this`panelHidden, this`focus
      ensures IsOpen() == !old(IsOpen())
      ensures toggleAttrs == WithExpanded(old(toggleAttrs), IsOpen())
      ensures ExpandedMatchesPanel()
      ensures focus == if IsOpen() then PanelControl else ToggleButton
      ensures old(Valid()) ==> Valid()
    {
      if IsOpen() {
        Close();
      } else {
        Open();
      }
    }

    /**
     * A click inside the panel; `fontAttr` is the target's `data-a11y-font`
     * attribute (`None` when it has none or is not an element). An
     * unrecognised value changes nothing; a font action moves the step,
     * stores it under its own key and re-applies the attributes.
     */
    method OnPanelClick(fontAttr: Option<string>)
      requires Valid()
      modifies this`fontStep, this`storage, this`doc
      ensures Valid()
      ensures ParseFontAction(fontAttr).None? ==>
                fontStep == old(fontStep) && storage == old(storage) && doc == old(doc)
      ensures ParseFontAction(fontAttr).Some? ==>
                && fontStep == StepAfter(old(fontStep), ParseFontAction(fontAttr).value)
                && storage == old(storage)[FONT_STEP_KEY := IntToString(fontStep)]
                && doc == ApplyA11yState(old(doc), Current())
                && doc.body == old(doc.body)
                && doc.root[FONT_ATTR] == storage[FONT_STEP_KEY]
    {
      if fontAttr == Some("increase") {
        fontStep := Clamp(fontStep + 1, FONT_STEP_MIN, FONT_STEP_MAX);
      } else if fontAttr == Some("decrease") {
        fontStep := Clamp(fontStep - 1, FONT_STEP_MIN, FONT_STEP_MAX);
      } else if fontAttr == Some("reset") {
        fontStep := FONT_STEP_DEFAULT;
      } else {
        return;
      }
      LoadAfterFontStepWrite(storage, fontStep);
      storage := storage[FONT_STEP_KEY := IntToString(fontStep)];
      assert LoadPrefs(storage) == Current();
      Apply();
      assert doc.body == old(doc.body) by {
        ApplyToReflecting(old(doc), old(Current()));
      }
    }

    /** The links checkbox changed to `checked`: set the flag, store it under its own key, re-apply. */
    method OnLinksChange(checked: bool)
      requires Valid()
      modifies this`linksUnderline, this`linksChecked, this`storage, this`doc
      ensures Valid()
      ensures linksUnderline == checked
      ensures storage == old(storage)[LINKS_UNDERLINE_KEY := BoolToString(checked)]
      ensures doc == ApplyA11yState(old(doc), Current())
      ensures doc.root == old(doc.root)
      ensures doc.body[LINKS_ATTR] == storage[LINKS_UNDERLINE_KEY]
    {
      linksChecked := checked;
      linksUnderline := linksChecked;
      LoadAfterLinksWrite(storage, linksUnderline);
      storage := storage[LINKS_UNDERLINE_KEY := BoolToString(linksUnderline)];
      assert LoadPrefs(storage) == Current();
      Apply();
      assert doc.root == old(doc.root) by {
        ApplyToReflecting(old(doc), old(Current()));
      }
    }

    /** The reduce-motion checkbox changed to `checked`: set the flag, store it under its own key, re-apply. */
    method OnMotionChange(checked: bool)
      requires Valid()
      modifies this`reduceMotion, this`motionChecked, this`storage, this`doc
      ensures Valid()
      ensures reduceMotion == checked
      ensures storage == old(storage)[REDUCE_MOTION_KEY := BoolToString(checked)]
      ensures doc == ApplyA11yState(old(doc), Current())
      ensures doc.body == old(doc.body)
      ensures doc.root[REDUCE_MOTION_ATTR] == storage[REDUCE_MOTION_KEY]
    {
      motionChecked := checked;
      reduceMotion := motionChecked;
      LoadAfterMotionWrite(storage, reduceMotion);
      storage := storage[REDUCE_MOTION_KEY := BoolToString(reduceMotion)];
      assert LoadPrefs(storage) == Current();
      Apply();
      assert doc.body == old(doc.body) by {
        ApplyToReflecting(old(doc), old(Current()));
      }
    }

    /** A key press anywhere: Escape closes the panel, any other key does nothing. */
    method OnKeydown(key: string)
      modifies this`toggleAttrs, this`panelHidden, this`focus
      ensures key == ESCAPE_KEY ==> !IsOpen()
      ensures key == ESCAPE_KEY && old(IsOpen()) ==>
                toggleAttrs == WithExpanded(old(toggleAttrs), false) && focus == ToggleButton
      ensures key != ESCAPE_KEY || !old(IsOpen()) ==>
                toggleAttrs == old(toggleAttrs) && panelHidden == old(panelHidden) && focus == old(focus)
      ensures old(Valid()) ==> Valid()
    {
      if key != ESCAPE_KEY {
        return;
      }
      Close();
    }

    /** A click anywhere in the document: one outside the widget closes an open panel, without moving focus. */
    method OnDocumentClick(target: ClickTarget)
      modifies this`toggleAttrs, this`panelHidden
      ensures old(IsOpen()) && target == OutsideWidget ==>
                !IsOpen() && toggleAttrs == WithExpanded(old(toggleAttrs), false)
      ensures !old(IsOpen()) || target != OutsideWidget ==>
                toggleAttrs == old(toggleAttrs) && panelHidden == old(panelHidden)
      ensures old(Valid()) ==> Valid()
    {
      if target == NotANode {
        return;
      }
      if !IsOpen() {
        return;
      }
      if target == InsideWidget {
        return;
      }
      SetExpanded(false);
    }
  }
}
