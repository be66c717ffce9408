/** Short interactions with the widget, checked against the contracts of its handlers alone. */
module Scenarios {
  import opened Storage
  import opened Preferences
  import opened A11yWidget

  /** Three clicks on "increase" starting from step 0: storage and the root attribute both end at "2". */
  method ThreeIncreases(store: Store, page: Document) returns (stored: string, shown: string)
    requires LoadPrefs(store).fontStep == FONT_STEP_DEFAULT
    ensures stored == "2" && shown == "2"
  {
    var w := new Widget(store, page, true, map[], Elsewhere);
    w.OnPanelClick(Some("increase"));
    w.OnPanelClick(Some("increase"));
    w.OnPanelClick(Some("increase"));
    stored := w.storage[FONT_STEP_KEY];
    shown := w.doc.root[FONT_ATTR];
  }

  /** Opening a closed panel sets `aria-expanded` to "true"; Escape right after sets it back and focuses the toggle. */
  method OpenThenEscape(store: Store, page: Document, toggle: Attrs)
    returns (afterOpen: string, afterEscape: string, toggleFocused: bool)
    ensures afterOpen == "true" && afterEscape == "false" && toggleFocused
  {
    var w := new Widget(store, page, true, toggle, Elsewhere);
    w.OnToggleClick();
    afterOpen := w.toggleAttrs[ARIA_EXPANDED];
    w.OnKeydown(ESCAPE_KEY);
    afterEscape := w.toggleAttrs[ARIA_EXPANDED];
    toggleFocused := w.focus == ToggleButton;
  }

  /** Ticking the links checkbox stores "true" and the body attribute shows the same string. */
  method TickLinks(store: Store, page: Document) returns (stored: string, shown: string)
    ensures stored == "true" && shown == "true"
  {
    var w := new Widget(store, page, true, map[], Elsewhere);
    w.OnLinksChange(true);
    stored := w.storage[LINKS_UNDERLINE_KEY];
    shown := w.doc.body[LINKS_ATTR];
  }
}
