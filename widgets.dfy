/**
 * The observable state of the widget primitives the drop-down shell drives
 * (PFlowPanel, PButton, DropDownContainerAddon): the style names they carry,
 * their visibility, their tab-index mode, and for buttons their text and
 * tooltip. How they render is not modelled.
 */
module Widgets {
  import opened Options

  /** PWidget.TabindexMode: a tab stop, or reachable only by a scripted focus. */
  datatype TabindexMode = Tabulable | Focusable

  /** The key codes the key-up handler looks at (PKeyCodes). */
  datatype KeyCode = Enter | Escape | OtherKey

  /** One widget as seen through its setters; `tooltip` is what setTitle sets. */
  datatype Element = Element(
    styles: set<string>,
    visible: bool,
    tabindex: Option<TabindexMode>,
    text: string,
    tooltip: string)
  {
    predicate HasStyleName(s: string) { s in styles }

    function AddStyleName(s: string): Element { this.(styles := styles + {s}) }

    function RemoveStyleName(s: string): Element { this.(styles := styles - {s}) }

    /** Adds the style when `on`, removes it otherwise. */
    function SetStyleName(s: string, on: bool): Element
    {
      if on then AddStyleName(s) else RemoveStyleName(s)
    }

    function SetVisible(b: bool): Element { this.(visible := b) }

    function SetTabindex(m: TabindexMode): Element { this.(tabindex := Some(m)) }

    function SetText(t: string): Element { this.(text := t) }

    function SetTitle(t: string): Element { this.(tooltip := t) }
  }

  /** Element.newPFlowPanel(): no style, visible, no tab index, no text. */
  function NewFlowPanel(): Element
  {
    Element({}, true, None, "", "")
  }

  /** Element.newPButton(text). */
  function NewButton(text: string): Element
  {
    Element({}, true, None, text, "")
  }
}
