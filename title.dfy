/**
 * The text policy of updateTitle: what the trigger shows for a given
 * configuration, an empty or non-empty value, and the value's rendering.
 */
module TitlePolicy {
  import opened Configurations

  /** STRING_SPACE, written on both sides of the title separator. */
  const Space := " "

  /** The part of the text that speaks of the value: allLabel, the rendering, or nothing. */
  function SelectionText(c: Configuration, empty: bool, rendering: string): string
  {
    if empty then (if !c.titlePlaceHolder && c.selectionDisplayed then c.allLabel else "")
    else if c.selectionDisplayed then rendering
    else ""
  }

  /** The permanent prefix shown when the title is displayed outside placeholder mode. */
  function TitlePrefix(c: Configuration): string
  {
    c.title + Space + c.titleSeparator + Space
  }

  /**
   * The text shown on the main button (as label and tooltip) and on the
   * state button (as tooltip), by case: no title; a title with a permanent
   * prefix; a placeholder title shown while the value is empty; a
   * placeholder title replaced by the selection once there is one.
   */
  function TitleText(c: Configuration, empty: bool, rendering: string): string
  {
    if !c.titleDisplayed then SelectionText(c, empty, rendering)
    else if !c.titlePlaceHolder then TitlePrefix(c) + SelectionText(c, empty, rendering)
    else if empty then c.title
    else SelectionText(c, empty, rendering)
  }

  /** Placeholder mode, empty value: the text is exactly the title. */
  lemma PlaceholderShowsTitle(c: Configuration, rendering: string)
    requires c.titleDisplayed && c.titlePlaceHolder
    ensures TitleText(c, true, rendering) == c.title
  {
  }

  /** Placeholder mode, a value: the title is gone and the rendering, if displayed, replaces it. */
  lemma PlaceholderGivesWayToSelection(c: Configuration, rendering: string)
    requires c.titleDisplayed && c.titlePlaceHolder
    ensures TitleText(c, false, rendering) == if c.selectionDisplayed then rendering else ""
  {
  }

  /** Outside placeholder mode a displayed title is a prefix "title separator " of every text. */
  lemma TitleIsPrefix(c: Configuration, empty: bool, rendering: string)
    requires c.titleDisplayed && !c.titlePlaceHolder
    ensures var t := TitleText(c, empty, rendering);
      |t| >= |c.title| + |c.titleSeparator| + 2 &&
      t[..|c.title|] == c.title &&
      t[|c.title|..|c.title| + |c.titleSeparator| + 2] == Space + c.titleSeparator + Space
  {
    var t := TitleText(c, empty, rendering);
    assert t == c.title + (Space + c.titleSeparator + Space) + SelectionText(c, empty, rendering);
  }

  /** A non-empty value without selection display shows only what the title mode shows. */
  lemma SelectionHidden(c: Configuration, rendering: string)
    requires !c.selectionDisplayed
    ensures TitleText(c, false, rendering) ==
      if c.titleDisplayed && !c.titlePlaceHolder then TitlePrefix(c) else ""
  {
  }

  /**
   * allLabel is shown exactly when the value is empty, placeholder mode is
   * off and the selection is displayed: then the text ends with it, and in
   * every other case changing allLabel changes nothing.
   */
  lemma AllLabelOnlyForEmptySelection(c: Configuration, empty: bool, rendering: string, other: string)
    ensures empty && !c.titlePlaceHolder && c.selectionDisplayed ==>
      TitleText(c, empty, rendering) == (if c.titleDisplayed then TitlePrefix(c) else "") + c.allLabel
    ensures !(empty && !c.titlePlaceHolder && c.selectionDisplayed) ==>
      TitleText(c.(allLabel := other), empty, rendering) == TitleText(c, empty, rendering)
  {
  }

  /**
   * The placeholder flag changes the text even when the title is not
   * displayed: with an empty value, allLabel is dropped in placeholder mode.
   */
  lemma PlaceholderMattersWithoutTitle(c: Configuration, rendering: string)
    requires !c.titleDisplayed && c.selectionDisplayed && c.allLabel != ""
    ensures TitleText(c.(titlePlaceHolder := false), true, rendering) == c.allLabel
    ensures TitleText(c.(titlePlaceHolder := true), true, rendering) == ""
  {
  }

  /** A placeholder title "Pick one" over an empty value shows "Pick one". */
  lemma ScenarioPlaceholderEmpty(c: Configuration, rendering: string)
    requires c.titleDisplayed && c.titlePlaceHolder && c.title == "Pick one"
    ensures TitleText(c, true, rendering) == "Pick one"
  {
  }

  /** Title "Filter", separator ":", allLabel "All", empty value: "Filter : All". */
  lemma ScenarioPrefixAll(c: Configuration, rendering: string)
    requires c.titleDisplayed && !c.titlePlaceHolder && c.selectionDisplayed
    requires c.title == "Filter" && c.titleSeparator == ":" && c.allLabel == "All"
    ensures TitleText(c, true, rendering) == "Filter : All"
  {
  }
}
