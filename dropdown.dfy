/**
 * DropDownContainer: the shell shared by every drop-down control. It owns a
 * host panel with a main button, a state button and an optional clear
 * button (the trigger), and a popup that holds the default content and,
 * optionally, a custom one. It is built lazily on the first asWidget call,
 * runs an open/closed state machine that is refused while disabled,
 * recomputes the trigger's title from the value, and delivers open, close,
 * value-change and clear-click notifications to sets of handlers.
 *
 * The host panel, the buttons and the popup are created by the container.
 * asWidget hands the host panel to its caller, and the popup keeps a
 * reference to it; the model keeps the observable state of these parts, and
 * copies of the custom and default contents, as values in its fields, so a
 * change made through another reference is not captured. What a subclass supplies
 * (isValueEmpty, the rendering appended by appendDisplayValue, the widget
 * built by createDefaultContainer, isContainerFocusable) is fixed at
 * construction; the value that getValue/setValue read and write is the
 * field `value`, where None stands for null.
 */
module DropDown {
  import opened Options
  import opened Widgets
  import opened Configurations
  import opened Events
  import TitlePolicy

  const StyleContainerButtonPlaceholder := "dd-container-button-placeholder"
  const StyleContainerSelected := "dd-container-selected"
  const StyleContainerWidget := "dd-container-widget"
  const StyleContainerDisabled := "dd-container-disabled"
  const StyleContainerButton := "dd-container-button"
  const StyleContainerState := "dd-container-state"
  const StyleContainerClear := "dd-container-clear"
  const StyleContainerClearDisabled := "dd-container-clear-disabled"
  const StyleContainerOpened := "dd-container-opened"
  const StyleContainerWidgetOpened := "dd-container-widget-opened"
  const StyleContainerAddon := "dd-container-addon"
  const StyleContainerCustom := "dd-container-custom"
  const StyleContainerDefault := "dd-container-default"

  /** The one error of the component: IllegalArgumentException from setCustomContainer. */
  datatype Outcome = Pass | IllegalArgument(message: string)

  /** The parts of the shell that updateTitle writes: host panel and the three buttons. */
  datatype Trigger = Trigger(host: Element, main: Option<Element>, state: Option<Element>, clear: Option<Element>)

  class DropDownContainer<V> {
    const config: Configuration
    /** isValueEmpty(value), for a non-null value. */
    const isValueEmpty: V -> bool
    /** What appendDisplayValue appends for a non-null value (its toString by default). */
    const displayValue: V -> string
    /** The widget createDefaultContainer() builds. */
    const defaultContainer: Element
    /** isContainerFocusable(); false unless a subclass overrides it. */
    const containerFocusable: bool

    var value: Option<V>
    var initialized: bool
    var focused: bool
    var customContainer: Option<Element>
    /** The host panel asWidget returns. */
    var widget: Element
    /** The popup (DropDownContainerAddon) and what has been added to it. */
    var container: Element
    var containerContents: seq<Element>
    /** Set once a destroy listener has removed the popup from its parent. */
    var containerDetached: bool
    var mainButton: Option<Element>
    var stateButton: Option<Element>
    var clearTitleButton: Option<Element>
    var valueChangeHandlers: set<HandlerId>
    var closeHandlers: set<HandlerId>
    var openHandlers: set<HandlerId>
    var listeners: set<HandlerId>
    /** Every handler call made so far, in the order made. */
    var log: seq<Notice<V>>
    /** How many destroy listeners asWidget has registered on the host. */
    var destroyListeners: nat
    /** Whether the deferred "update the title on first materialisation" listener is registered. */
    var initializeListener: bool

    /** The buttons exist exactly once the container is initialized; the clear button only if configured. */
    ghost predicate Valid()
      reads this
    {
      && (initialized <==> mainButton.Some?)
      && (initialized <==> stateButton.Some?)
      && (clearTitleButton.Some? <==> initialized && config.clearTitleButtonEnabled)
      && (initializeListener ==> initialized && !config.eventOnlyEnabled)
    }

    ghost function Trig(): Trigger
      reads this
    {
      Trigger(widget, mainButton, stateButton, clearTitleButton)
    }

    constructor (config: Configuration, isValueEmpty: V -> bool, displayValue: V -> string,
                 defaultContainer: Element, containerFocusable: bool, value: Option<V>)
      ensures Valid() && !initialized && !focused && !IsOpen() && IsEnabled()
      ensures this.config == config && this.isValueEmpty == isValueEmpty && this.displayValue == displayValue
      ensures this.defaultContainer == defaultContainer && this.containerFocusable == containerFocusable
      ensures this.value == value && customContainer == None
      ensures widget == NewFlowPanel().AddStyleName(StyleContainerWidget)
      ensures container == NewFlowPanel().AddStyleName(StyleContainerAddon).SetVisible(false)
      ensures containerContents == [] && !containerDetached
      ensures valueChangeHandlers == closeHandlers == openHandlers == listeners == {}
      ensures log == [] && destroyListeners == 0 && !initializeListener
    {
      this.config := config;
      this.isValueEmpty := isValueEmpty;
      this.displayValue := displayValue;
      this.defaultContainer := defaultContainer;
      this.containerFocusable := containerFocusable;
      this.value := value;
      initialized := false;
      focused := false;
      customContainer := None;
      valueChangeHandlers, closeHandlers, openHandlers, listeners := {}, {}, {}, {};
      widget := NewFlowPanel().AddStyleName(StyleContainerWidget);
      container := NewFlowPanel().AddStyleName(StyleContainerAddon).SetVisible(false);
      containerContents := [];
      containerDetached := false;
      mainButton, stateButton, clearTitleButton := None, None, None;
      log := [];
      destroyListeners := 0;
      initializeListener := false;
    }

    // ---------------------------------------------------------------- queries

    /** isOpen(): the host carries the opened style. */
    predicate IsOpen()
      reads this
    {
      widget.HasStyleName(StyleContainerOpened)
    }

    /** isEnabled(): the host does not carry the disabled style. */
    predicate IsEnabled()
      reads this
    {
      !widget.HasStyleName(StyleContainerDisabled)
    }

    /** The value is null, or the subclass calls it empty. */
    predicate Empty(v: Option<V>)
    {
      v.None? || isValueEmpty(v.value)
    }

    /** What appendDisplayValue would append; only used for a non-null value. */
    function Rendering(v: Option<V>): string
    {
      if v.Some? then displayValue(v.value) else ""
    }

    // ---------------------------------------------------------- lazy set-up

    /** The main button as asWidget builds it. */
    function InitialMainButton(): Element
    {
      var b := NewButton(config.title).AddStyleName(StyleContainerButton).SetTabindex(Focusable);
      if config.titleDisplayed && config.titlePlaceHolder
      then b.AddStyleName(StyleContainerButtonPlaceholder) else b
    }

    /** asWidget(): the set-up runs only while not initialized; a destroy listener is added on every call. */
    method AsWidget() returns (w: Element)
      requires Valid()
      modifies this`initialized, this`widget, this`mainButton, this`stateButton, this`clearTitleButton
      modifies this`initializeListener, this`customContainer, this`containerContents, this`destroyListeners
      ensures Valid() && initialized && w == widget
      ensures destroyListeners == old(destroyListeners) + 1
      ensures old(initialized) ==> unchanged(this`widget, this`mainButton, this`stateButton, this`clearTitleButton,
                                            this`initializeListener, this`customContainer, this`containerContents)
      ensures !old(initialized) ==> SetUp()
    {
      if !initialized {
        Initialize();
      }
      destroyListeners := destroyListeners + 1;
      w := widget;
    }

    /**
     * What the one-time set-up does: the host becomes a tab stop (and is
     * marked "clear disabled" without a clear button), the buttons are
     * built, the deferred title listener is registered unless in event-only
     * mode, and the custom content (tagged) and the default content
     * (tagged) are added to the popup.
     */
    twostate predicate SetUp()
      reads this
    {
      && widget == (if config.clearTitleButtonEnabled then old(widget)
           else old(widget).AddStyleName(StyleContainerClearDisabled)).SetTabindex(Tabulable)
      && mainButton == Some(InitialMainButton())
      && stateButton == Some(NewButton("").AddStyleName(StyleContainerState).SetTabindex(Focusable))
      && clearTitleButton == (if config.clearTitleButtonEnabled
           then Some(NewButton("").AddStyleName(StyleContainerClear).SetTitle(config.clearLabel).SetVisible(false))
           else None)
      && initializeListener == !config.eventOnlyEnabled
      && customContainer == (if old(customContainer).Some?
           then Some(old(customContainer).value.AddStyleName(StyleContainerCustom)) else None)
      && containerContents == old(containerContents)
           + (if old(customContainer).Some? then [customContainer.value] else [])
           + [defaultContainer.AddStyleName(StyleContainerDefault)]
    }

    /** The set-up block of asWidget, run while not initialized; ends by marking the container initialized. */
    method Initialize()
      requires Valid() && !initialized
      modifies this`initialized, this`widget, this`mainButton, this`stateButton, this`clearTitleButton
      modifies this`initializeListener, this`customContainer, this`containerContents
      ensures Valid() && initialized
      ensures SetUp()
    {
      widget := widget.SetTabindex(Tabulable);
      // The focus, blur and key-up handlers are wired here: see OnFocusEvent, OnBlurEvent, OnKeyUp.
      mainButton := Some(InitialMainButton());
      stateButton := Some(NewButton("").AddStyleName(StyleContainerState).SetTabindex(Focusable));
      if config.clearTitleButtonEnabled {
        // Its click handler is OnClearClick.
        clearTitleButton := Some(NewButton("").AddStyleName(StyleContainerClear).SetTitle(config.clearLabel));
        SetClearTitleButtonVisible(false);
      } else {
        widget := widget.AddStyleName(StyleContainerClearDisabled);
      }
      if !config.eventOnlyEnabled {
        initializeListener := true;
      }
      if customContainer.Some? {
        var custom := customContainer.value.AddStyleName(StyleContainerCustom);
        containerContents := containerContents + [custom];
        customContainer := Some(custom);
      }
      containerContents := containerContents + [defaultContainer.AddStyleName(StyleContainerDefault)];
      // The main- and state-button clicks and the popup's close request are wired here:
      // see OnTriggerClick and OnCloseRequest.
      initialized := true;
    }

    /** setCustomContainer(c): refused once initialized; otherwise stores `c` and nothing else. */
    method SetCustomContainer(c: Option<Element>) returns (r: Outcome)
      modifies this`customContainer
      ensures r.IllegalArgument? <==> initialized
      ensures r.IllegalArgument? ==> customContainer == old(customContainer)
      ensures r.Pass? ==> customContainer == c
    {
      if initialized {
        return IllegalArgument("Must be set before asWidget call");
      }
      customContainer := c;
      r := Pass;
    }

    /** The deferred initialize listener: on first materialisation, show the title of the current value. */
    method OnInitialize()
      requires Valid()
      modifies this`widget, this`mainButton, this`stateButton, this`clearTitleButton
      ensures Valid()
      ensures !initializeListener ==> unchanged(this)
      ensures initializeListener ==> Trig() == Titled(old(Trig()), value) && Shows(Trig(), value)
    {
      if initializeListener {
        UpdateTitle(value);
      }
    }

    // -------------------------------------------------------------- teardown

    /** One destroy listener: detach the popup and clear all four registries. */
    method Teardown()
      modifies this`containerDetached, this`valueChangeHandlers, this`closeHandlers, this`openHandlers, this`listeners
      ensures Destroyed()
    {
      containerDetached := true;
      valueChangeHandlers := {};
      closeHandlers := {};
      openHandlers := {};
      listeners := {};
    }

    ghost predicate Destroyed()
      reads this
    {
      containerDetached && valueChangeHandlers == {} && closeHandlers == {} && openHandlers == {} && listeners == {}
    }

    /**
     * The host is destroyed: every registered destroy listener runs. However
     * many asWidget registered, the effect is that of a single teardown.
     */
    method OnDestroy()
      modifies this`containerDetached, this`valueChangeHandlers, this`closeHandlers, this`openHandlers, this`listeners
      ensures destroyListeners == 0 ==> unchanged(this)
      ensures destroyListeners > 0 ==> Destroyed()
    {
      var i := 0;
      while i < destroyListeners
        invariant i <= destroyListeners
        invariant i == 0 ==> unchanged(this)
        invariant i > 0 ==> Destroyed()
      {
        Teardown();
        i := i + 1;
      }
    }

    // ------------------------------------------------------------- registries

    method AddValueChangeHandler(h: HandlerId)
      modifies this`valueChangeHandlers
      ensures valueChangeHandlers == old(valueChangeHandlers) + {h}
    {
      valueChangeHandlers := valueChangeHandlers + {h};
    }

    method RemoveValueChangeHandler(h: HandlerId)
      modifies this`valueChangeHandlers
      ensures valueChangeHandlers == old(valueChangeHandlers) - {h}
      ensures h !in old(valueChangeHandlers) ==> valueChangeHandlers == old(valueChangeHandlers)
    {
      valueChangeHandlers := valueChangeHandlers - {h};
    }

    method AddCloseHandler(h: HandlerId)
      modifies this`closeHandlers
      ensures closeHandlers == old(closeHandlers) + {h}
    {
      closeHandlers := closeHandlers + {h};
    }

    method RemoveCloseHandler(h: HandlerId)
      modifies this`closeHandlers
      ensures closeHandlers == old(closeHandlers) - {h}
      ensures h !in old(closeHandlers) ==> closeHandlers == old(closeHandlers)
    {
      closeHandlers := closeHandlers - {h};
    }

    method AddOpenHandler(h: HandlerId)
      modifies this`openHandlers
      ensures openHandlers == old(openHandlers) + {h}
    {
      openHandlers := openHandlers + {h};
    }

    method RemoveOpenHandler(h: HandlerId)
      modifies this`openHandlers
      ensures openHandlers == old(openHandlers) - {h}
      ensures h !in old(openHandlers) ==> openHandlers == old(openHandlers)
    {
      openHandlers := openHandlers - {h};
    }

    method AddListener(h: HandlerId)
      modifies this`listeners
      ensures listeners == old(listeners) + {h}
    {
      listeners := listeners + {h};
    }

    method RemoveListener(h: HandlerId)
      modifies this`listeners
      ensures listeners == old(listeners) - {h}
      ensures h !in old(listeners) ==> listeners == old(listeners)
    {
      listeners := listeners - {h};
    }

    /** The calls made since `before` deliver `e` to each handler of `hs` exactly once. */
    ghost predicate FiredSince(before: seq<Notice<V>>, hs: set<HandlerId>, e: Event<V>)
      reads this
    {
      && |log| == |before| + |hs|
      && log[..|before|] == before
      && NotifiesEachOnce(log[|before|..], hs, e)
    }

    /** Deliver `e` to every handler of `hs`. */
    method Fire(hs: set<HandlerId>, e: Event<V>)
      modifies this`log
      ensures FiredSince(old(log), hs, e)
    {
      var batch := Dispatch(hs, e);
      NotifiedCount(batch, hs, e);
      log := log + batch;
    }

    // ------------------------------------------------------------------ title

    /** The trigger after the title of `v` has been applied to it. */
    function Titled(t: Trigger, v: Option<V>): Trigger
    {
      var empty := Empty(v);
      var text := TitlePolicy.TitleText(config, empty, Rendering(v));
      var placeholder := config.titleDisplayed && config.titlePlaceHolder;
      Trigger(
        t.host.SetStyleName(StyleContainerSelected, !empty),
        if t.main.Some? then
          Some((if placeholder then t.main.value.SetStyleName(StyleContainerButtonPlaceholder, empty)
                else t.main.value).SetText(text).SetTitle(text))
        else None,
        if t.state.Some? then Some(t.state.value.SetTitle(text)) else None,
        if t.clear.Some? then Some(t.clear.value.SetVisible(!empty)) else None)
    }

    /**
     * The trigger shows `v`: one text on the main button (label and tooltip)
     * and on the state button (tooltip); the selected style exactly when
     * there is a value; the clear button visible exactly when there is a
     * value; in placeholder mode, the placeholder style exactly when there
     * is none.
     */
    ghost predicate Shows(t: Trigger, v: Option<V>)
    {
      var text := TitlePolicy.TitleText(config, Empty(v), Rendering(v));
      && t.main.Some? && t.state.Some?
      && t.main.value.text == text && t.main.value.tooltip == text && t.state.value.tooltip == text
      && (t.host.HasStyleName(StyleContainerSelected) <==> !Empty(v))
      && (t.clear.Some? ==> (t.clear.value.visible <==> !Empty(v)))
      && (config.titleDisplayed && config.titlePlaceHolder ==>
            (t.main.value.HasStyleName(StyleContainerButtonPlaceholder) <==> Empty(v)))
    }

    lemma TitledShows(t: Trigger, v: Option<V>)
      requires t.main.Some? && t.state.Some?
      ensures Shows(Titled(t, v), v)
    {
    }

    /** Applying a title the trigger already shows changes nothing. */
    lemma ShownIsFixpoint(t: Trigger, v: Option<V>)
      requires Shows(t, v)
      ensures Titled(t, v) == t
    {
      if config.titleDisplayed && config.titlePlaceHolder {
        assert t.main.value.SetStyleName(StyleContainerButtonPlaceholder, Empty(v)).styles == t.main.value.styles;
      }
    }

    /** updateTitle(v) twice leaves the state of one call. */
    lemma TitledIdempotent(t: Trigger, v: Option<V>)
      requires t.main.Some? && t.state.Some?
      ensures Titled(Titled(t, v), v) == Titled(t, v)
    {
      TitledShows(t, v);
      ShownIsFixpoint(Titled(t, v), v);
    }

    /**
     * updateTitle(v): nothing before initialization or in event-only mode;
     * otherwise the trigger shows `v`, and a trigger that already showed it
     * is left as it was.
     */
    method UpdateTitle(v: Option<V>)
      requires Valid()
      modifies this`widget, this`mainButton, this`stateButton, this`clearTitleButton
      ensures Valid()
      ensures !initialized || config.eventOnlyEnabled ==> unchanged(this)
      ensures initialized && !config.eventOnlyEnabled ==> Trig() == Titled(old(Trig()), v) && Shows(Trig(), v)
      ensures old(Shows(Trig(), v)) ==> unchanged(this)
    {
      if !initialized {
        return;
      }
      if config.eventOnlyEnabled {
        return;
      }
      ghost var before := Trig();
      var main := mainButton.value;
      var text := "";
      if config.titleDisplayed {
        if config.titlePlaceHolder {
          if Empty(v) {
            main := main.AddStyleName(StyleContainerButtonPlaceholder);
            text := text + config.title;
          } else {
            main := main.RemoveStyleName(StyleContainerButtonPlaceholder);
          }
        } else {
          text := text + config.title;
          text := text + TitlePolicy.Space;
          text := text + config.titleSeparator;
          text := text + TitlePolicy.Space;
        }
      }
      if Empty(v) {
        if !config.titlePlaceHolder && config.selectionDisplayed {
          text := text + config.allLabel;
        }
        assert text == TitlePolicy.TitleText(config, Empty(v), Rendering(v));
        mainButton := Some(main.SetText(text).SetTitle(text));
        stateButton := Some(stateButton.value.SetTitle(text));
        widget := widget.RemoveStyleName(StyleContainerSelected);
      } else {
        if config.selectionDisplayed {
          // appendDisplayValue(text, value)
          text := text + displayValue(v.value);
        }
        assert text == TitlePolicy.TitleText(config, Empty(v), Rendering(v));
        mainButton := Some(main.SetText(text).SetTitle(text));
        stateButton := Some(stateButton.value.SetTitle(text));
        widget := widget.AddStyleName(StyleContainerSelected);
      }
      SetClearTitleButtonVisible(!Empty(v));
      TitledShows(before, v);
      if Shows(before, v) {
        ShownIsFixpoint(before, v);
      }
    }

    /** forceUpdateTitle(): updateTitle(getValue()). */
    method ForceUpdateTitle()
      requires Valid()
      modifies this`widget, this`mainButton, this`stateButton, this`clearTitleButton
      ensures Valid()
      ensures !initialized || config.eventOnlyEnabled ==> unchanged(this)
      ensures initialized && !config.eventOnlyEnabled ==> Trig() == Titled(old(Trig()), value) && Shows(Trig(), value)
    {
      UpdateTitle(value);
    }

    /** setClearTitleButtonVisible(b): only when the clear button exists. */
    method SetClearTitleButtonVisible(b: bool)
      modifies this`clearTitleButton
      ensures clearTitleButton == if old(clearTitleButton).Some? then Some(old(clearTitleButton).value.SetVisible(b)) else None
    {
      if clearTitleButton.Some? {
        clearTitleButton := Some(clearTitleButton.value.SetVisible(b));
      }
    }

    // --------------------------------------------------------- state machine

    /**
     * The effect of setContainerVisible(visible). Disabled, or already in
     * the requested state: nothing. Opening: opened styles on host and
     * popup, popup shown, one OpenEvent per open handler. Closing: both
     * styles removed, popup hidden, the title recomputed from the value,
     * one CloseEvent per close handler.
     */
    twostate predicate Transition(visible: bool)
      reads this
    {
      && (!old(IsEnabled()) || visible == old(IsOpen()) ==> ShellUnchanged())
      && (old(IsEnabled()) && visible && !old(IsOpen()) ==>
            && widget == old(widget).AddStyleName(StyleContainerOpened)
            && container == old(container).AddStyleName(StyleContainerWidgetOpened).SetVisible(true)
            && mainButton == old(mainButton) && stateButton == old(stateButton)
            && clearTitleButton == old(clearTitleButton)
            && FiredSince(old(log), openHandlers, OpenEvent)
            && IsOpen())
      && (old(IsEnabled()) && !visible && old(IsOpen()) ==>
            && container == old(container).RemoveStyleName(StyleContainerWidgetOpened).SetVisible(false)
            && (var closed := old(Trig()).(host := old(widget).RemoveStyleName(StyleContainerOpened));
                Trig() == if initialized && !config.eventOnlyEnabled then Titled(closed, value) else closed)
            && FiredSince(old(log), closeHandlers, CloseEvent)
            && !IsOpen())
    }

    /** Nothing that setContainerVisible may write has changed. */
    twostate predicate ShellUnchanged()
      reads this
    {
      unchanged(this`widget, this`container, this`mainButton, this`stateButton, this`clearTitleButton, this`log)
    }

    /** setContainerVisible(visible); the no-op hooks around it are left out. */
    method SetContainerVisible(visible: bool)
      requires Valid()
      modifies this`widget, this`container, this`mainButton, this`stateButton, this`clearTitleButton, this`log
      ensures Valid()
      ensures Transition(visible)
    {
      if !IsEnabled() {
        return;
      }
      if visible && !IsOpen() {
        widget := widget.AddStyleName(StyleContainerOpened);
        container := container.AddStyleName(StyleContainerWidgetOpened);
        container := container.SetVisible(true);
        Fire(openHandlers, OpenEvent);
      } else if !visible && IsOpen() {
        widget := widget.RemoveStyleName(StyleContainerOpened);
        container := container.RemoveStyleName(StyleContainerWidgetOpened);
        container := container.SetVisible(false);
        UpdateTitle(value);
        Fire(closeHandlers, CloseEvent);
      }
    }

    method Open()
      requires Valid()
      modifies this`widget, this`container, this`mainButton, this`stateButton, this`clearTitleButton, this`log
      ensures Valid()
      ensures Transition(true)
      ensures IsOpen() <==> old(IsOpen()) || old(IsEnabled())
    {
      SetContainerVisible(true);
    }

    method Close()
      requires Valid()
      modifies this`widget, this`container, this`mainButton, this`stateButton, this`clearTitleButton, this`log
      ensures Valid()
      ensures Transition(false)
      ensures IsOpen() <==> old(IsOpen()) && !old(IsEnabled())
    {
      SetContainerVisible(false);
    }

    /** setEnabled(b): the disabled style and the host's tab-index mode follow `b`. */
    method SetEnabled(b: bool)
      modifies this`widget
      ensures IsEnabled() == b
      ensures widget == (if b then old(widget).RemoveStyleName(StyleContainerDisabled).SetTabindex(Tabulable)
                         else old(widget).AddStyleName(StyleContainerDisabled).SetTabindex(Focusable))
    {
      if b {
        widget := widget.RemoveStyleName(StyleContainerDisabled);
        widget := widget.SetTabindex(Tabulable);
      } else {
        widget := widget.AddStyleName(StyleContainerDisabled);
        widget := widget.SetTabindex(Focusable);
      }
    }

    method AddStyleName(s: string)
      modifies this`widget
      ensures widget == old(widget).AddStyleName(s)
    {
      widget := widget.AddStyleName(s);
    }

    method RemoveStyleName(s: string)
      modifies this`widget
      ensures widget == old(widget).RemoveStyleName(s)
    {
      widget := widget.RemoveStyleName(s);
    }

    method AddContainerStyleName(s: string)
      modifies this`container
      ensures container == old(container).AddStyleName(s)
    {
      container := container.AddStyleName(s);
    }

    // ------------------------------------------------- handlers wired at set-up

    /** The focus handler: focused := true (the onFocus hook does nothing by default). */
    method OnFocusEvent()
      modifies this`focused
      ensures focused == (old(focused) || initialized)
    {
      if initialized {
        focused := true;
      }
    }

    /** onBlur(): move focus into an open, focusable popup (a no-op hook here), otherwise close. */
    method OnBlur()
      requires Valid()
      modifies this`widget, this`container, this`mainButton, this`stateButton, this`clearTitleButton, this`log
      ensures Valid()
      ensures old(IsOpen()) && containerFocusable ==> unchanged(this)
      ensures !(old(IsOpen()) && containerFocusable) ==> Transition(false)
    {
      if IsOpen() && containerFocusable {
        // focusContainer()
      } else {
        Close();
      }
    }

    /** The blur handler: focused := false, then onBlur(). */
    method OnBlurEvent()
      requires Valid()
      modifies this`focused, this`widget, this`container, this`mainButton, this`stateButton, this`clearTitleButton, this`log
      ensures Valid()
      ensures !old(initialized) ==> unchanged(this)
      ensures old(initialized) ==> !focused
      ensures old(initialized) && old(IsOpen()) && containerFocusable ==> ShellUnchanged()
      ensures old(initialized) && !(old(IsOpen()) && containerFocusable) ==> Transition(false)
    {
      if initialized {
        focused := false;
        OnBlur();
      }
    }

    /** The key-up handler: Enter toggles the popup while focused; Escape closes whatever the focus. */
    method OnKeyUp(key: KeyCode)
      requires Valid()
      modifies this`widget, this`container, this`mainButton, this`stateButton, this`clearTitleButton, this`log
      ensures Valid()
      ensures !initialized ==> unchanged(this)
      ensures initialized && focused && key == Enter ==> Transition(!old(container.visible))
      ensures initialized && !(focused && key == Enter) && key == Escape ==> Transition(false)
      ensures initialized && !(focused && key == Enter) && key != Escape ==> unchanged(this)
    {
      if initialized {
        if focused && key == Enter {
          SetContainerVisible(!container.visible);
        } else if key == Escape {
          Close();
        }
      }
    }

    /** The click handler of the main and state buttons: toggle the popup. */
    method OnTriggerClick()
      requires Valid()
      modifies this`widget, this`container, this`mainButton, this`stateButton, this`clearTitleButton, this`log
      ensures Valid()
      ensures !initialized ==> unchanged(this)
      ensures initialized ==> Transition(!old(container.visible))
    {
      if initialized {
        SetContainerVisible(!container.visible);
      }
    }

    /** The popup's close request (an interaction outside it): force-close. */
    method OnCloseRequest()
      requires Valid()
      modifies this`widget, this`container, this`mainButton, this`stateButton, this`clearTitleButton, this`log
      ensures Valid()
      ensures !initialized ==> unchanged(this)
      ensures initialized ==> Transition(false)
    {
      if initialized {
        SetContainerVisible(false);
      }
    }

    /** onValueChange(v): one value-change event carrying `v` per value-change handler. */
    method OnValueChangeWith(v: Option<V>)
      modifies this`log
      ensures FiredSince(old(log), valueChangeHandlers, ValueChangeEvent(v))
    {
      Fire(valueChangeHandlers, ValueChangeEvent(v));
    }

    /** onValueChange(): onValueChange(getValue()). */
    method OnValueChange()
      modifies this`log
      ensures FiredSince(old(log), valueChangeHandlers, ValueChangeEvent(value))
    {
      OnValueChangeWith(value);
    }

    /**
     * The clear button's click handler, present only when the clear button
     * is: while enabled, setValue(null), one onClearTitleClicked call per
     * listener, then one value-change event (carrying the new, null value)
     * per value-change handler. While disabled: nothing.
     */
    method OnClearClick()
      requires Valid()
      modifies this`value, this`log
      ensures Valid()
      ensures clearTitleButton.None? || !IsEnabled() ==> unchanged(this)
      ensures clearTitleButton.Some? && IsEnabled() ==>
        && value == None
        && |log| == |old(log)| + |listeners| + |valueChangeHandlers|
        && log[..|old(log)|] == old(log)
        && NotifiesEachOnce(log[|old(log)|..|old(log)| + |listeners|], listeners, ClearTitleClicked)
        && NotifiesEachOnce(log[|old(log)| + |listeners|..], valueChangeHandlers, ValueChangeEvent(None))
    {
      if clearTitleButton.Some? && IsEnabled() {
        value := None;
        Fire(listeners, ClearTitleClicked);
        OnValueChange();
      }
    }
  }

  /**
   * The round trip of the state machine: on an enabled, closed container
   * whose hidden popup does not carry the widget-opened style and whose
   * trigger already shows the value, open() then close() restores the host,
   * the buttons and the popup exactly, keeps the earlier log, and adds one
   * OpenEvent per open handler followed by one CloseEvent per close handler.
   */
  method OpenThenClose<V>(d: DropDownContainer<V>)
    requires d.Valid() && d.IsEnabled() && !d.IsOpen()
    requires !d.container.visible && !d.container.HasStyleName(StyleContainerWidgetOpened)
    requires d.initialized && !d.config.eventOnlyEnabled ==> d.Shows(d.Trig(), d.value)
    modifies d`widget, d`container, d`mainButton, d`stateButton, d`clearTitleButton, d`log
    ensures d.Trig() == old(d.Trig()) && d.container == old(d.container)
    ensures |d.log| == |old(d.log)| + |d.openHandlers| + |d.closeHandlers|
    ensures d.log[..|old(d.log)|] == old(d.log)
    ensures NotifiesEachOnce(d.log[|old(d.log)|..|old(d.log)| + |d.openHandlers|], d.openHandlers, OpenEvent)
    ensures NotifiesEachOnce(d.log[|old(d.log)| + |d.openHandlers|..], d.closeHandlers, CloseEvent)
  {
    ghost var t0 := d.Trig();
    d.Open();
    d.Close();
    if d.initialized && !d.config.eventOnlyEnabled {
      d.ShownIsFixpoint(t0, d.value);
    }
  }

  /**
   * The other half of the round trip: on an enabled, open container whose
   * visible popup carries the widget-opened style and whose trigger already
   * shows the value, close() then open() restores the host, the buttons and
   * the popup exactly, keeps the earlier log, and adds one CloseEvent per
   * close handler followed by one OpenEvent per open handler.
   */
  method CloseThenOpen<V>(d: DropDownContainer<V>)
    requires d.Valid() && d.IsEnabled() && d.IsOpen()
    requires d.container.visible && d.container.HasStyleName(StyleContainerWidgetOpened)
    requires d.initialized && !d.config.eventOnlyEnabled ==> d.Shows(d.Trig(), d.value)
    modifies d`widget, d`container, d`mainButton, d`stateButton, d`clearTitleButton, d`log
    ensures d.Trig() == old(d.Trig()) && d.container == old(d.container)
    ensures |d.log| == |old(d.log)| + |d.closeHandlers| + |d.openHandlers|
    ensures d.log[..|old(d.log)|] == old(d.log)
    ensures NotifiesEachOnce(d.log[|old(d.log)|..|old(d.log)| + |d.closeHandlers|], d.closeHandlers, CloseEvent)
    ensures NotifiesEachOnce(d.log[|old(d.log)| + |d.closeHandlers|..], d.openHandlers, OpenEvent)
  {
    ghost var t0 := d.Trig();
    if d.initialized && !d.config.eventOnlyEnabled {
      d.ShownIsFixpoint(t0.(host := t0.host.RemoveStyleName(StyleContainerOpened)), d.value);
    }
    d.Close();
    d.Open();
  }
}
