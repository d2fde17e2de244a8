# DropDownContainer, modelled in Dafny

This project models `DropDownContainer`, the PonySDK base class that every
drop-down control builds on. The control has a trigger: a host panel holding a
main button, a state button and an optional clear button. It also has a popup
(`DropDownContainerAddon`) that holds the subclass's default content and an
optional custom content. The model covers four parts of the class:

- the lazy one-shot set-up done by `asWidget`, and the `setCustomContainer` guard;
- the open/closed state machine (`setContainerVisible`, `open`, `close`, the
  key-up, blur, click and close-request handlers). The machine is refused while
  the container is disabled, and a transition happens only if it changes state;
- the title policy of `updateTitle`: which text the trigger shows, and which
  styles and clear-button visibility go with it;
- enabling and disabling, and the four handler registries (value-change, open,
  close, clear listeners) with the notifications delivered to them.

Files and modules:

- `options.dfy` (`Options`): `Option`, standing for a Java reference that may be null.
- `widgets.dfy` (`Widgets`): the observable state of a widget primitive. This is
  its style names, visibility, tab-index mode, text and tooltip (`setTitle`).
  The module also has the key codes the key-up handler tests.
- `configuration.dfy` (`Configurations`): the configuration record.
- `events.dfy` (`Events`): the events and the delivery of one event to a
  handler set. A delivery is one call per registered handler, in the set's order.
- `title.dfy` (`TitlePolicy`): `TitleText`, a case-by-case definition of the
  text `updateTitle` shows, and lemmas about it.
- `dropdown.dfy` (`DropDown`): the class `DropDownContainer<V>`.

The container creates the host panel, the buttons and the popup. `asWidget`
hands the host panel to its caller, the host holds the buttons as children, and
the popup keeps a reference to the host. The model keeps the observable state of
these parts as values in the class's own fields (`widget`, `container`,
`mainButton`, `stateButton`, `clearTitleButton`), so a change made through
another reference is not captured (see "## Left out"). A null button is `None`. The custom and default contents come from outside, and the
model keeps copies of them (see "## Left out").
The class has two query predicates:

- `IsOpen()` is exactly "the host carries `dd-container-opened`";
- `IsEnabled()` is exactly "the host does not carry `dd-container-disabled`".

The subclass supplies some parts, and the model takes them as constructor
arguments:

- `isValueEmpty`, a total and deterministic function;
- the rendering that `appendDisplayValue` appends;
- the widget that `createDefaultContainer` builds;
- the answer of `isContainerFocusable`.

`getValue`/`setValue` read and write the field `value`.

`updateTitle` is specified by the function `Titled`, which says what
`updateTitle` does to the trigger, and by the predicate `Shows`, which says
when the trigger displays a value. `setContainerVisible` is specified by the
two-state predicate `Transition`. Every handler call is appended to `log`
as a `Notice(handler, event)`.

Below, "placeholder mode" means only that the `titlePlaceHolder` flag is set;
where the title must also be displayed, the text says so.

In the code, `allLabel` is dropped whenever placeholder mode is on, even when
the title is not displayed (DropDownContainer.java:315).
`TitlePolicy.PlaceholderMattersWithoutTitle` states this.

## Model

| member | source | states |
|---|---|---|
| `DropDown.DropDownContainer.constructor` | ponysdk/src/main/java/com/ponysdk/core/ui/dropdown/DropDownContainer.java:73-84 | A new container is not initialized, closed, enabled and unfocused. Its four registries are empty. The host carries `dd-container-widget` and the hidden popup carries `dd-container-addon`. |
| `DropDown.DropDownContainer.IsOpen` | ponysdk/src/main/java/com/ponysdk/core/ui/dropdown/DropDownContainer.java:229-231 | The container is open exactly when the host carries `dd-container-opened`. Every open/close contract is stated in terms of this predicate. |
| `DropDown.DropDownContainer.IsEnabled` | ponysdk/src/main/java/com/ponysdk/core/ui/dropdown/DropDownContainer.java:207-209 | The container is enabled exactly when the host does not carry `dd-container-disabled`. |
| `DropDown.DropDownContainer.Rendering` | ponysdk/src/main/java/com/ponysdk/core/ui/dropdown/DropDownContainer.java:332-334 | What `appendDisplayValue` appends for a non-null value: the subclass's rendering, by default its string form. |
| `TitlePolicy.TitleText` | ponysdk/src/main/java/com/ponysdk/core/ui/dropdown/DropDownContainer.java:298-322 | The text `updateTitle` builds, by case. Without a displayed title, it is the selection text. With the title displayed outside placeholder mode, it is "title separator " followed by the selection text. With the title displayed in placeholder mode, it is the title for an empty value, and the selection text otherwise. The selection text is allLabel for an empty value, outside placeholder mode and with selection display on. It is the rendering for a non-empty value with selection display on. It is "" otherwise. |
| `DropDown.DropDownContainer.AsWidget` | ponysdk/src/main/java/com/ponysdk/core/ui/dropdown/DropDownContainer.java:93-173 | Afterwards the container is initialized and the host widget is returned. On every call one more destroy listener is registered. On a container that was already initialized, nothing else changes, so the set-up runs once however often it is called. On a first call the state is the one `SetUp` describes. |
| `DropDown.DropDownContainer.Initialize` | ponysdk/src/main/java/com/ponysdk/core/ui/dropdown/DropDownContainer.java:94-164 | The set-up block runs only while the container is not initialized. The host becomes a tab stop, and gets `dd-container-clear-disabled` when there is no clear button. The main button gets the title, with the placeholder style when the title is displayed in placeholder mode. The state button is built. The clear button, when configured, gets the clear label as tooltip and starts hidden. The title listener is registered iff not in event-only mode. The tagged custom content, then the tagged default content, are added to the popup. The block ends with `initialized` true. |
| `DropDown.DropDownContainer.SetCustomContainer` | ponysdk/src/main/java/com/ponysdk/core/ui/dropdown/DropDownContainer.java:249-252 | Returns IllegalArgument iff the container is already initialized; the stored custom content is then unchanged. Otherwise it stores the given content. It writes nothing else. |
| `DropDown.DropDownContainer.OnInitialize` | ponysdk/src/main/java/com/ponysdk/core/ui/dropdown/DropDownContainer.java:142-146 | When the deferred listener is registered, the trigger afterwards shows the current value. Otherwise nothing changes. |
| `DropDown.DropDownContainer.Teardown` | ponysdk/src/main/java/com/ponysdk/core/ui/dropdown/DropDownContainer.java:165-171 | One destroy listener detaches the popup and clears all four handler sets. |
| `DropDown.DropDownContainer.OnDestroy` | ponysdk/src/main/java/com/ponysdk/core/ui/dropdown/DropDownContainer.java:165-171 | Running every registered destroy listener leaves the popup detached and all four sets empty, however many were registered. With none registered, nothing changes. |
| `DropDown.DropDownContainer.AddValueChangeHandler` | ponysdk/src/main/java/com/ponysdk/core/ui/dropdown/DropDownContainer.java:258-260 | Set insertion, so adding the same handler twice has the effect of adding it once. |
| `DropDown.DropDownContainer.RemoveValueChangeHandler` | ponysdk/src/main/java/com/ponysdk/core/ui/dropdown/DropDownContainer.java:262-264 | Set deletion. Removing a handler that was never added changes nothing. |
| `DropDown.DropDownContainer.AddCloseHandler` | ponysdk/src/main/java/com/ponysdk/core/ui/dropdown/DropDownContainer.java:266-268 | Set insertion into the close-handler set. |
| `DropDown.DropDownContainer.RemoveCloseHandler` | ponysdk/src/main/java/com/ponysdk/core/ui/dropdown/DropDownContainer.java:270-272 | Set deletion. An absent handler is a silent no-op. |
| `DropDown.DropDownContainer.AddOpenHandler` | ponysdk/src/main/java/com/ponysdk/core/ui/dropdown/DropDownContainer.java:274-276 | Set insertion into the open-handler set. |
| `DropDown.DropDownContainer.RemoveOpenHandler` | ponysdk/src/main/java/com/ponysdk/core/ui/dropdown/DropDownContainer.java:278-280 | Set deletion. An absent handler is a silent no-op. |
| `DropDown.DropDownContainer.AddListener` | ponysdk/src/main/java/com/ponysdk/core/ui/dropdown/DropDownContainer.java:283-285 | Set insertion into the clear-listener set. |
| `DropDown.DropDownContainer.RemoveListener` | ponysdk/src/main/java/com/ponysdk/core/ui/dropdown/DropDownContainer.java:287-289 | Set deletion. An absent listener is a silent no-op. |
| `DropDown.DropDownContainer.Fire` | ponysdk/src/main/java/com/ponysdk/core/ui/dropdown/DropDownContainer.java:386-387 | One delivery keeps the earlier log. It appends exactly one call per registered handler, and no call to anyone else. |
| `Events.Dispatch` | ponysdk/src/main/java/com/ponysdk/core/ui/dropdown/DropDownContainer.java:394-395 | Iterating over a handler set calls every handler of the set exactly once, and nothing else. The iteration order is left to the set. |
| `Events.NotifiedCount` | ponysdk/src/main/java/com/ponysdk/core/ui/dropdown/DropDownContainer.java:342-343 | A delivery to each handler exactly once makes as many calls as there are handlers. |
| `Events.NotifiesSameCalls` | ponysdk/src/main/java/com/ponysdk/core/ui/dropdown/DropDownContainer.java:68-78 | Two deliveries of one event to one handler set are the same calls, in possibly different orders. Only the HashSet's iteration order is left open. |
| `DropDown.DropDownContainer.TitledShows` | ponysdk/src/main/java/com/ponysdk/core/ui/dropdown/DropDownContainer.java:314-329 | After the title is applied, one text is on the main button (label and tooltip) and on the state button (tooltip). `dd-container-selected` is present iff the value is non-null and non-empty. The clear button is visible iff the value is non-null and non-empty. With the title displayed in placeholder mode, the placeholder style is present iff the value is empty. |
| `DropDown.DropDownContainer.ShownIsFixpoint` | ponysdk/src/main/java/com/ponysdk/core/ui/dropdown/DropDownContainer.java:295-330 | Applying the title of a value that the trigger already shows changes nothing. |
| `DropDown.DropDownContainer.TitledIdempotent` | ponysdk/src/main/java/com/ponysdk/core/ui/dropdown/DropDownContainer.java:295-330 | Applying the title of `v` twice leaves the trigger of one application. |
| `DropDown.DropDownContainer.UpdateTitle` | ponysdk/src/main/java/com/ponysdk/core/ui/dropdown/DropDownContainer.java:295-330 | Before initialization or in event-only mode, nothing changes. Otherwise the text built by successive appends equals `TitleText`. The trigger is then exactly `Titled` of the old trigger, and it shows the value. A second call with the same value changes nothing. |
| `DropDown.DropDownContainer.ForceUpdateTitle` | ponysdk/src/main/java/com/ponysdk/core/ui/dropdown/DropDownContainer.java:203-205 | The trigger afterwards shows the current value, under the same guards as `UpdateTitle`. |
| `DropDown.DropDownContainer.SetClearTitleButtonVisible` | ponysdk/src/main/java/com/ponysdk/core/ui/dropdown/DropDownContainer.java:221-223 | Sets the clear button's visibility when the button exists. Otherwise it changes nothing. |
| `DropDown.DropDownContainer.SetContainerVisible` | ponysdk/src/main/java/com/ponysdk/core/ui/dropdown/DropDownContainer.java:378-397 | While disabled, or when already in the requested state, nothing changes: no style, no popup visibility, no event. Opening adds the opened style to the host and the widget-opened style to the popup, and shows the popup. It fires one OpenEvent per open handler, and `IsOpen()` then holds. Closing removes both styles, hides the popup and recomputes the title from the value. It fires one CloseEvent per close handler, and `IsOpen()` is then false. |
| `DropDown.DropDownContainer.Open` | ponysdk/src/main/java/com/ponysdk/core/ui/dropdown/DropDownContainer.java:187-189 | Performs the opening transition. Afterwards the container is open iff it was open or is enabled. A disabled container stays as it was and fires no OpenEvent. |
| `DropDown.DropDownContainer.Close` | ponysdk/src/main/java/com/ponysdk/core/ui/dropdown/DropDownContainer.java:191-193 | Performs the closing transition. Afterwards the container is open iff it was open and is disabled. |
| `DropDown.DropDownContainer.SetEnabled` | ponysdk/src/main/java/com/ponysdk/core/ui/dropdown/DropDownContainer.java:211-219 | Afterwards `IsEnabled()` equals the argument. The host's tab index is TABULABLE when enabling and FOCUSABLE when disabling. |
| `DropDown.DropDownContainer.AddStyleName` | ponysdk/src/main/java/com/ponysdk/core/ui/dropdown/DropDownContainer.java:237-239 | Adds a style name to the host and changes nothing else. |
| `DropDown.DropDownContainer.RemoveStyleName` | ponysdk/src/main/java/com/ponysdk/core/ui/dropdown/DropDownContainer.java:241-243 | Removes a style name from the host and changes nothing else. |
| `DropDown.DropDownContainer.AddContainerStyleName` | ponysdk/src/main/java/com/ponysdk/core/ui/dropdown/DropDownContainer.java:245-247 | Adds a style name to the popup and changes nothing else. |
| `DropDown.DropDownContainer.OnFocusEvent` | ponysdk/src/main/java/com/ponysdk/core/ui/dropdown/DropDownContainer.java:97-100 | Once the handler is wired (after initialization), a focus event makes the container focused. |
| `DropDown.DropDownContainer.OnBlur` | ponysdk/src/main/java/com/ponysdk/core/ui/dropdown/DropDownContainer.java:366-372 | An open container whose popup can take the focus stays as it is. In every other case the container performs the closing transition. |
| `DropDown.DropDownContainer.OnBlurEvent` | ponysdk/src/main/java/com/ponysdk/core/ui/dropdown/DropDownContainer.java:101-104 | Once the handler is wired, a blur sets focused to false and then applies the blur policy. |
| `DropDown.DropDownContainer.OnKeyUp` | ponysdk/src/main/java/com/ponysdk/core/ui/dropdown/DropDownContainer.java:105-111 | Enter toggles the popup's visibility, but only while focused. Escape closes whatever the focus. Other keys, and keys before initialization, change nothing. |
| `DropDown.DropDownContainer.OnTriggerClick` | ponysdk/src/main/java/com/ponysdk/core/ui/dropdown/DropDownContainer.java:157-161 | A click on the main or the state button performs the transition towards the opposite of the popup's current visibility. |
| `DropDown.DropDownContainer.OnCloseRequest` | ponysdk/src/main/java/com/ponysdk/core/ui/dropdown/DropDownContainer.java:162-162 | The popup's close request performs the closing transition. |
| `DropDown.DropDownContainer.OnValueChangeWith` | ponysdk/src/main/java/com/ponysdk/core/ui/dropdown/DropDownContainer.java:341-344 | Fires one value-change event carrying the given value per value-change handler. |
| `DropDown.DropDownContainer.OnValueChange` | ponysdk/src/main/java/com/ponysdk/core/ui/dropdown/DropDownContainer.java:336-338 | Fires one value-change event carrying the current value per value-change handler. |
| `DropDown.DropDownContainer.OnClearClick` | ponysdk/src/main/java/com/ponysdk/core/ui/dropdown/DropDownContainer.java:129-135 | Without a clear button, or while disabled, nothing changes. Otherwise the value becomes null. Then each clear listener is called once, then each value-change handler receives exactly one event carrying null. |
| `DropDown.OpenThenClose` | ponysdk/src/main/java/com/ponysdk/core/ui/dropdown/DropDownContainer.java:378-397 | Start from an enabled, closed container whose hidden popup lacks the widget-opened style and whose trigger already shows the value. Then `open()` followed by `close()` restores the host, the buttons and the popup exactly. It keeps the earlier log and adds one OpenEvent per open handler, followed by one CloseEvent per close handler. It writes nothing else: the handler sets and the value are unchanged. |
| `DropDown.CloseThenOpen` | ponysdk/src/main/java/com/ponysdk/core/ui/dropdown/DropDownContainer.java:378-397 | Start from an enabled, open container whose visible popup carries the widget-opened style and whose trigger already shows the value. Then `close()` followed by `open()` restores the host, the buttons and the popup exactly. It keeps the earlier log and adds one CloseEvent per close handler, followed by one OpenEvent per open handler. |
| `TitlePolicy.PlaceholderShowsTitle` | ponysdk/src/main/java/com/ponysdk/core/ui/dropdown/DropDownContainer.java:299-303 | With the title displayed in placeholder mode, an empty value shows exactly the title. |
| `TitlePolicy.PlaceholderGivesWayToSelection` | ponysdk/src/main/java/com/ponysdk/core/ui/dropdown/DropDownContainer.java:299-322 | With the title displayed in placeholder mode, a non-empty value shows its rendering, or "" when the selection is not displayed. |
| `TitlePolicy.TitleIsPrefix` | ponysdk/src/main/java/com/ponysdk/core/ui/dropdown/DropDownContainer.java:307-312 | With the title displayed and placeholder mode off, every text begins with the title followed by a space, the separator and a space. |
| `TitlePolicy.SelectionHidden` | ponysdk/src/main/java/com/ponysdk/core/ui/dropdown/DropDownContainer.java:321-322 | Without selection display, a non-empty value shows only the permanent prefix, or nothing. |
| `TitlePolicy.AllLabelOnlyForEmptySelection` | ponysdk/src/main/java/com/ponysdk/core/ui/dropdown/DropDownContainer.java:314-315 | With an empty value, placeholder mode off and selection displayed, the text is the prefix followed by allLabel. In every other case the text does not depend on allLabel. |
| `TitlePolicy.PlaceholderMattersWithoutTitle` | ponysdk/src/main/java/com/ponysdk/core/ui/dropdown/DropDownContainer.java:314-315 | Without a displayed title, an empty value shows allLabel outside placeholder mode and "" in it. |
| `TitlePolicy.ScenarioPlaceholderEmpty` | ponysdk/src/main/java/com/ponysdk/core/ui/dropdown/DropDownContainer.java:299-303 | With title "Pick one" in placeholder mode, an empty value shows "Pick one". |
| `TitlePolicy.ScenarioPrefixAll` | ponysdk/src/main/java/com/ponysdk/core/ui/dropdown/DropDownContainer.java:307-315 | With title "Filter", separator ":" and allLabel "All", an empty value shows "Filter : All". |

## Left out

- Rendering and the transport of widgets to the client are not modelled. So are
  the `id` attribute set in the constructor, `stopEvent(KEYEVENTS)`, and the
  `widget.add(...)` calls that place the buttons in the host. A button is present
  in the model exactly when its field is `Some`.
- The wiring of DOM handlers (`addDomHandler`, `addKeyUpHandler`,
  `addClickHandler`, `container.addListener`) is not modelled as data. Each
  handler is a method (`OnFocusEvent`, `OnBlurEvent`, `OnKeyUp`,
  `OnTriggerClick`, `OnCloseRequest`, `OnClearClick`) that does nothing until the
  set-up has wired it.
- `focus()`, `blur()`, `updateContainerPosition()` and `disableSpaceWhenOpened()`
  are left out. They only delegate to the host or the popup.
- `getConfiguration()`, `isInitialized()` and `isFocused()` are left out as
  methods. They read `config`, `initialized` and `focused`, which the model
  exposes as fields.
- The protected hooks that do nothing by default are left out:
  `beforeContainerVisible`, `afterContainerVisible`, `afterContainerClose`,
  `onFocus`, `focusContainer` and `setDefaultContainerEnabled`. A subclass that
  overrides them is outside the model.
- Subclass-defined parts are fixed at construction: `isValueEmpty`, the
  rendering appended by `appendDisplayValue`, the result of
  `createDefaultContainer`, and `isContainerFocusable`. `getValue`/`setValue` are
  a plain read and store of the field `value`. A `setValue` that does more, such
  as firing its own events, is not captured.
- Handler callbacks are recorded as calls in `log`. What a handler does when
  called, including re-entrant calls back into the container, is not modelled.
- HashSet iteration order is not modelled. A delivery is specified as "each
  handler exactly once", and its order is arbitrary.
- The collaborators' classes (PFlowPanel, PButton, DropDownContainerAddon,
  Element) and DropDownContainerConfiguration are not part of this model. The
  popup is assumed hidden when it is built, and a new button is assumed visible
  with an empty tooltip.
- The custom content (passed to `setCustomContainer`) and the default content
  (returned by `createDefaultContainer`) are copied values in the model. In the
  code they are objects that other code may also hold. A style or other change
  made through another reference to them is not captured. The same holds for
  the `dd-container-custom` style added at set-up, as seen through the caller's
  own reference.
- Configuration strings (title, separator, allLabel, clear label) and value
  renderings are assumed non-null. In the code, appending a null string adds the
  text "null" to the title. That case is not modelled.
- `DropDown.DropDownContainer.AsWidget` returns a copy of the host panel. A
  style, visibility or tab-index change made through the returned panel is not
  reflected in the container, so such a change cannot alter `IsOpen()` or
  `IsEnabled()` in the model. The container's own `AddStyleName` and
  `RemoveStyleName` stand for style changes to the host. The buttons and the
  popup are likewise held as values, and the popup's reference to the host is
  not modelled.
- `DropDown.OpenThenClose` is stated only for a popup that is hidden and lacks
  the widget-opened style. Without those two conditions the round trip does not
  restore the popup. The condition that the trigger already shows the value is
  also needed: `close()` recomputes the title.
- `DropDown.CloseThenOpen` is stated only for a popup that is visible and
  carries the widget-opened style, and for a trigger that already shows the
  value, for the same reasons.
