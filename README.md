# Roller-blind quote editor: modes, views and tabs

This project models the core of a browser-based roller-blind quote editor:

- **The application controller.** It routes every view event to the view that is showing: the quick-quote view or the detail-configuration view. It also toggles between the two views and switches the detail tabs K1 to K5, each with a fixed set of visible columns. It answers load requests and loaded files, and decides what the periodic autosave writes.
- **The detail-configuration view.** In this version of the code it is a manager:
  - it hands K1 (location) work to a sub-view;
  - it still holds the K2 fabric-mode request with its light-filter conflict check;
  - it still holds the K3 cell cycle (with its deferred highlight clear) and the K4 dual toggle;
  - the rest of K2, K3 and K4 are empty stubs.
- **The UI manager's flag logic.** These are the rules that decide which tab buttons, panel buttons, inputs and table keys are active or disabled, given the UI state and the quote rows.
- **The input handler's decisions.** These say which command a physical key, a click in the results table, or a button of the on-screen keypad turns into.

The shared UI state and the quote rows are values (`UiModel`). The collaborators the core talks to are small classes holding their state or a log of what they were sent (`Services`):

- the UI service holds the UI state;
- the quote service holds the quote;
- the event aggregator holds the published events;
- the K1 sub-view holds the calls it received.

The handlers that change state are methods. Each method's postcondition ties the new state and the new event log to a pure decision function: `FocusDecision`, `ClickDecision`, `AfterTabSwitch`, `AfterNavigationToDetail`, `FileLoad` and so on. The properties the code promises are stated on those functions and in lemmas about them.

JavaScript semantics the decisions depend on are written out in `Js`:

- truthiness of the row fields;
- the lexicographic string comparison `key >= '0' && key <= '9'`;
- ASCII `toLowerCase`;
- `parseInt(s, 10)`, including `NaN`.

Behaviour of the code worth noting:

- The K3 deferred step clears the active cell unconditionally, without re-checking the mode or the cell. `DetailConfig.QuickSecondClickLosesHighlight` shows the consequence: of two quick K3 clicks, the first click's deferred clear removes the second click's highlight.
- `_enterFCMode` is an empty stub, so a fabric request that is not a conflict leaves the state as it was. K2 can therefore never be entered through the detail view in this version. The controller's tab switch does not call the detail view's `activateTab`.

## Model

| member | source | states |
|---|---|---|
| Js.DigitKeyTest | 04-core-code/input-handler.js:170 | the string test `key >= '0' && key <= '9'` holds iff the key starts with `0`..`8`, or is exactly `9` (so `"10"` passes and `"9x"` does not) |
| Js.ToLower | 04-core-code/input-handler.js:166 | lower-casing keeps the length and maps every character through the ASCII lower-case map |
| Js.ParseInt10 | 04-core-code/input-handler.js:295 | `parseInt(s, 10)` is `NaN` iff no digit follows the leading white space and optional sign |
| Js.ParseIntOfDecimal | 04-core-code/input-handler.js:293-295 | parsing the decimal rendering of a row index gives back that index |
| UiModel.BO1From | 04-core-code/ui/ui-manager.js:147 | the scan is true iff some row from the start index on has fabric type `BO1` |
| UiModel.ConflictFrom | 04-core-code/ui/views/detail-config-view.js:66-68 | the scan is true iff some `BO1` row from the start index on is in the LF-modified set |
| UiModel.ConflictNeedsBO1 | 04-core-code/ui/views/detail-config-view.js:66-68 | a conflict implies a `BO1` row exists and the LF-modified set is non-empty |
| Services.UiService.constructor | 04-core-code/app-controller.js:12 | the service starts from the given UI state |
| Services.NextInCycle | 04-core-code/ui/views/detail-config-view.js:109 | the next value of a two-value cycle is in the cycle and differs from the current one |
| Services.CycleK3Item | 04-core-code/ui/views/detail-config-view.js:109 | cycling a K3 cell moves that one field to a different value of its cycle; every other field of the row is kept |
| Services.CycleK3Twice | 04-core-code/ui/views/detail-config-view.js:107-109 | cycling the same cell twice restores the row iff its value was one of the cycle's values |
| Services.ToggledDual | 04-core-code/ui/views/detail-config-view.js:120 | the new dual marker is `''` iff the old one was `'D'`, and is `'D'` otherwise |
| Services.QuoteService.constructor | 04-core-code/ui/views/detail-config-view.js:16 | the service starts from the given quote |
| Services.QuoteService.CycleK3Property | 04-core-code/ui/views/detail-config-view.js:109 | only the clicked row changes, and it changes by one cycle step |
| Services.QuoteService.UpdateDual | 04-core-code/ui/views/detail-config-view.js:121 | only the clicked row's dual marker changes, to the given value |
| Services.EventAggregator.constructor | 04-core-code/app-controller.js:11 | the aggregator starts with nothing published |
| Services.EventAggregator.Publish | 04-core-code/app-controller.js:149 | publishing appends exactly that event to the log |
| Services.K1LocationView.constructor | 04-core-code/ui/views/detail-config-view.js:23 | the K1 sub-view starts with no calls |
| Services.K1LocationView.Receive | 04-core-code/ui/views/detail-config-view.js:42 | a delegated call is recorded once, in order |
| InputHandler.ArrowDirection | 04-core-code/input-handler.js:163-167 | `ArrowUp`, `ArrowDown`, `ArrowLeft` and `ArrowRight` give `up`, `down`, `left` and `right` respectively |
| InputHandler.KeyCommand | 04-core-code/input-handler.js:155-189 | in an editable text input no key does anything; only the four arrows move the active cell, in one of the four directions; a digit key is published as it is before the named keys are tried; a numeric key press carries the digit key or `W`/`H`/`ENT`/`DEL`; nothing outside those commands is published |
| InputHandler.NamedKeyCommand | 04-core-code/input-handler.js:174-188 | exactly the seven lower-case names `w`, `h`, `t`, `$`, `enter`, `backspace` and `delete` publish; a numeric press carries `W`, `H`, `ENT` or `DEL`, and any other command cycles the type, asks for the sum or clears the row; every other name falls through and publishes nothing |
| InputHandler.NamedKey | 04-core-code/input-handler.js:169-188 | a key that is neither an arrow nor a digit key is decided by the switch on its lower-case form, so it publishes iff that form is one of the seven cased names |
| InputHandler.NamedKeysIgnoreCase | 04-core-code/input-handler.js:174 | two keys that are neither arrows nor digit keys and agree when lower-cased publish the same thing |
| InputHandler.LetterKeys | 04-core-code/input-handler.js:174-177 | `w`/`W` give `W`, `h`/`H` give `H`, `t`/`T` cycle the type, and every other single ASCII letter, in either case, gives nothing |
| InputHandler.LetterKey | 04-core-code/input-handler.js:169-182 | a one-letter key is not a digit key and is decided by the switch on its lower-case letter |
| InputHandler.EditingKeys | 04-core-code/input-handler.js:179-185 | Enter gives `ENT` and Backspace gives `DEL` |
| InputHandler.CommandKeys | 04-core-code/input-handler.js:178-187 | `$` asks for the sum and Delete clears the row |
| InputHandler.EscapeKey | 04-core-code/input-handler.js:174-188 | Escape has no case and publishes nothing |
| InputHandler.TableClick | 04-core-code/input-handler.js:289-302 | a click produces a command iff it hits a cell with a non-empty column and row index; the command is a sequence-cell click iff the column is `sequence`, otherwise a table-cell click; it carries the column and the parsed row index |
| InputHandler.ClickOnRenderedRow | 04-core-code/input-handler.js:293-295 | a click on any cell of the row rendered with index n reports row n |
| InputHandler.KeypadEvent | 04-core-code/input-handler.js:255-283 | exactly the seventeen keypad ids publish; numeric presses carry a digit, `DEL`, `ENT`, `W` or `H`; the other three ids cycle the type, clear the row or ask for the sum |
| InputHandler.DigitKeysOfKeypad | 04-core-code/input-handler.js:170-172 | each single digit key is published as a numeric press of itself |
| InputHandler.KeypadLetterButtons | 04-core-code/input-handler.js:277-280 | the `W`, `H` and type buttons publish what the keys `w`, `h` and `t` publish |
| InputHandler.KeypadEditingButtons | 04-core-code/input-handler.js:274-275 | the `DEL` and `ENT` buttons publish what Backspace and Enter publish |
| InputHandler.KeypadCommandButtons | 04-core-code/input-handler.js:282-283 | the clear and price buttons publish what Delete and `$` publish |
| InputHandler.KeypadDigitButtons | 04-core-code/input-handler.js:264-273 | each digit button publishes what the digit key its id ends in publishes |
| InputHandler.KeypadMatchesKeyboard | 04-core-code/input-handler.js:264-283 | every keypad button publishes the same command as a physical key pressed outside a text input |
| UiManager.TabStates | 04-core-code/ui/ui-manager.js:102-105 | a tab is active iff it is the active tab; it is disabled iff an edit or K4 mode is on and it is not the active tab |
| UiManager.CountActiveOfIds | 04-core-code/ui/ui-manager.js:103 | with distinct tab ids, the number of active tabs is one if the active id is among them, else zero |
| UiManager.CountEnabledInEditMode | 04-core-code/ui/ui-manager.js:104 | while a mode is on, the enabled tabs are exactly the active ones |
| UiManager.ExactlyOneActiveTab | 04-core-code/ui/ui-manager.js:96-105 | exactly one tab is active, and while a mode is on it is the only tab enabled |
| UiManager.PanelButtonState | 04-core-code/ui/ui-manager.js:122-178 | an entry button is active exactly in its own mode; under another mode it is locked, except location during K3; an active button is locked only when its rows are gone; the K3 batch buttons work in K3 only; each K4 button is active in its own K4 mode and locked in the other |
| UiManager.PanelStatesOf | 04-core-code/ui/ui-manager.js:122-189 | the active entry button is the current mode's; while a mode is on, every other entry button is locked except location during K3; the location button is locked iff a K2-family mode is on; the LF button is locked iff another mode is on or no row is `BO1`, and the LF-delete button iff another mode is on or the LF set is empty, even in their own modes; the fabric and K3-edit buttons are locked iff another mode is on; the K3 batch buttons work in K3 only; at most one K4 button is locked and never the active one; the dual and chain buttons are active exactly in dual and chain mode; the location input is enabled iff K1; the chain input is enabled iff chain mode with a chain target cell |
| UiManager.K4IndependentOfEditMode | 04-core-code/ui/ui-manager.js:167-178 | the K4 buttons do not depend on the edit mode |
| UiManager.KeyStatesOf | 04-core-code/ui/ui-manager.js:242-276 | the key states are computed exactly when the code reads no row that is not there, that is when a selection lies in the table or is `-1` in multi-delete mode, and always when nothing is selected; then insert is enabled iff a selected row has a non-blank row after it; in multi-delete mode delete needs a non-empty selection, otherwise a selected row that is not the trailing blank row; insert implies delete; clear is enabled iff a row is selected; M-Del iff a row is selected or multi-delete mode is on |
| DetailConfig.FocusDecision | 04-core-code/ui/views/detail-config-view.js:51-87 | `location` always goes to K1; `fabric` in K2 leaves K2; `fabric` outside K2 asks first iff some `BO1` row is LF-modified, and otherwise enters; every other column is ignored |
| DetailConfig.ClickDecision | 04-core-code/ui/views/detail-config-view.js:94-128 | in K1 the click goes to K1 before the row is looked up; otherwise a click with no row is dropped; a K3 click on `over`/`oi`/`lr` cycles that cell; a K4-dual click on `dual` toggles that row |
| DetailConfig.ClickedItems | 04-core-code/ui/views/detail-config-view.js:107-123 | a click changes at most the clicked row, and in that row only one field: its K3 cell moves to another value of its cycle, or its dual marker toggles |
| DetailConfig.DualClickTwice | 04-core-code/ui/views/detail-config-view.js:119-123 | two dual clicks on a row restore the rows iff its marker was `'D'` or `''` |
| DetailConfig.DetailConfigView.constructor | 04-core-code/ui/views/detail-config-view.js:7-31 | the view keeps its collaborators and starts with no deferred clear pending |
| DetailConfig.DetailConfigView.Publish | 04-core-code/ui/views/detail-config-view.js:20 | the stored callback, taken to be the controller's `publishStateChange`, sends the current UI state and quote as one `stateChanged` |
| DetailConfig.DetailConfigView.ActivateTab | 04-core-code/ui/views/detail-config-view.js:39-49 | only `k1-tab` does anything: it activates the K1 sub-view once |
| DetailConfig.DetailConfigView.EnterFCMode | 04-core-code/ui/views/detail-config-view.js:142-144 | entering fabric mode changes nothing in this version |
| DetailConfig.DetailConfigView.HandleK4ModeChange | 04-core-code/ui/views/detail-config-view.js:132-134 | a K4 mode change changes nothing in this version |
| DetailConfig.DetailConfigView.RunDialogCallback | 04-core-code/ui/views/detail-config-view.js:74-75 | neither button of the conflict dialog changes anything |
| DetailConfig.DetailConfigView.HandleFocusModeRequest | 04-core-code/ui/views/detail-config-view.js:51-87 | `location` is handed to K1 and nothing else happens; leaving K2 clears the mode and publishes once; a conflict publishes the OK/Cancel dialog and changes no state; entering without a conflict, or any other column, changes nothing |
| DetailConfig.DetailConfigView.HandleLocationInputEnter | 04-core-code/ui/views/detail-config-view.js:89-92 | the value is handed to K1 unchanged |
| DetailConfig.DetailConfigView.HandleTableCellClick | 04-core-code/ui/views/detail-config-view.js:94-128 | K1 clicks are handed on and nothing else changes; a K3 cycle sets the active cell, cycles that row, publishes once and schedules one deferred clear; a dual toggle changes that row's marker and publishes once; any other click changes nothing |
| DetailConfig.DetailConfigView.RunDeferredCellClear | 04-core-code/ui/views/detail-config-view.js:112-115 | the deferred step clears the active cell, whatever the mode by then, and publishes once |
| DetailConfig.QuickSecondClickLosesHighlight | 04-core-code/ui/views/detail-config-view.js:107-115 | after two quick K3 clicks, the first click's deferred clear already removes the second click's highlight |
| App.DelegateToView | 04-core-code/app-controller.js:25-34 | a handler runs iff the view on screen holds a function under its name (for the detail view: one of its sixteen methods, its stored `publish` callback, or a function inherited from `Object.prototype`); the quick-quote view gets the initial UI state in place of the data exactly when the subscription asks for it; the detail view always gets the data |
| App.NoInheritedHandlerRouted | 04-core-code/app-controller.js:37-62 | no subscription names `publish` or an inherited `Object.prototype` function |
| App.DetailMethodEvents | 04-core-code/app-controller.js:37-62 | a subscription names one of the detail view's own methods exactly for the ten detail events |
| App.DetailViewEvents | 04-core-code/app-controller.js:37-62 | in the detail view exactly ten events reach a handler; keypad keys, row edits, save, load, reset and the cell-input events are dropped |
| App.OnlyResetGetsInitialState | 04-core-code/app-controller.js:44 | a delivered event gets the initial UI state iff it is the reset request |
| App.TabColumns | 04-core-code/app-controller.js:98-106 | exactly the five tab ids have columns, each starting with sequence and fabric type |
| App.AfterTabSwitch | 04-core-code/app-controller.js:97-113 | a known tab sets the active tab and its columns; an unknown tab changes nothing; nothing else changes |
| App.AfterNavigationToQuickQuote | 04-core-code/app-controller.js:91-95 | the view becomes quick quote with the initial columns, and nothing else changes |
| App.AfterNavigationToDetail | 04-core-code/app-controller.js:76-89 | the view always flips; from quick quote it lands on `k1-tab` with the K1 columns, otherwise on the initial columns |
| App.NavigationToQuickQuoteIdempotent | 04-core-code/app-controller.js:91-95 | going back to quick quote twice is the same as once |
| App.ToggleFromDetailIsReturn | 04-core-code/app-controller.js:84-94 | from the detail view the toggle does exactly what the return does |
| App.ToggleTwice | 04-core-code/app-controller.js:76-95 | two toggles from quick quote restore the state except that `k1-tab` is left active and the columns are the initial ones |
| App.LoadRequestEvent | 04-core-code/app-controller.js:115-121 | a load request asks for confirmation iff the quote has data, and otherwise loads directly |
| App.FileLoadAsWritten | 04-core-code/app-controller.js:127-138 | as the code stands, a parsed file replaces the quote and resets the UI state, then throws before anything is published; a failed parse only reports an error |
| App.FileLoad | 04-core-code/app-controller.js:127-138 | a parsed file replaces the quote and resets the UI state with the sum outdated, then publishes the state and a success notice; a failed parse changes nothing and reports an error |
| App.FileLoadDiscrepancy | 04-core-code/app-controller.js:129-134 | the two agree on a failed parse; on success the code as written publishes nothing where the intended handler publishes the new quote |
| App.HasContent | 04-core-code/app-controller.js:160 | a sized row is always saved; what is not saved has at most one row and no width or height |
| App.AppController.constructor | 04-core-code/app-controller.js:10-22 | the controller keeps its collaborators, and the autosave slot holds whatever an earlier session left in it |
| App.AppController.PublishStateChange | 04-core-code/app-controller.js:148-150 | the current UI state and quote go out as one `stateChanged` |
| App.AppController.HandleTabSwitch | 04-core-code/app-controller.js:97-113 | the new state is the tab switch of the old one; a known tab publishes once and an unknown one publishes nothing |
| App.AppController.HandleNavigationToDetailView | 04-core-code/app-controller.js:76-89 | the new state is the toggle of the old one, published once |
| App.AppController.HandleNavigationToQuickQuoteView | 04-core-code/app-controller.js:91-95 | the new state is the return to quick quote, published once |
| App.AppController.HandleUserRequestedLoad | 04-core-code/app-controller.js:115-121 | exactly the event of the load decision is published |
| App.AppController.HandleLoadDirectly | 04-core-code/app-controller.js:123-125 | a file load is triggered once |
| App.AppController.HandleFileLoadAsWritten | 04-core-code/app-controller.js:127-138 | the state, the log and the outcome are those of the handler as written |
| App.AppController.HandleFileLoad | 04-core-code/app-controller.js:127-138 | the state and the log are those of the intended handler |
| App.AppController.HandleAutoSave | 04-core-code/app-controller.js:157-168 | the quote is saved iff it has content; otherwise the saved copy is kept |

## Left out

- DOM wiring (listeners, element lookups, classes, scrolling, `preventDefault`) is left out. Only the decisions are modelled, as functions and event logs.
- The left-panel layout arithmetic, the panel colours and the dual-price display with `toFixed(2)` are left out. They are presentation and floating point.
- `FileReader` loading in the input handler, `fileService.parseFileContent` and the quick-quote file handler are left out. They are wrappers over an unseen file service, so a parse result is an input (`App.ParseResult`).
- The autosave timer, `JSON.stringify` and `localStorage` are left out. The storage slot is the field `autoSaved`, and a failure inside the `try` is not modelled.
- The 150 ms timer is not modelled. The deferred clear is an explicit step, `RunDeferredCellClear`, that a caller runs later, once per scheduled clear.
- The quick-quote view is not part of this model. Its handlers are given as an optional set of handler names.
- The panel-input, sequence-cell, LF, K3 toggle and batch-cycle handlers of the detail view are not modelled. Neither are `initializePanelState` and the chain click. All of them are empty in this version, and routing only checks that they exist.
- The K1 sub-view is not part of this model. It is modelled only as the log of calls it receives.
- The quote service and the initial state are not part of this model. `quoteService.hasData()` is a parameter, and the initial UI record is a constructor parameter.
- The keypad publishes an empty payload object where the keyboard sends none. The model treats the two as the same command.
- Services.CycleK3Item: the order of the K3 cycles (`over`: `O`/`''`, `oi`: `IN`/`OUT`, `lr`: `L`/`R`) is assumed, since the quote service's source is not part of this model. The contract only says the value moves to the other value of its cycle.
- Js.ToLower: maps ASCII letters only. Other case mappings of JavaScript's `toLowerCase` are not modelled.
- Js.ParseInt10: does not model the loss of precision above 2^53 or the `0x` prefix. With radix 10, the prefix parses as `0` anyway.
- Js.DigitKeyTest: compares by code point. JavaScript compares UTF-16 code units, which only differs outside the basic plane.
- App.DelegateToView: handler names form the closed set `App.Handler`: the subscribed handlers, the detail view's methods, `publish` and the inherited `Object.prototype` functions. A name outside that set cannot be expressed; no subscription uses one. Likewise `App.ViewEvent` lists only the 24 subscribed view events, since the aggregator delivers no other name to `delegateToView`.
- App.TabColumns: an id naming an `Object.prototype` member (for example `constructor`) is treated as unknown. In the code it would look up an inherited function.
- UiManager.KeyStatesOf: where the code throws (a selection outside the table reads `items[s + 1]`; a selection of `-1` outside multi-delete mode reads `items[-1]`), the model gives no key states. What the rest of the render would have done before the throw is not modelled.
- The UI-service setters (`setActiveEditMode`, `setActiveCell`, `setCurrentView`, `setVisibleColumns`, `setActiveTab`, `setSumOutdated`, `reset`) and `quoteService.updateItemProperty` are not part of this model. Each setter is taken to change only its own field of the UI state, `reset` to replace the whole state with the initial one, and `updateItemProperty` to set one field of one row. `HandleFocusModeRequest`, `HandleTableCellClick`, `RunDeferredCellClear`, `HandleTabSwitch`, the navigation handlers and `FileLoad` rest on this.
- DetailConfig.DetailConfigView.Publish: the callback the view is constructed with is taken to be the controller's `publishStateChange` (app-controller.js:148-150). The code that wires the two together is not part of this model.

## Findings

| source | as written | input that shows it | evidently intended | confidence | as-written member | corrected member |
|---|---|---|---|---|---|---|
| 04-core-code/app-controller.js:132 | calls `setSumOutdated` on `this.ui`, which the controller never assigns, so a `TypeError` is thrown after the quote is replaced and the UI reset; the new state is never published and no notice is shown | any `fileLoaded` event whose parse succeeds | call it on `this.uiService`, then publish the state and the success notice | high, not executed | App.FileLoadAsWritten | App.FileLoad |
