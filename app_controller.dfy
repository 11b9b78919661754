/**
 * The application controller: it routes every view event to the view that
 * is showing, switches between the quick-quote and detail views and between
 * the detail tabs, answers load requests and loaded files, and autosaves.
 */
module App {
  import opened Js
  import opened UiModel
  import opened Services

  // ---------------------------------------------------------------------
  // Routing of view events
  // ---------------------------------------------------------------------

  /** The view events `initialize` subscribes through `delegateToView`, named as published. */
  datatype ViewEvent =
    | NumericKeyPressed | TableCellClicked | SequenceCellClicked | UserRequestedInsertRow
    | UserRequestedDeleteRow | UserRequestedSave | UserRequestedExportCSV | UserRequestedReset
    | UserRequestedClearRow | UserMovedActiveCell | UserRequestedCycleType | UserRequestedCalculateAndSum
    | UserRequestedMultiDeleteMode | UserChoseSaveThenLoad | UserRequestedFocusMode
    | PanelInputEnterPressed | PanelInputBlurred | EditableCellBlurred | EditableCellEnterPressed
    | LocationInputEnterPressed | UserRequestedLFEditMode | UserRequestedLFDeleteMode
    | UserToggledK3EditMode | UserRequestedBatchCycle

  /**
   * The property names a handler lookup can meet: the handlers the
   * subscriptions name, the detail view's own methods, its `publish`
   * callback and what every object inherits from `Object.prototype`.  A
   * name is the property's, capitalised, with leading and trailing
   * underscores dropped (`_handleCellInputBlur` is `HandleCellInputBlur`,
   * `__defineGetter__` is `DefineGetter`).
   */
  datatype Handler =
    // named by subscriptions
    | HandleNumericKeyPress | HandleTableCellClick | HandleSequenceCellClick | HandleInsertRow
    | HandleDeleteRow | HandleSaveToFile | HandleExportCSV | HandleReset | HandleClearRow
    | HandleMoveActiveCell | HandleCycleType | HandleCalculateAndSum | HandleToggleMultiDeleteMode
    | HandleSaveThenLoad | HandleFocusModeRequest | HandlePanelInputEnter | HandlePanelInputBlur
    | HandleCellInputBlur | HandleCellInputEnter | HandleLocationInputEnter | HandleLFEditRequest
    | HandleLFDeleteRequest | HandleToggleK3EditMode | HandleBatchCycle
    // the detail view's other methods
    | ActivateTab | HandleK4ModeChange | HandleK4ChainEnterPressed | EnterFCMode
    | InitializePanelState | UpdatePanelInputsState
    // the stored callback
    | Publish
    // inherited from `Object.prototype`
    | Constructor | ToString | ToLocaleString | ValueOf | HasOwnProperty | IsPrototypeOf
    | PropertyIsEnumerable | DefineGetter | DefineSetter | LookupGetter | LookupSetter

  /** A view-event subscription: the handler it names, and whether it is given the initial UI state. */
  datatype Route = Route(handler: Handler, requiresInitialState: bool)

  /** The `delegateToView` subscription `initialize` makes for each view event. */
  function Subscription(e: ViewEvent): Route
  {
    match e
    case NumericKeyPressed => Route(HandleNumericKeyPress, false)
    case TableCellClicked => Route(HandleTableCellClick, false)
    case SequenceCellClicked => Route(HandleSequenceCellClick, false)
    case UserRequestedInsertRow => Route(HandleInsertRow, false)
    case UserRequestedDeleteRow => Route(HandleDeleteRow, false)
    case UserRequestedSave => Route(HandleSaveToFile, false)
    case UserRequestedExportCSV => Route(HandleExportCSV, false)
    case UserRequestedReset => Route(HandleReset, true)
    case UserRequestedClearRow => Route(HandleClearRow, false)
    case UserMovedActiveCell => Route(HandleMoveActiveCell, false)
    case UserRequestedCycleType => Route(HandleCycleType, false)
    case UserRequestedCalculateAndSum => Route(HandleCalculateAndSum, false)
    case UserRequestedMultiDeleteMode => Route(HandleToggleMultiDeleteMode, false)
    case UserChoseSaveThenLoad => Route(HandleSaveThenLoad, false)
    case UserRequestedFocusMode => Route(HandleFocusModeRequest, false)
    case PanelInputEnterPressed => Route(HandlePanelInputEnter, false)
    case PanelInputBlurred => Route(HandlePanelInputBlur, false)
    case EditableCellBlurred => Route(HandleCellInputBlur, false)
    case EditableCellEnterPressed => Route(HandleCellInputEnter, false)
    case LocationInputEnterPressed => Route(HandleLocationInputEnter, false)
    case UserRequestedLFEditMode => Route(HandleLFEditRequest, false)
    case UserRequestedLFDeleteMode => Route(HandleLFDeleteRequest, false)
    case UserToggledK3EditMode => Route(HandleToggleK3EditMode, false)
    case UserRequestedBatchCycle => Route(HandleBatchCycle, false)
  }

  /** The function-valued properties every object inherits from `Object.prototype`, with its `constructor`. */
  const ObjectMethods: set<Handler> := {
    Constructor, ToString, ToLocaleString, ValueOf, HasOwnProperty, IsPrototypeOf,
    PropertyIsEnumerable, DefineGetter, DefineSetter, LookupGetter, LookupSetter}

  /** The methods the detail-configuration view defines. */
  const DetailMethods: set<Handler> := {
    ActivateTab, HandleFocusModeRequest, HandleLocationInputEnter, HandleTableCellClick,
    HandleK4ModeChange, HandleK4ChainEnterPressed, EnterFCMode, HandlePanelInputBlur,
    HandlePanelInputEnter, HandleSequenceCellClick, HandleLFEditRequest, HandleLFDeleteRequest,
    HandleToggleK3EditMode, HandleBatchCycle, InitializePanelState, UpdatePanelInputsState}

  /**
   * The names for which the detail-configuration view holds a function: the
   * methods it defines, the `publish` callback it stores, and the inherited ones.
   */
  const DetailHandlers: set<Handler> := DetailMethods + ({Publish} + ObjectMethods)

  /** What a handler is called with: the event's data, or the initial UI state. */
  datatype HandlerArg<D> = EventData(data: D) | InitialUiState

  /** The call `delegateToView` makes. */
  datatype Delivery<D> = ToQuickQuote(handler: Handler, arg: HandlerArg<D>) | ToDetailConfig(handler: Handler, data: D)

  /**
   * `delegateToView(handlerName, requiresInitialState)(data)`.  `quickView` is
   * the set of handlers the quick-quote view has, `None` when there is no such
   * view; `detailPresent` says the detail view is there.
   */
  function DelegateToView<D>(currentView: View, handlerName: Handler, requiresInitialState: bool, data: D,
                             quickView: Option<set<Handler>>, detailPresent: bool): (r: Option<Delivery<D>>)
    // only the view on screen is called, and only when it has the handler
    ensures r.Some? <==>
              (currentView == QuickQuote && quickView.Some? && handlerName in quickView.value) ||
              (currentView == DetailConfig && detailPresent && handlerName in DetailHandlers)
    ensures r.Some? ==> r.value.handler == handlerName
    ensures r.Some? ==> (r.value.ToQuickQuote? <==> currentView == QuickQuote)
    // the initial UI state replaces the data for the quick-quote view only
    ensures r.Some? && r.value.ToQuickQuote? ==>
              r.value.arg == if requiresInitialState then InitialUiState else EventData(data)
    ensures r.Some? && r.value.ToDetailConfig? ==> r.value.data == data
  {
    if currentView == QuickQuote && quickView.Some? && handlerName in quickView.value then
      Some(ToQuickQuote(handlerName, if requiresInitialState then InitialUiState else EventData(data)))
    else if currentView == DetailConfig && detailPresent && handlerName in DetailHandlers then
      Some(ToDetailConfig(handlerName, data))
    else None
  }

  /** A view event published on the aggregator, as routed by its subscription. */
  function RouteEvent<D>(e: ViewEvent, currentView: View, data: D,
                         quickView: Option<set<Handler>>, detailPresent: bool): Option<Delivery<D>>
  {
    var route := Subscription(e);
    DelegateToView(currentView, route.handler, route.requiresInitialState, data, quickView, detailPresent)
  }

  /** The view events the detail view has a handler for. */
  const DetailEvents: set<ViewEvent> := {
    ViewEvent.TableCellClicked, ViewEvent.SequenceCellClicked, ViewEvent.UserRequestedFocusMode,
    ViewEvent.PanelInputEnterPressed, ViewEvent.PanelInputBlurred, ViewEvent.LocationInputEnterPressed,
    ViewEvent.UserRequestedLFEditMode, ViewEvent.UserRequestedLFDeleteMode,
    ViewEvent.UserToggledK3EditMode, ViewEvent.UserRequestedBatchCycle}

  /** No subscription names a function the detail view only inherits or only stores. */
  lemma NoInheritedHandlerRouted(e: ViewEvent)
    ensures Subscription(e).handler !in ObjectMethods && Subscription(e).handler != Publish
  {
  }

  /** The subscribed handler is one of the detail view's own methods exactly for the ten detail events. */
  lemma DetailMethodEvents(e: ViewEvent)
    ensures Subscription(e).handler in DetailMethods <==> e in DetailEvents
  {
  }

  /**
   * In the detail view exactly ten view events reach a handler; keypad keys,
   * row insertion and deletion, save, load, reset and the cell-input events
   * are dropped there.
   */
  lemma DetailViewEvents<D>(e: ViewEvent, data: D, quickView: Option<set<Handler>>)
    ensures RouteEvent(e, DetailConfig, data, quickView, true).Some? <==> e in DetailEvents
  {
    NoInheritedHandlerRouted(e);
    DetailMethodEvents(e);
  }

  /** Reset is the one event whose handler gets the initial UI state instead of its data. */
  lemma OnlyResetGetsInitialState<D>(e: ViewEvent, data: D, quickView: Option<set<Handler>>)
    requires RouteEvent(e, QuickQuote, data, quickView, true).Some?
    ensures RouteEvent(e, QuickQuote, data, quickView, true).value.arg == InitialUiState
            <==> e == ViewEvent.UserRequestedReset
  {
  }

  // ---------------------------------------------------------------------
  // Views and tabs
  // ---------------------------------------------------------------------

  const K1Columns: seq<string> := ["sequence", "fabricTypeDisplay", "location"]

  /** `TAB_COLUMN_MAP` in `_handleTabSwitch`. */
  const TabColumnMap: map<string, seq<string>> := map[
    "k1-tab" := K1Columns,
    "k2-tab" := ["sequence", "fabricTypeDisplay", "fabric", "color"],
    "k3-tab" := ["sequence", "fabricTypeDisplay", "location", "over", "oi", "lr"],
    "k4-tab" := ["sequence", "fabricTypeDisplay", "location", "dual", "chain"],
    "k5-tab" := ["sequence", "fabricTypeDisplay"]]

  const TabIds: set<string> := {"k1-tab", "k2-tab", "k3-tab", "k4-tab", "k5-tab"}

  function TabColumns(tabId: string): (r: Option<seq<string>>)
    ensures r.Some? <==> tabId in TabIds
    // every tab shows the sequence and the fabric type first
    ensures r.Some? ==> |r.value| >= 2 && r.value[..2] == ["sequence", "fabricTypeDisplay"]
    ensures tabId == "k1-tab" ==> r == Some(K1Columns)
  {
    if tabId in TabColumnMap then Some(TabColumnMap[tabId]) else None
  }

  /** The UI state after `_handleTabSwitch`. */
  function AfterTabSwitch(s: UiState, tabId: string): (r: UiState)
    ensures tabId in TabIds ==> r.activeTabId == tabId && Some(r.visibleColumns) == TabColumns(tabId)
    ensures tabId !in TabIds ==> r == s
    // only the tab and its columns change
    ensures r.(activeTabId := s.activeTabId, visibleColumns := s.visibleColumns) == s
  {
    match TabColumns(tabId)
    case Some(columns) => s.(activeTabId := tabId, visibleColumns := columns)
    case None => s
  }

  /** The UI state after `_handleNavigationToQuickQuoteView`. */
  function AfterNavigationToQuickQuote(s: UiState, initialUi: UiState): (r: UiState)
    ensures r.currentView == QuickQuote && r.visibleColumns == initialUi.visibleColumns
    ensures r.(currentView := s.currentView, visibleColumns := s.visibleColumns) == s
  {
    s.(currentView := QuickQuote, visibleColumns := initialUi.visibleColumns)
  }

  /** The UI state after `_handleNavigationToDetailView`: a toggle between the two views. */
  function AfterNavigationToDetail(s: UiState, initialUi: UiState): (r: UiState)
    ensures r.currentView != s.currentView
    ensures s.currentView == QuickQuote ==> r.activeTabId == "k1-tab" && r.visibleColumns == K1Columns
    ensures s.currentView != QuickQuote ==> r.visibleColumns == initialUi.visibleColumns
    ensures r.(currentView := s.currentView, activeTabId := s.activeTabId, visibleColumns := s.visibleColumns) == s
  {
    if s.currentView == QuickQuote then AfterTabSwitch(s.(currentView := DetailConfig), "k1-tab")
    else s.(currentView := QuickQuote, visibleColumns := initialUi.visibleColumns)
  }

  /** Going back to quick quote twice is the same as once. */
  lemma NavigationToQuickQuoteIdempotent(s: UiState, initialUi: UiState)
    ensures AfterNavigationToQuickQuote(AfterNavigationToQuickQuote(s, initialUi), initialUi)
            == AfterNavigationToQuickQuote(s, initialUi)
  {
  }

  /** From the detail view, the toggle does what the return button does. */
  lemma ToggleFromDetailIsReturn(s: UiState, initialUi: UiState)
    requires s.currentView == DetailConfig
    ensures AfterNavigationToDetail(s, initialUi) == AfterNavigationToQuickQuote(s, initialUi)
  {
  }

  /** A round trip through the detail view lands on the initial columns, with `k1-tab` left active. */
  lemma ToggleTwice(s: UiState, initialUi: UiState)
    requires s.currentView == QuickQuote
    ensures var r := AfterNavigationToDetail(AfterNavigationToDetail(s, initialUi), initialUi);
            r == s.(activeTabId := "k1-tab", visibleColumns := initialUi.visibleColumns)
  {
  }

  // ---------------------------------------------------------------------
  // Loading and autosave
  // ---------------------------------------------------------------------

  /** The event a load request publishes, given whether the quote holds data. */
  function LoadRequestEvent(hasData: bool): (e: Event)
    ensures e == ShowLoadConfirmationDialog || e == TriggerFileLoad
    ensures e == ShowLoadConfirmationDialog <==> hasData
  {
    if hasData then ShowLoadConfirmationDialog else TriggerFileLoad
  }

  /** What `fileService.parseFileContent` returns. */
  datatype ParseResult = Parsed(data: QuoteData, message: string) | ParseFailed(message: string)

  /** How a handler ends: normally, or by the `TypeError` of a property read on `undefined`. */
  datatype Outcome = Completed | ThrewTypeError

  /** The effect of handling a loaded file: the new UI state and quote, what was published, how it ended. */
  datatype LoadStep = LoadStep(ui: UiState, data: QuoteData, published: seq<Event>, outcome: Outcome)

  /**
   * `_handleFileLoad` as written: on success, `this.ui.setSumOutdated(true)`
   * reads a property of `this.ui`, which the controller never sets, so the
   * handler throws after replacing the quote and resetting the UI state.
   */
  function FileLoadAsWritten(result: ParseResult, ui: UiState, data: QuoteData, initialUi: UiState): (r: LoadStep)
    ensures result.Parsed? ==> r.data == result.data && r.ui == initialUi
    ensures result.Parsed? ==> r.published == [] && r.outcome == ThrewTypeError
    ensures result.ParseFailed? ==> r == LoadStep(ui, data, [ShowNotification(result.message, true)], Completed)
  {
    match result
    case Parsed(newData, _) => LoadStep(initialUi, newData, [], ThrewTypeError)
    case ParseFailed(message) => LoadStep(ui, data, [ShowNotification(message, true)], Completed)
  }

  /** `_handleFileLoad` as intended: the sum is marked outdated through the UI service, then the state and a notice go out. */
  function FileLoad(result: ParseResult, ui: UiState, data: QuoteData, initialUi: UiState): (r: LoadStep)
    ensures r.outcome == Completed
    // a loaded file is shown: the renderer gets the new quote and the reset UI state, then a notice
    ensures result.Parsed? ==>
              && r.data == result.data
              && r.ui == initialUi.(isSumOutdated := true)
              && r.published == [StateChanged(r.ui, r.data), ShowNotification(result.message, false)]
    // a failed parse changes nothing and reports an error
    ensures result.ParseFailed? ==> r == LoadStep(ui, data, [ShowNotification(result.message, true)], Completed)
  {
    match result
    case Parsed(newData, message) =>
      var newUi := initialUi.(isSumOutdated := true);
      LoadStep(newUi, newData, [StateChanged(newUi, newData), ShowNotification(message, false)], Completed)
    case ParseFailed(message) => LoadStep(ui, data, [ShowNotification(message, true)], Completed)
  }

  /**
   * The two agree on a failed parse; on a successful one, the code as
   * written publishes nothing, so the loaded quote is never rendered and no
   * notice is shown, where the intended handler publishes both.
   */
  lemma FileLoadDiscrepancy(result: ParseResult, ui: UiState, data: QuoteData, initialUi: UiState)
    ensures result.ParseFailed? ==> FileLoadAsWritten(result, ui, data, initialUi) == FileLoad(result, ui, data, initialUi)
    ensures result.Parsed? ==>
              && FileLoadAsWritten(result, ui, data, initialUi).published == []
              && |FileLoad(result, ui, data, initialUi).published| == 2
              && FileLoad(result, ui, data, initialUi).published[0].StateChanged?
              && FileLoad(result, ui, data, initialUi).published[0].quoteData == result.data
  {
  }

  /** The autosave test: more than one row, or a single row with a width or a height. */
  predicate HasContent(items: seq<Item>)
    // a row with a size is always worth saving
    ensures (exists i :: 0 <= i < |items| && (Truthy(items[i].width) || Truthy(items[i].height))) ==> HasContent(items)
    // what is not saved has no sized row at all
    ensures !HasContent(items) ==> |items| <= 1 && forall i :: 0 <= i < |items| ==> !Truthy(items[i].width) && !Truthy(items[i].height)
  {
    |items| > 1 || (|items| == 1 && (Truthy(items[0].width) || Truthy(items[0].height)))
  }

  /**
   * The controller.  `initialUi` is the initial UI record it resets to;
   * `autoSaved` is what the autosave slot of local storage holds, starting
   * from whatever an earlier session left there.
   */
  class AppController {
    const ui: UiService
    const quote: QuoteService
    const bus: EventAggregator
    const initialUi: UiState
    var autoSaved: Option<QuoteData>

    constructor (ui: UiService, quote: QuoteService, bus: EventAggregator, initialUi: UiState, savedSlot: Option<QuoteData>)
      ensures this.ui == ui && this.quote == quote && this.bus == bus && this.initialUi == initialUi
      ensures autoSaved == savedSlot
    {
      this.ui := ui;
      this.quote := quote;
      this.bus := bus;
      this.initialUi := initialUi;
      autoSaved := savedSlot;
    }

    method PublishStateChange()
      modifies bus
      ensures bus.log == old(bus.log) + [StateChanged(ui.state, quote.data)]
    {
      bus.Publish(StateChanged(ui.state, quote.data));
    }

    /** `_handleTabSwitch`: a known tab sets the tab and its columns and publishes once; an unknown one does nothing. */
    method HandleTabSwitch(tabId: string)
      modifies ui, bus
      ensures ui.state == AfterTabSwitch(old(ui.state), tabId)
      ensures bus.log == old(bus.log) + (if tabId in TabIds then [StateChanged(ui.state, quote.data)] else [])
    {
      var newColumns := TabColumns(tabId);
      if newColumns.Some? {
        ui.state := ui.state.(activeTabId := tabId);
        ui.state := ui.state.(visibleColumns := newColumns.value);
        PublishStateChange();
      }
    }

    method HandleNavigationToDetailView()
      modifies ui, bus
      ensures ui.state == AfterNavigationToDetail(old(ui.state), initialUi)
      ensures bus.log == old(bus.log) + [StateChanged(ui.state, quote.data)]
    {
      var currentView := ui.state.currentView;
      if currentView == QuickQuote {
        ui.state := ui.state.(currentView := DetailConfig);
        // `detailConfigView.initializePanelState()` runs an empty stub
        HandleTabSwitch("k1-tab");
      } else {
        ui.state := ui.state.(currentView := QuickQuote);
        ui.state := ui.state.(visibleColumns := initialUi.visibleColumns);
        PublishStateChange();
      }
    }

    method HandleNavigationToQuickQuoteView()
      modifies ui, bus
      ensures ui.state == AfterNavigationToQuickQuote(old(ui.state), initialUi)
      ensures bus.log == old(bus.log) + [StateChanged(ui.state, quote.data)]
    {
      ui.state := ui.state.(currentView := QuickQuote);
      ui.state := ui.state.(visibleColumns := initialUi.visibleColumns);
      PublishStateChange();
    }

    /** `_handleUserRequestedLoad`, with `hasData` the answer of `quoteService.hasData()`. */
    method HandleUserRequestedLoad(hasData: bool)
      modifies bus
      ensures bus.log == old(bus.log) + [LoadRequestEvent(hasData)]
    {
      if hasData {
        bus.Publish(ShowLoadConfirmationDialog);
      } else {
        bus.Publish(TriggerFileLoad);
      }
    }

    method HandleLoadDirectly()
      modifies bus
      ensures bus.log == old(bus.log) + [TriggerFileLoad]
    {
      bus.Publish(TriggerFileLoad);
    }

    /** `_handleFileLoad` as the code stands, ending in the `TypeError` on success. */
    method HandleFileLoadAsWritten(result: ParseResult) returns (outcome: Outcome)
      modifies ui, quote, bus
      ensures var step := FileLoadAsWritten(result, old(ui.state), old(quote.data), initialUi);
              ui.state == step.ui && quote.data == step.data &&
              bus.log == old(bus.log) + step.published && outcome == step.outcome
    {
      match result
      case Parsed(data, _) =>
        quote.data := data;
        ui.state := initialUi;
        outcome := ThrewTypeError;
      case ParseFailed(message) =>
        bus.Publish(ShowNotification(message, true));
        outcome := Completed;
    }

    /** `_handleFileLoad` with the sum marked outdated through the UI service. */
    method HandleFileLoad(result: ParseResult)
      modifies ui, quote, bus
      ensures var step := FileLoad(result, old(ui.state), old(quote.data), initialUi);
              ui.state == step.ui && quote.data == step.data && bus.log == old(bus.log) + step.published
    {
      match result
      case Parsed(data, message) =>
        quote.data := data;
        ui.state := initialUi;
        ui.state := ui.state.(isSumOutdated := true);
        PublishStateChange();
        bus.Publish(ShowNotification(message, false));
      case ParseFailed(message) =>
        bus.Publish(ShowNotification(message, true));
    }

    /** `_handleAutoSave`: the quote is written only when it has content. */
    method HandleAutoSave()
      modifies this
      ensures autoSaved == if HasContent(quote.Items()) then Some(quote.data) else old(autoSaved)
    {
      var items := quote.Items();
      var hasContent := |items| > 1 || (|items| == 1 && (Truthy(items[0].width) || Truthy(items[0].height)));
      if hasContent {
        autoSaved := Some(quote.data);
      }
    }
  }
}
