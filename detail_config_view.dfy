/**
 * The detail-configuration view, in the state this version of the code is
 * in: a manager that hands K1 (location) work to its sub-view and still
 * holds the K2 fabric-mode request, the K3 cell cycle and the K4 dual toggle
 * itself, while the rest of K2, K3 and K4 are empty stubs.
 */
module DetailConfig {
  import opened Js
  import opened UiModel
  import opened Services

  const ConflictMessage: string :=
    "Some BO1 items have Light-Filter settings. Continuing will overwrite this data. Proceed?"

  /** The dialog that asks before fabric mode overwrites light-filter settings. */
  const ConflictDialog: Event := ShowConfirmationDialog(ConflictMessage, [
    DialogButton("OK", None, CallEnterFCMode(true)),
    DialogButton("Cancel", Some("secondary"), DoNothing)])

  /** What a focus-mode request for a column leads to. */
  datatype FocusAction =
    | DelegateFocusToK1  // `location`: handed to the K1 sub-view
    | AskBeforeFabric    // `fabric` into K2, with LF-modified BO1 rows: ask first
    | EnterFabric        // `fabric` into K2, no conflict: `_enterFCMode(false)`
    | LeaveFabric        // `fabric` while in K2: mode back to null
    | IgnoreFocus        // any other column

  function FocusDecision(column: string, mode: EditMode, items: seq<Item>, lfModified: set<int>): (r: FocusAction)
    ensures r == DelegateFocusToK1 <==> column == "location"
    ensures r == LeaveFabric <==> column == "fabric" && mode == K2
    // entering K2 asks first exactly when some BO1 row is LF-modified
    ensures r == AskBeforeFabric <==>
              column == "fabric" && mode != K2 &&
              exists j :: 0 <= j < |items| && IsBO1(items[j]) && j in lfModified
    ensures r == EnterFabric <==>
              column == "fabric" && mode != K2 &&
              forall j :: 0 <= j < |items| && j in lfModified ==> !IsBO1(items[j])
    ensures r == IgnoreFocus <==> column != "location" && column != "fabric"
  {
    if column == "location" then DelegateFocusToK1
    else if column == "fabric" then
      var newMode := if mode == K2 then NoEdit else K2;
      if newMode != NoEdit then
        if HasConflict(items, lfModified) then AskBeforeFabric else EnterFabric
      else LeaveFabric
    else IgnoreFocus
  }

  /** `items[rowIndex]` is a row. */
  predicate RowExists(items: seq<Item>, rowIndex: Num) {
    rowIndex.Int? && 0 <= rowIndex.i < |items|
  }

  /** What a table-cell click leads to. */
  datatype ClickAction =
    | DelegateClickToK1         // K1 is on: handed to the K1 sub-view
    | DropClick                 // no row at that index
    | CycleCell(row: int)       // K3 and an `over`/`oi`/`lr` cell: cycle that cell
    | ToggleDualCell(row: int)  // K4 dual and a `dual` cell: toggle that marker
    | IgnoreClick               // a row, but no branch applies (a chain cell among them)

  function ClickDecision(mode: EditMode, k4: K4Mode, items: seq<Item>, rowIndex: Num, column: string): (r: ClickAction)
    // K1 takes precedence over everything, before the row is even looked up
    ensures r == DelegateClickToK1 <==> mode == K1
    ensures r == DropClick <==> mode != K1 && !RowExists(items, rowIndex)
    ensures r.CycleCell? <==> mode == K3 && IsK3Column(column) && RowExists(items, rowIndex)
    ensures r.ToggleDualCell? <==> mode != K1 && k4 == Dual && column == "dual" && RowExists(items, rowIndex)
    ensures (r.CycleCell? || r.ToggleDualCell?) ==> r.row == rowIndex.i && 0 <= r.row < |items|
  {
    if mode == K1 then DelegateClickToK1
    else if !RowExists(items, rowIndex) then DropClick
    else if mode == K3 && IsK3Column(column) then CycleCell(rowIndex.i)
    else if k4 == Dual && column == "dual" then ToggleDualCell(rowIndex.i)
    else IgnoreClick
  }

  /** The rows after the click: one cell changed for the two editing actions, none otherwise. */
  function ClickedItems(items: seq<Item>, a: ClickAction, column: string): (r: seq<Item>)
    requires (a.CycleCell? || a.ToggleDualCell?) ==> 0 <= a.row < |items|
    requires a.CycleCell? ==> IsK3Column(column)
    ensures |r| == |items|
    ensures forall j :: 0 <= j < |items| && !((a.CycleCell? || a.ToggleDualCell?) && j == a.row) ==> r[j] == items[j]
    // the clicked row changes in that one field only
    ensures a.ToggleDualCell? ==> r[a.row] == items[a.row].(dual := ToggledDual(items[a.row].dual))
    ensures a.CycleCell? ==> r[a.row] == CycleK3Item(items[a.row], column)
    ensures a.CycleCell? ==> K3Field(r[a.row], column) != K3Field(items[a.row], column)
  {
    match a
    case CycleCell(row) => items[row := CycleK3Item(items[row], column)]
    case ToggleDualCell(row) => items[row := items[row].(dual := ToggledDual(items[row].dual))]
    case _ => items
  }

  /** Two dual clicks on the same row restore it exactly when its marker was `'D'` or `''`. */
  lemma DualClickTwice(k4: K4Mode, mode: EditMode, items: seq<Item>, row: nat)
    requires k4 == Dual && mode != K1 && row < |items|
    ensures var a := ClickDecision(mode, k4, items, Int(row), "dual");
            var once := ClickedItems(items, a, "dual");
            var b := ClickDecision(mode, k4, once, Int(row), "dual");
            ClickedItems(once, b, "dual") == items <==> items[row].dual in {Text("D"), Text("")}
  {
    var a := ClickDecision(mode, k4, items, Int(row), "dual");
    var once := ClickedItems(items, a, "dual");
    var b := ClickDecision(mode, k4, once, Int(row), "dual");
    var twice := ClickedItems(once, b, "dual");
    if items[row].dual in {Text("D"), Text("")} {
      assert twice[row] == items[row];
      assert forall j :: 0 <= j < |items| ==> twice[j] == items[j];
    } else {
      assert twice[row].dual == Text("") != items[row].dual;
    }
  }

  /**
   * The view.  `ui`, `quote`, `bus` and `k1` are the shared collaborators;
   * `pendingCellClears` counts the K3 deferred clears scheduled and not yet run.
   */
  class DetailConfigView {
    const ui: UiService
    const quote: QuoteService
    const bus: EventAggregator
    const k1: K1LocationView
    var pendingCellClears: nat

    constructor (ui: UiService, quote: QuoteService, bus: EventAggregator, k1: K1LocationView)
      ensures this.ui == ui && this.quote == quote && this.bus == bus && this.k1 == k1
      ensures pendingCellClears == 0
    {
      this.ui := ui;
      this.quote := quote;
      this.bus := bus;
      this.k1 := k1;
      pendingCellClears := 0;
    }

    /**
     * The publish callback the view was given, taken to be the controller's
     * `publishStateChange`: the full state goes out as `stateChanged`.
     */
    method Publish()
      modifies bus
      ensures bus.log == old(bus.log) + [StateChanged(ui.state, quote.data)]
    {
      bus.Publish(StateChanged(ui.state, quote.data));
    }

    /** `activateTab`: only `k1-tab` does anything, by activating the K1 sub-view. */
    method ActivateTab(tabId: string)
      modifies k1
      ensures k1.calls == old(k1.calls) + (if tabId == "k1-tab" then [K1Activate] else [])
    {
      if tabId == "k1-tab" {
        k1.Receive(K1Activate);
      }
    }

    /** `_enterFCMode`: an empty stub in this version. */
    method EnterFCMode(isOverwriting: bool)
      ensures unchanged(ui, quote, bus, k1, this)
    {
    }

    /** `handleK4ModeChange`: an empty stub in this version. */
    method HandleK4ModeChange(mode: string)
      ensures unchanged(ui, quote, bus, k1, this)
    {
    }

    /** Runs the callback of the confirmation-dialog button the user chose. */
    method RunDialogCallback(action: DialogAction)
      ensures unchanged(ui, quote, bus, k1, this)
    {
      match action
      case CallEnterFCMode(overwrite) => EnterFCMode(overwrite);
      case DoNothing =>
    }

    method HandleFocusModeRequest(column: string)
      modifies ui, bus, k1
      ensures var a := FocusDecision(column, old(ui.state.activeEditMode), quote.Items(), old(ui.state.lfModifiedRowIndexes));
              && k1.calls == old(k1.calls) + (if a == DelegateFocusToK1 then [K1FocusModeRequest] else [])
              && ui.state == (if a == LeaveFabric then old(ui.state).(activeEditMode := NoEdit) else old(ui.state))
              && bus.log == old(bus.log) + (if a == AskBeforeFabric then [ConflictDialog]
                                            else if a == LeaveFabric then [StateChanged(ui.state, quote.data)]
                                            else [])
    {
      if column == "location" {
        k1.Receive(K1FocusModeRequest);
        return;
      }
      var currentMode := ui.state.activeEditMode;
      if column == "fabric" {
        var newMode := if currentMode == K2 then NoEdit else K2;
        if newMode != NoEdit {
          var items := quote.Items();
          var lfModified := ui.state.lfModifiedRowIndexes;
          var hasConflict := HasConflict(items, lfModified);
          if hasConflict {
            bus.Publish(ConflictDialog);
          } else {
            EnterFCMode(false);
          }
        } else {
          ui.state := ui.state.(activeEditMode := NoEdit);
          Publish();
        }
      }
    }

    method HandleLocationInputEnter(value: string)
      modifies k1
      ensures k1.calls == old(k1.calls) + [K1LocationInputEnter(value)]
    {
      k1.Receive(K1LocationInputEnter(value));
    }

    method HandleTableCellClick(rowIndex: Num, column: string)
      modifies ui, quote, bus, k1, this
      ensures var a := ClickDecision(old(ui.state.activeEditMode), old(ui.state.k4ActiveMode), old(quote.Items()), rowIndex, column);
              && k1.calls == old(k1.calls) + (if a == DelegateClickToK1 then [K1TableCellClick(rowIndex)] else [])
              && quote.Items() == ClickedItems(old(quote.Items()), a, column)
              && ui.state == (if a.CycleCell? then old(ui.state).(activeCell := Some(Cell(a.row, column))) else old(ui.state))
              && bus.log == old(bus.log) + (if a.CycleCell? || a.ToggleDualCell? then [StateChanged(ui.state, quote.data)] else [])
              && pendingCellClears == old(pendingCellClears) + (if a.CycleCell? then 1 else 0)
    {
      var activeEditMode, k4ActiveMode := ui.state.activeEditMode, ui.state.k4ActiveMode;
      if activeEditMode == K1 {
        k1.Receive(K1TableCellClick(rowIndex));
        return;
      }
      var items := quote.Items();
      if !RowExists(items, rowIndex) {
        return;
      }
      var item := items[rowIndex.i];
      if activeEditMode == K3 && IsK3Column(column) {
        ui.state := ui.state.(activeCell := Some(Cell(rowIndex.i, column)));
        quote.CycleK3Property(rowIndex.i, column);
        Publish();
        pendingCellClears := pendingCellClears + 1;
      }
      if k4ActiveMode == Dual && column == "dual" {
        var newValue := if item.dual == Text("D") then Text("") else Text("D");
        quote.UpdateDual(rowIndex.i, newValue);
        Publish();
      }
      if k4ActiveMode == Chain && column == "chain" {
        // left for a future K4 sub-view
      }
    }

    /**
     * The deferred step of a K3 cell click, run once per scheduled clear: it
     * clears the active cell whatever the mode and the active cell are by then.
     */
    method RunDeferredCellClear()
      requires pendingCellClears > 0
      modifies ui, bus, this
      ensures ui.state == old(ui.state).(activeCell := None)
      ensures bus.log == old(bus.log) + [StateChanged(ui.state, quote.data)]
      ensures pendingCellClears == old(pendingCellClears) - 1
    {
      ui.state := ui.state.(activeCell := None);
      Publish();
      pendingCellClears := pendingCellClears - 1;
    }
  }

  /**
   * Two quick K3 clicks: the first click's deferred clear, running before
   * the second's, already clears the second click's highlight.
   */
  method QuickSecondClickLosesHighlight(view: DetailConfigView)
    requires view.ui.state.activeEditMode == K3 && |view.quote.Items()| >= 2
    modifies view.ui, view.quote, view.bus, view.k1, view
    ensures view.ui.state.activeCell == None
    ensures view.pendingCellClears == old(view.pendingCellClears) + 1
  {
    view.HandleTableCellClick(Int(0), "over");
    view.HandleTableCellClick(Int(1), "oi");
    assert view.ui.state.activeCell == Some(Cell(1, "oi"));
    view.RunDeferredCellClear();
    assert view.ui.state.activeCell == None && view.pendingCellClears >= 1;
  }
}
