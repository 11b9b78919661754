/**
 * The shared state of the roller-blind quote editor: the quote rows, the
 * transient UI state the views read and write, and the events that pass over
 * the event aggregator.
 */
module UiModel {
  import opened Js

  /** The two top-level views. */
  datatype View = QuickQuote | DetailConfig

  /** `activeEditMode`: `null`, or one of the per-column edit modes. */
  datatype EditMode = NoEdit | K1 | K2 | K2LFSelect | K2LFDeleteSelect | K3

  /** `k4ActiveMode`: `null`, `'dual'` or `'chain'`. */
  datatype K4Mode = NoK4 | Dual | Chain

  datatype Cell = Cell(rowIndex: int, column: string)

  /** One roller-blind line of the quote, with the fields the core reads or writes. */
  datatype Item = Item(
    width: Val,
    height: Val,
    fabricType: Val,
    location: Val,
    over: Val,
    oi: Val,
    lr: Val,
    dual: Val,
    chain: Val)

  datatype QuoteData = QuoteData(rollerBlindItems: seq<Item>)

  /** The record `uiService.getState()` returns. */
  datatype UiState = UiState(
    currentView: View,
    activeTabId: string,
    visibleColumns: seq<string>,
    activeEditMode: EditMode,
    k4ActiveMode: K4Mode,
    activeCell: Option<Cell>,
    targetCell: Option<Cell>,
    locationInputValue: string,
    chainInputValue: string,
    lfModifiedRowIndexes: set<int>,
    selectedRowIndex: Option<int>,
    isMultiDeleteMode: bool,
    multiDeleteSelectedIndexes: set<int>,
    isSumOutdated: bool)

  /** What a button of the confirmation dialog runs when it is chosen. */
  datatype DialogAction = CallEnterFCMode(isOverwriting: bool) | DoNothing

  datatype DialogButton = DialogButton(text: string, className: Option<string>, callback: DialogAction)

  /** The events the core publishes on the event aggregator. */
  datatype Event =
    | NumericKeyPressed(key: string)
    | UserMovedActiveCell(direction: string)
    | UserRequestedCycleType
    | UserRequestedCalculateAndSum
    | UserRequestedClearRow
    | SequenceCellClicked(rowIndex: Num, column: string)
    | TableCellClicked(rowIndex: Num, column: string)
    | StateChanged(ui: UiState, quoteData: QuoteData)
    | ShowConfirmationDialog(message: string, buttons: seq<DialogButton>)
    | ShowLoadConfirmationDialog
    | TriggerFileLoad
    | ShowNotification(message: string, isError: bool)

  /** The calls the detail view hands on to the K1 (location) sub-view. */
  datatype K1Call =
    | K1Activate
    | K1FocusModeRequest
    | K1TableCellClick(rowIndex: Num)
    | K1LocationInputEnter(value: string)

  predicate IsBO1(item: Item) {
    item.fabricType == Text("BO1")
  }

  /** `items.some(item => item.fabricType === 'BO1')`, scanning from row `i`. */
  function BO1From(items: seq<Item>, i: nat): (r: bool)
    requires i <= |items|
    ensures r <==> exists j :: i <= j < |items| && IsBO1(items[j])
    decreases |items| - i
  {
    i < |items| && (IsBO1(items[i]) || BO1From(items, i + 1))
  }

  predicate HasBO1(items: seq<Item>) {
    BO1From(items, 0)
  }

  /**
   * The fabric-mode conflict scan, `items.some((item, index) =>
   * item.fabricType === 'BO1' && lfModifiedRowIndexes.has(index))`, from row `i`.
   */
  function ConflictFrom(items: seq<Item>, lfModified: set<int>, i: nat): (r: bool)
    requires i <= |items|
    ensures r <==> exists j :: i <= j < |items| && IsBO1(items[j]) && j in lfModified
    decreases |items| - i
  {
    i < |items| && ((IsBO1(items[i]) && i in lfModified) || ConflictFrom(items, lfModified, i + 1))
  }

  predicate HasConflict(items: seq<Item>, lfModified: set<int>) {
    ConflictFrom(items, lfModified, 0)
  }

  /** A conflict is a BO1 row that is LF-modified, so it needs a BO1 row to exist. */
  lemma ConflictNeedsBO1(items: seq<Item>, lfModified: set<int>)
    ensures HasConflict(items, lfModified) ==> HasBO1(items) && lfModified != {}
  {
    if HasConflict(items, lfModified) {
      var j :| 0 <= j < |items| && IsBO1(items[j]) && j in lfModified;
      assert BO1From(items, 0);
    }
  }
}
