/**
 * What the UI manager derives from a state snapshot when it renders: which
 * tab buttons are active or disabled, the active/disabled state of each
 * panel button and input of the detail view, and which of the insert,
 * delete, M-Del and clear keys are enabled.
 */
module UiManager {
  import opened Js
  import opened UiModel

  /** The rendering of one tab button. */
  datatype TabState = TabState(active: bool, disabled: bool)

  predicate InEditMode(ui: UiState) {
    ui.activeEditMode != NoEdit || ui.k4ActiveMode != NoK4
  }

  /** `tabButtons.forEach(...)`: the state of each tab button, by id, in order. */
  function TabStates(ui: UiState, tabIds: seq<string>): (r: seq<TabState>)
    ensures |r| == |tabIds|
    ensures forall i :: 0 <= i < |r| ==> (r[i].active <==> tabIds[i] == ui.activeTabId)
    // tabs are locked only while a mode is on, and the current tab never is
    ensures forall i :: 0 <= i < |r| ==> (r[i].disabled <==> InEditMode(ui) && !r[i].active)
  {
    if tabIds == [] then []
    else
      var id := tabIds[0];
      [TabState(id == ui.activeTabId, InEditMode(ui) && id != ui.activeTabId)] + TabStates(ui, tabIds[1..])
  }

  function CountActive(tabs: seq<TabState>): nat {
    if tabs == [] then 0 else (if tabs[0].active then 1 else 0) + CountActive(tabs[1..])
  }

  function CountEnabled(tabs: seq<TabState>): nat {
    if tabs == [] then 0 else (if tabs[0].disabled then 0 else 1) + CountEnabled(tabs[1..])
  }

  lemma {:induction false} CountActiveOfIds(ui: UiState, tabIds: seq<string>)
    ensures CountActive(TabStates(ui, tabIds)) == if ui.activeTabId in tabIds then 1 else 0
    requires forall i, j :: 0 <= i < j < |tabIds| ==> tabIds[i] != tabIds[j]
  {
    if tabIds != [] {
      CountActiveOfIds(ui, tabIds[1..]);
      assert TabStates(ui, tabIds)[1..] == TabStates(ui, tabIds[1..]);
      assert ui.activeTabId in tabIds[1..] ==> tabIds[0] != ui.activeTabId;
      assert tabIds == [tabIds[0]] + tabIds[1..];
    }
  }

  lemma {:induction false} CountEnabledInEditMode(ui: UiState, tabIds: seq<string>)
    requires InEditMode(ui)
    ensures CountEnabled(TabStates(ui, tabIds)) == CountActive(TabStates(ui, tabIds))
  {
    if tabIds != [] {
      CountEnabledInEditMode(ui, tabIds[1..]);
      assert TabStates(ui, tabIds)[1..] == TabStates(ui, tabIds[1..]);
    }
  }

  /**
   * With distinct tab ids among which the active one appears, exactly one tab
   * is marked active; while a mode is on, that tab is the only one enabled.
   */
  lemma ExactlyOneActiveTab(ui: UiState, tabIds: seq<string>)
    requires forall i, j :: 0 <= i < j < |tabIds| ==> tabIds[i] != tabIds[j]
    requires ui.activeTabId in tabIds
    ensures CountActive(TabStates(ui, tabIds)) == 1
    ensures InEditMode(ui) ==> CountEnabled(TabStates(ui, tabIds)) == 1
  {
    CountActiveOfIds(ui, tabIds);
    if InEditMode(ui) {
      CountEnabledInEditMode(ui, tabIds);
    }
  }

  /** The buttons of the detail view's K1 to K4 panels. */
  datatype PanelButton =
    | LocationButton | FabricColorButton | LFButton | LFDeleteButton
    | K3EditButton | K3OverButton | K3OiButton | K3LrButton
    | K4DualButton | K4ChainButton

  /** The buttons that switch an edit mode of `activeEditMode` on or off. */
  predicate IsEditEntry(b: PanelButton) {
    b in {LocationButton, FabricColorButton, LFButton, LFDeleteButton, K3EditButton}
  }

  /** The button that switches `mode` on and off. */
  function EntryOf(mode: EditMode): PanelButton
    requires mode != NoEdit
  {
    match mode
    case K1 => LocationButton
    case K2 => FabricColorButton
    case K2LFSelect => LFButton
    case K2LFDeleteSelect => LFDeleteButton
    case K3 => K3EditButton
  }

  datatype ButtonState = ButtonState(active: bool, disabled: bool)

  predicate IsK2Family(mode: EditMode) {
    mode == K2 || mode == K2LFSelect || mode == K2LFDeleteSelect
  }

  /** `_updatePanelButtonStates`: the `active` class and `disabled` property of one panel button. */
  function PanelButtonState(ui: UiState, items: seq<Item>, b: PanelButton): (r: ButtonState)
    // an entry button is shown active exactly while its own mode is on
    ensures IsEditEntry(b) ==> (r.active <==> ui.activeEditMode != NoEdit && b == EntryOf(ui.activeEditMode))
    // while a mode is on, another entry button is locked, except location during K3
    ensures (IsEditEntry(b) && ui.activeEditMode != NoEdit && b != EntryOf(ui.activeEditMode)
             && !(ui.activeEditMode == K3 && b == LocationButton)) ==> r.disabled
    // a button shown active is locked only when the rows it works on are gone
    ensures r.active && r.disabled ==>
              (b == LFButton && !HasBO1(items)) || (b == LFDeleteButton && ui.lfModifiedRowIndexes == {})
    // the batch-cycle buttons work in K3 only
    ensures b in {K3OverButton, K3OiButton, K3LrButton} ==> (r.disabled <==> ui.activeEditMode != K3)
    // the K4 buttons follow the K4 mode alone: each is active in its own mode and locked in the other
    ensures b == K4DualButton ==> (r.active <==> ui.k4ActiveMode == Dual) && (r.disabled <==> ui.k4ActiveMode == Chain)
    ensures b == K4ChainButton ==> (r.active <==> ui.k4ActiveMode == Chain) && (r.disabled <==> ui.k4ActiveMode == Dual)
  {
    var mode := ui.activeEditMode;
    var k4 := ui.k4ActiveMode;
    match b
    case LocationButton => ButtonState(mode == K1, IsK2Family(mode))
    case FabricColorButton => ButtonState(mode == K2, mode != NoEdit && mode != K2)
    case LFButton => ButtonState(mode == K2LFSelect, (mode != NoEdit && mode != K2LFSelect) || !HasBO1(items))
    case LFDeleteButton =>
      ButtonState(mode == K2LFDeleteSelect, (mode != NoEdit && mode != K2LFDeleteSelect) || |ui.lfModifiedRowIndexes| == 0)
    case K3EditButton => ButtonState(mode == K3, mode != NoEdit && mode != K3)
    case K3OverButton => ButtonState(false, mode != K3)
    case K3OiButton => ButtonState(false, mode != K3)
    case K3LrButton => ButtonState(false, mode != K3)
    case K4DualButton => ButtonState(k4 == Dual, k4 != NoK4 && k4 != Dual)
    case K4ChainButton => ButtonState(k4 == Chain, k4 != NoK4 && k4 != Chain)
  }

  /** The panel as a whole: every button, and the two text inputs. */
  datatype PanelStates = PanelStates(
    buttons: map<PanelButton, ButtonState>,
    locationInputEnabled: bool,
    locationInputValue: string,
    chainInputEnabled: bool,
    chainInputValue: string)

  function PanelStatesOf(ui: UiState, items: seq<Item>): (p: PanelStates)
    ensures forall b :: b in p.buttons
    // the button of the current edit mode is the one shown active
    ensures forall b :: IsEditEntry(b) ==>
              (p.buttons[b].active <==> ui.activeEditMode != NoEdit && b == EntryOf(ui.activeEditMode))
    // while a mode is on, every other entry button is locked, except location during K3
    ensures ui.activeEditMode != NoEdit ==>
              forall b ::
                (IsEditEntry(b) && b != EntryOf(ui.activeEditMode) && !(ui.activeEditMode == K3 && b == LocationButton))
                ==> p.buttons[b].disabled
    // with no mode on, only the light-filter buttons can be locked, for lack of rows to act on
    ensures ui.activeEditMode == NoEdit ==>
              && !p.buttons[LocationButton].disabled && !p.buttons[FabricColorButton].disabled
              && !p.buttons[K3EditButton].disabled
              && (p.buttons[LFButton].disabled <==> !HasBO1(items))
              && (p.buttons[LFDeleteButton].disabled <==> ui.lfModifiedRowIndexes == {})
    // location is locked by the K2 family only, so it stays usable in K3
    ensures p.buttons[LocationButton].disabled <==> IsK2Family(ui.activeEditMode)
    // the light-filter buttons lock under another mode, or when no row is left to act on
    ensures p.buttons[LFButton].disabled <==>
              (ui.activeEditMode != NoEdit && ui.activeEditMode != K2LFSelect) || !HasBO1(items)
    ensures p.buttons[LFDeleteButton].disabled <==>
              (ui.activeEditMode != NoEdit && ui.activeEditMode != K2LFDeleteSelect) || ui.lfModifiedRowIndexes == {}
    // a button shown active is locked only when the rows it works on are gone
    ensures forall b :: p.buttons[b].active && p.buttons[b].disabled ==>
              (b == LFButton && !HasBO1(items)) || (b == LFDeleteButton && ui.lfModifiedRowIndexes == {})
    // the batch-cycle buttons work in K3 only
    ensures forall b :: b in {K3OverButton, K3OiButton, K3LrButton} ==>
              (p.buttons[b].disabled <==> ui.activeEditMode != K3)
    // at most one K4 button is locked, and never the active one
    ensures !(p.buttons[K4DualButton].disabled && p.buttons[K4ChainButton].disabled)
    ensures p.buttons[K4DualButton].active <==> ui.k4ActiveMode == Dual
    ensures p.buttons[K4ChainButton].active <==> ui.k4ActiveMode == Chain
    ensures p.buttons[K4DualButton].disabled <==> ui.k4ActiveMode == Chain
    ensures p.buttons[K4ChainButton].disabled <==> ui.k4ActiveMode == Dual
    ensures p.locationInputEnabled <==> ui.activeEditMode == K1
    ensures p.chainInputEnabled <==>
              ui.k4ActiveMode == Chain && ui.targetCell.Some? && ui.targetCell.value.column == "chain"
    ensures p.locationInputValue == ui.locationInputValue && p.chainInputValue == ui.chainInputValue
  {
    var buttons := map b: PanelButton | true :: PanelButtonState(ui, items, b);
    PanelStates(
      buttons,
      ui.activeEditMode == K1,
      ui.locationInputValue,
      ui.k4ActiveMode == Chain && ui.targetCell.Some? && ui.targetCell.value.column == "chain",
      ui.chainInputValue)
  }

  /** The K4 buttons do not depend on the edit mode: they stay usable in K1, K2 and K3. */
  lemma K4IndependentOfEditMode(ui: UiState, items: seq<Item>, mode: EditMode)
    ensures PanelStatesOf(ui, items).buttons[K4DualButton] == PanelStatesOf(ui.(activeEditMode := mode), items).buttons[K4DualButton]
    ensures PanelStatesOf(ui, items).buttons[K4ChainButton] == PanelStatesOf(ui.(activeEditMode := mode), items).buttons[K4ChainButton]
  {
  }

  /** A row with no width, no height and no fabric type. */
  predicate IsBlankRow(item: Item) {
    !Truthy(item.width) && !Truthy(item.height) && !Truthy(item.fabricType)
  }

  /**
   * The selections `_updateButtonStates` reads without throwing: none, a row
   * of the table, or index -1 in multi-delete mode (the only row read is then
   * `items[0]`, and only when the table is not empty).
   */
  predicate SelectionReadable(ui: UiState, items: seq<Item>) {
    ui.selectedRowIndex.Some? ==>
      var s := ui.selectedRowIndex.value;
      0 <= s < |items| || (s == -1 && ui.isMultiDeleteMode)
  }

  datatype KeyStates = KeyStates(insertEnabled: bool, deleteEnabled: bool, mDelEnabled: bool, clearEnabled: bool)

  /**
   * `_updateButtonStates`: which of the insert, delete, M-Del and clear keys
   * can be pressed; `None` when reading the next or the selected row throws.
   */
  function KeyStatesOf(ui: UiState, items: seq<Item>): (r: Option<KeyStates>)
    ensures r.Some? <==> SelectionReadable(ui, items)
    // insert needs a selected row with a filled row after it
    ensures r.Some? ==>
              (r.value.insertEnabled <==>
                 ui.selectedRowIndex.Some? && ui.selectedRowIndex.value + 1 < |items|
                 && !IsBlankRow(items[ui.selectedRowIndex.value + 1]))
    // in multi-delete mode, delete needs a selection
    ensures r.Some? && ui.isMultiDeleteMode ==> (r.value.deleteEnabled <==> ui.multiDeleteSelectedIndexes != {})
    // otherwise delete needs a selected row that is not the trailing blank row
    ensures r.Some? && !ui.isMultiDeleteMode ==>
              (r.value.deleteEnabled <==>
                 ui.selectedRowIndex.Some? &&
                 !(ui.selectedRowIndex.value == |items| - 1 && IsBlankRow(items[ui.selectedRowIndex.value])))
    // whatever can be inserted after can be deleted
    ensures r.Some? && !ui.isMultiDeleteMode && r.value.insertEnabled ==> r.value.deleteEnabled
    ensures r.Some? ==> (r.value.clearEnabled <==> ui.selectedRowIndex.Some?)
    ensures r.Some? ==> (r.value.mDelEnabled <==> r.value.clearEnabled || ui.isMultiDeleteMode)
    // with no row selected, nothing is read, and only M-Del (in multi-delete mode) and delete (with a multi-selection) can be pressed
    ensures ui.selectedRowIndex.None? ==> r.Some? && !r.value.insertEnabled && !r.value.clearEnabled
  {
    var selected := ui.selectedRowIndex.Some?;
    if selected && !(-1 <= ui.selectedRowIndex.value < |items|) then
      None  // `items[selectedRowIndex + 1]` is undefined: reading its width throws
    else
      var insertDisabled :=
        if selected then
          var s := ui.selectedRowIndex.value;
          if s == |items| - 1 then true else IsBlankRow(items[s + 1])
        else true;
      if !ui.isMultiDeleteMode && selected && ui.selectedRowIndex.value == -1 then
        None  // `items[-1]` is undefined: reading its width throws
      else
        var deleteDisabled :=
          if ui.isMultiDeleteMode then ui.multiDeleteSelectedIndexes == {}
          else if selected then
            var s := ui.selectedRowIndex.value;
            s == |items| - 1 && IsBlankRow(items[s])
          else true;
        Some(KeyStates(!insertDisabled, !deleteDisabled, selected || ui.isMultiDeleteMode, selected))
  }
}
