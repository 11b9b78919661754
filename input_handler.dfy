/**
 * The input handler's decisions: which command a physical key, a click in
 * the results table, or a button of the on-screen keypad turns into.  Each is
 * a function giving the one event to publish, or none.
 */
module InputHandler {
  import opened Js
  import opened UiModel

  const ArrowKeys: seq<string> := ["ArrowUp", "ArrowDown", "ArrowLeft", "ArrowRight"]
  const Directions: set<string> := {"up", "down", "left", "right"}

  /** `key.replace('Arrow', '').toLowerCase()` for one of the four arrow keys. */
  function ArrowDirection(key: string): (d: string)
    requires key in ArrowKeys
    ensures d in Directions
    ensures key == "ArrowUp" ==> d == "up"
    ensures key == "ArrowDown" ==> d == "down"
    ensures key == "ArrowLeft" ==> d == "left"
    ensures key == "ArrowRight" ==> d == "right"
  {
    var d := ToLower(key[5..]);
    assert d == "up" || d == "down" || d == "left" || d == "right" by {
      if key == "ArrowUp" { assert key[5..] == "Up"; }
      else if key == "ArrowDown" { assert key[5..] == "Down"; }
      else if key == "ArrowLeft" { assert key[5..] == "Left"; }
      else { assert key[5..] == "Right"; }
    }
    d
  }

  /** The lower-case key names the `switch` has a case for. */
  const NamedKeys: set<string> := {"w", "h", "t", "$", "enter", "backspace", "delete"}

  /** The `switch` on `key.toLowerCase()`, reached when the key is neither an arrow nor a digit. */
  function NamedKeyCommand(lower: string): (r: Option<Event>)
    // only the seven cased names publish; every other key falls through and publishes nothing
    ensures r.Some? <==> lower in NamedKeys
    ensures r.Some? && r.value.NumericKeyPressed? ==> r.value.key in {"W", "H", "ENT", "DEL"}
    ensures r.Some? && !r.value.NumericKeyPressed? ==>
              r.value in {UserRequestedCycleType, UserRequestedCalculateAndSum, UserRequestedClearRow}
  {
    if lower == "w" then Some(NumericKeyPressed("W"))
    else if lower == "h" then Some(NumericKeyPressed("H"))
    else if lower == "t" then Some(UserRequestedCycleType)
    else if lower == "$" then Some(UserRequestedCalculateAndSum)
    else if lower == "enter" then Some(NumericKeyPressed("ENT"))
    else if lower == "backspace" then Some(NumericKeyPressed("DEL"))
    else if lower == "delete" then Some(UserRequestedClearRow)
    else None
  }

  /**
   * The window `keydown` listener: the event published for `key`, where
   * `inEditableText` says focus is in a text input that is not read-only.
   */
  function KeyCommand(key: string, inEditableText: bool): (r: Option<Event>)
    // text inputs keep every key, arrows included
    ensures inEditableText ==> r == None
    // the arrows, and only they, move the active cell
    ensures (r.Some? && r.value.UserMovedActiveCell?) <==> !inEditableText && key in ArrowKeys
    ensures r.Some? && r.value.UserMovedActiveCell? ==> r.value.direction in Directions
    // a digit key is passed on as it is, before the named keys are looked at
    ensures !inEditableText && key !in ArrowKeys && IsDigitKey(key) ==> r == Some(NumericKeyPressed(key))
    // a keypad key is a digit key, W, H, ENT or DEL
    ensures r.Some? && r.value.NumericKeyPressed? ==>
              (IsDigitKey(key) && r.value.key == key) || r.value.key in {"W", "H", "ENT", "DEL"}
    // nothing else is ever published
    ensures r.Some? ==> r.value.NumericKeyPressed? || r.value.UserMovedActiveCell? ||
                        r.value in {UserRequestedCycleType, UserRequestedCalculateAndSum, UserRequestedClearRow}
  {
    if inEditableText then None
    else if key in ArrowKeys then Some(UserMovedActiveCell(ArrowDirection(key)))
    else if IsDigitKey(key) then Some(NumericKeyPressed(key))
    else NamedKeyCommand(ToLower(key))
  }

  /**
   * A key that is neither an arrow nor a digit key publishes something
   * exactly when its lower-case form is one of the seven cased names.
   */
  lemma NamedKey(key: string)
    requires key !in ArrowKeys && !IsDigitKey(key)
    ensures KeyCommand(key, false) == NamedKeyCommand(ToLower(key))
    ensures KeyCommand(key, false).Some? <==> ToLower(key) in NamedKeys
  {
  }

  /**
   * Among keys that are neither arrows nor digit keys, case does not matter.
   * (It does for the others: `arrowup` is no arrow, and `1A` and `1a` are
   * published as they are.)
   */
  lemma NamedKeysIgnoreCase(k1: string, k2: string)
    requires k1 !in ArrowKeys && !IsDigitKey(k1) && k2 !in ArrowKeys && !IsDigitKey(k2)
    requires ToLower(k1) == ToLower(k2)
    ensures KeyCommand(k1, false) == KeyCommand(k2, false)
  {
    NamedKey(k1);
    NamedKey(k2);
  }

  /** Upper- and lower-case letters give the same command. */
  lemma LetterKeys()
    ensures KeyCommand("w", false) == KeyCommand("W", false) == Some(NumericKeyPressed("W"))
    ensures KeyCommand("h", false) == KeyCommand("H", false) == Some(NumericKeyPressed("H"))
    ensures KeyCommand("t", false) == KeyCommand("T", false) == Some(UserRequestedCycleType)
    ensures forall c :: ('a' <= c <= 'z' || 'A' <= c <= 'Z') && LowerChar(c) !in {'w', 'h', 't'} ==>
              KeyCommand([c], false) == None
  {
    LetterKey('w'); LetterKey('W'); LetterKey('h'); LetterKey('H'); LetterKey('t'); LetterKey('T');
    forall c | ('a' <= c <= 'z' || 'A' <= c <= 'Z') && LowerChar(c) !in {'w', 'h', 't'}
      ensures KeyCommand([c], false) == None
    {
      LetterKey(c);
    }
  }

  /** A one-letter key is decided by the switch on its lower-case letter. */
  lemma LetterKey(c: char)
    requires 'a' <= c <= 'z' || 'A' <= c <= 'Z'
    ensures KeyCommand([c], false) == NamedKeyCommand([LowerChar(c)])
  {
    DigitKeyTest([c]);
    assert ToLower([c]) == [LowerChar(c)];
    NamedKey([c]);
  }

  /** `Enter` and `Backspace` are the keypad's `ENT` and `DEL`. */
  lemma EditingKeys()
    ensures KeyCommand("Enter", false) == Some(NumericKeyPressed("ENT"))
    ensures KeyCommand("Backspace", false) == Some(NumericKeyPressed("DEL"))
  {
    DigitKeyTest("Enter"); NamedKey("Enter");
    DigitKeyTest("Backspace"); NamedKey("Backspace");
  }

  /** `$` asks for the sum and `Delete` clears the row. */
  lemma CommandKeys()
    ensures KeyCommand("$", false) == Some(UserRequestedCalculateAndSum)
    ensures KeyCommand("Delete", false) == Some(UserRequestedClearRow)
  {
    DigitKeyTest("$"); NamedKey("$");
    DigitKeyTest("Delete"); NamedKey("Delete");
  }

  /** `Escape` has no case in the switch. */
  lemma EscapeKey()
    ensures KeyCommand("Escape", false) == None
  {
    DigitKeyTest("Escape"); NamedKey("Escape");
  }

  /**
   * The results-table click listener.  `isCell` says the target is a `TD`;
   * `column` and `rowIndex` are its `data-column` and its row's
   * `data-row-index` attributes, `None` when absent.
   */
  function TableClick(isCell: bool, column: Option<string>, rowIndex: Option<string>): (r: Option<Event>)
    // both attributes must be present and non-empty
    ensures r.Some? <==> isCell && column.Some? && column.value != "" && rowIndex.Some? && rowIndex.value != ""
    // the sequence column is told apart, every other column is a plain cell click
    ensures r.Some? ==> (r.value.SequenceCellClicked? <==> column.value == "sequence")
    ensures r.Some? ==> r.value.SequenceCellClicked? || r.value.TableCellClicked?
    // the payload is the column and the row index read by parseInt
    ensures r.Some? ==> r.value.column == column.value && r.value.rowIndex == ParseInt10(rowIndex.value)
  {
    if isCell && column.Some? && column.value != "" && rowIndex.Some? && rowIndex.value != "" then
      var row := ParseInt10(rowIndex.value);
      if column.value == "sequence" then Some(SequenceCellClicked(row, column.value))
      else Some(TableCellClicked(row, column.value))
    else None
  }

  /** A row rendered with index `n` reports index `n` when one of its cells is clicked. */
  lemma ClickOnRenderedRow(n: nat, column: string)
    requires column != ""
    ensures TableClick(true, Some(column), Some(Decimal(n))).Some?
    ensures TableClick(true, Some(column), Some(Decimal(n))).value.rowIndex == Int(n)
  {
    ParseIntOfDecimal(n);
  }

  const KeypadIds: seq<string> := [
    "key-7", "key-8", "key-9", "key-4", "key-5", "key-6", "key-1", "key-2", "key-3", "key-0",
    "key-del", "key-enter", "key-w", "key-h", "key-type", "key-clear", "key-price"]

  /** The on-screen keypad: the event each button publishes. */
  const KeypadTable: map<string, Event> := map[
    "key-7" := NumericKeyPressed("7"), "key-8" := NumericKeyPressed("8"),
    "key-9" := NumericKeyPressed("9"), "key-4" := NumericKeyPressed("4"),
    "key-5" := NumericKeyPressed("5"), "key-6" := NumericKeyPressed("6"),
    "key-1" := NumericKeyPressed("1"), "key-2" := NumericKeyPressed("2"),
    "key-3" := NumericKeyPressed("3"), "key-0" := NumericKeyPressed("0"),
    "key-del" := NumericKeyPressed("DEL"), "key-enter" := NumericKeyPressed("ENT"),
    "key-w" := NumericKeyPressed("W"), "key-h" := NumericKeyPressed("H"),
    "key-type" := UserRequestedCycleType,
    "key-clear" := UserRequestedClearRow,
    "key-price" := UserRequestedCalculateAndSum]

  function KeypadEvent(id: string): (r: Option<Event>)
    ensures r.Some? <==> id in KeypadIds
    ensures r.Some? && r.value.NumericKeyPressed? ==>
              r.value.key in {"0", "1", "2", "3", "4", "5", "6", "7", "8", "9", "DEL", "ENT", "W", "H"}
    ensures r.Some? ==> r.value.NumericKeyPressed? ||
                        r.value in {UserRequestedCycleType, UserRequestedClearRow, UserRequestedCalculateAndSum}
  {
    if id in KeypadTable then Some(KeypadTable[id]) else None
  }

  /** The physical key that does what a keypad button does. */
  function KeyFor(id: string): string
    requires id in KeypadIds
  {
    if id == "key-del" then "Backspace"
    else if id == "key-enter" then "Enter"
    else if id == "key-w" then "w"
    else if id == "key-h" then "h"
    else if id == "key-type" then "t"
    else if id == "key-clear" then "Delete"
    else if id == "key-price" then "$"
    else id[4..]
  }

  lemma DigitKeysOfKeypad(d: string)
    requires d in {"0", "1", "2", "3", "4", "5", "6", "7", "8", "9"}
    ensures KeyCommand(d, false) == Some(NumericKeyPressed(d))
  {
    DigitKeyTest(d);
  }

  /** The keypad's `W`, `H` and type buttons match the letter keys. */
  lemma KeypadLetterButtons(id: string)
    requires id == "key-w" || id == "key-h" || id == "key-type"
    ensures KeyCommand(KeyFor(id), false) == KeypadEvent(id)
  {
    LetterKey('w'); LetterKey('h'); LetterKey('t');
  }

  /** The keypad's `DEL` and `ENT` buttons match `Backspace` and `Enter`. */
  lemma KeypadEditingButtons(id: string)
    requires id == "key-del" || id == "key-enter"
    ensures KeyCommand(KeyFor(id), false) == KeypadEvent(id)
  {
    EditingKeys();
  }

  /** The keypad's clear and price buttons match `Delete` and `$`. */
  lemma KeypadCommandButtons(id: string)
    requires id == "key-clear" || id == "key-price"
    ensures KeyCommand(KeyFor(id), false) == KeypadEvent(id)
  {
    CommandKeys();
  }

  /** The keypad's digit buttons match the digit keys their ids end in. */
  lemma KeypadDigitButtons(id: string)
    requires id in KeypadIds
    requires !(id in {"key-w", "key-h", "key-type", "key-del", "key-enter", "key-clear", "key-price"})
    ensures KeyCommand(KeyFor(id), false) == KeypadEvent(id)
  {
    var key := KeyFor(id);
    assert key == id[4..];
    DigitKeysOfKeypad(key);
  }

  /** Every keypad button has a physical key, outside text inputs, that publishes the same event. */
  lemma KeypadMatchesKeyboard(id: string)
    requires id in KeypadIds
    ensures KeyCommand(KeyFor(id), false) == KeypadEvent(id)
  {
    if id == "key-w" || id == "key-h" || id == "key-type" {
      KeypadLetterButtons(id);
    } else if id == "key-del" || id == "key-enter" {
      KeypadEditingButtons(id);
    } else if id == "key-clear" || id == "key-price" {
      KeypadCommandButtons(id);
    } else {
      KeypadDigitButtons(id);
    }
  }
}
