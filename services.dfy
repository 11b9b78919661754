/**
 * The collaborators the views and the controller talk to.  Their own source
 * is not part of this model: each is the state it holds (the UI state, the
 * quote data) or a log of what it was asked to do (published events, calls
 * into the K1 location sub-view).
 */
module Services {
  import opened Js
  import opened UiModel

  /** Holds the UI state; `getState()` is `state`, each setter replaces one field. */
  class UiService {
    var state: UiState

    constructor (initial: UiState)
      ensures state == initial
    {
      state := initial;
    }
  }

  /** The cycle a K3 column steps through. */
  function K3Cycle(column: string): seq<Val> {
    if column == "over" then [Text("O"), Text("")]
    else if column == "oi" then [Text("IN"), Text("OUT")]
    else if column == "lr" then [Text("L"), Text("R")]
    else []
  }

  predicate IsK3Column(column: string) {
    column == "over" || column == "oi" || column == "lr"
  }

  /** The value after `v` in `cycle`; a value not in the cycle steps to its first entry. */
  function NextInCycle(cycle: seq<Val>, v: Val): (r: Val)
    requires |cycle| == 2 && cycle[0] != cycle[1]
    ensures r in cycle && r != v
  {
    if v == cycle[0] then cycle[1] else cycle[0]
  }

  function K3Field(item: Item, column: string): Val
    requires IsK3Column(column)
  {
    if column == "over" then item.over else if column == "oi" then item.oi else item.lr
  }

  function WithK3Field(item: Item, column: string, v: Val): Item
    requires IsK3Column(column)
  {
    if column == "over" then item.(over := v)
    else if column == "oi" then item.(oi := v)
    else item.(lr := v)
  }

  /** One row with its K3 `column` stepped forward once; the row's other fields are kept. */
  function CycleK3Item(item: Item, column: string): (r: Item)
    requires IsK3Column(column)
    ensures K3Field(r, column) in K3Cycle(column)
    ensures K3Field(r, column) != K3Field(item, column)
    ensures forall c :: IsK3Column(c) && c != column ==> K3Field(r, c) == K3Field(item, c)
    ensures r.(over := item.over, oi := item.oi, lr := item.lr) == item
  {
    WithK3Field(item, column, NextInCycle(K3Cycle(column), K3Field(item, column)))
  }

  /** Cycling one cell twice restores it exactly when its value was on the cycle. */
  lemma CycleK3Twice(item: Item, column: string)
    requires IsK3Column(column)
    ensures CycleK3Item(CycleK3Item(item, column), column) == item
            <==> K3Field(item, column) in K3Cycle(column)
  {
    var once := CycleK3Item(item, column);
    var twice := CycleK3Item(once, column);
    if twice == item {
      assert K3Field(item, column) == K3Field(twice, column);
    }
  }

  /** The toggle of the dual-bracket marker: `'D'` becomes `''`, anything else `'D'`. */
  function ToggledDual(v: Val): (r: Val)
    ensures r == Text("") || r == Text("D")
    ensures (r == Text("")) <==> (v == Text("D"))
  {
    if v == Text("D") then Text("") else Text("D")
  }

  /** Holds the quote; `getItems()` is `Items()`. */
  class QuoteService {
    var data: QuoteData

    constructor (initial: QuoteData)
      ensures data == initial
    {
      data := initial;
    }

    function Items(): seq<Item>
      reads this
    {
      data.rollerBlindItems
    }

    /** `cycleK3Property(rowIndex, column)`: steps that one cell along its cycle. */
    method CycleK3Property(rowIndex: int, column: string)
      requires 0 <= rowIndex < |Items()| && IsK3Column(column)
      modifies this
      ensures Items() == old(Items())[rowIndex := CycleK3Item(old(Items())[rowIndex], column)]
    {
      var items := data.rollerBlindItems;
      data := data.(rollerBlindItems := items[rowIndex := CycleK3Item(items[rowIndex], column)]);
    }

    /** `updateItemProperty(rowIndex, 'dual', value)`. */
    method UpdateDual(rowIndex: int, value: Val)
      requires 0 <= rowIndex < |Items()|
      modifies this
      ensures Items() == old(Items())[rowIndex := old(Items())[rowIndex].(dual := value)]
    {
      var items := data.rollerBlindItems;
      data := data.(rollerBlindItems := items[rowIndex := items[rowIndex].(dual := value)]);
    }
  }

  /** The event aggregator, seen through the events published on it. */
  class EventAggregator {
    var log: seq<Event>

    constructor ()
      ensures log == []
    {
      log := [];
    }

    method Publish(e: Event)
      modifies this
      ensures log == old(log) + [e]
    {
      log := log + [e];
    }
  }

  /** The K1 location sub-view, seen through the calls handed to it. */
  class K1LocationView {
    var calls: seq<K1Call>

    constructor ()
      ensures calls == []
    {
      calls := [];
    }

    method Receive(c: K1Call)
      modifies this
      ensures calls == old(calls) + [c]
    {
      calls := calls + [c];
    }
  }
}
