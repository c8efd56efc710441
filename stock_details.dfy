/** The display rules of the stock-details dialog of `StockDetails.jsx`: nothing for a
    missing item, the status badge, the optimal-stock fallback, one row per stock movement
    with its direction, the empty-history note, and the location and update fallbacks. */
module StockDetails {
  import opened Seqs
  import opened Text
  import opened Wrappers

  /** One stock movement; `kind` is the record's `type` field. */
  datatype Movement = Movement(kind: string, quantity: int, date: string)

  /** The item shown; the optional fields may be absent. */
  datatype StockItem = StockItem(
    name: string,
    sku: string,
    quantity: int,
    reorderPoint: int,
    optimalStock: Option<int>,
    status: string,
    location: Option<string>,
    lastUpdated: Option<string>,
    movements: Option<seq<Movement>>)

  /** One row of the movement history. */
  datatype MovementView = MovementView(trendingUp: bool, caption: string, amount: string, date: string)

  datatype StockView = StockView(
    title: string,
    sku: string,
    badge: string,
    optimalStock: int,
    movementRows: seq<MovementView>,
    showsNoMovementsNote: bool,
    location: string,
    lastUpdated: string)

  /** "warning" for the exact status "Low Stock", "success" for every other status. */
  function BadgeVariant(status: string): (v: string)
    ensures v == "warning" <==> status == "Low Stock"
    ensures v != "warning" ==> v == "success"
  {
    if status == "Low Stock" then "warning" else "success"
  }

  /** The optimal stock if it is set and non-zero (a zero is falsy), else twice the
      reorder point. */
  function OptimalStock(item: StockItem): (r: int)
    ensures item.optimalStock.Some? && item.optimalStock.value != 0 ==> r == item.optimalStock.value
    ensures item.optimalStock == None || item.optimalStock == Some(0) ==> r == 2 * item.reorderPoint
  {
    if item.optimalStock.Some? && item.optimalStock.value != 0 then item.optimalStock.value
    else item.reorderPoint * 2
  }

  /** A text field shown as is when present and non-empty, else the placeholder. */
  function OrElse(value: Option<string>, placeholder: string): (r: string)
    ensures r == placeholder <==> value.None? || value.value == "" || value.value == placeholder
    ensures r != placeholder ==> value == Some(r)
  {
    if value.Some? && value.value != "" then value.value else placeholder
  }

  /** The history: an absent list counts as empty. */
  function MovementsOf(item: StockItem): seq<Movement> {
    if item.movements.Some? then item.movements.value else []
  }

  /** An increase reads "Stock Added" with a "+" and an up arrow; any other kind reads
      "Stock Removed" with a "-" and a down arrow. */
  function MovementRow(m: Movement): (v: MovementView)
    ensures v.trendingUp <==> m.kind == "increase"
    ensures v.caption == if m.kind == "increase" then "Stock Added" else "Stock Removed"
    ensures |v.amount| > 0 && v.amount[0] == if m.kind == "increase" then '+' else '-'
    ensures v.date == m.date
  {
    var up := m.kind == "increase";
    MovementView(up, if up then "Stock Added" else "Stock Removed",
                 [if up then '+' else '-'] + IntToString(m.quantity) + " units", m.date)
  }

  /** The amount text reads back as its sign and the movement's quantity. */
  lemma MovementAmountReadsBack(m: Movement)
    ensures var a := MovementRow(m).amount;
      |a| >= 8 && a[|a| - 6..] == " units" && ParseInt(a[1..|a| - 6]) == Some(m.quantity)
  {
    var a := MovementRow(m).amount;
    assert a[1..|a| - 6] == IntToString(m.quantity);
    IntToStringRoundTrip(m.quantity);
  }

  /** The dialog for an item, or nothing when there is no item. */
  function RenderStockDetails(item: Option<StockItem>): (r: Option<StockView>)
    ensures r.None? <==> item.None?
    ensures r.Some? ==> r.value.title == item.value.name && r.value.sku == item.value.sku
    ensures r.Some? ==> r.value.badge == BadgeVariant(item.value.status)
    ensures r.Some? ==> r.value.optimalStock == OptimalStock(item.value)
    ensures r.Some? ==> r.value.location == OrElse(item.value.location, "Not specified")
    ensures r.Some? ==> r.value.lastUpdated == OrElse(item.value.lastUpdated, "Not available")
    ensures r.Some? ==> (r.value.showsNoMovementsNote <==> r.value.movementRows == [])
    ensures r.Some? ==> |r.value.movementRows| == |MovementsOf(item.value)|
    ensures r.Some? ==> forall i :: 0 <= i < |r.value.movementRows| ==>
      r.value.movementRows[i] == MovementRow(MovementsOf(item.value)[i])
  {
    match item
    case None => None
    case Some(it) =>
      var rows := Map(MovementRow, MovementsOf(it));
      Some(StockView(it.name, it.sku, BadgeVariant(it.status), OptimalStock(it), rows,
                     it.movements.None? || |it.movements.value| == 0,
                     OrElse(it.location, "Not specified"), OrElse(it.lastUpdated, "Not available")))
  }

  /** The note appears exactly when the history is absent or empty. */
  lemma NoMovementsNoteIff(item: StockItem)
    ensures RenderStockDetails(Some(item)).value.showsNoMovementsNote <==>
      item.movements.None? || item.movements.value == []
  {
  }

  /** A rendering that stops with the named error. */
  datatype RenderError = ReferenceError(name: string)

  /** The dialog as the file is written: the amount's colour class is computed with a `cn`
      helper the file never imports, so rendering any movement row throws. */
  function RenderStockDetailsAsWritten(item: Option<StockItem>): (r: Result<Option<StockView>, RenderError>)
    ensures r.Failure? <==> item.Some? && MovementsOf(item.value) != []
    ensures r.Success? ==> r.value == RenderStockDetails(item)
  {
    if item.Some? && MovementsOf(item.value) != [] then Failure(ReferenceError("cn"))
    else Success(RenderStockDetails(item))
  }

  /** An item with a single movement: the written dialog fails, the intended one shows the
      row "Stock Added", "+3 units". */
  lemma SingleMovementFails()
    ensures var item := StockItem("Widget", "W-1", 10, 5, None, "In Stock", None, None,
                                  Some([Movement("increase", 3, "2024-03-01")]));
      && RenderStockDetailsAsWritten(Some(item)) == Failure(ReferenceError("cn"))
      && RenderStockDetails(Some(item)).value.movementRows ==
           [MovementView(true, "Stock Added", "+3 units", "2024-03-01")]
  {
    var m := Movement("increase", 3, "2024-03-01");
    assert IntToString(3) == "3";
    assert MovementRow(m) == MovementView(true, "Stock Added", "+3 units", "2024-03-01");
    assert Map(MovementRow, [m]) == [MovementRow(m)];
  }
}
