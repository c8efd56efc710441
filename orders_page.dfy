/** The orders table of `Orders.jsx`: the filter chips, the sort-order record flipped by
    every header click, the header keys, and the row drawer. Rows are never sorted or
    filtered. */
module OrdersPage {
  import opened Seqs
  import opened Text
  import opened Wrappers

  /** The two values `direction` takes, "asc" and "desc". */
  datatype Direction = Asc | Desc

  datatype SortOrder = SortOrder(column: string, direction: Direction)

  /** One row of the table; every field is shown as written. */
  datatype Order = Order(id: string, customer: string, status: string, date: string, amount: string)

  /** The three rows the page is built with. */
  function SeedOrders(): seq<Order> {
    [
      Order("001", "Alice", "Shipped", "2024-11-08", "$100.00"),
      Order("002", "Bob", "Pending", "2024-11-07", "$50.00"),
      Order("003", "Charlie", "Cancelled", "2024-11-06", "$75.00")
    ]
  }

  /** The column headers, in display order. */
  function Headers(): seq<string> {
    ["Order ID", "Customer", "Status", "Date", "Amount"]
  }

  function InitialSortOrder(): SortOrder {
    SortOrder("date", Asc)
  }

  function Flip(d: Direction): (e: Direction)
    ensures e != d
  {
    if d == Asc then Desc else Asc
  }

  /** The sort record after a click on the column keyed `column`: that column, and the
      previous direction reversed whatever column was sorted before. */
  function Toggled(s: SortOrder, column: string): (t: SortOrder)
    ensures t.column == column
    ensures t.direction != s.direction
  {
    SortOrder(column, Flip(s.direction))
  }

  /** Two clicks bring the direction back, on any two columns. */
  lemma ToggleTwiceRestoresDirection(s: SortOrder, c1: string, c2: string)
    ensures Toggled(Toggled(s, c1), c2).direction == s.direction
    ensures Toggled(Toggled(s, c1), c1) == s.(column := c1)
  {
  }

  /** Clicking a new column does not start it ascending: from the initial record, a click on
      "customer" sorts that column descending. */
  lemma NewColumnKeepsFlipping()
    ensures Toggled(InitialSortOrder(), "customer") == SortOrder("customer", Desc)
  {
  }

  /** The chips with every entry equal to `f` removed, the rest in their order. */
  function WithoutFilter(filters: seq<string>, f: string): (r: seq<string>)
    ensures f !in r
    ensures Subseq(r, filters)
    ensures forall i :: 0 <= i < |filters| && filters[i] != f ==> filters[i] in r
    ensures f !in filters ==> r == filters
  {
    FilterKeepsAll((x: string) => x != f, filters);
    Filter((x: string) => x != f, filters)
  }

  /** Removing a chip just added removes it with all its earlier copies, and nothing else. */
  lemma ClearAfterApply(filters: seq<string>, f: string)
    ensures WithoutFilter(filters + [f], f) == WithoutFilter(filters, f)
  {
    FilterConcat((x: string) => x != f, filters, [f]);
    assert Filter((x: string) => x != f, [f]) == [];
  }

  /** Clearing one chip leaves every other chip as often as it was there. */
  lemma {:induction false} ClearKeepsOtherCounts(filters: seq<string>, f: string, g: string)
    requires g != f
    ensures multiset(WithoutFilter(filters, f))[g] == multiset(filters)[g]
    decreases |filters|
  {
    if filters != [] {
      assert filters == [filters[0]] + filters[1..];
      FilterConcat((x: string) => x != f, [filters[0]], filters[1..]);
      ClearKeepsOtherCounts(filters[1..], f, g);
    }
  }

  /** The key a header click passes: the header label lower-cased. */
  function HeaderKey(header: string): string {
    ToLower(header)
  }

  lemma HeaderKeys()
    ensures Map(HeaderKey, Headers()) == ["order id", "customer", "status", "date", "amount"]
  {
    LowerCased("Order ID", "order id");
    LowerCased("Customer", "customer");
    LowerCased("Status", "status");
    LowerCased("Date", "date");
    LowerCased("Amount", "amount");
  }

  /** `t` is `s` lower-cased, character by character. */
  lemma LowerCased(s: string, t: string)
    requires |s| == |t| && forall i :: 0 <= i < |s| ==> LowerChar(s[i]) == t[i]
    ensures HeaderKey(s) == t
  {
  }

  /** A header shows an arrow when its key is the sorted column; the arrow points up iff
      the direction is ascending. */
  predicate ShowsArrow(s: SortOrder, header: string) {
    s.column == HeaderKey(header)
  }

  predicate ArrowUp(s: SortOrder) {
    s.direction == Asc
  }

  /** After a click on a header, that header and no other shows the arrow. */
  lemma ClickedHeaderAloneShowsArrow(s: SortOrder, i: nat)
    requires i < |Headers()|
    ensures forall j :: 0 <= j < |Headers()| ==>
      (ShowsArrow(Toggled(s, HeaderKey(Headers()[i])), Headers()[j]) <==> j == i)
  {
    HeaderKeys();
    assert forall j :: 0 <= j < 5 ==> HeaderKey(Headers()[j]) == Map(HeaderKey, Headers())[j];
  }

  /** On the first render only the "Date" header shows an arrow, and it points up. */
  lemma InitialArrow()
    ensures forall j :: 0 <= j < |Headers()| ==> (ShowsArrow(InitialSortOrder(), Headers()[j]) <==> j == 3)
    ensures ArrowUp(InitialSortOrder())
  {
    HeaderKeys();
    assert forall j :: 0 <= j < 5 ==> HeaderKey(Headers()[j]) == Map(HeaderKey, Headers())[j];
  }

  /** The rows shown: the seed list in its own order whatever the sort record and the chips;
      none while loading. */
  function RenderedRows(s: SortOrder, filters: seq<string>, loading: bool): (r: seq<Order>)
    ensures !loading ==> r == SeedOrders()
    ensures loading ==> r == []
  {
    if loading then [] else SeedOrders()
  }

  /** The page's state: the sort record, the chips, the selected row and the drawer flag. */
  class OrdersPageState {
    var sortOrder: SortOrder
    var filters: seq<string>
    var selectedOrder: Option<Order>
    var isDrawerOpen: bool
    var loading: bool

    constructor ()
      ensures sortOrder == InitialSortOrder() && filters == []
      ensures selectedOrder == None && !isDrawerOpen && !loading
    {
      sortOrder := InitialSortOrder();
      filters := [];
      selectedOrder := None;
      isDrawerOpen := false;
      loading := false;
    }

    /** Appends a chip; duplicates are kept. */
    method ApplyFilter(f: string)
      modifies this
      ensures filters == old(filters) + [f] && |filters| == |old(filters)| + 1
      ensures sortOrder == old(sortOrder) && selectedOrder == old(selectedOrder)
      ensures isDrawerOpen == old(isDrawerOpen) && loading == old(loading)
    {
      filters := filters + [f];
    }

    method ClearFilter(f: string)
      modifies this
      ensures filters == WithoutFilter(old(filters), f)
      ensures sortOrder == old(sortOrder) && selectedOrder == old(selectedOrder)
      ensures isDrawerOpen == old(isDrawerOpen) && loading == old(loading)
    {
      filters := WithoutFilter(filters, f);
    }

    method ToggleSortOrder(column: string)
      modifies this
      ensures sortOrder == Toggled(old(sortOrder), column)
      ensures filters == old(filters) && selectedOrder == old(selectedOrder)
      ensures isDrawerOpen == old(isDrawerOpen) && loading == old(loading)
    {
      sortOrder := Toggled(sortOrder, column);
    }

    /** A header click: the column key is the lower-cased label. */
    method ClickHeader(header: string)
      modifies this
      ensures sortOrder == Toggled(old(sortOrder), HeaderKey(header))
      ensures ShowsArrow(sortOrder, header)
      ensures filters == old(filters) && selectedOrder == old(selectedOrder)
      ensures isDrawerOpen == old(isDrawerOpen) && loading == old(loading)
    {
      ToggleSortOrder(HeaderKey(header));
    }

    /** A row click selects the row and opens the drawer. */
    method HandleRowClick(order: Order)
      modifies this
      ensures selectedOrder == Some(order) && isDrawerOpen
      ensures sortOrder == old(sortOrder) && filters == old(filters) && loading == old(loading)
    {
      selectedOrder := Some(order);
      isDrawerOpen := true;
    }

    /** Closing the drawer keeps the selection. */
    method CloseDrawer()
      modifies this
      ensures !isDrawerOpen && selectedOrder == old(selectedOrder)
      ensures sortOrder == old(sortOrder) && filters == old(filters) && loading == old(loading)
    {
      isDrawerOpen := false;
    }

    function Rows(): seq<Order>
      reads this
    {
      RenderedRows(sortOrder, filters, loading)
    }
  }
}
