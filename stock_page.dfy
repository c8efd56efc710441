/** The low-stock rule of `Stock.jsx`: a product is low when its stock is strictly below
    its minimum threshold, and that one predicate picks the alert buttons, highlights the
    table row and shows the "Low" badge. */
module StockPage {
  import opened Seqs

  datatype Product = Product(id: string, name: string, stock: int, minThreshold: int, supplier: string)

  /** The three products the page is built with. */
  function SeedProducts(): seq<Product> {
    [
      Product("p001", "Product 1", 5, 10, "Supplier A"),
      Product("p002", "Product 2", 50, 20, "Supplier B"),
      Product("p003", "Product 3", 8, 15, "Supplier C")
    ]
  }

  predicate IsLow(p: Product) {
    p.stock < p.minThreshold
  }

  /** The products that get an alert button, in table order, each as often as in the table. */
  function LowStockAlerts(products: seq<Product>): (r: seq<Product>)
    ensures Subseq(r, products)
    ensures forall i :: 0 <= i < |r| ==> r[i].stock < r[i].minThreshold
    ensures forall i :: 0 <= i < |products| && products[i].stock < products[i].minThreshold ==> products[i] in r
    ensures forall p :: multiset(r)[p] == if p.stock < p.minThreshold then multiset(products)[p] else 0
  {
    FilterMultiset(IsLow, products);
    Filter(IsLow, products)
  }

  const LowRowClass: string := "bg-red-50"

  /** The class of a table row: the highlight for a low product, no class otherwise. */
  function RowClass(p: Product): (r: string)
    ensures r == LowRowClass <==> p.stock < p.minThreshold
    ensures r != LowRowClass ==> r == ""
  {
    if IsLow(p) then LowRowClass else ""
  }

  /** Whether the stock cell carries the "Low" badge: exactly for a low product. */
  predicate ShowsLowBadge(p: Product): (b: bool)
    ensures b <==> p.stock < p.minThreshold
  {
    IsLow(p)
  }

  /** The alert list, the row highlight and the badge pick out the same products. */
  lemma AlertsRowsAndBadgesAgree(products: seq<Product>, p: Product)
    requires p in products
    ensures p in LowStockAlerts(products) <==> RowClass(p) == LowRowClass
    ensures p in LowStockAlerts(products) <==> ShowsLowBadge(p)
  {
    if p in LowStockAlerts(products) {
      var k :| 0 <= k < |LowStockAlerts(products)| && LowStockAlerts(products)[k] == p;
    }
  }

  /** Stock equal to the threshold is not low. */
  lemma ThresholdIsStrict(p: Product)
    requires p.stock == p.minThreshold
    ensures !IsLow(p) && RowClass(p) == "" && p !in LowStockAlerts([p])
  {
  }

  /** With the seed list, products p001 (5 < 10) and p003 (8 < 15) are low and p002 is not. */
  lemma SeedAlerts()
    ensures LowStockAlerts(SeedProducts()) == [SeedProducts()[0], SeedProducts()[2]]
  {
    var s := SeedProducts();
    assert s == [s[0]] + [s[1]] + [s[2]];
    FilterConcat(IsLow, [s[0]] + [s[1]], [s[2]]);
    FilterConcat(IsLow, [s[0]], [s[1]]);
  }
}
