// The product table of Day_12/src/app/products/products.ts: a list of
// products whose ratings feed product-details children, a button that
// re-rates the first product, a visibility toggle, and the report line
// that shows what a child last emitted.
module Products {
  import opened ProductDetails
  import NgChanges
  import Wrappers

  /** A `Product` record. */
  datatype Product = Product(ProductID: nat, ProductName: string, AvailableQty: nat, SalesRating: real)

  /** The text put before a child's report. */
  const ParentReportPrefix: string := "Product Details Report: "

  /** The report line before any child has reported. */
  const NoReport: string := "No report yet."

  /** The rating `updateFirstProduct` gives the first product. */
  const NewFirstRating: real := 3.5

  const InitialProducts: seq<Product> := [
    Product(1, "Solid State Drive", 50, 4.5),
    Product(2, "Monitor", 20, 4.0),
    Product(3, "LED Display", 5, 3.5)
  ]

  /**
   * The `map` of `updateFirstProduct`: a copy of the list whose entry at
   * index 0 has its rating replaced.
   */
  function RateFirst(products: seq<Product>): (r: seq<Product>)
    ensures |r| == |products|
  {
    seq(|products|, i requires 0 <= i < |products| =>
      if i == 0 then products[i].(SalesRating := NewFirstRating) else products[i])
  }

  /** The first entry gets rating 3.5 and keeps its id, name and quantity; later entries are untouched. */
  lemma RateFirstChangesOnlyFirstRating(products: seq<Product>)
    ensures |RateFirst(products)| == |products|
    ensures products != [] ==>
      && RateFirst(products)[0].SalesRating == 3.5
      && RateFirst(products)[0].ProductID == products[0].ProductID
      && RateFirst(products)[0].ProductName == products[0].ProductName
      && RateFirst(products)[0].AvailableQty == products[0].AvailableQty
    ensures forall k :: 1 <= k < |products| ==> RateFirst(products)[k] == products[k]
  {
  }

  /** Re-rating twice is re-rating once, and an empty list stays empty. */
  lemma RateFirstIdempotent(products: seq<Product>)
    ensures RateFirst(RateFirst(products)) == RateFirst(products)
    ensures RateFirst([]) == []
  {
  }

  /** After the re-rating the first product's detail component labels it "Good". */
  lemma RateFirstLabelsGood(products: seq<Product>)
    requires products != []
    ensures RatingLabel(RateFirst(products)[0].SalesRating) == "Good"
  {
  }

  /** The initial table's ratings label as "Excellent", "Very Good" and "Good". */
  lemma InitialLabels()
    ensures RatingLabel(InitialProducts[0].SalesRating) == "Excellent"
    ensures RatingLabel(InitialProducts[1].SalesRating) == "Very Good"
    ensures RatingLabel(InitialProducts[2].SalesRating) == "Good"
  {
  }

  /** ProductsComponent: the report line, the visibility flag and the product list. */
  class ProductsComponent {
    var messageFromNestedComponent: string
    var showProducts: bool
    var products: seq<Product>

    constructor ()
      ensures messageFromNestedComponent == NoReport && showProducts
      ensures products == InitialProducts
    {
      messageFromNestedComponent := NoReport;
      showProducts := true;
      products := InitialProducts;
    }

    /** `onGetLocalSalesReport`: show a child's report after the prefix. */
    method OnGetLocalSalesReport(message: string)
      modifies this
      ensures messageFromNestedComponent == ParentReportPrefix + message
      ensures messageFromNestedComponent[|ParentReportPrefix|..] == message
      ensures showProducts == old(showProducts) && products == old(products)
    {
      messageFromNestedComponent := ParentReportPrefix + message;
    }

    /** `updateFirstProduct` (its console output left out). */
    method UpdateFirstProduct()
      modifies this
      ensures products == RateFirst(old(products))
      ensures messageFromNestedComponent == old(messageFromNestedComponent) && showProducts == old(showProducts)
    {
      products := RateFirst(products);
    }

    /** `toggleProducts` (its console output left out). */
    method ToggleProducts()
      modifies this
      ensures showProducts == !old(showProducts)
      ensures messageFromNestedComponent == old(messageFromNestedComponent) && products == old(products)
    {
      showProducts := !showProducts;
    }
  }

  /** Toggling visibility twice restores it. */
  method ToggleTwiceRestores(c: ProductsComponent)
    modifies c
    ensures c.showProducts == old(c.showProducts)
  {
    c.ToggleProducts();
    c.ToggleProducts();
  }

  /**
   * A click on the first product's details after the re-rating ends as the
   * report line "Product Details Report: Local sales report for this product: Good".
   * `details` stands for the child component of the first table row: Angular
   * hands it the change of its `SalesRating` binding, from the old first
   * rating to the new one, on a later (not first) change.
   */
  method ReportAfterRerating(c: ProductsComponent, details: ProductDetailsComponent)
    requires c.products != []
    modifies c, details
    ensures c.messageFromNestedComponent == ParentReportPrefix + ReportMessage("Good")
  {
    var previous := c.products[0].SalesRating;
    c.UpdateFirstProduct();
    var rating := c.products[0].SalesRating;
    assert rating == 3.5;
    details.NgOnChanges(map["SalesRating" := NgChanges.SimpleChange(Wrappers.Some(previous), rating, false)]);
    assert details.salesRatingLabel == "Good";
    var report := details.OnClick();
    c.OnGetLocalSalesReport(report);
  }
}
