/** The rows each load step appends, computed from the enriched batch: staging rows,
    the date dimension, the customer, product and shipping dimensions, and fact rows
    joined to the dimensions' surrogate keys. Each is a pure projection of the batch;
    the warehouse appends them. */
module Dimensions {
  import opened Wrappers
  import opened Calendar
  import opened Collections
  import opened Records

  // ---------------------------------------------------------------------------
  // Staging
  // ---------------------------------------------------------------------------

  /** A row of the staging table: the twenty source columns, dates as ISO text. */
  datatype StagingRow = StagingRow(
    orderId: Text, orderDate: string, shipDate: string, shipMode: Text,
    customer: Customer, product: Product,
    sales: Option<real>, quantity: Option<int>, discount: Option<real>, profit: Option<real>)

  /** Every ship date is still a date (the column was not turned into text). */
  predicate ShipDatesAreDates(batch: seq<Sale>) {
    forall i :: 0 <= i < |batch| ==> batch[i].shipDate.At?
  }

  function StagingRowOf(r: Sale): StagingRow
    requires r.shipDate.At?
  {
    StagingRow(r.orderId, IsoText(r.orderDate), IsoText(r.shipDate.date), r.shipMode,
               r.customer, r.product, r.sales, r.quantity, r.discount, r.profit)
  }

  function StagingRows(batch: seq<Sale>): (rows: seq<StagingRow>)
    requires ShipDatesAreDates(batch)
    ensures |rows| == |batch|
  {
    seq(|batch|, i requires 0 <= i < |batch| => StagingRowOf(batch[i]))
  }

  /** The staged date texts parse back to the row's dates, and the other columns are
      copied unchanged. */
  lemma StagingRowsSpec(batch: seq<Sale>, i: int)
    requires ShipDatesAreDates(batch) && 0 <= i < |batch|
    ensures ParseIsoDate(StagingRows(batch)[i].orderDate) == Some(batch[i].orderDate)
    ensures ParseIsoDate(StagingRows(batch)[i].shipDate) == Some(batch[i].shipDate.date)
    ensures StagingRows(batch)[i].orderId == batch[i].orderId
    ensures StagingRows(batch)[i].customer == batch[i].customer
    ensures StagingRows(batch)[i].product == batch[i].product
    ensures StagingRows(batch)[i].quantity == batch[i].quantity
  {
    ParseIsoDateSpec(IsoText(batch[i].orderDate), batch[i].orderDate);
    ParseIsoDateSpec(IsoText(batch[i].shipDate.date), batch[i].shipDate.date);
  }

  // ---------------------------------------------------------------------------
  // Date dimension
  // ---------------------------------------------------------------------------

  predicate Increasing(ds: seq<Day>) {
    forall i, j :: 0 <= i < j < |ds| ==> Before(ds[i], ds[j])
  }

  /** Insert `d` into a strictly increasing list, keeping it strictly increasing. */
  function InsertDate(ds: seq<Day>, d: Day): (r: seq<Day>)
    requires Increasing(ds)
    ensures Increasing(r)
    ensures forall x :: x in r <==> x in ds || x == d
    decreases |ds|
  {
    if |ds| == 0 then [d]
    else if ds[0] == d then ds
    else if Before(d, ds[0]) then [d] + ds
    else
      var rest := InsertDate(ds[1..], d);
      assert forall x :: x in ds <==> x == ds[0] || x in ds[1..];
      assert forall x :: x in rest ==> Before(ds[0], x);
      [ds[0]] + rest
  }

  /** `sorted(unique(dates))`. */
  function SortedUnique(ds: seq<Day>): (r: seq<Day>)
    ensures Increasing(r)
    ensures forall x :: x in r <==> x in ds
    decreases |ds|
  {
    if |ds| == 0 then []
    else
      var r := InsertDate(SortedUnique(ds[..|ds| - 1]), ds[|ds| - 1]);
      assert forall x :: x in ds <==> x in ds[..|ds| - 1] || x == ds[|ds| - 1];
      r
  }

  /** The present ship dates of the batch, in row order (`dropna`). */
  function PresentShipDates(batch: seq<Sale>): (ds: seq<Day>)
    ensures forall i :: 0 <= i < |batch| && batch[i].shipDate.At? ==> batch[i].shipDate.date in ds
    ensures forall x :: x in ds ==> exists i :: 0 <= i < |batch| && batch[i].shipDate == At(x)
    decreases |batch|
  {
    if |batch| == 0 then []
    else
      var init := batch[..|batch| - 1];
      var rest := PresentShipDates(init);
      assert forall i :: 0 <= i < |init| ==> init[i] == batch[i];
      if batch[|batch| - 1].shipDate.At? then rest + [batch[|batch| - 1].shipDate.date] else rest
  }

  /** The present dates of the batch: every order date, then every present ship date. */
  function BatchDates(batch: seq<Sale>): (ds: seq<Day>)
    ensures forall i :: 0 <= i < |batch| ==> batch[i].orderDate in ds
    ensures forall i :: 0 <= i < |batch| && batch[i].shipDate.At? ==> batch[i].shipDate.date in ds
    ensures forall x :: x in ds ==>
      (exists i :: 0 <= i < |batch| && (x == batch[i].orderDate || batch[i].shipDate == At(x)))
  {
    var orders := seq(|batch|, i requires 0 <= i < |batch| => batch[i].orderDate);
    var ships := PresentShipDates(batch);
    assert forall i :: 0 <= i < |batch| ==> orders[i] == batch[i].orderDate;
    assert forall x :: x in orders + ships <==> x in orders || x in ships;
    orders + ships
  }

  /** A row of the date dimension (month and day names and the ISO week are not
      modelled). */
  datatype DateRow = DateRow(
    dateKey: int, fullDate: string, year: int, quarter: int, month: int, day: int,
    dayOfWeek: int, isWeekend: int)

  function DateRowOf(d: Day): (row: DateRow)
    ensures row.dateKey == DateKey(d)
    ensures row.dayOfWeek == Weekday(d) && 0 <= row.dayOfWeek < 7
    ensures row.isWeekend == 1 <==> row.dayOfWeek >= 5
    ensures row.isWeekend == 0 || row.isWeekend == 1
  {
    var w := Weekday(d);
    DateRow(DateKey(d), IsoText(d), d.year, Quarter(d.month), d.month, d.day, w,
            if w >= 5 then 1 else 0)
  }

  /** A date row describes one date consistently: its key decodes to its year, month
      and day; its full date is the ISO text of the same date; its quarter is the one
      its month falls in. */
  lemma DateRowSpec(d: Day)
    ensures DateRowOf(d).dateKey / 10000 == DateRowOf(d).year
    ensures DateRowOf(d).dateKey / 100 % 100 == DateRowOf(d).month
    ensures DateRowOf(d).dateKey % 100 == DateRowOf(d).day
    ensures ParseIsoDate(DateRowOf(d).fullDate) == Some(d)
    ensures var q := DateRowOf(d).quarter; 3 * (q - 1) < DateRowOf(d).month <= 3 * q
  {
    DateKeyDecodes(d);
    ParseIsoDateSpec(DateRowOf(d).fullDate, d);
  }

  /** The rows `load_dim_date` builds, one per distinct present date, ascending. */
  function DateDim(batch: seq<Sale>): (rows: seq<DateRow>)
    ensures |rows| == |SortedUnique(BatchDates(batch))|
  {
    var ds := SortedUnique(BatchDates(batch));
    seq(|ds|, i requires 0 <= i < |ds| => DateRowOf(ds[i]))
  }

  /** Date keys of the dimension strictly increase, so they are unique, and every order
      and ship date of the batch has its key in the dimension. */
  lemma DateDimSpec(batch: seq<Sale>)
    ensures forall i, j :: 0 <= i < j < |DateDim(batch)| ==>
      DateDim(batch)[i].dateKey < DateDim(batch)[j].dateKey
    ensures forall i :: 0 <= i < |batch| ==>
      exists j :: 0 <= j < |DateDim(batch)| && DateDim(batch)[j].dateKey == DateKey(batch[i].orderDate)
    ensures forall i :: 0 <= i < |batch| && batch[i].shipDate.At? ==>
      exists j :: 0 <= j < |DateDim(batch)| && DateDim(batch)[j].dateKey == DateKey(batch[i].shipDate.date)
  {
    var ds := SortedUnique(BatchDates(batch));
    var rows := DateDim(batch);
    forall i, j | 0 <= i < j < |rows| ensures rows[i].dateKey < rows[j].dateKey {
      DateKeyOrder(ds[i], ds[j]);
    }
    forall i | 0 <= i < |batch|
      ensures exists j :: 0 <= j < |rows| && rows[j].dateKey == DateKey(batch[i].orderDate)
    {
      var j :| 0 <= j < |ds| && ds[j] == batch[i].orderDate;
      assert rows[j].dateKey == DateKey(batch[i].orderDate);
    }
    forall i | 0 <= i < |batch| && batch[i].shipDate.At?
      ensures exists j :: 0 <= j < |rows| && rows[j].dateKey == DateKey(batch[i].shipDate.date)
    {
      var j :| 0 <= j < |ds| && ds[j] == batch[i].shipDate.date;
      assert rows[j].dateKey == DateKey(batch[i].shipDate.date);
    }
  }

  lemma FixtureDateRow()
    ensures DateRowOf(Date(2019, 1, 3)).dateKey == 20190103
    ensures DateRowOf(Date(2019, 1, 3)).dayOfWeek == 3
    ensures DateRowOf(Date(2019, 1, 3)).isWeekend == 0
  {
    FixtureDate();
  }

  // ---------------------------------------------------------------------------
  // Customer, product and shipping dimensions
  // ---------------------------------------------------------------------------

  function CustomerIdOf(r: Sale): Text {
    r.customer.id
  }

  function ProductIdOf(r: Sale): Text {
    r.product.id
  }

  function ShipModeOf(r: Sale): Text {
    r.shipMode
  }

  /** The earliest order date among the rows of customer `id` (a group minimum). */
  function EarliestOrder(batch: seq<Sale>, id: Text): (d: Option<Day>)
    ensures d.Some? <==> Seen(batch, CustomerIdOf, id)
    ensures d.Some? ==> exists i :: 0 <= i < |batch| && batch[i].customer.id == id && batch[i].orderDate == d.value
    ensures d.Some? ==> forall i :: 0 <= i < |batch| && batch[i].customer.id == id ==>
      AtOrBefore(d.value, batch[i].orderDate)
    decreases |batch|
  {
    if |batch| == 0 then None
    else
      var init := batch[..|batch| - 1];
      var last := batch[|batch| - 1];
      var rest := EarliestOrder(init, id);
      assert forall i :: 0 <= i < |init| ==> init[i] == batch[i];
      if last.customer.id != id then rest
      else if rest.None? || Before(last.orderDate, rest.value) then Some(last.orderDate)
      else rest
  }

  /** The latest order date among the rows of customer `id` (a group maximum). */
  function LatestOrder(batch: seq<Sale>, id: Text): (d: Option<Day>)
    ensures d.Some? <==> Seen(batch, CustomerIdOf, id)
    ensures d.Some? ==> exists i :: 0 <= i < |batch| && batch[i].customer.id == id && batch[i].orderDate == d.value
    ensures d.Some? ==> forall i :: 0 <= i < |batch| && batch[i].customer.id == id ==>
      AtOrBefore(batch[i].orderDate, d.value)
    decreases |batch|
  {
    if |batch| == 0 then None
    else
      var init := batch[..|batch| - 1];
      var last := batch[|batch| - 1];
      var rest := LatestOrder(init, id);
      assert forall i :: 0 <= i < |init| ==> init[i] == batch[i];
      if last.customer.id != id then rest
      else if rest.None? || Before(rest.value, last.orderDate) then Some(last.orderDate)
      else rest
  }

  /** A customer's first order is never after their last one. */
  lemma FirstOrderNotAfterLast(batch: seq<Sale>, id: Text)
    requires Seen(batch, CustomerIdOf, id)
    ensures AtOrBefore(EarliestOrder(batch, id).value, LatestOrder(batch, id).value)
  {
    var i :| 0 <= i < |batch| && batch[i].customer.id == id && batch[i].orderDate == EarliestOrder(batch, id).value;
  }

  /** A row of the customer dimension without its surrogate key. The order-date
      bounds are ISO text; a row without a customer id gets none (the group-by drops
      missing keys). */
  datatype CustomerRow = CustomerRow(
    customerId: Text, name: Text, segment: Text, country: Text, city: Text,
    state: Text, postalCode: Text, region: Text,
    firstOrderDate: Option<string>, lastOrderDate: Option<string>)

  function DateText(d: Option<Day>): Option<string> {
    if d.Some? then Some(IsoText(d.value)) else None
  }

  function CustomerRowOf(batch: seq<Sale>, r: Sale): CustomerRow {
    var c := r.customer;
    var first := if c.id.Some? then EarliestOrder(batch, c.id) else None;
    var last := if c.id.Some? then LatestOrder(batch, c.id) else None;
    CustomerRow(c.id, c.name, c.segment, c.country, c.city, c.state, c.postalCode, c.region,
                DateText(first), DateText(last))
  }

  /** The rows `load_dim_customer` appends: the first row of each customer id, with
      that customer's first and last order dates merged in. */
  function CustomerDim(batch: seq<Sale>): (rows: seq<CustomerRow>)
    ensures |rows| == |DistinctBy(batch, CustomerIdOf)|
  {
    var firsts := DistinctBy(batch, CustomerIdOf);
    seq(|firsts|, i requires 0 <= i < |firsts| => CustomerRowOf(batch, firsts[i]))
  }

  /** One customer row per distinct customer id of the batch and no other: ids are
      pairwise distinct and every id of the batch has a row. */
  lemma CustomerDimKeys(batch: seq<Sale>)
    ensures forall i, j :: 0 <= i < j < |CustomerDim(batch)| ==>
      CustomerDim(batch)[i].customerId != CustomerDim(batch)[j].customerId
    ensures forall k :: 0 <= k < |batch| ==>
      exists i :: 0 <= i < |CustomerDim(batch)| && CustomerDim(batch)[i].customerId == batch[k].customer.id
  {
    var firsts := DistinctBy(batch, CustomerIdOf);
    DistinctByKeys(batch, CustomerIdOf);
    var rows := CustomerDim(batch);
    assert forall i :: 0 <= i < |rows| ==> rows[i].customerId == CustomerIdOf(firsts[i]);
    forall k | 0 <= k < |batch|
      ensures exists i :: 0 <= i < |rows| && rows[i].customerId == batch[k].customer.id
    {
      assert Seen(firsts, CustomerIdOf, CustomerIdOf(batch[k]));
      var i :| 0 <= i < |firsts| && CustomerIdOf(firsts[i]) == CustomerIdOf(batch[k]);
      assert rows[i].customerId == batch[k].customer.id;
    }
  }

  /** Each customer row is built from the first row of its customer id. */
  lemma CustomerDimFirst(batch: seq<Sale>)
    ensures forall i :: 0 <= i < |CustomerDim(batch)| ==>
      Seen(batch, CustomerIdOf, CustomerDim(batch)[i].customerId)
      && CustomerDim(batch)[i] ==
         CustomerRowOf(batch, batch[FirstIndex(batch, CustomerIdOf, CustomerDim(batch)[i].customerId)])
  {
    var firsts := DistinctBy(batch, CustomerIdOf);
    DistinctByKeepsFirst(batch, CustomerIdOf);
    var rows := CustomerDim(batch);
    assert forall i :: 0 <= i < |rows| ==> rows[i] == CustomerRowOf(batch, firsts[i]);
  }

  /** The order-date bounds stored for a present customer id are that customer's
      earliest and latest order dates, as ISO text, and the first is not after the
      last. */
  lemma CustomerDatesSpec(batch: seq<Sale>, i: int)
    requires 0 <= i < |CustomerDim(batch)| && CustomerDim(batch)[i].customerId.Some?
    ensures var row := CustomerDim(batch)[i];
      Seen(batch, CustomerIdOf, row.customerId)
      && row.firstOrderDate == Some(IsoText(EarliestOrder(batch, row.customerId).value))
      && row.lastOrderDate == Some(IsoText(LatestOrder(batch, row.customerId).value))
      && AtOrBefore(EarliestOrder(batch, row.customerId).value, LatestOrder(batch, row.customerId).value)
  {
    DistinctByKeys(batch, CustomerIdOf);
    var row := CustomerDim(batch)[i];
    FirstOrderNotAfterLast(batch, row.customerId);
  }

  datatype ProductRow = ProductRow(productId: Text, name: Text, category: Text, subCategory: Text)

  function ProductRowOf(r: Sale): ProductRow {
    ProductRow(r.product.id, r.product.name, r.product.category, r.product.subCategory)
  }

  /** The rows `load_dim_product` appends: the first row of each product id. */
  function ProductDim(batch: seq<Sale>): (rows: seq<ProductRow>)
    ensures |rows| == |DistinctBy(batch, ProductIdOf)|
  {
    var firsts := DistinctBy(batch, ProductIdOf);
    seq(|firsts|, i requires 0 <= i < |firsts| => ProductRowOf(firsts[i]))
  }

  /** One product row per distinct product id of the batch and no other. */
  lemma ProductDimKeys(batch: seq<Sale>)
    ensures forall i, j :: 0 <= i < j < |ProductDim(batch)| ==>
      ProductDim(batch)[i].productId != ProductDim(batch)[j].productId
    ensures forall k :: 0 <= k < |batch| ==>
      exists i :: 0 <= i < |ProductDim(batch)| && ProductDim(batch)[i].productId == batch[k].product.id
  {
    var firsts := DistinctBy(batch, ProductIdOf);
    DistinctByKeys(batch, ProductIdOf);
    var rows := ProductDim(batch);
    assert forall i :: 0 <= i < |rows| ==> rows[i].productId == ProductIdOf(firsts[i]);
    forall k | 0 <= k < |batch|
      ensures exists i :: 0 <= i < |rows| && rows[i].productId == batch[k].product.id
    {
      assert Seen(firsts, ProductIdOf, ProductIdOf(batch[k]));
      var i :| 0 <= i < |firsts| && ProductIdOf(firsts[i]) == ProductIdOf(batch[k]);
      assert rows[i].productId == batch[k].product.id;
    }
  }

  /** Each product row carries the attributes of the first row of its product id. */
  lemma ProductDimFirst(batch: seq<Sale>)
    ensures forall i :: 0 <= i < |ProductDim(batch)| ==>
      Seen(batch, ProductIdOf, ProductDim(batch)[i].productId)
      && ProductDim(batch)[i] == ProductRowOf(batch[FirstIndex(batch, ProductIdOf, ProductDim(batch)[i].productId)])
  {
    var firsts := DistinctBy(batch, ProductIdOf);
    DistinctByKeepsFirst(batch, ProductIdOf);
    var rows := ProductDim(batch);
    assert forall i :: 0 <= i < |rows| ==> rows[i] == ProductRowOf(firsts[i]);
  }

  /** The rows `load_dim_shipping` appends: each distinct ship mode once, in order of
      first appearance. */
  function ShippingDim(batch: seq<Sale>): (modes: seq<Text>)
    ensures |modes| == |DistinctBy(batch, ShipModeOf)|
  {
    var firsts := DistinctBy(batch, ShipModeOf);
    seq(|firsts|, i requires 0 <= i < |firsts| => firsts[i].shipMode)
  }

  lemma ShippingDimSpec(batch: seq<Sale>)
    ensures forall i, j :: 0 <= i < j < |ShippingDim(batch)| ==> ShippingDim(batch)[i] != ShippingDim(batch)[j]
    ensures forall k :: 0 <= k < |batch| ==> batch[k].shipMode in ShippingDim(batch)
    ensures forall i :: 0 <= i < |ShippingDim(batch)| ==> Seen(batch, ShipModeOf, ShippingDim(batch)[i])
  {
    var firsts := DistinctBy(batch, ShipModeOf);
    DistinctByKeys(batch, ShipModeOf);
    var modes := ShippingDim(batch);
    forall k | 0 <= k < |batch| ensures batch[k].shipMode in modes {
      assert Seen(firsts, ShipModeOf, ShipModeOf(batch[k]));
      var i :| 0 <= i < |firsts| && ShipModeOf(firsts[i]) == ShipModeOf(batch[k]);
      assert modes[i] == batch[k].shipMode;
    }
  }

  // ---------------------------------------------------------------------------
  // Fact rows
  // ---------------------------------------------------------------------------

  /** A batch row with its order and ship date keys added. */
  datatype DatedSale = DatedSale(sale: Sale, orderDateKey: int, shipDateKey: int)

  function DatedSales(batch: seq<Sale>): (rows: seq<DatedSale>)
    requires ShipDatesAreDates(batch)
    ensures |rows| == |batch|
  {
    seq(|batch|, i requires 0 <= i < |batch| =>
      DatedSale(batch[i], DateKey(batch[i].orderDate), DateKey(batch[i].shipDate.date)))
  }

  datatype FactRow = FactRow(
    orderId: Text, orderDateKey: int, shipDateKey: int,
    customerKey: Option<int>, productKey: Option<int>, shippingKey: Option<int>,
    quantity: Option<int>, salesAmount: Option<real>, discount: Option<real>, profit: Option<real>)

  function MergedCustomerId(r: DatedSale): Text {
    r.sale.customer.id
  }

  function MergedProductId(r: (DatedSale, Option<int>)): Text {
    r.0.sale.product.id
  }

  function MergedShipMode(r: ((DatedSale, Option<int>), Option<int>)): Text {
    r.0.0.sale.shipMode
  }

  function FactRowOf(m: (((DatedSale, Option<int>), Option<int>), Option<int>)): FactRow {
    var d := m.0.0.0;
    FactRow(d.sale.orderId, d.orderDateKey, d.shipDateKey, m.0.0.1, m.0.1, m.1,
            d.sale.quantity, d.sale.sales, d.sale.discount, d.sale.profit)
  }

  /** The fact rows: the dated batch left-merged with the customer, product and
      shipping keys, in that order, and projected to the fact columns. */
  function FactRows(batch: seq<Sale>, customers: seq<(Text, int)>, products: seq<(Text, int)>,
                    shipping: seq<(Text, int)>): (rows: seq<FactRow>)
    requires ShipDatesAreDates(batch)
    ensures |rows| >= |batch|
  {
    var m1 := LeftMerge(DatedSales(batch), MergedCustomerId, customers);
    var m2 := LeftMerge(m1, MergedProductId, products);
    var m3 := LeftMerge(m2, MergedShipMode, shipping);
    seq(|m3|, i requires 0 <= i < |m3| => FactRowOf(m3[i]))
  }

  /** With unique natural keys on every dimension, the merges keep exactly one fact
      row per batch row, in order, whose keys are the ones stored with the row's
      natural keys and whose measures are the row's own. */
  lemma FactRowsSpec(batch: seq<Sale>, customers: seq<(Text, int)>, products: seq<(Text, int)>,
                     shipping: seq<(Text, int)>)
    requires ShipDatesAreDates(batch)
    requires UniqueKeys(customers) && UniqueKeys(products) && UniqueKeys(shipping)
    ensures |FactRows(batch, customers, products, shipping)| == |batch|
    ensures forall i :: 0 <= i < |batch| ==>
      FactRows(batch, customers, products, shipping)[i] == FactRow(
        batch[i].orderId, DateKey(batch[i].orderDate), DateKey(batch[i].shipDate.date),
        Lookup(customers, batch[i].customer.id), Lookup(products, batch[i].product.id),
        Lookup(shipping, batch[i].shipMode),
        batch[i].quantity, batch[i].sales, batch[i].discount, batch[i].profit)
  {
    var dated := DatedSales(batch);
    var m1 := LeftMerge(dated, MergedCustomerId, customers);
    LeftMergeUnique(dated, MergedCustomerId, customers);
    var m2 := LeftMerge(m1, MergedProductId, products);
    LeftMergeUnique(m1, MergedProductId, products);
    var m3 := LeftMerge(m2, MergedShipMode, shipping);
    LeftMergeUnique(m2, MergedShipMode, shipping);
  }
}
