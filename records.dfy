/** The rows the pipeline moves between its stages. A pandas frame of the required
    columns is a sequence of records; a missing cell (NaN, NaT, NA) is `None`. */
module Records {
  import opened Wrappers
  import opened Calendar

  /** A text cell: a string, or missing. */
  type Text = Option<string>

  /** A numeric cell as the number parser sees it: a number it accepts, text it
      rejects, or an empty cell. */
  datatype RawNum = Number(x: real) | NonNumeric(text: string) | Blank

  datatype Customer = Customer(
    id: Text, name: Text, segment: Text, country: Text,
    city: Text, state: Text, postalCode: Text, region: Text)

  datatype Product = Product(id: Text, category: Text, subCategory: Text, name: Text)

  /** One row of the source file: the twenty required columns, untyped. */
  datatype RawRow = RawRow(
    orderId: Text, orderDate: Text, shipDate: Text, shipMode: Text,
    customer: Customer, product: Product,
    sales: RawNum, quantity: RawNum, discount: RawNum, profit: RawNum)

  /** A row after type coercion: dates and numbers, each possibly missing. */
  datatype Typed = Typed(
    orderId: Text, orderDate: Option<Day>, shipDate: Option<Day>, shipMode: Text,
    customer: Customer, product: Product,
    sales: Option<real>, quantity: Option<int>, discount: Option<real>, profit: Option<real>)

  /** A ship-date cell: missing, a date, or the text "Unknown" the null filler puts in
      a non-numeric column. */
  datatype DateCell = NaT | At(date: Day) | UnknownText

  /** A row after derivation (and, later, null filling). The order date is always a
      date here, because derivation fails on a missing one. */
  datatype Sale = Sale(
    orderId: Text, orderDate: Day, shipDate: DateCell, shipMode: Text,
    customer: Customer, product: Product,
    sales: Option<real>, quantity: Option<int>, discount: Option<real>, profit: Option<real>,
    profitMargin: Option<real>, deliveryDays: Option<int>,
    orderYear: int, orderMonth: int, orderQuarter: int, isWeekend: int)

  /** The columns of the enriched frame, in frame order. */
  datatype Column =
    | OrderId | OrderDate | ShipDate | ShipMode
    | CustomerId | CustomerName | Segment | Country | City | State | PostalCode | Region
    | ProductId | Category | SubCategory | ProductName
    | Sales | Quantity | Discount | Profit
    | ProfitMargin | DeliveryDays | OrderYear | OrderMonth | OrderQuarter | IsWeekend

  const Columns: seq<Column> := [
    OrderId, OrderDate, ShipDate, ShipMode,
    CustomerId, CustomerName, Segment, Country, City, State, PostalCode, Region,
    ProductId, Category, SubCategory, ProductName,
    Sales, Quantity, Discount, Profit,
    ProfitMargin, DeliveryDays, OrderYear, OrderMonth, OrderQuarter, IsWeekend]

  lemma ColumnsListed(c: Column)
    ensures c in Columns
  {
  }

  /** The header names the source file must carry, as written in the file. */
  const RequiredHeaders: seq<string> := [
    "Order ID", "Order Date", "Ship Date", "Ship Mode", "Customer ID", "Customer Name",
    "Segment", "Country", "City", "State", "Postal Code", "Region", "Product ID",
    "Category", "Sub-Category", "Product Name", "Sales", "Quantity", "Discount", "Profit"]

  /** The header name of a column in the cleaned frame. */
  function ColumnName(c: Column): string {
    match c
    case OrderId => "order_id"
    case OrderDate => "order_date"
    case ShipDate => "ship_date"
    case ShipMode => "ship_mode"
    case CustomerId => "customer_id"
    case CustomerName => "customer_name"
    case Segment => "segment"
    case Country => "country"
    case City => "city"
    case State => "state"
    case PostalCode => "postal_code"
    case Region => "region"
    case ProductId => "product_id"
    case Category => "category"
    case SubCategory => "sub_category"
    case ProductName => "product_name"
    case Sales => "sales"
    case Quantity => "quantity"
    case Discount => "discount"
    case Profit => "profit"
    case ProfitMargin => "profit_margin"
    case DeliveryDays => "delivery_days"
    case OrderYear => "order_year"
    case OrderMonth => "order_month"
    case OrderQuarter => "order_quarter"
    case IsWeekend => "is_weekend"
  }

  /** A cell seen without its column's static type, as `df[col]` sees it. */
  datatype Value = Null | Str(s: string) | Real(x: real) | Int(n: int) | Stamp(d: Day)

  function TextValue(t: Text): Value {
    if t.Some? then Str(t.value) else Null
  }

  function RealValue(x: Option<real>): Value {
    if x.Some? then Real(x.value) else Null
  }

  function IntValue(n: Option<int>): Value {
    if n.Some? then Int(n.value) else Null
  }

  function DateCellValue(d: DateCell): Value {
    match d
    case NaT => Null
    case At(day) => Stamp(day)
    case UnknownText => Str("Unknown")
  }

  /** `df.at[row, col]`. */
  function ColumnValue(r: Sale, c: Column): Value {
    match c
    case OrderId => TextValue(r.orderId)
    case OrderDate => Stamp(r.orderDate)
    case ShipDate => DateCellValue(r.shipDate)
    case ShipMode => TextValue(r.shipMode)
    case CustomerId => TextValue(r.customer.id)
    case CustomerName => TextValue(r.customer.name)
    case Segment => TextValue(r.customer.segment)
    case Country => TextValue(r.customer.country)
    case City => TextValue(r.customer.city)
    case State => TextValue(r.customer.state)
    case PostalCode => TextValue(r.customer.postalCode)
    case Region => TextValue(r.customer.region)
    case ProductId => TextValue(r.product.id)
    case Category => TextValue(r.product.category)
    case SubCategory => TextValue(r.product.subCategory)
    case ProductName => TextValue(r.product.name)
    case Sales => RealValue(r.sales)
    case Quantity => IntValue(r.quantity)
    case Discount => RealValue(r.discount)
    case Profit => RealValue(r.profit)
    case ProfitMargin => RealValue(r.profitMargin)
    case DeliveryDays => IntValue(r.deliveryDays)
    case OrderYear => Int(r.orderYear)
    case OrderMonth => Int(r.orderMonth)
    case OrderQuarter => Int(r.orderQuarter)
    case IsWeekend => Int(r.isWeekend)
  }

  /** No cell of the row is missing. */
  predicate Filled(r: Sale) {
    forall c: Column :: ColumnValue(r, c) != Null
  }

  /** What a filled row guarantees about its fields. */
  lemma FilledFields(r: Sale)
    requires Filled(r)
    ensures r.orderId.Some? && r.shipMode.Some? && r.shipDate != NaT
    ensures r.customer.id.Some? && r.product.id.Some?
    ensures r.sales.Some? && r.quantity.Some? && r.profit.Some? && r.discount.Some?
  {
    assert ColumnValue(r, OrderId) != Null;
    assert ColumnValue(r, ShipMode) != Null;
    assert ColumnValue(r, ShipDate) != Null;
    assert ColumnValue(r, CustomerId) != Null;
    assert ColumnValue(r, ProductId) != Null;
    assert ColumnValue(r, Sales) != Null;
    assert ColumnValue(r, Quantity) != Null;
    assert ColumnValue(r, Profit) != Null;
    assert ColumnValue(r, Discount) != Null;
  }
}
