/** The transform stage: header cleaning, whole-row deduplication, type coercion,
    derived columns, null filling and the all-or-nothing quality gate, composed in
    the order the pipeline runs them. */
module Transform {
  import opened Wrappers
  import opened Calendar
  import opened Collections
  import opened Records

  // ---------------------------------------------------------------------------
  // Header cleaning
  // ---------------------------------------------------------------------------

  predicate IsUpper(ch: char) {
    'A' <= ch <= 'Z'
  }

  /** The three separators that become underscores. */
  predicate IsSeparator(ch: char) {
    ch == ' ' || ch == '-' || ch == '/'
  }

  /** Lower-casing followed by the three replacements, on one character. */
  function CleanChar(ch: char): (r: char)
    ensures !IsUpper(r) && !IsSeparator(r)
    ensures !IsUpper(ch) && !IsSeparator(ch) ==> r == ch
    ensures IsSeparator(ch) ==> r == '_'
    ensures IsUpper(ch) ==> r as int == ch as int + 32
  {
    if IsUpper(ch) then (ch as int + 32) as char
    else if IsSeparator(ch) then '_'
    else ch
  }

  /** One header name after `str.lower()` and the replacements of ' ', '-' and '/'. */
  function CleanColumnName(name: string): (r: string)
    ensures |r| == |name|
    ensures forall i :: 0 <= i < |r| ==> !IsUpper(r[i]) && !IsSeparator(r[i])
    ensures forall i :: 0 <= i < |r| && !IsUpper(name[i]) && !IsSeparator(name[i]) ==> r[i] == name[i]
  {
    seq(|name|, i requires 0 <= i < |name| => CleanChar(name[i]))
  }

  function CleanColumnNames(columns: seq<string>): (r: seq<string>)
    ensures |r| == |columns|
  {
    seq(|columns|, i requires 0 <= i < |columns| => CleanColumnName(columns[i]))
  }

  /** Cleaning a cleaned name changes nothing. */
  lemma CleanColumnNameIdempotent(name: string)
    ensures CleanColumnName(CleanColumnName(name)) == CleanColumnName(name)
  {
    var once := CleanColumnName(name);
    var twice := CleanColumnName(once);
    forall i | 0 <= i < |once| ensures twice[i] == once[i] {
      assert !IsUpper(once[i]) && !IsSeparator(once[i]);
    }
  }

  lemma CleanSubCategory()
    ensures CleanColumnName("Sub-Category") == "sub_category"
  {
  }

  /** The field names the later stages address (the first twenty columns). */
  function FieldNames(): (r: seq<string>)
    ensures |r| == 20
  {
    seq(20, i requires 0 <= i < 20 => ColumnName(Columns[i]))
  }

  /** Cleaning the twenty required headers yields, in order, exactly the names the
      later stages select (the staging column list). */
  lemma CleanRequiredHeaders()
    ensures CleanColumnNames(RequiredHeaders) == FieldNames()
  {
    forall i | 0 <= i < 20
      ensures CleanColumnName(RequiredHeaders[i]) == ColumnName(Columns[i])
    {
      if i < 2 { CleanHeadersA(i); }
      else if i < 4 { CleanHeadersB(i); }
      else if i < 6 { CleanHeadersC(i); }
      else if i < 8 { CleanHeadersD(i); }
      else if i < 10 { CleanHeadersE(i); }
      else if i < 12 { CleanHeadersF(i); }
      else if i < 14 { CleanHeadersG(i); }
      else if i < 16 { CleanHeadersH(i); }
      else if i < 18 { CleanHeadersI(i); }
      else { CleanHeadersJ(i); }
    }
  }

  lemma CleanHeadersA(i: int)
    requires 0 <= i < 2
    ensures CleanColumnName(RequiredHeaders[i]) == ColumnName(Columns[i])
  {
    if i == 0 {
      assert CleanColumnName(RequiredHeaders[0]) == "order_id";
    } else {
      assert CleanColumnName(RequiredHeaders[1]) == "order_date";
    }
  }

  lemma CleanHeadersB(i: int)
    requires 2 <= i < 4
    ensures CleanColumnName(RequiredHeaders[i]) == ColumnName(Columns[i])
  {
    if i == 2 {
      assert CleanColumnName(RequiredHeaders[2]) == "ship_date";
    } else {
      assert CleanColumnName(RequiredHeaders[3]) == "ship_mode";
    }
  }

  lemma CleanHeadersC(i: int)
    requires 4 <= i < 6
    ensures CleanColumnName(RequiredHeaders[i]) == ColumnName(Columns[i])
  {
    if i == 4 {
      assert CleanColumnName(RequiredHeaders[4]) == "customer_id";
    } else {
      assert CleanColumnName(RequiredHeaders[5]) == "customer_name";
    }
  }

  lemma CleanHeadersD(i: int)
    requires 6 <= i < 8
    ensures CleanColumnName(RequiredHeaders[i]) == ColumnName(Columns[i])
  {
    if i == 6 {
      assert CleanColumnName(RequiredHeaders[6]) == "segment";
    } else {
      assert CleanColumnName(RequiredHeaders[7]) == "country";
    }
  }

  lemma CleanHeadersE(i: int)
    requires 8 <= i < 10
    ensures CleanColumnName(RequiredHeaders[i]) == ColumnName(Columns[i])
  {
    if i == 8 {
      assert CleanColumnName(RequiredHeaders[8]) == "city";
    } else {
      assert CleanColumnName(RequiredHeaders[9]) == "state";
    }
  }

  lemma CleanHeadersF(i: int)
    requires 10 <= i < 12
    ensures CleanColumnName(RequiredHeaders[i]) == ColumnName(Columns[i])
  {
    if i == 10 {
      assert CleanColumnName(RequiredHeaders[10]) == "postal_code";
    } else {
      assert CleanColumnName(RequiredHeaders[11]) == "region";
    }
  }

  lemma CleanHeadersG(i: int)
    requires 12 <= i < 14
    ensures CleanColumnName(RequiredHeaders[i]) == ColumnName(Columns[i])
  {
    if i == 12 {
      assert CleanColumnName(RequiredHeaders[12]) == "product_id";
    } else {
      assert CleanColumnName(RequiredHeaders[13]) == "category";
    }
  }

  lemma CleanHeadersH(i: int)
    requires 14 <= i < 16
    ensures CleanColumnName(RequiredHeaders[i]) == ColumnName(Columns[i])
  {
    if i == 14 {
      assert CleanColumnName(RequiredHeaders[14]) == "sub_category";
    } else {
      assert CleanColumnName(RequiredHeaders[15]) == "product_name";
    }
  }

  lemma CleanHeadersI(i: int)
    requires 16 <= i < 18
    ensures CleanColumnName(RequiredHeaders[i]) == ColumnName(Columns[i])
  {
    if i == 16 {
      assert CleanColumnName(RequiredHeaders[16]) == "sales";
    } else {
      assert CleanColumnName(RequiredHeaders[17]) == "quantity";
    }
  }

  lemma CleanHeadersJ(i: int)
    requires 18 <= i < 20
    ensures CleanColumnName(RequiredHeaders[i]) == ColumnName(Columns[i])
  {
    if i == 18 {
      assert CleanColumnName(RequiredHeaders[18]) == "discount";
    } else {
      assert CleanColumnName(RequiredHeaders[19]) == "profit";
    }
  }

  // ---------------------------------------------------------------------------
  // Deduplication
  // ---------------------------------------------------------------------------

  /** `drop_duplicates()` on the whole row, keeping the first occurrence. */
  function RemoveDuplicates(rows: seq<RawRow>): (r: seq<RawRow>)
    ensures |r| <= |rows|
  {
    DistinctBy(rows, Id)
  }

  /** No two kept rows are equal; every input row is kept once, as its first
      occurrence and in the order of first occurrences; and the number removed is
      the number of rows equal to an earlier row. */
  lemma RemoveDuplicatesSpec(rows: seq<RawRow>)
    ensures forall i, j :: 0 <= i < j < |RemoveDuplicates(rows)| ==>
      RemoveDuplicates(rows)[i] != RemoveDuplicates(rows)[j]
    ensures forall j :: 0 <= j < |rows| ==> rows[j] in RemoveDuplicates(rows)
    ensures forall i :: 0 <= i < |RemoveDuplicates(rows)| ==> RemoveDuplicates(rows)[i] in rows
    ensures forall i, j :: 0 <= i < j < |RemoveDuplicates(rows)| ==>
      Seen(rows, Id, RemoveDuplicates(rows)[i]) && Seen(rows, Id, RemoveDuplicates(rows)[j])
      && FirstIndex(rows, Id, RemoveDuplicates(rows)[i]) < FirstIndex(rows, Id, RemoveDuplicates(rows)[j])
    ensures |rows| - |RemoveDuplicates(rows)| == DuplicateCount(rows)
  {
    DistinctByKeys(rows, Id);
    DistinctKeepsElements(rows);
    DistinctByKeepsFirst(rows, Id);
    DuplicatesAreRemoved(rows);
  }

  // ---------------------------------------------------------------------------
  // Type coercion
  // ---------------------------------------------------------------------------

  /** `to_datetime(..., format='%Y-%m-%d', errors='coerce')` on one cell. */
  function CoerceDate(t: Text): Option<Day> {
    if t.Some? then ParseIsoDate(t.value) else None
  }

  /** A cell coerces to a date exactly when it holds that date's ISO text; any other
      cell, missing or not, becomes missing without an error. */
  lemma CoerceDateSpec(t: Text, d: Day)
    ensures CoerceDate(t) == Some(d) <==> t == Some(IsoText(d))
  {
    if t.Some? {
      ParseIsoDateSpec(t.value, d);
    }
  }

  /** `to_numeric(..., errors='coerce')` on one cell. */
  function ToNumeric(x: RawNum): (v: Option<real>)
    ensures v.Some? <==> x.Number?
  {
    if x.Number? then Some(x.x) else None
  }

  /** The nullable integer cast accepts a number only when it has no fractional part. */
  predicate WholeQuantity(x: RawNum) {
    x.Number? ==> x.x.Floor as real == x.x
  }

  /** `to_numeric(..., errors='coerce').astype('Int64')` on a cell the cast accepts. */
  function ToQuantity(x: RawNum): (q: Option<int>)
    requires WholeQuantity(x)
    ensures q.Some? <==> x.Number?
    ensures q.Some? ==> q.value as real == x.x
  {
    if x.Number? then Some(x.x.Floor) else None
  }

  function TypeRow(r: RawRow): (t: Typed)
    requires WholeQuantity(r.quantity)
  {
    Typed(r.orderId, CoerceDate(r.orderDate), CoerceDate(r.shipDate), r.shipMode,
          r.customer, r.product,
          ToNumeric(r.sales), ToQuantity(r.quantity), ToNumeric(r.discount), ToNumeric(r.profit))
  }

  datatype TransformError =
    | QuantityCastError
    | WeekNumberCastError
    | ValidationFailed(violations: seq<Violation>)

  predicate AllWholeQuantities(rows: seq<RawRow>) {
    forall i :: 0 <= i < |rows| ==> WholeQuantity(rows[i].quantity)
  }

  /** Coerce every column to its type; the integer cast of the quantity column fails
      as a whole when any quantity has a fractional part. */
  function FixDataTypes(rows: seq<RawRow>): (r: Result<seq<Typed>, TransformError>)
    ensures r.Ok? <==> AllWholeQuantities(rows)
    ensures r.Err? ==> r.error == QuantityCastError
    ensures r.Ok? ==> |r.value| == |rows|
  {
    if AllWholeQuantities(rows) then
      Ok(seq(|rows|, i requires 0 <= i < |rows| => TypeRow(rows[i])))
    else
      Err(QuantityCastError)
  }

  /** Typing keeps every text cell and every number the parser accepts, and drops
      exactly the cells it cannot read. */
  lemma FixDataTypesSpec(rows: seq<RawRow>, i: int, d: Day)
    requires AllWholeQuantities(rows) && 0 <= i < |rows|
    ensures FixDataTypes(rows).Ok?
    ensures var t := FixDataTypes(rows).value[i];
      && t.orderId == rows[i].orderId && t.shipMode == rows[i].shipMode
      && t.customer == rows[i].customer && t.product == rows[i].product
      && (t.orderDate == Some(d) <==> rows[i].orderDate == Some(IsoText(d)))
      && (t.shipDate == Some(d) <==> rows[i].shipDate == Some(IsoText(d)))
      && (t.sales.Some? <==> rows[i].sales.Number?)
      && (t.sales.Some? ==> t.sales.value == rows[i].sales.x)
      && (t.quantity.Some? <==> rows[i].quantity.Number?)
      && (t.quantity.Some? ==> t.quantity.value as real == rows[i].quantity.x)
      && (t.discount.Some? <==> rows[i].discount.Number?)
      && (t.discount.Some? ==> t.discount.value == rows[i].discount.x)
      && (t.profit.Some? <==> rows[i].profit.Number?)
      && (t.profit.Some? ==> t.profit.value == rows[i].profit.x)
  {
    CoerceDateSpec(rows[i].orderDate, d);
    CoerceDateSpec(rows[i].shipDate, d);
  }

  // ---------------------------------------------------------------------------
  // Derived columns
  // ---------------------------------------------------------------------------

  /** `profit / sales.replace(0, NA) * 100`, before rounding. */
  function MarginPercent(profit: Option<real>, sales: Option<real>): (m: Option<real>)
    ensures m.Some? <==> profit.Some? && sales.Some? && sales.value != 0.0
    ensures m.Some? ==> m.value * sales.value == 100.0 * profit.value
  {
    if profit.Some? && sales.Some? && sales.value != 0.0 then
      Some(profit.value / sales.value * 100.0)
    else None
  }

  lemma MarginPercentExample()
    ensures MarginPercent(Some(20.0), Some(100.0)) == Some(20.0)
    ensures MarginPercent(Some(20.0), Some(0.0)) == None
  {
  }

  /** `(ship_date - order_date).dt.days`. */
  function DaysToShip(order: Day, ship: Option<Day>): (n: Option<int>)
    ensures n.Some? <==> ship.Some?
  {
    if ship.Some? then Some(DaysBetween(order, ship.value)) else None
  }

  /** Delivery days are negative exactly when the ship date precedes the order date,
      and zero exactly when both fall on the same day. */
  lemma DaysToShipSign(order: Day, ship: Day)
    ensures DaysToShip(order, Some(ship)).value < 0 <==> Before(ship, order)
    ensures DaysToShip(order, Some(ship)).value == 0 <==> ship == order
  {
    DaysBetweenSign(order, ship);
  }

  /** The enriched row of one typed row whose order date is present. */
  function Derive(t: Typed): (s: Sale)
    requires t.orderDate.Some?
    ensures s.orderDate == t.orderDate.value
    ensures s.orderYear == s.orderDate.year && s.orderMonth == s.orderDate.month
    ensures 1 <= s.orderQuarter <= 4 && 3 * (s.orderQuarter - 1) < s.orderMonth <= 3 * s.orderQuarter
    ensures s.isWeekend == 1 <==> Weekday(s.orderDate) == 5 || Weekday(s.orderDate) == 6
    ensures s.isWeekend == 0 || s.isWeekend == 1
    ensures s.shipDate == (if t.shipDate.Some? then At(t.shipDate.value) else NaT)
    ensures s.profitMargin == MarginPercent(t.profit, t.sales)
    ensures s.deliveryDays == DaysToShip(s.orderDate, t.shipDate)
    ensures s.orderId == t.orderId && s.shipMode == t.shipMode
    ensures s.customer == t.customer && s.product == t.product
    ensures s.sales == t.sales && s.quantity == t.quantity
    ensures s.discount == t.discount && s.profit == t.profit
  {
    var d := t.orderDate.value;
    Sale(t.orderId, d, if t.shipDate.Some? then At(t.shipDate.value) else NaT, t.shipMode,
         t.customer, t.product, t.sales, t.quantity, t.discount, t.profit,
         MarginPercent(t.profit, t.sales), DaysToShip(d, t.shipDate),
         d.year, d.month, Quarter(d.month), if Weekday(d) >= 5 then 1 else 0)
  }

  predicate AllDated(rows: seq<Typed>) {
    forall i :: 0 <= i < |rows| ==> rows[i].orderDate.Some?
  }

  /** Add the derived columns; the ISO week cast fails as a whole when any order date
      is missing. */
  function AddDerivedColumns(rows: seq<Typed>): (r: Result<seq<Sale>, TransformError>)
    ensures r.Ok? <==> AllDated(rows)
    ensures r.Err? ==> r.error == WeekNumberCastError
    ensures r.Ok? ==> |r.value| == |rows|
  {
    if AllDated(rows) then
      Ok(seq(|rows|, i requires 0 <= i < |rows| => Derive(rows[i])))
    else
      Err(WeekNumberCastError)
  }

  /** The derived measures of each enriched row: a margin exactly when profit and a
      non-zero sales figure are present, with margin times sales equal to a hundred
      times the profit; delivery days exactly when the ship date is present, negative
      exactly when shipping precedes the order and zero on the same day. */
  lemma DerivedMeasures(rows: seq<Typed>, i: int)
    requires AllDated(rows) && 0 <= i < |rows|
    ensures AddDerivedColumns(rows).Ok?
    ensures var s := AddDerivedColumns(rows).value[i];
      && s.orderDate == rows[i].orderDate.value
      && (s.profitMargin.Some? <==>
            rows[i].profit.Some? && rows[i].sales.Some? && rows[i].sales.value != 0.0)
      && (s.profitMargin.Some? ==>
            s.profitMargin.value * rows[i].sales.value == 100.0 * rows[i].profit.value)
      && (s.deliveryDays.Some? <==> rows[i].shipDate.Some?)
      && (s.deliveryDays.Some? ==>
            (s.deliveryDays.value < 0 <==> Before(rows[i].shipDate.value, s.orderDate))
            && (s.deliveryDays.value == 0 <==> rows[i].shipDate.value == s.orderDate))
  {
    var s := AddDerivedColumns(rows).value[i];
    assert s == Derive(rows[i]);
    if rows[i].shipDate.Some? {
      DaysToShipSign(s.orderDate, rows[i].shipDate.value);
    }
  }

  // ---------------------------------------------------------------------------
  // Null filling
  // ---------------------------------------------------------------------------

  /** Columns whose dtype is numeric (float, int or nullable int): their nulls become 0. */
  predicate NumericColumn(c: Column) {
    c in {Sales, Quantity, Discount, Profit, ProfitMargin, DeliveryDays,
          OrderYear, OrderMonth, OrderQuarter, IsWeekend}
  }

  /** The value a missing cell of column `c` is filled with. */
  function FillValue(c: Column): (v: Value)
    ensures v != Null
    ensures NumericColumn(c) ==> v == Real(0.0) || v == Int(0)
    ensures !NumericColumn(c) ==> v == Str("Unknown")
  {
    match c
    case Sales => Real(0.0)
    case Discount => Real(0.0)
    case Profit => Real(0.0)
    case ProfitMargin => Real(0.0)
    case Quantity => Int(0)
    case DeliveryDays => Int(0)
    case OrderYear => Int(0)
    case OrderMonth => Int(0)
    case OrderQuarter => Int(0)
    case IsWeekend => Int(0)
    case _ => Str("Unknown")
  }

  const Unknown: string := "Unknown"

  /** `df[c] = df[c].fillna(...)` on one row. The order date and the calendar columns
      are never missing in an enriched row, so they have no case of their own. */
  function FillColumn(r: Sale, c: Column): Sale {
    if ColumnValue(r, c) != Null then r
    else
      match c
      case OrderId => r.(orderId := Some(Unknown))
      case ShipDate => r.(shipDate := UnknownText)
      case ShipMode => r.(shipMode := Some(Unknown))
      case CustomerId => r.(customer := r.customer.(id := Some(Unknown)))
      case CustomerName => r.(customer := r.customer.(name := Some(Unknown)))
      case Segment => r.(customer := r.customer.(segment := Some(Unknown)))
      case Country => r.(customer := r.customer.(country := Some(Unknown)))
      case City => r.(customer := r.customer.(city := Some(Unknown)))
      case State => r.(customer := r.customer.(state := Some(Unknown)))
      case PostalCode => r.(customer := r.customer.(postalCode := Some(Unknown)))
      case Region => r.(customer := r.customer.(region := Some(Unknown)))
      case ProductId => r.(product := r.product.(id := Some(Unknown)))
      case Category => r.(product := r.product.(category := Some(Unknown)))
      case SubCategory => r.(product := r.product.(subCategory := Some(Unknown)))
      case ProductName => r.(product := r.product.(name := Some(Unknown)))
      case Sales => r.(sales := Some(0.0))
      case Quantity => r.(quantity := Some(0))
      case Discount => r.(discount := Some(0.0))
      case Profit => r.(profit := Some(0.0))
      case ProfitMargin => r.(profitMargin := Some(0.0))
      case DeliveryDays => r.(deliveryDays := Some(0))
      case _ => r
  }

  /** Filling column `c` replaces that column's missing cell by its fill value and
      leaves every other cell as it was. */
  lemma FillColumnSpec(r: Sale, c: Column, d: Column)
    ensures ColumnValue(FillColumn(r, c), d) ==
      if d == c && ColumnValue(r, c) == Null then FillValue(c) else ColumnValue(r, d)
  {
    if ColumnValue(r, c) == Null {
      if c == OrderId || c == ShipDate || c == ShipMode {
        FillOrderColumn(r, c, d);
      } else if c == CustomerId || c == CustomerName || c == Segment || c == Country {
        FillCustomerColumn(r, c, d);
      } else if c == City || c == State || c == PostalCode || c == Region {
        FillPlaceColumn(r, c, d);
      } else if c == ProductId || c == Category || c == SubCategory || c == ProductName {
        FillProductColumn(r, c, d);
      } else if c == Sales || c == Quantity || c == Discount {
        FillMeasureColumn(r, c, d);
      } else if c == Profit || c == ProfitMargin || c == DeliveryDays {
        FillResultColumn(r, c, d);
      }
    }
  }

  lemma FillOrderColumn(r: Sale, c: Column, d: Column)
    requires ColumnValue(r, c) == Null
    requires c == OrderId || c == ShipDate || c == ShipMode
    ensures ColumnValue(FillColumn(r, c), d) ==
      if d == c && ColumnValue(r, c) == Null then FillValue(c) else ColumnValue(r, d)
  {
    if c == OrderId {
      assert FillColumn(r, c) == r.(orderId := Some(Unknown));
    } else if c == ShipDate {
      assert FillColumn(r, c) == r.(shipDate := UnknownText);
    } else {
      assert FillColumn(r, c) == r.(shipMode := Some(Unknown));
    }
  }

  lemma FillCustomerColumn(r: Sale, c: Column, d: Column)
    requires ColumnValue(r, c) == Null
    requires c == CustomerId || c == CustomerName || c == Segment || c == Country
    ensures ColumnValue(FillColumn(r, c), d) ==
      if d == c && ColumnValue(r, c) == Null then FillValue(c) else ColumnValue(r, d)
  {
    if c == CustomerId {
      assert FillColumn(r, c) == r.(customer := r.customer.(id := Some(Unknown)));
    } else if c == CustomerName {
      assert FillColumn(r, c) == r.(customer := r.customer.(name := Some(Unknown)));
    } else if c == Segment {
      assert FillColumn(r, c) == r.(customer := r.customer.(segment := Some(Unknown)));
    } else {
      assert FillColumn(r, c) == r.(customer := r.customer.(country := Some(Unknown)));
    }
  }

  lemma FillPlaceColumn(r: Sale, c: Column, d: Column)
    requires ColumnValue(r, c) == Null
    requires c == City || c == State || c == PostalCode || c == Region
    ensures ColumnValue(FillColumn(r, c), d) ==
      if d == c && ColumnValue(r, c) == Null then FillValue(c) else ColumnValue(r, d)
  {
    if c == City {
      assert FillColumn(r, c) == r.(customer := r.customer.(city := Some(Unknown)));
    } else if c == State {
      assert FillColumn(r, c) == r.(customer := r.customer.(state := Some(Unknown)));
    } else if c == PostalCode {
      assert FillColumn(r, c) == r.(customer := r.customer.(postalCode := Some(Unknown)));
    } else {
      assert FillColumn(r, c) == r.(customer := r.customer.(region := Some(Unknown)));
    }
  }

  lemma FillProductColumn(r: Sale, c: Column, d: Column)
    requires ColumnValue(r, c) == Null
    requires c == ProductId || c == Category || c == SubCategory || c == ProductName
    ensures ColumnValue(FillColumn(r, c), d) ==
      if d == c && ColumnValue(r, c) == Null then FillValue(c) else ColumnValue(r, d)
  {
    if c == ProductId {
      assert FillColumn(r, c) == r.(product := r.product.(id := Some(Unknown)));
    } else if c == Category {
      assert FillColumn(r, c) == r.(product := r.product.(category := Some(Unknown)));
    } else if c == SubCategory {
      assert FillColumn(r, c) == r.(product := r.product.(subCategory := Some(Unknown)));
    } else {
      assert FillColumn(r, c) == r.(product := r.product.(name := Some(Unknown)));
    }
  }

  lemma FillMeasureColumn(r: Sale, c: Column, d: Column)
    requires ColumnValue(r, c) == Null
    requires c == Sales || c == Quantity || c == Discount
    ensures ColumnValue(FillColumn(r, c), d) ==
      if d == c && ColumnValue(r, c) == Null then FillValue(c) else ColumnValue(r, d)
  {
    if c == Sales {
      assert FillColumn(r, c) == r.(sales := Some(0.0));
    } else if c == Quantity {
      assert FillColumn(r, c) == r.(quantity := Some(0));
    } else {
      assert FillColumn(r, c) == r.(discount := Some(0.0));
    }
  }

  lemma FillResultColumn(r: Sale, c: Column, d: Column)
    requires ColumnValue(r, c) == Null
    requires c == Profit || c == ProfitMargin || c == DeliveryDays
    ensures ColumnValue(FillColumn(r, c), d) ==
      if d == c && ColumnValue(r, c) == Null then FillValue(c) else ColumnValue(r, d)
  {
    if c == Profit {
      assert FillColumn(r, c) == r.(profit := Some(0.0));
    } else if c == ProfitMargin {
      assert FillColumn(r, c) == r.(profitMargin := Some(0.0));
    } else {
      assert FillColumn(r, c) == r.(deliveryDays := Some(0));
    }
  }

  /** Fill the columns `cols`, one after the other. */
  function FillColumns(r: Sale, cols: seq<Column>): Sale
    decreases |cols|
  {
    if |cols| == 0 then r
    else FillColumn(FillColumns(r, cols[..|cols| - 1]), cols[|cols| - 1])
  }

  lemma {:induction false} FillColumnsSpec(r: Sale, cols: seq<Column>, d: Column)
    ensures ColumnValue(FillColumns(r, cols), d) ==
      if d in cols && ColumnValue(r, d) == Null then FillValue(d) else ColumnValue(r, d)
    decreases |cols|
  {
    if |cols| > 0 {
      var init := cols[..|cols| - 1];
      var c := cols[|cols| - 1];
      FillColumnsSpec(r, init, d);
      FillColumnSpec(FillColumns(r, init), c, d);
      FillColumnsSpec(r, init, c);
      assert d in cols <==> d in init || d == c;
    }
  }

  /** Every column of one row filled. */
  function FillRow(r: Sale): Sale {
    FillColumns(r, Columns)
  }

  /** After filling, no cell is missing, every present cell is unchanged and every
      missing cell holds its column's fill value (0 or "Unknown"). */
  lemma FillRowSpec(r: Sale, c: Column)
    ensures ColumnValue(FillRow(r), c) ==
      if ColumnValue(r, c) == Null then FillValue(c) else ColumnValue(r, c)
    ensures ColumnValue(FillRow(r), c) != Null
  {
    ColumnsListed(c);
    FillColumnsSpec(r, Columns, c);
  }

  lemma FillRowFilled(r: Sale)
    ensures Filled(FillRow(r))
  {
    forall c: Column ensures ColumnValue(FillRow(r), c) != Null {
      FillRowSpec(r, c);
    }
  }

  /** The number of missing cells of column `c` (`df[c].isnull().sum()`). */
  function ColumnNulls(batch: seq<Sale>, c: Column): (n: nat)
    ensures n <= |batch|
    ensures n == 0 <==> forall i :: 0 <= i < |batch| ==> ColumnValue(batch[i], c) != Null
  {
    CountWhere(batch, (r: Sale) => ColumnValue(r, c) == Null)
  }

  /** Missing cells over the columns `cols` (`df.isnull().sum().sum()` for all columns). */
  function NullsIn(batch: seq<Sale>, cols: seq<Column>): (n: nat)
    decreases |cols|
  {
    if |cols| == 0 then 0
    else NullsIn(batch, cols[..|cols| - 1]) + ColumnNulls(batch, cols[|cols| - 1])
  }

  /** No cell of the columns `cols` is missing in any row. */
  predicate ColumnsPresent(batch: seq<Sale>, cols: seq<Column>) {
    forall i, c :: 0 <= i < |batch| && c in cols ==> ColumnValue(batch[i], c) != Null
  }

  lemma ColumnsPresentSplit(batch: seq<Sale>, cols: seq<Column>)
    requires |cols| > 0
    ensures ColumnsPresent(batch, cols) <==>
      ColumnsPresent(batch, cols[..|cols| - 1]) && ColumnNulls(batch, cols[|cols| - 1]) == 0
  {
    var init := cols[..|cols| - 1];
    var last := cols[|cols| - 1];
    assert forall c :: c in cols <==> c in init || c == last;
    assert last in cols;
  }

  lemma {:induction false} NullsInZero(batch: seq<Sale>, cols: seq<Column>)
    ensures NullsIn(batch, cols) == 0 <==> ColumnsPresent(batch, cols)
    decreases |cols|
  {
    if |cols| > 0 {
      NullsInZero(batch, cols[..|cols| - 1]);
      ColumnsPresentSplit(batch, cols);
    }
  }

  /** A batch with no missing cell is made of filled rows. */
  lemma NoNullsFilled(batch: seq<Sale>)
    requires NullsIn(batch, Columns) == 0
    ensures forall i :: 0 <= i < |batch| ==> Filled(batch[i])
  {
    NullsInZero(batch, Columns);
    forall i, c: Column | 0 <= i < |batch| ensures ColumnValue(batch[i], c) != Null {
      ColumnsListed(c);
    }
  }

  /** Filling a row without missing cells changes nothing. */
  lemma FillRowOfFilled(r: Sale)
    requires Filled(r)
    ensures FillRow(r) == r
  {
    FillColumnsUnchanged(r, Columns);
  }

  lemma {:induction false} FillColumnsUnchanged(r: Sale, cols: seq<Column>)
    requires Filled(r)
    ensures FillColumns(r, cols) == r
    decreases |cols|
  {
    if |cols| > 0 {
      FillColumnsUnchanged(r, cols[..|cols| - 1]);
    }
  }

  /** One more column filled extends the prefix of filled columns; a column without
      missing cells is left as it is. */
  lemma FillStep(batch: seq<Sale>, out: seq<Sale>, k: nat)
    requires k < |Columns| && |out| == |batch|
    requires forall i :: 0 <= i < |out| ==> out[i] == FillColumns(batch[i], Columns[..k])
    ensures forall i :: 0 <= i < |out| ==>
      FillColumn(out[i], Columns[k]) == FillColumns(batch[i], Columns[..k + 1])
    ensures ColumnNulls(out, Columns[k]) == 0 ==>
      forall i :: 0 <= i < |out| ==> out[i] == FillColumns(batch[i], Columns[..k + 1])
  {
    assert Columns[..k + 1][..k] == Columns[..k];
  }

  /** `df[c].fillna(...)` over the whole column. */
  function FillInRows(rows: seq<Sale>, c: Column): (r: seq<Sale>)
    ensures |r| == |rows|
    ensures forall i :: 0 <= i < |r| ==> r[i] == FillColumn(rows[i], c)
  {
    seq(|rows|, i requires 0 <= i < |rows| => FillColumn(rows[i], c))
  }

  /** The column loop of `handle_nulls`: each column with a missing cell is filled
      in every row, one column after the other. */
  method FillEveryColumn(batch: seq<Sale>) returns (out: seq<Sale>)
    ensures |out| == |batch|
    ensures forall i :: 0 <= i < |out| ==> out[i] == FillRow(batch[i])
  {
    out := batch;
    for k := 0 to |Columns|
      invariant |out| == |batch|
      invariant forall i :: 0 <= i < |out| ==> out[i] == FillColumns(batch[i], Columns[..k])
    {
      var c := Columns[k];
      FillStep(batch, out, k);
      if ColumnNulls(out, c) > 0 {
        out := FillInRows(out, c);
      }
    }
    assert Columns[..|Columns|] == Columns;
  }

  /** `handle_nulls`: return the batch as is when it has no missing cell; otherwise,
      column by column, fill the columns that have a missing cell. */
  method HandleNulls(batch: seq<Sale>) returns (out: seq<Sale>)
    ensures |out| == |batch|
    ensures forall i :: 0 <= i < |out| ==> out[i] == FillRow(batch[i])
    ensures forall i :: 0 <= i < |out| ==> Filled(out[i])
    ensures NullsIn(batch, Columns) == 0 ==> out == batch
  {
    if NullsIn(batch, Columns) == 0 {
      NoNullsFilled(batch);
      forall i | 0 <= i < |batch| ensures batch[i] == FillRow(batch[i]) {
        FillRowOfFilled(batch[i]);
      }
      return batch;
    }
    out := FillEveryColumn(batch);
    forall i | 0 <= i < |out| ensures Filled(out[i]) {
      FillRowFilled(batch[i]);
    }
  }

  // ---------------------------------------------------------------------------
  // Quality gate
  // ---------------------------------------------------------------------------

  datatype Violation =
    | CriticalNulls(column: Column, count: nat)
    | NegativeQuantity(count: nat)
    | NegativeSales(count: nat)
    | InvalidDiscount(count: nat)

  const CriticalColumns: seq<Column> :=
    [OrderId, OrderDate, CustomerId, ProductId, Sales, Quantity, Profit]

  /** A missing value compares as false, so it is never counted as out of range. */
  predicate HasNegativeQuantity(r: Sale) {
    r.quantity.Some? && r.quantity.value < 0
  }

  predicate HasNegativeSales(r: Sale) {
    r.sales.Some? && r.sales.value < 0.0
  }

  predicate HasInvalidDiscount(r: Sale) {
    r.discount.Some? && (r.discount.value < 0.0 || r.discount.value > 1.0)
  }

  /** One row meets every blocking rule: no critical cell is missing, and the
      quantity, sales and discount are in range. Delivery days are not a rule. */
  predicate RowPasses(r: Sale) {
    (forall c :: c in CriticalColumns ==> ColumnValue(r, c) != Null)
    && !HasNegativeQuantity(r) && !HasNegativeSales(r) && !HasInvalidDiscount(r)
  }

  predicate PassesGate(batch: seq<Sale>) {
    forall i :: 0 <= i < |batch| ==> RowPasses(batch[i])
  }

  function NullViolations(batch: seq<Sale>, cols: seq<Column>): seq<Violation>
    decreases |cols|
  {
    if |cols| == 0 then []
    else
      var c := cols[|cols| - 1];
      var n := ColumnNulls(batch, c);
      NullViolations(batch, cols[..|cols| - 1]) + (if n > 0 then [CriticalNulls(c, n)] else [])
  }

  function CountIf(n: nat, v: Violation): seq<Violation> {
    if n > 0 then [v] else []
  }

  /** Every violation, in the order the checks run. */
  function Violations(batch: seq<Sale>): seq<Violation> {
    var negQty := CountWhere(batch, HasNegativeQuantity);
    var negSales := CountWhere(batch, HasNegativeSales);
    var badDiscount := CountWhere(batch, HasInvalidDiscount);
    NullViolations(batch, CriticalColumns)
      + CountIf(negQty, NegativeQuantity(negQty))
      + CountIf(negSales, NegativeSales(negSales))
      + CountIf(badDiscount, InvalidDiscount(badDiscount))
  }

  lemma {:induction false} NullViolationsEmpty(batch: seq<Sale>, cols: seq<Column>)
    ensures NullViolations(batch, cols) == [] <==> ColumnsPresent(batch, cols)
    decreases |cols|
  {
    if |cols| > 0 {
      NullViolationsEmpty(batch, cols[..|cols| - 1]);
      ColumnsPresentSplit(batch, cols);
    }
  }

  /** Each critical-null violation names a critical column with its exact null count,
      and each critical column with nulls is reported. */
  lemma {:induction false} NullViolationsReport(batch: seq<Sale>, cols: seq<Column>, c: Column, n: nat)
    ensures CriticalNulls(c, n) in NullViolations(batch, cols) <==>
      c in cols && n == ColumnNulls(batch, c) && n > 0
    decreases |cols|
  {
    if |cols| > 0 {
      NullViolationsReport(batch, cols[..|cols| - 1], c, n);
      assert c in cols <==> c in cols[..|cols| - 1] || c == cols[|cols| - 1];
    }
  }

  /** The gate passes exactly when no violation is found. */
  lemma ViolationsSpec(batch: seq<Sale>)
    ensures Violations(batch) == [] <==> PassesGate(batch)
  {
    NullViolationsEmpty(batch, CriticalColumns);
    var negQty := CountWhere(batch, HasNegativeQuantity);
    var negSales := CountWhere(batch, HasNegativeSales);
    var badDiscount := CountWhere(batch, HasInvalidDiscount);
    if PassesGate(batch) {
      assert negQty == 0 && negSales == 0 && badDiscount == 0;
    }
    if Violations(batch) == [] {
      assert NullViolations(batch, CriticalColumns) == [];
      assert negQty == 0 && negSales == 0 && badDiscount == 0;
    }
  }

  /** Every critical column with missing cells is reported with its count, even
      when other checks fail too. */
  lemma ViolationsReported(batch: seq<Sale>, c: Column, n: nat)
    ensures CriticalNulls(c, n) in Violations(batch) <==>
      c in CriticalColumns && n == ColumnNulls(batch, c) && n > 0
  {
    var negQty := CountWhere(batch, HasNegativeQuantity);
    var negSales := CountWhere(batch, HasNegativeSales);
    var badDiscount := CountWhere(batch, HasInvalidDiscount);
    var nulls := NullViolations(batch, CriticalColumns);
    var a := CountIf(negQty, NegativeQuantity(negQty));
    var b := CountIf(negSales, NegativeSales(negSales));
    var d := CountIf(badDiscount, InvalidDiscount(badDiscount));
    assert Violations(batch) == nulls + a + b + d;
    assert CriticalNulls(c, n) !in a && CriticalNulls(c, n) !in b && CriticalNulls(c, n) !in d;
    NullViolationsReport(batch, CriticalColumns, c, n);
  }

  /** The three range checks are each reported with their exact row counts. */
  lemma RangeViolationsReported(batch: seq<Sale>, n: nat)
    ensures NegativeQuantity(n) in Violations(batch) <==>
      n == CountWhere(batch, HasNegativeQuantity) && n > 0
    ensures NegativeSales(n) in Violations(batch) <==>
      n == CountWhere(batch, HasNegativeSales) && n > 0
    ensures InvalidDiscount(n) in Violations(batch) <==>
      n == CountWhere(batch, HasInvalidDiscount) && n > 0
  {
    RangeViolationIn(batch, NegativeQuantity(n));
    RangeViolationIn(batch, NegativeSales(n));
    RangeViolationIn(batch, InvalidDiscount(n));
  }

  /** A range violation is reported exactly when its own check fires with its count. */
  lemma RangeViolationIn(batch: seq<Sale>, v: Violation)
    requires !v.CriticalNulls?
    ensures v in Violations(batch) <==>
      match v
      case NegativeQuantity(n) => n == CountWhere(batch, HasNegativeQuantity) && n > 0
      case NegativeSales(n) => n == CountWhere(batch, HasNegativeSales) && n > 0
      case InvalidDiscount(n) => n == CountWhere(batch, HasInvalidDiscount) && n > 0
      case CriticalNulls(_, _) => false
  {
    var negQty := CountWhere(batch, HasNegativeQuantity);
    var negSales := CountWhere(batch, HasNegativeSales);
    var badDiscount := CountWhere(batch, HasInvalidDiscount);
    var nulls := NullViolations(batch, CriticalColumns);
    var a := CountIf(negQty, NegativeQuantity(negQty));
    var b := CountIf(negSales, NegativeSales(negSales));
    var c := CountIf(badDiscount, InvalidDiscount(badDiscount));
    NullViolationsShape(batch, CriticalColumns);
    assert Violations(batch) == nulls + a + b + c;
    assert v !in nulls;
  }

  lemma {:induction false} NullViolationsShape(batch: seq<Sale>, cols: seq<Column>)
    ensures forall v :: v in NullViolations(batch, cols) ==> v.CriticalNulls?
    decreases |cols|
  {
    if |cols| > 0 {
      NullViolationsShape(batch, cols[..|cols| - 1]);
    }
  }

  /** Negative delivery days only warn: the gate's verdict ignores them. */
  lemma GateIgnoresDeliveryDays(batch: seq<Sale>, other: seq<Sale>)
    requires |other| == |batch|
    requires forall i :: 0 <= i < |batch| ==> other[i] == batch[i].(deliveryDays := other[i].deliveryDays)
    ensures PassesGate(other) <==> PassesGate(batch)
  {
    forall i | 0 <= i < |batch| ensures RowPasses(other[i]) <==> RowPasses(batch[i]) {
      RowPassesIgnoresDeliveryDays(batch[i], other[i]);
    }
  }

  lemma RowPassesIgnoresDeliveryDays(r: Sale, r': Sale)
    requires r' == r.(deliveryDays := r'.deliveryDays)
    ensures RowPasses(r') <==> RowPasses(r)
  {
    forall c | c in CriticalColumns ensures ColumnValue(r', c) == ColumnValue(r, c) {
    }
  }

  /** After null filling, the critical-null check can never fire. */
  lemma FilledHasNoCriticalNulls(batch: seq<Sale>)
    requires forall i :: 0 <= i < |batch| ==> Filled(batch[i])
    ensures NullViolations(batch, CriticalColumns) == []
  {
    NullViolationsEmpty(batch, CriticalColumns);
  }

  /** The critical-null checks of `validate_data`: one violation per critical column
      with missing cells, in column order. */
  method CheckCriticalNulls(batch: seq<Sale>) returns (errors: seq<Violation>)
    ensures errors == NullViolations(batch, CriticalColumns)
  {
    errors := [];
    for k := 0 to |CriticalColumns|
      invariant errors == NullViolations(batch, CriticalColumns[..k])
    {
      var c := CriticalColumns[k];
      assert CriticalColumns[..k + 1][..k] == CriticalColumns[..k];
      var n := ColumnNulls(batch, c);
      if n > 0 {
        errors := errors + [CriticalNulls(c, n)];
      }
    }
    assert CriticalColumns[..|CriticalColumns|] == CriticalColumns;
  }

  /** `validate_data`: run every check, collecting the violations, then fail once if
      there is any. */
  method ValidateData(batch: seq<Sale>) returns (result: Outcome<seq<Violation>>)
    ensures result.Pass? <==> PassesGate(batch)
    ensures result.Fail? ==> result.error == Violations(batch) && result.error != []
  {
    var errors := CheckCriticalNulls(batch);
    ghost var nulls := errors;
    var negQty := CountWhere(batch, HasNegativeQuantity);
    if negQty > 0 {
      errors := errors + [NegativeQuantity(negQty)];
    }
    assert errors == nulls + CountIf(negQty, NegativeQuantity(negQty));
    ghost var upToQty := errors;
    var negSales := CountWhere(batch, HasNegativeSales);
    if negSales > 0 {
      errors := errors + [NegativeSales(negSales)];
    }
    assert errors == upToQty + CountIf(negSales, NegativeSales(negSales));
    ghost var upToSales := errors;
    var badDiscount := CountWhere(batch, HasInvalidDiscount);
    if badDiscount > 0 {
      errors := errors + [InvalidDiscount(badDiscount)];
    }
    assert errors == upToSales + CountIf(badDiscount, InvalidDiscount(badDiscount));
    assert errors == Violations(batch);
    ViolationsSpec(batch);
    if errors != [] {
      return Fail(errors);
    }
    return Pass;
  }

  // ---------------------------------------------------------------------------
  // The whole stage
  // ---------------------------------------------------------------------------

  predicate AllOrderDatesParse(rows: seq<RawRow>) {
    forall i :: 0 <= i < |rows| ==> CoerceDate(rows[i].orderDate).Some?
  }

  /** The row the stage emits for one kept raw row. */
  function TransformRow(r: RawRow): (s: Sale)
    requires WholeQuantity(r.quantity) && CoerceDate(r.orderDate).Some?
    ensures Filled(s)
  {
    FillRowFilled(Derive(TypeRow(r)));
    FillRow(Derive(TypeRow(r)))
  }

  function TransformRows(rows: seq<RawRow>): (r: seq<Sale>)
    requires AllWholeQuantities(rows) && AllOrderDatesParse(rows)
    ensures |r| == |rows|
  {
    seq(|rows|, i requires 0 <= i < |rows| => TransformRow(rows[i]))
  }

  /** A check that holds for every row holds for every kept row, and conversely. */
  lemma DedupPreservesRowChecks(rows: seq<RawRow>)
    ensures AllWholeQuantities(RemoveDuplicates(rows)) <==> AllWholeQuantities(rows)
    ensures AllOrderDatesParse(RemoveDuplicates(rows)) <==> AllOrderDatesParse(rows)
  {
    DistinctKeepsElements(rows);
  }

  /** `transform_data`: the stages in order; the first failing stage decides the
      error. The output keeps one enriched, filled row per distinct input row and
      satisfies the quality gate. */
  method TransformData(rows: seq<RawRow>) returns (result: Result<seq<Sale>, TransformError>)
    ensures result == Err(QuantityCastError) <==> !AllWholeQuantities(rows)
    ensures result == Err(WeekNumberCastError) <==>
      AllWholeQuantities(rows) && !AllOrderDatesParse(rows)
    ensures result.Err? && result.error.ValidationFailed? ==>
      AllWholeQuantities(rows) && AllOrderDatesParse(rows)
      && AllWholeQuantities(RemoveDuplicates(rows)) && AllOrderDatesParse(RemoveDuplicates(rows))
      && result.error.violations == Violations(TransformRows(RemoveDuplicates(rows)))
      && !PassesGate(TransformRows(RemoveDuplicates(rows)))
    ensures result.Ok? ==>
      AllWholeQuantities(rows) && AllOrderDatesParse(rows)
      && AllWholeQuantities(RemoveDuplicates(rows)) && AllOrderDatesParse(RemoveDuplicates(rows))
      && result.value == TransformRows(RemoveDuplicates(rows))
      && PassesGate(result.value)
      && (forall i :: 0 <= i < |result.value| ==> Filled(result.value[i]))
  {
    var deduped := RemoveDuplicates(rows);
    DedupPreservesRowChecks(rows);
    var typed := FixDataTypes(deduped);
    if typed.Err? {
      return Err(typed.error);
    }
    var derived := AddDerivedColumns(typed.value);
    if derived.Err? {
      var i :| 0 <= i < |typed.value| && typed.value[i].orderDate.None?;
      assert CoerceDate(deduped[i].orderDate).None?;
      return Err(derived.error);
    }
    assert AllOrderDatesParse(deduped) by {
      forall i | 0 <= i < |deduped| ensures CoerceDate(deduped[i].orderDate).Some? {
        assert typed.value[i].orderDate.Some?;
      }
    }
    var filled := HandleNulls(derived.value);
    assert filled == TransformRows(deduped);
    var verdict := ValidateData(filled);
    if verdict.Fail? {
      return Err(ValidationFailed(verdict.error));
    }
    return Ok(filled);
  }
}
