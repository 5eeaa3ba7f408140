/** The load stage: a star-schema warehouse of six tables (staging, the date,
    customer, product and shipping dimensions, and the sales fact table) that the
    loaders reset and then append to. Surrogate keys come from AUTOINCREMENT
    counters; each append checks the table's UNIQUE and NOT NULL constraints and
    either appends every row or, on a violation, none. */
module Load {
  import opened Wrappers
  import opened Calendar
  import opened Collections
  import opened Records
  import opened Dimensions

  datatype Table = Staging | DimDate | DimCustomer | DimProduct | DimShipping | FactSales

  /** The tables in the order the reset drops them, fact table first. */
  const DropOrder: seq<Table> := [FactSales, DimDate, DimCustomer, DimProduct, DimShipping, Staging]

  /** The tables in the order the load check counts them. */
  const CountOrder: seq<Table> := [Staging, DimDate, DimCustomer, DimProduct, DimShipping, FactSales]

  datatype LoadError =
    | ShipDateNotDatetime
    | IntegrityError(table: Table)
    | RowCountMismatch(source: nat, fact: nat)

  /** A stored row with its surrogate key. */
  datatype Keyed<R> = Keyed(key: int, row: R)

  function Unkeyed<R>(t: seq<Keyed<R>>): (rows: seq<R>)
    ensures |rows| == |t|
    ensures forall i :: 0 <= i < |t| ==> rows[i] == t[i].row
  {
    seq(|t|, i requires 0 <= i < |t| => t[i].row)
  }

  /** Rows appended to a table whose AUTOINCREMENT counter stands at `last`. */
  function KeyedFrom<R>(last: nat, rows: seq<R>): (t: seq<Keyed<R>>)
    ensures |t| == |rows|
    ensures forall i :: 0 <= i < |t| ==> t[i] == Keyed(last + i + 1, rows[i])
  {
    seq(|rows|, i requires 0 <= i < |rows| => Keyed(last + i + 1, rows[i]))
  }

  /** Keys 1, 2, ... in insertion order, the counter at the last one. */
  predicate SequentialKeys<R>(t: seq<Keyed<R>>, counter: nat) {
    counter == |t| && forall i :: 0 <= i < |t| ==> t[i].key == i + 1
  }

  /** A UNIQUE NOT NULL column. */
  predicate NaturalKeysOk(ids: seq<Text>) {
    (forall i :: 0 <= i < |ids| ==> ids[i].Some?)
    && forall i, j :: 0 <= i < j < |ids| ==> ids[i] != ids[j]
  }

  /** The date dimension's primary key. */
  predicate DateKeysUnique(rows: seq<DateRow>) {
    forall i, j :: 0 <= i < j < |rows| ==> rows[i].dateKey != rows[j].dateKey
  }

  function CustomerRowId(r: CustomerRow): Text {
    r.customerId
  }

  function ProductRowId(r: ProductRow): Text {
    r.productId
  }

  function NaturalKeys<R>(rows: seq<R>, id: R -> Text): (ids: seq<Text>)
    ensures |ids| == |rows|
    ensures forall i :: 0 <= i < |rows| ==> ids[i] == id(rows[i])
  {
    seq(|rows|, i requires 0 <= i < |rows| => id(rows[i]))
  }

  /** The fact table's NOT NULL columns. */
  predicate FactNotNull(f: FactRow) {
    f.orderId.Some? && f.customerKey.Some? && f.productKey.Some? && f.shippingKey.Some?
    && f.quantity.Some? && f.salesAmount.Some? && f.profit.Some?
  }

  predicate FactsNotNull(rows: seq<FactRow>) {
    forall i :: 0 <= i < |rows| ==> FactNotNull(rows[i])
  }

  /** The (natural key, surrogate key) pairs a `SELECT key, id FROM dim` returns. */
  function KeyPairs<R>(t: seq<Keyed<R>>, id: R -> Text): (pairs: seq<(Text, int)>)
    ensures |pairs| == |t|
    ensures forall i :: 0 <= i < |t| ==> pairs[i] == (id(t[i].row), t[i].key)
  {
    seq(|t|, i requires 0 <= i < |t| => (id(t[i].row), t[i].key))
  }

  /** The contents of the whole database. */
  datatype Tables = Tables(
    staging: seq<StagingRow>, dimDate: seq<DateRow>,
    dimCustomer: seq<Keyed<CustomerRow>>, dimProduct: seq<Keyed<ProductRow>>,
    dimShipping: seq<Keyed<Text>>, factSales: seq<Keyed<FactRow>>,
    customerSeq: nat, productSeq: nat, shippingSeq: nat, salesSeq: nat)

  const EmptyTables := Tables([], [], [], [], [], [], 0, 0, 0, 0)

  /** `SELECT COUNT(*)` of one table. */
  function TableSize(s: Tables, t: Table): nat {
    match t
    case Staging => |s.staging|
    case DimDate => |s.dimDate|
    case DimCustomer => |s.dimCustomer|
    case DimProduct => |s.dimProduct|
    case DimShipping => |s.dimShipping|
    case FactSales => |s.factSales|
  }

  /** The table's AUTOINCREMENT counter; the staging and date tables have none. */
  function Counter(s: Tables, t: Table): nat {
    match t
    case Staging => 0
    case DimDate => 0
    case DimCustomer => s.customerSeq
    case DimProduct => s.productSeq
    case DimShipping => s.shippingSeq
    case FactSales => s.salesSeq
  }

  /** The database after `DROP TABLE t` and its re-creation: the table is empty and its
      counter is gone; nothing else changes. */
  function Dropped(s: Tables, t: Table): (r: Tables)
    ensures TableSize(r, t) == 0 && Counter(r, t) == 0
    ensures forall u :: u != t ==> TableSize(r, u) == TableSize(s, u) && Counter(r, u) == Counter(s, u)
  {
    match t
    case Staging => s.(staging := [])
    case DimDate => s.(dimDate := [])
    case DimCustomer => s.(dimCustomer := [], customerSeq := 0)
    case DimProduct => s.(dimProduct := [], productSeq := 0)
    case DimShipping => s.(dimShipping := [], shippingSeq := 0)
    case FactSales => s.(factSales := [], salesSeq := 0)
  }

  lemma TablesListed(t: Table)
    ensures t in CountOrder && t in DropOrder
  {
  }

  /** A database whose every table and counter is empty is the empty database. */
  lemma AllDroppedIsEmpty(s: Tables)
    requires forall t :: t in DropOrder ==> TableSize(s, t) == 0 && Counter(s, t) == 0
    ensures s == EmptyTables
  {
    assert TableSize(s, Staging) == 0 && TableSize(s, DimDate) == 0;
    assert TableSize(s, DimCustomer) == 0 && Counter(s, DimCustomer) == 0;
    assert TableSize(s, DimProduct) == 0 && Counter(s, DimProduct) == 0;
    assert TableSize(s, DimShipping) == 0 && Counter(s, DimShipping) == 0;
    assert TableSize(s, FactSales) == 0 && Counter(s, FactSales) == 0;
  }

  /** The constraints and key discipline every reachable database satisfies. */
  predicate Consistent(s: Tables) {
    SequentialKeys(s.dimCustomer, s.customerSeq)
    && SequentialKeys(s.dimProduct, s.productSeq)
    && SequentialKeys(s.dimShipping, s.shippingSeq)
    && SequentialKeys(s.factSales, s.salesSeq)
    && DateKeysUnique(s.dimDate)
    && NaturalKeysOk(NaturalKeys(Unkeyed(s.dimCustomer), CustomerRowId))
    && NaturalKeysOk(NaturalKeys(Unkeyed(s.dimProduct), ProductRowId))
    && NaturalKeysOk(NaturalKeys(Unkeyed(s.dimShipping), Id))
    && FactsNotNull(Unkeyed(s.factSales))
  }

  function AppendDates(s: Tables, rows: seq<DateRow>): Tables {
    s.(dimDate := s.dimDate + rows)
  }

  function AppendCustomers(s: Tables, rows: seq<CustomerRow>): Tables {
    s.(dimCustomer := s.dimCustomer + KeyedFrom(s.customerSeq, rows), customerSeq := s.customerSeq + |rows|)
  }

  function AppendProducts(s: Tables, rows: seq<ProductRow>): Tables {
    s.(dimProduct := s.dimProduct + KeyedFrom(s.productSeq, rows), productSeq := s.productSeq + |rows|)
  }

  function AppendShipping(s: Tables, rows: seq<Text>): Tables {
    s.(dimShipping := s.dimShipping + KeyedFrom(s.shippingSeq, rows), shippingSeq := s.shippingSeq + |rows|)
  }

  function AppendFacts(s: Tables, rows: seq<FactRow>): Tables {
    s.(factSales := s.factSales + KeyedFrom(s.salesSeq, rows), salesSeq := s.salesSeq + |rows|)
  }

  /** Appending date rows that keep the primary key unique keeps the database consistent. */
  lemma AppendDatesConsistent(s: Tables, rows: seq<DateRow>)
    requires Consistent(s) && DateKeysUnique(s.dimDate + rows)
    ensures Consistent(AppendDates(s, rows))
  {
  }

  /** Appending customer rows whose ids, with the stored ones, are present and distinct
      keeps the database consistent and numbers the new rows on from the counter. */
  lemma AppendCustomersConsistent(s: Tables, rows: seq<CustomerRow>)
    requires Consistent(s) && NaturalKeysOk(NaturalKeys(Unkeyed(s.dimCustomer) + rows, CustomerRowId))
    ensures Consistent(AppendCustomers(s, rows))
  {
    assert Unkeyed(s.dimCustomer + KeyedFrom(s.customerSeq, rows)) == Unkeyed(s.dimCustomer) + rows;
  }

  lemma AppendProductsConsistent(s: Tables, rows: seq<ProductRow>)
    requires Consistent(s) && NaturalKeysOk(NaturalKeys(Unkeyed(s.dimProduct) + rows, ProductRowId))
    ensures Consistent(AppendProducts(s, rows))
  {
    assert Unkeyed(s.dimProduct + KeyedFrom(s.productSeq, rows)) == Unkeyed(s.dimProduct) + rows;
  }

  lemma AppendShippingConsistent(s: Tables, rows: seq<Text>)
    requires Consistent(s) && NaturalKeysOk(NaturalKeys(Unkeyed(s.dimShipping) + rows, Id))
    ensures Consistent(AppendShipping(s, rows))
  {
    assert Unkeyed(s.dimShipping + KeyedFrom(s.shippingSeq, rows)) == Unkeyed(s.dimShipping) + rows;
  }

  /** Appending fact rows whose NOT NULL columns are present keeps the database
      consistent. */
  lemma AppendFactsConsistent(s: Tables, rows: seq<FactRow>)
    requires Consistent(s) && FactsNotNull(rows)
    ensures Consistent(AppendFacts(s, rows))
  {
    assert Unkeyed(s.factSales + KeyedFrom(s.salesSeq, rows)) == Unkeyed(s.factSales) + rows;
  }

  /** Table `t` of `s2` is table `t` of `s`, counter included. */
  predicate SameTable(s: Tables, s2: Tables, t: Table) {
    match t
    case Staging => s2.staging == s.staging
    case DimDate => s2.dimDate == s.dimDate
    case DimCustomer => s2.dimCustomer == s.dimCustomer && s2.customerSeq == s.customerSeq
    case DimProduct => s2.dimProduct == s.dimProduct && s2.productSeq == s.productSeq
    case DimShipping => s2.dimShipping == s.dimShipping && s2.shippingSeq == s.shippingSeq
    case FactSales => s2.factSales == s.factSales && s2.salesSeq == s.salesSeq
  }

  /** The rows of table `t` in `s` are still the first rows of table `t` in `s2`. */
  predicate KeepsRows(s: Tables, s2: Tables, t: Table) {
    match t
    case Staging => s.staging <= s2.staging
    case DimDate => s.dimDate <= s2.dimDate
    case DimCustomer => s.dimCustomer <= s2.dimCustomer
    case DimProduct => s.dimProduct <= s2.dimProduct
    case DimShipping => s.dimShipping <= s2.dimShipping
    case FactSales => s.factSales <= s2.factSales
  }

  /** `s2` is `s` with `n` rows appended to table `t` and every other table untouched. */
  predicate AppendedTo(s: Tables, s2: Tables, t: Table, n: nat) {
    KeepsRows(s, s2, t) && TableSize(s2, t) == TableSize(s, t) + n
    && forall u :: u != t ==> SameTable(s, s2, u)
  }

  /** What a loader returns, and the database it leaves behind. */
  datatype Step = Step(result: Result<nat, LoadError>, after: Tables)

  /** `load_staging` on database `s`: formatting the ship dates fails when that column
      holds text; otherwise the whole batch is appended. */
  function StagingStep(s: Tables, batch: seq<Sale>): (r: Step)
    requires NoMissingShipDates(batch)
    ensures r.result.Ok? <==> ShipDatesAreDates(batch)
  {
    if !ShipDatesAreDates(batch) then Step(Err(ShipDateNotDatetime), s)
    else Step(Ok(|batch|), s.(staging := s.staging + StagingRows(batch)))
  }

  /** `load_dim_date` on database `s`: converting the ship dates fails when that column
      holds text; a date key already stored aborts the append. */
  function DimDateStep(s: Tables, batch: seq<Sale>): (r: Step)
    requires NoMissingShipDates(batch)
    ensures r.result.Ok? <==> ShipDatesAreDates(batch) && DateKeysUnique(s.dimDate + DateDim(batch))
  {
    if !ShipDatesAreDates(batch) then Step(Err(ShipDateNotDatetime), s)
    else if !DateKeysUnique(s.dimDate + DateDim(batch)) then Step(Err(IntegrityError(DimDate)), s)
    else Step(Ok(|DateDim(batch)|), AppendDates(s, DateDim(batch)))
  }

  /** `load_dim_customer` on database `s`: a missing or repeated customer id aborts
      the append. */
  function DimCustomerStep(s: Tables, batch: seq<Sale>): (r: Step)
    ensures r.result.Ok? <==> NaturalKeysOk(NaturalKeys(Unkeyed(s.dimCustomer) + CustomerDim(batch), CustomerRowId))
  {
    var rows := CustomerDim(batch);
    if NaturalKeysOk(NaturalKeys(Unkeyed(s.dimCustomer) + rows, CustomerRowId))
    then Step(Ok(|rows|), AppendCustomers(s, rows))
    else Step(Err(IntegrityError(DimCustomer)), s)
  }

  /** `load_dim_product` on database `s`: a missing or repeated product id aborts the
      append. */
  function DimProductStep(s: Tables, batch: seq<Sale>): (r: Step)
    ensures r.result.Ok? <==> NaturalKeysOk(NaturalKeys(Unkeyed(s.dimProduct) + ProductDim(batch), ProductRowId))
  {
    var rows := ProductDim(batch);
    if NaturalKeysOk(NaturalKeys(Unkeyed(s.dimProduct) + rows, ProductRowId))
    then Step(Ok(|rows|), AppendProducts(s, rows))
    else Step(Err(IntegrityError(DimProduct)), s)
  }

  /** `load_dim_shipping` on database `s`: a missing or repeated ship mode aborts the
      append. */
  function DimShippingStep(s: Tables, batch: seq<Sale>): (r: Step)
    ensures r.result.Ok? <==> NaturalKeysOk(NaturalKeys(Unkeyed(s.dimShipping) + ShippingDim(batch), Id))
  {
    var rows := ShippingDim(batch);
    if NaturalKeysOk(NaturalKeys(Unkeyed(s.dimShipping) + rows, Id))
    then Step(Ok(|rows|), AppendShipping(s, rows))
    else Step(Err(IntegrityError(DimShipping)), s)
  }

  /** `load_fact_sales` on database `s`: formatting the ship dates fails when that
      column holds text; a fact row missing a NOT NULL column aborts the append. */
  function FactSalesStep(s: Tables, batch: seq<Sale>): (r: Step)
    requires NoMissingShipDates(batch)
    ensures r.result.Ok? <==>
      ShipDatesAreDates(batch) && FactsNotNull(FactsAgainst(batch, s.dimCustomer, s.dimProduct, s.dimShipping))
  {
    if !ShipDatesAreDates(batch) then Step(Err(ShipDateNotDatetime), s)
    else
      var rows := FactsAgainst(batch, s.dimCustomer, s.dimProduct, s.dimShipping);
      if FactsNotNull(rows) then Step(Ok(|rows|), AppendFacts(s, rows))
      else Step(Err(IntegrityError(FactSales)), s)
  }

  /** Each loader either fails and leaves the database as it was, or appends the
      number of rows it reports to its own table, keeping the rows already there and
      touching no other table. */
  lemma DateStepsAppendOnly(s: Tables, batch: seq<Sale>)
    requires NoMissingShipDates(batch)
    ensures var r := StagingStep(s, batch);
      r.result.Err? ==> r.after == s && r.result.error == ShipDateNotDatetime
    ensures var r := StagingStep(s, batch);
      r.result.Ok? ==> r.result.value == |batch| && AppendedTo(s, r.after, Staging, |batch|)
    ensures var r := DimDateStep(s, batch); r.result.Err? ==> r.after == s
    ensures var r := DimDateStep(s, batch); r.result.Ok? ==> AppendedTo(s, r.after, DimDate, r.result.value)
    ensures var r := FactSalesStep(s, batch); r.result.Err? ==> r.after == s
    ensures var r := FactSalesStep(s, batch); r.result.Ok? ==> AppendedTo(s, r.after, FactSales, r.result.value)
  {
    if ShipDatesAreDates(batch) {
      assert |StagingRows(batch)| == |batch|;
      assert s.staging <= s.staging + StagingRows(batch);
      var dates := DateDim(batch);
      assert s.dimDate <= s.dimDate + dates;
      var facts := FactsAgainst(batch, s.dimCustomer, s.dimProduct, s.dimShipping);
      assert s.factSales <= s.factSales + KeyedFrom(s.salesSeq, facts);
    }
  }

  lemma DimensionStepsAppendOnly(s: Tables, batch: seq<Sale>)
    ensures var r := DimCustomerStep(s, batch);
      r.result.Err? ==> r.after == s && r.result.error == IntegrityError(DimCustomer)
    ensures var r := DimCustomerStep(s, batch); r.result.Ok? ==> AppendedTo(s, r.after, DimCustomer, r.result.value)
    ensures var r := DimProductStep(s, batch);
      r.result.Err? ==> r.after == s && r.result.error == IntegrityError(DimProduct)
    ensures var r := DimProductStep(s, batch); r.result.Ok? ==> AppendedTo(s, r.after, DimProduct, r.result.value)
    ensures var r := DimShippingStep(s, batch);
      r.result.Err? ==> r.after == s && r.result.error == IntegrityError(DimShipping)
    ensures var r := DimShippingStep(s, batch); r.result.Ok? ==> AppendedTo(s, r.after, DimShipping, r.result.value)
  {
    var customers := CustomerDim(batch);
    assert s.dimCustomer <= s.dimCustomer + KeyedFrom(s.customerSeq, customers);
    var products := ProductDim(batch);
    assert s.dimProduct <= s.dimProduct + KeyedFrom(s.productSeq, products);
    var modes := ShippingDim(batch);
    assert s.dimShipping <= s.dimShipping + KeyedFrom(s.shippingSeq, modes);
  }

  /** The staging and date loaders keep a consistent database consistent. */
  lemma DateStepsKeepConsistent(s: Tables, batch: seq<Sale>)
    requires Consistent(s) && NoMissingShipDates(batch)
    ensures Consistent(StagingStep(s, batch).after)
    ensures Consistent(DimDateStep(s, batch).after)
  {
    if DimDateStep(s, batch).result.Ok? {
      AppendDatesConsistent(s, DateDim(batch));
    }
  }

  /** The three other dimension loaders keep a consistent database consistent: a
      violation aborts the append, so no violating row is ever stored. */
  lemma DimensionStepsKeepConsistent(s: Tables, batch: seq<Sale>)
    requires Consistent(s)
    ensures Consistent(DimCustomerStep(s, batch).after)
    ensures Consistent(DimProductStep(s, batch).after)
    ensures Consistent(DimShippingStep(s, batch).after)
  {
    if DimCustomerStep(s, batch).result.Ok? {
      AppendCustomersConsistent(s, CustomerDim(batch));
    }
    if DimProductStep(s, batch).result.Ok? {
      AppendProductsConsistent(s, ProductDim(batch));
    }
    if DimShippingStep(s, batch).result.Ok? {
      AppendShippingConsistent(s, ShippingDim(batch));
    }
  }

  /** The fact loader keeps a consistent database consistent. */
  lemma FactStepKeepsConsistent(s: Tables, batch: seq<Sale>)
    requires Consistent(s) && NoMissingShipDates(batch)
    ensures Consistent(FactSalesStep(s, batch).after)
  {
    if FactSalesStep(s, batch).result.Ok? {
      AppendFactsConsistent(s, FactsAgainst(batch, s.dimCustomer, s.dimProduct, s.dimShipping));
    }
  }

  /** Every fact row's keys point at existing dimension rows: its customer, product
      and shipping keys are surrogate keys in use, and its date keys occur in the date
      dimension. */
  predicate ForeignKeysResolve(s: Tables) {
    forall i :: 0 <= i < |s.factSales| ==>
      var f := s.factSales[i].row;
      f.customerKey.Some? && 1 <= f.customerKey.value <= |s.dimCustomer|
      && f.productKey.Some? && 1 <= f.productKey.value <= |s.dimProduct|
      && f.shippingKey.Some? && 1 <= f.shippingKey.value <= |s.dimShipping|
      && (exists j :: 0 <= j < |s.dimDate| && s.dimDate[j].dateKey == f.orderDateKey)
      && (exists j :: 0 <= j < |s.dimDate| && s.dimDate[j].dateKey == f.shipDateKey)
  }

  /** No ship date of the batch is missing (null filling guarantees it). */
  predicate NoMissingShipDates(batch: seq<Sale>) {
    forall i :: 0 <= i < |batch| ==> batch[i].shipDate != NaT
  }

  // ---------------------------------------------------------------------------
  // What a full load of a batch leaves behind
  // ---------------------------------------------------------------------------

  /** The fact rows `load_fact_sales` builds against the given dimensions. */
  function FactsAgainst(batch: seq<Sale>, cust: seq<Keyed<CustomerRow>>, prod: seq<Keyed<ProductRow>>,
                        ship: seq<Keyed<Text>>): seq<FactRow>
    requires ShipDatesAreDates(batch)
  {
    FactRows(batch, KeyPairs(cust, CustomerRowId), KeyPairs(prod, ProductRowId), KeyPairs(ship, Id))
  }

  /** The fact rows of a full load: built against freshly keyed dimensions. */
  function LoadedFacts(batch: seq<Sale>): seq<FactRow>
    requires ShipDatesAreDates(batch)
  {
    FactsAgainst(batch, KeyedFrom(0, CustomerDim(batch)), KeyedFrom(0, ProductDim(batch)),
                 KeyedFrom(0, ShippingDim(batch)))
  }

  lemma DateDimRows(batch: seq<Sale>, dates: seq<Day>, rows: seq<DateRow>)
    requires dates == SortedUnique(BatchDates(batch))
    requires |rows| == |dates| && forall i :: 0 <= i < |dates| ==> rows[i] == DateRowOf(dates[i])
    ensures rows == DateDim(batch)
  {
  }

  /** The loop of `load_dim_date` that builds one date row per date, in order. */
  method DateRows(dates: seq<Day>) returns (rows: seq<DateRow>)
    ensures |rows| == |dates|
    ensures forall i :: 0 <= i < |dates| ==> rows[i] == DateRowOf(dates[i])
  {
    rows := [];
    for k := 0 to |dates|
      invariant |rows| == k
      invariant forall i :: 0 <= i < k ==> rows[i] == DateRowOf(dates[i])
    {
      rows := rows + [DateRowOf(dates[k])];
    }
  }

  /** The database after reset and every loader, on a batch whose ship dates are
      dates: each table holds the rows built from the batch, numbered from 1. */
  function LoadedTables(batch: seq<Sale>): Tables
    requires ShipDatesAreDates(batch)
  {
    Tables(StagingRows(batch), DateDim(batch), KeyedFrom(0, CustomerDim(batch)),
           KeyedFrom(0, ProductDim(batch)), KeyedFrom(0, ShippingDim(batch)),
           KeyedFrom(0, LoadedFacts(batch)),
           |CustomerDim(batch)|, |ProductDim(batch)|, |ShippingDim(batch)|, |LoadedFacts(batch)|)
  }

  /** Rows with present, distinct natural keys, numbered 1, 2, ...: their key pairs
      are unique, and a key that occurs looks up the number of its row. */
  lemma {:induction false} KeyedLookup<R>(rows: seq<R>, id: R -> Text, k: Text)
    requires NaturalKeysOk(NaturalKeys(rows, id))
    requires exists j :: 0 <= j < |rows| && id(rows[j]) == k
    ensures UniqueKeys(KeyPairs(KeyedFrom(0, rows), id))
    ensures Lookup(KeyPairs(KeyedFrom(0, rows), id), k).Some?
    ensures 1 <= Lookup(KeyPairs(KeyedFrom(0, rows), id), k).value <= |rows|
    ensures id(rows[Lookup(KeyPairs(KeyedFrom(0, rows), id), k).value - 1]) == k
  {
    var pairs := KeyPairs(KeyedFrom(0, rows), id);
    KeyPairsUnique(rows, id);
    var j :| 0 <= j < |rows| && id(rows[j]) == k;
    assert pairs[j].0 == k;
    MatchesAtMostOne(pairs, k);
    var v := Lookup(pairs, k).value;
    LookupSpec(pairs, k, v);
    var w :| 0 <= w < |pairs| && pairs[w] == (k, v);
    assert v == w + 1;
  }

  /** Distinct natural keys make the key pairs of freshly keyed rows unique. */
  lemma KeyPairsUnique<R>(rows: seq<R>, id: R -> Text)
    requires NaturalKeysOk(NaturalKeys(rows, id))
    ensures UniqueKeys(KeyPairs(KeyedFrom(0, rows), id))
  {
    var pairs := KeyPairs(KeyedFrom(0, rows), id);
    forall a, b | 0 <= a < b < |pairs| ensures pairs[a].0 != pairs[b].0 {
      assert pairs[a].0 == NaturalKeys(rows, id)[a];
      assert pairs[b].0 == NaturalKeys(rows, id)[b];
    }
  }

  /** Appending to an empty table, only the appended rows' natural keys matter. */
  lemma EmptyTableKeys<R>(t: seq<Keyed<R>>, rows: seq<R>, id: R -> Text)
    requires t == [] && NaturalKeysOk(NaturalKeys(rows, id))
    ensures NaturalKeysOk(NaturalKeys(Unkeyed(t) + rows, id))
  {
    assert Unkeyed(t) + rows == rows;
  }

  /** The customer dimension of a filled batch has present, distinct ids. */
  lemma CustomerKeysOk(batch: seq<Sale>)
    requires forall k :: 0 <= k < |batch| ==> Filled(batch[k])
    ensures NaturalKeysOk(NaturalKeys(CustomerDim(batch), CustomerRowId))
  {
    CustomerDimKeys(batch);
    CustomerDimFirst(batch);
    var cs := CustomerDim(batch);
    forall i | 0 <= i < |cs| ensures cs[i].customerId.Some? {
      var k :| 0 <= k < |batch| && CustomerIdOf(batch[k]) == cs[i].customerId;
      FilledFields(batch[k]);
    }
  }

  /** The product dimension of a filled batch has present, distinct ids. */
  lemma ProductKeysOk(batch: seq<Sale>)
    requires forall k :: 0 <= k < |batch| ==> Filled(batch[k])
    ensures NaturalKeysOk(NaturalKeys(ProductDim(batch), ProductRowId))
  {
    ProductDimKeys(batch);
    ProductDimFirst(batch);
    var ps := ProductDim(batch);
    forall i | 0 <= i < |ps| ensures ps[i].productId.Some? {
      var k :| 0 <= k < |batch| && ProductIdOf(batch[k]) == ps[i].productId;
      FilledFields(batch[k]);
    }
  }

  /** The shipping dimension of a filled batch has present, distinct modes. */
  lemma ShippingKeysOk(batch: seq<Sale>)
    requires forall k :: 0 <= k < |batch| ==> Filled(batch[k])
    ensures NaturalKeysOk(NaturalKeys(ShippingDim(batch), Id))
  {
    ShippingDimSpec(batch);
    var ms := ShippingDim(batch);
    forall i | 0 <= i < |ms| ensures ms[i].Some? {
      var k :| 0 <= k < |batch| && ShipModeOf(batch[k]) == ms[i];
      FilledFields(batch[k]);
    }
  }

  /** Batch row `i`'s customer id looks up the number of the customer row carrying it. */
  lemma CustomerKeyOf(batch: seq<Sale>, i: int)
    requires forall k :: 0 <= k < |batch| ==> Filled(batch[k])
    requires 0 <= i < |batch|
    ensures UniqueKeys(KeyPairs(KeyedFrom(0, CustomerDim(batch)), CustomerRowId))
    ensures var v := Lookup(KeyPairs(KeyedFrom(0, CustomerDim(batch)), CustomerRowId), batch[i].customer.id);
      v.Some? && 1 <= v.value <= |CustomerDim(batch)|
      && CustomerRowId(CustomerDim(batch)[v.value - 1]) == batch[i].customer.id
  {
    CustomerKeysOk(batch);
    CustomerDimKeys(batch);
    var j :| 0 <= j < |CustomerDim(batch)| && CustomerDim(batch)[j].customerId == batch[i].customer.id;
    assert CustomerRowId(CustomerDim(batch)[j]) == batch[i].customer.id;
    KeyedLookup(CustomerDim(batch), CustomerRowId, batch[i].customer.id);
  }

  /** Batch row `i`'s product id looks up the number of the product row carrying it. */
  lemma ProductKeyOf(batch: seq<Sale>, i: int)
    requires forall k :: 0 <= k < |batch| ==> Filled(batch[k])
    requires 0 <= i < |batch|
    ensures UniqueKeys(KeyPairs(KeyedFrom(0, ProductDim(batch)), ProductRowId))
    ensures var v := Lookup(KeyPairs(KeyedFrom(0, ProductDim(batch)), ProductRowId), batch[i].product.id);
      v.Some? && 1 <= v.value <= |ProductDim(batch)|
      && ProductRowId(ProductDim(batch)[v.value - 1]) == batch[i].product.id
  {
    ProductKeysOk(batch);
    ProductDimKeys(batch);
    var j :| 0 <= j < |ProductDim(batch)| && ProductDim(batch)[j].productId == batch[i].product.id;
    assert ProductRowId(ProductDim(batch)[j]) == batch[i].product.id;
    KeyedLookup(ProductDim(batch), ProductRowId, batch[i].product.id);
  }

  /** Batch row `i`'s ship mode looks up the number of the shipping row carrying it. */
  lemma ShippingKeyOf(batch: seq<Sale>, i: int)
    requires forall k :: 0 <= k < |batch| ==> Filled(batch[k])
    requires 0 <= i < |batch|
    ensures UniqueKeys(KeyPairs(KeyedFrom(0, ShippingDim(batch)), Id))
    ensures var v := Lookup(KeyPairs(KeyedFrom(0, ShippingDim(batch)), Id), batch[i].shipMode);
      v.Some? && 1 <= v.value <= |ShippingDim(batch)|
      && ShippingDim(batch)[v.value - 1] == batch[i].shipMode
  {
    ShippingKeysOk(batch);
    ShippingDimSpec(batch);
    var j :| 0 <= j < |ShippingDim(batch)| && ShippingDim(batch)[j] == batch[i].shipMode;
    assert Id(ShippingDim(batch)[j]) == batch[i].shipMode;
    KeyedLookup(ShippingDim(batch), Id, batch[i].shipMode);
  }

  /** Fact row `i` of a full load is batch row `i` with the keys its natural keys
      look up in the freshly numbered dimensions. */
  lemma LoadedFactIs(batch: seq<Sale>, i: int)
    requires forall k :: 0 <= k < |batch| ==> Filled(batch[k])
    requires ShipDatesAreDates(batch) && 0 <= i < |batch|
    ensures |LoadedFacts(batch)| == |batch|
    ensures LoadedFacts(batch)[i] == FactRow(
      batch[i].orderId, DateKey(batch[i].orderDate), DateKey(batch[i].shipDate.date),
      Lookup(KeyPairs(KeyedFrom(0, CustomerDim(batch)), CustomerRowId), batch[i].customer.id),
      Lookup(KeyPairs(KeyedFrom(0, ProductDim(batch)), ProductRowId), batch[i].product.id),
      Lookup(KeyPairs(KeyedFrom(0, ShippingDim(batch)), Id), batch[i].shipMode),
      batch[i].quantity, batch[i].sales, batch[i].discount, batch[i].profit)
  {
    var cust := KeyPairs(KeyedFrom(0, CustomerDim(batch)), CustomerRowId);
    var prod := KeyPairs(KeyedFrom(0, ProductDim(batch)), ProductRowId);
    var ship := KeyPairs(KeyedFrom(0, ShippingDim(batch)), Id);
    CustomerKeyOf(batch, i);
    ProductKeyOf(batch, i);
    ShippingKeyOf(batch, i);
    FactRowsSpec(batch, cust, prod, ship);
  }

  /** Fact row `i` of a full load of a filled batch refers, through each surrogate
      key, to the dimension row carrying batch row `i`'s own natural key; its date
      keys encode the row's order and ship dates; its measures are the row's own. */
  lemma LoadedFactRow(batch: seq<Sale>, i: int)
    requires forall k :: 0 <= k < |batch| ==> Filled(batch[k])
    requires ShipDatesAreDates(batch) && 0 <= i < |batch|
    ensures |LoadedFacts(batch)| == |batch|
    ensures var f := LoadedFacts(batch)[i];
      f.customerKey.Some? && 1 <= f.customerKey.value <= |CustomerDim(batch)|
      && CustomerRowId(CustomerDim(batch)[f.customerKey.value - 1]) == batch[i].customer.id
      && f.productKey.Some? && 1 <= f.productKey.value <= |ProductDim(batch)|
      && ProductRowId(ProductDim(batch)[f.productKey.value - 1]) == batch[i].product.id
      && f.shippingKey.Some? && 1 <= f.shippingKey.value <= |ShippingDim(batch)|
      && ShippingDim(batch)[f.shippingKey.value - 1] == batch[i].shipMode
      && f.orderDateKey == DateKey(batch[i].orderDate)
      && f.shipDateKey == DateKey(batch[i].shipDate.date)
      && f.orderId == batch[i].orderId && f.quantity == batch[i].quantity
      && f.salesAmount == batch[i].sales && f.profit == batch[i].profit
  {
    LoadedFactIs(batch, i);
    CustomerKeyOf(batch, i);
    ProductKeyOf(batch, i);
    ShippingKeyOf(batch, i);
  }

  /** Every fact row of a full load of a filled batch has its NOT NULL columns. */
  lemma LoadedFactsNotNull(batch: seq<Sale>)
    requires forall k :: 0 <= k < |batch| ==> Filled(batch[k])
    requires ShipDatesAreDates(batch)
    ensures FactsNotNull(LoadedFacts(batch))
  {
    FactRowsLength(batch);
    forall i | 0 <= i < |batch| ensures FactNotNull(LoadedFacts(batch)[i]) {
      LoadedFactRow(batch, i);
      FilledFields(batch[i]);
    }
  }

  /** A full load of a filled batch violates no constraint of the schema. */
  lemma LoadedTablesConsistent(batch: seq<Sale>)
    requires forall k :: 0 <= k < |batch| ==> Filled(batch[k])
    requires ShipDatesAreDates(batch)
    ensures Consistent(LoadedTables(batch))
  {
    var s := LoadedTables(batch);
    DimensionKeysOk(batch);
    LoadedFactsNotNull(batch);
    assert Unkeyed(s.dimCustomer) == CustomerDim(batch);
    assert Unkeyed(s.dimProduct) == ProductDim(batch);
    assert Unkeyed(s.dimShipping) == ShippingDim(batch);
    assert Unkeyed(s.factSales) == LoadedFacts(batch);
  }

  /** A full load of a filled batch keeps one fact row and one staging row per batch
      row, and every foreign key of the fact table resolves. */
  lemma LoadedTablesResolve(batch: seq<Sale>)
    requires forall k :: 0 <= k < |batch| ==> Filled(batch[k])
    requires ShipDatesAreDates(batch)
    ensures |LoadedTables(batch).factSales| == |batch|
    ensures |LoadedTables(batch).staging| == |batch|
    ensures ForeignKeysResolve(LoadedTables(batch))
  {
    var s := LoadedTables(batch);
    FactRowsLength(batch);
    DateDimSpec(batch);
    forall i | 0 <= i < |s.factSales|
      ensures s.factSales[i].row.customerKey.Some? && 1 <= s.factSales[i].row.customerKey.value <= |s.dimCustomer|
      ensures s.factSales[i].row.productKey.Some? && 1 <= s.factSales[i].row.productKey.value <= |s.dimProduct|
      ensures s.factSales[i].row.shippingKey.Some? && 1 <= s.factSales[i].row.shippingKey.value <= |s.dimShipping|
      ensures exists j :: 0 <= j < |s.dimDate| && s.dimDate[j].dateKey == s.factSales[i].row.orderDateKey
      ensures exists j :: 0 <= j < |s.dimDate| && s.dimDate[j].dateKey == s.factSales[i].row.shipDateKey
    {
      LoadedFactRow(batch, i);
    }
  }

  /** A full load keeps exactly one fact row per batch row. */
  lemma FactRowsLength(batch: seq<Sale>)
    requires forall k :: 0 <= k < |batch| ==> Filled(batch[k])
    requires ShipDatesAreDates(batch)
    ensures |LoadedFacts(batch)| == |batch|
  {
    CustomerKeysOk(batch);
    ProductKeysOk(batch);
    ShippingKeysOk(batch);
    KeyPairsUnique(CustomerDim(batch), CustomerRowId);
    KeyPairsUnique(ProductDim(batch), ProductRowId);
    KeyPairsUnique(ShippingDim(batch), Id);
    FactRowsSpec(batch, KeyPairs(KeyedFrom(0, CustomerDim(batch)), CustomerRowId),
                 KeyPairs(KeyedFrom(0, ProductDim(batch)), ProductRowId),
                 KeyPairs(KeyedFrom(0, ShippingDim(batch)), Id));
  }

  /** The dimensions built from a filled batch meet their key constraints. */
  lemma DimensionKeysOk(batch: seq<Sale>)
    requires forall k :: 0 <= k < |batch| ==> Filled(batch[k])
    ensures DateKeysUnique(DateDim(batch))
    ensures NaturalKeysOk(NaturalKeys(CustomerDim(batch), CustomerRowId))
    ensures NaturalKeysOk(NaturalKeys(ProductDim(batch), ProductRowId))
    ensures NaturalKeysOk(NaturalKeys(ShippingDim(batch), Id))
  {
    DateDimSpec(batch);
    CustomerKeysOk(batch);
    ProductKeysOk(batch);
    ShippingKeysOk(batch);
  }

  /** Into an empty staging table, staging a batch whose ship dates are dates
      succeeds and the table then holds exactly the batch. */
  lemma FreshStagingStep(s: Tables, batch: seq<Sale>)
    requires ShipDatesAreDates(batch) && NoMissingShipDates(batch)
    requires s.staging == []
    ensures StagingStep(s, batch) == Step(Ok(|batch|), s.(staging := StagingRows(batch)))
  {
    assert s.staging + StagingRows(batch) == StagingRows(batch);
  }

  /** Into an empty date dimension, the date loader succeeds on a filled batch and the
      table then holds exactly the batch's date rows. */
  lemma FreshDateStep(s: Tables, batch: seq<Sale>)
    requires forall k :: 0 <= k < |batch| ==> Filled(batch[k])
    requires ShipDatesAreDates(batch) && NoMissingShipDates(batch)
    requires s.dimDate == []
    ensures DimDateStep(s, batch) == Step(Ok(|DateDim(batch)|), s.(dimDate := DateDim(batch)))
  {
    DateDimSpec(batch);
    assert s.dimDate + DateDim(batch) == DateDim(batch);
  }

  /** Into an empty customer dimension with a fresh counter, the customer loader
      succeeds on a filled batch and numbers its rows from 1. */
  lemma FreshCustomerStep(s: Tables, batch: seq<Sale>)
    requires forall k :: 0 <= k < |batch| ==> Filled(batch[k])
    requires s.dimCustomer == [] && s.customerSeq == 0
    ensures DimCustomerStep(s, batch) == Step(Ok(|CustomerDim(batch)|),
      s.(dimCustomer := KeyedFrom(0, CustomerDim(batch)), customerSeq := |CustomerDim(batch)|))
  {
    CustomerKeysOk(batch);
    EmptyTableKeys(s.dimCustomer, CustomerDim(batch), CustomerRowId);
    assert s.dimCustomer + KeyedFrom(0, CustomerDim(batch)) == KeyedFrom(0, CustomerDim(batch));
  }

  /** Into an empty product dimension with a fresh counter, the product loader
      succeeds on a filled batch and numbers its rows from 1. */
  lemma FreshProductStep(s: Tables, batch: seq<Sale>)
    requires forall k :: 0 <= k < |batch| ==> Filled(batch[k])
    requires s.dimProduct == [] && s.productSeq == 0
    ensures DimProductStep(s, batch) == Step(Ok(|ProductDim(batch)|),
      s.(dimProduct := KeyedFrom(0, ProductDim(batch)), productSeq := |ProductDim(batch)|))
  {
    ProductKeysOk(batch);
    EmptyTableKeys(s.dimProduct, ProductDim(batch), ProductRowId);
    assert s.dimProduct + KeyedFrom(0, ProductDim(batch)) == KeyedFrom(0, ProductDim(batch));
  }

  /** Into an empty shipping dimension with a fresh counter, the shipping loader
      succeeds on a filled batch and numbers its rows from 1. */
  lemma FreshShippingStep(s: Tables, batch: seq<Sale>)
    requires forall k :: 0 <= k < |batch| ==> Filled(batch[k])
    requires s.dimShipping == [] && s.shippingSeq == 0
    ensures DimShippingStep(s, batch) == Step(Ok(|ShippingDim(batch)|),
      s.(dimShipping := KeyedFrom(0, ShippingDim(batch)), shippingSeq := |ShippingDim(batch)|))
  {
    ShippingKeysOk(batch);
    EmptyTableKeys(s.dimShipping, ShippingDim(batch), Id);
    assert s.dimShipping + KeyedFrom(0, ShippingDim(batch)) == KeyedFrom(0, ShippingDim(batch));
  }

  /** Against dimensions freshly loaded from a filled batch, the fact loader succeeds
      into an empty fact table with one row per batch row, numbered from 1. */
  lemma FreshFactStep(s: Tables, batch: seq<Sale>)
    requires forall k :: 0 <= k < |batch| ==> Filled(batch[k])
    requires ShipDatesAreDates(batch) && NoMissingShipDates(batch)
    requires s.dimCustomer == KeyedFrom(0, CustomerDim(batch))
    requires s.dimProduct == KeyedFrom(0, ProductDim(batch))
    requires s.dimShipping == KeyedFrom(0, ShippingDim(batch))
    requires s.factSales == [] && s.salesSeq == 0
    ensures FactSalesStep(s, batch) == Step(Ok(|batch|),
      s.(factSales := KeyedFrom(0, LoadedFacts(batch)), salesSeq := |batch|))
  {
    var facts := FactsAgainst(batch, s.dimCustomer, s.dimProduct, s.dimShipping);
    assert facts == LoadedFacts(batch);
    LoadedFactsNotNull(batch);
    FactRowsLength(batch);
    assert FactSalesStep(s, batch) == Step(Ok(|facts|), AppendFacts(s, facts));
    assert s.factSales + KeyedFrom(0, facts) == KeyedFrom(0, facts);
  }

  /** A database whose every table holds the rows a full load builds is the fully
      loaded database. */
  lemma IsLoadedTables(s: Tables, batch: seq<Sale>)
    requires ShipDatesAreDates(batch)
    requires s.staging == StagingRows(batch) && s.dimDate == DateDim(batch)
    requires s.dimCustomer == KeyedFrom(0, CustomerDim(batch)) && s.customerSeq == |CustomerDim(batch)|
    requires s.dimProduct == KeyedFrom(0, ProductDim(batch)) && s.productSeq == |ProductDim(batch)|
    requires s.dimShipping == KeyedFrom(0, ShippingDim(batch)) && s.shippingSeq == |ShippingDim(batch)|
    requires s.factSales == KeyedFrom(0, LoadedFacts(batch)) && s.salesSeq == |LoadedFacts(batch)|
    ensures s == LoadedTables(batch)
  {
  }

  // ---------------------------------------------------------------------------
  // The warehouse
  // ---------------------------------------------------------------------------

  class Warehouse {
    var staging: seq<StagingRow>
    var dimDate: seq<DateRow>
    var dimCustomer: seq<Keyed<CustomerRow>>
    var dimProduct: seq<Keyed<ProductRow>>
    var dimShipping: seq<Keyed<Text>>
    var factSales: seq<Keyed<FactRow>>
    var customerSeq: nat
    var productSeq: nat
    var shippingSeq: nat
    var salesSeq: nat

    function State(): Tables
      reads this
    {
      Tables(staging, dimDate, dimCustomer, dimProduct, dimShipping, factSales,
             customerSeq, productSeq, shippingSeq, salesSeq)
    }

    ghost predicate Valid()
      reads this
    {
      Consistent(State())
    }

    /** A new, empty database file. */
    constructor()
      ensures State() == EmptyTables && Valid()
    {
      staging := [];
      dimDate := [];
      dimCustomer := [];
      dimProduct := [];
      dimShipping := [];
      factSales := [];
      customerSeq := 0;
      productSeq := 0;
      shippingSeq := 0;
      salesSeq := 0;
    }

    method Drop(t: Table)
      modifies this
      ensures State() == Dropped(old(State()), t)
    {
      match t
      case Staging => staging := [];
      case DimDate => dimDate := [];
      case DimCustomer => dimCustomer := []; customerSeq := 0;
      case DimProduct => dimProduct := []; productSeq := 0;
      case DimShipping => dimShipping := []; shippingSeq := 0;
      case FactSales => factSales := []; salesSeq := 0;
    }

    /** `create_schema`: drop every table, fact table first, and create them again;
        whatever the database held before, it is empty afterwards. */
    method CreateSchema()
      modifies this
      ensures State() == EmptyTables
      ensures Valid()
    {
      for k := 0 to |DropOrder|
        invariant forall j :: 0 <= j < k ==>
          TableSize(State(), DropOrder[j]) == 0 && Counter(State(), DropOrder[j]) == 0
      {
        Drop(DropOrder[k]);
      }
      AllDroppedIsEmpty(State());
    }

    /** `load_staging`: append the batch with its dates as ISO text. Formatting the
        ship dates fails when that column holds text. */
    method LoadStaging(batch: seq<Sale>) returns (r: Result<nat, LoadError>)
      requires NoMissingShipDates(batch)
      requires Valid()
      modifies this
      ensures Valid()
      ensures Step(r, State()) == StagingStep(old(State()), batch)
    {
      DateStepsKeepConsistent(State(), batch);
      if !ShipDatesAreDates(batch) {
        return Err(ShipDateNotDatetime);
      }
      var rows := StagingRows(batch);
      staging := staging + rows;
      return Ok(|rows|);
    }

    /** `load_dim_date`: build one row per distinct present date, ascending, and
        append them; the append fails as a whole on a date key already stored. */
    method LoadDimDate(batch: seq<Sale>) returns (r: Result<nat, LoadError>)
      requires NoMissingShipDates(batch)
      requires Valid()
      modifies this
      ensures Valid()
      ensures Step(r, State()) == DimDateStep(old(State()), batch)
    {
      DateStepsKeepConsistent(State(), batch);
      if !ShipDatesAreDates(batch) {
        return Err(ShipDateNotDatetime);
      }
      var dates := SortedUnique(BatchDates(batch));
      var rows := DateRows(dates);
      DateDimRows(batch, dates, rows);
      if !DateKeysUnique(dimDate + rows) {
        return Err(IntegrityError(DimDate));
      }
      dimDate := dimDate + rows;
      return Ok(|rows|);
    }

    /** `load_dim_customer`: append the first row of each customer id with its order
        date bounds; the append fails as a whole on a missing or repeated id. */
    method LoadDimCustomer(batch: seq<Sale>) returns (r: Result<nat, LoadError>)
      requires Valid()
      modifies this
      ensures Valid()
      ensures Step(r, State()) == DimCustomerStep(old(State()), batch)
    {
      DimensionStepsKeepConsistent(State(), batch);
      var rows := CustomerDim(batch);
      if !NaturalKeysOk(NaturalKeys(Unkeyed(dimCustomer) + rows, CustomerRowId)) {
        return Err(IntegrityError(DimCustomer));
      }
      dimCustomer := dimCustomer + KeyedFrom(customerSeq, rows);
      customerSeq := customerSeq + |rows|;
      return Ok(|rows|);
    }

    /** `load_dim_product`: append the first row of each product id; the append fails
        as a whole on a missing or repeated id. */
    method LoadDimProduct(batch: seq<Sale>) returns (r: Result<nat, LoadError>)
      requires Valid()
      modifies this
      ensures Valid()
      ensures Step(r, State()) == DimProductStep(old(State()), batch)
    {
      DimensionStepsKeepConsistent(State(), batch);
      var rows := ProductDim(batch);
      if !NaturalKeysOk(NaturalKeys(Unkeyed(dimProduct) + rows, ProductRowId)) {
        return Err(IntegrityError(DimProduct));
      }
      dimProduct := dimProduct + KeyedFrom(productSeq, rows);
      productSeq := productSeq + |rows|;
      return Ok(|rows|);
    }

    /** `load_dim_shipping`: append each distinct ship mode; the append fails as a
        whole on a missing or repeated mode. */
    method LoadDimShipping(batch: seq<Sale>) returns (r: Result<nat, LoadError>)
      requires Valid()
      modifies this
      ensures Valid()
      ensures Step(r, State()) == DimShippingStep(old(State()), batch)
    {
      DimensionStepsKeepConsistent(State(), batch);
      var rows := ShippingDim(batch);
      if !NaturalKeysOk(NaturalKeys(Unkeyed(dimShipping) + rows, Id)) {
        return Err(IntegrityError(DimShipping));
      }
      dimShipping := dimShipping + KeyedFrom(shippingSeq, rows);
      shippingSeq := shippingSeq + |rows|;
      return Ok(|rows|);
    }

    /** `load_fact_sales`: read the dimensions' keys, add the date keys, left-merge and
        append; the append fails as a whole when a NOT NULL column is missing. */
    method LoadFactSales(batch: seq<Sale>) returns (r: Result<nat, LoadError>)
      requires NoMissingShipDates(batch)
      requires Valid()
      modifies this
      ensures Valid()
      ensures Step(r, State()) == FactSalesStep(old(State()), batch)
    {
      FactStepKeepsConsistent(State(), batch);
      if !ShipDatesAreDates(batch) {
        return Err(ShipDateNotDatetime);
      }
      var rows := FactsAgainst(batch, dimCustomer, dimProduct, dimShipping);
      if !FactsNotNull(rows) {
        return Err(IntegrityError(FactSales));
      }
      factSales := factSales + KeyedFrom(salesSeq, rows);
      salesSeq := salesSeq + |rows|;
      return Ok(|rows|);
    }

    /** `validate_load`: count every table, then fail if the fact table's count
        differs from the number of source rows. */
    method ValidateLoad(sourceRows: nat) returns (r: Result<map<Table, nat>, LoadError>)
      ensures r.Err? <==> |factSales| != sourceRows
      ensures r.Err? ==> r.error == RowCountMismatch(sourceRows, |factSales|)
      ensures r.Ok? ==> forall t: Table :: t in r.value && r.value[t] == TableSize(State(), t)
    {
      var counts: map<Table, nat> := map[];
      for k := 0 to |CountOrder|
        invariant forall t :: t in counts <==> t in CountOrder[..k]
        invariant forall t :: t in counts ==> counts[t] == TableSize(State(), t)
      {
        var t := CountOrder[k];
        assert CountOrder[..k + 1] == CountOrder[..k] + [t];
        counts := counts[t := TableSize(State(), t)];
      }
      assert CountOrder[..|CountOrder|] == CountOrder;
      if counts[FactSales] != sourceRows {
        return Err(RowCountMismatch(sourceRows, counts[FactSales]));
      }
      forall t: Table ensures t in counts {
        TablesListed(t);
      }
      return Ok(counts);
    }

    /** `load_data`: reset, stage, load the four dimensions and the fact table, then
        reconcile the row counts against the batch size. On a filled batch no
        constraint is ever violated and the reconciliation always passes; the only
        failure is a ship-date column turned into text, which leaves the database
        empty. */
    method LoadData(batch: seq<Sale>) returns (r: Result<map<Table, nat>, LoadError>)
      requires forall i :: 0 <= i < |batch| ==> Filled(batch[i])
      modifies this
      ensures Valid()
      ensures r.Ok? <==> ShipDatesAreDates(batch)
      ensures r.Err? ==> r.error == ShipDateNotDatetime && State() == EmptyTables
      ensures r.Ok? ==> State() == LoadedTables(batch)
      ensures r.Ok? ==> |factSales| == |batch| && |staging| == |batch| && ForeignKeysResolve(State())
      ensures r.Ok? ==> forall t: Table :: t in r.value && r.value[t] == TableSize(State(), t)
    {
      assert NoMissingShipDates(batch) by {
        forall i | 0 <= i < |batch| ensures batch[i].shipDate != NaT {
          FilledFields(batch[i]);
        }
      }
      CreateSchema();
      var staged := LoadStaging(batch);
      if staged.Err? {
        return Err(staged.error);
      }
      // From here on every loader succeeds, as the Fresh...Step lemmas show, so
      // their results need no check.
      ghost var s0 := State();
      assert s0 == EmptyTables.(staging := StagingRows(batch));
      FreshDateStep(s0, batch);
      var dated := LoadDimDate(batch);
      ghost var s1 := s0.(dimDate := DateDim(batch));
      assert State() == s1;
      FreshCustomerStep(s1, batch);
      var customers := LoadDimCustomer(batch);
      ghost var s2 := s1.(dimCustomer := KeyedFrom(0, CustomerDim(batch)), customerSeq := |CustomerDim(batch)|);
      assert State() == s2;
      FreshProductStep(s2, batch);
      var products := LoadDimProduct(batch);
      ghost var s3 := s2.(dimProduct := KeyedFrom(0, ProductDim(batch)), productSeq := |ProductDim(batch)|);
      assert State() == s3;
      FreshShippingStep(s3, batch);
      var shipping := LoadDimShipping(batch);
      ghost var s4 := s3.(dimShipping := KeyedFrom(0, ShippingDim(batch)), shippingSeq := |ShippingDim(batch)|);
      assert State() == s4;
      FreshFactStep(s4, batch);
      var facts := LoadFactSales(batch);
      FactRowsLength(batch);
      assert State() == s4.(factSales := KeyedFrom(0, LoadedFacts(batch)), salesSeq := |LoadedFacts(batch)|);
      IsLoadedTables(State(), batch);
      LoadedTablesConsistent(batch);
      LoadedTablesResolve(batch);
      r := ValidateLoad(|batch|);
    }
  }
}
