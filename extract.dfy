/** The extract stage: the ordered checks on the source file (it exists, it holds a
    table, the table has rows, no required header is missing) and the count fields
    of the extraction summary. The file is an abstract value; reading it is not
    modelled. */
module Extract {
  import opened Wrappers
  import opened Collections
  import opened Records

  /** The source file as the reader would see it: absent, or a header line and the
      data rows below it. A zero-byte file has no header at all. */
  datatype SourceFile = NoFile | CsvFile(columns: seq<string>, rows: seq<RawRow>)

  /** The extracted table, returned unchanged. */
  datatype Frame = Frame(columns: seq<string>, rows: seq<RawRow>)

  datatype ExtractError =
    | FileNotFound
    | NoColumnsToParse
    | EmptyTable
    | MissingRequiredColumns(missing: seq<string>)

  /** The required headers absent from `columns`, in the order of the required list. */
  function MissingColumns(columns: seq<string>): (missing: seq<string>)
    ensures forall i :: 0 <= i < |missing| ==> missing[i] in RequiredHeaders && missing[i] !in columns
    ensures forall h :: h in RequiredHeaders && h !in columns ==> h in missing
    ensures IsSubsequence(missing, RequiredHeaders)
  {
    Keep(RequiredHeaders, (h: string) => h !in columns)
  }

  /** No required header is missing exactly when every required header is present. */
  lemma MissingColumnsEmpty(columns: seq<string>)
    ensures MissingColumns(columns) == [] <==> forall h :: h in RequiredHeaders ==> h in columns
  {
    if MissingColumns(columns) != [] {
      assert MissingColumns(columns)[0] in MissingColumns(columns);
    }
  }

  /** A table is empty when it has no row or no column. */
  predicate EmptyFrame(columns: seq<string>, rows: seq<RawRow>) {
    |rows| == 0 || |columns| == 0
  }

  /** `extract_data`: the checks in order; the first that fails decides the error. */
  function ExtractData(file: SourceFile): (r: Result<Frame, ExtractError>)
    ensures r.Ok? ==> file.CsvFile? && r.value == Frame(file.columns, file.rows)
    ensures r.Ok? ==> |r.value.rows| > 0 && forall h :: h in RequiredHeaders ==> h in r.value.columns
  {
    if file.NoFile? then Err(FileNotFound)
    else if |file.columns| == 0 then Err(NoColumnsToParse)
    else if EmptyFrame(file.columns, file.rows) then Err(EmptyTable)
    else
      var missing := MissingColumns(file.columns);
      if missing != [] then Err(MissingRequiredColumns(missing))
      else
        MissingColumnsEmpty(file.columns);
        Ok(Frame(file.columns, file.rows))
  }

  /** Which error extraction reports, stated check by check: a missing file is
      reported before anything is read; a header-only file is empty; otherwise the
      missing headers are listed; and a file passing all checks is returned as is. */
  lemma ExtractDataSpec(file: SourceFile)
    ensures ExtractData(file) == Err(FileNotFound) <==> file.NoFile?
    ensures ExtractData(file) == Err(EmptyTable) <==>
      file.CsvFile? && |file.columns| > 0 && |file.rows| == 0
    ensures ExtractData(file).Err? && ExtractData(file).error.MissingRequiredColumns? <==>
      file.CsvFile? && |file.columns| > 0 && |file.rows| > 0
      && exists h :: h in RequiredHeaders && h !in file.columns
    ensures ExtractData(file) == Err(NoColumnsToParse) <==> file.CsvFile? && |file.columns| == 0
    ensures ExtractData(file).Err? && ExtractData(file).error.MissingRequiredColumns? ==>
      ExtractData(file).error.missing == MissingColumns(file.columns)
    ensures ExtractData(file).Ok? <==>
      file.CsvFile? && |file.rows| > 0 && |file.columns| > 0
      && forall h :: h in RequiredHeaders ==> h in file.columns
  {
    if file.CsvFile? {
      MissingColumnsEmpty(file.columns);
    }
  }

  /** The count fields of `get_extract_summary`. */
  datatype ExtractSummary = ExtractSummary(
    totalRows: nat, totalColumns: nat, nullValues: nat, duplicateRows: nat,
    uniqueOrders: nat, uniqueCustomers: nat, uniqueProducts: nat)

  function TextNull(t: Text): nat {
    if t.None? then 1 else 0
  }

  function NumNull(x: RawNum): nat {
    if x.Blank? then 1 else 0
  }

  /** Missing cells in one row of the twenty required columns. */
  function RowNulls(r: RawRow): (n: nat)
    ensures n <= 20
  {
    TextNull(r.orderId) + TextNull(r.orderDate) + TextNull(r.shipDate) + TextNull(r.shipMode)
    + TextNull(r.customer.id) + TextNull(r.customer.name) + TextNull(r.customer.segment)
    + TextNull(r.customer.country) + TextNull(r.customer.city) + TextNull(r.customer.state)
    + TextNull(r.customer.postalCode) + TextNull(r.customer.region)
    + TextNull(r.product.id) + TextNull(r.product.category) + TextNull(r.product.subCategory)
    + TextNull(r.product.name)
    + NumNull(r.sales) + NumNull(r.quantity) + NumNull(r.discount) + NumNull(r.profit)
  }

  /** `isnull().sum().sum()`: the missing cells of the whole table; none exactly when
      no row has a missing cell. */
  function TotalNulls(rows: seq<RawRow>): (n: nat)
    ensures n <= 20 * |rows|
    ensures n == 0 <==> forall i :: 0 <= i < |rows| ==> RowNulls(rows[i]) == 0
    decreases |rows|
  {
    if |rows| == 0 then 0
    else
      var init := rows[..|rows| - 1];
      assert forall i :: 0 <= i < |init| ==> init[i] == rows[i];
      TotalNulls(init) + RowNulls(rows[|rows| - 1])
  }

  /** The present values of a text column, in column order. */
  function PresentValues(cells: seq<Text>): (r: seq<string>)
    ensures |r| <= |cells|
    ensures forall i :: 0 <= i < |cells| && cells[i].Some? ==> cells[i].value in r
    ensures forall x :: x in r ==> exists i :: 0 <= i < |cells| && cells[i] == Some(x)
    decreases |cells|
  {
    if |cells| == 0 then []
    else
      var init := cells[..|cells| - 1];
      assert forall i :: 0 <= i < |init| ==> init[i] == cells[i];
      var rest := PresentValues(init);
      if cells[|cells| - 1].Some? then rest + [cells[|cells| - 1].value] else rest
  }

  /** The set of values present in a text column. */
  function PresentSet(cells: seq<Text>): set<string> {
    set i | 0 <= i < |cells| && cells[i].Some? :: cells[i].value
  }

  /** `nunique()`: the number of distinct present values. */
  function CountUnique(cells: seq<Text>): (n: nat)
    ensures n <= |cells|
  {
    |DistinctBy(PresentValues(cells), Id)|
  }

  /** Counting the kept values of first-occurrence deduplication gives exactly the
      number of different values present in the column, missing cells not counted. */
  lemma CountUniqueSpec(cells: seq<Text>)
    ensures CountUnique(cells) == |PresentSet(cells)|
  {
    var p := PresentValues(cells);
    var d := DistinctBy(p, Id);
    DistinctByKeys(p, Id);
    DistinctKeepsElements(p);
    DistinctCardinality(d);
    assert (set i | 0 <= i < |d| :: d[i]) == PresentSet(cells) by {
      forall x | x in PresentSet(cells) ensures x in (set i | 0 <= i < |d| :: d[i]) {
        var j :| 0 <= j < |cells| && cells[j].Some? && cells[j].value == x;
        var k :| 0 <= k < |p| && p[k] == x;
        var w :| 0 <= w < |d| && d[w] == p[k];
      }
      forall x | x in (set i | 0 <= i < |d| :: d[i]) ensures x in PresentSet(cells) {
        var w :| 0 <= w < |d| && d[w] == x;
        assert x in p;
        var j :| 0 <= j < |cells| && cells[j] == Some(x);
      }
    }
  }

  function OrderIds(rows: seq<RawRow>): seq<Text> {
    seq(|rows|, i requires 0 <= i < |rows| => rows[i].orderId)
  }

  function CustomerIds(rows: seq<RawRow>): seq<Text> {
    seq(|rows|, i requires 0 <= i < |rows| => rows[i].customer.id)
  }

  function ProductIds(rows: seq<RawRow>): seq<Text> {
    seq(|rows|, i requires 0 <= i < |rows| => rows[i].product.id)
  }

  function Summarize(frame: Frame): (s: ExtractSummary)
    ensures s.totalRows == |frame.rows| && s.totalColumns == |frame.columns|
    ensures s.duplicateRows <= s.totalRows
    ensures s.uniqueOrders <= s.totalRows && s.uniqueCustomers <= s.totalRows
    ensures s.uniqueProducts <= s.totalRows
    ensures s.uniqueOrders == |PresentSet(OrderIds(frame.rows))|
    ensures s.uniqueCustomers == |PresentSet(CustomerIds(frame.rows))|
    ensures s.uniqueProducts == |PresentSet(ProductIds(frame.rows))|
    ensures s.nullValues == TotalNulls(frame.rows) && s.nullValues <= 20 * s.totalRows
    ensures s.nullValues == 0 <==> forall i :: 0 <= i < |frame.rows| ==> RowNulls(frame.rows[i]) == 0
  {
    DuplicatesAreRemoved(frame.rows);
    CountUniqueSpec(OrderIds(frame.rows));
    CountUniqueSpec(CustomerIds(frame.rows));
    CountUniqueSpec(ProductIds(frame.rows));
    ExtractSummary(
      |frame.rows|, |frame.columns|, TotalNulls(frame.rows), DuplicateCount(frame.rows),
      CountUnique(OrderIds(frame.rows)), CountUnique(CustomerIds(frame.rows)),
      CountUnique(ProductIds(frame.rows)))
  }

  /** The duplicate count the summary reports is exactly the number of rows that
      whole-row deduplication drops. */
  lemma SummaryDuplicatesAreDropped(frame: Frame)
    ensures Summarize(frame).duplicateRows + |DistinctBy(frame.rows, Id)| == Summarize(frame).totalRows
  {
    DuplicatesAreRemoved(frame.rows);
  }

  /** The four-row fixture whose last row repeats the first: four rows, one of them a
      duplicate. */
  lemma FixtureSummary(a: RawRow, b: RawRow, c: RawRow)
    requires a != b && b != c && a != c
    ensures Summarize(Frame(RequiredHeaders, [a, b, c, a])).totalRows == 4
    ensures Summarize(Frame(RequiredHeaders, [a, b, c, a])).duplicateRows == 1
  {
    DistinctExample(a, b, c);
    DuplicatesAreRemoved([a, b, c, a]);
  }
}
