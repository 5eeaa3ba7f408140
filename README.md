# Sales ETL pipeline — a verified model

This project models the three stages of a batch sales-reporting pipeline that reads
a Superstore-style sales CSV and loads it into a SQLite star schema.

1. **Extract** (`pipeline/extract.py`) reads the file and refuses it when:
   - it is missing;
   - it has no header;
   - it has no data rows;
   - any of the twenty required headers is missing.

   It also computes the count fields of the extraction summary.
2. **Transform** (`pipeline/transform.py`) runs these steps in order:
   - clean the header names;
   - drop whole-row duplicates, keeping the first occurrence;
   - coerce dates and numbers (unparseable cells become missing);
   - add the derived columns (profit margin, delivery days, calendar parts);
   - fill missing cells with 0 or "Unknown", by column kind;
   - run an all-or-nothing quality gate that collects every violation before failing once.
3. **Load** (`pipeline/load.py`) keeps a warehouse of six tables:
   - a staging table;
   - four dimensions (date, customer, product, shipping);
   - the sales fact table.

   A load resets all six tables, then appends to each in turn. Dimension rows get
   surrogate keys from AUTOINCREMENT counters. Fact rows are built by left-merging
   the batch with the dimension keys. A final reconciliation compares the fact count
   with the batch size.

How the model is written:
- Rows are datatypes with one field per required column. A missing cell is `None`.
- The pure stages are functions with lemmas about them.
- Loops become methods with invariants:
  - the column loop of `handle_nulls`;
  - the checks of `validate_data`;
  - the drop loop of `create_schema`;
  - the row loop of `load_dim_date`;
  - the count loop of `validate_load`.
- The warehouse is a class whose fields are the six tables and their counters.
- Each loader is specified by a step function on the whole database (`Load.StagingStep`, …). It returns the loader's result and the database afterwards. Lemmas about the step functions prove four things:
  - each loader is append-only and atomic;
  - each loader preserves the schema's constraints;
  - on a fresh database, each loader succeeds on a filled batch.

Main results:
- `Transform.TransformData` returns, for every distinct input row, one enriched row with no missing cell, and the output passes the quality gate. Otherwise it names the first stage that fails.
- `Load.Warehouse.LoadData`, given any batch the transform stage can produce, can fail only in one way: when null filling has turned the ship-date column into text. A failed load leaves the warehouse empty.
- On success, the warehouse holds exactly the rows built from the batch, and satisfies:
  - every UNIQUE / NOT NULL constraint holds;
  - there is one fact row and one staging row per batch row;
  - every fact row's foreign keys resolve to existing dimension rows;
  - the row-count reconciliation passes.

Modules:
- `wrappers.dfy`: `Option`, `Result`, `Outcome`.
- `digits.dfy`: decimal digit strings.
- `calendar.dfy`: Gregorian dates, pandas timestamp bounds, ISO text, date keys, weekdays.
- `collections.dfy`: first-occurrence deduplication, filters, counts, left merge.
- `records.dfy`: the row types and the column view.
- `extract.dfy`, `transform.dfy`: the first two stages.
- `dimensions.dfy`: the rows each loader builds.
- `load.dfy`: the warehouse.

## Model

| member | source | states |
|---|---|---|
| Extract.MissingColumns | pipeline/extract.py:79-91 | the result lists exactly the required headers absent from the file, in the order of the required list |
| Extract.MissingColumnsEmpty | pipeline/extract.py:88-96 | no header is reported missing iff every required header is present |
| Extract.ExtractData | pipeline/extract.py:22-134 | a successful extraction returns the file's table unchanged, with at least one row and every required header |
| Extract.ExtractDataSpec | pipeline/extract.py:45-96 | the checks run in order: a missing file is FileNotFound; a file without a header line is NoColumnsToParse; a header-only file is EmptyTable; otherwise the missing headers are reported, exactly those `MissingColumns` lists; the file is accepted iff it has rows, columns and every required header |
| Extract.CountUnique | pipeline/extract.py:161-163 | the number of distinct present values never exceeds the number of cells |
| Extract.CountUniqueSpec | pipeline/extract.py:161-163 | `nunique()` is exactly the size of the set of values present in the column, missing cells not counted |
| Extract.TotalNulls | pipeline/extract.py:157 | the table's null count is at most twenty per row, and zero iff no row has a missing cell |
| Extract.Summarize | pipeline/extract.py:143-168 | the summary's row and column counts are the table's; each unique count is the size of the set of present ids in its column; the null count is the table's missing cells, zero iff no row has one; the duplicate count is bounded by the row count |
| Extract.SummaryDuplicatesAreDropped | pipeline/extract.py:158 | the reported duplicate count is exactly the number of rows whole-row deduplication removes |
| Extract.FixtureSummary | tests/test_pipeline.py:31-52 | the four-row fixture whose last row repeats the first has four rows and one duplicate |
| Collections.FirstIndex | pipeline/transform.py:58 | the first position holding a key: it holds the key and no earlier position does |
| Collections.DistinctByKeys | pipeline/load.py:320-322 | deduplication by a key keeps pairwise distinct keys, and the kept keys are exactly the input's keys |
| Collections.DistinctByKeepsFirst | pipeline/transform.py:58 | each kept element is the first occurrence of its key, and kept elements follow the order of first occurrences |
| Collections.DistinctKeepsElements | pipeline/transform.py:58 | whole-row deduplication keeps every distinct row and adds none |
| Collections.DuplicatesAreRemoved | pipeline/extract.py:158 | rows that equal an earlier row plus kept rows make up the whole input |
| Collections.CountWhere | pipeline/transform.py:243-250 | a boolean-column sum is positive iff some row satisfies the condition, and is at most the row count |
| Collections.Keep | pipeline/extract.py:88-91 | a filter keeps exactly the elements satisfying the condition, in order |
| Collections.LookupSpec | pipeline/load.py:449-451 | a merge key found on the right side looks up the value paired with it |
| Collections.LeftMergeUnique | pipeline/load.py:449-451 | a left merge against unique right keys keeps one row per left row, in order, paired with the looked-up value or missing |
| Calendar.ParseIsoDateSpec | pipeline/transform.py:89-99 | a text parses to a date iff it is that date's zero-padded ISO form and the date fits a pandas timestamp; parsing inverts ISO formatting |
| Calendar.DateKeyDecodes | pipeline/load.py:268 | the YYYYMMDD date key decodes back to the year, month and day |
| Calendar.DateKeyOrder | pipeline/load.py:268 | date keys are unique per date and sort like the dates |
| Calendar.Weekday | pipeline/transform.py:157 | the day of the week is in 0..6 |
| Calendar.NextDay | pipeline/transform.py:146-148 | the next calendar day is a valid date strictly after the given one |
| Calendar.DayNumberSucc | pipeline/transform.py:146-148 | the next calendar day is exactly one whole day later, so day differences count whole days |
| Calendar.WeekdaySucc | pipeline/transform.py:157 | consecutive days have consecutive weekday numbers, Sunday (6) followed by Monday (0) |
| Calendar.WeekdayAnchor | pipeline/transform.py:157 | 0001-01-01 and 2019-01-07, both Mondays, have weekday 0 |
| Calendar.Quarter | pipeline/transform.py:153 | the quarter is the one of 1..4 whose three months contain the month |
| Calendar.DaysBetweenSign | pipeline/transform.py:146-148 | the day difference is negative, zero or positive exactly when the second date is before, equal to or after the first |
| Calendar.FixtureDate | tests/test_pipeline.py:33-34 | 2019-01-03 is a Thursday with key 20190103, four days before 2019-01-07 |
| Transform.CleanChar | pipeline/transform.py:32-38 | upper-case letters are lower-cased; space, '-' and '/' become '_'; every other character is kept |
| Transform.CleanColumnName | pipeline/transform.py:32-38 | a cleaned name has the same length, no upper-case letter, no separator, and keeps every other character in place |
| Transform.CleanColumnNameIdempotent | pipeline/transform.py:32-38 | cleaning a cleaned name changes nothing |
| Transform.CleanSubCategory | tests/test_pipeline.py:104-111 | "Sub-Category" cleans to "sub_category" |
| Transform.CleanRequiredHeaders | pipeline/transform.py:32-38 | cleaning the twenty required headers yields, in order, the column names the later stages select |
| Transform.RemoveDuplicates | pipeline/transform.py:50-70 | deduplication never adds rows |
| Transform.RemoveDuplicatesSpec | pipeline/transform.py:57-60 | kept rows are pairwise distinct; each input row is kept once, as its first occurrence, in order; the number removed is the number of repeated rows |
| Transform.CoerceDateSpec | pipeline/transform.py:89-99 | a cell becomes a date iff it holds that date's ISO text; anything else becomes missing without an error |
| Transform.ToNumeric | pipeline/transform.py:102-104 | a cell becomes a number iff the parser accepts it |
| Transform.ToQuantity | pipeline/transform.py:105 | a whole number is kept exactly; other cells become missing |
| Transform.FixDataTypes | pipeline/transform.py:79-120 | typing fails with the integer-cast error iff some quantity has a fractional part; otherwise one typed row per row |
| Transform.FixDataTypesSpec | pipeline/transform.py:89-105 | typing keeps text cells; sales, quantity, discount and profit are numbers exactly when the cell holds one, with its value; a date cell is a date exactly when its text is that date |
| Transform.MarginPercent | pipeline/transform.py:140-143 | the margin exists iff profit and a non-zero sales value exist, and then margin × sales = 100 × profit |
| Transform.MarginPercentExample | tests/test_pipeline.py:162-174 | profit 20 on sales 100 is a 20 % margin; zero sales give no margin |
| Transform.DaysToShip | pipeline/transform.py:146-148 | delivery days exist iff the ship date does |
| Transform.DaysToShipSign | pipeline/transform.py:146-148 | delivery days are negative iff the ship date precedes the order date, and zero iff they coincide |
| Transform.Derive | pipeline/transform.py:129-157 | the derived row has the order date's year, month, quarter and weekend flag (Saturday or Sunday); its margin is `MarginPercent` of its profit and sales and its delivery days `DaysToShip` from its order date; the ship date and every copied field are kept |
| Transform.AddDerivedColumns | pipeline/transform.py:129-169 | deriving fails with the week-cast error iff some order date is missing; otherwise one derived row per row |
| Transform.DerivedMeasures | pipeline/transform.py:140-148 | each derived row has a margin iff profit and non-zero sales are present, with margin × sales = 100 × profit, and delivery days iff the ship date is present, negative iff shipped before the order and zero on the same day |
| Transform.FillValue | pipeline/transform.py:196-205 | numeric columns are filled with 0, every other column with "Unknown" |
| Transform.FillColumnSpec | pipeline/transform.py:196-205 | filling one column replaces only that column's missing cell by its fill value |
| Transform.FillColumnsSpec | pipeline/transform.py:193-205 | filling a list of columns fills exactly the missing cells of those columns |
| Transform.FillRowSpec | pipeline/transform.py:193-207 | after filling, present cells are unchanged, missing cells hold the fill value, and none is missing |
| Transform.FillRowFilled | pipeline/transform.py:207-210 | a filled row has no missing cell |
| Transform.FillRowOfFilled | pipeline/transform.py:188-190 | filling a row without missing cells changes nothing |
| Transform.ColumnNulls | pipeline/transform.py:194 | a column's null count is zero iff no row has that cell missing |
| Transform.NullsInZero | pipeline/transform.py:186-188 | the total null count is zero iff no cell of the listed columns is missing |
| Transform.NoNullsFilled | pipeline/transform.py:186-190 | a batch with no null has only filled rows |
| Transform.FillInRows | pipeline/transform.py:197-202 | filling a column fills it in every row and keeps the row count |
| Transform.FillEveryColumn | pipeline/transform.py:193-205 | the column loop leaves each row as the fully filled row |
| Transform.HandleNulls | pipeline/transform.py:177-212 | every output row is the filled input row with no missing cell; a batch with no null is returned as is |
| Transform.NullViolationsEmpty | pipeline/transform.py:231-240 | no critical-null violation is reported iff no critical cell is missing |
| Transform.NullViolationsReport | pipeline/transform.py:231-240 | a critical-null violation names a listed column with its exact positive null count, and every such column is reported |
| Transform.CheckCriticalNulls | pipeline/transform.py:230-240 | the check loop reports one violation per critical column with nulls, in column order |
| Transform.ViolationsSpec | pipeline/transform.py:228-268 | the violation list is empty iff every row passes every blocking rule |
| Transform.ViolationsReported | pipeline/transform.py:231-240 | every critical column with nulls is reported with its count, whatever else fails |
| Transform.RangeViolationsReported | pipeline/transform.py:242-262 | negative quantities, negative sales and out-of-range discounts are each reported iff present, with their row counts |
| Transform.RangeViolationIn | pipeline/transform.py:242-262 | a range violation is in the list iff its own check fires with that count |
| Transform.GateIgnoresDeliveryDays | pipeline/transform.py:252-257 | changing delivery days never changes the gate's verdict |
| Transform.RowPassesIgnoresDeliveryDays | pipeline/transform.py:252-257 | a row's verdict does not depend on its delivery days |
| Transform.FilledHasNoCriticalNulls | pipeline/transform.py:230-240 | after null filling the critical-null check never fires |
| Transform.ValidateData | pipeline/transform.py:221-276 | validation passes iff the gate holds; a failure carries every violation, in check order |
| Transform.TransformRow | pipeline/transform.py:303-315 | each row the stage emits has no missing cell |
| Transform.DedupPreservesRowChecks | pipeline/transform.py:306-309 | the quantity-cast and order-date checks hold after deduplication iff they hold before |
| Transform.TransformData | pipeline/transform.py:285-330 | the stage fails with the quantity-cast error iff a quantity is fractional, else with the week-cast error iff an order date does not parse, else with the gate's violations; on success it returns one filled, gate-passing row per distinct input row |
| Dimensions.StagingRows | pipeline/load.py:226-230 | one staging row per batch row |
| Dimensions.StagingRowsSpec | pipeline/load.py:216-230 | staged date texts parse back to the row's dates, and the other columns are copied |
| Dimensions.InsertDate | pipeline/load.py:260-262 | inserting into an ascending distinct date list keeps it ascending and adds only that date |
| Dimensions.SortedUnique | pipeline/load.py:260-262 | the result is strictly ascending and holds exactly the input dates |
| Dimensions.PresentShipDates | pipeline/load.py:259 | the present ship dates of the batch, and only those |
| Dimensions.BatchDates | pipeline/load.py:258-260 | every order date and present ship date, and no other date |
| Dimensions.DateRowOf | pipeline/load.py:267-279 | a date row's key is the date key; its weekday is the date's `Weekday`; the weekend flag is set iff the weekday is 5 or 6 |
| Dimensions.DateRowSpec | pipeline/load.py:268-272 | a date row's key decodes to its year, month and day; its full date parses back to the date; its quarter contains its month |
| Dimensions.DateDim | pipeline/load.py:257-279 | one date row per distinct date |
| Dimensions.DateDimSpec | pipeline/load.py:257-279 | date keys strictly increase, and every order and ship date of the batch has its key in the dimension |
| Dimensions.FixtureDateRow | pipeline/load.py:268-278 | the row for 2019-01-03 has key 20190103, weekday 3 and no weekend flag |
| Dimensions.EarliestOrder | pipeline/load.py:308-311 | a customer's first order date is an order date of that customer, not after any other |
| Dimensions.LatestOrder | pipeline/load.py:308-311 | a customer's last order date is an order date of that customer, not before any other |
| Dimensions.FirstOrderNotAfterLast | pipeline/load.py:308-311 | a customer's first order is never after the last |
| Dimensions.CustomerDim | pipeline/load.py:320-329 | one customer row per distinct customer id |
| Dimensions.CustomerDimKeys | pipeline/load.py:320-322 | customer ids of the dimension are pairwise distinct and cover every id of the batch |
| Dimensions.CustomerDimFirst | pipeline/load.py:320-329 | each customer row is built from the first batch row of its id |
| Dimensions.CustomerDatesSpec | pipeline/load.py:325-338 | a customer row stores its customer's earliest and latest order dates as ISO text, first not after last |
| Dimensions.ProductDim | pipeline/load.py:369-371 | one product row per distinct product id |
| Dimensions.ProductDimKeys | pipeline/load.py:369-371 | product ids are pairwise distinct and cover every id of the batch |
| Dimensions.ProductDimFirst | pipeline/load.py:364-371 | each product row carries the attributes of the first batch row of its id |
| Dimensions.ShippingDim | pipeline/load.py:397 | one row per distinct ship mode |
| Dimensions.ShippingDimSpec | pipeline/load.py:397 | ship modes are pairwise distinct, cover every mode of the batch, and come from the batch |
| Dimensions.DatedSales | pipeline/load.py:440-446 | one dated row per batch row |
| Dimensions.FactRows | pipeline/load.py:449-468 | a merge never loses a batch row |
| Dimensions.FactRowsSpec | pipeline/load.py:449-468 | with unique dimension keys, one fact row per batch row, in order, carrying the looked-up keys, the date keys and the row's measures |
| Load.Unkeyed | pipeline/load.py:426-437 | dropping the surrogate keys keeps every row in order |
| Load.KeyedFrom | pipeline/load.py:124 | appended rows get consecutive surrogate keys after the counter |
| Load.NaturalKeys | pipeline/load.py:125 | the natural-key column of the rows, in order |
| Load.KeyPairs | pipeline/load.py:426-437 | reading a dimension's keys yields each row's natural key with its surrogate key |
| Load.Dropped | pipeline/load.py:64-75 | dropping a table empties it and resets its counter, leaving every other table as it was |
| Load.AllDroppedIsEmpty | pipeline/load.py:64-75 | once every table is dropped the database is empty |
| Load.AppendDatesConsistent | pipeline/load.py:107 | appending date rows with unique keys keeps the database consistent |
| Load.AppendCustomersConsistent | pipeline/load.py:124-125 | appending customers with present, distinct ids keeps the database consistent |
| Load.AppendProductsConsistent | pipeline/load.py:141-142 | appending products with present, distinct ids keeps the database consistent |
| Load.AppendShippingConsistent | pipeline/load.py:152-153 | appending present, distinct ship modes keeps the database consistent |
| Load.AppendFactsConsistent | pipeline/load.py:160-170 | appending fact rows with their NOT NULL columns keeps the database consistent |
| Load.StagingStep | pipeline/load.py:209-241 | staging succeeds iff every ship date is still a date |
| Load.DimDateStep | pipeline/load.py:250-291 | the date loader succeeds iff ship dates are dates and no date key collides with a stored one |
| Load.DimCustomerStep | pipeline/load.py:300-348 | the customer loader succeeds iff all customer ids, stored and new, are present and distinct |
| Load.DimProductStep | pipeline/load.py:357-381 | the product loader succeeds iff all product ids, stored and new, are present and distinct |
| Load.DimShippingStep | pipeline/load.py:390-407 | the shipping loader succeeds iff all ship modes, stored and new, are present and distinct |
| Load.FactSalesStep | pipeline/load.py:416-478 | the fact loader succeeds iff ship dates are dates and every merged fact row has its NOT NULL columns |
| Load.DateStepsAppendOnly | pipeline/load.py:233-238 | the staging, date and fact loaders either fail and leave the database as it was, or append the reported rows to their own table only |
| Load.DimensionStepsAppendOnly | pipeline/load.py:340-345 | the customer, product and shipping loaders either fail with their table's integrity error and change nothing, or append to their own table only |
| Load.DateStepsKeepConsistent | pipeline/load.py:105-118 | the staging and date loaders keep a consistent database consistent |
| Load.DimensionStepsKeepConsistent | pipeline/load.py:122-155 | the customer, product and shipping loaders keep a consistent database consistent |
| Load.FactStepKeepsConsistent | pipeline/load.py:158-176 | the fact loader keeps a consistent database consistent |
| Load.DateRows | pipeline/load.py:265-279 | the row loop builds one date row per date, in order |
| Load.DateDimRows | pipeline/load.py:257-281 | the rows built from the sorted distinct dates are the date dimension |
| Load.KeyedLookup | pipeline/load.py:449-451 | on rows with present, distinct natural keys numbered from 1, a present key looks up the number of the row carrying it |
| Load.KeyPairsUnique | pipeline/load.py:124-125 | distinct natural keys give unique key pairs |
| Load.EmptyTableKeys | pipeline/load.py:340-345 | appending to an empty table, only the new rows' keys matter |
| Load.CustomerKeysOk | pipeline/load.py:320-322 | the customer dimension of a filled batch meets UNIQUE NOT NULL on customer_id |
| Load.ProductKeysOk | pipeline/load.py:369-371 | the product dimension of a filled batch meets UNIQUE NOT NULL on product_id |
| Load.ShippingKeysOk | pipeline/load.py:397 | the shipping dimension of a filled batch meets UNIQUE NOT NULL on ship_mode |
| Load.DimensionKeysOk | pipeline/load.py:250-407 | every dimension built from a filled batch meets its key constraint |
| Load.CustomerKeyOf | pipeline/load.py:449 | a batch row's customer id looks up the key of the customer row with that id |
| Load.ProductKeyOf | pipeline/load.py:450 | a batch row's product id looks up the key of the product row with that id |
| Load.ShippingKeyOf | pipeline/load.py:451 | a batch row's ship mode looks up the key of the shipping row with that mode |
| Load.LoadedFactIs | pipeline/load.py:440-468 | fact row i of a full load is batch row i with its date keys and looked-up surrogate keys |
| Load.LoadedFactRow | pipeline/load.py:440-468 | each fact row's surrogate keys point at the dimension rows carrying the batch row's own natural keys; its date keys encode its dates; its measures are the row's |
| Load.LoadedFactsNotNull | pipeline/load.py:160-170 | every fact row of a full load has its NOT NULL columns |
| Load.FactRowsLength | pipeline/load.py:449-468 | a full load keeps one fact row per batch row |
| Load.LoadedTablesConsistent | pipeline/load.py:532-566 | a full load violates no constraint of the schema |
| Load.LoadedTablesResolve | pipeline/load.py:171-175 | after a full load there is one fact and one staging row per batch row, and every foreign key resolves |
| Load.FreshStagingStep | pipeline/load.py:556 | staging into an empty table succeeds and the table holds exactly the batch |
| Load.FreshDateStep | pipeline/load.py:559 | loading dates into an empty dimension succeeds with exactly the batch's date rows |
| Load.FreshCustomerStep | pipeline/load.py:560 | loading customers into an empty dimension succeeds and numbers the rows from 1 |
| Load.FreshProductStep | pipeline/load.py:561 | loading products into an empty dimension succeeds and numbers the rows from 1 |
| Load.FreshShippingStep | pipeline/load.py:562 | loading ship modes into an empty dimension succeeds and numbers the rows from 1 |
| Load.FreshFactStep | pipeline/load.py:565 | against freshly loaded dimensions, the fact loader succeeds with one row per batch row, numbered from 1 |
| Load.IsLoadedTables | pipeline/load.py:553-565 | a database holding every table a full load builds is the fully loaded database |
| Load.Warehouse.constructor | pipeline/load.py:58 | a new database is empty and consistent |
| Load.Warehouse.Drop | pipeline/load.py:74-75 | dropping a table is the `Dropped` transition |
| Load.Warehouse.CreateSchema | pipeline/load.py:46-201 | whatever the database held, afterwards it is empty and consistent |
| Load.Warehouse.LoadStaging | pipeline/load.py:209-241 | the staging loader returns what `StagingStep` returns and leaves the database `StagingStep` describes, and keeps the database consistent |
| Load.Warehouse.LoadDimDate | pipeline/load.py:250-291 | the date loader follows `DimDateStep`, and keeps the database consistent |
| Load.Warehouse.LoadDimCustomer | pipeline/load.py:300-348 | the customer loader follows `DimCustomerStep`, and keeps the database consistent |
| Load.Warehouse.LoadDimProduct | pipeline/load.py:357-381 | the product loader follows `DimProductStep`, and keeps the database consistent |
| Load.Warehouse.LoadDimShipping | pipeline/load.py:390-407 | the shipping loader follows `DimShippingStep`, and keeps the database consistent |
| Load.Warehouse.LoadFactSales | pipeline/load.py:416-478 | the fact loader follows `FactSalesStep`, and keeps the database consistent |
| Load.Warehouse.ValidateLoad | pipeline/load.py:487-524 | the reconciliation fails iff the fact count differs from the source row count; otherwise it returns every table's count |
| Load.Warehouse.LoadData | pipeline/load.py:532-573 | on a filled batch the load fails only when a ship date became text, leaving the database empty; otherwise the database is the full load, consistent, with one fact and one staging row per batch row, resolving foreign keys and every table's count returned |

## Left out

- Reading and writing files is left out: CSV parsing, the raw backup copy and the transformed-data CSV. The source file is an abstract value.
- Logging is left out. The loop of `extract_data` that logs null counts per column is left out with it.
- The SQL engine and connection plumbing are left out: `get_engine`, PRAGMA, the DDL text and the nine indexes. The tables are sequences and the constraints are predicates.
- Foreign keys are not enforced. The PRAGMA is set only on the schema-creation connection, so inserts never check them. Instead, their resolution is proved after a full load.
- `pipeline/main.py`, `pipeline/config.py` and `scripts/export_for_tableau.py` are not part of this model.
- `get_transform_summary` is not modelled. Its fields are means, sums and min/max of floats.
- Extract.Summarize: the date range, total sales and total profit fields are left out (float sums and text minima).
- Floating-point arithmetic and rounding are modelled as exact real arithmetic. This covers the profit margin's `round(…, 2)`.
- Decimal-text parsing of numbers is abstracted: a numeric cell is a number, unparseable text or empty.
- Calendar.ParseIsoDate: pandas' lenient ISO parser also accepts one-digit months and days; only zero-padded dates are modelled.
- Month names, day names and the ISO week number are not modelled. Only the week cast's failure on a missing order date is, as `WeekNumberCastError`.
- Header cleaning lowercases ASCII letters only; other Unicode case mappings are left out.
- Transform.CleanColumnNames: headers are cleaned as a list of their own. Rows carry only the twenty required fields, so extra CSV columns are not modelled.
- Transform.RemoveDuplicates: `drop_duplicates()` compares every CSV column. The model compares the twenty required fields only. With extra columns, two rows that differ only in an extra column count as duplicates here but not in the source. The same holds for `duplicated()` in Extract.Summarize.
- Extract.Summarize: `isnull().sum().sum()` also counts missing cells in extra columns. The model counts the twenty required fields only. `Frame.columns` may list extra headers that the rows hold no values for.
- Each column's dtype is given by its declared kind (`NumericColumn`) rather than inspected at run time.
- 64-bit integer overflow is not modelled.
- The in-place `order_date_key`/`ship_date_key` columns `load_fact_sales` adds to the caller's frame are not modelled.
- Load.Warehouse.LoadStaging: requires that no ship date is NaT. The same holds for LoadDimDate and LoadFactSales. Null filling guarantees it, and `LoadData` proves it from its own precondition.
- Load.Warehouse.LoadDimCustomer: requires `Valid()`, like the five other loaders. `Valid()` is the set of schema constraints that the constructor, `CreateSchema` and every loader keep. A database file that already violates them is not modelled.
- Load.Warehouse.LoadData: does not check the loaders' results after staging. The Fresh…Step lemmas prove that on a filled batch those loaders cannot fail.
