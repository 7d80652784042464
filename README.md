# A verified model of a SQL benchmarking harness

The harness measures how fast PostgreSQL, MySQL and SQLite answer a fixed set of
queries. It does three things. It fills small tables with generated rows, times
where-queries and self-joins on a plain and an indexed column, and writes the
mean timings as a JSON report. A separate script flattens that report into CSV
lines.

This project models the logic of that harness in Dafny and proves what it
promises. The pieces are:

- **Query templates** (`Utils`, module in `utils.dfy`). `generate_queries`
  dispatches on the column types: two point-in-polygon containment joins for
  the PostGIS point/polygon pair, four same-type queries for a recognised
  pairing, or the `TypeError` that Python raises when `where` stays `None`.
  `generate_id_query` builds one lookup per identifier type. `random_string` is
  a function of a choice oracle.
- **Adapters** (`Adapters`, `adapters.dfy`). The base class of
  `databases/sql.py` and its PostgreSQL and SQLite subclasses are one class,
  `SqlDatabase`, whose `dialect` says which of the three it is. The driver is a
  log of executed statements, fetches and commits. `insert_dummy_data` is the
  same algorithm in `databases/postgresql.py:26-94` and
  `databases/sqlite.py:17-72`, so it is written once; the dialect decides which
  column types get values.
- **Bulk-insert batching** (`Batching`, `batching.dfy`). The flush rule
  `(i % 500 == 0 and i > 0) or i == n-1` as a function on the rows. It is
  proved equal to an independent reference: a first batch of up to 501 rows,
  then chunks of 500.
- **The analysis run** (`Analysis`, `analysis.dfy`; `Runs`, `runs.dfy`).
  `Analyzer.run_analysis` drives an abstract database that records each
  interface call. `time_query` returns `stopwatch(k)` for the call at position
  `k`, so every mean in the report is a known function of the readings. The
  imperative methods are proved equal to specification functions (`Run`,
  `MeasureTables`, `MeasureIds`, `Sweep`). `Runs` proves what a run does on
  each backend and flag combination.
- **Report records** (`Reports`, `reports.dfy`). The `SelectSection`,
  `JoinSection`, `IdSection` and `Report` dataclasses and their `__dict__`
  serialisation, with a parse that inverts it.
- **CSV flattening** (`Csv`, `csv.dfy`). `json_to_csv` without the file
  access: the two loops, as methods proved equal to `Render(Flatten(d))`.

Exceptions are values (`Outcomes.Result`, `Outcomes.Exception`), so the error
paths of the modelled operations are part of their results rather than excluded
by a precondition. The analyzer's own database is the exception: its calls
always succeed (see "## Left out").

Three behaviours of the code are easy to miss:

- Each table series has two entries, one per repetition of `for i in range(2)`;
  `num_points` does not change that.
- `num_points` only feeds the step computations. Zero raises
  `ZeroDivisionError` before any call; otherwise the steps are never used.
- The `IdSection` fields are declared `list[float]`, but `id_results.get` can
  return `None` for them. The model types them as options.

With `ids=False` the run assigns `self.report` and then raises `AttributeError`,
because serialisation reads `None.__dict__`. The model states exactly that.

## Model

| member | source | states |
|---|---|---|
| `Strings.TerminatedIsJoinedPlusSep` | to_csv.py:19-20 | A list built by appending `item + sep` per item is the `sep`-join of the items plus one trailing `sep`, so `out[:-1]` leaves exactly the join |
| `Strings.Repeat` | utils.py:25 | `c * n` has length n and every character is `c` |
| `Strings.JoinAvoids` | to_csv.py:17-20 | A join contains no character that neither the items nor the separator contain |
| `Strings.OccurrencesAppend` | to_csv.py:19 | Occurrences of a character are additive over concatenation |
| `Strings.NotContains` | analyzer.py:104 | A substring is absent when no position holding its first character starts it; used for the `'point' in name` tests |
| `Utils.AlphabetShape` | utils.py:6 | `ascii_uppercase + ascii_lowercase + digits` has 62 characters: A-Z, a-z, 0-9 in that order |
| `Utils.AlphabetIndex` | utils.py:6 | Every ASCII letter or digit occurs in the alphabet, at the returned index |
| `Utils.RandomString` | utils.py:5-7 | The result has exactly `length` characters, each an ASCII upper- or lower-case letter or a digit |
| `Utils.RandomStringCanYieldAny` | utils.py:5-7 | Conversely, every alphanumeric string of that length is a possible result for some choice sequence |
| `Utils.WherePredicate` | utils.py:18-38 | A where-predicate exists exactly for the seven recognised pairing types |
| `Utils.JoinPredicate` | utils.py:18-38 | A self-join predicate exists exactly for the seven recognised pairing types |
| `Utils.GenerateQueries` | utils.py:10-39 | Succeeds iff the call is the point/polygon cross-table case or the two types are equal and recognised; then 2 (cross-table) or 4 queries; otherwise raises `TypeError` with no partial list |
| `Utils.CrossTableFallsThrough` | utils.py:14-39 | With a second table of any other types, the second table, col3 and col4 are ignored and the result equals the single-table call |
| `Utils.CrossTableQueries` | utils.py:14-17 | The cross-table case yields exactly `select * from {table} a join {table2} b on st_contains(b.{col3}, a.{col1});` and the col4/col2 query, whatever the types of col2 and col4 |
| `Utils.ScalarQueries` | utils.py:18-26 | For int, text and char(36) the four queries are spelled out: `= -1;`, `= 'a';`, or 36 `a`s on col1 then col2, then `a.{col} = b.{col};` joins on col1 then col2 |
| `Utils.ScalarPredicates` | utils.py:18-26 | The where-query and the self-join on one scalar column, spelled out |
| `Utils.PgPointQueries` | utils.py:27-29 | For PostGIS points the four queries are spelled out: `st_dwithin('0101…C0'::geometry, {col}, 10);` on col1 then col2, then `st_dwithin(a.{col}, b.{col}, 10);` joins on col1 then col2 |
| `Utils.PgPolygonQueries` | utils.py:30-32 | For PostGIS polygons: `st_overlaps(st_setsrid('POLYGON((30 10, …))'::geometry, 4326), {col});` on col1 then col2, then `st_overlaps(a.{col}, b.{col});` joins |
| `Utils.MyPointQueries` | utils.py:33-35 | For MySQL points: `st_distance_sphere(st_geomfromtext('POINT(0 0)', 4326), {col}) < 10;` on col1 then col2, then `st_distance_sphere(a.{col}, b.{col}) < 10;` joins |
| `Utils.MyPolygonQueries` | utils.py:36-38 | For MySQL polygons: `st_overlaps({col}, st_geomfromtext('POLYGON((30 10, …))', 4326));` on col1 then col2, then `st_overlaps(a.{col}, b.{col});` joins |
| `Utils.IdPredicate` | utils.py:43-53 | A lookup predicate exists exactly for int, char(16), uuid, bytea and binary(16) |
| `Utils.GenerateIdQuery` | utils.py:42-54 | Succeeds iff the type is a known identifier type, with a query that starts with `select * from {table} where `; otherwise `TypeError` |
| `Utils.IdQuerySentinels` | utils.py:44-53 | All five lookups are spelled out: `id = -1;`, sixteen `a`s, `gen_random_uuid()`, `gen_random_bytes(32)` and `unhex(replace(uuid(),'-',''))` |
| `Adapters.RandomLiteral` | databases/postgresql.py:43 | `f"'{random_string(len)}'"` is a quote, `len` ASCII letters or digits, a quote |
| `Adapters.ValueFor` | databases/postgresql.py:39-58 | A value is generated iff the dialect has a branch for the type: int gives `i`; text (and char(36) on SQLite, databases/sqlite.py:33-34) a quoted 36-character alphanumeric string; char(16) a quoted 16-character one; uuid and bytea the fixed expressions on PostgreSQL |
| `Adapters.GenerateColumn` | databases/postgresql.py:39-58 | The generation loop for one column builds `Column`: the values of rows 1..n in order, or nothing for a type without a branch |
| `Adapters.GenerateColumnData` | databases/postgresql.py:37-58 | The loop over `columns` fills `column_data` with each column's list generated from its own type |
| `Adapters.SharedColumnData` | databases/postgresql.py:31-64 | `column_data` after the sharing step has exactly the keys of `columns` |
| `Adapters.SqlDatabase.constructor` | databases/sql.py:7-12 | A base adapter stores its credentials and starts with no connection, no cursor and an empty log |
| `Adapters.SqlDatabase.PostgresDatabase` | databases/postgresql.py:14-24 | Connects to localhost:5432 with `-c search_path={schema}` and takes that connection's cursor |
| `Adapters.SqlDatabase.SqliteDatabase` | databases/sqlite.py:12-15 | Empty credentials, a connection to `path` and its cursor |
| `Adapters.SqlDatabase.TimeQuery` | databases/sql.py:14-22 | Executes the query once, then fetches all rows when read-only and commits otherwise (never both); returns the clock difference; without a cursor raises `AttributeError` and logs nothing |
| `Adapters.SqlDatabase.DropIndex` | databases/postgresql.py:96-98 | `drop index {index};` then a commit (likewise databases/sqlite.py:74-76); the base class raises `NotImplementedError` |
| `Adapters.SqlDatabase.CreateIndex` | databases/sqlite.py:78-82 | SQLite raises `TypeError` for a geospatial index and executes nothing; PostgreSQL emits `... using GIST (...)` (databases/postgresql.py:100-104); otherwise `create unique index {index} on {table} ({column});`; no commit; the base class raises `NotImplementedError` |
| `Adapters.SqlDatabase.ClearTable` | databases/sql.py:35-39 | `delete from {table};` and a commit, then `drop_index`'s statement and commit iff an index name is given; without a cursor (the base class) raises `AttributeError` and logs nothing |
| `Adapters.SqlDatabase.InsertDummyData` | databases/postgresql.py:26-94 | The log grows by one execute plus commit per batch of `Batches(rows)`, each statement the head and that batch's rows; a listed column without values raises `IndexError` with nothing executed; the base class raises `NotImplementedError` (same algorithm in databases/sqlite.py:17-72) |
| `Adapters.SqlDatabase.Flush` | databases/postgresql.py:72-76 | Replacing the pending statement's last comma by `;`, executing and committing appends exactly one batch's pair to the log |
| `Adapters.SqlDatabase.InsertRows` | databases/postgresql.py:66-91 | The insertion loop logs the flushes of `Batching.Batches` of the row texts, or raises `IndexError` at row 0 with nothing logged |
| `Adapters.BatchLogAppend` | databases/postgresql.py:74-75 | One more batch adds its statement and then a commit to the log |
| `Adapters.AppendPending` | databases/postgresql.py:71 | Appending a row and a comma to the pending statement extends its list of rows |
| `Adapters.FlushedStatement` | databases/postgresql.py:73 | `mut_query[:-1] + ';'` is the head, the rows separated by commas, and `;` |
| `Adapters.ListsFullOrEmpty` | databases/postgresql.py:39-64 | Every list of `column_data` holds all n values or none, so indexing fails for some row iff it fails for row 0 |
| `Adapters.IntColumnIsRowNumbers` | databases/postgresql.py:39-41 | An int column holds 1, 2, ..., n in order |
| `Adapters.ColumnFilledIffGenerated` | databases/sqlite.py:28-36 | With n > 0 a column has values iff its type has a branch in the dialect, and then exactly n |
| `Adapters.GeneratedIntegersPositive` | databases/postgresql.py:39-41 | Every generated integer is positive |
| `Adapters.DialectsAgree` | databases/sqlite.py:31-36 | Both dialects generate the same values for int, text and char(16) |
| `Adapters.DialectSpecificTypes` | databases/sqlite.py:33 | char(36) has a branch only on SQLite; geometry, bytea and uuid only on PostgreSQL; the base class generates nothing |
| `Adapters.SharedColumnsEqual` | databases/postgresql.py:63-64 | When type3 == type2, col3's list is col2's list (likewise databases/sqlite.py:41-42) |
| `Adapters.UnsharedColumns` | databases/postgresql.py:37-58 | Without sharing, every column's list is generated from its own type |
| `Adapters.GeneratedTypesInsert` | databases/postgresql.py:37-78 | When every listed column's type has a branch in the dialect, every row has all its values, so the insertion never raises `IndexError` |
| `Adapters.IndexErrorExactly` | databases/sqlite.py:44-69 | The insertion raises `IndexError` iff there are rows to insert and some listed column got no values |
| `Adapters.BatchLogShape` | databases/postgresql.py:74-75 | The log of a batching alternates statement and commit: the k-th statement is batch k's, and each is followed by a commit |
| `Adapters.InsertStatementCount` | databases/postgresql.py:70-76 | n rows execute no statement for n = 0, one up to 501 rows, then one more per started 500 rows |
| `Adapters.ChunkCount` | databases/postgresql.py:72 | Chunks of 500 of s rows number ceil(s / 500) |
| `Batching.BatchesFromStep` | databases/postgresql.py:70-76 | One loop iteration either flushes the pending rows plus the current one or keeps the current one pending |
| `Batching.LaterBatches` | databases/postgresql.py:72 | After row 500 the loop flushes consecutive chunks of 500 rows and a shorter last one |
| `Batching.FirstBatch` | databases/postgresql.py:72 | Up to row 500 the pending rows are the first rows, and the loop's batches are the reference batches |
| `Batching.BatchesAreReference` | databases/postgresql.py:72 | The loop's batches are a first batch of up to 501 rows followed by chunks of 500 |
| `Batching.ChunksFlatten` | databases/postgresql.py:72 | Chunks concatenate back to the sequence and each has between 1 and `size` elements |
| `Batching.EveryRowOnceInOrder` | databases/postgresql.py:70-76 | The executed batches, concatenated, are exactly the rows: each row once, in order |
| `Batching.BatchSizes` | databases/postgresql.py:72 | No batch iff no rows; the first batch holds min(n, 501) rows; no batch is empty; each later batch holds at most 500 |
| `Reports.SelectFields` | analyzer.py:12-21 | `SelectSection.__dict__` has the eight keys in declaration order |
| `Reports.JoinFields` | analyzer.py:24-35 | `JoinSection.__dict__` has the ten keys in declaration order |
| `Reports.IdFields` | analyzer.py:38-43 | `IdSection.__dict__` has the four keys in declaration order |
| `Reports.Serialize` | analyzer.py:256 | The document exists iff the report has an id section; otherwise `AttributeError`; it has the three sections `selects`, `joins`, `ids` |
| `Reports.LookupFinds` | analyzer.py:256 | In an object with distinct keys, looking up the i-th key finds the i-th value |
| `Reports.LookupAll` | analyzer.py:256 | The same, for every key at once |
| `Reports.SelectLookups` | analyzer.py:12-21 | Each select field is found under its own key |
| `Reports.SelectsRoundTrip` | analyzer.py:12-21 | Parsing the serialised select section gives it back |
| `Reports.JoinLookups` | analyzer.py:24-35 | Each join field is found under its own key |
| `Reports.JoinsRoundTrip` | analyzer.py:24-35 | Parsing the serialised join section gives it back |
| `Reports.IdsRoundTrip` | analyzer.py:38-43 | Parsing the serialised id section gives it back |
| `Reports.SerializeRoundTrip` | analyzer.py:256 | A report with an id section serialises, and parsing the document gives the report back |
| `Reports.NullFields` | analyzer.py:256 | Each of the fourteen optional fields (selects 4-7, joins 4-9, ids 0-3) is `null` exactly when the report's field is `None`; the always-present timings are never `null` |
| `Analysis.Database.constructor` | analyzer.py:55-56 | The abstract database starts with an empty call record |
| `Analysis.Database.InsertDummyData` | analyzer.py:114-115 | An `insert_dummy_data` call is recorded, with its arguments, at the end |
| `Analysis.Database.CreateIndex` | analyzer.py:116 | A `create_index` call is recorded at the end |
| `Analysis.Database.TimeQuery` | analyzer.py:127-128 | A `time_query` call is recorded, and returns the reading for its position |
| `Analysis.Database.ClearTable` | analyzer.py:149 | A `clear_table` call is recorded at the end |
| `Analysis.IdTables` | analyzer.py:66-75 | Every id table has an identifier type `generate_id_query` knows |
| `Analysis.Find` | analyzer.py:161-162 | `tables[name]` finds the table of that name, or raises `KeyError` when no table has it |
| `Analysis.PairCalls` | analyzer.py:126-128 | A timing loop of k rounds over two queries makes 2k calls |
| `Analysis.PairReadings` | analyzer.py:126-128 | One of the two queries of such a loop has k readings |
| `Analysis.Readings` | analyzer.py:233-234 | A timing loop of k rounds over one query has k readings |
| `Analysis.TableQueries` | analyzer.py:112 | A table's queries exist iff its column types match and are recognised; then 4 of them; otherwise `TypeError` |
| `Analysis.RepetitionCalls` | analyzer.py:114-149 | A repetition makes 3 + 2 * trials + 2 * join trials calls |
| `Analysis.Repetitions` | analyzer.py:108 | i repetitions make i times that many calls |
| `Analysis.Means` | analyzer.py:144-147 | One mean per repetition |
| `Analysis.MeansStep` | analyzer.py:144-147 | One more repetition appends its mean at the end of the series |
| `Analysis.Setup` | analyzer.py:161-166 | The sweep's set-up, when it succeeds, has at least the two queries the sweep times |
| `Analysis.SweepIterationCalls` | analyzer.py:168-192 | A sweep iteration makes 10 calls |
| `Analysis.SweepCalls` | analyzer.py:160-192 | A sweep over k sizes makes 10k calls |
| `Analysis.SweepMeans` | analyzer.py:188-189 | A sweep series has one mean per size |
| `Analysis.ResumeTables` | analyzer.py:97-155 | One iteration of the table loop either ends the loop with its failure or hands the rest to the next iteration |
| `Analysis.MeasureIdsFromStep` | analyzer.py:221-242 | One iteration of the id-table loop, then the rest |
| `Analysis.Get` | analyzer.py:197-200 | `results[name][key]` is its value when both keys are present and raises `KeyError` otherwise |
| `Analysis.GetIfPresent` | analyzer.py:201-204 | `results[name][key] if name in results else None`: `None` iff the table is absent, `KeyError` iff it is present without `key` |
| `Analysis.GetId` | analyzer.py:247-250 | `id_results.get(name)` is `None` iff the name is absent, and its value otherwise |
| `Analysis.IdTimings` | analyzer.py:233-234 | An id repetition times the lookup 100 times |
| `Analysis.IdRepetitionCalls` | analyzer.py:224-241 | An id repetition makes 102 calls |
| `Analysis.Analyzer.constructor` | analyzer.py:55-57 | A new analyzer holds its database and no report |
| `Analysis.Analyzer.TimePair` | analyzer.py:126-128 | Alternates the two queries k times and returns their readings in order |
| `Analysis.Analyzer.TimeRepeated` | analyzer.py:233-234 | Times one query k times and returns its readings in order |
| `Analysis.Analyzer.Repetition` | analyzer.py:114-149 | Insert, index, timings, clear, exactly `RepetitionCalls`; returns the four means of that repetition |
| `Analysis.Analyzer.MeasureTable` | analyzer.py:108-155 | Makes exactly the calls of `TableBlock` and returns its result, `TypeError` included |
| `Analysis.Analyzer.MeasureRepetitions` | analyzer.py:108-155 | The two repetitions, and `results[name]` with one mean per repetition in each series |
| `Analysis.Analyzer.SweepIteration` | analyzer.py:168-192 | One sweep iteration's calls and its two means |
| `Analysis.Analyzer.MeasureSweep` | analyzer.py:157-194 | Makes exactly the calls of `Sweep` and returns its result, `ValueError` for a zero step included |
| `Analysis.Analyzer.SweepLoop` | analyzer.py:160-192 | The iterations over `sizes` and the two series of one mean per size |
| `Analysis.Analyzer.TableIteration` | analyzer.py:97-194 | One table-loop iteration does what `TableDelta` says |
| `Analysis.Analyzer.AdvanceTables` | analyzer.py:97-194 | An iteration seen from the loop: it ends the loop with its failure or leaves a loop that ends in the same place |
| `Analysis.Analyzer.MeasureAllTables` | analyzer.py:96-194 | The table loop makes the calls of `MeasureTables` and returns its results and failure |
| `Analysis.Analyzer.MeasureIdTable` | analyzer.py:221-242 | Makes exactly the calls of `IdBlock` and returns its result |
| `Analysis.Analyzer.MeasureAllIds` | analyzer.py:220-242 | The id-table loop makes the calls of `MeasureIds` and returns its results and failure |
| `Analysis.Analyzer.RunAnalysis` | analyzer.py:59-258 | The calls, the assigned report and the returned value or exception are those of `Run` |
| `Runs.TableNames` | analyzer.py:104 | Which table names contain `point` and `poly` |
| `Runs.TableSelection` | analyzer.py:60-91 | int_test then str_test always; point_test and poly_test iff geospatial on PostgreSQL or MySQL; string type `text` on PostgreSQL, `char(36)` elsewhere; every table well-formed with an int id |
| `Runs.TableRoles` | analyzer.py:104-157 | Only point_test starts the sweep; exactly point_test and poly_test are geospatial |
| `Runs.RepetitionProtocol` | analyzer.py:114-149 | A repetition loads i rows, indexes with the geospatial flag, alternates the where-queries (10 or 100 rounds) and the joins (2 or 10), then clears the table dropping its index |
| `Runs.TableBlockShape` | analyzer.py:108-155 | Two repetitions, loading 0 then 1 rows, whatever the run's parameters; the four series have two entries each |
| `Runs.PyRangeValues` | analyzer.py:160 | `range(start, stop, step)` holds start, start + step, ..., all below stop, as many as reach it |
| `Runs.SweepStepZero` | analyzer.py:160 | The sweep step is zero iff start is in 19991..20000 |
| `Runs.SweepZeroStep` | analyzer.py:160 | A zero step raises `ValueError` before any sweep call |
| `Runs.SweepSizes` | analyzer.py:160 | For start up to 19990, at least ten sizes rising by the step from start; exactly ten for start = 100 |
| `Runs.ShapeLookups` | analyzer.py:161-162 | The sweep finds point_test and poly_test as the third and fourth tables |
| `Runs.ShapeSetup` | analyzer.py:161-166 | The sweep set-up succeeds: two containment joins on PostgreSQL; on MySQL the fall-through to point_test's four single-table queries |
| `Runs.ShapeSweep` | analyzer.py:160-194 | With a non-zero step the sweep makes one iteration per size and yields one mean per size in each series |
| `Runs.SweepOk` | analyzer.py:160-194 | The same, for any tables whose set-up succeeds |
| `Runs.PlainDelta` | analyzer.py:97-155 | The iteration for a well-formed non-point table stores its result and does not fail |
| `Runs.PlainTablesLoop` | analyzer.py:97-155 | Without geospatial tables, the loop measures int_test then str_test and stores both |
| `Runs.PointDelta` | analyzer.py:150-194 | The point_test iteration stores its result, then runs the sweep, whose failure ends the loop and whose series go under `point_poly_test` |
| `Runs.PointStep` | analyzer.py:150-194 | With a non-zero step, the point_test iteration's calls and results |
| `Runs.ThirdStepFails` | analyzer.py:97 | A failure in the third iteration ends the loop there |
| `Runs.PlainPrefix` | analyzer.py:97-155 | The first two iterations of a geospatial run measure the plain tables without failure |
| `Runs.ShapedLoopZeroStep` | analyzer.py:97-194 | A zero sweep step ends the loop after point_test with `ValueError` |
| `Runs.ThroughPlain` | analyzer.py:97-155 | After the plain tables the loop resumes at point_test |
| `Runs.ThroughSweep` | analyzer.py:150-194 | After point_test and the sweep the loop resumes at poly_test |
| `Runs.LastTable` | analyzer.py:97-155 | poly_test is measured last and ends the loop |
| `Runs.ShapedLoopSweep` | analyzer.py:97-194 | With a non-zero step all four tables are measured, the sweep after point_test and poly_test last |
| `Runs.ShapeTablesLoop` | analyzer.py:97-194 | The table loop of a geospatial PostgreSQL or MySQL run, in both the zero-step and non-zero-step cases |
| `Runs.IdBlockShape` | analyzer.py:220-242 | An id table: insert i rows, 100 timed lookups, clear without an index, twice; two entries, each the mean of 100 readings |
| `Runs.IdBlockUnknown` | analyzer.py:224-227 | An unknown identifier type raises `TypeError` right after the first load |
| `Runs.IdStepOk` | analyzer.py:221-242 | A known id table adds its two repetitions and stores its series under its name |
| `Runs.IdLoopCalls` | analyzer.py:221-242 | With known types the id-table loop runs every table, each adding its repetitions after the calls so far |
| `Runs.NamesFromHas` | analyzer.py:221 | The set of remaining names is exactly the names of the remaining tables |
| `Runs.IdLoopResults` | analyzer.py:221-242 | With distinct names, each id table's series is stored under its name at the position its repetitions start, and nothing else changes |
| `Runs.IdSeriesAt` | analyzer.py:221-242 | For 2 to 4 id tables, which names are stored and where each table's series comes from |
| `Runs.IdSectionAt` | analyzer.py:244-251 | The id section of a loop over char, int and optionally uuid and binary tables |
| `Runs.IdLoop` | analyzer.py:66-75 | With `ids`: 4 id tables on PostgreSQL, 3 on MySQL, 2 on SQLite; `uuid` and `binary` are `None` where the backend has no such table |
| `Runs.NoIdTables` | analyzer.py:66 | Without `ids`, no id table and no call |
| `Runs.SectionsBuilt` | analyzer.py:196-218 | The sections are built iff every required series is present (else `KeyError`); each optional field is `None` iff its table is absent |
| `Runs.PlainSections` | analyzer.py:196-218 | The sections of a run with only the plain tables, and all geospatial fields `None` |
| `Runs.ShapedSections` | analyzer.py:196-218 | The sections of a run with all four tables and the sweep, every field filled |
| `Runs.RunTablesHaveValues` | analyzer.py:114-115 | On PostgreSQL and SQLite every table's and id table's insertion has a value for every row, so the adapter never raises `IndexError`; no SQLite table is geospatial, so its `create_index` never raises `TypeError` |
| `Runs.RunOutcomes` | analyzer.py:93-256 | `num_points == 0` raises `ZeroDivisionError` before any call; an assigned report has an id section iff `ids`, and is returned iff `ids`, else `AttributeError` |
| `Runs.RunReaches` | analyzer.py:196-256 | A run whose loops complete assigns the report built from their results |
| `Runs.PlainRunTables` | analyzer.py:97-218 | Without geospatial tables, the loop completes with 4 repetitions and yields the sections of `PlainReport` |
| `Runs.RunWithoutShapes` | analyzer.py:59-256 | A run without geospatial tables assigns the report of measured means, geospatial fields `None`, with its exact number of calls |
| `Runs.RunZeroSweepStep` | analyzer.py:157-194 | A geospatial run with a zero step raises `ValueError` after three tables, before any report |
| `Runs.ShapedRunTables` | analyzer.py:97-218 | With a non-zero step, the loop completes after four tables and the sweep and yields the sections of `ShapedReport` |
| `Runs.RunWithShapes` | analyzer.py:59-256 | A geospatial PostgreSQL or MySQL run with a non-zero step assigns a report with every field filled, with its exact number of calls |
| `Csv.Numbers` | to_csv.py:13 | `v2` as items, element by element |
| `Csv.Texts` | to_csv.py:18-19 | `str(item)` for each item of a row, in order |
| `Csv.JsonToCsv` | to_csv.py:5-21 | The text written is `Render` of the flattened document; a `null` section raises `AttributeError` |
| `Csv.CollectRows` | to_csv.py:10-13 | The first loop builds `Flatten(d)`; its only exception is `AttributeError`; every row has at least two items |
| `Csv.AppendFieldRows` | to_csv.py:11-13 | The inner loop appends exactly the rows of the section's non-null fields |
| `Csv.FormatRows` | to_csv.py:16-20 | The second loop builds the lines of the rows, in order |
| `Csv.WriteRow` | to_csv.py:18-20 | One row's items and commas, with the last comma replaced by a newline, is that row's line |
| `Csv.ItemStep` | to_csv.py:18-19 | One more item adds its text and a comma |
| `Csv.RowStep` | to_csv.py:17-20 | One more row adds its line |
| `Csv.TrimLastComma` | to_csv.py:20 | `out[:-1]` after a row drops exactly the comma after its last item |
| `Csv.FlattenRaises` | to_csv.py:10-11 | The flatten can only raise `AttributeError` |
| `Csv.FlattenFails` | to_csv.py:10-11 | A `null` section anywhere raises `AttributeError` |
| `Csv.FlattenSucceeds` | to_csv.py:10-13 | The flatten succeeds iff no section is `null` |
| `Csv.Present` | to_csv.py:12 | The kept fields are all non-null |
| `Csv.PresentKeeps` | to_csv.py:12 | A field is kept iff it is a field with a non-null value |
| `Csv.FieldRowsOfPresent` | to_csv.py:11-13 | A section has one row `[k, k2] + v2` per non-null field, in order |
| `Csv.RowCount` | to_csv.py:10-13 | The number of rows is the number of non-null fields of the document |
| `Csv.AllNullIsEmpty` | to_csv.py:10-21 | When every field is `null`, there are no rows and the output is empty |
| `Csv.NullFieldsNoRows` | to_csv.py:12 | A section whose fields are all `null` adds no row |
| `Csv.RowsStartWithKeys` | to_csv.py:13 | Every row starts with the section key and the field key |
| `Csv.OneLinePerRow` | to_csv.py:16-21 | With no newline in a key or a printed number, the output has one line per row |
| `Csv.JoinCount` | to_csv.py:18-20 | The comma join of n comma-free items holds n - 1 commas |
| `Csv.LineCommas` | to_csv.py:18-20 | A line has one comma fewer than its row has items, none leading or trailing, and ends in a newline |
| `Csv.JoinEnds` | to_csv.py:18-20 | A join of non-empty items neither starts nor ends with the separator |
| `Csv.ReportFlattens` | analyzer.py:256 | A document written from a report has no `null` section, so it always flattens |

## Left out

- Wall-clock time: the adapter's `time_query` takes its two clock readings as parameters. The analyzer's timings are the oracle `stopwatch`, a function from call position to a non-negative real. Means are real division, not floating point.
- Randomness: `random.choices` is a choice function. The geometry literals built from `random.uniform` (databases/postgresql.py:44-52) are opaque oracle strings.
- The driver: connecting, executing SQL and its results. The adapter keeps a log of executes, fetches and commits; the analyzer keeps a record of interface calls.
- `json.dumps` text, indentation and file reads and writes (analyzer.py:255-256, to_csv.py:7-8, 15, 21), and the module-level calls at to_csv.py:24-26. The JSON document is modelled as ordered sections of ordered fields.
- All progress `print`s and the `time.time()` calls around them.
- `str()` of a float in the CSV output: the parameter `show`.
- main.py is not part of this model: it is configuration only.
- databases/mysql.py is not part of this model. Only the MySQL backend's identity matters, through the table and id-table choices.
- The analyzer's database (`Analysis.Database`) records each call and never fails, so the run assumes that every `insert_dummy_data`, `create_index`, `time_query` and `clear_table` call succeeds. The adapters it stands for can raise `IndexError`, `TypeError`, `AttributeError` and `NotImplementedError`. For the run's own tables on PostgreSQL and SQLite, `Runs.RunTablesHaveValues` shows the first two never arise: every column type `Tables` and `IdTables` give those backends has a branch in the dialect, and no SQLite table is geospatial. The other two arise only in the base class, which has no cursor. MySQL's adapter is not part of this model, so this is not shown for MySQL. Errors the database server itself could report are not modelled.
- The analyzer reads `data.keys()` to find the `ndx` and `plain` columns and skips entries that do not have three keys (analyzer.py:98, 109-111). Every table is a `TableDef` record with those columns named, so that search and the length check are not modelled. The sweep reads `data_point['pt_plain']`, `['pt_ndx']`, `data_poly['poly_plain']` and `['poly_ndx']` by key (analyzer.py:161-171); the model reads the `TableDef` types instead. The two agree on the run's own tables, but for arbitrary tables (`Runs.SweepOk`) the `KeyError` of a differently named column is not modelled.
- `stop`, `stop_small`, `step`, `step_small`, `real_stop` and `real_step` (analyzer.py:93-94, 106-107) are computed but never used. Only the `ZeroDivisionError` of `num_points == 0` is kept.
- `generate_queries` and `generate_id_query` are called inside the loops at analyzer.py:112, 163 and 227. They are pure, so the model calls them once per table or sweep; the calls made and the results are the same. The one thing kept is that an unknown identifier type fails after the first load.
- Runs.ShapeSetup: states that PostgreSQL's sweep queries are the cross-table case, with two of them, but not their text; `Utils.CrossTableQueries` spells the text out.
- Csv.LineCommas: requires every text to be non-empty and comma-free, because a printed number or key with a comma makes the count meaningless.
- Csv.JoinEnds: requires non-empty items without the separator, because an empty first or last item, or one holding a comma, makes the join start or end with the separator.
- Csv.FormatRows: requires every row to have at least one item. Every row the first loop builds has at least two (`Csv.CollectRows`), so the case where `out[:-1]` would eat the previous newline never arises. The same applies to Csv.WriteRow.
- Csv.OneLinePerRow: requires that no text holds a newline; a key with a newline would add lines.
