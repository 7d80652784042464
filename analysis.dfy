/** `Analyzer.run_analysis` of analyzer.py, run against an abstract database:
    the database records every call made on it, and `time_query` returns a
    reading taken from a stopwatch oracle, indexed by the call's position in
    that record. The specification functions below say, block by block, which
    calls a run makes and which numbers it reports; the methods of `Analyzer`
    mirror the source loops and are proved to make exactly those calls. */
module Analysis {
  import opened Outcomes
  import opened SqlTypes
  import opened Reports
  import Utils
  import Strings

  datatype Backend = PostgresBackend | MySqlBackend | SqliteBackend

  /** A duration returned by `time_query`. */
  type Seconds = r: real | 0.0 <= r

  /** A call on the database interface. */
  datatype Call =
    | InsertCall(table: string, n: int, col1: string, type1: string, col2: string, type2: string,
                 col3: Option<string>, type3: Option<string>)
    | CreateIndexCall(table: string, index: string, column: string, geospatial: bool)
    | TimeQueryCall(query: string, readOnly: bool)
    | ClearTableCall(table: string, dropIndex: Option<string>)

  /** The database the analyzer drives: which backend it is, and the record
      of the calls made on it. */
  class Database {
    const backend: Backend
    /** The reading `time_query` returns when it is the call at a given
        position of the record. */
    const stopwatch: nat -> Seconds
    var calls: seq<Call>

    constructor (backend: Backend, stopwatch: nat -> Seconds)
      ensures this.backend == backend && this.stopwatch == stopwatch && calls == []
    {
      this.backend := backend;
      this.stopwatch := stopwatch;
      calls := [];
    }

    method InsertDummyData(table: string, n: int, col1: string, type1: string, col2: string, type2: string,
                           col3: Option<string>, type3: Option<string>)
      modifies this`calls
      ensures calls == old(calls) + [InsertCall(table, n, col1, type1, col2, type2, col3, type3)]
    {
      calls := calls + [InsertCall(table, n, col1, type1, col2, type2, col3, type3)];
    }

    method CreateIndex(table: string, index: string, column: string, geospatial: bool)
      modifies this`calls
      ensures calls == old(calls) + [CreateIndexCall(table, index, column, geospatial)]
    {
      calls := calls + [CreateIndexCall(table, index, column, geospatial)];
    }

    method TimeQuery(query: string, readOnly: bool) returns (t: Seconds)
      modifies this`calls
      ensures t == stopwatch(|old(calls)|)
      ensures calls == old(calls) + [TimeQueryCall(query, readOnly)]
    {
      t := stopwatch(|calls|);
      calls := calls + [TimeQueryCall(query, readOnly)];
    }

    method ClearTable(table: string, index: Option<string>)
      modifies this`calls
      ensures calls == old(calls) + [ClearTableCall(table, index)]
    {
      calls := calls + [ClearTableCall(table, index)];
    }
  }

  // ---------------------------------------------------------------------------
  // Tables

  /** One entry of the `tables` dictionary: a table with an `id` column, a
      plain column and an indexed column. */
  datatype TableDef = TableDef(name: string, idType: string, plain: string, plainType: string,
                               ndx: string, ndxType: string)

  /** One entry of `id_tables`: a table keyed by `id`, with an int `num` column. */
  datatype IdTable = IdTable(name: string, idType: string)

  /** The table's plain and indexed columns share a type `generate_queries` knows. */
  predicate WellFormed(t: TableDef)
  {
    t.plainType == t.ndxType && Utils.IsPairType(t.plainType)
  }

  /** `table_geospatial`: the table name mentions a point or a polygon. */
  predicate TableGeospatial(name: string)
  {
    Strings.Contains(name, "point") || Strings.Contains(name, "poly")
  }

  /** `text_type`: `text` on PostgreSQL, `char(36)` elsewhere. */
  function TextType(b: Backend): string
  {
    if b == PostgresBackend then Text else Char36
  }

  /** `tables`, in insertion order. */
  function Tables(b: Backend, geospatial: bool): seq<TableDef>
  {
    var base := [TableDef("int_test", Int, "int_plain", Int, "int_ndx", Int),
                 TableDef("str_test", Int, "str_plain", TextType(b), "str_ndx", TextType(b))];
    if geospatial && b == PostgresBackend then
      base + [TableDef("point_test", Int, "pt_plain", PgPoint, "pt_ndx", PgPoint),
              TableDef("poly_test", Int, "poly_plain", PgPolygon, "poly_ndx", PgPolygon)]
    else if geospatial && b == MySqlBackend then
      base + [TableDef("point_test", Int, "pt_plain", MyPoint, "pt_ndx", MyPoint),
              TableDef("poly_test", Int, "poly_plain", MyPolygon, "poly_ndx", MyPolygon)]
    else base
  }

  /** `id_tables`, in insertion order. */
  function IdTables(b: Backend, ids: bool): (ts: seq<IdTable>)
    ensures forall i :: 0 <= i < |ts| ==> Utils.IsIdType(ts[i].idType)
  {
    if !ids then []
    else
      [IdTable("id_test_char", Char16), IdTable("id_test_int", Int)]
      + if b == PostgresBackend then [IdTable("id_test_uuid", Uuid), IdTable("id_test_binary", Bytea)]
        else if b == MySqlBackend then [IdTable("id_test_uuid", Binary16)]
        else []
  }

  /** `tables[name]`. */
  function Find(tables: seq<TableDef>, name: string): (r: Result<TableDef>)
    ensures r.Ok? ==> r.value in tables && r.value.name == name
    ensures r.Err? ==> r.error == KeyError && forall t :: t in tables ==> t.name != name
  {
    if |tables| == 0 then Err(KeyError)
    else if tables[0].name == name then Ok(tables[0])
    else Find(tables[1..], name)
  }

  // ---------------------------------------------------------------------------
  // Timing loops

  function NumTrials(geo: bool): nat
  {
    if geo then 10 else 100
  }

  function NumJoinTrials(geo: bool): nat
  {
    if geo then 2 else 10
  }

  /** The calls of a loop of k rounds that each time `q1`, then `q2`. */
  function PairCalls(q1: string, q2: string, k: nat): (cs: seq<Call>)
    ensures |cs| == 2 * k
  {
    seq(2 * k, i requires 0 <= i < 2 * k => TimeQueryCall(if i % 2 == 0 then q1 else q2, false))
  }

  /** The readings of the first (`offset` 0) or second (`offset` 1) query of
      such a loop whose first call is at position `p`. */
  function PairReadings(sw: nat -> Seconds, p: nat, k: nat, offset: nat): (rs: seq<Seconds>)
    ensures |rs| == k
  {
    seq(k, j requires 0 <= j < k => sw(p + 2 * j + offset))
  }

  /** The readings of k consecutive timings starting at position `p`. */
  function Readings(sw: nat -> Seconds, p: nat, k: nat): (rs: seq<Seconds>)
    ensures |rs| == k
  {
    seq(k, j requires 0 <= j < k => sw(p + j))
  }

  /** Python's `sum`. */
  function Sum(xs: seq<real>): real
  {
    if |xs| == 0 then 0.0 else Sum(xs[..|xs| - 1]) + xs[|xs| - 1]
  }

  /** `sum(trials) / num_trials` for a loop of `num_trials` rounds. */
  function Mean(xs: seq<real>): real
    requires |xs| > 0
  {
    Sum(xs) / (|xs| as real)
  }

  // ---------------------------------------------------------------------------
  // One measured table

  /** `generate_queries` for a table: where-queries on the plain and the
      indexed column, then self-joins on each. */
  function TableQueries(t: TableDef): (r: Result<seq<string>>)
    ensures r.Ok? <==> WellFormed(t)
    ensures r.Ok? ==> |r.value| == 4
    ensures r.Err? ==> r.error == TypeError
  {
    Utils.GenerateSingleTableQueries(t.name, t.plain, t.plainType, t.ndx, t.ndxType)
  }

  function RepetitionLength(geo: bool): nat
  {
    3 + 2 * NumTrials(geo) + 2 * NumJoinTrials(geo)
  }

  /** Repetition i of a table with queries q: load i rows, index the indexed
      column, time the where-queries and then the joins, clear the table and
      drop the index. */
  function RepetitionCalls(t: TableDef, q: seq<string>, i: nat): (cs: seq<Call>)
    requires |q| == 4
    ensures |cs| == RepetitionLength(TableGeospatial(t.name))
  {
    var geo := TableGeospatial(t.name);
    [InsertCall(t.name, i, "id", t.idType, t.plain, t.plainType, Some(t.ndx), Some(t.ndxType))]
    + [CreateIndexCall(t.name, t.ndx, t.ndx, geo)]
    + PairCalls(q[0], q[1], NumTrials(geo))
    + PairCalls(q[2], q[3], NumJoinTrials(geo))
    + [ClearTableCall(t.name, Some(t.ndx))]
  }

  /** The calls of the first i repetitions. */
  function Repetitions(t: TableDef, q: seq<string>, i: nat): (cs: seq<Call>)
    requires |q| == 4
    ensures |cs| == i * RepetitionLength(TableGeospatial(t.name))
  {
    if i == 0 then [] else Repetitions(t, q, i - 1) + RepetitionCalls(t, q, i - 1)
  }

  /** The mean of the where-query (`join` false) or join (`join` true)
      timings, plain (`offset` 0) or indexed (`offset` 1), of a repetition
      whose first call is at position `s`. */
  function RepetitionMean(sw: nat -> Seconds, s: nat, geo: bool, join: bool, offset: nat): real
  {
    if join then Mean(PairReadings(sw, s + 2 + 2 * NumTrials(geo), NumJoinTrials(geo), offset))
    else Mean(PairReadings(sw, s + 2, NumTrials(geo), offset))
  }

  /** Those means over the first `count` repetitions of a table whose calls
      start at position `p`. */
  function Means(sw: nat -> Seconds, p: nat, geo: bool, count: nat, join: bool, offset: nat): (ms: seq<real>)
    ensures |ms| == count
  {
    seq(count, r requires 0 <= r < count => RepetitionMean(sw, p + r * RepetitionLength(geo), geo, join, offset))
  }

  /** `results[name]` for a table whose calls start at position `p`. */
  function TableResult(t: TableDef, sw: nat -> Seconds, p: nat): map<string, seq<real>>
  {
    var geo := TableGeospatial(t.name);
    map["plain" := Means(sw, p, geo, 2, false, 0), "ndx" := Means(sw, p, geo, 2, false, 1),
        "join_plain" := Means(sw, p, geo, 2, true, 0), "join_ndx" := Means(sw, p, geo, 2, true, 1)]
  }

  /** The calls of a block of measurements and its result. */
  datatype Block<T> = Block(calls: seq<Call>, result: Result<T>)

  /** Measuring one table from position `p`: two repetitions, or a `TypeError`
      from `generate_queries` before the first call. */
  function TableBlock(t: TableDef, sw: nat -> Seconds, p: nat): Block<map<string, seq<real>>>
  {
    match TableQueries(t)
    case Err(e) => Block([], Err(e))
    case Ok(q) => Block(Repetitions(t, q, 2), Ok(TableResult(t, sw, p)))
  }

  // ---------------------------------------------------------------------------
  // The point/polygon sweep

  /** Python's `range(start, stop, step)` for a non-zero step. */
  function PyRange(start: int, stop: int, step: int): seq<int>
    requires step != 0
    decreases if step > 0 then stop - start else start - stop
  {
    if (step > 0 && start >= stop) || (step < 0 && start <= stop) then []
    else [start] + PyRange(start + step, stop, step)
  }

  /** `(20000 - start) // 10`; Dafny's division by a positive divisor rounds
      down like Python's `//`. */
  function SweepStep(start: int): int
  {
    (20000 - start) / 10
  }

  /** What one sweep iteration needs: the point and polygon tables and the
      queries comparing them. */
  datatype SweepSetup = SweepSetup(point: TableDef, poly: TableDef, queries: seq<string>)

  function SweepQueries(point: TableDef, poly: TableDef): Result<seq<string>>
  {
    Utils.GenerateQueries("point_test", "pt_plain", point.plainType, "pt_ndx", point.ndxType,
                          Some("poly_test"), Some("poly_plain"), Some(poly.plainType),
                          Some("poly_ndx"), Some(poly.ndxType))
  }

  /** The lookups and the `generate_queries` call at the top of an iteration. */
  function Setup(tables: seq<TableDef>): (r: Result<SweepSetup>)
    ensures r.Ok? ==> |r.value.queries| >= 2
  {
    var point :- Find(tables, "point_test");
    var poly :- Find(tables, "poly_test");
    var queries :- SweepQueries(point, poly);
    Ok(SweepSetup(point, poly, queries))
  }

  /** One iteration: load `i` rows into both tables and index them, time the
      first two queries twice, clear both tables and drop their indexes. */
  function SweepIterationCalls(s: SweepSetup, i: int): (cs: seq<Call>)
    requires |s.queries| >= 2
    ensures |cs| == 10
  {
    [InsertCall("point_test", i, "id", Int, "pt_plain", s.point.plainType, Some("pt_ndx"), Some(s.point.ndxType))]
    + [CreateIndexCall("point_test", "pt_ndx", "pt_ndx", true)]
    + [InsertCall("poly_test", i, "id", Int, "poly_plain", s.poly.plainType, Some("poly_ndx"), Some(s.poly.ndxType))]
    + [CreateIndexCall("poly_test", "poly_ndx", "poly_ndx", true)]
    + PairCalls(s.queries[0], s.queries[1], 2)
    + [ClearTableCall("point_test", Some("pt_ndx"))]
    + [ClearTableCall("poly_test", Some("poly_ndx"))]
  }

  /** The calls of the iterations over `sizes`. */
  function SweepCalls(s: SweepSetup, sizes: seq<int>): (cs: seq<Call>)
    requires |s.queries| >= 2
    ensures |cs| == 10 * |sizes|
  {
    if |sizes| == 0 then []
    else SweepCalls(s, sizes[..|sizes| - 1]) + SweepIterationCalls(s, sizes[|sizes| - 1])
  }

  /** The means of the first `count` iterations' plain (`offset` 0) or indexed
      (`offset` 1) timings, for a sweep starting at position `p`. */
  function SweepMeans(sw: nat -> Seconds, p: nat, count: nat, offset: nat): (ms: seq<real>)
    ensures |ms| == count
  {
    seq(count, k requires 0 <= k < count => Mean(PairReadings(sw, p + 10 * k + 4, 2, offset)))
  }

  /** `results['point_poly_test']` for a sweep of `count` sizes starting at position `p`. */
  function SweepResult(sw: nat -> Seconds, p: nat, count: nat): map<string, seq<real>>
  {
    map["join_plain" := SweepMeans(sw, p, count, 0), "join_ndx" := SweepMeans(sw, p, count, 1)]
  }

  /** The sweep started at position `p`: `range` rejects a zero step with
      `ValueError`; a failing set-up raises before the first call; an empty
      range makes no call and yields empty series. */
  function Sweep(tables: seq<TableDef>, start: int, sw: nat -> Seconds, p: nat): Block<map<string, seq<real>>>
  {
    var step := SweepStep(start);
    if step == 0 then Block([], Err(ValueError))
    else
      var sizes := PyRange(start, 20000, step);
      if |sizes| == 0 then Block([], Ok(SweepResult(sw, p, 0)))
      else match Setup(tables)
        case Err(e) => Block([], Err(e))
        case Ok(s) => Block(SweepCalls(s, sizes), Ok(SweepResult(sw, p, |sizes|)))
  }

  // ---------------------------------------------------------------------------
  // The table loop

  type Results = map<string, map<string, seq<real>>>

  datatype Progress = Progress(calls: seq<Call>, results: Results, failure: Option<Exception>)

  /** What one iteration of the table loop adds, for table `t`, with the
      results so far and its first call at position `s`: measure the table,
      then run the sweep right after a table whose name mentions a point. */
  function TableDelta(tables: seq<TableDef>, t: TableDef, results: Results, start: int, sw: nat -> Seconds, s: nat): Progress
  {
    var b := TableBlock(t, sw, s);
    match b.result
    case Err(e) => Progress(b.calls, results, Some(e))
    case Ok(res) =>
      if !Strings.Contains(t.name, "point") then Progress(b.calls, results[t.name := res], None)
      else
        var sweep := Sweep(tables, start, sw, s + |b.calls|);
        match sweep.result
        case Err(e) => Progress(b.calls + sweep.calls, results[t.name := res], Some(e))
        case Ok(pp) => Progress(b.calls + sweep.calls, results[t.name := res]["point_poly_test" := pp], None)
  }

  /** An iteration of the table loop as a function of its table, the results
      so far and the position of its first call. */
  type TableStepFn = (TableDef, Results, nat) -> Progress

  /** The iteration of `run_analysis`'s table loop. */
  function TableStep(tables: seq<TableDef>, start: int, sw: nat -> Seconds): TableStepFn
  {
    (t: TableDef, r: Results, s: nat) => TableDelta(tables, t, r, start, sw, s)
  }

  /** The table loop from iteration k on, after the calls `done` of the earlier
      iterations and the `results` they gathered, in a loop whose first call
      was at position `p`; the first failure ends it. */
  function MeasureTablesFrom(tables: seq<TableDef>, k: nat, done: seq<Call>, results: Results,
                             step: TableStepFn, p: nat): Progress
    requires k <= |tables|
    decreases |tables| - k, 1
  {
    if k == |tables| then Progress(done, results, None)
    else MeasureTableThenRest(tables, k, done, results, step, p)
  }

  /** Iteration k of the table loop, then the iterations after it unless it failed. */
  function MeasureTableThenRest(tables: seq<TableDef>, k: nat, done: seq<Call>, results: Results,
                                step: TableStepFn, p: nat): Progress
    requires k < |tables|
    decreases |tables| - k, 0
  {
    var d := step(tables[k], results, p + |done|);
    if d.failure.Some? then Progress(done + d.calls, d.results, d.failure)
    else MeasureTablesFrom(tables, k + 1, done + d.calls, d.results, step, p)
  }

  /** The whole table loop, whose first call is at position `p`. */
  function MeasureTables(tables: seq<TableDef>, start: int, sw: nat -> Seconds, p: nat): Progress
  {
    MeasureTablesFrom(tables, 0, [], map[], TableStep(tables, start, sw), p)
  }

  /** One step of the table loop: if the loop resumed at iteration k ends in
      `target`, then iteration k, whose first call is at position `s`, either
      ends the loop there with its failure or leaves a loop that, resumed at
      iteration k + 1, ends in `target`. */
  lemma ResumeTables(tables: seq<TableDef>, k: nat, done: seq<Call>, results: Results,
                     step: TableStepFn, p: nat, target: Progress, s: nat)
    requires k < |tables| && s == p + |done|
    requires MeasureTablesFrom(tables, k, done, results, step, p) == target
    ensures var d := step(tables[k], results, s);
            if d.failure.Some? then target == Progress(done + d.calls, d.results, d.failure)
            else MeasureTablesFrom(tables, k + 1, done + d.calls, d.results, step, p) == target
  {
    assert MeasureTablesFrom(tables, k, done, results, step, p)
        == MeasureTableThenRest(tables, k, done, results, step, p);
  }

  // ---------------------------------------------------------------------------
  // Sections

  datatype Sections = Sections(selects: SelectSection, joins: JoinSection)

  /** `results[name][key]`. */
  function Get(results: Results, name: string, key: string): (r: Result<seq<real>>)
    ensures r.Ok? <==> name in results && key in results[name]
    ensures r.Ok? ==> r.value == results[name][key]
    ensures r.Err? ==> r.error == KeyError
  {
    if name in results && key in results[name] then Ok(results[name][key]) else Err(KeyError)
  }

  /** `results[name][key] if name in results else None`. */
  function GetIfPresent(results: Results, name: string, key: string): (r: Result<Option<seq<real>>>)
    ensures r.Ok? <==> name !in results || key in results[name]
    ensures r.Ok? ==> r.value == if name in results then Some(results[name][key]) else None
    ensures r.Err? ==> r.error == KeyError
  {
    if name !in results then Ok(None) else
    var v :- Get(results, name, key);
    Ok(Some(v))
  }

  /** The `SelectSection` and `JoinSection` built from `results`. */
  function BuildSections(results: Results): Result<Sections>
  {
    var strPlain :- Get(results, "str_test", "plain");
    var strNdx :- Get(results, "str_test", "ndx");
    var intPlain :- Get(results, "int_test", "plain");
    var intNdx :- Get(results, "int_test", "ndx");
    var pointPlain :- GetIfPresent(results, "point_test", "plain");
    var pointNdx :- GetIfPresent(results, "point_test", "ndx");
    var polyPlain :- GetIfPresent(results, "poly_test", "plain");
    var polyNdx :- GetIfPresent(results, "poly_test", "ndx");
    var selects := SelectSection(strPlain, strNdx, intPlain, intNdx, pointPlain, pointNdx, polyPlain, polyNdx);
    var strJoinPlain :- Get(results, "str_test", "join_plain");
    var strJoinNdx :- Get(results, "str_test", "join_ndx");
    var intJoinPlain :- Get(results, "int_test", "join_plain");
    var intJoinNdx :- Get(results, "int_test", "join_ndx");
    var pointJoinPlain :- GetIfPresent(results, "point_test", "join_plain");
    var pointJoinNdx :- GetIfPresent(results, "point_test", "join_ndx");
    var polyJoinPlain :- GetIfPresent(results, "poly_test", "join_plain");
    var polyJoinNdx :- GetIfPresent(results, "poly_test", "join_ndx");
    var ppPlain :- GetIfPresent(results, "point_poly_test", "join_plain");
    var ppNdx :- GetIfPresent(results, "point_poly_test", "join_ndx");
    var joins := JoinSection(strJoinPlain, strJoinNdx, intJoinPlain, intJoinNdx, pointJoinPlain, pointJoinNdx,
                             polyJoinPlain, polyJoinNdx, ppPlain, ppNdx);
    Ok(Sections(selects, joins))
  }

  // ---------------------------------------------------------------------------
  // Id tables

  /** `id_results.get(name)`. */
  function GetId(idResults: map<string, seq<real>>, name: string): (r: Option<seq<real>>)
    ensures r.None? <==> name !in idResults
    ensures r.Some? ==> r.value == idResults[name]
  {
    if name in idResults then Some(idResults[name]) else None
  }

  function IdSectionOf(idResults: map<string, seq<real>>): IdSection
  {
    IdSection(GetId(idResults, "id_test_int"), GetId(idResults, "id_test_uuid"),
              GetId(idResults, "id_test_binary"), GetId(idResults, "id_test_char"))
  }

  const IdTrials: nat := 100

  /** The timings of one id repetition: the lookup, 100 times. */
  function IdTimings(query: string): (cs: seq<Call>)
    ensures |cs| == IdTrials
  {
    seq(IdTrials, j requires 0 <= j < IdTrials => TimeQueryCall(query, false))
  }

  /** Repetition i of an id table: load i rows, time the lookup 100 times,
      clear the table without dropping an index. */
  function IdRepetitionCalls(t: IdTable, i: nat, query: string): (cs: seq<Call>)
    ensures |cs| == IdTrials + 2
  {
    [InsertCall(t.name, i, "id", t.idType, "num", Int, None, None)]
    + IdTimings(query)
    + [ClearTableCall(t.name, None)]
  }

  /** The mean lookup time of the id repetition whose first call is at `s`. */
  function IdMean(sw: nat -> Seconds, s: nat): real
  {
    Mean(Readings(sw, s + 1, IdTrials))
  }

  /** The calls of both repetitions of an id table. */
  const IdBlockLength: nat := 2 * (IdTrials + 2)

  /** `id_results[name]` for an id table whose first call is at `p`: one mean per repetition. */
  function IdPoints(sw: nat -> Seconds, p: nat): seq<real>
  {
    [IdMean(sw, p), IdMean(sw, p + IdTrials + 2)]
  }

  /** Both repetitions of an id table, starting at position `p`. The query is
      built after the first load, so an unknown id type fails after it. */
  function IdBlock(t: IdTable, sw: nat -> Seconds, p: nat): Block<seq<real>>
  {
    match Utils.GenerateIdQuery(t.name, t.idType)
    case Err(e) => Block([InsertCall(t.name, 0, "id", t.idType, "num", Int, None, None)], Err(e))
    case Ok(q) => Block(IdRepetitionCalls(t, 0, q) + IdRepetitionCalls(t, 1, q), Ok(IdPoints(sw, p)))
  }

  datatype IdProgress = IdProgress(calls: seq<Call>, results: map<string, seq<real>>, failure: Option<Exception>)

  /** One iteration of the id-table loop for table `t`, after `prev`. */
  function IdStep(t: IdTable, prev: IdProgress, sw: nat -> Seconds, p: nat): IdProgress
  {
    var b := IdBlock(t, sw, p + |prev.calls|);
    match b.result
    case Err(e) => IdProgress(prev.calls + b.calls, prev.results, Some(e))
    case Ok(points) => IdProgress(prev.calls + b.calls, prev.results[t.name := points], None)
  }

  /** The id-table loop from iteration k on, after `acc`. */
  function MeasureIdsFrom(tables: seq<IdTable>, k: nat, acc: IdProgress, sw: nat -> Seconds, p: nat): IdProgress
    requires k <= |tables|
    decreases |tables| - k, 1
  {
    if k == |tables| || acc.failure.Some? then acc
    else MeasureIdThenRest(tables, k, acc, sw, p)
  }

  /** Iteration k of the id-table loop after `acc`, then the iterations after it. */
  function MeasureIdThenRest(tables: seq<IdTable>, k: nat, acc: IdProgress, sw: nat -> Seconds, p: nat): IdProgress
    requires k < |tables|
    decreases |tables| - k, 0
  {
    MeasureIdsFrom(tables, k + 1, IdStep(tables[k], acc, sw, p), sw, p)
  }

  /** Resuming the id-table loop at iteration k after `acc` ends as the whole loop does. */
  predicate ResumesIds(tables: seq<IdTable>, k: nat, acc: IdProgress, sw: nat -> Seconds, p: nat)
    requires k <= |tables|
  {
    MeasureIdsFrom(tables, k, acc, sw, p) == MeasureIds(tables, sw, p)
  }

  /** The whole id-table loop, whose first call is at position `p`. */
  function MeasureIds(tables: seq<IdTable>, sw: nat -> Seconds, p: nat): IdProgress
  {
    MeasureIdsFrom(tables, 0, IdProgress([], map[], None), sw, p)
  }

  // ---------------------------------------------------------------------------
  // A whole run

  /** The calls a run makes, the report it assigns (if it gets that far) and
      what it returns or raises. */
  datatype Outcome = Outcome(calls: seq<Call>, report: Option<Report>, result: Result<Report>)

  /** `run_analysis`, started when the database has recorded `p` calls.
      `num_points == 0` fails the step computation before anything runs;
      `stop` and `stop_small` only feed values that are never used. */
  function Run(b: Backend, sw: nat -> Seconds, p: nat, start: int, geospatial: bool, ids: bool, numPoints: int): Outcome
  {
    if numPoints == 0 then Outcome([], None, Err(ZeroDivisionError))
    else
      var m := MeasureTables(Tables(b, geospatial), start, sw, p);
      if m.failure.Some? then Outcome(m.calls, None, Err(m.failure.value))
      else match BuildSections(m.results)
        case Err(e) => Outcome(m.calls, None, Err(e))
        case Ok(sections) =>
          var im := MeasureIds(IdTables(b, ids), sw, p + |m.calls|);
          if im.failure.Some? then Outcome(m.calls + im.calls, None, Err(im.failure.value))
          else
            var rep := Report(sections.selects, sections.joins, if ids then Some(IdSectionOf(im.results)) else None);
            Outcome(m.calls + im.calls, Some(rep), match Serialize(rep) case Ok(_) => Ok(rep) case Err(e) => Err(e))
  }

  // ---------------------------------------------------------------------------
  // The analyzer

  class Analyzer {
    const database: Database
    var report: Option<Report>

    constructor (database: Database)
      ensures this.database == database && report == None
    {
      this.database := database;
      report := None;
    }

    /** A timing loop of k rounds over two queries. */
    method TimePair(q1: string, q2: string, k: nat) returns (first: seq<Seconds>, second: seq<Seconds>)
      modifies database`calls
      ensures database.calls == old(database.calls) + PairCalls(q1, q2, k)
      ensures first == PairReadings(database.stopwatch, |old(database.calls)|, k, 0)
      ensures second == PairReadings(database.stopwatch, |old(database.calls)|, k, 1)
    {
      ghost var p := |database.calls|;
      first, second := [], [];
      var j := 0;
      while j < k
        invariant 0 <= j <= k
        invariant database.calls == old(database.calls) + PairCalls(q1, q2, j)
        invariant first == PairReadings(database.stopwatch, p, j, 0)
        invariant second == PairReadings(database.stopwatch, p, j, 1)
      {
        var t1 := database.TimeQuery(q1, false);
        var t2 := database.TimeQuery(q2, false);
        assert PairCalls(q1, q2, j + 1) == PairCalls(q1, q2, j) + [TimeQueryCall(q1, false), TimeQueryCall(q2, false)];
        first := first + [t1];
        second := second + [t2];
        j := j + 1;
      }
    }

    /** A timing loop of k rounds over one query. */
    method TimeRepeated(q: string, k: nat) returns (trials: seq<Seconds>)
      modifies database`calls
      ensures database.calls == old(database.calls) + seq(k, j requires 0 <= j < k => TimeQueryCall(q, false))
      ensures trials == Readings(database.stopwatch, |old(database.calls)|, k)
    {
      ghost var p := |database.calls|;
      trials := [];
      var j := 0;
      while j < k
        invariant 0 <= j <= k
        invariant database.calls == old(database.calls) + seq(j, i requires 0 <= i < j => TimeQueryCall(q, false))
        invariant trials == Readings(database.stopwatch, p, j)
      {
        var t := database.TimeQuery(q, false);
        trials := trials + [t];
        j := j + 1;
      }
    }

    /** One pass of the repetition loop: load i rows, index, time the
        where-queries and the joins, clear. */
    method Repetition(t: TableDef, queries: seq<string>, i: nat) returns (plain: real, ndx: real, joinPlain: real, joinNdx: real)
      requires |queries| == 4
      modifies database`calls
      ensures database.calls == old(database.calls) + RepetitionCalls(t, queries, i)
      ensures var s, sw, geo := |old(database.calls)|, database.stopwatch, TableGeospatial(t.name);
              && plain == RepetitionMean(sw, s, geo, false, 0) && ndx == RepetitionMean(sw, s, geo, false, 1)
              && joinPlain == RepetitionMean(sw, s, geo, true, 0) && joinNdx == RepetitionMean(sw, s, geo, true, 1)
    {
      var geo := TableGeospatial(t.name);
      database.InsertDummyData(t.name, i, "id", t.idType, t.plain, t.plainType, Some(t.ndx), Some(t.ndxType));
      database.CreateIndex(t.name, t.ndx, t.ndx, geo);
      var numTrials := if geo then 10 else 100;
      var trialsPlain, trialsNdx := TimePair(queries[0], queries[1], numTrials);
      var numJoinTrials := if geo then 2 else 10;
      var trialsJoinPlain, trialsJoinNdx := TimePair(queries[2], queries[3], numJoinTrials);
      plain, ndx := Mean(trialsPlain), Mean(trialsNdx);
      joinPlain, joinNdx := Mean(trialsJoinPlain), Mean(trialsJoinNdx);
      database.ClearTable(t.name, Some(t.ndx));
      AppendAssoc(old(database.calls), [InsertCall(t.name, i, "id", t.idType, t.plain, t.plainType, Some(t.ndx), Some(t.ndxType))],
                  [CreateIndexCall(t.name, t.ndx, t.ndx, geo)], PairCalls(queries[0], queries[1], numTrials),
                  PairCalls(queries[2], queries[3], numJoinTrials), [ClearTableCall(t.name, Some(t.ndx))]);
    }

    /** Measuring one table: its queries, then the two repetitions. */
    method MeasureTable(t: TableDef) returns (result: Result<map<string, seq<real>>>)
      modifies database`calls
      ensures var b := TableBlock(t, database.stopwatch, |old(database.calls)|);
              database.calls == old(database.calls) + b.calls && result == b.result
    {
      var queries := Utils.GenerateSingleTableQueries(t.name, t.plain, t.plainType, t.ndx, t.ndxType);
      if queries.Err? {
        return Err(queries.error);
      }
      var res := MeasureRepetitions(t, queries.value);
      result := Ok(res);
    }

    /** The loop `for i in range(2)` over the repetitions of a table. */
    method MeasureRepetitions(t: TableDef, queries: seq<string>) returns (result: map<string, seq<real>>)
      requires |queries| == 4
      modifies database`calls
      ensures database.calls == old(database.calls) + Repetitions(t, queries, 2)
      ensures result == TableResult(t, database.stopwatch, |old(database.calls)|)
    {
      ghost var p := |database.calls|;
      ghost var sw := database.stopwatch;
      var geo := TableGeospatial(t.name);
      ghost var L := RepetitionLength(geo);
      var pointsPlain, pointsNdx, pointsJoinPlain, pointsJoinNdx := [], [], [], [];
      var i := 0;
      while i < 2
        invariant 0 <= i <= 2
        invariant database.calls == old(database.calls) + Repetitions(t, queries, i)
        invariant pointsPlain == Means(sw, p, geo, i, false, 0) && pointsNdx == Means(sw, p, geo, i, false, 1)
        invariant pointsJoinPlain == Means(sw, p, geo, i, true, 0) && pointsJoinNdx == Means(sw, p, geo, i, true, 1)
      {
        ghost var before := database.calls;
        var plain, ndx, joinPlain, joinNdx := Repetition(t, queries, i);
        AppendAssoc3(old(database.calls), Repetitions(t, queries, i), RepetitionCalls(t, queries, i));
        assert |before| == p + i * L;
        MeansStep(sw, p, geo, i, false, 0);
        MeansStep(sw, p, geo, i, false, 1);
        MeansStep(sw, p, geo, i, true, 0);
        MeansStep(sw, p, geo, i, true, 1);
        pointsPlain := pointsPlain + [plain];
        pointsNdx := pointsNdx + [ndx];
        pointsJoinPlain := pointsJoinPlain + [joinPlain];
        pointsJoinNdx := pointsJoinNdx + [joinNdx];
        i := i + 1;
      }
      result := map["plain" := pointsPlain, "ndx" := pointsNdx, "join_plain" := pointsJoinPlain, "join_ndx" := pointsJoinNdx];
    }

    /** One pass of the sweep loop over `i` rows. */
    method SweepIteration(s: SweepSetup, i: int) returns (plain: real, ndx: real)
      requires |s.queries| >= 2
      modifies database`calls
      ensures database.calls == old(database.calls) + SweepIterationCalls(s, i)
      ensures plain == Mean(PairReadings(database.stopwatch, |old(database.calls)| + 4, 2, 0))
      ensures ndx == Mean(PairReadings(database.stopwatch, |old(database.calls)| + 4, 2, 1))
    {
      database.InsertDummyData("point_test", i, "id", Int, "pt_plain", s.point.plainType, Some("pt_ndx"), Some(s.point.ndxType));
      database.CreateIndex("point_test", "pt_ndx", "pt_ndx", true);
      database.InsertDummyData("poly_test", i, "id", Int, "poly_plain", s.poly.plainType, Some("poly_ndx"), Some(s.poly.ndxType));
      database.CreateIndex("poly_test", "poly_ndx", "poly_ndx", true);
      var trialsPlain, trialsNdx := TimePair(s.queries[0], s.queries[1], 2);
      plain, ndx := Mean(trialsPlain), Mean(trialsNdx);
      database.ClearTable("point_test", Some("pt_ndx"));
      database.ClearTable("poly_test", Some("poly_ndx"));
      AppendAssoc(old(database.calls),
                  [InsertCall("point_test", i, "id", Int, "pt_plain", s.point.plainType, Some("pt_ndx"), Some(s.point.ndxType))]
                  + [CreateIndexCall("point_test", "pt_ndx", "pt_ndx", true)],
                  [InsertCall("poly_test", i, "id", Int, "poly_plain", s.poly.plainType, Some("poly_ndx"), Some(s.poly.ndxType))],
                  [CreateIndexCall("poly_test", "poly_ndx", "poly_ndx", true)],
                  PairCalls(s.queries[0], s.queries[1], 2),
                  [ClearTableCall("point_test", Some("pt_ndx"))] + [ClearTableCall("poly_test", Some("poly_ndx"))]);
    }

    /** The point/polygon sweep over `range(start, 20000, (20000 - start) // 10)`. */
    method MeasureSweep(tables: seq<TableDef>, start: int) returns (result: Result<map<string, seq<real>>>)
      modifies database`calls
      ensures var s := Sweep(tables, start, database.stopwatch, |old(database.calls)|);
              database.calls == old(database.calls) + s.calls && result == s.result
    {
      var step := (20000 - start) / 10;
      if step == 0 {
        return Err(ValueError);
      }
      var sizes := PyRange(start, 20000, step);
      if |sizes| == 0 {
        return Ok(map["join_plain" := [], "join_ndx" := []]);
      }
      var setup := Setup(tables);
      if setup.Err? {
        return Err(setup.error);
      }
      var pointsPlain, pointsNdx := SweepLoop(setup.value, sizes);
      result := Ok(map["join_plain" := pointsPlain, "join_ndx" := pointsNdx]);
    }

    /** The iterations of the sweep over `sizes`. */
    method SweepLoop(s: SweepSetup, sizes: seq<int>) returns (pointsPlain: seq<real>, pointsNdx: seq<real>)
      requires |s.queries| >= 2
      modifies database`calls
      ensures database.calls == old(database.calls) + SweepCalls(s, sizes)
      ensures pointsPlain == SweepMeans(database.stopwatch, |old(database.calls)|, |sizes|, 0)
      ensures pointsNdx == SweepMeans(database.stopwatch, |old(database.calls)|, |sizes|, 1)
    {
      ghost var p := |database.calls|;
      ghost var sw := database.stopwatch;
      pointsPlain, pointsNdx := [], [];
      var k := 0;
      while k < |sizes|
        invariant 0 <= k <= |sizes|
        invariant database.calls == old(database.calls) + SweepCalls(s, sizes[..k])
        invariant pointsPlain == SweepMeans(sw, p, k, 0) && pointsNdx == SweepMeans(sw, p, k, 1)
      {
        assert sizes[..k + 1][..k] == sizes[..k];
        var plain, ndx := SweepIteration(s, sizes[k]);
        AppendAssoc3(old(database.calls), SweepCalls(s, sizes[..k]), SweepIterationCalls(s, sizes[k]));
        assert SweepMeans(sw, p, k + 1, 0) == SweepMeans(sw, p, k, 0) + [plain];
        assert SweepMeans(sw, p, k + 1, 1) == SweepMeans(sw, p, k, 1) + [ndx];
        pointsPlain := pointsPlain + [plain];
        pointsNdx := pointsNdx + [ndx];
        k := k + 1;
      }
      assert sizes[..|sizes|] == sizes;
    }

    /** Iteration k of the table loop, after the calls `done` of the earlier
        iterations of a loop whose first call was at position `p`. */
    method TableIteration(tables: seq<TableDef>, k: nat, start: int, results: Results, ghost s0: nat)
      returns (newResults: Results, failure: Option<Exception>, ghost d: Progress)
      requires k < |tables| && s0 == |database.calls|
      modifies database`calls
      ensures d == TableDelta(tables, tables[k], results, start, database.stopwatch, s0)
      ensures database.calls == old(database.calls) + d.calls && newResults == d.results && failure == d.failure
    {
      ghost var sw := database.stopwatch;
      ghost var b := TableBlock(tables[k], sw, s0);
      d := TableDelta(tables, tables[k], results, start, sw, s0);
      newResults, failure := results, None;
      var res := MeasureTable(tables[k]);
      if res.Err? {
        assert d == Progress(b.calls, results, Some(res.error));
        return newResults, Some(res.error), d;
      }
      newResults := newResults[tables[k].name := res.value];
      if Strings.Contains(tables[k].name, "point") {
        ghost var sb := Sweep(tables, start, sw, s0 + |b.calls|);
        var sweep := MeasureSweep(tables, start);
        AppendAssoc3(old(database.calls), b.calls, sb.calls);
        if sweep.Err? {
          assert d == Progress(b.calls + sb.calls, newResults, Some(sweep.error));
          return newResults, Some(sweep.error), d;
        }
        newResults := newResults["point_poly_test" := sweep.value];
        assert d == Progress(b.calls + sb.calls, newResults, None);
      } else {
        assert d == Progress(b.calls, newResults, None);
      }
    }

    /** One iteration of the table loop, seen from the loop: after the calls
        `done` of the earlier iterations and their `results`, in a loop that
        ends in `target`, the iteration records the calls of `d`, and the
        loop then ends there with its failure or resumes at the next table. */
    method AdvanceTables(tables: seq<TableDef>, k: nat, start: int, results: Results,
                         ghost done: seq<Call>, ghost p: nat, ghost target: Progress)
      returns (newResults: Results, failure: Option<Exception>, ghost d: Progress)
      requires k < |tables| && |database.calls| == p + |done|
      requires MeasureTablesFrom(tables, k, done, results, TableStep(tables, start, database.stopwatch), p) == target
      modifies database`calls
      ensures database.calls == old(database.calls) + d.calls && newResults == d.results && failure == d.failure
      ensures failure.None? ==>
              MeasureTablesFrom(tables, k + 1, done + d.calls, newResults, TableStep(tables, start, database.stopwatch), p) == target
      ensures failure.Some? ==> target == Progress(done + d.calls, newResults, failure)
    {
      ghost var s := |database.calls|;
      newResults, failure, d := TableIteration(tables, k, start, results, s);
      ResumeTables(tables, k, done, results, TableStep(tables, start, database.stopwatch), p, target, s);
    }

    /** The table loop, up to the first failure. */
    method MeasureAllTables(tables: seq<TableDef>, start: int) returns (results: Results, failure: Option<Exception>)
      modifies database`calls
      ensures var m := MeasureTables(tables, start, database.stopwatch, |old(database.calls)|);
              database.calls == old(database.calls) + m.calls && results == m.results && failure == m.failure
    {
      ghost var p := |database.calls|;
      ghost var target := MeasureTables(tables, start, database.stopwatch, p);
      ghost var done: seq<Call> := [];
      results, failure := map[], None;
      var k := 0;
      while k < |tables|
        invariant 0 <= k <= |tables| && failure.None?
        invariant database.calls == old(database.calls) + done
        invariant MeasureTablesFrom(tables, k, done, results, TableStep(tables, start, database.stopwatch), p) == target
      {
        ghost var d: Progress;
        results, failure, d := AdvanceTables(tables, k, start, results, done, p, target);
        AppendAssoc3(old(database.calls), done, d.calls);
        done := done + d.calls;
        if failure.Some? {
          return;
        }
        k := k + 1;
      }
    }

    /** The two repetitions of one id table. */
    method MeasureIdTable(t: IdTable) returns (result: Result<seq<real>>)
      modifies database`calls
      ensures var b := IdBlock(t, database.stopwatch, |old(database.calls)|);
              database.calls == old(database.calls) + b.calls && result == b.result
    {
      ghost var p := |database.calls|;
      ghost var sw := database.stopwatch;
      var points := [];
      var i := 0;
      while i < 2
        invariant 0 <= i <= 2
        invariant i > 0 ==> Utils.GenerateIdQuery(t.name, t.idType).Ok?
        invariant i == 0 ==> database.calls == old(database.calls) && points == []
        invariant i == 1 ==> var q := Utils.GenerateIdQuery(t.name, t.idType).value;
                             database.calls == old(database.calls) + IdRepetitionCalls(t, 0, q) && points == [IdMean(sw, p)]
        invariant i == 2 ==> var q := Utils.GenerateIdQuery(t.name, t.idType).value;
                             database.calls == old(database.calls) + (IdRepetitionCalls(t, 0, q) + IdRepetitionCalls(t, 1, q))
                             && points == [IdMean(sw, p), IdMean(sw, p + IdTrials + 2)]
      {
        ghost var before := database.calls;
        database.InsertDummyData(t.name, i, "id", t.idType, "num", Int, None, None);
        var query := Utils.GenerateIdQuery(t.name, t.idType);
        if query.Err? {
          return Err(query.error);
        }
        var trials := TimeRepeated(query.value, 100);
        points := points + [Mean(trials)];
        database.ClearTable(t.name, None);
        AppendAssoc4(before, [InsertCall(t.name, i, "id", t.idType, "num", Int, None, None)],
                     IdTimings(query.value), [ClearTableCall(t.name, None)]);
        if i == 1 {
          AppendAssoc3(old(database.calls), IdRepetitionCalls(t, 0, query.value), IdRepetitionCalls(t, 1, query.value));
        }
        i := i + 1;
      }
      result := Ok(points);
    }

    /** The id-table loop, up to the first failure. */
    method MeasureAllIds(tables: seq<IdTable>) returns (idResults: map<string, seq<real>>, failure: Option<Exception>)
      modifies database`calls
      ensures var m := MeasureIds(tables, database.stopwatch, |old(database.calls)|);
              database.calls == old(database.calls) + m.calls && idResults == m.results && failure == m.failure
    {
      ghost var p := |database.calls|;
      ghost var sw := database.stopwatch;
      ghost var acc := IdProgress([], map[], None);
      idResults, failure := map[], None;
      var k := 0;
      while k < |tables|
        invariant 0 <= k <= |tables|
        invariant acc.failure.None? && idResults == acc.results
        invariant database.calls == old(database.calls) + acc.calls
        invariant ResumesIds(tables, k, acc, sw, p)
      {
        var t := tables[k];
        ghost var next := IdStep(t, acc, sw, p);
        ghost var b := IdBlock(t, sw, p + |acc.calls|);
        var points := MeasureIdTable(t);
        AppendAssoc3(old(database.calls), acc.calls, b.calls);
        MeasureIdsFromStep(tables, k, acc, sw, p);
        acc := next;
        if points.Err? {
          return idResults, Some(points.error);
        }
        idResults := idResults[t.name := points.value];
        k := k + 1;
      }
    }

    /** `run_analysis`: the tables, the sections, the id tables, the report,
        then the serialisation of the report. */
    method RunAnalysis(start: int, stop: int, stopSmall: int, geospatial: bool, ids: bool, numPoints: int)
      returns (r: Result<Report>)
      modifies this`report, database`calls
      ensures var run := Run(database.backend, database.stopwatch, |old(database.calls)|, start, geospatial, ids, numPoints);
              && database.calls == old(database.calls) + run.calls
              && r == run.result
              && report == if run.report.Some? then run.report else old(report)
    {
      if numPoints == 0 {
        return Err(ZeroDivisionError);
      }
      ghost var p := |database.calls|;
      var tables := Tables(database.backend, geospatial);
      var idTables := IdTables(database.backend, ids);
      var results, failure := MeasureAllTables(tables, start);
      if failure.Some? {
        return Err(failure.value);
      }
      ghost var m := MeasureTables(tables, start, database.stopwatch, p);
      var sections := BuildSections(results);
      if sections.Err? {
        return Err(sections.error);
      }
      var idResults, idFailure := MeasureAllIds(idTables);
      ghost var im := MeasureIds(idTables, database.stopwatch, p + |m.calls|);
      AppendAssoc3(old(database.calls), m.calls, im.calls);
      if idFailure.Some? {
        return Err(idFailure.value);
      }
      var idsSection := if ids then Some(IdSectionOf(idResults)) else None;
      var rep := Report(sections.value.selects, sections.value.joins, idsSection);
      report := Some(rep);
      var document := Serialize(rep);
      if document.Err? {
        return Err(document.error);
      }
      r := Ok(rep);
    }
  }

  /** One unfolding of the id-table loop: iteration k, then the rest. */
  lemma MeasureIdsFromStep(tables: seq<IdTable>, k: nat, acc: IdProgress, sw: nat -> Seconds, p: nat)
    requires k < |tables| && acc.failure.None?
    ensures MeasureIdsFrom(tables, k, acc, sw, p) == MeasureIdsFrom(tables, k + 1, IdStep(tables[k], acc, sw, p), sw, p)
  {
  }

  lemma AppendAssoc3<T>(s: seq<T>, a: seq<T>, b: seq<T>)
    ensures s + a + b == s + (a + b)
  {
  }

  lemma AppendAssoc4<T>(s: seq<T>, a: seq<T>, b: seq<T>, c: seq<T>)
    ensures s + a + b + c == s + (a + b + c)
  {
  }

  lemma AppendAssoc<T>(s: seq<T>, a: seq<T>, b: seq<T>, c: seq<T>, d: seq<T>, e: seq<T>)
    ensures s + a + b + c + d + e == s + (a + b + c + d + e)
  {
  }

  /** One more repetition adds one mean. */
  lemma MeansStep(sw: nat -> Seconds, p: nat, geo: bool, i: nat, join: bool, offset: nat)
    ensures Means(sw, p, geo, i + 1, join, offset)
            == Means(sw, p, geo, i, join, offset) + [RepetitionMean(sw, p + i * RepetitionLength(geo), geo, join, offset)]
  {
  }
}
