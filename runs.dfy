/** What a whole `run_analysis` does, stated over the specification functions
    of `Analysis`: which tables it measures on each backend, the protocol of
    every repetition, the length of the point/polygon sweep, where the report
    holds `None`, and how the run can fail. */
module Runs {
  import opened Outcomes
  import opened SqlTypes
  import opened Reports
  import opened Analysis
  import Utils
  import Strings
  import Adapters

  // ---------------------------------------------------------------------------
  // Table selection

  /** The `point`/`poly` substring tests on the four table names. */
  lemma TableNames()
    ensures !Strings.Contains("int_test", "point") && !Strings.Contains("int_test", "poly")
    ensures !Strings.Contains("str_test", "point") && !Strings.Contains("str_test", "poly")
    ensures Strings.Contains("point_test", "point")
    ensures !Strings.Contains("poly_test", "point") && Strings.Contains("poly_test", "poly")
  {
    Strings.NotContains("int_test", "point");
    Strings.NotContains("int_test", "poly");
    Strings.NotContains("str_test", "point");
    Strings.NotContains("str_test", "poly");
    assert Strings.OccursAt("point_test", "point", 0);
    assert "poly_test"[0..5][2] != "point"[2];
    Strings.NotContains("poly_test", "point");
    assert Strings.OccursAt("poly_test", "poly", 0);
  }

  /** Whether the point and polygon tables are measured. */
  predicate MeasuresShapes(b: Backend, geospatial: bool)
  {
    geospatial && b != SqliteBackend
  }

  /** `int_test` and `str_test` are always measured, first and in that order;
      `point_test` and `poly_test` follow exactly when the run is geospatial on
      PostgreSQL or MySQL; the string columns are `text` on PostgreSQL and
      `char(36)` elsewhere; every table is keyed by an int `id` and pairs two
      columns of one type that `generate_queries` knows. */
  lemma TableSelection(b: Backend, geospatial: bool)
    ensures var ts := Tables(b, geospatial);
            && |ts| == (if MeasuresShapes(b, geospatial) then 4 else 2)
            && ts[0].name == "int_test" && ts[0].plainType == Int
            && ts[1].name == "str_test" && ts[1].plainType == (if b == PostgresBackend then Text else Char36)
            && (MeasuresShapes(b, geospatial) ==> ts[2].name == "point_test" && ts[3].name == "poly_test")
            && (forall i :: 0 <= i < |ts| ==> WellFormed(ts[i]) && ts[i].idType == Int)
  {
  }

  /** Only `point_test` starts the sweep, and the tables whose names mention a
      point or a polygon are the geospatial ones. */
  lemma TableRoles(b: Backend, geospatial: bool)
    ensures var ts := Tables(b, geospatial);
            && (forall i :: 0 <= i < |ts| ==> (Strings.Contains(ts[i].name, "point") <==> i == 2))
            && (forall i :: 0 <= i < |ts| ==> (TableGeospatial(ts[i].name) <==> i >= 2))
  {
    TableNames();
  }

  // ---------------------------------------------------------------------------
  // One table

  /** Every repetition follows the same protocol: load i rows, index the
      indexed column, time the two where-queries alternately (10 rounds on a
      geospatial table, 100 otherwise), then the two joins alternately (2 and
      10 rounds), and clear the table, dropping its index. */
  lemma RepetitionProtocol(t: TableDef, q: seq<string>, i: nat)
    requires |q| == 4
    ensures var cs, geo := RepetitionCalls(t, q, i), TableGeospatial(t.name);
            var n, m := NumTrials(geo), NumJoinTrials(geo);
            && n == (if geo then 10 else 100) && m == (if geo then 2 else 10)
            && |cs| == 3 + 2 * n + 2 * m
            && cs[0] == InsertCall(t.name, i, "id", t.idType, t.plain, t.plainType, Some(t.ndx), Some(t.ndxType))
            && cs[1] == CreateIndexCall(t.name, t.ndx, t.ndx, geo)
            && (forall k :: 2 <= k < 2 + 2 * n ==> cs[k] == TimeQueryCall(if k % 2 == 0 then q[0] else q[1], false))
            && (forall k :: 2 + 2 * n <= k < 2 + 2 * n + 2 * m ==>
                  cs[k] == TimeQueryCall(if k % 2 == 0 then q[2] else q[3], false))
            && cs[|cs| - 1] == ClearTableCall(t.name, Some(t.ndx))
  {
    var geo := TableGeospatial(t.name);
    var n, m := NumTrials(geo), NumJoinTrials(geo);
    var head := [InsertCall(t.name, i, "id", t.idType, t.plain, t.plainType, Some(t.ndx), Some(t.ndxType))]
                + [CreateIndexCall(t.name, t.ndx, t.ndx, geo)];
    var cs := RepetitionCalls(t, q, i);
    assert cs == head + PairCalls(q[0], q[1], n) + PairCalls(q[2], q[3], m) + [ClearTableCall(t.name, Some(t.ndx))];
    forall k | 2 <= k < 2 + 2 * n
      ensures cs[k] == TimeQueryCall(if k % 2 == 0 then q[0] else q[1], false)
    {
      assert cs[k] == PairCalls(q[0], q[1], n)[k - 2];
    }
    forall k | 2 + 2 * n <= k < 2 + 2 * n + 2 * m
      ensures cs[k] == TimeQueryCall(if k % 2 == 0 then q[2] else q[3], false)
    {
      assert cs[k] == PairCalls(q[2], q[3], m)[k - 2 - 2 * n];
    }
  }

  /** Measuring a well-formed table makes exactly two repetitions, the first
      loading 0 rows and the second 1, whatever the run's parameters; its
      result holds the four series, each with one mean per repetition. */
  lemma TableBlockShape(t: TableDef, sw: nat -> Seconds, p: nat)
    requires WellFormed(t)
    ensures var b, q := TableBlock(t, sw, p), TableQueries(t).value;
            && b.calls == RepetitionCalls(t, q, 0) + RepetitionCalls(t, q, 1)
            && b.result == Ok(TableResult(t, sw, p))
            && b.result.value.Keys == {"plain", "ndx", "join_plain", "join_ndx"}
            && (forall key :: key in b.result.value ==> |b.result.value[key]| == 2)
  {
    var q := TableQueries(t).value;
    assert Repetitions(t, q, 1) == RepetitionCalls(t, q, 0);
  }

  // ---------------------------------------------------------------------------
  // The point/polygon sweep

  /** `range(start, stop, step)` with a positive step holds start, start + step,
      ... : as many values as it takes to reach `stop`, all below it. */
  lemma {:induction false} PyRangeValues(start: int, stop: int, step: int)
    requires step > 0
    decreases stop - start
    ensures var r := PyRange(start, stop, step);
            && (|r| == 0 <==> start >= stop)
            && (|r| > 0 ==> start + (|r| - 1) * step < stop <= start + |r| * step)
            && (forall i :: 0 <= i < |r| ==> r[i] == start + i * step && start <= r[i] < stop)
  {
    if start < stop {
      var tail := PyRange(start + step, stop, step);
      PyRangeValues(start + step, stop, step);
      var r := PyRange(start, stop, step);
      var n := |tail|;
      assert |r| == n + 1;
      assert start + step + n * step == start + (n + 1) * step;
      if n > 0 {
        assert start + step + (n - 1) * step == start + n * step;
      }
      forall i | 0 <= i < |r|
        ensures r[i] == start + i * step && start <= r[i] < stop
      {
        if i > 0 {
          assert r[i] == tail[i - 1];
          assert start + step + (i - 1) * step == start + i * step;
        }
      }
    }
  }

  /** `(20000 - start) // 10` is zero, so that `range` raises `ValueError`,
      exactly when `start` is one of 19991, ..., 20000. */
  lemma SweepStepZero(start: int)
    ensures SweepStep(start) == 0 <==> 19991 <= start <= 20000
  {
  }

  /** A zero step raises `ValueError` before the sweep makes any call. */
  lemma SweepZeroStep(tables: seq<TableDef>, start: int, sw: nat -> Seconds, p: nat)
    requires SweepStep(start) == 0
    ensures Sweep(tables, start, sw, p) == Block([], Err(ValueError))
  {
  }

  /** For every `start` up to 19990 the sweep has at least ten sizes, the
      first being `start`, rising by the step, all below 20000; the default
      `start` of 100 gives exactly ten. */
  lemma SweepSizes(start: int)
    requires start <= 19990
    ensures var step := SweepStep(start);
            var sizes := PyRange(start, 20000, step);
            && step > 0 && |sizes| >= 10
            && (forall i :: 0 <= i < |sizes| ==> sizes[i] == start + i * step && start <= sizes[i] < 20000)
            && (start == 100 ==> |sizes| == 10)
  {
    var step := SweepStep(start);
    PyRangeValues(start, 20000, step);
    var n := |PyRange(start, 20000, step)|;
    assert 10 * step <= 20000 - start <= n * step;
  }

  /** The sweep finds `point_test` and `poly_test` as the third and fourth tables. */
  lemma ShapeLookups(b: Backend, geospatial: bool)
    requires MeasuresShapes(b, geospatial)
    ensures var ts := Tables(b, geospatial);
            Find(ts, "point_test") == Ok(ts[2]) && Find(ts, "poly_test") == Ok(ts[3])
  {
    var ts := Tables(b, geospatial);
    assert ts[1..][1..][0] == ts[2];
    assert ts[1..][1..][1..][0] == ts[3];
  }

  /** On the tables of a geospatial PostgreSQL or MySQL run the sweep's
      set-up succeeds. On PostgreSQL the sweep times the two containment joins
      of points in polygons (spelled out by `Utils.CrossTableQueries`). MySQL's spatial types are not the PostGIS pair,
      so `generate_queries` falls through to the single-table queries on
      `point_test` and the sweep times its two where-queries. */
  lemma ShapeSetup(b: Backend, geospatial: bool)
    requires MeasuresShapes(b, geospatial)
    ensures var ts := Tables(b, geospatial);
            var su := Setup(ts);
            && su.Ok? && su.value.point == ts[2] && su.value.poly == ts[3]
            && (b == PostgresBackend ==>
                  Utils.IsCrossJoin(Some("poly_test"), ts[2].plainType, Some(ts[3].plainType))
                  && |su.value.queries| == 2)
            && (b == MySqlBackend ==>
                  su.value.queries == Utils.GenerateSingleTableQueries("point_test", "pt_plain", MyPoint, "pt_ndx", MyPoint).value
                  && |su.value.queries| == 4)
  {
    ShapeLookups(b, geospatial);
    if b == MySqlBackend {
      Utils.CrossTableFallsThrough("point_test", "pt_plain", MyPoint, "pt_ndx", MyPoint, Some("poly_test"),
                                   Some("poly_plain"), Some(MyPolygon), Some("poly_ndx"), Some(MyPolygon));
    }
  }

  /** With a non-zero step the sweep of a geospatial PostgreSQL or MySQL run
      succeeds: one iteration per size, two series of one mean per size. */
  lemma ShapeSweep(b: Backend, geospatial: bool, start: int, sw: nat -> Seconds, p: nat)
    requires MeasuresShapes(b, geospatial) && SweepStep(start) != 0
    ensures var ts := Tables(b, geospatial);
            var sw0 := Sweep(ts, start, sw, p);
            var sizes := PyRange(start, 20000, SweepStep(start));
            var su := Setup(ts);
            && su.Ok? && sw0.calls == SweepCalls(su.value, sizes)
            && sw0.result == Ok(SweepResult(sw, p, |sizes|))
  {
    ShapeSetup(b, geospatial);
  }

  // ---------------------------------------------------------------------------
  // The table loop

  /** The iteration for a well-formed table whose name has no `point`: its
      two repetitions and its entry in the results, without failure. */
  lemma PlainDelta(tables: seq<TableDef>, t: TableDef, results: Results, start: int, sw: nat -> Seconds, s: nat)
    requires WellFormed(t) && !Strings.Contains(t.name, "point")
    ensures TableDelta(tables, t, results, start, sw, s)
         == Progress(TableBlock(t, sw, s).calls, results[t.name := TableResult(t, sw, s)], None)
  {
    TableBlockShape(t, sw, s);
  }

  /** The table loop of a run that measures only `int_test` and `str_test`:
      their repetitions in that order, both entries, no failure. */
  lemma PlainTablesLoop(b: Backend, geospatial: bool, start: int, sw: nat -> Seconds, p: nat)
    requires !MeasuresShapes(b, geospatial)
    ensures var ts := Tables(b, geospatial);
            var m := MeasureTables(ts, start, sw, p);
            var c0 := TableBlock(ts[0], sw, p).calls;
            var c1 := TableBlock(ts[1], sw, p + |c0|).calls;
            && m.calls == c0 + c1
            && m.results == map["int_test" := TableResult(ts[0], sw, p), "str_test" := TableResult(ts[1], sw, p + |c0|)]
            && m.failure.None?
  {
    var ts := Tables(b, geospatial);
    var step := TableStep(ts, start, sw);
    var target := MeasureTables(ts, start, sw, p);
    TableSelection(b, geospatial);
    TableRoles(b, geospatial);
    PlainDelta(ts, ts[0], map[], start, sw, p);
    var d0 := TableDelta(ts, ts[0], map[], start, sw, p);
    ResumeTables(ts, 0, [], map[], step, p, target, p);
    PlainDelta(ts, ts[1], d0.results, start, sw, p + |d0.calls|);
    ResumeTables(ts, 1, [] + d0.calls, d0.results, step, p, target, p + |d0.calls|);
  }

  /** The iteration for `point_test`: its two repetitions and its entry in the
      results, then the sweep, whose failure ends the loop and whose series
      are otherwise stored under `point_poly_test`. */
  lemma PointDelta(tables: seq<TableDef>, t: TableDef, results: Results, start: int, sw: nat -> Seconds, s: nat)
    requires WellFormed(t) && Strings.Contains(t.name, "point")
    ensures var c := TableBlock(t, sw, s).calls;
            var sweep := Sweep(tables, start, sw, s + |c|);
            var r := results[t.name := TableResult(t, sw, s)];
            TableDelta(tables, t, results, start, sw, s)
              == match sweep.result
                 case Err(e) => Progress(c + sweep.calls, r, Some(e))
                 case Ok(pp) => Progress(c + sweep.calls, r["point_poly_test" := pp], None)
  {
    TableBlockShape(t, sw, s);
  }

  /** Four iterations of the table loop, for any iteration `step`, when the
      third fails: the loop stops there. */
  lemma ThirdStepFails(tables: seq<TableDef>, step: TableStepFn, p: nat, d0: Progress, d1: Progress, d2: Progress)
    requires |tables| == 4
    requires d0 == step(tables[0], map[], p) && d0.failure.None?
    requires d1 == step(tables[1], d0.results, p + |d0.calls|) && d1.failure.None?
    requires d2 == step(tables[2], d1.results, p + |d0.calls| + |d1.calls|) && d2.failure.Some?
    ensures MeasureTablesFrom(tables, 0, [], map[], step, p) == Progress(d0.calls + d1.calls + d2.calls, d2.results, d2.failure)
  {
    var target := MeasureTablesFrom(tables, 0, [], map[], step, p);
    ResumeTables(tables, 0, [], map[], step, p, target, p);
    assert [] + d0.calls == d0.calls;
    ResumeTables(tables, 1, d0.calls, d0.results, step, p, target, p + |d0.calls|);
    ResumeTables(tables, 2, d0.calls + d1.calls, d1.results, step, p, target, p + |d0.calls| + |d1.calls|);
  }

  /** The four tables of a geospatial run, as the table loop sees them: two
      plain tables, a point table that starts the sweep, and a last table that
      does not; the sweep's set-up succeeds. */
  predicate ShapedTables(ts: seq<TableDef>)
  {
    && |ts| == 4 && WellFormed(ts[0]) && WellFormed(ts[1]) && WellFormed(ts[2]) && WellFormed(ts[3])
    && !TableGeospatial(ts[0].name) && !TableGeospatial(ts[1].name)
    && TableGeospatial(ts[2].name) && TableGeospatial(ts[3].name)
    && !Strings.Contains(ts[0].name, "point") && !Strings.Contains(ts[1].name, "point")
    && Strings.Contains(ts[2].name, "point") && !Strings.Contains(ts[3].name, "point")
    && Setup(ts).Ok?
  }

  /** The first two iterations over such tables: both plain tables measured,
      in order, without failure. */
  lemma PlainPrefix(ts: seq<TableDef>, start: int, sw: nat -> Seconds, p: nat)
    requires ShapedTables(ts)
    ensures var plainLength := 2 * RepetitionLength(false);
            var d0 := TableDelta(ts, ts[0], map[], start, sw, p);
            var d1 := TableDelta(ts, ts[1], d0.results, start, sw, p + |d0.calls|);
            && d0.failure.None? && d1.failure.None? && |d0.calls| == plainLength && |d1.calls| == plainLength
            && d1.results == map[ts[0].name := TableResult(ts[0], sw, p)][ts[1].name := TableResult(ts[1], sw, p + plainLength)]
  {
    PlainDelta(ts, ts[0], map[], start, sw, p);
    var d0 := TableDelta(ts, ts[0], map[], start, sw, p);
    PlainDelta(ts, ts[1], d0.results, start, sw, p + |d0.calls|);
  }

  /** Over such tables a zero sweep step ends the loop right after the point
      table with `ValueError`. */
  lemma ShapedLoopZeroStep(ts: seq<TableDef>, start: int, sw: nat -> Seconds, p: nat)
    requires ShapedTables(ts) && SweepStep(start) == 0
    ensures var m := MeasureTables(ts, start, sw, p);
            var plainLength, shapeLength := 2 * RepetitionLength(false), 2 * RepetitionLength(true);
            && m.failure == Some(ValueError) && |m.calls| == 2 * plainLength + shapeLength
            && m.results == map[ts[0].name := TableResult(ts[0], sw, p)][ts[1].name := TableResult(ts[1], sw, p + plainLength)]
                              [ts[2].name := TableResult(ts[2], sw, p + 2 * plainLength)]
  {
    var plainLength, shapeLength := 2 * RepetitionLength(false), 2 * RepetitionLength(true);
    PlainPrefix(ts, start, sw, p);
    var d0 := TableDelta(ts, ts[0], map[], start, sw, p);
    var d1 := TableDelta(ts, ts[1], d0.results, start, sw, p + |d0.calls|);
    var s2 := p + |d0.calls| + |d1.calls|;
    PointDelta(ts, ts[2], d1.results, start, sw, s2);
    var d2 := TableDelta(ts, ts[2], d1.results, start, sw, s2);
    SweepZeroStep(ts, start, sw, s2 + shapeLength);
    ThirdStepFails(ts, TableStep(ts, start, sw), p, d0, d1, d2);
  }

  /** Over such tables, the first two iterations measure the plain tables and
      leave the loop to resume at the point table. */
  lemma ThroughPlain(ts: seq<TableDef>, start: int, sw: nat -> Seconds, p: nat) returns (done: seq<Call>, results: Results)
    requires ShapedTables(ts)
    ensures var plainLength := 2 * RepetitionLength(false);
            && |done| == 2 * plainLength
            && results == map[ts[0].name := TableResult(ts[0], sw, p)][ts[1].name := TableResult(ts[1], sw, p + plainLength)]
            && MeasureTables(ts, start, sw, p) == MeasureTablesFrom(ts, 2, done, results, TableStep(ts, start, sw), p)
  {
    var step := TableStep(ts, start, sw);
    var target := MeasureTables(ts, start, sw, p);
    PlainPrefix(ts, start, sw, p);
    var d0 := TableDelta(ts, ts[0], map[], start, sw, p);
    var d1 := TableDelta(ts, ts[1], d0.results, start, sw, p + |d0.calls|);
    ResumeTables(ts, 0, [], map[], step, p, target, p);
    assert [] + d0.calls == d0.calls;
    ResumeTables(ts, 1, d0.calls, d0.results, step, p, target, p + |d0.calls|);
    done, results := d0.calls + d1.calls, d1.results;
  }

  /** The point table's iteration with a non-zero sweep step and a set-up
      that succeeds: its repetitions, then the sweep, without failure. */
  lemma PointStep(ts: seq<TableDef>, t: TableDef, results: Results, start: int, sw: nat -> Seconds, s: nat)
    requires WellFormed(t) && TableGeospatial(t.name) && Strings.Contains(t.name, "point")
    requires Setup(ts).Ok? && SweepStep(start) != 0
    ensures var d, shapeLength := TableDelta(ts, t, results, start, sw, s), 2 * RepetitionLength(true);
            var n := |PyRange(start, 20000, SweepStep(start))|;
            && d.failure.None? && |d.calls| == shapeLength + 10 * n
            && d.results == results[t.name := TableResult(t, sw, s)]
                                   ["point_poly_test" := SweepResult(sw, s + shapeLength, n)]
  {
    var shapeLength := 2 * RepetitionLength(true);
    TableBlockShape(t, sw, s);
    var c := TableBlock(t, sw, s).calls;
    assert |c| == shapeLength;
    var n := |PyRange(start, 20000, SweepStep(start))|;
    SweepOk(ts, start, sw, s + shapeLength);
    var sweep := Sweep(ts, start, sw, s + |c|);
    assert sweep.result == Ok(SweepResult(sw, s + shapeLength, n));
    PointDelta(ts, t, results, start, sw, s);
  }

  /** The iteration over the point table with a non-zero sweep step: the
      table's repetitions and the sweep, whose series are stored under
      `point_poly_test`; the loop resumes at the last table. */
  lemma ThroughSweep(ts: seq<TableDef>, step: TableStepFn, start: int, sw: nat -> Seconds, p: nat,
                     done: seq<Call>, results: Results)
    returns (done': seq<Call>, results': Results)
    requires |ts| == 4 && WellFormed(ts[2]) && TableGeospatial(ts[2].name) && Strings.Contains(ts[2].name, "point")
    requires Setup(ts).Ok? && SweepStep(start) != 0
    requires step(ts[2], results, p + |done|) == TableDelta(ts, ts[2], results, start, sw, p + |done|)
    ensures var shapeLength := 2 * RepetitionLength(true);
            var n := |PyRange(start, 20000, SweepStep(start))|;
            var sweepAt := p + |done| + shapeLength;
            && |done'| == |done| + shapeLength + 10 * n
            && results' == results[ts[2].name := TableResult(ts[2], sw, p + |done|)]
                                  ["point_poly_test" := SweepResult(sw, sweepAt, n)]
            && MeasureTablesFrom(ts, 2, done, results, step, p) == MeasureTablesFrom(ts, 3, done', results', step, p)
  {
    var s := p + |done|;
    PointStep(ts, ts[2], results, start, sw, s);
    var d := TableDelta(ts, ts[2], results, start, sw, s);
    done', results' := done + d.calls, d.results;
  }

  /** The last iteration over such tables measures the last table and ends the loop. */
  lemma LastTable(ts: seq<TableDef>, start: int, sw: nat -> Seconds, p: nat, done: seq<Call>, results: Results)
    requires ShapedTables(ts)
    ensures var m := MeasureTablesFrom(ts, 3, done, results, TableStep(ts, start, sw), p);
            && m.failure.None? && |m.calls| == |done| + 2 * RepetitionLength(true)
            && m.results == results[ts[3].name := TableResult(ts[3], sw, p + |done|)]
  {
    PlainDelta(ts, ts[3], results, start, sw, p + |done|);
    var step := TableStep(ts, start, sw);
    ResumeTables(ts, 3, done, results, step, p, MeasureTablesFrom(ts, 3, done, results, step, p), p + |done|);
  }

  /** Over such tables a non-zero sweep step runs all four iterations: the
      sweep's series are stored under `point_poly_test` and the last table is
      measured after the sweep. */
  lemma ShapedLoopSweep(ts: seq<TableDef>, start: int, sw: nat -> Seconds, p: nat)
    requires ShapedTables(ts) && SweepStep(start) != 0
    ensures var m := MeasureTables(ts, start, sw, p);
            var plainLength, shapeLength := 2 * RepetitionLength(false), 2 * RepetitionLength(true);
            var n := |PyRange(start, 20000, SweepStep(start))|;
            var pointAt := p + 2 * plainLength;
            var sweepAt, polyAt := pointAt + shapeLength, pointAt + shapeLength + 10 * n;
            && m.failure.None? && |m.calls| == 2 * plainLength + 2 * shapeLength + 10 * n
            && m.results == map[ts[0].name := TableResult(ts[0], sw, p)][ts[1].name := TableResult(ts[1], sw, p + plainLength)]
                              [ts[2].name := TableResult(ts[2], sw, pointAt)]
                              ["point_poly_test" := SweepResult(sw, sweepAt, n)]
                              [ts[3].name := TableResult(ts[3], sw, polyAt)]
  {
    var done, results := ThroughPlain(ts, start, sw, p);
    var done', results' := ThroughSweep(ts, TableStep(ts, start, sw), start, sw, p, done, results);
    LastTable(ts, start, sw, p, done', results');
  }

  /** With a set-up that succeeds and a non-zero step, the sweep runs one
      iteration per size and yields one mean per size in each series. */
  lemma SweepOk(tables: seq<TableDef>, start: int, sw: nat -> Seconds, p: nat)
    requires Setup(tables).Ok? && SweepStep(start) != 0
    ensures var sweep, sizes := Sweep(tables, start, sw, p), PyRange(start, 20000, SweepStep(start));
            && sweep.calls == SweepCalls(Setup(tables).value, sizes)
            && sweep.result == Ok(SweepResult(sw, p, |sizes|))
            && |sweep.calls| == 10 * |sizes|
  {
  }

  /** The table loop of a geospatial PostgreSQL or MySQL run: `int_test`,
      `str_test` and `point_test`, then the sweep; a zero sweep step ends the
      run there with `ValueError`, otherwise the sweep's series are stored and
      `poly_test` is measured last. */
  lemma ShapeTablesLoop(b: Backend, geospatial: bool, start: int, sw: nat -> Seconds, p: nat)
    requires MeasuresShapes(b, geospatial)
    ensures var ts := Tables(b, geospatial);
            var m := MeasureTables(ts, start, sw, p);
            var plainLength, shapeLength := 2 * RepetitionLength(false), 2 * RepetitionLength(true);
            var pointAt := p + 2 * plainLength;
            var r := map["int_test" := TableResult(ts[0], sw, p), "str_test" := TableResult(ts[1], sw, p + plainLength),
                         "point_test" := TableResult(ts[2], sw, pointAt)];
            if SweepStep(start) == 0 then
              && m.failure == Some(ValueError) && |m.calls| == 2 * plainLength + shapeLength && m.results == r
            else
              var n := |PyRange(start, 20000, SweepStep(start))|;
              var sweepAt, polyAt := pointAt + shapeLength, pointAt + shapeLength + 10 * n;
              && m.failure.None? && |m.calls| == 2 * plainLength + 2 * shapeLength + 10 * n
              && m.results == r["point_poly_test" := SweepResult(sw, sweepAt, n)]
                                ["poly_test" := TableResult(ts[3], sw, polyAt)]
  {
    var ts := Tables(b, geospatial);
    TableSelection(b, geospatial);
    TableRoles(b, geospatial);
    ShapeSetup(b, geospatial);
    assert ShapedTables(ts);
    if SweepStep(start) == 0 {
      ShapedLoopZeroStep(ts, start, sw, p);
    } else {
      ShapedLoopSweep(ts, start, sw, p);
    }
  }

  // ---------------------------------------------------------------------------
  // Id tables

  /** Each repetition of an id table loads i rows, times the lookup 100 times
      and clears the table without dropping an index; the series holds the
      mean of each repetition's timings. */
  lemma IdBlockShape(t: IdTable, sw: nat -> Seconds, p: nat)
    requires Utils.IsIdType(t.idType)
    ensures var b, q := IdBlock(t, sw, p), Utils.GenerateIdQuery(t.name, t.idType).value;
            && |b.calls| == IdBlockLength
            && b.calls[0] == InsertCall(t.name, 0, "id", t.idType, "num", Int, None, None)
            && b.calls[IdTrials + 2] == InsertCall(t.name, 1, "id", t.idType, "num", Int, None, None)
            && (forall k :: 1 <= k <= IdTrials ==> b.calls[k] == TimeQueryCall(q, false))
            && (forall k :: IdTrials + 3 <= k <= 2 * IdTrials + 2 ==> b.calls[k] == TimeQueryCall(q, false))
            && b.calls[IdTrials + 1] == ClearTableCall(t.name, None)
            && b.calls[2 * IdTrials + 3] == ClearTableCall(t.name, None)
            && b.result == Ok([Mean(Readings(sw, p + 1, IdTrials)), Mean(Readings(sw, p + IdTrials + 3, IdTrials))])
  {
    var q := Utils.GenerateIdQuery(t.name, t.idType).value;
    var c0, c1 := IdRepetitionCalls(t, 0, q), IdRepetitionCalls(t, 1, q);
    assert forall k :: 1 <= k <= IdTrials ==> c0[k] == IdTimings(q)[k - 1];
    assert forall k :: 1 <= k <= IdTrials ==> c1[k] == IdTimings(q)[k - 1];
  }

  /** An unknown identifier type fails the lookup's construction with
      `TypeError` right after the first load. */
  lemma IdBlockUnknown(t: IdTable, sw: nat -> Seconds, p: nat)
    requires !Utils.IsIdType(t.idType)
    ensures IdBlock(t, sw, p) == Block([InsertCall(t.name, 0, "id", t.idType, "num", Int, None, None)], Err(TypeError))
  {
  }

  /** An id table of a known identifier type adds its two repetitions and
      stores its series under its name. */
  lemma IdStepOk(t: IdTable, acc: IdProgress, sw: nat -> Seconds, p: nat)
    requires Utils.IsIdType(t.idType)
    ensures var n := IdStep(t, acc, sw, p);
            && n.failure.None? && |n.calls| == |acc.calls| + IdBlockLength && n.calls[..|acc.calls|] == acc.calls
            && n.results == acc.results[t.name := IdPoints(sw, p + |acc.calls|)]
  {
    var n := IdStep(t, acc, sw, p);
    assert n.calls[..|acc.calls|] == acc.calls;
  }

  /** Every table of the id-table loop has a name of its own. */
  predicate DistinctNames(tables: seq<IdTable>)
  {
    forall i, j :: 0 <= i < j < |tables| ==> tables[i].name != tables[j].name
  }

  /** With known identifier types the id-table loop runs every table, each
      adding its two repetitions after the calls so far. */
  lemma {:induction false} IdLoopCalls(tables: seq<IdTable>, k: nat, acc: IdProgress, sw: nat -> Seconds, p: nat)
    requires k <= |tables| && acc.failure.None?
    requires forall i :: k <= i < |tables| ==> Utils.IsIdType(tables[i].idType)
    ensures var r := MeasureIdsFrom(tables, k, acc, sw, p);
            && r.failure.None?
            && |r.calls| == |acc.calls| + (|tables| - k) * IdBlockLength
            && r.calls[..|acc.calls|] == acc.calls
    decreases |tables| - k
  {
    if k < |tables| {
      var next := IdStep(tables[k], acc, sw, p);
      IdStepOk(tables[k], acc, sw, p);
      MeasureIdsFromStep(tables, k, acc, sw, p);
      IdLoopCalls(tables, k + 1, next, sw, p);
      var r := MeasureIdsFrom(tables, k + 1, next, sw, p);
      assert r.calls[..|acc.calls|] == acc.calls by {
        assert r.calls[..|next.calls|][..|acc.calls|] == r.calls[..|acc.calls|];
      }
    }
  }

  /** `m[key] == v`, with `key` present. */
  predicate MapsTo<V(==)>(m: map<string, V>, key: string, v: V)
  {
    key in m && m[key] == v
  }

  /** The names of the id tables from k on. */
  function NamesFrom(tables: seq<IdTable>, k: nat): set<string>
    requires k <= |tables|
    decreases |tables| - k
  {
    if k == |tables| then {} else {tables[k].name} + NamesFrom(tables, k + 1)
  }

  /** A name is among those from k on exactly when some table from k on has it. */
  lemma {:induction false} NamesFromHas(tables: seq<IdTable>, k: nat, name: string)
    requires k <= |tables|
    ensures name in NamesFrom(tables, k) <==> exists i :: k <= i < |tables| && tables[i].name == name
    decreases |tables| - k
  {
    if k < |tables| {
      NamesFromHas(tables, k + 1, name);
      if name in NamesFrom(tables, k + 1) {
        var i :| k + 1 <= i < |tables| && tables[i].name == name;
        assert k <= i < |tables| && tables[i].name == name;
      }
    }
  }

  /** With known identifier types and distinct names the id-table loop stores
      each table's series under its name, at the position its repetitions
      start, and leaves what was stored before under other names. */
  lemma {:induction false} IdLoopResults(tables: seq<IdTable>, k: nat, acc: IdProgress, sw: nat -> Seconds, p: nat)
    requires k <= |tables| && acc.failure.None? && DistinctNames(tables)
    requires forall i :: k <= i < |tables| ==> Utils.IsIdType(tables[i].idType)
    ensures var r := MeasureIdsFrom(tables, k, acc, sw, p);
            && (forall name :: name in r.results <==> name in acc.results || name in NamesFrom(tables, k))
            && (forall name :: name in acc.results && name !in NamesFrom(tables, k) ==> r.results[name] == acc.results[name])
            && (forall i :: k <= i < |tables| ==> MapsTo(r.results, tables[i].name, IdPoints(sw, p + |acc.calls| + (i - k) * IdBlockLength)))
    decreases |tables| - k
  {
    if k < |tables| {
      var next := IdStep(tables[k], acc, sw, p);
      IdStepOk(tables[k], acc, sw, p);
      MeasureIdsFromStep(tables, k, acc, sw, p);
      IdLoopResults(tables, k + 1, next, sw, p);
      var r := MeasureIdsFrom(tables, k + 1, next, sw, p);
      NamesFromHas(tables, k + 1, tables[k].name);
      assert tables[k].name !in NamesFrom(tables, k + 1);
      forall i | k <= i < |tables|
        ensures MapsTo(r.results, tables[i].name, IdPoints(sw, p + |acc.calls| + (i - k) * IdBlockLength))
      {
        NamesFromHas(tables, k + 1, tables[i].name);
        if i > k {
          assert (i - k) * IdBlockLength == IdBlockLength + (i - (k + 1)) * IdBlockLength;
        }
      }
    }
  }

  /** Where the series of each position's table ends up, and which names are stored. */
  lemma IdSeriesAt(ts: seq<IdTable>, sw: nat -> Seconds, p: nat)
    requires 2 <= |ts| <= 4 && DistinctNames(ts) && forall i :: 0 <= i < |ts| ==> Utils.IsIdType(ts[i].idType)
    ensures var r := MeasureIds(ts, sw, p);
            && (forall name :: name in r.results <==> exists i :: 0 <= i < |ts| && ts[i].name == name)
            && MapsTo(r.results, ts[0].name, IdPoints(sw, p))
            && MapsTo(r.results, ts[1].name, IdPoints(sw, p + IdBlockLength))
            && (|ts| >= 3 ==> MapsTo(r.results, ts[2].name, IdPoints(sw, p + 2 * IdBlockLength)))
            && (|ts| == 4 ==> MapsTo(r.results, ts[3].name, IdPoints(sw, p + 3 * IdBlockLength)))
  {
    var acc := IdProgress([], map[], None);
    IdLoopResults(ts, 0, acc, sw, p);
    var r := MeasureIds(ts, sw, p);
    assert r == MeasureIdsFrom(ts, 0, acc, sw, p);
    forall name {
      NamesFromHas(ts, 0, name);
    }
    assert MapsTo(r.results, ts[0].name, IdPoints(sw, p + |acc.calls| + (0 - 0) * IdBlockLength));
    assert MapsTo(r.results, ts[1].name, IdPoints(sw, p + |acc.calls| + (1 - 0) * IdBlockLength));
    if |ts| >= 3 {
      assert MapsTo(r.results, ts[2].name, IdPoints(sw, p + |acc.calls| + (2 - 0) * IdBlockLength));
    }
    if |ts| == 4 {
      assert MapsTo(r.results, ts[3].name, IdPoints(sw, p + |acc.calls| + (3 - 0) * IdBlockLength));
    }
  }

  /** The id section of a loop over `id_test_char`, `id_test_int` and
      optionally `id_test_uuid` and `id_test_binary`, in that order. */
  lemma IdSectionAt(ts: seq<IdTable>, sw: nat -> Seconds, p: nat)
    requires 2 <= |ts| <= 4 && DistinctNames(ts) && forall i :: 0 <= i < |ts| ==> Utils.IsIdType(ts[i].idType)
    requires ts[0].name == "id_test_char" && ts[1].name == "id_test_int"
    requires |ts| >= 3 ==> ts[2].name == "id_test_uuid"
    requires |ts| == 4 ==> ts[3].name == "id_test_binary"
    ensures var r := MeasureIds(ts, sw, p);
            && r.failure.None? && |r.calls| == |ts| * IdBlockLength
            && IdSectionOf(r.results)
               == IdSection(Some(IdPoints(sw, p + IdBlockLength)),
                            if |ts| >= 3 then Some(IdPoints(sw, p + 2 * IdBlockLength)) else None,
                            if |ts| == 4 then Some(IdPoints(sw, p + 3 * IdBlockLength)) else None,
                            Some(IdPoints(sw, p)))
  {
    IdLoopCalls(ts, 0, IdProgress([], map[], None), sw, p);
    IdSeriesAt(ts, sw, p);
    assert "id_test_char"[8] == 'c' && "id_test_int"[8] == 'i' && "id_test_uuid"[8] == 'u' && "id_test_binary"[8] == 'b';
  }

  /** The id tables of a run with `ids`: `id_test_char` and `id_test_int`, then
      `id_test_uuid` and `id_test_binary` on PostgreSQL and `id_test_uuid` on
      MySQL; the id section holds the series of the tables the backend has and
      `None` for the others. */
  lemma IdLoop(b: Backend, sw: nat -> Seconds, p: nat)
    ensures var ts := IdTables(b, true);
            var r := MeasureIds(ts, sw, p);
            && |ts| == (if b == PostgresBackend then 4 else if b == MySqlBackend then 3 else 2)
            && r.failure.None? && |r.calls| == |ts| * IdBlockLength
            && IdSectionOf(r.results)
               == IdSection(Some(IdPoints(sw, p + IdBlockLength)),
                            if b != SqliteBackend then Some(IdPoints(sw, p + 2 * IdBlockLength)) else None,
                            if b == PostgresBackend then Some(IdPoints(sw, p + 3 * IdBlockLength)) else None,
                            Some(IdPoints(sw, p)))
  {
    var ts := IdTables(b, true);
    assert "id_test_char"[8] == 'c' && "id_test_int"[8] == 'i' && "id_test_uuid"[8] == 'u' && "id_test_binary"[8] == 'b';
    assert DistinctNames(ts);
    IdSectionAt(ts, sw, p);
  }

  /** Without `ids` there are no id tables and nothing runs. */
  lemma NoIdTables(b: Backend, sw: nat -> Seconds, p: nat)
    ensures MeasureIds(IdTables(b, false), sw, p) == IdProgress([], map[], None)
  {
  }

  // ---------------------------------------------------------------------------
  // Sections

  /** The four series a measured table stores. */
  predicate Measured(results: Results, name: string)
  {
    name in results && "plain" in results[name] && "ndx" in results[name]
    && "join_plain" in results[name] && "join_ndx" in results[name]
  }

  /** Building the sections needs every series of `str_test` and `int_test`,
      every series of `point_test` and `poly_test` when they are present and
      both join series of `point_poly_test` when it is present; a missing one
      raises `KeyError`. An absent geospatial table leaves its fields `None`. */
  lemma SectionsBuilt(results: Results)
    ensures var s := BuildSections(results);
            && (s.Ok? <==> Measured(results, "str_test") && Measured(results, "int_test")
                           && ("point_test" in results ==> Measured(results, "point_test"))
                           && ("poly_test" in results ==> Measured(results, "poly_test"))
                           && ("point_poly_test" in results ==> "join_plain" in results["point_poly_test"]
                                                                && "join_ndx" in results["point_poly_test"]))
            && (s.Err? ==> s.error == KeyError)
    ensures var s := BuildSections(results);
            s.Ok? ==>
              && s.value.selects.strPlain == results["str_test"]["plain"] && s.value.joins.strNdx == results["str_test"]["join_ndx"]
              && s.value.selects.intNdx == results["int_test"]["ndx"] && s.value.joins.intPlain == results["int_test"]["join_plain"]
              && (s.value.selects.pointPlain.Some? <==> "point_test" in results)
              && (s.value.joins.pointNdx.Some? <==> "point_test" in results)
              && (s.value.selects.polyNdx.Some? <==> "poly_test" in results)
              && (s.value.joins.polyPlain.Some? <==> "poly_test" in results)
              && (s.value.joins.pointPolyPlain.Some? <==> "point_poly_test" in results)
              && (s.value.joins.pointPolyNdx.Some? <==> "point_poly_test" in results)
  {
  }

  /** The sections of a run that measured only `int_test` and `str_test`. */
  lemma PlainSections(ri: map<string, seq<real>>, rs: map<string, seq<real>>)
    requires "plain" in ri && "ndx" in ri && "join_plain" in ri && "join_ndx" in ri
    requires "plain" in rs && "ndx" in rs && "join_plain" in rs && "join_ndx" in rs
    ensures BuildSections(map["int_test" := ri, "str_test" := rs])
            == Ok(Sections(SelectSection(rs["plain"], rs["ndx"], ri["plain"], ri["ndx"], None, None, None, None),
                           JoinSection(rs["join_plain"], rs["join_ndx"], ri["join_plain"], ri["join_ndx"],
                                       None, None, None, None, None, None)))
  {
  }

  /** The sections of a run that measured all four tables and the sweep. */
  lemma ShapedSections(ri: map<string, seq<real>>, rs: map<string, seq<real>>, rpt: map<string, seq<real>>,
                       rpp: map<string, seq<real>>, rpoly: map<string, seq<real>>)
    requires "plain" in ri && "ndx" in ri && "join_plain" in ri && "join_ndx" in ri
    requires "plain" in rs && "ndx" in rs && "join_plain" in rs && "join_ndx" in rs
    requires "plain" in rpt && "ndx" in rpt && "join_plain" in rpt && "join_ndx" in rpt
    requires "plain" in rpoly && "ndx" in rpoly && "join_plain" in rpoly && "join_ndx" in rpoly
    requires "join_plain" in rpp && "join_ndx" in rpp
    ensures BuildSections(map["int_test" := ri, "str_test" := rs, "point_test" := rpt][
                              "point_poly_test" := rpp]["poly_test" := rpoly])
            == Ok(Sections(SelectSection(rs["plain"], rs["ndx"], ri["plain"], ri["ndx"],
                                         Some(rpt["plain"]), Some(rpt["ndx"]), Some(rpoly["plain"]), Some(rpoly["ndx"])),
                           JoinSection(rs["join_plain"], rs["join_ndx"], ri["join_plain"], ri["join_ndx"],
                                       Some(rpt["join_plain"]), Some(rpt["join_ndx"]),
                                       Some(rpoly["join_plain"]), Some(rpoly["join_ndx"]),
                                       Some(rpp["join_plain"]), Some(rpp["join_ndx"]))))
  {
  }

  // ---------------------------------------------------------------------------
  // The adapters behind the run

  /** The adapter dialect standing behind a backend with an adapter here. */
  function DialectOf(b: Backend): Adapters.Dialect
  {
    if b == PostgresBackend then Adapters.Postgres else Adapters.Sqlite
  }

  /** On PostgreSQL and SQLite the calls the run makes are ones the adapter
      completes: every table's and id table's insertion (`id`, then its other
      columns) has a value for every row, so it never raises `IndexError`, and
      no SQLite table is geospatial, so `create_index` never raises
      `TypeError`. */
  lemma RunTablesHaveValues(b: Backend, geospatial: bool, ids: bool, n: nat, rnd: Adapters.Randomness)
    requires b == PostgresBackend || b == SqliteBackend
    ensures var d := DialectOf(b);
            && (forall t :: t in Tables(b, geospatial) ==>
                  Adapters.RowsAvailable(
                    Adapters.SharedColumnData(d, "id", t.idType, t.plain, t.plainType, Some(t.ndx), Some(t.ndxType), n, rnd),
                    Adapters.InsertColumns("id", t.plain, Some(t.ndx)), n))
            && (forall t :: t in IdTables(b, ids) ==>
                  Adapters.RowsAvailable(
                    Adapters.SharedColumnData(d, "id", t.idType, "num", Int, None, None, n, rnd),
                    Adapters.InsertColumns("id", "num", None), n))
            && (b == SqliteBackend ==> forall t :: t in Tables(b, geospatial) ==> !TableGeospatial(t.name))
  {
    var d := DialectOf(b);
    forall t | t in Tables(b, geospatial)
      ensures Adapters.RowsAvailable(
                Adapters.SharedColumnData(d, "id", t.idType, t.plain, t.plainType, Some(t.ndx), Some(t.ndxType), n, rnd),
                Adapters.InsertColumns("id", t.plain, Some(t.ndx)), n)
    {
      Adapters.GeneratedTypesInsert(d, "id", t.idType, t.plain, t.plainType, Some(t.ndx), Some(t.ndxType), n, rnd);
    }
    forall t | t in IdTables(b, ids)
      ensures Adapters.RowsAvailable(
                Adapters.SharedColumnData(d, "id", t.idType, "num", Int, None, None, n, rnd),
                Adapters.InsertColumns("id", "num", None), n)
    {
      Adapters.GeneratedTypesInsert(d, "id", t.idType, "num", Int, None, None, n, rnd);
    }
    TableRoles(b, geospatial);
  }

  // ---------------------------------------------------------------------------
  // A whole run

  /** The id section a run with `ids` reports when its id tables start at position `q`. */
  function IdSectionFrom(b: Backend, sw: nat -> Seconds, q: nat): IdSection
  {
    IdSection(Some(IdPoints(sw, q + IdBlockLength)),
              if b != SqliteBackend then Some(IdPoints(sw, q + 2 * IdBlockLength)) else None,
              if b == PostgresBackend then Some(IdPoints(sw, q + 3 * IdBlockLength)) else None,
              Some(IdPoints(sw, q)))
  }

  /** `num_points == 0` raises `ZeroDivisionError` before any call; a run that
      gets as far as assigning the report returns it exactly when `ids` is
      set, and otherwise raises `AttributeError` with the report already
      assigned; a run that returns a report has assigned that report. */
  lemma RunOutcomes(b: Backend, sw: nat -> Seconds, p: nat, start: int, geospatial: bool, ids: bool, numPoints: int)
    ensures var o := Run(b, sw, p, start, geospatial, ids, numPoints);
            && (numPoints == 0 ==> o == Outcome([], None, Err(ZeroDivisionError)))
            && (o.report.Some? ==> (o.report.value.ids.Some? <==> ids)
                                   && o.result == if ids then Ok(o.report.value) else Err(AttributeError))
            && (o.result.Ok? ==> o.report == Some(o.result.value))
  {
  }

  /** A run whose table loop and id loop both complete assigns the report
      built from their results, and returns it or raises `AttributeError`. */
  lemma RunReaches(b: Backend, sw: nat -> Seconds, p: nat, start: int, geospatial: bool, ids: bool, numPoints: int,
                   m: Progress, sections: Sections, im: IdProgress)
    requires numPoints != 0
    requires MeasureTables(Tables(b, geospatial), start, sw, p) == m && m.failure.None?
    requires BuildSections(m.results) == Ok(sections)
    requires MeasureIds(IdTables(b, ids), sw, p + |m.calls|) == im && im.failure.None?
    ensures var rep := Report(sections.selects, sections.joins, if ids then Some(IdSectionOf(im.results)) else None);
            Run(b, sw, p, start, geospatial, ids, numPoints)
            == Outcome(m.calls + im.calls, Some(rep), if ids then Ok(rep) else Err(AttributeError))
  {
  }

  /** The report of a run without geospatial tables whose first call is at `p`. */
  function PlainReport(b: Backend, sw: nat -> Seconds, p: nat, ids: bool): Report
  {
    var pl := 2 * RepetitionLength(false);
    Report(SelectSection(Means(sw, p + pl, false, 2, false, 0), Means(sw, p + pl, false, 2, false, 1),
                         Means(sw, p, false, 2, false, 0), Means(sw, p, false, 2, false, 1),
                         None, None, None, None),
           JoinSection(Means(sw, p + pl, false, 2, true, 0), Means(sw, p + pl, false, 2, true, 1),
                       Means(sw, p, false, 2, true, 0), Means(sw, p, false, 2, true, 1),
                       None, None, None, None, None, None),
           if ids then Some(IdSectionFrom(b, sw, p + 2 * pl)) else None)
  }

  /** The table loop of a run without geospatial tables completes after both
      plain tables and yields the sections of its report. */
  lemma PlainRunTables(b: Backend, geospatial: bool, start: int, sw: nat -> Seconds, p: nat, ids: bool)
    requires !MeasuresShapes(b, geospatial)
    ensures var m, rep := MeasureTables(Tables(b, geospatial), start, sw, p), PlainReport(b, sw, p, ids);
            && m.failure.None? && |m.calls| == 4 * RepetitionLength(false)
            && BuildSections(m.results) == Ok(Sections(rep.selects, rep.joins))
  {
    var ts := Tables(b, geospatial);
    TableSelection(b, geospatial);
    TableRoles(b, geospatial);
    TableBlockShape(ts[0], sw, p);
    var pl := 2 * RepetitionLength(false);
    TableBlockShape(ts[1], sw, p + pl);
    PlainTablesLoop(b, geospatial, start, sw, p);
    PlainSections(TableResult(ts[0], sw, p), TableResult(ts[1], sw, p + pl));
  }

  /** A run without geospatial tables (not asked for, or on SQLite): the two
      plain tables, `str_test` after `int_test`, then the id tables; the
      geospatial fields are `None`. */
  lemma RunWithoutShapes(b: Backend, sw: nat -> Seconds, p: nat, start: int, geospatial: bool, ids: bool, numPoints: int)
    requires numPoints != 0 && !MeasuresShapes(b, geospatial)
    ensures var o, rep := Run(b, sw, p, start, geospatial, ids, numPoints), PlainReport(b, sw, p, ids);
            && o.report == Some(rep)
            && o.result == (if ids then Ok(rep) else Err(AttributeError))
            && |o.calls| == 4 * RepetitionLength(false) + |IdTables(b, ids)| * IdBlockLength
  {
    PlainRunTables(b, geospatial, start, sw, p, ids);
    var m := MeasureTables(Tables(b, geospatial), start, sw, p);
    var im := MeasureIds(IdTables(b, ids), sw, p + |m.calls|);
    if ids {
      IdLoop(b, sw, p + |m.calls|);
    } else {
      NoIdTables(b, sw, p + |m.calls|);
    }
    RunReaches(b, sw, p, start, geospatial, ids, numPoints, m, BuildSections(m.results).value, im);
  }

  /** A geospatial PostgreSQL or MySQL run whose sweep step is zero: the
      `range` of the sweep raises `ValueError` after `int_test`, `str_test`
      and `point_test`, before the report is assigned. */
  lemma RunZeroSweepStep(b: Backend, sw: nat -> Seconds, p: nat, start: int, geospatial: bool, ids: bool, numPoints: int)
    requires numPoints != 0 && MeasuresShapes(b, geospatial) && SweepStep(start) == 0
    ensures var o := Run(b, sw, p, start, geospatial, ids, numPoints);
            && o.report.None? && o.result == Err(ValueError)
            && |o.calls| == 4 * RepetitionLength(false) + 2 * RepetitionLength(true)
  {
    ShapeTablesLoop(b, geospatial, start, sw, p);
  }

  /** The report of a geospatial PostgreSQL or MySQL run whose first call is
      at `p` and whose sweep step is not zero. */
  function ShapedReport(b: Backend, sw: nat -> Seconds, p: nat, start: int, ids: bool): Report
    requires SweepStep(start) != 0
  {
    var pl, sl := 2 * RepetitionLength(false), 2 * RepetitionLength(true);
    var n := |PyRange(start, 20000, SweepStep(start))|;
    var pointAt := p + 2 * pl;
    var sweepAt := pointAt + sl;
    var polyAt := sweepAt + 10 * n;
    Report(SelectSection(Means(sw, p + pl, false, 2, false, 0), Means(sw, p + pl, false, 2, false, 1),
                         Means(sw, p, false, 2, false, 0), Means(sw, p, false, 2, false, 1),
                         Some(Means(sw, pointAt, true, 2, false, 0)), Some(Means(sw, pointAt, true, 2, false, 1)),
                         Some(Means(sw, polyAt, true, 2, false, 0)), Some(Means(sw, polyAt, true, 2, false, 1))),
           JoinSection(Means(sw, p + pl, false, 2, true, 0), Means(sw, p + pl, false, 2, true, 1),
                       Means(sw, p, false, 2, true, 0), Means(sw, p, false, 2, true, 1),
                       Some(Means(sw, pointAt, true, 2, true, 0)), Some(Means(sw, pointAt, true, 2, true, 1)),
                       Some(Means(sw, polyAt, true, 2, true, 0)), Some(Means(sw, polyAt, true, 2, true, 1)),
                       Some(SweepMeans(sw, sweepAt, n, 0)), Some(SweepMeans(sw, sweepAt, n, 1))),
           if ids then Some(IdSectionFrom(b, sw, polyAt + sl)) else None)
  }

  /** The table loop of such a run completes after all four tables and the
      sweep and yields the sections of its report. */
  lemma ShapedRunTables(b: Backend, geospatial: bool, start: int, sw: nat -> Seconds, p: nat, ids: bool)
    requires MeasuresShapes(b, geospatial) && SweepStep(start) != 0
    ensures var m, rep := MeasureTables(Tables(b, geospatial), start, sw, p), ShapedReport(b, sw, p, start, ids);
            && m.failure.None?
            && |m.calls| == 4 * RepetitionLength(false) + 4 * RepetitionLength(true) + 10 * |PyRange(start, 20000, SweepStep(start))|
            && BuildSections(m.results) == Ok(Sections(rep.selects, rep.joins))
  {
    var ts := Tables(b, geospatial);
    TableSelection(b, geospatial);
    TableRoles(b, geospatial);
    ShapeTablesLoop(b, geospatial, start, sw, p);
    var pl, sl := 2 * RepetitionLength(false), 2 * RepetitionLength(true);
    var n := |PyRange(start, 20000, SweepStep(start))|;
    var pointAt := p + 2 * pl;
    ShapedSections(TableResult(ts[0], sw, p), TableResult(ts[1], sw, p + pl), TableResult(ts[2], sw, pointAt),
                   SweepResult(sw, pointAt + sl, n), TableResult(ts[3], sw, pointAt + sl + 10 * n));
  }

  /** A geospatial PostgreSQL or MySQL run with a non-zero sweep step: all
      four tables, the sweep after `point_test`, then the id tables; every
      field of the report is filled. */
  lemma RunWithShapes(b: Backend, sw: nat -> Seconds, p: nat, start: int, geospatial: bool, ids: bool, numPoints: int)
    requires numPoints != 0 && MeasuresShapes(b, geospatial) && SweepStep(start) != 0
    ensures var o, rep := Run(b, sw, p, start, geospatial, ids, numPoints), ShapedReport(b, sw, p, start, ids);
            && o.report == Some(rep)
            && o.result == (if ids then Ok(rep) else Err(AttributeError))
            && |o.calls| == 4 * RepetitionLength(false) + 4 * RepetitionLength(true)
                            + 10 * |PyRange(start, 20000, SweepStep(start))| + |IdTables(b, ids)| * IdBlockLength
  {
    ShapedRunTables(b, geospatial, start, sw, p, ids);
    var m := MeasureTables(Tables(b, geospatial), start, sw, p);
    var im := MeasureIds(IdTables(b, ids), sw, p + |m.calls|);
    if ids {
      IdLoop(b, sw, p + |m.calls|);
    } else {
      NoIdTables(b, sw, p + |m.calls|);
    }
    RunReaches(b, sw, p, start, geospatial, ids, numPoints, m, BuildSections(m.results).value, im);
  }
}
