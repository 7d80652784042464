/** The database adapters: the base class of databases/sql.py and its two
    subclasses in databases/postgresql.py and databases/sqlite.py, as one class
    whose `dialect` says which of the three it is. The driver is reduced to a
    log of the statements executed on the cursor, the fetches and the commits. */
module Adapters {
  import opened Outcomes
  import opened SqlTypes
  import Utils
  import Strings
  import Batching

  /** `Generic` is a plain `SqlDatabase`, whose backend-specific methods raise. */
  datatype Dialect = Generic | Postgres | Sqlite

  /** An open driver connection, described by the arguments it was opened with. */
  datatype Connection =
    | PgConnection(database: string, user: string, password: string, host: string, port: string, options: string)
    | SqliteConnection(path: string)

  /** A cursor, obtained from a connection. */
  datatype Cursor = CursorOf(connection: Connection)

  /** What the adapter does to its cursor and connection. */
  datatype Action = Execute(sql: string) | FetchAll | Commit

  /** How a method without a return value ends. */
  datatype Status = Done | Raised(error: Exception)

  /** A generated column value: an integer, or SQL text spliced in verbatim. */
  datatype SqlValue = IntVal(i: int) | Literal(text: string)

  /** The random source of value generation: the character draws of
      `random_string` for (column, row, position), and the geometry literals
      built from `random.uniform` for (column, row), which stay opaque. */
  datatype Randomness = Randomness(pick: (string, nat, nat) -> nat,
                                   point: (string, nat) -> string,
                                   polygon: (string, nat) -> string)

  // ---------------------------------------------------------------------------
  // Value generation

  function Quote(s: string): string
  {
    "'" + s + "'"
  }

  /** A quoted random string: `'` + `len` ASCII letters or digits + `'`. */
  predicate IsQuotedAlphanumeric(v: SqlValue, len: nat)
  {
    && v.Literal?
    && |v.text| == len + 2
    && v.text[0] == '\'' && v.text[len + 1] == '\''
    && forall k :: 1 <= k <= len ==> Utils.IsAlphanumeric(v.text[k])
  }

  /** The types each dialect generates values for. */
  function GeneratedTypes(d: Dialect): seq<string>
  {
    match d
    case Generic => []
    case Postgres => [Int, Text, PgPoint, PgPolygon, Bytea, Uuid, Char16]
    case Sqlite => [Int, Text, Char36, Char16]
  }

  function RandomLiteral(rnd: Randomness, col: string, i: nat, len: nat): (v: SqlValue)
    ensures IsQuotedAlphanumeric(v, len)
  {
    Literal(Quote(Utils.RandomString(len, k => rnd.pick(col, i, k))))
  }

  /** The value the generation loop appends for row `i` (counting from 1) of
      column `col` of type `t`, or `None` where no branch matches. */
  function ValueFor(d: Dialect, t: Option<string>, col: string, i: nat, rnd: Randomness): (v: Option<SqlValue>)
    ensures v.Some? <==> t.Some? && t.value in GeneratedTypes(d)
    ensures d != Generic && t == Some(Int) ==> v == Some(IntVal(i))
    ensures d != Generic && t == Some(Text) ==> v.Some? && IsQuotedAlphanumeric(v.value, 36)
    ensures d == Sqlite && t == Some(Char36) ==> v.Some? && IsQuotedAlphanumeric(v.value, 36)
    ensures d != Generic && t == Some(Char16) ==> v.Some? && IsQuotedAlphanumeric(v.value, 16)
    ensures d == Postgres && t == Some(Uuid) ==> v == Some(Literal("gen_random_uuid()"))
    ensures d == Postgres && t == Some(Bytea) ==> v == Some(Literal("gen_random_bytes(32)"))
  {
    if d == Generic || t.None? then None
    else if d == Postgres then
      var t := t.value;
      if t == Int then Some(IntVal(i))
      else if t == Text then Some(RandomLiteral(rnd, col, i, 36))
      else if t == PgPoint then Some(Literal(rnd.point(col, i)))
      else if t == PgPolygon then Some(Literal(rnd.polygon(col, i)))
      else if t == Bytea then Some(Literal("gen_random_bytes(32)"))
      else if t == Uuid then Some(Literal("gen_random_uuid()"))
      else if t == Char16 then Some(RandomLiteral(rnd, col, i, 16))
      else None
    else
      var t := t.value;
      if t == Int then Some(IntVal(i))
      else if t == Text || t == Char36 then Some(RandomLiteral(rnd, col, i, 36))
      else if t == Char16 then Some(RandomLiteral(rnd, col, i, 16))
      else None
  }

  /** The list the generation loop builds for one column: all n values of rows
      1..n when the type is generated, no value otherwise. */
  function Column(d: Dialect, t: Option<string>, col: string, n: nat, rnd: Randomness): seq<SqlValue>
  {
    if t.Some? && t.value in GeneratedTypes(d) then
      seq(n, k requires 0 <= k < n => ValueFor(d, t, col, k + 1, rnd).value)
    else []
  }

  /** The `columns` dictionary: column name to type; a repeated name keeps the
      last type, as a Python dict does. */
  function ColumnTypes(col1: string, type1: string, col2: string, type2: string,
                       col3: Option<string>, type3: Option<string>): map<string, Option<string>>
  {
    var m := map[col1 := Some(type1)][col2 := Some(type2)];
    if col3.Some? then m[col3.value := type3] else m
  }

  /** `column_data` once every column has been generated. */
  function ColumnData(d: Dialect, columns: map<string, Option<string>>, n: nat, rnd: Randomness)
    : map<string, seq<SqlValue>>
  {
    map c | c in columns :: Column(d, columns[c], c, n, rnd)
  }

  /** One column's generation loop: for i in 1..n, append the value of row
      i when the type has a branch. */
  method GenerateColumn(d: Dialect, t: Option<string>, col: string, n: nat, rnd: Randomness)
    returns (values: seq<SqlValue>)
    ensures values == Column(d, t, col, n, rnd)
  {
    values := [];
    var i := 1;
    while i <= n
      invariant 1 <= i <= n + 1
      invariant values == Column(d, t, col, i - 1, rnd)
    {
      var v := ValueFor(d, t, col, i, rnd);
      if v.Some? {
        assert Column(d, t, col, i, rnd) == Column(d, t, col, i - 1, rnd) + [v.value];
        values := values + [v.value];
      }
      i := i + 1;
    }
  }

  /** The generation loops of `insert_dummy_data`: every column of the
      dictionary, in any order, gets its list. */
  method GenerateColumnData(d: Dialect, columns: map<string, Option<string>>, n: nat, rnd: Randomness)
    returns (data: map<string, seq<SqlValue>>)
    ensures data == ColumnData(d, columns, n, rnd)
  {
    data := map c | c in columns :: [];
    var remaining := columns.Keys;
    while remaining != {}
      invariant remaining <= columns.Keys
      invariant data.Keys == columns.Keys
      invariant forall c :: c in columns && c !in remaining ==> data[c] == Column(d, columns[c], c, n, rnd)
      decreases remaining
    {
      var c :| c in remaining;
      var values := GenerateColumn(d, columns[c], c, n, rnd);
      data := data[c := values];
      remaining := remaining - {c};
    }
  }

  /** `column_data` after the sharing step: when `type3 == type2` the third
      column gets the second column's list. */
  function SharedColumnData(d: Dialect, col1: string, type1: string, col2: string, type2: string,
                            col3: Option<string>, type3: Option<string>, n: nat, rnd: Randomness)
    : (data: map<string, seq<SqlValue>>)
    ensures data.Keys == ColumnTypes(col1, type1, col2, type2, col3, type3).Keys
  {
    var data := ColumnData(d, ColumnTypes(col1, type1, col2, type2, col3, type3), n, rnd);
    if col3.Some? && type3 == Some(type2) then data[col3.value := data[col2]] else data
  }

  // ---------------------------------------------------------------------------
  // Statement text

  function DigitChar(k: nat): char
    requires k < 10
  {
    ('0' as int + k) as char
  }

  function NatText(n: nat): string
  {
    if n < 10 then [DigitChar(n)] else NatText(n / 10) + [DigitChar(n % 10)]
  }

  /** `str(i)` for an integer. */
  function IntText(i: int): string
  {
    if i < 0 then "-" + NatText(-i) else NatText(i)
  }

  /** How a value appears in an f-string. */
  function Render(v: SqlValue): string
  {
    match v
    case IntVal(i) => IntText(i)
    case Literal(s) => s
  }

  /** The columns named in the statement: two, or three when `col3` is given. */
  function InsertColumns(col1: string, col2: string, col3: Option<string>): seq<string>
  {
    [col1, col2] + if col3.Some? then [col3.value] else []
  }

  /** `query_head`: `insert into {table} ({cols}) values `. */
  function InsertHead(table: string, cols: seq<string>): string
  {
    "insert into " + table + " (" + Strings.Join(cols, ", ") + ") values "
  }

  /** Every listed column has a value for row `i` (otherwise indexing raises). */
  predicate HasRow(data: map<string, seq<SqlValue>>, cols: seq<string>, i: nat)
  {
    forall k :: 0 <= k < |cols| ==> cols[k] in data && i < |data[cols[k]]|
  }

  /** The text appended for row `i`: `\n(v1, v2[, v3])`. */
  function RowText(data: map<string, seq<SqlValue>>, cols: seq<string>, i: nat): string
    requires HasRow(data, cols, i)
  {
    "\n(" + Strings.Join(seq(|cols|, k requires 0 <= k < |cols| => Render(data[cols[k]][i])), ", ") + ")"
  }

  predicate RowsAvailable(data: map<string, seq<SqlValue>>, cols: seq<string>, n: nat)
  {
    forall i :: 0 <= i < n ==> HasRow(data, cols, i)
  }

  function RowTexts(data: map<string, seq<SqlValue>>, cols: seq<string>, n: nat): seq<string>
    requires RowsAvailable(data, cols, n)
  {
    seq(n, i requires 0 <= i < n => RowText(data, cols, i))
  }

  /** One executed insert: the head, the batch's rows separated by commas, `;`. */
  function Statement(head: string, batch: seq<string>): string
  {
    head + Strings.Join(batch, ",") + ";"
  }

  /** The actions of a sequence of flushes: each statement executed, then committed. */
  function BatchLog(head: string, batches: seq<seq<string>>): seq<Action>
  {
    if |batches| == 0 then []
    else BatchLog(head, batches[..|batches| - 1]) + [Execute(Statement(head, batches[|batches| - 1])), Commit]
  }

  // ---------------------------------------------------------------------------
  // The adapter

  class SqlDatabase {
    const dialect: Dialect
    const dbName: string
    const username: string
    const password: string
    var connection: Option<Connection>
    var cursor: Option<Cursor>
    /** Every action performed on the cursor and the connection, in order. */
    var log: seq<Action>

    /** Only the base class lacks a connection and a cursor. */
    ghost predicate Valid()
      reads this
    {
      && (connection.None? <==> dialect == Generic)
      && (cursor.None? <==> dialect == Generic)
    }

    /** `SqlDatabase.__init__`: store the credentials, no connection, no cursor. */
    constructor (dbName: string, username: string, password: string)
      ensures Valid()
      ensures this.dialect == Generic
      ensures this.dbName == dbName && this.username == username && this.password == password
      ensures connection == None && cursor == None && log == []
    {
      this.dialect := Generic;
      this.dbName := dbName;
      this.username := username;
      this.password := password;
      connection := None;
      cursor := None;
      log := [];
    }

    /** `PostgresDatabase.__init__`: the credentials, then an open connection and cursor. */
    constructor PostgresDatabase(dbName: string, username: string, password: string, schema: string)
      ensures Valid()
      ensures this.dialect == Postgres
      ensures this.dbName == dbName && this.username == username && this.password == password
      ensures connection == Some(PgConnection(dbName, username, password, "localhost", "5432", "-c search_path=" + schema))
      ensures cursor == Some(CursorOf(connection.value)) && log == []
    {
      this.dialect := Postgres;
      this.dbName := dbName;
      this.username := username;
      this.password := password;
      var conn := PgConnection(dbName, username, password, "localhost", "5432", "-c search_path=" + schema);
      connection := Some(conn);
      cursor := Some(CursorOf(conn));
      log := [];
    }

    /** `SqliteDatabase.__init__`: empty credentials, then an open connection and cursor. */
    constructor SqliteDatabase(path: string)
      ensures Valid()
      ensures this.dialect == Sqlite
      ensures this.dbName == "" && this.username == "" && this.password == ""
      ensures connection == Some(SqliteConnection(path)) && cursor == Some(CursorOf(SqliteConnection(path))) && log == []
    {
      this.dialect := Sqlite;
      this.dbName := "";
      this.username := "";
      this.password := "";
      connection := Some(SqliteConnection(path));
      cursor := Some(CursorOf(SqliteConnection(path)));
      log := [];
    }

    /** `time_query`: execute once; fetch all rows when read-only, otherwise
        commit. The clock readings before and after are parameters. Without a
        cursor the `execute` raises `AttributeError`. */
    method TimeQuery(query: string, readOnly: bool, before: real, after: real) returns (r: Result<real>)
      requires Valid()
      modifies this`log
      ensures cursor.None? ==> r == Err(AttributeError) && log == old(log)
      ensures cursor.Some? ==> r == Ok(after - before)
      ensures cursor.Some? ==> log == old(log) + [Execute(query), if readOnly then FetchAll else Commit]
    {
      if cursor.None? {
        return Err(AttributeError);
      }
      log := log + [Execute(query)];
      if readOnly {
        log := log + [FetchAll];
      } else {
        log := log + [Commit];
      }
      r := Ok(after - before);
    }

    /** `drop_index`: abstract in the base class; otherwise execute
        `drop index {index};` and commit. The table is not used. */
    method DropIndex(index: string, table: Option<string>) returns (r: Status)
      requires Valid()
      modifies this`log
      ensures dialect == Generic ==> r == Raised(NotImplementedError) && log == old(log)
      ensures dialect != Generic ==> r == Done && log == old(log) + [Execute("drop index " + index + ";"), Commit]
    {
      if dialect == Generic {
        return Raised(NotImplementedError);
      }
      log := log + [Execute("drop index " + index + ";")];
      log := log + [Commit];
      r := Done;
    }

    /** `create_index`: abstract in the base class; PostgreSQL builds a GIST
        index for geospatial columns; SQLite rejects them with `TypeError`
        before executing anything; otherwise a unique index. No commit. */
    method CreateIndex(table: string, index: string, column: string, geospatial: bool) returns (r: Status)
      requires Valid()
      modifies this`log
      ensures dialect == Generic ==> r == Raised(NotImplementedError) && log == old(log)
      ensures dialect == Sqlite && geospatial ==> r == Raised(TypeError) && log == old(log)
      ensures dialect == Postgres && geospatial ==>
                r == Done && log == old(log) + [Execute("create index " + index + " on " + table + " using GIST (" + column + ");")]
      ensures dialect != Generic && !geospatial ==>
                r == Done && log == old(log) + [Execute("create unique index " + index + " on " + table + " (" + column + ");")]
    {
      if dialect == Generic {
        return Raised(NotImplementedError);
      }
      if geospatial {
        if dialect == Sqlite {
          return Raised(TypeError);
        }
        log := log + [Execute("create index " + index + " on " + table + " using GIST (" + column + ");")];
      } else {
        log := log + [Execute("create unique index " + index + " on " + table + " (" + column + ");")];
      }
      r := Done;
    }

    /** `clear_table`: `delete from {table};`, commit, then `drop_index` when
        an index name is given. */
    method ClearTable(table: string, index: Option<string>) returns (r: Status)
      requires Valid()
      modifies this`log
      ensures cursor.None? ==> r == Raised(AttributeError) && log == old(log)
      ensures cursor.Some? ==> r == Done
      ensures cursor.Some? ==>
                log == old(log) + [Execute("delete from " + table + ";"), Commit]
                       + if index.Some? then [Execute("drop index " + index.value + ";"), Commit] else []
    {
      if cursor.None? {
        return Raised(AttributeError);
      }
      log := log + [Execute("delete from " + table + ";")];
      log := log + [Commit];
      r := Done;
      if index.Some? {
        r := DropIndex(index.value, Some(table));
      }
    }

    /** `insert_dummy_data`: generate the column values, share col2's list
        with col3 when their types agree, then append the rows one by one to a
        pending statement, executing and committing it at every flush point.
        A column without values makes the first row's indexing raise
        `IndexError` before anything is executed. */
    method InsertDummyData(table: string, n: int, col1: string, type1: string, col2: string, type2: string,
                           col3: Option<string>, type3: Option<string>, rnd: Randomness) returns (r: Status)
      requires Valid()
      modifies this`log
      ensures dialect == Generic ==> r == Raised(NotImplementedError) && log == old(log)
      ensures dialect != Generic ==>
                var rows := if n < 0 then 0 else n;
                var data := SharedColumnData(dialect, col1, type1, col2, type2, col3, type3, rows, rnd);
                var cols := InsertColumns(col1, col2, col3);
                if RowsAvailable(data, cols, rows) then
                  r == Done && log == old(log) + BatchLog(InsertHead(table, cols), Batching.Batches(RowTexts(data, cols, rows)))
                else
                  r == Raised(IndexError) && log == old(log)
    {
      if dialect == Generic {
        return Raised(NotImplementedError);
      }
      var rows := if n < 0 then 0 else n;
      var columns := ColumnTypes(col1, type1, col2, type2, col3, type3);
      var data := GenerateColumnData(dialect, columns, rows, rnd);
      if col3.Some? && type3 == Some(type2) {
        data := data[col3.value := data[col2]];
      }
      assert data == SharedColumnData(dialect, col1, type1, col2, type2, col3, type3, rows, rnd);
      var cols := InsertColumns(col1, col2, col3);
      ListsFullOrEmpty(dialect, col1, type1, col2, type2, col3, type3, rows, rnd);
      r := InsertRows(InsertHead(table, cols), data, cols, rows);
    }

    /** Trim the pending statement's last comma, end it with `;`, execute it
        and commit. */
    method Flush(query: string, ghost head: string, ghost pending: seq<string>,
                 ghost base: seq<Action>, ghost done: seq<seq<string>>)
      requires |pending| > 0 && query == head + Strings.Terminated(pending, ",")
      requires log == base + BatchLog(head, done)
      modifies this`log
      ensures log == base + BatchLog(head, done + [pending])
    {
      FlushedStatement(head, pending);
      BatchLogAppend(head, done, pending);
      log := log + [Execute(query[..|query| - 1] + ";")];
      log := log + [Commit];
    }

    /** The insertion loop proper: append each row to the pending statement and
        flush it at every flush point. `data`'s lists either cover all rows or
        leave row 0 out, so the loop raises at row 0 or not at all. */
    method InsertRows(head: string, data: map<string, seq<SqlValue>>, cols: seq<string>, rows: nat)
      returns (r: Status)
      requires RowsAvailable(data, cols, rows) || !HasRow(data, cols, 0)
      modifies this`log
      ensures RowsAvailable(data, cols, rows) ==>
                r == Done && log == old(log) + BatchLog(head, Batching.Batches(RowTexts(data, cols, rows)))
      ensures !RowsAvailable(data, cols, rows) ==> r == Raised(IndexError) && log == old(log)
    {
      ghost var available := RowsAvailable(data, cols, rows);
      ghost var texts := if available then RowTexts(data, cols, rows) else [];
      ghost var pending: seq<string> := [];
      ghost var done: seq<seq<string>> := [];
      var query := head;
      var i := 0;
      while i < rows
        invariant 0 <= i <= rows
        invariant !available ==> i == 0 && pending == [] && done == []
        invariant available ==> |texts| == rows && done + Batching.BatchesFrom(texts, i, pending) == Batching.Batches(texts)
        invariant query == head + Strings.Terminated(pending, ",")
        invariant log == old(log) + BatchLog(head, done)
      {
        if !HasRow(data, cols, i) {
          return Raised(IndexError);
        }
        var row := RowText(data, cols, i);
        assert available && row == texts[i];
        Batching.BatchesFromStep(texts, i, pending, done);
        query := query + row + ",";
        AppendPending(head, pending, row);
        pending := pending + [row];
        if (i % 500 == 0 && i > 0) || i == rows - 1 {
          Flush(query, head, pending, old(log), done);
          done := done + [pending];
          pending := [];
          query := head;
        }
        i := i + 1;
      }
      assert Batching.BatchesFrom(texts, rows, pending) == [];
      assert done + [] == done;
      r := Done;
    }
  }

  lemma BatchLogAppend(head: string, done: seq<seq<string>>, batch: seq<string>)
    ensures BatchLog(head, done + [batch]) == BatchLog(head, done) + [Execute(Statement(head, batch)), Commit]
  {
    assert (done + [batch])[..|done|] == done;
  }

  lemma AppendPending(head: string, pending: seq<string>, row: string)
    ensures head + Strings.Terminated(pending, ",") + row + "," == head + Strings.Terminated(pending + [row], ",")
  {
    assert (pending + [row])[..|pending|] == pending;
  }

  /** Trimming the pending statement's last comma and adding `;` gives the
      statement of the batch. */
  lemma FlushedStatement(head: string, pending: seq<string>)
    requires |pending| > 0
    ensures var q := head + Strings.Terminated(pending, ",");
            |q| > 0 && q[..|q| - 1] + ";" == Statement(head, pending)
  {
    Strings.TerminatedIsJoinedPlusSep(pending, ",");
    var q := head + Strings.Terminated(pending, ",");
    assert q == head + Strings.Join(pending, ",") + ",";
    assert q[..|q| - 1] == head + Strings.Join(pending, ",");
  }

  /** Each list of `column_data` holds either all n values or none; so
      indexing fails for some row exactly when it fails for row 0. */
  lemma ListsFullOrEmpty(d: Dialect, col1: string, type1: string, col2: string, type2: string,
                         col3: Option<string>, type3: Option<string>, n: nat, rnd: Randomness)
    ensures var data := SharedColumnData(d, col1, type1, col2, type2, col3, type3, n, rnd);
            var cols := InsertColumns(col1, col2, col3);
            && (forall k :: 0 <= k < |cols| ==> cols[k] in data && (|data[cols[k]]| == n || data[cols[k]] == []))
            && (RowsAvailable(data, cols, n) <==> n == 0 || HasRow(data, cols, 0))
  {
  }

  // ---------------------------------------------------------------------------
  // Properties of the generated data and of the executed statements

  /** An int column holds the row numbers 1..n, in order. */
  lemma IntColumnIsRowNumbers(d: Dialect, col: string, n: nat, rnd: Randomness)
    requires d != Generic
    ensures |Column(d, Some(Int), col, n, rnd)| == n
    ensures forall k :: 0 <= k < n ==> Column(d, Some(Int), col, n, rnd)[k] == IntVal(k + 1)
  {
  }

  /** A column has values exactly when its type has a branch in the dialect,
      and then it has one per row. */
  lemma ColumnFilledIffGenerated(d: Dialect, t: Option<string>, col: string, n: nat, rnd: Randomness)
    requires n > 0
    ensures Column(d, t, col, n, rnd) != [] <==> t.Some? && t.value in GeneratedTypes(d)
    ensures Column(d, t, col, n, rnd) != [] ==> |Column(d, t, col, n, rnd)| == n
  {
    if t.Some? && t.value in GeneratedTypes(d) {
      assert Column(d, t, col, n, rnd)[0] == ValueFor(d, t, col, 1, rnd).value;
    }
  }

  /** The row numbers are positive, so the `-1` of the sentinel queries never
      matches a generated integer key. */
  lemma GeneratedIntegersPositive(d: Dialect, t: Option<string>, col: string, n: nat, rnd: Randomness)
    ensures forall k :: 0 <= k < |Column(d, t, col, n, rnd)| && Column(d, t, col, n, rnd)[k].IntVal? ==>
              Column(d, t, col, n, rnd)[k].i >= 1
  {
  }

  /** The two dialects generate the same values for the types they share. */
  lemma DialectsAgree(t: string, col: string, i: nat, rnd: Randomness)
    requires t in [Int, Text, Char16]
    ensures ValueFor(Postgres, Some(t), col, i, rnd) == ValueFor(Sqlite, Some(t), col, i, rnd)
  {
  }

  /** `char(36)` has a branch only in SQLite and the geometry, `bytea` and `uuid`
      types only in PostgreSQL. */
  lemma DialectSpecificTypes()
    ensures Char36 in GeneratedTypes(Sqlite) && Char36 !in GeneratedTypes(Postgres)
    ensures forall t :: t in [PgPoint, PgPolygon, Bytea, Uuid] ==> t in GeneratedTypes(Postgres) && t !in GeneratedTypes(Sqlite)
    ensures GeneratedTypes(Generic) == []
  {
  }

  /** When `type3 == type2` the third column repeats the second one's values
      row by row. */
  lemma SharedColumnsEqual(d: Dialect, col1: string, type1: string, col2: string, type2: string,
                           col3: string, n: nat, rnd: Randomness)
    ensures var data := SharedColumnData(d, col1, type1, col2, type2, Some(col3), Some(type2), n, rnd);
            col3 in data && col2 in data && data[col3] == data[col2]
  {
  }

  /** Without sharing, each column's list is generated from its own type. */
  lemma UnsharedColumns(d: Dialect, col1: string, type1: string, col2: string, type2: string,
                        col3: Option<string>, type3: Option<string>, n: nat, rnd: Randomness, c: string)
    requires !(col3.Some? && type3 == Some(type2))
    requires c in ColumnTypes(col1, type1, col2, type2, col3, type3)
    ensures var columns := ColumnTypes(col1, type1, col2, type2, col3, type3);
            SharedColumnData(d, col1, type1, col2, type2, col3, type3, n, rnd)[c] == Column(d, columns[c], c, n, rnd)
  {
  }

  /** The insertion raises `IndexError` exactly when there are rows to insert
      and one of the listed columns got no values. */
  lemma IndexErrorExactly(d: Dialect, col1: string, type1: string, col2: string, type2: string,
                          col3: Option<string>, type3: Option<string>, n: nat, rnd: Randomness)
    ensures var data := SharedColumnData(d, col1, type1, col2, type2, col3, type3, n, rnd);
            var cols := InsertColumns(col1, col2, col3);
            !RowsAvailable(data, cols, n) <==> n > 0 && exists k :: 0 <= k < |cols| && data[cols[k]] == []
  {
    ListsFullOrEmpty(d, col1, type1, col2, type2, col3, type3, n, rnd);
  }

  /** When every listed column's type has a branch in the dialect, every row
      has all its values, so the insertion never raises `IndexError`. */
  lemma GeneratedTypesInsert(d: Dialect, col1: string, type1: string, col2: string, type2: string,
                             col3: Option<string>, type3: Option<string>, n: nat, rnd: Randomness)
    requires type1 in GeneratedTypes(d) && type2 in GeneratedTypes(d)
    requires col3.Some? ==> type3.Some? && type3.value in GeneratedTypes(d)
    ensures RowsAvailable(SharedColumnData(d, col1, type1, col2, type2, col3, type3, n, rnd), InsertColumns(col1, col2, col3), n)
  {
    var columns := ColumnTypes(col1, type1, col2, type2, col3, type3);
    var data := SharedColumnData(d, col1, type1, col2, type2, col3, type3, n, rnd);
    var cols := InsertColumns(col1, col2, col3);
    assert forall c :: c in columns ==> columns[c].Some? && columns[c].value in GeneratedTypes(d);
    IndexErrorExactly(d, col1, type1, col2, type2, col3, type3, n, rnd);
    if n > 0 {
      forall k | 0 <= k < |cols|
        ensures data[cols[k]] != []
      {
        var c := cols[k];
        if col3.Some? && type3 == Some(type2) && c == col3.value {
          ColumnFilledIffGenerated(d, columns[col2], col2, n, rnd);
        } else {
          ColumnFilledIffGenerated(d, columns[c], c, n, rnd);
        }
      }
    }
  }

  /** The log of the flushes alternates statement and commit, one pair per batch. */
  lemma {:induction false} BatchLogShape(head: string, batches: seq<seq<string>>)
    ensures |BatchLog(head, batches)| == 2 * |batches|
    ensures forall k :: 0 <= k < |batches| ==>
              BatchLog(head, batches)[2 * k] == Execute(Statement(head, batches[k])) &&
              BatchLog(head, batches)[2 * k + 1] == Commit
  {
    if |batches| > 0 {
      var init := batches[..|batches| - 1];
      BatchLogShape(head, init);
      assert forall k :: 0 <= k < |init| ==> batches[k] == init[k];
    }
  }

  /** The number of statements an insertion of n rows executes: none for no
      rows, one up to 501 rows, then one more per started 500 rows. */
  lemma InsertStatementCount(rows: seq<string>)
    ensures |Batching.Batches(rows)| == if |rows| == 0 then 0 else if |rows| <= 501 then 1 else 1 + (|rows| - 501 + 499) / 500
  {
    Batching.BatchesAreReference(rows);
    if |rows| > 501 {
      ChunkCount(rows[501..]);
    }
  }

  lemma {:induction false} ChunkCount(s: seq<string>)
    ensures |Batching.Chunks(s, 500)| == (|s| + 499) / 500
    decreases |s|
  {
    if |s| > 500 {
      ChunkCount(s[500..]);
      assert (|s| + 499) / 500 == 1 + (|s| - 500 + 499) / 500;
    }
  }
}
