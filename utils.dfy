/** The column type names, exactly as the benchmark spells them in its SQL. */
module SqlTypes {
  const Int: string := "int"
  const Text: string := "text"
  const Char36: string := "char(36)"
  const Char16: string := "char(16)"
  /** PostGIS geometry types. */
  const PgPoint: string := "geometry(point, 4326)"
  const PgPolygon: string := "geometry(polygon, 4326)"
  /** MySQL spatial types. */
  const MyPoint: string := "point not null srid 4326"
  const MyPolygon: string := "polygon not null srid 4326"
  /** Identifier types. */
  const Uuid: string := "uuid"
  const Bytea: string := "bytea"
  const Binary16: string := "binary(16)"
}

/** utils.py: random strings and the query templates. */
module Utils {
  import opened Outcomes
  import opened SqlTypes
  import Strings

  // ---------------------------------------------------------------------------
  // random_string

  const AsciiUppercase: string := "ABCDEFGHIJKLMNOPQRSTUVWXYZ"
  const AsciiLowercase: string := "abcdefghijklmnopqrstuvwxyz"
  const Digits: string := "0123456789"
  /** The alphabet `random_string` draws from, in Python's order. */
  const Characters: string := AsciiUppercase + AsciiLowercase + Digits

  predicate IsAlphanumeric(c: char)
  {
    'A' <= c <= 'Z' || 'a' <= c <= 'z' || '0' <= c <= '9'
  }

  /** Position of an alphanumeric character in `Characters`. */
  function AlphabetIndex(c: char): (k: nat)
    requires IsAlphanumeric(c)
    ensures k < |Characters| && Characters[k] == c
  {
    AlphabetShape();
    if 'A' <= c <= 'Z' then c as int - 'A' as int
    else if 'a' <= c <= 'z' then 26 + (c as int - 'a' as int)
    else 52 + (c as int - '0' as int)
  }

  /** `Characters` is the 26 upper-case letters, the 26 lower-case letters and
      the 10 digits, each range in order. */
  lemma AlphabetShape()
    ensures |Characters| == 62
    ensures forall k :: 0 <= k < 26 ==> Characters[k] == ('A' as int + k) as char
    ensures forall k :: 26 <= k < 52 ==> Characters[k] == ('a' as int + (k - 26)) as char
    ensures forall k :: 52 <= k < 62 ==> Characters[k] == ('0' as int + (k - 52)) as char
  {
  }

  /** `random_string(length)`: `random.choices` picks, for position i, the
      character at index `choose(i)` (reduced into the alphabet); the random
      source is the parameter `choose`. */
  function RandomString(length: nat, choose: nat -> nat): (s: string)
    ensures |s| == length
    ensures forall i :: 0 <= i < |s| ==> IsAlphanumeric(s[i])
  {
    AlphabetShape();
    seq(length, i requires 0 <= i < length => Characters[choose(i) % |Characters|])
  }

  /** Conversely, every alphanumeric string of the right length is a possible
      result: the alphabet is exactly the ASCII letters and digits. */
  lemma RandomStringCanYieldAny(s: string)
    requires forall i :: 0 <= i < |s| ==> IsAlphanumeric(s[i])
    ensures exists choose: nat -> nat :: RandomString(|s|, choose) == s
  {
    var choose := (i: nat) => if i < |s| then AlphabetIndex(s[i]) else 0;
    var r := RandomString(|s|, choose);
    forall i | 0 <= i < |s|
      ensures r[i] == s[i]
    {
      var k := AlphabetIndex(s[i]);
      assert choose(i) == k;
      assert k % 62 == k;
    }
    assert r == s;
  }

  // ---------------------------------------------------------------------------
  // generate_queries

  /** Python renders `None` in an f-string as the text "None". */
  function OptText(o: Option<string>): string
  {
    match o
    case None => "None"
    case Some(s) => s
  }

  /** The same-type pairings `generate_queries` recognises. */
  predicate IsPairType(t: string)
  {
    t == Int || t == Text || t == Char36 || t == PgPoint || t == PgPolygon || t == MyPoint || t == MyPolygon
  }

  /** The polygon used by both spatial `st_overlaps` where-queries. */
  const ReferencePolygon: string := "POLYGON((30 10, 40 40, 20 40, 10 20, 30 10))"

  /** The where-predicate for one column of type `t`, when `t` has one. */
  function WherePredicate(t: string, col: string): (p: Option<string>)
    ensures p.Some? <==> IsPairType(t)
  {
    if t == Int then Some(col + " = -1;")
    else if t == Text then Some(col + " = 'a';")
    else if t == Char36 then Some(col + " = '" + Strings.Repeat('a', 36) + "';")
    else if t == PgPoint then
      Some("st_dwithin('0101000020E6100000C8A6504D69534940ACCE10014CF562C0'::geometry, " + col + ", 10);")
    else if t == PgPolygon then
      Some("st_overlaps(st_setsrid('" + ReferencePolygon + "'::geometry, 4326), " + col + ");")
    else if t == MyPoint then
      Some("st_distance_sphere(st_geomfromtext('POINT(0 0)', 4326), " + col + ") < 10;")
    else if t == MyPolygon then
      Some("st_overlaps(" + col + ", st_geomfromtext('" + ReferencePolygon + "', 4326));")
    else None
  }

  /** The self-join predicate between `a.col` and `b.col` for type `t`. */
  function JoinPredicate(t: string, col: string): (p: Option<string>)
    ensures p.Some? <==> IsPairType(t)
  {
    if t == Int || t == Text || t == Char36 then Some("a." + col + " = b." + col + ";")
    else if t == PgPoint then Some("st_dwithin(a." + col + ", b." + col + ", 10);")
    else if t == PgPolygon || t == MyPolygon then Some("st_overlaps(a." + col + ", b." + col + ");")
    else if t == MyPoint then Some("st_distance_sphere(a." + col + ", b." + col + ") < 10;")
    else None
  }

  /** The cross-table case: a second table whose first and third types are the
      PostGIS point and polygon. */
  predicate IsCrossJoin(table2: Option<string>, type1: string, type3: Option<string>)
  {
    table2.Some? && type1 == PgPoint && type3 == Some(PgPolygon)
  }

  function SelectWhere(table: string, cond: string): string
  {
    "select * from " + table + " where " + cond
  }

  function SelectJoin(table: string, table2: string, cond: string): string
  {
    "select * from " + table + " a join " + table2 + " b on " + cond
  }

  /** `generate_queries`: two containment joins in the cross-table case, else
      the four same-type queries, else the `TypeError` of iterating over a
      `where` that stayed `None`; `type4` is accepted and never read. */
  function GenerateQueries(table: string, col1: string, type1: string, col2: string, type2: string,
                           table2: Option<string>, col3: Option<string>, type3: Option<string>,
                           col4: Option<string>, type4: Option<string>): (r: Result<seq<string>>)
    ensures r.Ok? <==> IsCrossJoin(table2, type1, type3) || (type1 == type2 && IsPairType(type1))
    ensures r.Err? ==> r.error == TypeError
    ensures r.Ok? ==> |r.value| == if IsCrossJoin(table2, type1, type3) then 2 else 4
  {
    if IsCrossJoin(table2, type1, type3) then
      Ok([SelectJoin(table, table2.value, "st_contains(b." + OptText(col3) + ", a." + col1 + ");"),
          SelectJoin(table, table2.value, "st_contains(b." + OptText(col4) + ", a." + col2 + ");")])
    else if type1 == type2 && IsPairType(type1) then
      Ok([SelectWhere(table, WherePredicate(type1, col1).value),
          SelectWhere(table, WherePredicate(type1, col2).value),
          SelectJoin(table, table, JoinPredicate(type1, col1).value),
          SelectJoin(table, table, JoinPredicate(type1, col2).value)])
    else
      Err(TypeError)
  }

  /** The single-table form of the call (no second table). */
  function GenerateSingleTableQueries(table: string, col1: string, type1: string, col2: string, type2: string)
    : Result<seq<string>>
  {
    GenerateQueries(table, col1, type1, col2, type2, None, None, None, None, None)
  }

  /** With a second table whose types are not point/polygon, the second table
      and its columns are ignored: the call equals the single-table call. */
  lemma CrossTableFallsThrough(table: string, col1: string, type1: string, col2: string, type2: string,
                               table2: Option<string>, col3: Option<string>, type3: Option<string>,
                               col4: Option<string>, type4: Option<string>)
    requires !IsCrossJoin(table2, type1, type3)
    ensures GenerateQueries(table, col1, type1, col2, type2, table2, col3, type3, col4, type4)
         == GenerateSingleTableQueries(table, col1, type1, col2, type2)
  {
  }

  /** The cross-table case: the first query tests whether `b.col3` contains
      `a.col1`, the second whether `b.col4` contains `a.col2`; the types of
      col2 and col4 play no part. */
  lemma CrossTableQueries(table: string, col1: string, col2: string, type2: string, table2: string,
                          col3: string, col4: string, type4: Option<string>)
    ensures GenerateQueries(table, col1, PgPoint, col2, type2, Some(table2), Some(col3), Some(PgPolygon), Some(col4), type4)
         == Ok(["select * from " + table + " a join " + table2 + " b on " + "st_contains(b." + col3 + ", a." + col1 + ");",
                "select * from " + table + " a join " + table2 + " b on " + "st_contains(b." + col4 + ", a." + col2 + ");"])
  {
    var head := "select * from " + table + " a join " + table2 + " b on ";
    assert head + ("st_contains(b." + col3 + ", a." + col1 + ");") == head + "st_contains(b." + col3 + ", a." + col1 + ");";
    assert head + ("st_contains(b." + col4 + ", a." + col2 + ");") == head + "st_contains(b." + col4 + ", a." + col2 + ");";
  }

  /** The sentinel a scalar where-query compares against. */
  function ScalarSentinel(t: string): string
  {
    if t == Int then "-1" else if t == Text then "'a'" else "'" + Strings.Repeat('a', 36) + "'"
  }

  /** For the scalar pairings the four queries are, in order: a where-query on
      col1 and on col2 comparing with the type's sentinel, then a self-join on
      col1 and on col2 by equality. */
  lemma ScalarQueries(table: string, col1: string, col2: string, t: string)
    requires t == Int || t == Text || t == Char36
    ensures GenerateSingleTableQueries(table, col1, t, col2, t)
         == Ok(["select * from " + table + " where " + col1 + " = " + ScalarSentinel(t) + ";",
                "select * from " + table + " where " + col2 + " = " + ScalarSentinel(t) + ";",
                "select * from " + table + " a join " + table + " b on " + "a." + col1 + " = b." + col1 + ";",
                "select * from " + table + " a join " + table + " b on " + "a." + col2 + " = b." + col2 + ";"])
  {
    ScalarPredicates(table, col1, t);
    ScalarPredicates(table, col2, t);
  }

  /** The scalar where- and join-queries on one column, spelled out. */
  lemma ScalarPredicates(table: string, col: string, t: string)
    requires t == Int || t == Text || t == Char36
    ensures SelectWhere(table, WherePredicate(t, col).value)
         == "select * from " + table + " where " + col + " = " + ScalarSentinel(t) + ";"
    ensures SelectJoin(table, table, JoinPredicate(t, col).value)
         == "select * from " + table + " a join " + table + " b on " + "a." + col + " = b." + col + ";"
  {
    var where := "select * from " + table + " where ";
    var join := "select * from " + table + " a join " + table + " b on ";
    var sentinel := ScalarSentinel(t);
    if t == Int {
      assert " = " + "-1" + ";" == " = -1;";
    } else if t == Text {
      assert " = " + "'a'" + ";" == " = 'a';";
    } else {
      assert col + " = " + sentinel + ";" == col + " = '" + Strings.Repeat('a', 36) + "';";
    }
    assert where + (col + " = " + sentinel + ";") == where + col + " = " + sentinel + ";";
    assert join + ("a." + col + " = b." + col + ";") == join + "a." + col + " = b." + col + ";";
  }

  /** PostGIS points: each where-query keeps the rows within distance 10 of a
      fixed point, each self-join the pairs within distance 10 of each other. */
  lemma PgPointQueries(table: string, col1: string, col2: string)
    ensures GenerateSingleTableQueries(table, col1, PgPoint, col2, PgPoint)
         == Ok(["select * from " + table + " where " + "st_dwithin('0101000020E6100000C8A6504D69534940ACCE10014CF562C0'::geometry, " + col1 + ", 10);",
                "select * from " + table + " where " + "st_dwithin('0101000020E6100000C8A6504D69534940ACCE10014CF562C0'::geometry, " + col2 + ", 10);",
                "select * from " + table + " a join " + table + " b on " + "st_dwithin(a." + col1 + ", b." + col1 + ", 10);",
                "select * from " + table + " a join " + table + " b on " + "st_dwithin(a." + col2 + ", b." + col2 + ", 10);"])
  {
    var where := "select * from " + table + " where ";
    var join := "select * from " + table + " a join " + table + " b on ";
    assert where + ("st_dwithin('0101000020E6100000C8A6504D69534940ACCE10014CF562C0'::geometry, " + col1 + ", 10);") == where + "st_dwithin('0101000020E6100000C8A6504D69534940ACCE10014CF562C0'::geometry, " + col1 + ", 10);";
    assert where + ("st_dwithin('0101000020E6100000C8A6504D69534940ACCE10014CF562C0'::geometry, " + col2 + ", 10);") == where + "st_dwithin('0101000020E6100000C8A6504D69534940ACCE10014CF562C0'::geometry, " + col2 + ", 10);";
    assert join + ("st_dwithin(a." + col1 + ", b." + col1 + ", 10);") == join + "st_dwithin(a." + col1 + ", b." + col1 + ", 10);";
    assert join + ("st_dwithin(a." + col2 + ", b." + col2 + ", 10);") == join + "st_dwithin(a." + col2 + ", b." + col2 + ", 10);";
  }

  /** PostGIS polygons: each where-query keeps the rows overlapping the reference
      polygon, each self-join the overlapping pairs. */
  lemma PgPolygonQueries(table: string, col1: string, col2: string)
    ensures GenerateSingleTableQueries(table, col1, PgPolygon, col2, PgPolygon)
         == Ok(["select * from " + table + " where " + "st_overlaps(st_setsrid('" + ReferencePolygon + "'::geometry, 4326), " + col1 + ");",
                "select * from " + table + " where " + "st_overlaps(st_setsrid('" + ReferencePolygon + "'::geometry, 4326), " + col2 + ");",
                "select * from " + table + " a join " + table + " b on " + "st_overlaps(a." + col1 + ", b." + col1 + ");",
                "select * from " + table + " a join " + table + " b on " + "st_overlaps(a." + col2 + ", b." + col2 + ");"])
  {
    var where := "select * from " + table + " where ";
    var join := "select * from " + table + " a join " + table + " b on ";
    var overlaps := "st_overlaps(st_setsrid('" + ReferencePolygon + "'::geometry, 4326), ";
    assert WherePredicate(PgPolygon, col1) == Some(overlaps + col1 + ");");
    assert WherePredicate(PgPolygon, col2) == Some(overlaps + col2 + ");");
    assert where + overlaps == where + "st_overlaps(st_setsrid('" + ReferencePolygon + "'::geometry, 4326), ";
    assert where + (overlaps + col1 + ");") == where + overlaps + col1 + ");";
    assert where + (overlaps + col2 + ");") == where + overlaps + col2 + ");";
    assert join + ("st_overlaps(a." + col1 + ", b." + col1 + ");") == join + "st_overlaps(a." + col1 + ", b." + col1 + ");";
    assert join + ("st_overlaps(a." + col2 + ", b." + col2 + ");") == join + "st_overlaps(a." + col2 + ", b." + col2 + ");";
  }

  /** MySQL points: each where-query keeps the rows less than 10 metres from
      POINT(0 0) on the sphere, each self-join the pairs less than 10 metres apart. */
  lemma MyPointQueries(table: string, col1: string, col2: string)
    ensures GenerateSingleTableQueries(table, col1, MyPoint, col2, MyPoint)
         == Ok(["select * from " + table + " where " + "st_distance_sphere(st_geomfromtext('POINT(0 0)', 4326), " + col1 + ") < 10;",
                "select * from " + table + " where " + "st_distance_sphere(st_geomfromtext('POINT(0 0)', 4326), " + col2 + ") < 10;",
                "select * from " + table + " a join " + table + " b on " + "st_distance_sphere(a." + col1 + ", b." + col1 + ") < 10;",
                "select * from " + table + " a join " + table + " b on " + "st_distance_sphere(a." + col2 + ", b." + col2 + ") < 10;"])
  {
    var where := "select * from " + table + " where ";
    var join := "select * from " + table + " a join " + table + " b on ";
    assert where + ("st_distance_sphere(st_geomfromtext('POINT(0 0)', 4326), " + col1 + ") < 10;") == where + "st_distance_sphere(st_geomfromtext('POINT(0 0)', 4326), " + col1 + ") < 10;";
    assert where + ("st_distance_sphere(st_geomfromtext('POINT(0 0)', 4326), " + col2 + ") < 10;") == where + "st_distance_sphere(st_geomfromtext('POINT(0 0)', 4326), " + col2 + ") < 10;";
    assert join + ("st_distance_sphere(a." + col1 + ", b." + col1 + ") < 10;") == join + "st_distance_sphere(a." + col1 + ", b." + col1 + ") < 10;";
    assert join + ("st_distance_sphere(a." + col2 + ", b." + col2 + ") < 10;") == join + "st_distance_sphere(a." + col2 + ", b." + col2 + ") < 10;";
  }

  /** MySQL polygons: each where-query keeps the rows overlapping the reference
      polygon, each self-join the overlapping pairs. */
  lemma MyPolygonQueries(table: string, col1: string, col2: string)
    ensures GenerateSingleTableQueries(table, col1, MyPolygon, col2, MyPolygon)
         == Ok(["select * from " + table + " where " + "st_overlaps(" + col1 + ", st_geomfromtext('" + ReferencePolygon + "', 4326));",
                "select * from " + table + " where " + "st_overlaps(" + col2 + ", st_geomfromtext('" + ReferencePolygon + "', 4326));",
                "select * from " + table + " a join " + table + " b on " + "st_overlaps(a." + col1 + ", b." + col1 + ");",
                "select * from " + table + " a join " + table + " b on " + "st_overlaps(a." + col2 + ", b." + col2 + ");"])
  {
    var where := "select * from " + table + " where ";
    var join := "select * from " + table + " a join " + table + " b on ";
    assert where + ("st_overlaps(" + col1 + ", st_geomfromtext('" + ReferencePolygon + "', 4326));") == where + "st_overlaps(" + col1 + ", st_geomfromtext('" + ReferencePolygon + "', 4326));";
    assert where + ("st_overlaps(" + col2 + ", st_geomfromtext('" + ReferencePolygon + "', 4326));") == where + "st_overlaps(" + col2 + ", st_geomfromtext('" + ReferencePolygon + "', 4326));";
    assert join + ("st_overlaps(a." + col1 + ", b." + col1 + ");") == join + "st_overlaps(a." + col1 + ", b." + col1 + ");";
    assert join + ("st_overlaps(a." + col2 + ", b." + col2 + ");") == join + "st_overlaps(a." + col2 + ", b." + col2 + ");";
  }

  // ---------------------------------------------------------------------------
  // generate_id_query

  /** The identifier types `generate_id_query` recognises. */
  predicate IsIdType(t: string)
  {
    t == Int || t == Char16 || t == Uuid || t == Bytea || t == Binary16
  }

  function IdPredicate(t: string): (p: Option<string>)
    ensures p.Some? <==> IsIdType(t)
  {
    if t == Int then Some("id = -1;")
    else if t == Char16 then Some("id = '" + Strings.Repeat('a', 16) + "';")
    else if t == Uuid then Some("id = gen_random_uuid();")
    else if t == Bytea then Some("id = gen_random_bytes(32);")
    else if t == Binary16 then Some("id = unhex(replace(uuid(),'-',''));")
    else None
  }

  /** `generate_id_query`: a fixed where-query on `id` per identifier type; an
      unknown type makes the concatenation with `None` raise `TypeError`. */
  function GenerateIdQuery(table: string, t: string): (r: Result<string>)
    ensures r.Ok? <==> IsIdType(t)
    ensures r.Err? ==> r.error == TypeError
    ensures r.Ok? ==> |SelectWhere(table, "")| < |r.value|
                      && r.value[..|SelectWhere(table, "")|] == SelectWhere(table, "")
  {
    match IdPredicate(t)
    case None => Err(TypeError)
    case Some(p) => Ok(SelectWhere(table, p))
  }

  /** The five lookups spelled out: the integer sentinel -1, sixteen `a`s for
      `char(16)`, and the server-side generators for the other three types. */
  lemma IdQuerySentinels(table: string)
    ensures GenerateIdQuery(table, Int) == Ok("select * from " + table + " where " + "id = -1;")
    ensures GenerateIdQuery(table, Char16) == Ok("select * from " + table + " where " + "id = '" + Strings.Repeat('a', 16) + "';")
    ensures GenerateIdQuery(table, Uuid) == Ok("select * from " + table + " where " + "id = gen_random_uuid();")
    ensures GenerateIdQuery(table, Bytea) == Ok("select * from " + table + " where " + "id = gen_random_bytes(32);")
    ensures GenerateIdQuery(table, Binary16) == Ok("select * from " + table + " where " + "id = unhex(replace(uuid(),'-',''));")
  {
    var where := "select * from " + table + " where ";
    assert where + ("id = '" + Strings.Repeat('a', 16) + "';") == where + "id = '" + Strings.Repeat('a', 16) + "';";
  }
}
