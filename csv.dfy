/** `json_to_csv` (to_csv.py): a report read back from its JSON file becomes
    one CSV line per field whose value is not `null`, for spreadsheet import. */
module Csv {
  import opened Outcomes
  import opened Reports
  import Strings

  /** An item of a row: a key of the report, or one number of a series. */
  datatype Item = Key(key: string) | Number(x: real)

  type Row = seq<Item>

  function Numbers(xs: seq<real>): (items: seq<Item>)
    ensures |items| == |xs|
    ensures forall i :: 0 <= i < |xs| ==> items[i] == Number(xs[i])
  {
    seq(|xs|, i requires 0 <= i < |xs| => Number(xs[i]))
  }

  /** `[k, k2] + v2` for the field `k2` of section `k`. */
  function FieldRow(section: string, f: Field): Row
    requires f.value.Some?
  {
    [Key(section), Key(f.key)] + Numbers(f.value.value)
  }

  /** The rows of a section's fields: one per field whose value is not `null`, in order. */
  function FieldRows(section: string, fields: seq<Field>): seq<Row>
  {
    if |fields| == 0 then []
    else
      var f := fields[|fields| - 1];
      FieldRows(section, fields[..|fields| - 1]) + if f.value.Some? then [FieldRow(section, f)] else []
  }

  /** `data_list` after the first loop: the rows of every section in order; a
      `null` section has no `items()` and raises `AttributeError`. */
  function Flatten(d: Document): Result<seq<Row>>
  {
    if |d| == 0 then Ok([])
    else
      var init :- Flatten(d[..|d| - 1]);
      match d[|d| - 1].fields
      case None => Err(AttributeError)
      case Some(fs) => Ok(init + FieldRows(d[|d| - 1].key, fs))
  }

  /** `str(item)`; how a number is printed is the parameter `show`. */
  function Text(item: Item, show: real -> string): string
  {
    match item
    case Key(k) => k
    case Number(x) => show(x)
  }

  function Texts(row: Row, show: real -> string): (ts: seq<string>)
    ensures |ts| == |row|
    ensures forall i :: 0 <= i < |row| ==> ts[i] == Text(row[i], show)
  {
    seq(|row|, i requires 0 <= i < |row| => Text(row[i], show))
  }

  /** One output line: the row's items separated by commas, then a newline. */
  function Line(row: Row, show: real -> string): string
  {
    Strings.Join(Texts(row, show), ",") + "\n"
  }

  /** The whole output: the lines of the rows, in order. */
  function Render(rows: seq<Row>, show: real -> string): string
  {
    if |rows| == 0 then "" else Render(rows[..|rows| - 1], show) + Line(rows[|rows| - 1], show)
  }

  /** `json_to_csv` without the file reads and writes: the text written to the
      `.csv` file, or the exception a `null` section raises. */
  method JsonToCsv(d: Document, show: real -> string) returns (r: Result<string>)
    ensures Flatten(d).Ok? ==> r == Ok(Render(Flatten(d).value, show))
    ensures Flatten(d).Err? ==> r == Err(AttributeError)
  {
    var dataList := CollectRows(d);
    if dataList.Err? {
      return Err(dataList.error);
    }
    var out := FormatRows(dataList.value, show);
    return Ok(out);
  }

  /** The first loop of `json_to_csv`: `data_list`, or the exception a `null` section raises. */
  method CollectRows(d: Document) returns (r: Result<seq<Row>>)
    ensures r == Flatten(d)
    ensures r.Err? ==> r.error == AttributeError
    ensures r.Ok? ==> forall i :: 0 <= i < |r.value| ==> |r.value[i]| >= 2
  {
    var dataList: seq<Row> := [];
    var k := 0;
    while k < |d|
      invariant 0 <= k <= |d|
      invariant Flatten(d[..k]) == Ok(dataList)
      invariant forall i :: 0 <= i < |dataList| ==> |dataList[i]| >= 2
    {
      var section := d[k];
      if section.fields.None? {
        FlattenFails(d, k);
        return Err(AttributeError);
      }
      dataList := AppendFieldRows(dataList, section.key, section.fields.value);
      assert d[..k + 1][..k] == d[..k];
      k := k + 1;
    }
    assert d[..k] == d;
    return Ok(dataList);
  }

  /** The inner loop of the first loop: a row `[k, k2] + v2` for each field `k2`
      of section `k` whose value `v2` is not `null`. */
  method AppendFieldRows(before: seq<Row>, section: string, fields: seq<Field>) returns (rows: seq<Row>)
    requires forall i :: 0 <= i < |before| ==> |before[i]| >= 2
    ensures rows == before + FieldRows(section, fields)
    ensures forall i :: 0 <= i < |rows| ==> |rows[i]| >= 2
  {
    rows := before;
    var j := 0;
    while j < |fields|
      invariant 0 <= j <= |fields|
      invariant rows == before + FieldRows(section, fields[..j])
      invariant forall i :: 0 <= i < |rows| ==> |rows[i]| >= 2
    {
      var field := fields[j];
      assert fields[..j + 1][..j] == fields[..j];
      if field.value.Some? {
        rows := rows + [[Key(section), Key(field.key)] + Numbers(field.value.value)];
      }
      j := j + 1;
    }
    assert fields[..j] == fields;
  }

  /** The second loop of `json_to_csv`: the lines of the rows, in order. */
  method FormatRows(rows: seq<Row>, show: real -> string) returns (out: string)
    requires forall i :: 0 <= i < |rows| ==> |rows[i]| >= 1
    ensures out == Render(rows, show)
  {
    out := "";
    var i := 0;
    while i < |rows|
      invariant 0 <= i <= |rows|
      invariant out == Render(rows[..i], show)
    {
      out := WriteRow(out, rows[i], show);
      RowStep(rows, i, show);
      i := i + 1;
    }
    assert rows[..i] == rows;
  }

  /** One row of the second loop: each item followed by a comma, then the last
      comma replaced by a newline. */
  method WriteRow(before: string, row: Row, show: real -> string) returns (out: string)
    requires |row| >= 1
    ensures out == before + Line(row, show)
  {
    out := before;
    var j := 0;
    while j < |row|
      invariant 0 <= j <= |row|
      invariant out == before + Strings.Terminated(Texts(row[..j], show), ",")
    {
      ItemStep(row, j, show);
      out := out + Text(row[j], show) + ",";
      j := j + 1;
    }
    assert row[..j] == row;
    TrimLastComma(before, Texts(row, show));
    out := out[..|out| - 1] + "\n";
  }

  /** One more item of a row adds its text and a comma. */
  lemma ItemStep(row: Row, j: nat, show: real -> string)
    requires j < |row|
    ensures Strings.Terminated(Texts(row[..j + 1], show), ",")
            == Strings.Terminated(Texts(row[..j], show), ",") + Text(row[j], show) + ","
  {
    assert Texts(row[..j + 1], show)[..j] == Texts(row[..j], show);
  }

  /** One more row adds its line. */
  lemma RowStep(rows: seq<Row>, i: nat, show: real -> string)
    requires i < |rows|
    ensures Render(rows[..i + 1], show) == Render(rows[..i], show) + Line(rows[i], show)
  {
    assert rows[..i + 1][..i] == rows[..i];
  }

  /** `out[:-1]` after a row's items drops exactly the comma after its last item. */
  lemma TrimLastComma(prefix: string, texts: seq<string>)
    requires |texts| > 0
    ensures var out := prefix + Strings.Terminated(texts, ",");
            |out| > 0 && out[..|out| - 1] == prefix + Strings.Join(texts, ",")
  {
    Strings.TerminatedIsJoinedPlusSep(texts, ",");
    var out := prefix + Strings.Terminated(texts, ",");
    assert out == (prefix + Strings.Join(texts, ",")) + ",";
  }

  /** The only exception the flatten raises is `AttributeError`. */
  lemma {:induction false} FlattenRaises(d: Document)
    ensures Flatten(d).Err? ==> Flatten(d).error == AttributeError
    decreases |d|
  {
    if |d| > 0 {
      FlattenRaises(d[..|d| - 1]);
    }
  }

  /** A `null` section at position k makes the whole flatten fail. */
  lemma {:induction false} FlattenFails(d: Document, k: nat)
    requires k < |d| && d[k].fields.None?
    ensures Flatten(d) == Err(AttributeError)
    decreases |d|
  {
    if k < |d| - 1 {
      assert d[..|d| - 1][k] == d[k];
      FlattenFails(d[..|d| - 1], k);
    } else {
      FlattenRaises(d[..|d| - 1]);
    }
  }

  // ---------------------------------------------------------------------------
  // Properties

  /** The flatten succeeds exactly when no section is `null`, and fails with `AttributeError` otherwise. */
  lemma {:induction false} FlattenSucceeds(d: Document)
    ensures Flatten(d).Ok? <==> forall i :: 0 <= i < |d| ==> d[i].fields.Some?
    ensures Flatten(d).Err? ==> Flatten(d).error == AttributeError
    decreases |d|
  {
    if |d| > 0 {
      var init := d[..|d| - 1];
      FlattenSucceeds(init);
      if !(forall i :: 0 <= i < |d| ==> d[i].fields.Some?) {
        var k :| 0 <= k < |d| && d[k].fields.None?;
        FlattenFails(d, k);
      } else {
        assert forall i :: 0 <= i < |init| ==> init[i].fields.Some? by {
          forall i | 0 <= i < |init| ensures init[i].fields.Some? {
            assert init[i] == d[i];
          }
        }
      }
    }
  }

  /** The fields of a section whose value is not `null`, in order. */
  function Present(fields: seq<Field>): (ps: seq<Field>)
    ensures forall i :: 0 <= i < |ps| ==> ps[i].value.Some?
  {
    if |fields| == 0 then []
    else Present(fields[..|fields| - 1]) + if fields[|fields| - 1].value.Some? then [fields[|fields| - 1]] else []
  }

  /** A field is kept exactly when it is a field of the section with a value. */
  lemma {:induction false} PresentKeeps(fields: seq<Field>, f: Field)
    ensures f in Present(fields) <==> f in fields && f.value.Some?
  {
    if |fields| > 0 {
      var init := fields[..|fields| - 1];
      PresentKeeps(init, f);
      assert fields == init + [fields[|fields| - 1]];
    }
  }

  /** The rows of a section are the rows of its present fields, one each, in order. */
  lemma {:induction false} FieldRowsOfPresent(section: string, fields: seq<Field>)
    ensures var rows, ps := FieldRows(section, fields), Present(fields);
            |rows| == |ps| && forall i :: 0 <= i < |ps| ==> rows[i] == FieldRow(section, ps[i])
  {
    if |fields| > 0 {
      FieldRowsOfPresent(section, fields[..|fields| - 1]);
    }
  }

  /** The number of fields of the document whose value is not `null`. */
  function NonNullFields(d: Document): nat
  {
    if |d| == 0 then 0
    else NonNullFields(d[..|d| - 1]) + match d[|d| - 1].fields case None => 0 case Some(fs) => |Present(fs)|
  }

  /** There is one row per field whose value is not `null`. */
  lemma {:induction false} RowCount(d: Document)
    requires Flatten(d).Ok?
    ensures |Flatten(d).value| == NonNullFields(d)
    decreases |d|
  {
    if |d| > 0 {
      RowCount(d[..|d| - 1]);
      var last := d[|d| - 1];
      FieldRowsOfPresent(last.key, last.fields.value);
    }
  }

  /** A document whose fields are all `null` produces no rows, so the output is empty. */
  lemma {:induction false} AllNullIsEmpty(d: Document, show: real -> string)
    requires forall i :: 0 <= i < |d| ==> d[i].fields.Some?
    requires forall i, j :: 0 <= i < |d| && 0 <= j < |d[i].fields.value| ==> d[i].fields.value[j].value.None?
    ensures Flatten(d) == Ok([]) && Render([], show) == ""
    decreases |d|
  {
    if |d| > 0 {
      var init := d[..|d| - 1];
      assert forall i :: 0 <= i < |init| ==> init[i] == d[i];
      AllNullIsEmpty(init, show);
      var last := d[|d| - 1];
      NullFieldsNoRows(last.key, last.fields.value);
      var none: seq<Row> := [];
      assert Flatten(d) == Ok(none + FieldRows(last.key, last.fields.value));
      assert none + FieldRows(last.key, last.fields.value) == none;
    }
  }

  lemma {:induction false} NullFieldsNoRows(section: string, fields: seq<Field>)
    requires forall j :: 0 <= j < |fields| ==> fields[j].value.None?
    ensures FieldRows(section, fields) == []
  {
    if |fields| > 0 {
      NullFieldsNoRows(section, fields[..|fields| - 1]);
    }
  }

  /** Every row starts with its section's key and its field's key. */
  lemma {:induction false} RowsStartWithKeys(d: Document)
    requires Flatten(d).Ok?
    ensures forall row: Row :: row in Flatten(d).value ==> |row| >= 2 && row[0].Key? && row[1].Key?
    decreases |d|
  {
    if |d| > 0 {
      RowsStartWithKeys(d[..|d| - 1]);
      var fs := d[|d| - 1].fields.value;
      FieldRowsOfPresent(d[|d| - 1].key, fs);
    }
  }

  /** No text contains `c`: no key, no printed number. */
  predicate Avoids(rows: seq<Row>, show: real -> string, c: char)
  {
    forall i, j :: 0 <= i < |rows| && 0 <= j < |rows[i]| ==> c !in Text(rows[i][j], show)
  }

  /** With no newline inside a key or a printed number, the output has one line per row. */
  lemma {:induction false} OneLinePerRow(rows: seq<Row>, show: real -> string)
    requires Avoids(rows, show, '\n')
    ensures Strings.Occurrences(Render(rows, show), '\n') == |rows|
  {
    if |rows| > 0 {
      var init, last := rows[..|rows| - 1], rows[|rows| - 1];
      assert Avoids(init, show, '\n') by {
        forall i, j | 0 <= i < |init| && 0 <= j < |init[i]| ensures '\n' !in Text(init[i][j], show) {
          assert init[i] == rows[i];
        }
      }
      OneLinePerRow(init, show);
      var texts := Texts(last, show);
      Strings.JoinAvoids(texts, ",", '\n');
      Strings.OccurrencesAbsent(Strings.Join(texts, ","), '\n');
      Strings.OccurrencesAppend(Strings.Join(texts, ","), "\n", '\n');
      assert Strings.Occurrences("\n", '\n') == 1 by {
        assert "\n"[..0] == "";
      }
      Strings.OccurrencesAppend(Render(init, show), Line(last, show), '\n');
    }
  }

  /** `Join` puts exactly one separator between neighbouring items. */
  lemma {:induction false} JoinCount(items: seq<string>, c: char)
    requires |items| > 0 && forall i :: 0 <= i < |items| ==> c !in items[i]
    ensures Strings.Occurrences(Strings.Join(items, [c]), c) == |items| - 1
  {
    if |items| == 1 {
      Strings.OccurrencesAbsent(items[0], c);
    } else {
      var init := items[..|items| - 1];
      JoinCount(init, c);
      Strings.OccurrencesAppend(Strings.Join(init, [c]), [c], c);
      assert Strings.Occurrences([c], c) == 1 by {
        assert [c][..0] == [];
      }
      Strings.OccurrencesAbsent(items[|items| - 1], c);
      Strings.OccurrencesAppend(Strings.Join(init, [c]) + [c], items[|items| - 1], c);
    }
  }

  /** With no comma inside a key or a printed number, a line has one comma fewer
      than its row has items; with no empty text, none leads and none trails. */
  lemma LineCommas(row: Row, show: real -> string)
    requires |row| > 0 && forall j :: 0 <= j < |row| ==> Text(row[j], show) != "" && ',' !in Text(row[j], show)
    ensures Strings.Occurrences(Line(row, show), ',') == |row| - 1
    ensures var line := Line(row, show);
            |line| > 1 && line[0] != ',' && line[|line| - 2] != ',' && line[|line| - 1] == '\n'
  {
    var texts := Texts(row, show);
    JoinCount(texts, ',');
    Strings.OccurrencesAppend(Strings.Join(texts, ","), "\n", ',');
    assert Strings.Occurrences("\n", ',') == 0 by {
      assert "\n"[..0] == "";
    }
    JoinEnds(texts, ',');
  }

  /** A join of non-empty items neither starts nor ends with a separator the items do not hold. */
  lemma {:induction false} JoinEnds(items: seq<string>, c: char)
    requires |items| > 0 && forall i :: 0 <= i < |items| ==> |items[i]| > 0 && c !in items[i]
    ensures var j := Strings.Join(items, [c]);
            |j| > 0 && j[0] != c && j[|j| - 1] != c
  {
    if |items| > 1 {
      var init := items[..|items| - 1];
      JoinEnds(init, c);
      var last := items[|items| - 1];
      assert last[|last| - 1] in last;
    } else {
      assert items[0][0] in items[0];
      assert items[0][|items[0]| - 1] in items[0];
    }
  }

  /** A serialised report has no `null` section, so it always flattens. */
  lemma ReportFlattens(r: Report)
    requires Serialize(r).Ok?
    ensures Flatten(Serialize(r).value).Ok?
  {
    FlattenSucceeds(Serialize(r).value);
  }
}
