/** The result records of analyzer.py and the dictionary that is written out
    as JSON: one section per record field of `Report`, each the `__dict__` of
    its section record. Timings are non-negative reals. */
module Reports {
  import opened Outcomes

  /** Mean timings of the single-table where-queries, two per list. */
  datatype SelectSection = SelectSection(
    strPlain: seq<real>,
    strNdx: seq<real>,
    intPlain: seq<real>,
    intNdx: seq<real>,
    pointPlain: Option<seq<real>>,
    pointNdx: Option<seq<real>>,
    polyPlain: Option<seq<real>>,
    polyNdx: Option<seq<real>>)

  /** Mean timings of the self-joins and of the point/polygon sweep. */
  datatype JoinSection = JoinSection(
    strPlain: seq<real>,
    strNdx: seq<real>,
    intPlain: seq<real>,
    intNdx: seq<real>,
    pointPlain: Option<seq<real>>,
    pointNdx: Option<seq<real>>,
    polyPlain: Option<seq<real>>,
    polyNdx: Option<seq<real>>,
    pointPolyPlain: Option<seq<real>>,
    pointPolyNdx: Option<seq<real>>)

  /** Mean timings of the primary-key lookups; a field is `None` when its id
      table was not measured. `charId` is the field `char`. */
  datatype IdSection = IdSection(
    integer: Option<seq<real>>,
    uuid: Option<seq<real>>,
    binary: Option<seq<real>>,
    charId: Option<seq<real>>)

  datatype Report = Report(selects: SelectSection, joins: JoinSection, ids: Option<IdSection>)

  /** The JSON shape: an ordered object of sections, each an ordered object of
      lists of numbers; `None` is JSON `null`. */
  datatype Field = Field(key: string, value: Option<seq<real>>)
  datatype Section = Section(key: string, fields: Option<seq<Field>>)
  type Document = seq<Section>

  function Keys(fields: seq<Field>): seq<string>
  {
    seq(|fields|, i requires 0 <= i < |fields| => fields[i].key)
  }

  const SelectKeys: seq<string> :=
    ["str_plain", "str_ndx", "int_plain", "int_ndx", "point_plain", "point_ndx", "poly_plain", "poly_ndx"]
  const JoinKeys: seq<string> := SelectKeys + ["point_poly_plain", "point_poly_ndx"]
  const IdKeys: seq<string> := ["integer", "uuid", "binary", "char"]
  const SectionKeys: seq<string> := ["selects", "joins", "ids"]

  /** `SelectSection.__dict__`: the fields in declaration order. */
  function SelectFields(s: SelectSection): (fs: seq<Field>)
    ensures Keys(fs) == SelectKeys
  {
    [Field("str_plain", Some(s.strPlain)), Field("str_ndx", Some(s.strNdx)),
     Field("int_plain", Some(s.intPlain)), Field("int_ndx", Some(s.intNdx)),
     Field("point_plain", s.pointPlain), Field("point_ndx", s.pointNdx),
     Field("poly_plain", s.polyPlain), Field("poly_ndx", s.polyNdx)]
  }

  function JoinFields(j: JoinSection): (fs: seq<Field>)
    ensures Keys(fs) == JoinKeys
  {
    [Field("str_plain", Some(j.strPlain)), Field("str_ndx", Some(j.strNdx)),
     Field("int_plain", Some(j.intPlain)), Field("int_ndx", Some(j.intNdx)),
     Field("point_plain", j.pointPlain), Field("point_ndx", j.pointNdx),
     Field("poly_plain", j.polyPlain), Field("poly_ndx", j.polyNdx),
     Field("point_poly_plain", j.pointPolyPlain), Field("point_poly_ndx", j.pointPolyNdx)]
  }

  function IdFields(s: IdSection): (fs: seq<Field>)
    ensures Keys(fs) == IdKeys
  {
    [Field("integer", s.integer), Field("uuid", s.uuid), Field("binary", s.binary), Field("char", s.charId)]
  }

  /** `{k: v.__dict__ for k, v in report.__dict__.items()}`: a missing id
      section has no `__dict__`, so the comprehension raises `AttributeError`. */
  function Serialize(r: Report): (d: Result<Document>)
    ensures d.Ok? <==> r.ids.Some?
    ensures d.Err? ==> d.error == AttributeError
    ensures d.Ok? ==> |d.value| == |SectionKeys|
                      && (forall i :: 0 <= i < |d.value| ==> d.value[i].key == SectionKeys[i] && d.value[i].fields.Some?)
  {
    match r.ids
    case None => Err(AttributeError)
    case Some(ids) =>
      Ok([Section("selects", Some(SelectFields(r.selects))),
          Section("joins", Some(JoinFields(r.joins))),
          Section("ids", Some(IdFields(ids)))])
  }

  // ---------------------------------------------------------------------------
  // Reading a report back from its document

  /** The value stored under `key`, if the key is present. */
  function Lookup(fields: seq<Field>, key: string): Option<Option<seq<real>>>
  {
    if |fields| == 0 then None
    else if fields[0].key == key then Some(fields[0].value)
    else Lookup(fields[1..], key)
  }

  /** The value of a field that must hold a list. */
  function Required(fields: seq<Field>, key: string): Option<seq<real>>
  {
    match Lookup(fields, key)
    case Some(Some(v)) => Some(v)
    case _ => None
  }

  function Optional(fields: seq<Field>, key: string): Option<Option<seq<real>>>
  {
    Lookup(fields, key)
  }

  function SectionFields(d: Document, key: string): Option<seq<Field>>
  {
    if |d| == 0 then None
    else if d[0].key == key then d[0].fields
    else SectionFields(d[1..], key)
  }

  function ParseSelects(fs: seq<Field>): Option<SelectSection>
  {
    var strPlain :- Required(fs, "str_plain");
    var strNdx :- Required(fs, "str_ndx");
    var intPlain :- Required(fs, "int_plain");
    var intNdx :- Required(fs, "int_ndx");
    var pointPlain :- Optional(fs, "point_plain");
    var pointNdx :- Optional(fs, "point_ndx");
    var polyPlain :- Optional(fs, "poly_plain");
    var polyNdx :- Optional(fs, "poly_ndx");
    Some(SelectSection(strPlain, strNdx, intPlain, intNdx, pointPlain, pointNdx, polyPlain, polyNdx))
  }

  function ParseJoins(fs: seq<Field>): Option<JoinSection>
  {
    var strPlain :- Required(fs, "str_plain");
    var strNdx :- Required(fs, "str_ndx");
    var intPlain :- Required(fs, "int_plain");
    var intNdx :- Required(fs, "int_ndx");
    var pointPlain :- Optional(fs, "point_plain");
    var pointNdx :- Optional(fs, "point_ndx");
    var polyPlain :- Optional(fs, "poly_plain");
    var polyNdx :- Optional(fs, "poly_ndx");
    var pointPolyPlain :- Optional(fs, "point_poly_plain");
    var pointPolyNdx :- Optional(fs, "point_poly_ndx");
    Some(JoinSection(strPlain, strNdx, intPlain, intNdx, pointPlain, pointNdx, polyPlain, polyNdx,
                     pointPolyPlain, pointPolyNdx))
  }

  function ParseIds(fs: seq<Field>): Option<IdSection>
  {
    var integer :- Optional(fs, "integer");
    var uuid :- Optional(fs, "uuid");
    var binary :- Optional(fs, "binary");
    var charId :- Optional(fs, "char");
    Some(IdSection(integer, uuid, binary, charId))
  }

  /** Rebuild a report from a document; `None` when a section or key is missing. */
  function Parse(d: Document): Option<Report>
  {
    var sf :- SectionFields(d, "selects");
    var jf :- SectionFields(d, "joins");
    var idf :- SectionFields(d, "ids");
    var selects :- ParseSelects(sf);
    var joins :- ParseJoins(jf);
    var ids :- ParseIds(idf);
    Some(Report(selects, joins, Some(ids)))
  }

  predicate DistinctKeys(fields: seq<Field>)
  {
    forall i, j :: 0 <= i < j < |fields| ==> fields[i].key != fields[j].key
  }

  lemma {:induction false} LookupFinds(fields: seq<Field>, i: nat)
    requires DistinctKeys(fields) && i < |fields|
    ensures Lookup(fields, fields[i].key) == Some(fields[i].value)
  {
    if i > 0 {
      assert fields[1..][i - 1] == fields[i];
      LookupFinds(fields[1..], i - 1);
    }
  }

  lemma LookupAll(fields: seq<Field>)
    requires DistinctKeys(fields)
    ensures forall i :: 0 <= i < |fields| ==> Lookup(fields, fields[i].key) == Some(fields[i].value)
  {
    forall i | 0 <= i < |fields| {
      LookupFinds(fields, i);
    }
  }

  /** Where each select field is found in `SelectSection.__dict__`. */
  lemma SelectLookups(s: SelectSection)
    ensures var fs := SelectFields(s);
            && Lookup(fs, "str_plain") == Some(Some(s.strPlain)) && Lookup(fs, "str_ndx") == Some(Some(s.strNdx))
            && Lookup(fs, "int_plain") == Some(Some(s.intPlain)) && Lookup(fs, "int_ndx") == Some(Some(s.intNdx))
            && Lookup(fs, "point_plain") == Some(s.pointPlain) && Lookup(fs, "point_ndx") == Some(s.pointNdx)
            && Lookup(fs, "poly_plain") == Some(s.polyPlain) && Lookup(fs, "poly_ndx") == Some(s.polyNdx)
  {
    var fs := SelectFields(s);
    assert forall i :: 0 <= i < |fs| ==> fs[i].key == SelectKeys[i];
    LookupAll(fs);
    assert Lookup(fs, fs[0].key) == Some(fs[0].value);
    assert Lookup(fs, fs[1].key) == Some(fs[1].value);
    assert Lookup(fs, fs[2].key) == Some(fs[2].value);
    assert Lookup(fs, fs[3].key) == Some(fs[3].value);
    assert Lookup(fs, fs[4].key) == Some(fs[4].value);
    assert Lookup(fs, fs[5].key) == Some(fs[5].value);
    assert Lookup(fs, fs[6].key) == Some(fs[6].value);
    assert Lookup(fs, fs[7].key) == Some(fs[7].value);
  }

  lemma SelectsRoundTrip(s: SelectSection)
    ensures ParseSelects(SelectFields(s)) == Some(s)
  {
    SelectLookups(s);
  }

  /** Where each join field is found in `JoinSection.__dict__`. */
  lemma JoinLookups(j: JoinSection)
    ensures var fs := JoinFields(j);
            && Lookup(fs, "str_plain") == Some(Some(j.strPlain)) && Lookup(fs, "str_ndx") == Some(Some(j.strNdx))
            && Lookup(fs, "int_plain") == Some(Some(j.intPlain)) && Lookup(fs, "int_ndx") == Some(Some(j.intNdx))
            && Lookup(fs, "point_plain") == Some(j.pointPlain) && Lookup(fs, "point_ndx") == Some(j.pointNdx)
            && Lookup(fs, "poly_plain") == Some(j.polyPlain) && Lookup(fs, "poly_ndx") == Some(j.polyNdx)
            && Lookup(fs, "point_poly_plain") == Some(j.pointPolyPlain)
            && Lookup(fs, "point_poly_ndx") == Some(j.pointPolyNdx)
  {
    var fs := JoinFields(j);
    assert forall i :: 0 <= i < |fs| ==> fs[i].key == JoinKeys[i];
    LookupAll(fs);
    assert Lookup(fs, fs[0].key) == Some(fs[0].value);
    assert Lookup(fs, fs[1].key) == Some(fs[1].value);
    assert Lookup(fs, fs[2].key) == Some(fs[2].value);
    assert Lookup(fs, fs[3].key) == Some(fs[3].value);
    assert Lookup(fs, fs[4].key) == Some(fs[4].value);
    assert Lookup(fs, fs[5].key) == Some(fs[5].value);
    assert Lookup(fs, fs[6].key) == Some(fs[6].value);
    assert Lookup(fs, fs[7].key) == Some(fs[7].value);
    assert Lookup(fs, fs[8].key) == Some(fs[8].value);
    assert Lookup(fs, fs[9].key) == Some(fs[9].value);
  }

  lemma JoinsRoundTrip(j: JoinSection)
    ensures ParseJoins(JoinFields(j)) == Some(j)
  {
    JoinLookups(j);
  }

  lemma IdsRoundTrip(s: IdSection)
    ensures ParseIds(IdFields(s)) == Some(s)
  {
    var fs := IdFields(s);
    assert forall i :: 0 <= i < |fs| ==> fs[i].key == IdKeys[i];
    LookupAll(fs);
    assert Lookup(fs, fs[0].key) == Some(fs[0].value);
    assert Lookup(fs, fs[1].key) == Some(fs[1].value);
    assert Lookup(fs, fs[2].key) == Some(fs[2].value);
    assert Lookup(fs, fs[3].key) == Some(fs[3].value);
  }

  /** The written document determines the report: parsing it gives the report back. */
  lemma SerializeRoundTrip(r: Report)
    requires r.ids.Some?
    ensures Serialize(r).Ok? && Parse(Serialize(r).value) == Some(r)
  {
    var d := Serialize(r).value;
    assert SectionFields(d, "selects") == Some(SelectFields(r.selects));
    assert d[1..][0] == d[1] && d[1..][1..] == [d[2]];
    assert SectionFields(d, "joins") == SectionFields(d[1..], "joins") == Some(JoinFields(r.joins));
    assert SectionFields(d, "ids") == SectionFields(d[1..][1..], "ids") == Some(IdFields(r.ids.value));
    SelectsRoundTrip(r.selects);
    JoinsRoundTrip(r.joins);
    IdsRoundTrip(r.ids.value);
  }

  /** Each of the fourteen optional fields of the document is `null` exactly
      when the report's field is `None`; the four always-present timings of each
      of the first two sections are never `null`. */
  lemma NullFields(r: Report)
    requires r.ids.Some?
    ensures var d := Serialize(r).value;
            var sel, join, ids := d[0].fields.value, d[1].fields.value, d[2].fields.value;
            && (forall i :: 0 <= i < 4 ==> sel[i].value.Some? && join[i].value.Some?)
            && (sel[4].value.None? <==> r.selects.pointPlain.None?)
            && (sel[5].value.None? <==> r.selects.pointNdx.None?)
            && (sel[6].value.None? <==> r.selects.polyPlain.None?)
            && (sel[7].value.None? <==> r.selects.polyNdx.None?)
            && (join[4].value.None? <==> r.joins.pointPlain.None?)
            && (join[5].value.None? <==> r.joins.pointNdx.None?)
            && (join[6].value.None? <==> r.joins.polyPlain.None?)
            && (join[7].value.None? <==> r.joins.polyNdx.None?)
            && (join[8].value.None? <==> r.joins.pointPolyPlain.None?)
            && (join[9].value.None? <==> r.joins.pointPolyNdx.None?)
            && (ids[0].value.None? <==> r.ids.value.integer.None?)
            && (ids[1].value.None? <==> r.ids.value.uuid.None?)
            && (ids[2].value.None? <==> r.ids.value.binary.None?)
            && (ids[3].value.None? <==> r.ids.value.charId.None?)
  {
  }
}
