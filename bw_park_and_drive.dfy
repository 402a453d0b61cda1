/**
 * v3/bw_p_d.py: the Baden-Württemberg "Park und Mitfahren" spreadsheet.
 * Seven columns are read per row; the street is prefixed to the name and
 * the uid is rebuilt from the row's number and that name.
 */
module BwParkAndDrive {
  import opened Wrappers
  import opened Values
  import opened PyOps
  import opened LegacyStrings
  import opened SiteInputs
  import opened ImportResults
  import opened Aggregation
  import opened HeaderMapping
  import opened NormalizedXlsx

  const Info := SourceInfo("bw-p-d", "Baden-Württemberg: Park und Mitfahren",
    Some("https://mobidata-bw.de/dataset/p-m-parkplatze-baden-wurttemberg"))

  /** `header_row`. */
  const HeaderRow: Table := [
    ("AS-Nummer", "uid"),
    ("Bezeichnung Parkplatz", "name"),
    ("Straße", "street"),
    ("Längengrad", "lat"),
    ("Breitengrad", "lon"),
    ("Zufahrt", "description"),
    ("Anzahl Plätze", "capacity")
  ]

  /** The new name: street, one space, the name cell, each formatted as `f'{...}'` does. */
  function StreetName(street: Value, name: Value): string {
    Formatted(street) + " " + Formatted(name)
  }

  /** The cells read by `map_row_to_parking_site_dict`, then the derived name, uid and import time. */
  function MapRow(mapping: Fields, row: seq<Value>, now: DateTime): (r: Result<Fields, Fault>)
    requires ValidDateTime(now)
  {
    var raw :- ReadCells(mapping, row);
    var street :- Item(raw, "street");
    var name :- Item(raw, "name");
    var d := Put(raw, "name", Str(StreetName(street, name)));
    var uid :- Item(d, "uid");
    var d := Put(d, "uid", Str(NameToId(Formatted(uid), StreetName(street, name))));
    Ok(Put(d, "static_data_updated_at", Str(DateTimeToIso(now))))
  }

  method MapRowToParkingSiteDict(mapping: Fields, row: seq<Value>, now: DateTime) returns (r: Result<Fields, Fault>)
    requires ValidDateTime(now)
    ensures r == MapRow(mapping, row, now)
  {
    var raw := ReadCellsLoop(mapping, row);
    if raw.Err? {
      return Err(raw.error);
    }
    var parkingSiteDict := raw.value;
    var street := Item(parkingSiteDict, "street");
    var name := Item(parkingSiteDict, "name");
    if street.Err? {
      return Err(street.error);
    }
    if name.Err? {
      return Err(name.error);
    }
    parkingSiteDict := Put(parkingSiteDict, "name", Str(Formatted(street.value) + " " + Formatted(name.value)));
    var uid := Item(parkingSiteDict, "uid");
    if uid.Err? {
      return Err(uid.error);
    }
    parkingSiteDict := Put(parkingSiteDict, "uid", Str(NameToId(Formatted(uid.value), StreetName(street.value, name.value))));
    parkingSiteDict := Put(parkingSiteDict, "static_data_updated_at", Str(DateTimeToIso(now)));
    r := Ok(parkingSiteDict);
  }

  /** One data row of `handle_xlsx`: the mapping runs outside the `try`, the validation inside. */
  function RowStep(mapping: Fields, row: seq<Value>, now: DateTime): (r: Step<StaticParkingSiteInput>)
    requires ValidDateTime(now)
    ensures |row| > 0 && row[0] == Null ==> r == Ok(Skip)
    ensures r.Ok? && r.value.Accept? ==> ValidStatic(r.value.record, Excel, GeoBounds)
  {
    if |row| == 0 then Err(Raise(Raised("IndexError", "tuple index out of range")))
    else if row[0] == Null then Ok(Skip)
    else match MapRow(mapping, row, now)
      case Err(f) => Err(Raise(f))
      case Ok(d) => ValidatedStep(d)
  }

  function RowSteps(mapping: Fields, rows: seq<seq<Value>>, now: DateTime): (r: seq<Step<StaticParkingSiteInput>>)
    requires ValidDateTime(now)
    ensures |r| == |rows|
    ensures forall i :: 0 <= i < |rows| ==> r[i] == RowStep(mapping, rows[i], now)
  {
    seq(|rows|, i requires 0 <= i < |rows| => RowStep(mapping, rows[i], now))
  }

  /** `handle_xlsx`: the header row gives the mapping, every later row one step. */
  function HandleXlsxSpec(rows: seq<seq<Value>>, now: DateTime): (r: Result<ImportSourceResult, Abort>)
    requires ValidDateTime(now)
    ensures |rows| == 0 ==> r.Err?
    ensures r.Ok? ==> r.value.uid == "bw-p-d" && r.value.status == Active && r.value.realtimeInputs.None?
  {
    if |rows| == 0 then Err(Raise(Raised("StopIteration", "")))
    else match XlsxMapping(Info.id, HeaderRow, rows[0])
      case Err(e) => Err(RaiseImport(e))
      case Ok(mapping) =>
        match Gather(RowSteps(mapping, rows[1..], now))
        case Err(a) => Err(a)
        case Ok(lists) => Ok(GenerateImportSourceResult(Info, Some(lists.0), None, Some(lists.1), None))
  }

  method HandleRow(mapping: Fields, row: seq<Value>, now: DateTime) returns (step: Step<StaticParkingSiteInput>)
    requires ValidDateTime(now)
    ensures step == RowStep(mapping, row, now)
  {
    if |row| == 0 {
      return Err(Raise(Raised("IndexError", "tuple index out of range")));
    }
    if row[0] == Null {
      return Ok(Skip);
    }
    var parkingSiteDict := MapRowToParkingSiteDict(mapping, row, now);
    if parkingSiteDict.Err? {
      return Err(Raise(parkingSiteDict.error));
    }
    var d := parkingSiteDict.value;
    match ValidateExcelStatic(Obj(d)) {
      case Ok(s) =>
        step := Ok(Accept(s));
      case Err(f) =>
        if !f.Invalid? {
          return Err(Raise(f));
        }
        step := Ok(Reject(RowError(Get(d, "uid"), f)));
    }
  }

  method HandleXlsx(rows: seq<seq<Value>>, now: DateTime) returns (r: Result<ImportSourceResult, Abort>)
    requires ValidDateTime(now)
    ensures r == HandleXlsxSpec(rows, now)
  {
    if |rows| == 0 {
      return Err(Raise(Raised("StopIteration", "")));
    }
    var m := GetXlsxMapping(Info.id, HeaderRow, rows[0]);
    if m.Err? {
      return Err(RaiseImport(m.error));
    }
    var data := rows[1..];
    ghost var steps := RowSteps(m.value, data, now);
    var staticParkingSiteErrors: seq<ImportException> := [];
    var staticParkingSiteInputs: seq<StaticParkingSiteInput> := [];
    for i := 0 to |data|
      invariant Gather(steps[..i]) == Ok((staticParkingSiteInputs, staticParkingSiteErrors))
    {
      GatherSnoc(steps, i);
      var step := HandleRow(m.value, data[i], now);
      match step {
        case Err(a) =>
          GatherStopsAt(steps, i);
          return Err(a);
        case Ok(Skip) =>
        case Ok(Accept(s)) =>
          staticParkingSiteInputs := staticParkingSiteInputs + [s];
        case Ok(Reject(e)) =>
          staticParkingSiteErrors := staticParkingSiteErrors + [e];
      }
    }
    GatherAll(steps);
    r := Ok(GenerateImportSourceResult(Info, Some(staticParkingSiteInputs), None, Some(staticParkingSiteErrors), None));
  }

  // ------------------------------------------------------------- properties

  /**
   * With a mapping that has the street, name and uid columns, the mapping
   * of a row fails only when a cell position lies past the row's end; the
   * name then reads "<street> <name>" and the uid is a lot id built from
   * the row's number and that name: lower-case ASCII letters, digits and
   * single dashes, at most 64 characters.
   */
  lemma MapRowDerived(mapping: Fields, row: seq<Value>, now: DateTime)
    requires ValidDateTime(now) && ReadCells(mapping, row).Ok?
    requires HasKey(mapping, "street") && HasKey(mapping, "name") && HasKey(mapping, "uid")
    ensures MapRow(mapping, row, now).Ok?
    ensures var raw := ReadCells(mapping, row).value;
      var d := MapRow(mapping, row, now).value;
      var name := StreetName(Get(raw, "street"), Get(raw, "name"));
      && Lookup(d, "name") == Some(Str(name))
      && Lookup(d, "uid") == Some(Str(NameToId(Formatted(Get(raw, "uid")), name)))
      && Lookup(d, "static_data_updated_at") == Some(Str(DateTimeToIso(now)))
  {
    var raw := ReadCells(mapping, row).value;
    ReadCellsKeys(mapping, row, "street");
    ReadCellsKeys(mapping, row, "name");
    ReadCellsKeys(mapping, row, "uid");
    var name := StreetName(Get(raw, "street"), Get(raw, "name"));
    var d1 := Put(raw, "name", Str(name));
    LookupPut(raw, "name", Str(name), "uid");
    var d2 := Put(d1, "uid", Str(NameToId(Formatted(Get(raw, "uid")), name)));
    LookupPut(d1, "uid", Str(NameToId(Formatted(Get(raw, "uid")), name)), "name");
    LookupPut(raw, "name", Str(name), "name");
    LookupPut(d2, "static_data_updated_at", Str(DateTimeToIso(now)), "name");
    LookupPut(d1, "uid", Str(NameToId(Formatted(Get(raw, "uid")), name)), "uid");
    LookupPut(d2, "static_data_updated_at", Str(DateTimeToIso(now)), "uid");
    LookupPut(d2, "static_data_updated_at", Str(DateTimeToIso(now)), "static_data_updated_at");
  }

  // Stated over a table variable so that the solver does not unroll the mapping over the constant.
  lemma NoFlagColumn(header: seq<Value>, t: Table, m: Fields, k: string)
    requires t == HeaderRow && XlsxMapping(Info.id, t, header) == Ok(m) && IsFlagKey(k)
    ensures !HasKey(m, k)
  {
    XlsxMappingKeys(Info.id, t, header, k);
    NoFlagHeader(k);
  }

  /** No header of the sheet is read into one of the four flags. */
  lemma NoFlagHeader(k: string)
    requires IsFlagKey(k)
    ensures k !in TableValues(HeaderRow)
  {
    var vs := TableValues(HeaderRow);
    forall j | 0 <= j < |vs| ensures vs[j] != k {
      assert vs[j] == HeaderRow[j].1;
    }
  }

  /** The mapped row with the four flag cells blank. */
  function WithBlankFlags(d: Fields): Fields {
    Put(Put(Put(Put(d, "has_lighting", Null), "has_fee", Null), "is_supervised", Null), "has_realtime_data", Null)
  }

  /**
   * A mapped row of the sheet is accepted exactly when its cells, with
   * blank lighting, fee, supervision and realtime cells added, pass the
   * spreadsheet schema: the four columns the layout lacks read as blank.
   */
  lemma MappedRowAccepted(header: seq<Value>, row: seq<Value>, now: DateTime)
    requires ValidDateTime(now) && XlsxMapping(Info.id, HeaderRow, header).Ok?
    requires |row| > 0 && row[0] != Null && MapRow(XlsxMapping(Info.id, HeaderRow, header).value, row, now).Ok?
    ensures var m := XlsxMapping(Info.id, HeaderRow, header).value;
      var d := MapRow(m, row, now).value;
      var step := RowStep(m, row, now);
      && (step.Ok? && step.value.Accept? <==> ValidateExcelStatic(Obj(WithBlankFlags(d))).Ok?)
      && (step.Ok? && step.value.Accept? ==> step.value.record == ValidateExcelStatic(Obj(WithBlankFlags(d))).value)
  {
    var m := XlsxMapping(Info.id, HeaderRow, header).value;
    var d := MapRow(m, row, now).value;
    MappedRowLacksFlag(header, row, now, "has_lighting");
    MappedRowLacksFlag(header, row, now, "has_fee");
    MappedRowLacksFlag(header, row, now, "is_supervised");
    MappedRowLacksFlag(header, row, now, "has_realtime_data");
    BlankFlagsFilled(d);
    assert RowStep(m, row, now) == ValidatedStep(d);
  }

  /** Without the four flag columns a dict validates as the same dict with the four cells blank. */
  lemma BlankFlagsFilled(d: Fields)
    requires !HasKey(d, "has_lighting") && !HasKey(d, "has_fee") && !HasKey(d, "is_supervised")
    requires !HasKey(d, "has_realtime_data")
    ensures ValidateExcelStatic(Obj(d)) == ValidateExcelStatic(Obj(WithBlankFlags(d)))
  {
    var d1 := Put(d, "has_lighting", Null);
    var d2 := Put(d1, "has_fee", Null);
    var d3 := Put(d2, "is_supervised", Null);
    LookupPut(d, "has_lighting", Null, "has_fee");
    LookupPut(d, "has_lighting", Null, "is_supervised");
    LookupPut(d, "has_lighting", Null, "has_realtime_data");
    LookupPut(d1, "has_fee", Null, "is_supervised");
    LookupPut(d1, "has_fee", Null, "has_realtime_data");
    LookupPut(d2, "is_supervised", Null, "has_realtime_data");
    AbsentFlagAsBlank(d, "has_lighting");
    AbsentFlagAsBlank(d1, "has_fee");
    AbsentFlagAsBlank(d2, "is_supervised");
    AbsentFlagAsBlank(d3, "has_realtime_data");
  }

  /** A mapped row of the sheet has none of the four flags. */
  lemma MappedRowLacksFlag(header: seq<Value>, row: seq<Value>, now: DateTime, k: string)
    requires ValidDateTime(now) && XlsxMapping(Info.id, HeaderRow, header).Ok? && IsFlagKey(k)
    requires MapRow(XlsxMapping(Info.id, HeaderRow, header).value, row, now).Ok?
    ensures !HasKey(MapRow(XlsxMapping(Info.id, HeaderRow, header).value, row, now).value, k)
  {
    var m := XlsxMapping(Info.id, HeaderRow, header).value;
    NoFlagColumn(header, HeaderRow, m, k);
    ReadCellsKeys(m, row, k);
    MapRowKeeps(m, row, now, k);
  }

  /** Building the dict writes only `name`, `uid` and the import time: every other key reads as in the row. */
  lemma MapRowKeeps(mapping: Fields, row: seq<Value>, now: DateTime, k: string)
    requires ValidDateTime(now) && MapRow(mapping, row, now).Ok?
    requires k != "name" && k != "uid" && k != "static_data_updated_at"
    ensures Lookup(MapRow(mapping, row, now).value, k) == Lookup(ReadCells(mapping, row).value, k)
  {
    var raw := ReadCells(mapping, row).value;
    var name := StreetName(Item(raw, "street").value, Item(raw, "name").value);
    var d1 := Put(raw, "name", Str(name));
    var uid := Str(NameToId(Formatted(Item(d1, "uid").value), name));
    var d2 := Put(d1, "uid", uid);
    assert MapRow(mapping, row, now) == Ok(Put(d2, "static_data_updated_at", Str(DateTimeToIso(now))));
    LookupPut(raw, "name", Str(name), k);
    LookupPut(d1, "uid", uid, k);
    LookupPut(d2, "static_data_updated_at", Str(DateTimeToIso(now)), k);
  }

  /** The mapping of every header row that has all seven headers has the street, name and uid columns. */
  lemma MappingHasDerivedColumns(header: seq<Value>, t: Table, m: Fields)
    requires t == HeaderRow && XlsxMapping(Info.id, t, header) == Ok(m)
    ensures HasKey(m, "street") && HasKey(m, "name") && HasKey(m, "uid")
  {
    XlsxMappingKeys(Info.id, t, header, "street");
    XlsxMappingKeys(Info.id, t, header, "name");
    XlsxMappingKeys(Info.id, t, header, "uid");
    assert TableValues(t)[2] == "street" && TableValues(t)[1] == "name" && TableValues(t)[0] == "uid";
  }
}
