/**
 * common/base_converter/normalized_xlsx_converter.py: the spreadsheet
 * layout shared by the normalised XLSX sources, the per-row mapping to a
 * parking-site dict, and the row loop that validates each row against the
 * spreadsheet schema.
 */
module NormalizedXlsx {
  import opened Wrappers
  import opened Text
  import opened Values
  import opened FieldValidators
  import opened SiteInputs
  import opened OpeningTimes
  import opened ImportResults
  import opened Aggregation
  import opened HeaderMapping

  /** `header_row`: column header to field name. */
  const HeaderRow: Table := [
    ("ID", "uid"),
    ("Name", "name"),
    ("Art der Anlage", "type"),
    ("Betreiber Name", "operator_name"),
    ("Längengrad", "lat"),
    ("Breitengrad", "lon"),
    ("Adresse mit PLZ und Stadt", "address"),
    ("Maximale Parkdauer", "max_stay"),
    ("Anzahl Stellplätze", "capacity"),
    ("Anzahl Carsharing-Parkplätze", "capacity_carsharing"),
    ("Anzahl Ladeplätze", "capacity_charging"),
    ("Anzahl Frauenparkplätze", "capacity_woman"),
    ("Anzahl Behindertenparkplätze", "capacity_disabled"),
    ("Anlage beleuchtet?", "has_lighting"),
    ("gebührenpflichtig?", "has_fee"),
    ("Existieren Live-Daten?", "has_realtime_data"),
    ("Gebühren-Informationen", "fee_description"),
    ("Webseite", "public_url"),
    ("Park&Ride", "is_park_and_ride"),
    ("24/7 geöffnet?", "opening_hours_is_24_7"),
    ("Öffnungszeiten Mo-Fr Beginn", "opening_hours_weekday_begin"),
    ("Öffnungszeiten Mo-Fr Ende", "opening_hours_weekday_end"),
    ("Öffnungszeiten Sa Beginn", "opening_hours_saturday_begin"),
    ("Öffnungszeiten Sa Ende", "opening_hours_saturday_end"),
    ("Öffnungszeiten So Beginn", "opening_hours_sunday_begin"),
    ("Öffnungszeiten So Ende", "opening_hours_sunday_end"),
    ("Weitere öffentliche Informationen", "description")
  ]

  /** `type_mapping.get(...)`: the four German facility names; anything else, including a missing cell, gives None. */
  function TypeMapping(v: Value): (r: Value)
    ensures r.Str? ==> ParseParkingSiteType(r.s).Some?
    ensures r.Str? <==> v in {Str("Parkplatz"), Str("Parkhaus"), Str("Tiefgarage"), Str("Am Straßenrand")}
  {
    if v == Str("Parkplatz") then Str("OFF_STREET_PARKING_GROUND")
    else if v == Str("Parkhaus") then Str("CAR_PARK")
    else if v == Str("Tiefgarage") then Str("UNDERGROUND")
    else if v == Str("Am Straßenrand") then Str("ON_STREET")
    else Null
  }

  predicate IsOpeningHoursKey(k: string) { StartsWith(k, "opening_hours_") }

  predicate IsSiteKey(k: string) { !IsOpeningHoursKey(k) }

  // ------------------------------------------------------------ reading cells

  /** `for field in mapping.keys(): raw[field] = row[mapping[field]].value`; a position past the row raises IndexError. */
  function ReadCells(mapping: Fields, row: seq<Value>): (r: Result<Fields, Fault>)
    ensures r.Err? ==> r.error == Raised("IndexError", "tuple index out of range")
  {
    if |mapping| == 0 then Ok([])
    else
      var init := mapping[..|mapping| - 1];
      var (field, column) := mapping[|mapping| - 1];
      var d :- ReadCells(init, row);
      if !column.Int? || !(0 <= column.i < |row|) then Err(Raised("IndexError", "tuple index out of range"))
      else Ok(Put(d, field, row[column.i]))
  }

  method ReadCellsLoop(mapping: Fields, row: seq<Value>) returns (r: Result<Fields, Fault>)
    ensures r == ReadCells(mapping, row)
  {
    var raw: Fields := [];
    var i := 0;
    while i < |mapping|
      invariant 0 <= i <= |mapping|
      invariant ReadCells(mapping[..i], row) == Ok(raw)
    {
      assert mapping[..i + 1][..i] == mapping[..i];
      var (field, column) := mapping[i];
      if !column.Int? || !(0 <= column.i < |row|) {
        ReadCellsStopsAt(mapping, row, i);
        return Err(Raised("IndexError", "tuple index out of range"));
      }
      assert ReadCells(mapping[..i + 1], row) == Ok(Put(raw, field, row[column.i]));
      raw := Put(raw, field, row[column.i]);
      i := i + 1;
    }
    assert mapping[..i] == mapping;
    r := Ok(raw);
  }

  lemma {:induction false} ReadCellsStopsAt(mapping: Fields, row: seq<Value>, i: nat)
    requires i < |mapping| && ReadCells(mapping[..i], row).Ok?
    requires !mapping[i].1.Int? || !(0 <= mapping[i].1.i < |row|)
    ensures ReadCells(mapping, row) == Err(Raised("IndexError", "tuple index out of range"))
  {
    if |mapping| == i + 1 {
      assert mapping[..|mapping| - 1] == mapping[..i];
    } else {
      var init := mapping[..|mapping| - 1];
      assert init[..i] == mapping[..i] && init[i] == mapping[i];
      ReadCellsStopsAt(init, row, i);
    }
  }

  /** The row's dict has exactly the mapping's keys. */
  lemma {:induction false} ReadCellsKeys(mapping: Fields, row: seq<Value>, k: string)
    requires ReadCells(mapping, row).Ok?
    ensures HasKey(ReadCells(mapping, row).value, k) <==> HasKey(mapping, k)
  {
    if |mapping| > 0 {
      var n := |mapping| - 1;
      var init := mapping[..n];
      assert mapping == init + [mapping[n]];
      HasKeySnoc(init, mapping[n], k);
      ReadCellsKeys(init, row, k);
      var d := ReadCells(init, row).value;
      var column := mapping[n].1;
      assert ReadCells(mapping, row).value == Put(d, mapping[n].0, row[column.i]);
      LookupPut(d, mapping[n].0, row[column.i], k);
    }
  }

  /** Each declared field with the cell in its entry's column. */
  function CellsOf(t: Table, row: seq<Value>): (r: Fields)
    requires |t| <= |row|
    ensures |r| == |t| && forall j :: 0 <= j < |t| ==> r[j] == (t[j].1, row[j])
  {
    seq(|t|, j requires 0 <= j < |t| => (t[j].1, row[j]))
  }

  /** Under the positions of a table of distinct fields, the row's dict holds each field's own cell. */
  lemma {:induction false} ReadCellsOfPositions(t: Table, row: seq<Value>)
    requires |t| <= |row| && DistinctTargets(t)
    ensures ReadCells(Positions(t), row) == Ok(CellsOf(t, row))
  {
    if |t| > 0 {
      var n := |t| - 1;
      var init := t[..n];
      assert forall j :: 0 <= j < n ==> init[j] == t[j];
      ReadCellsOfPositions(init, row);
      assert Positions(t)[..n] == Positions(init);
      CellsOfSnoc(t, row);
    }
  }

  lemma CellsOfSnoc(t: Table, row: seq<Value>)
    requires 0 < |t| <= |row| && DistinctTargets(t)
    ensures Put(CellsOf(t[..|t| - 1], row), t[|t| - 1].1, row[|t| - 1]) == CellsOf(t, row)
  {
    var n := |t| - 1;
    var init := t[..n];
    assert forall j :: 0 <= j < n ==> init[j] == t[j];
    assert forall e :: e in CellsOf(init, row) ==> e.0 != t[n].1;
    assert CellsOf(init, row) + [(t[n].1, row[n])] == CellsOf(t, row);
  }

  /** A field of distinct fields reads its own cell. */
  lemma CellsLookup(t: Table, row: seq<Value>, j: nat)
    requires |t| <= |row| && DistinctTargets(t) && j < |t|
    ensures Lookup(CellsOf(t, row), t[j].1) == Some(row[j])
  {
    LookupAt(CellsOf(t, row), j);
  }

  /** A field whose every column is empty, or that no entry declares, reads as blank. */
  lemma CellsBlank(t: Table, row: seq<Value>, k: string)
    requires |t| <= |row|
    requires forall j :: 0 <= j < |t| && t[j].1 == k ==> row[j] == Null
    ensures BlankAt(CellsOf(t, row), k)
  {
    assert forall e :: e in CellsOf(t, row) && e.0 == k ==> e.1 == Null;
  }

  // --------------------------------------------------------- shaping a row

  /** The row's dict without the opening-time columns. */
  function SiteColumns(raw: Fields): Fields { FilterKeys(raw, IsSiteKey) }

  /** The opening-time columns alone, for the opening-time validator. */
  function OpeningColumns(raw: Fields): Fields { FilterKeys(raw, IsOpeningHoursKey) }

  /**
   * Everything `map_row_to_parking_site_dict` does after reading the cells:
   * drop the opening-time columns, validate them into one OSM
   * `opening_hours` value, translate the type, stamp the import time.
   * The opening-time validation can fail.
   */
  function ShapeRow(raw: Fields, now: DateTime): (r: Result<Fields, Fault>)
    requires ValidDateTime(now)
    ensures r.Err? <==> ValidateOpeningTime(Obj(OpeningColumns(raw))).Err?
  {
    var opening :- ValidateOpeningTime(Obj(OpeningColumns(raw)));
    var d := SiteColumns(raw);
    var d := Put(d, "opening_hours", Str(OsmOpeningHours(opening)));
    var d := Put(d, "type", TypeMapping(Get(d, "type")));
    Ok(Put(d, "static_data_updated_at", Str(DateTimeToIso(now))))
  }

  /**
   * The shaped dict key by key: the import time, the translated type and
   * the rendered opening hours; every opening-time column gone; every other
   * column as read.
   */
  lemma ShapeRowLookup(raw: Fields, now: DateTime, k: string)
    requires ValidDateTime(now) && ShapeRow(raw, now).Ok?
    ensures Lookup(ShapeRow(raw, now).value, k) ==
      if k == "static_data_updated_at" then Some(Str(DateTimeToIso(now)))
      else if k == "type" then Some(TypeMapping(Get(raw, "type")))
      else if k == "opening_hours" then Some(Str(OsmOpeningHours(ValidateOpeningTime(Obj(OpeningColumns(raw))).value)))
      else if IsOpeningHoursKey(k) then None
      else Lookup(raw, k)
  {
    var opening := ValidateOpeningTime(Obj(OpeningColumns(raw))).value;
    var d0 := SiteColumns(raw);
    var d1 := Put(d0, "opening_hours", Str(OsmOpeningHours(opening)));
    var d2 := Put(d1, "type", TypeMapping(Get(d1, "type")));
    assert ShapeRow(raw, now).value == Put(d2, "static_data_updated_at", Str(DateTimeToIso(now)));
    LookupFilter(raw, IsSiteKey, k);
    LookupFilter(raw, IsSiteKey, "type");
    LookupPut(d0, "opening_hours", Str(OsmOpeningHours(opening)), "type");
    assert Get(d1, "type") == Get(raw, "type");
    LookupPut(d0, "opening_hours", Str(OsmOpeningHours(opening)), k);
    LookupPut(d1, "type", TypeMapping(Get(d1, "type")), k);
    LookupPut(d2, "static_data_updated_at", Str(DateTimeToIso(now)), k);
  }

  /** `map_row_to_parking_site_dict`: read the cells, then shape them. */
  method MapRowToParkingSiteDict(mapping: Fields, row: seq<Value>, now: DateTime) returns (r: Result<Fields, Fault>)
    requires ValidDateTime(now)
    ensures r == (match ReadCells(mapping, row) case Err(f) => Err(f) case Ok(raw) => ShapeRow(raw, now))
  {
    var raw := ReadCellsLoop(mapping, row);
    if raw.Err? {
      return Err(raw.error);
    }
    var opening := ValidateOpeningTime(Obj(OpeningColumns(raw.value)));
    if opening.Err? {
      return Err(opening.error);
    }
    var parkingSiteDict := SiteColumns(raw.value);
    var osm := GetOsmOpeningHours(opening.value);
    parkingSiteDict := Put(parkingSiteDict, "opening_hours", Str(osm));
    parkingSiteDict := Put(parkingSiteDict, "type", TypeMapping(Get(parkingSiteDict, "type")));
    parkingSiteDict := Put(parkingSiteDict, "static_data_updated_at", Str(DateTimeToIso(now)));
    r := Ok(parkingSiteDict);
  }

  // ------------------------------------------------------------- row loop

  /**
   * The code as written, or as evidently intended. As written the
   * opening-time validation sits outside the per-row `try`, so its failure
   * escapes; corrected, the opening times fail the row like any other
   * validation failure.
   */
  datatype Layout = AsWritten | Corrected

  function RowError(uid: Value, f: Fault): ImportException {
    SiteError(uid, "invalid static parking site data: " + FaultText(f))
  }

  /** One data row of `handle_xlsx`. */
  function RowStep(mapping: Fields, row: seq<Value>, now: DateTime, layout: Layout): (r: Step<StaticParkingSiteInput>)
    requires ValidDateTime(now)
    ensures |row| > 0 && row[0] == Null ==> r == Ok(Skip)
    ensures r.Ok? && r.value.Accept? ==> ValidStatic(r.value.record, Excel, GeoBounds)
  {
    if |row| == 0 then Err(Raise(Raised("IndexError", "tuple index out of range")))
    else if row[0] == Null then Ok(Skip)
    else match ReadCells(mapping, row)
      case Err(f) => Err(Raise(f))
      case Ok(raw) =>
        match ShapeRow(raw, now)
        case Err(f) =>
          if layout == Corrected && f.Invalid? then Ok(Reject(RowError(Get(raw, "uid"), f)))
          else Err(Raise(f))
        case Ok(d) => ValidatedStep(d)
  }

  /** The end of a row's step: the shaped dict through the spreadsheet schema. */
  function ValidatedStep(d: Fields): (r: Step<StaticParkingSiteInput>)
    ensures r.Ok? && r.value.Accept? <==> ValidateExcelStatic(Obj(d)).Ok?
    ensures r.Ok? && r.value.Accept? ==> r.value.record == ValidateExcelStatic(Obj(d)).value
  {
    match ValidateExcelStatic(Obj(d))
    case Ok(s) => Ok(Accept(s))
    case Err(f) => if f.Invalid? then Ok(Reject(RowError(Get(d, "uid"), f))) else Err(Raise(f))
  }

  function RowSteps(mapping: Fields, rows: seq<seq<Value>>, now: DateTime, layout: Layout): (r: seq<Step<StaticParkingSiteInput>>)
    requires ValidDateTime(now)
    ensures |r| == |rows|
    ensures forall i :: 0 <= i < |rows| ==> r[i] == RowStep(mapping, rows[i], now, layout)
  {
    seq(|rows|, i requires 0 <= i < |rows| => RowStep(mapping, rows[i], now, layout))
  }

  /** `handle_xlsx`: the header row gives the mapping, every later row one step. */
  function HandleXlsxSpec(info: SourceInfo, rows: seq<seq<Value>>, now: DateTime, layout: Layout): (r: Result<ImportSourceResult, Abort>)
    requires ValidDateTime(now)
    ensures |rows| == 0 ==> r.Err?
    ensures |rows| > 0 && XlsxMapping(info.id, HeaderRow, rows[0]).Err? ==>
      r == Err(RaiseImport(XlsxMapping(info.id, HeaderRow, rows[0]).error))
    ensures r.Ok? ==> r.value.status == Active && r.value.realtimeInputs.None? && r.value.realtimeErrors.None?
  {
    if |rows| == 0 then Err(Raise(Raised("StopIteration", "")))
    else match XlsxMapping(info.id, HeaderRow, rows[0])
      case Err(e) => Err(RaiseImport(e))
      case Ok(mapping) =>
        match Gather(RowSteps(mapping, rows[1..], now, layout))
        case Err(a) => Err(a)
        case Ok(lists) => Ok(GenerateImportSourceResult(info, Some(lists.0), None, Some(lists.1), None))
  }

  /** The body of `handle_xlsx`'s row loop, with the mapping inside the `try`. */
  method HandleRow(mapping: Fields, row: seq<Value>, now: DateTime) returns (step: Step<StaticParkingSiteInput>)
    requires ValidDateTime(now)
    ensures step == RowStep(mapping, row, now, Corrected)
  {
    if |row| == 0 {
      return Err(Raise(Raised("IndexError", "tuple index out of range")));
    }
    if row[0] == Null {
      return Ok(Skip);
    }
    var raw := ReadCellsLoop(mapping, row);
    if raw.Err? {
      return Err(Raise(raw.error));
    }
    var parkingSiteDict := MapRowToParkingSiteDict(mapping, row, now);
    if parkingSiteDict.Err? {
      if !parkingSiteDict.error.Invalid? {
        return Err(Raise(parkingSiteDict.error));
      }
      return Ok(Reject(RowError(Get(raw.value, "uid"), parkingSiteDict.error)));
    }
    var d := parkingSiteDict.value;
    match ValidateExcelStatic(Obj(d)) {
      case Ok(s) =>
        step := Ok(Accept(s));
      case Err(f) =>
        if !f.Invalid? {
          return Err(Raise(f));
        }
        step := Ok(Reject(RowError(Get(d, "uid"), f)));
    }
  }

  method HandleXlsx(info: SourceInfo, rows: seq<seq<Value>>, now: DateTime) returns (r: Result<ImportSourceResult, Abort>)
    requires ValidDateTime(now)
    ensures r == HandleXlsxSpec(info, rows, now, Corrected)
  {
    if |rows| == 0 {
      return Err(Raise(Raised("StopIteration", "")));
    }
    var m := GetXlsxMapping(info.id, HeaderRow, rows[0]);
    if m.Err? {
      return Err(RaiseImport(m.error));
    }
    var data := rows[1..];
    ghost var steps := RowSteps(m.value, data, now, Corrected);
    var staticParkingSiteErrors: seq<ImportException> := [];
    var staticParkingSiteInputs: seq<StaticParkingSiteInput> := [];
    for i := 0 to |data|
      invariant Gather(steps[..i]) == Ok((staticParkingSiteInputs, staticParkingSiteErrors))
    {
      GatherSnoc(steps, i);
      var step := HandleRow(m.value, data[i], now);
      match step {
        case Err(a) =>
          GatherStopsAt(steps, i);
          return Err(a);
        case Ok(Skip) =>
        case Ok(Accept(s)) =>
          staticParkingSiteInputs := staticParkingSiteInputs + [s];
        case Ok(Reject(e)) =>
          staticParkingSiteErrors := staticParkingSiteErrors + [e];
      }
    }
    GatherAll(steps);
    r := Ok(GenerateImportSourceResult(info, Some(staticParkingSiteInputs), None, Some(staticParkingSiteErrors), None));
  }

  // ------------------------------------------------------------- properties

  /** Each row that is not skipped yields exactly one input or one error, and a row with an empty first cell yields neither. */
  lemma RowCounts(info: SourceInfo, rows: seq<seq<Value>>, now: DateTime, layout: Layout)
    requires ValidDateTime(now) && HandleXlsxSpec(info, rows, now, layout).Ok?
    ensures var r := HandleXlsxSpec(info, rows, now, layout);
      |r.value.staticInputs.value| + |r.value.staticErrors.value| + Skipped(RowSteps(XlsxMapping(info.id, HeaderRow, rows[0]).value, rows[1..], now, layout))
      == |rows| - 1
  {
    var steps := RowSteps(XlsxMapping(info.id, HeaderRow, rows[0]).value, rows[1..], now, layout);
    GatherSpec(steps);
    GatherCounts(steps);
  }

  /**
   * With the opening-time validation outside the `try`, a row whose
   * opening-time columns fail validation ends the whole conversion: its
   * step escapes, so no result is returned.
   */
  lemma BadOpeningTimeAbortsFile(mapping: Fields, rows: seq<seq<Value>>, now: DateTime, i: nat)
    requires ValidDateTime(now) && i < |rows| && |rows[i]| > 0 && rows[i][0] != Null
    requires ReadCells(mapping, rows[i]).Ok?
    requires ValidateOpeningTime(Obj(OpeningColumns(ReadCells(mapping, rows[i]).value))).Err?
    ensures Gather(RowSteps(mapping, rows, now, AsWritten)).Err?
    ensures Gather(RowSteps(mapping, rows, now, Corrected)).Ok? ==>
      RowSteps(mapping, rows, now, Corrected)[i].Ok? && RowSteps(mapping, rows, now, Corrected)[i].value.Reject?
  {
    var written, corrected := RowSteps(mapping, rows, now, AsWritten), RowSteps(mapping, rows, now, Corrected);
    BadOpeningTimeStep(mapping, rows[i], now);
    assert written[i].Err?;
    GatherSpec(written);
    GatherSpec(corrected);
  }
  /** The step of such a row escapes as written, and is at most an error once corrected. */
  lemma BadOpeningTimeStep(mapping: Fields, row: seq<Value>, now: DateTime)
    requires ValidDateTime(now) && |row| > 0 && row[0] != Null && ReadCells(mapping, row).Ok?
    requires ValidateOpeningTime(Obj(OpeningColumns(ReadCells(mapping, row).value))).Err?
    ensures RowStep(mapping, row, now, AsWritten).Err?
    ensures RowStep(mapping, row, now, Corrected).Ok? ==> RowStep(mapping, row, now, Corrected).value.Reject?
  {
    assert ShapeRow(ReadCells(mapping, row).value, now).Err?;
  }


  /** The header row's targets never include `is_supervised`. */
  lemma NoIsSupervisedColumn()
    ensures "is_supervised" !in TableValues(HeaderRow)
  {
    var vs := TableValues(HeaderRow);
    forall j | 0 <= j < |vs| ensures vs[j] != "is_supervised" {
      assert vs[j] == HeaderRow[j].1;
    }
  }

  /**
   * The layout has no `is_supervised` column, and the spreadsheet schema
   * reads the missing column as a blank cell: a shaped row without it fares
   * exactly as the same row with an empty `is_supervised` cell.
   */
  lemma MissingColumnAsBlank(d: Fields)
    requires !HasKey(d, "is_supervised")
    ensures ValidatedStep(d) == ValidatedStep(Put(d, "is_supervised", Null))
  {
    AbsentFlagAsBlank(d, "is_supervised");
    LookupPut(d, "is_supervised", Null, "uid");
  }

  /**
   * Under either layout, a row of the sheet that is read and shaped is
   * accepted exactly when its cells, with a blank `is_supervised` added,
   * pass the spreadsheet schema, and the record is what that schema builds.
   */
  lemma ShapedRowAccepted(info: SourceInfo, header: seq<Value>, row: seq<Value>, now: DateTime, layout: Layout)
    requires ValidDateTime(now) && XlsxMapping(info.id, HeaderRow, header).Ok?
    requires |row| > 0 && row[0] != Null
    requires var m := XlsxMapping(info.id, HeaderRow, header).value;
      ReadCells(m, row).Ok? && ShapeRow(ReadCells(m, row).value, now).Ok?
    ensures var m := XlsxMapping(info.id, HeaderRow, header).value;
      var d := ShapeRow(ReadCells(m, row).value, now).value;
      var step := RowStep(m, row, now, layout);
      && (step.Ok? && step.value.Accept? <==> ValidateExcelStatic(Obj(Put(d, "is_supervised", Null))).Ok?)
      && (step.Ok? && step.value.Accept? ==> step.value.record == ValidateExcelStatic(Obj(Put(d, "is_supervised", Null))).value)
  {
    var m := XlsxMapping(info.id, HeaderRow, header).value;
    var d := ShapeRow(ReadCells(m, row).value, now).value;
    ShapedRowFlags(info, header, row, now);
    assert RowStep(m, row, now, layout) == ValidatedStep(d);
    MissingColumnAsBlank(d);
  }

  /** A shaped row of the sheet has the lighting, fee and realtime columns and no `is_supervised` column. */
  lemma ShapedRowFlags(info: SourceInfo, header: seq<Value>, row: seq<Value>, now: DateTime)
    requires ValidDateTime(now) && XlsxMapping(info.id, HeaderRow, header).Ok?
    requires var m := XlsxMapping(info.id, HeaderRow, header).value;
      ReadCells(m, row).Ok? && ShapeRow(ReadCells(m, row).value, now).Ok?
    ensures var m := XlsxMapping(info.id, HeaderRow, header).value;
      var d := ShapeRow(ReadCells(m, row).value, now).value;
      HasKey(d, "has_lighting") && HasKey(d, "has_fee") && HasKey(d, "has_realtime_data") && !HasKey(d, "is_supervised")
  {
    var m := XlsxMapping(info.id, HeaderRow, header).value;
    MappingFlags(info.id, HeaderRow, header, m);
    ShapedFlags(m, row, now);
  }

  /** The shaped row has the flag columns the mapping has. */
  lemma ShapedFlags(m: Fields, row: seq<Value>, now: DateTime)
    requires ValidDateTime(now) && ReadCells(m, row).Ok? && ShapeRow(ReadCells(m, row).value, now).Ok?
    requires HasKey(m, "has_lighting") && HasKey(m, "has_fee") && HasKey(m, "has_realtime_data")
    requires !HasKey(m, "is_supervised")
    ensures var d := ShapeRow(ReadCells(m, row).value, now).value;
      HasKey(d, "has_lighting") && HasKey(d, "has_fee") && HasKey(d, "has_realtime_data") && !HasKey(d, "is_supervised")
  {
    FlagsAreSiteKeys();
    ShapedRowHasKey(m, row, now, "has_lighting");
    ShapedRowHasKey(m, row, now, "has_fee");
    ShapedRowHasKey(m, row, now, "has_realtime_data");
    ShapedRowLacksKey(m, row, now, "is_supervised");
  }

  lemma FlagsAreSiteKeys()
    ensures IsSiteKey("has_lighting") && IsSiteKey("has_fee") && IsSiteKey("has_realtime_data") && IsSiteKey("is_supervised")
  {
    assert "has_realtime_data"[..14][0] == 'h';
  }

  /** The sheet has a lighting, a fee and a realtime column. */
  lemma FlagHeaders()
    ensures "has_lighting" in TableValues(HeaderRow) && "has_fee" in TableValues(HeaderRow)
    ensures "has_realtime_data" in TableValues(HeaderRow)
  {
    var vs := TableValues(HeaderRow);
    assert vs[13] == HeaderRow[13].1;
    assert vs[14] == HeaderRow[14].1;
    assert vs[15] == HeaderRow[15].1;
  }

  // Stated over a table variable so that the solver does not unroll the mapping over the constant.
  lemma MappingFlags(sourceId: string, t: Table, header: seq<Value>, m: Fields)
    requires t == HeaderRow && XlsxMapping(sourceId, t, header) == Ok(m)
    ensures HasKey(m, "has_lighting") && HasKey(m, "has_fee") && HasKey(m, "has_realtime_data")
    ensures !HasKey(m, "is_supervised")
  {
    FlagHeaders();
    XlsxMappingKeys(sourceId, t, header, "has_lighting");
    XlsxMappingKeys(sourceId, t, header, "has_fee");
    XlsxMappingKeys(sourceId, t, header, "has_realtime_data");
    NoIsSupervisedColumn();
    XlsxMappingKeys(sourceId, t, header, "is_supervised");
  }

  /** A site column the mapping does not fill is missing from the shaped row too. */
  lemma ShapedRowLacksKey(mapping: Fields, row: seq<Value>, now: DateTime, k: string)
    requires ValidDateTime(now) && ReadCells(mapping, row).Ok? && ShapeRow(ReadCells(mapping, row).value, now).Ok?
    requires !HasKey(mapping, k) && IsSiteKey(k) && k !in {"static_data_updated_at", "type", "opening_hours"}
    ensures !HasKey(ShapeRow(ReadCells(mapping, row).value, now).value, k)
  {
    ReadCellsKeys(mapping, row, k);
    ShapeRowLookup(ReadCells(mapping, row).value, now, k);
  }

  /** A site column the mapping fills is in the shaped row too. */
  lemma ShapedRowHasKey(mapping: Fields, row: seq<Value>, now: DateTime, k: string)
    requires ValidDateTime(now) && ReadCells(mapping, row).Ok? && ShapeRow(ReadCells(mapping, row).value, now).Ok?
    requires HasKey(mapping, k) && IsSiteKey(k)
    ensures HasKey(ShapeRow(ReadCells(mapping, row).value, now).value, k)
  {
    ReadCellsKeys(mapping, row, k);
    ShapeRowLookup(ReadCells(mapping, row).value, now, k);
  }

  /** An accepted row had a first cell, was read, was shaped and passed the spreadsheet schema. */
  lemma AcceptedRow(mapping: Fields, row: seq<Value>, now: DateTime, layout: Layout)
    requires ValidDateTime(now)
    ensures var step := RowStep(mapping, row, now, layout);
      step.Ok? && step.value.Accept? ==>
        && |row| > 0 && row[0] != Null && ReadCells(mapping, row).Ok?
        && ShapeRow(ReadCells(mapping, row).value, now).Ok?
        && ValidateExcelStatic(Obj(ShapeRow(ReadCells(mapping, row).value, now).value)).Ok?
  {
    if |row| > 0 && row[0] != Null && ReadCells(mapping, row).Ok? {
      var raw := ReadCells(mapping, row).value;
      if ShapeRow(raw, now).Ok? {
        assert RowStep(mapping, row, now, layout) == ValidatedStep(ShapeRow(raw, now).value);
      }
    }
  }

  /** As written the column headed 'Längengrad' (longitude) fills `lat`, and 'Breitengrad' (latitude) fills `lon`. */
  lemma LongitudeColumnFillsLat(info: SourceInfo, header: seq<Value>)
    requires XlsxMapping(info.id, HeaderRow, header).Ok?
    ensures Lookup(XlsxMapping(info.id, HeaderRow, header).value, "lat") == HeaderColumn(header, "Längengrad")
    ensures Lookup(XlsxMapping(info.id, HeaderRow, header).value, "lon") == HeaderColumn(header, "Breitengrad")
  {
    var m := XlsxMapping(info.id, HeaderRow, header).value;
    assert Lookup(m, "lat") == HeaderColumn(header, "Längengrad") by {
      TargetColumn(info.id, header, HeaderRow, m, 4);
      PositionHeaders();
    }
    assert Lookup(m, "lon") == HeaderColumn(header, "Breitengrad") by {
      TargetColumn(info.id, header, HeaderRow, m, 5);
      PositionHeaders();
    }
  }

  // Stated over a table variable so that the solver does not unroll the mapping over the constant.
  lemma TargetColumn(sourceId: string, header: seq<Value>, t: Table, m: Fields, j: nat)
    requires t == HeaderRow && XlsxMapping(sourceId, t, header) == Ok(m) && (j == 4 || j == 5)
    ensures Lookup(m, t[j].1) == HeaderColumn(header, t[j].0)
  {
    HeaderTargetsUnique(j);
    XlsxMappingFinds(sourceId, t, header, j, t[j].0, t[j].1);
  }

  lemma PositionHeaders()
    ensures HeaderRow[4] == ("Längengrad", "lat") && HeaderRow[5] == ("Breitengrad", "lon")
  {
  }

  lemma HeaderTargetsUnique(j: nat)
    requires j == 4 || j == 5
    ensures forall i :: 0 <= i < |HeaderRow| && i != j ==> HeaderRow[i].1 != HeaderRow[j].1
  {
    forall i | 0 <= i < |HeaderRow| && i != j
      ensures HeaderRow[i].1 != HeaderRow[j].1
    {
      if |HeaderRow[i].1| == 3 {
        assert i == 0 || i == 4 || i == 5;
      }
    }
  }
}
