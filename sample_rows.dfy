/**
 * Concrete data rows of the two spreadsheet layouts, and what the
 * converters make of them: a filled-in row that the spreadsheet schema
 * accepts although the layout lacks some of its boolean columns.
 */
module SampleRows {
  import opened Wrappers
  import opened Text
  import opened Values
  import opened FieldValidators
  import opened SiteInputs
  import opened OpeningTimes
  import opened ImportResults
  import opened Aggregation
  import opened LegacyStrings
  import opened HeaderMapping
  import opened NormalizedXlsx
  import BwParkAndDrive

  // ------------------------------------------------------ normalised layout

  /** A filled-in data row: a uid, a name, the type 'Parkhaus' and a position; every other cell is empty. */
  function SampleRow(): (r: seq<Value>)
    ensures |r| == |HeaderRow|
  {
    [Str("1"), Str("P"), Str("Parkhaus"), Null, Real(DecOfInt(48)), Real(DecOfInt(9)),
     Null, Null, Null, Null, Null, Null, Null, Null, Null, Null, Null, Null, Null, Null, Null, Null, Null, Null, Null, Null, Null]
  }

  /**
   * Under either layout, the sample row under a header row holding exactly
   * the sheet's headers is accepted, as a car park with its uid, name and
   * position, the realtime flag False, though the sheet has no
   * `is_supervised` column.
   */
  lemma NormalizedRowAccepted(info: SourceInfo, now: DateTime, layout: Layout)
    requires ValidDateTime(now) && now.offset == Some(0)
    ensures XlsxMapping(info.id, HeaderRow, HeaderTexts(HeaderRow)) == Ok(Positions(HeaderRow))
    ensures var step := RowStep(Positions(HeaderRow), SampleRow(), now, layout);
      && step.Ok? && step.value.Accept?
      && step.value.record.uid == "1" && step.value.record.name == "P"
      && step.value.record.lat == DecOfInt(48) && step.value.record.lon == DecOfInt(9)
      && step.value.record.siteType == Some(CarPark) && !step.value.record.hasRealtimeData
  {
    var t, row := HeaderRow, SampleRow();
    HeaderRowDistinct(t);
    HeaderTextsMapping(info.id, t);
    SampleStep(t, row, now, layout);
  }

  /** The step of the sample row under the sheet's positions. */
  lemma SampleStep(t: Table, row: seq<Value>, now: DateTime, layout: Layout)
    requires t == HeaderRow && row == SampleRow() && ValidDateTime(now) && now.offset == Some(0)
    ensures var step := RowStep(Positions(t), row, now, layout);
      step.Ok? && step.value.Accept? && SampleRecord(step.value.record)
  {
    SampleRowFacts(t, row);
    SampleCellsStep(t, row, now, layout);
  }

  lemma SampleRowFacts(t: Table, row: seq<Value>)
    requires t == HeaderRow && row == SampleRow()
    ensures DistinctTargets(t) && 0 < |t| <= |row| && row[0] != Null && SampleCells(CellsOf(t, row))
  {
    HeaderRowDistinct(t);
    SampleRowCells(t, row);
    SampleColumns(t, row);
  }

  /** Any row whose cells, read at the positions of distinct fields, are those of the sample is accepted. */
  lemma SampleCellsStep(t: Table, row: seq<Value>, now: DateTime, layout: Layout)
    requires DistinctTargets(t) && 0 < |t| <= |row| && row[0] != Null && SampleCells(CellsOf(t, row))
    requires ValidDateTime(now) && now.offset == Some(0)
    ensures var step := RowStep(Positions(t), row, now, layout);
      step.Ok? && step.value.Accept? && SampleRecord(step.value.record)
  {
    ReadCellsOfPositions(t, row);
    var raw := CellsOf(t, row);
    SampleCellsAccepted(raw, now);
    AcceptedStep(Positions(t), row, now, raw, layout);
  }

  lemma SampleCellsAccepted(raw: Fields, now: DateTime)
    requires SampleCells(raw) && ValidDateTime(now) && now.offset == Some(0)
    ensures ShapeRow(raw, now).Ok?
    ensures var r := ValidateExcelStatic(Obj(ShapeRow(raw, now).value)); r.Ok? && SampleRecord(r.value)
  {
    SampleShaped(raw, now);
    SampleAccepted(ShapeRow(raw, now).value, now);
  }

  /** A row that is read, shaped and validated is accepted as the validated record. */
  lemma AcceptedStep(m: Fields, row: seq<Value>, now: DateTime, raw: Fields, layout: Layout)
    requires ValidDateTime(now) && |row| > 0 && row[0] != Null
    requires ReadCells(m, row) == Ok(raw) && ShapeRow(raw, now).Ok?
    requires ValidateExcelStatic(Obj(ShapeRow(raw, now).value)).Ok?
    ensures RowStep(m, row, now, layout) == Ok(Accept(ValidateExcelStatic(Obj(ShapeRow(raw, now).value)).value))
  {
    ShapedStep(m, row, now, raw, layout);
    ValidatedAccepted(ShapeRow(raw, now).value);
  }

  lemma ShapedStep(m: Fields, row: seq<Value>, now: DateTime, raw: Fields, layout: Layout)
    requires ValidDateTime(now) && |row| > 0 && row[0] != Null
    requires ReadCells(m, row) == Ok(raw) && ShapeRow(raw, now).Ok?
    ensures RowStep(m, row, now, layout) == ValidatedStep(ShapeRow(raw, now).value)
  {
  }

  lemma ValidatedAccepted(d: Fields)
    requires ValidateExcelStatic(Obj(d)).Ok?
    ensures ValidatedStep(d) == Ok(Accept(ValidateExcelStatic(Obj(d)).value))
  {
  }

  /** The sheet's headers are distinct, and so are the fields they fill. */
  lemma HeaderRowDistinct(t: Table)
    requires t == HeaderRow
    ensures DistinctHeaders(t) && DistinctTargets(t)
  {
    HeaderTextsDistinct(t);
    HeaderTargetsDistinct(t);
  }

  lemma HeaderTextsDistinct(t: Table)
    requires t == HeaderRow
    ensures DistinctHeaders(t)
  {
    HeadersApart0(t);
    HeadersApart7(t);
    HeadersApart14(t);
    HeadersApart21(t);
  }

  lemma HeaderTargetsDistinct(t: Table)
    requires t == HeaderRow
    ensures DistinctTargets(t)
  {
    TargetsApart0(t);
    TargetsApart7(t);
    TargetsApart14(t);
    TargetsApart21(t);
  }

  lemma HeadersApart0(t: Table)
    requires t == HeaderRow
    ensures forall i, j :: 0 <= i < 7 && i < j < |t| ==> t[i].0 != t[j].0
  {
  }

  lemma HeadersApart7(t: Table)
    requires t == HeaderRow
    ensures forall i, j :: 7 <= i < 14 && i < j < |t| ==> t[i].0 != t[j].0
  {
  }

  lemma HeadersApart14(t: Table)
    requires t == HeaderRow
    ensures forall i, j :: 14 <= i < 21 && i < j < |t| ==> t[i].0 != t[j].0
  {
  }

  lemma HeadersApart21(t: Table)
    requires t == HeaderRow
    ensures forall i, j :: 21 <= i < 27 && i < j < |t| ==> t[i].0 != t[j].0
  {
  }

  lemma TargetsApart0(t: Table)
    requires t == HeaderRow
    ensures forall i, j :: 0 <= i < 7 && i < j < |t| ==> t[i].1 != t[j].1
  {
  }

  lemma TargetsApart7(t: Table)
    requires t == HeaderRow
    ensures forall i, j :: 7 <= i < 14 && i < j < |t| ==> t[i].1 != t[j].1
  {
  }

  lemma TargetsApart14(t: Table)
    requires t == HeaderRow
    ensures forall i, j :: 14 <= i < 21 && i < j < |t| ==> t[i].1 != t[j].1
  {
  }

  lemma TargetsApart21(t: Table)
    requires t == HeaderRow
    ensures forall i, j :: 21 <= i < 27 && i < j < |t| ==> t[i].1 != t[j].1
  {
  }

  /** Every field of the sample row named by more than four characters reads as blank. */
  lemma SampleCellsBlank(t: Table, row: seq<Value>, k: string)
    requires t == HeaderRow && row == SampleRow() && |k| > 4
    ensures BlankAt(CellsOf(t, row), k)
  {
    SampleColumns(t, row);
    forall j | 0 <= j < |t| && t[j].1 == k ensures row[j] == Null {
      assert j != 0 && j != 1 && j != 2 && j != 4 && j != 5;
    }
    CellsBlank(t, row, k);
  }

  /** The filled columns of the sample row and the fields they fill. */
  lemma SampleColumns(t: Table, row: seq<Value>)
    requires t == HeaderRow && row == SampleRow()
    ensures t[0].1 == "uid" && t[1].1 == "name" && t[2].1 == "type" && t[4].1 == "lat" && t[5].1 == "lon"
    ensures row[0] == Str("1") && row[1] == Str("P") && row[2] == Str("Parkhaus")
    ensures row[4] == Real(DecOfInt(48)) && row[5] == Real(DecOfInt(9))
    ensures forall j | 0 <= j < |t| && j != 0 && j != 1 && j != 2 && j != 4 && j != 5 :: row[j] == Null
  {
  }

  /** The cells of the sample row: its uid, name, type and position, and every longer key blank. */
  ghost predicate SampleCells(raw: Fields) {
    && Lookup(raw, "uid") == Some(Str("1")) && Lookup(raw, "name") == Some(Str("P"))
    && Lookup(raw, "type") == Some(Str("Parkhaus"))
    && Lookup(raw, "lat") == Some(Real(DecOfInt(48))) && Lookup(raw, "lon") == Some(Real(DecOfInt(9)))
    && forall k | |k| > 4 :: BlankAt(raw, k)
  }

  lemma SampleRowCells(t: Table, row: seq<Value>)
    requires t == HeaderRow && row == SampleRow()
    ensures SampleCells(CellsOf(t, row))
  {
    SampleRowLookups(t, row);
    forall k | |k| > 4 ensures BlankAt(CellsOf(t, row), k) {
      SampleCellsBlank(t, row, k);
    }
  }

  lemma SampleRowLookups(t: Table, row: seq<Value>)
    requires t == HeaderRow && row == SampleRow()
    ensures var raw := CellsOf(t, row);
      && Lookup(raw, "uid") == Some(Str("1")) && Lookup(raw, "name") == Some(Str("P"))
      && Lookup(raw, "type") == Some(Str("Parkhaus"))
      && Lookup(raw, "lat") == Some(Real(DecOfInt(48))) && Lookup(raw, "lon") == Some(Real(DecOfInt(9)))
  {
    HeaderRowDistinct(t);
    SampleColumns(t, row);
    CellsLookup(t, row, 0);
    CellsLookup(t, row, 1);
    CellsLookup(t, row, 2);
    CellsLookup(t, row, 4);
    CellsLookup(t, row, 5);
  }

  /** All seven opening-time columns blank. */
  ghost predicate BlankOpening(o: Fields) {
    && BlankAt(o, "opening_hours_is_24_7")
    && BlankAt(o, "opening_hours_weekday_begin") && BlankAt(o, "opening_hours_weekday_end")
    && BlankAt(o, "opening_hours_saturday_begin") && BlankAt(o, "opening_hours_saturday_end")
    && BlankAt(o, "opening_hours_sunday_begin") && BlankAt(o, "opening_hours_sunday_end")
  }

  /** Blank opening-time columns are accepted as no opening times at all. */
  lemma BlankOpeningTime(o: Fields)
    requires BlankOpening(o)
    ensures ValidateOpeningTime(Obj(o)) == Ok(ExcelOpeningTime(None, None, None, None, None, None, None))
  {
    assert IsBlank(Null);
    assert Is247Column(o) == Ok(None);
    BlankTimeColumn(o, "opening_hours_weekday_begin");
    BlankTimeColumn(o, "opening_hours_weekday_end");
    BlankTimeColumn(o, "opening_hours_saturday_begin");
    BlankTimeColumn(o, "opening_hours_saturday_end");
    BlankTimeColumn(o, "opening_hours_sunday_begin");
    BlankTimeColumn(o, "opening_hours_sunday_end");
  }

  lemma BlankTimeColumn(o: Fields, k: string)
    requires BlankAt(o, k)
    ensures TimeColumn(o, k) == Ok(None)
  {
    assert IsBlank(Null);
  }

  /** The sample row's cells are shaped: blank opening times render as the empty text, the type is translated. */
  lemma SampleShaped(raw: Fields, now: DateTime)
    requires SampleCells(raw) && ValidDateTime(now)
    ensures ShapeRow(raw, now).Ok?
    ensures var d := ShapeRow(raw, now).value;
      && FilledSite(d, "1", "P", DateTimeToIso(now), DecOfInt(48), DecOfInt(9)) && BlankExtras(d)
      && Lookup(d, "type") == Some(Str("CAR_PARK")) && Lookup(d, "opening_hours") == Some(Str(""))
  {
    SampleOpeningTime(raw);
    NoOpeningHoursText();
    SampleShapedFilled(raw, now);
    SampleShapedBeyond(raw, now);
    BlankBeyondExtras(ShapeRow(raw, now).value);
  }

  lemma SampleShapedBeyond(raw: Fields, now: DateTime)
    requires SampleCells(raw) && ValidDateTime(now) && ShapeRow(raw, now).Ok?
    ensures BlankBeyond(ShapeRow(raw, now).value)
  {
    forall k | |k| > 6 && k != "static_data_updated_at" && k != "opening_hours" ensures BlankAt(ShapeRow(raw, now).value, k) {
      ShapeRowLookup(raw, now, k);
    }
  }

  /** No opening times render as the empty text. */
  lemma NoOpeningHoursText()
    ensures OsmOpeningHours(ExcelOpeningTime(None, None, None, None, None, None, None)) == ""
  {
    assert OpeningFragments(ExcelOpeningTime(None, None, None, None, None, None, None)) == [];
  }

  lemma SampleOpeningTime(raw: Fields)
    requires SampleCells(raw)
    ensures ValidateOpeningTime(Obj(OpeningColumns(raw))) == Ok(ExcelOpeningTime(None, None, None, None, None, None, None))
  {
    OpeningColumnBlank(raw, "opening_hours_is_24_7");
    OpeningColumnBlank(raw, "opening_hours_weekday_begin");
    OpeningColumnBlank(raw, "opening_hours_weekday_end");
    OpeningColumnBlank(raw, "opening_hours_saturday_begin");
    OpeningColumnBlank(raw, "opening_hours_saturday_end");
    OpeningColumnBlank(raw, "opening_hours_sunday_begin");
    OpeningColumnBlank(raw, "opening_hours_sunday_end");
    BlankOpeningTime(OpeningColumns(raw));
  }

  lemma OpeningColumnBlank(raw: Fields, k: string)
    requires BlankAt(raw, k)
    ensures BlankAt(OpeningColumns(raw), k)
  {
    LookupFilter(raw, IsOpeningHoursKey, k);
  }

  lemma SampleShapedFilled(raw: Fields, now: DateTime)
    requires SampleCells(raw) && ValidDateTime(now)
    requires ValidateOpeningTime(Obj(OpeningColumns(raw))) == Ok(ExcelOpeningTime(None, None, None, None, None, None, None))
    requires OsmOpeningHours(ExcelOpeningTime(None, None, None, None, None, None, None)) == ""
    ensures ShapeRow(raw, now).Ok?
    ensures var d := ShapeRow(raw, now).value;
      && FilledSite(d, "1", "P", DateTimeToIso(now), DecOfInt(48), DecOfInt(9))
      && Lookup(d, "type") == Some(Str("CAR_PARK")) && Lookup(d, "opening_hours") == Some(Str(""))
  {
    ShapedKeeps(raw, now, "uid");
    ShapedKeeps(raw, now, "name");
    ShapedKeeps(raw, now, "lat");
    ShapedKeeps(raw, now, "lon");
    ShapedDerived(raw, now);
  }

  /** A short key that is not derived keeps its cell. */
  lemma ShapedKeeps(raw: Fields, now: DateTime, k: string)
    requires ValidDateTime(now) && ShapeRow(raw, now).Ok?
    requires k == "uid" || k == "name" || k == "lat" || k == "lon"
    ensures Lookup(ShapeRow(raw, now).value, k) == Lookup(raw, k)
  {
    assert !IsOpeningHoursKey(k) && k != "static_data_updated_at" && k != "type" && k != "opening_hours";
    ShapeRowLookup(raw, now, k);
  }

  lemma ShapedDerived(raw: Fields, now: DateTime)
    requires SampleCells(raw) && ValidDateTime(now)
    requires ValidateOpeningTime(Obj(OpeningColumns(raw))) == Ok(ExcelOpeningTime(None, None, None, None, None, None, None))
    requires OsmOpeningHours(ExcelOpeningTime(None, None, None, None, None, None, None)) == ""
    ensures ShapeRow(raw, now).Ok?
    ensures var d := ShapeRow(raw, now).value;
      && Lookup(d, "static_data_updated_at") == Some(Str(DateTimeToIso(now)))
      && Lookup(d, "type") == Some(Str("CAR_PARK")) && Lookup(d, "opening_hours") == Some(Str(""))
  {
    ShapedType(raw, now);
    ShapeRowLookup(raw, now, "opening_hours");
    ShapeRowLookup(raw, now, "static_data_updated_at");
  }

  lemma ShapedType(raw: Fields, now: DateTime)
    requires ValidDateTime(now) && ShapeRow(raw, now).Ok? && Lookup(raw, "type") == Some(Str("Parkhaus"))
    ensures Lookup(ShapeRow(raw, now).value, "type") == Some(Str("CAR_PARK"))
  {
    ShapeRowLookup(raw, now, "type");
    ParkhausIsCarPark(Get(raw, "type"));
  }

  lemma ParkhausIsCarPark(v: Value)
    requires v == Str("Parkhaus")
    ensures TypeMapping(v) == Str("CAR_PARK")
  {
  }

  /** Every key longer than six characters other than the import time and the opening hours is blank. */
  ghost predicate BlankBeyond(d: Fields) {
    forall k | |k| > 6 && k != "static_data_updated_at" && k != "opening_hours" :: BlankAt(d, k)
  }

  lemma BlankBeyondExtras(d: Fields)
    requires BlankBeyond(d)
    ensures BlankExtras(d)
  {
    BlankBeyondDescription(d);
    BlankBeyondFlags(d);
    BlankBeyondCapacities(d);
  }

  lemma BlankBeyondDescription(d: Fields)
    requires BlankBeyond(d)
    ensures BlankAt(d, "operator_name") && BlankAt(d, "public_url") && BlankAt(d, "address")
    ensures BlankAt(d, "description") && BlankAt(d, "max_stay") && BlankAt(d, "fee_description")
    ensures BlankAt(d, "park_and_ride_type")
  {
    assert BlankAt(d, "operator_name") by { var k := "operator_name"; assert |k| > 6 && k != "static_data_updated_at" && k != "opening_hours"; }
    assert BlankAt(d, "public_url") by { var k := "public_url"; assert |k| > 6 && k != "static_data_updated_at" && k != "opening_hours"; }
    assert BlankAt(d, "address") by { var k := "address"; assert |k| > 6 && k != "static_data_updated_at" && k != "opening_hours"; }
    assert BlankAt(d, "description") by { var k := "description"; assert |k| > 6 && k != "static_data_updated_at" && k != "opening_hours"; }
    assert BlankAt(d, "max_stay") by { var k := "max_stay"; assert |k| > 6 && k != "static_data_updated_at" && k != "opening_hours"; }
    assert BlankAt(d, "fee_description") by { var k := "fee_description"; assert |k| > 6 && k != "static_data_updated_at" && k != "opening_hours"; }
    assert BlankAt(d, "park_and_ride_type") by { var k := "park_and_ride_type"; assert |k| > 6 && k != "static_data_updated_at" && k != "opening_hours"; }
  }

  lemma BlankBeyondFlags(d: Fields)
    requires BlankBeyond(d)
    ensures BlankAt(d, "has_lighting") && BlankAt(d, "has_fee") && BlankAt(d, "is_supervised")
    ensures BlankAt(d, "has_realtime_data")
  {
    assert BlankAt(d, "has_lighting") by { var k := "has_lighting"; assert |k| > 6 && k != "static_data_updated_at" && k != "opening_hours"; }
    assert BlankAt(d, "has_fee") by { var k := "has_fee"; assert |k| > 6 && k != "static_data_updated_at" && k != "opening_hours"; }
    assert BlankAt(d, "is_supervised") by { var k := "is_supervised"; assert |k| > 6 && k != "static_data_updated_at" && k != "opening_hours"; }
    assert BlankAt(d, "has_realtime_data") by { var k := "has_realtime_data"; assert |k| > 6 && k != "static_data_updated_at" && k != "opening_hours"; }
  }

  lemma BlankBeyondCapacities(d: Fields)
    requires BlankBeyond(d)
    ensures forall i | 0 <= i < 8 :: BlankAt(d, StaticCapacityKeys[i])
  {
    CapacityKeysLong();
    assert "static_data_updated_at"[0] == 's' && "opening_hours"[0] == 'o';
    forall i | 0 <= i < 8 ensures BlankAt(d, StaticCapacityKeys[i]) {
      var k := StaticCapacityKeys[i];
      assert |k| > 6 && k != "static_data_updated_at" && k != "opening_hours";
    }
  }

  lemma CapacityKeysLong()
    ensures forall i | 0 <= i < 8 :: |StaticCapacityKeys[i]| > 6 && StaticCapacityKeys[i][0] == 'c'
  {
  }

  /** The record made of the sample row. */
  ghost predicate SampleRecord(r: StaticParkingSiteInput) {
    && r.uid == "1" && r.name == "P" && r.lat == DecOfInt(48) && r.lon == DecOfInt(9)
    && r.siteType == Some(CarPark) && !r.hasRealtimeData
  }

  /** The shaped sample row passes the spreadsheet schema. */
  lemma SampleAccepted(d: Fields, now: DateTime)
    requires ValidDateTime(now) && now.offset == Some(0)
    requires FilledSite(d, "1", "P", DateTimeToIso(now), DecOfInt(48), DecOfInt(9)) && BlankExtras(d)
    requires Lookup(d, "type") == Some(Str("CAR_PARK")) && Lookup(d, "opening_hours") == Some(Str(""))
    ensures ValidateExcelStatic(Obj(d)).Ok? && SampleRecord(ValidateExcelStatic(Obj(d)).value)
  {
    ValidateDateTimeOfUtc(now);
    SampleTypeAndHours(d);
    SampleValuesValid();
    ExcelAcceptsFilledSite(d, "1", "P", DateTimeToIso(now), DecOfInt(48), DecOfInt(9));
  }

  lemma SampleTypeAndHours(d: Fields)
    requires Lookup(d, "type") == Some(Str("CAR_PARK")) && Lookup(d, "opening_hours") == Some(Str(""))
    ensures SiteTypeField(d) == Ok(Some(CarPark)) && OptTextField(d, "opening_hours", 512) == Ok(Some(""))
  {
  }

  lemma SampleValuesValid()
    ensures ValidateString(Str("1"), 1, Some(256), false).Ok? && ValidateString(Str("P"), 1, Some(256), false).Ok?
    ensures InRange(DecOfInt(48), DecOfInt(-90), DecOfInt(90)) && InRange(DecOfInt(9), DecOfInt(-180), DecOfInt(180))
    ensures !(DecIsZero(DecOfInt(48)) && DecIsZero(DecOfInt(9)))
  {
  }

  // ----------------------------------------------------------- bw-p-d layout

  /** A filled-in bw-p-d row: the number "a", the name "c", the street "b" and a position; no access text, no capacity. */
  function BwSampleRow(): (r: seq<Value>)
    ensures |r| == |BwParkAndDrive.HeaderRow|
  {
    [Str("a"), Str("c"), Str("b"), Real(DecOfInt(48)), Real(DecOfInt(9)), Null, Null]
  }

  /**
   * The sample bw-p-d row under a header row holding exactly the sheet's
   * headers is accepted, though the sheet has none of the four boolean
   * columns: its name is the street before the name, "b c", and its uid
   * the lot id "a-b-c" built from the number and that name.
   */
  lemma BwRowAccepted(now: DateTime)
    requires ValidDateTime(now) && now.offset == Some(0)
    ensures XlsxMapping(BwParkAndDrive.Info.id, BwParkAndDrive.HeaderRow, HeaderTexts(BwParkAndDrive.HeaderRow))
      == Ok(Positions(BwParkAndDrive.HeaderRow))
    ensures var step := BwParkAndDrive.RowStep(Positions(BwParkAndDrive.HeaderRow), BwSampleRow(), now);
      && step.Ok? && step.value.Accept?
      && step.value.record.uid == "a-b-c" && step.value.record.name == "b c"
      && step.value.record.lat == DecOfInt(48) && step.value.record.lon == DecOfInt(9)
      && step.value.record.siteType.None? && !step.value.record.hasRealtimeData
  {
    var t, row := BwParkAndDrive.HeaderRow, BwSampleRow();
    BwRowFacts(t, row);
    HeaderTextsMapping(BwParkAndDrive.Info.id, t);
    BwCellsStep(t, row, now);
  }

  /** The cells of the bw-p-d sample row: its number, name, street and position, no type, and every key longer than six characters blank. */
  ghost predicate BwSampleCells(raw: Fields) {
    && Lookup(raw, "uid") == Some(Str("a")) && Lookup(raw, "name") == Some(Str("c"))
    && Lookup(raw, "street") == Some(Str("b"))
    && Lookup(raw, "lat") == Some(Real(DecOfInt(48))) && Lookup(raw, "lon") == Some(Real(DecOfInt(9)))
    && BlankAt(raw, "type")
    && forall k | |k| > 6 :: BlankAt(raw, k)
  }

  lemma BwRowFacts(t: Table, row: seq<Value>)
    requires t == BwParkAndDrive.HeaderRow && row == BwSampleRow()
    ensures DistinctHeaders(t) && DistinctTargets(t) && 0 < |t| <= |row| && row[0] != Null
    ensures BwSampleCells(CellsOf(t, row))
  {
    BwHeaderFacts(t);
    BwRowValues(row);
    BwColumns(t, row);
  }

  /** The fields of the bw-p-d header row: distinct, the first five named, none of them the type. */
  lemma BwHeaderFacts(t: Table)
    requires t == BwParkAndDrive.HeaderRow
    ensures DistinctHeaders(t) && DistinctTargets(t) && |t| == 7
    ensures t[0].1 == "uid" && t[1].1 == "name" && t[2].1 == "street" && t[3].1 == "lat" && t[4].1 == "lon"
    ensures forall j | 0 <= j < 7 :: t[j].1 != "type"
  {
    BwHeaderTexts(t);
    BwHeaderTargets(t);
  }

  lemma BwHeaderTexts(t: Table)
    requires t == BwParkAndDrive.HeaderRow
    ensures DistinctHeaders(t)
  {
  }

  lemma BwHeaderTargets(t: Table)
    requires t == BwParkAndDrive.HeaderRow
    ensures DistinctTargets(t)
  {
  }

  lemma BwRowValues(row: seq<Value>)
    requires row == BwSampleRow()
    ensures |row| == 7 && row[0] == Str("a") && row[1] == Str("c") && row[2] == Str("b")
    ensures row[3] == Real(DecOfInt(48)) && row[4] == Real(DecOfInt(9)) && row[5] == Null && row[6] == Null
  {
  }

  /** Cells holding the sample values under the bw-p-d fields are those of the sample. */
  lemma BwColumns(t: Table, row: seq<Value>)
    requires DistinctTargets(t) && |t| == 7 && |row| == 7
    requires t[0].1 == "uid" && t[1].1 == "name" && t[2].1 == "street" && t[3].1 == "lat" && t[4].1 == "lon"
    requires forall j | 0 <= j < 7 :: t[j].1 != "type"
    requires row[0] == Str("a") && row[1] == Str("c") && row[2] == Str("b")
    requires row[3] == Real(DecOfInt(48)) && row[4] == Real(DecOfInt(9)) && row[5] == Null && row[6] == Null
    ensures BwSampleCells(CellsOf(t, row))
  {
    CellsLookup(t, row, 0);
    CellsLookup(t, row, 1);
    CellsLookup(t, row, 2);
    CellsLookup(t, row, 3);
    CellsLookup(t, row, 4);
    CellsBlank(t, row, "type");
    forall k | |k| > 6 ensures BlankAt(CellsOf(t, row), k) {
      CellsBlank(t, row, k);
    }
  }

  /** Any row whose cells, read at the positions of distinct fields, are those of the bw-p-d sample is accepted. */
  lemma BwCellsStep(t: Table, row: seq<Value>, now: DateTime)
    requires DistinctTargets(t) && 0 < |t| <= |row| && row[0] != Null && BwSampleCells(CellsOf(t, row))
    requires ValidDateTime(now) && now.offset == Some(0)
    ensures var step := BwParkAndDrive.RowStep(Positions(t), row, now);
      step.Ok? && step.value.Accept? && BwRecord(step.value.record)
  {
    ReadCellsOfPositions(t, row);
    var raw := CellsOf(t, row);
    BwMapped(Positions(t), row, now, raw);
    var d := BwParkAndDrive.MapRow(Positions(t), row, now).value;
    BwAccepted(d, now);
    BwAcceptedStep(Positions(t), row, now, d);
  }

  /** The record made of the bw-p-d sample row. */
  ghost predicate BwRecord(r: StaticParkingSiteInput) {
    && r.uid == "a-b-c" && r.name == "b c" && r.lat == DecOfInt(48) && r.lon == DecOfInt(9)
    && r.siteType.None? && !r.hasRealtimeData
  }

  /** A bw-p-d row that is mapped and validated is accepted as the validated record. */
  lemma BwAcceptedStep(m: Fields, row: seq<Value>, now: DateTime, d: Fields)
    requires ValidDateTime(now) && |row| > 0 && row[0] != Null
    requires BwParkAndDrive.MapRow(m, row, now) == Ok(d) && ValidateExcelStatic(Obj(d)).Ok?
    ensures BwParkAndDrive.RowStep(m, row, now) == Ok(Accept(ValidateExcelStatic(Obj(d)).value))
  {
    ValidatedAccepted(d);
  }

  /** The mapped sample row: the derived name and uid, the import time, the position, and nothing else filled. */
  lemma BwMapped(m: Fields, row: seq<Value>, now: DateTime, raw: Fields)
    requires ValidDateTime(now) && ReadCells(m, row) == Ok(raw) && BwSampleCells(raw)
    ensures BwParkAndDrive.MapRow(m, row, now).Ok?
    ensures var d := BwParkAndDrive.MapRow(m, row, now).value;
      && FilledSite(d, "a-b-c", "b c", DateTimeToIso(now), DecOfInt(48), DecOfInt(9))
      && BlankBeyond(d) && BlankAt(d, "type") && BlankAt(d, "opening_hours")
  {
    BwMappedDerived(m, row, now, raw);
    BwMappedKept(m, row, now, raw);
  }

  lemma BwMappedDerived(m: Fields, row: seq<Value>, now: DateTime, raw: Fields)
    requires ValidDateTime(now) && ReadCells(m, row) == Ok(raw) && BwSampleCells(raw)
    ensures BwParkAndDrive.MapRow(m, row, now).Ok?
    ensures var d := BwParkAndDrive.MapRow(m, row, now).value;
      && Lookup(d, "uid") == Some(Str("a-b-c")) && Lookup(d, "name") == Some(Str("b c"))
      && Lookup(d, "static_data_updated_at") == Some(Str(DateTimeToIso(now)))
  {
    ReadCellsKeys(m, row, "street");
    ReadCellsKeys(m, row, "name");
    ReadCellsKeys(m, row, "uid");
    BwParkAndDrive.MapRowDerived(m, row, now);
    BwDerivedTexts(raw);
  }

  /** The sample's street before its name reads "b c", and its lot id is "a-b-c". */
  lemma BwDerivedTexts(raw: Fields)
    requires BwSampleCells(raw)
    ensures BwParkAndDrive.StreetName(Get(raw, "street"), Get(raw, "name")) == "b c"
    ensures NameToId(Formatted(Get(raw, "uid")), "b c") == "a-b-c"
  {
    BwStreetName(Get(raw, "street"), Get(raw, "name"));
    assert Formatted(Get(raw, "uid")) == "a";
    SampleLotId();
  }

  lemma BwMappedKept(m: Fields, row: seq<Value>, now: DateTime, raw: Fields)
    requires ValidDateTime(now) && ReadCells(m, row) == Ok(raw) && BwSampleCells(raw)
    requires BwParkAndDrive.MapRow(m, row, now).Ok?
    ensures var d := BwParkAndDrive.MapRow(m, row, now).value;
      && Lookup(d, "lat") == Some(Real(DecOfInt(48))) && Lookup(d, "lon") == Some(Real(DecOfInt(9)))
      && BlankBeyond(d) && BlankAt(d, "type") && BlankAt(d, "opening_hours")
  {
    var d := BwParkAndDrive.MapRow(m, row, now).value;
    BwParkAndDrive.MapRowKeeps(m, row, now, "lat");
    BwParkAndDrive.MapRowKeeps(m, row, now, "lon");
    BwParkAndDrive.MapRowKeeps(m, row, now, "type");
    BwParkAndDrive.MapRowKeeps(m, row, now, "opening_hours");
    forall k | |k| > 6 && k != "static_data_updated_at" && k != "opening_hours" ensures BlankAt(d, k) {
      BwParkAndDrive.MapRowKeeps(m, row, now, k);
    }
  }

  /** The street "b" before the name "c" reads "b c". */
  lemma BwStreetName(street: Value, name: Value)
    requires street == Str("b") && name == Str("c")
    ensures BwParkAndDrive.StreetName(street, name) == "b c"
  {
  }

  /** The lot id of the number "a" and the name "b c" is "a-b-c". */
  lemma SampleLotId()
    ensures NameToId("a", "b c") == "a-b-c"
  {
    var s := "a-b c";
    assert "a" + "-" + "b c" == s;
    assert Lower(s) == s by { LowerKeeps(s); }
    NoOccurrenceIn(s, "ß");
    assert AsciiFold(s) == s by {
      assert AsciiFold("c") == "c";
      assert AsciiFold(" c") == " c";
      assert AsciiFold("b c") == "b c";
      assert AsciiFold("-b c") == "-b c";
    }
    SpaceToDash(s);
  }

  lemma LowerKeeps(s: string)
    requires forall k :: 0 <= k < |s| ==> !('A' <= s[k] <= 'Z') && s[k] != 'Ä' && s[k] != 'Ö' && s[k] != 'Ü'
    ensures Lower(s) == s
  {
  }

  lemma SpaceToDash(s: string)
    requires s == "a-b c"
    ensures V2Steps(s) == "a-b-c"
  {
    var w := "a-b-c";
    assert DashOthers(s) == s by {
      forall k | 0 <= k < |s| ensures DashOthers(s)[k] == s[k] { }
    }
    assert ReplaceAll(s, " ", "-") == w by {
      assert s == "a-b" + [' '] + "c";
      FindCharAfter("a-b", ' ', "c");
      assert " " == [' '];
      assert s[4..] == "c";
      NoSpaceIn("c");
    }
    DashedCut(w);
  }

  lemma DashedCut(w: string)
    requires w == "a-b-c"
    ensures V2Lowered(w) == w && Lower(TrimChar(CollapseDashes(w), '-')) == w
  {
    DashedSteps(w);
    assert DashOthers(w) == w by { DashOthersKeeps(w); }
    assert ReplaceAll(w, " ", "-") == w by { NoSpaceIn(w); }
  }

  /** The mapped bw-p-d sample row passes the spreadsheet schema. */
  lemma BwAccepted(d: Fields, now: DateTime)
    requires ValidDateTime(now) && now.offset == Some(0)
    requires FilledSite(d, "a-b-c", "b c", DateTimeToIso(now), DecOfInt(48), DecOfInt(9))
    requires BlankBeyond(d) && BlankAt(d, "type") && BlankAt(d, "opening_hours")
    ensures ValidateExcelStatic(Obj(d)).Ok? && BwRecord(ValidateExcelStatic(Obj(d)).value)
  {
    ValidateDateTimeOfUtc(now);
    BlankBeyondExtras(d);
    assert IsBlank(Null);
    assert SiteTypeField(d) == Ok(None);
    assert OptTextField(d, "opening_hours", 512) == Ok(None);
    BwValuesValid();
    ExcelAcceptsFilledSite(d, "a-b-c", "b c", DateTimeToIso(now), DecOfInt(48), DecOfInt(9));
  }

  lemma BwValuesValid()
    ensures ValidateString(Str("a-b-c"), 1, Some(256), false).Ok? && ValidateString(Str("b c"), 1, Some(256), false).Ok?
    ensures InRange(DecOfInt(48), DecOfInt(-90), DecOfInt(90)) && InRange(DecOfInt(9), DecOfInt(-180), DecOfInt(180))
    ensures !(DecIsZero(DecOfInt(48)) && DecIsZero(DecOfInt(9)))
  {
  }
}
