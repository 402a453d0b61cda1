/**
 * The `handle_csv` loop the three CSV converters share: the first row is
 * the header, mapped through the header helper; every later row is read
 * into a dict of the declared fields and handed to the converter's own row
 * handling, whose validation errors become the row's error.
 */
module CsvRows {
  import opened Wrappers
  import opened Values
  import opened SiteInputs
  import opened ImportResults
  import opened Aggregation
  import opened HeaderMapping

  /** A converter's handling of one read row: validation and record construction. */
  type RowHandler = Fields -> Step<StaticParkingSiteInput>

  /** Reading a row happens outside the `try`: a field without a cell ends the call. */
  function RowStep(mapping: Fields, fields: seq<string>, row: seq<string>, handle: RowHandler): (r: Step<StaticParkingSiteInput>)
    ensures ReadRow(mapping, fields, row).Err? ==> r == Err(Raise(ReadRow(mapping, fields, row).error))
    ensures ReadRow(mapping, fields, row).Ok? ==> r == handle(ReadRow(mapping, fields, row).value)
  {
    match ReadRow(mapping, fields, row)
    case Err(f) => Err(Raise(f))
    case Ok(d) => handle(d)
  }

  function RowSteps(mapping: Fields, fields: seq<string>, rows: seq<seq<string>>, handle: RowHandler): (r: seq<Step<StaticParkingSiteInput>>)
    ensures |r| == |rows| && forall i :: 0 <= i < |rows| ==> r[i] == RowStep(mapping, fields, rows[i], handle)
  {
    seq(|rows|, i requires 0 <= i < |rows| => RowStep(mapping, fields, rows[i], handle))
  }

  const HeaderRowMissing := Raised("IndexError", "list index out of range")

  /**
   * `handle_csv`: no rows at all is an IndexError, an undeclared header
   * cell the header helper's import error, and otherwise the records and
   * errors of the data rows in order.
   */
  function HandleCsvSpec(info: SourceInfo, t: Table, rows: seq<seq<string>>, handle: RowHandler): (r: Result<ImportSourceResult, Abort>)
    ensures |rows| == 0 ==> r == Err(Raise(HeaderRowMissing))
    ensures |rows| > 0 && CsvMapping(info.id, t, rows[0]).Err? ==> r == Err(RaiseImport(CsvMapping(info.id, t, rows[0]).error))
    ensures r.Ok? ==> r.value.uid == info.id && r.value.staticInputs.Some? && r.value.staticErrors.Some?
                      && r.value.realtimeInputs.None? && r.value.realtimeErrors.None?
  {
    if |rows| == 0 then Err(Raise(HeaderRowMissing))
    else
      match CsvMapping(info.id, t, rows[0])
      case Err(e) => Err(RaiseImport(e))
      case Ok(mapping) =>
        match Gather(RowSteps(mapping, TableValues(t), rows[1..], handle))
        case Err(a) => Err(a)
        case Ok(g) => Ok(GenerateImportSourceResult(info, Some(g.0), None, Some(g.1), None))
  }

  method HandleCsv(info: SourceInfo, t: Table, rows: seq<seq<string>>, handle: RowHandler) returns (r: Result<ImportSourceResult, Abort>)
    ensures r == HandleCsvSpec(info, t, rows, handle)
  {
    if |rows| == 0 {
      return Err(Raise(HeaderRowMissing));
    }
    var header := GetCsvMapping(info.id, t, rows[0]);
    if header.Err? {
      return Err(RaiseImport(header.error));
    }
    var mapping := header.value;
    var fields := TableValues(t);
    var data := rows[1..];
    ghost var steps := RowSteps(mapping, fields, data, handle);
    var staticParkingSiteInputs: seq<StaticParkingSiteInput> := [];
    var staticParkingSiteErrors: seq<ImportException> := [];
    for i := 0 to |data|
      invariant Gather(steps[..i]) == Ok((staticParkingSiteInputs, staticParkingSiteErrors))
    {
      GatherSnoc(steps, i);
      var inputDict := ReadRowLoop(mapping, fields, data[i]);
      if inputDict.Err? {
        GatherStopsAt(steps, i);
        return Err(Raise(inputDict.error));
      }
      var step := handle(inputDict.value);
      if step.Err? {
        GatherStopsAt(steps, i);
        return Err(step.error);
      }
      match step.value
      case Skip =>
      case Accept(s) => staticParkingSiteInputs := staticParkingSiteInputs + [s];
      case Reject(e) => staticParkingSiteErrors := staticParkingSiteErrors + [e];
    }
    GatherAll(steps);
    r := Ok(GenerateImportSourceResult(info, Some(staticParkingSiteInputs), None, Some(staticParkingSiteErrors), None));
  }

  /**
   * With a handling that never skips a row, every data row yields exactly
   * one record or one error when the call succeeds.
   */
  lemma RowCounts(info: SourceInfo, t: Table, rows: seq<seq<string>>, handle: RowHandler)
    requires forall d: Fields :: handle(d).Ok? ==> !handle(d).value.Skip?
    requires HandleCsvSpec(info, t, rows, handle).Ok?
    ensures var r := HandleCsvSpec(info, t, rows, handle).value;
      |r.staticInputs.value| + |r.staticErrors.value| == |rows| - 1
  {
    var mapping := CsvMapping(info.id, t, rows[0]).value;
    var steps := RowSteps(mapping, TableValues(t), rows[1..], handle);
    GatherSpec(steps);
    GatherCountsNoSkip(steps);
  }

  /** The data rows read with the header row's mapping. */
  function ReadData(info: SourceInfo, t: Table, rows: seq<seq<string>>, i: nat): Result<Fields, Fault>
    requires 1 <= i < |rows| && CsvMapping(info.id, t, rows[0]).Ok?
  {
    ReadRow(CsvMapping(info.id, t, rows[0]).value, TableValues(t), rows[i])
  }

  /** Every record of a converted file is what the handling made of one data row. */
  lemma RecordFromRow(info: SourceInfo, t: Table, rows: seq<seq<string>>, handle: RowHandler, s: StaticParkingSiteInput)
    requires HandleCsvSpec(info, t, rows, handle).Ok? && s in HandleCsvSpec(info, t, rows, handle).value.staticInputs.value
    ensures exists i :: 1 <= i < |rows| && ReadData(info, t, rows, i).Ok? && handle(ReadData(info, t, rows, i).value) == Ok(Accept(s))
  {
    var mapping := CsvMapping(info.id, t, rows[0]).value;
    var steps := RowSteps(mapping, TableValues(t), rows[1..], handle);
    GatherSpec(steps);
    AcceptedFrom(steps, s);
    var i :| 0 <= i < |steps| && steps[i] == Ok(Accept(s));
    assert rows[1..][i] == rows[i + 1];
    assert ReadData(info, t, rows, i + 1).Ok?;
  }

  /** Every error of a converted file is what the handling made of one data row. */
  lemma ErrorFromRow(info: SourceInfo, t: Table, rows: seq<seq<string>>, handle: RowHandler, e: ImportException)
    requires HandleCsvSpec(info, t, rows, handle).Ok? && e in HandleCsvSpec(info, t, rows, handle).value.staticErrors.value
    ensures exists i :: 1 <= i < |rows| && ReadData(info, t, rows, i).Ok? && handle(ReadData(info, t, rows, i).value) == Ok(Reject(e))
  {
    var mapping := CsvMapping(info.id, t, rows[0]).value;
    var steps := RowSteps(mapping, TableValues(t), rows[1..], handle);
    GatherSpec(steps);
    RejectedFrom(steps, e);
    var i :| 0 <= i < |steps| && steps[i] == Ok(Reject(e));
    assert rows[1..][i] == rows[i + 1];
    assert ReadData(info, t, rows, i + 1).Ok?;
  }

  /** A handling that never accepts a row leaves a converted file without records. */
  lemma NoRecordsWithoutAccept(info: SourceInfo, t: Table, rows: seq<seq<string>>, handle: RowHandler)
    requires forall d: Fields :: handle(d).Ok? ==> !handle(d).value.Accept?
    requires HandleCsvSpec(info, t, rows, handle).Ok?
    ensures HandleCsvSpec(info, t, rows, handle).value.staticInputs.value == []
  {
    var mapping := CsvMapping(info.id, t, rows[0]).value;
    var steps := RowSteps(mapping, TableValues(t), rows[1..], handle);
    GatherSpec(steps);
    NothingAccepted(steps);
  }
}
