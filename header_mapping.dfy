/**
 * The two header-mapping helpers of common/base_converter, which work in
 * opposite directions: the CSV helper walks the file's header cells and
 * looks each one up in the converter's table, the spreadsheet helper walks
 * the converter's table and looks each header up in the file's first row.
 * Also the row reading the CSV converters do with the helper's result.
 */
module HeaderMapping {
  import opened Wrappers
  import opened Text
  import opened Values
  import opened ImportResults

  /** A converter's declared `dict[str, str]` from header text to field name, in declaration order. */
  type Table = seq<(string, string)>

  /** `table.get(key)`. */
  function TableGet(t: Table, key: string): (r: Option<string>)
    ensures r.Some? ==> (key, r.value) in t
    ensures r.None? ==> forall j :: 0 <= j < |t| ==> t[j].0 != key
  {
    if |t| == 0 then None
    else if t[0].0 == key then Some(t[0].1)
    else TableGet(t[1..], key)
  }

  predicate Declared(t: Table, key: string) { TableGet(t, key).Some? }

  /** `table.values()`, in declaration order. */
  function TableValues(t: Table): (r: seq<string>)
    ensures |r| == |t| && forall j :: 0 <= j < |t| ==> r[j] == t[j].1
  {
    seq(|t|, j requires 0 <= j < |t| => t[j].1)
  }

  /** A declaration whose header is not looked up does not change any lookup of another header. */
  lemma {:induction false} TableGetExtend(t: Table, h: string, f: string, key: string)
    requires key != h
    ensures TableGet(t + [(h, f)], key) == TableGet(t, key)
  {
    if |t| > 0 {
      assert (t + [(h, f)])[1..] == t[1..] + [(h, f)];
      TableGetExtend(t[1..], h, f, key);
    }
  }

  // ------------------------------------------------------- the CSV helper

  /** The first header cell the table does not declare, or the number of cells when all are declared. */
  function FirstUndeclared(t: Table, cols: seq<string>): (k: nat)
    ensures k <= |cols|
    ensures forall j :: 0 <= j < k ==> Declared(t, cols[j])
    ensures k < |cols| ==> !Declared(t, cols[k])
  {
    if |cols| == 0 then 0
    else if !Declared(t, cols[0]) then 0
    else 1 + FirstUndeclared(t, cols[1..])
  }

  function UndeclaredColumn(sourceId: string, col: string): ImportException {
    SourceError(sourceId, "invalid header column " + col)
  }

  /**
   * `CsvConverter.get_mapping_by_header` as written: a list holding, for each
   * header cell in file order, the field the table declares for it; the first
   * undeclared cell raises. A declared header absent from the file is not
   * noticed.
   */
  function CsvMappingAsWritten(sourceId: string, t: Table, cols: seq<string>): (r: Result<seq<string>, ImportException>)
    ensures r.Ok? <==> forall j :: 0 <= j < |cols| ==> Declared(t, cols[j])
    ensures r.Ok? ==> |r.value| == |cols| && forall j :: 0 <= j < |cols| ==> TableGet(t, cols[j]) == Some(r.value[j])
    ensures r.Err? ==> FirstUndeclared(t, cols) < |cols|
                       && r.error == UndeclaredColumn(sourceId, cols[FirstUndeclared(t, cols)])
  {
    if |cols| == 0 then Ok([])
    else
      var init := cols[..|cols| - 1];
      var last := cols[|cols| - 1];
      assert forall j :: 0 <= j < |init| ==> init[j] == cols[j];
      var m :- CsvMappingAsWritten(sourceId, t, init);
      match TableGet(t, last)
      case None => Err(UndeclaredColumn(sourceId, last))
      case Some(field) => Ok(m + [field])
  }

  /** The loop of `get_mapping_by_header`: one append per header cell, raising on the first undeclared one. */
  method GetCsvMappingAsWritten(sourceId: string, t: Table, cols: seq<string>) returns (r: Result<seq<string>, ImportException>)
    ensures r == CsvMappingAsWritten(sourceId, t, cols)
  {
    var mapping: seq<string> := [];
    var i := 0;
    while i < |cols|
      invariant 0 <= i <= |cols|
      invariant CsvMappingAsWritten(sourceId, t, cols[..i]) == Ok(mapping)
    {
      assert cols[..i + 1][..i] == cols[..i];
      var col := cols[i];
      match TableGet(t, col) {
        case None =>
          return Err(UndeclaredColumn(sourceId, col));
        case Some(field) =>
          mapping := mapping + [field];
      }
      i := i + 1;
    }
    assert cols[..i] == cols;
    r := Ok(mapping);
  }

  /** Declaring a header the file does not have changes nothing: the helper never checks the table's side. */
  lemma CsvIgnoresMissingDeclared(sourceId: string, t: Table, h: string, f: string, cols: seq<string>)
    requires h !in cols
    ensures CsvMappingAsWritten(sourceId, t + [(h, f)], cols) == CsvMappingAsWritten(sourceId, t, cols)
  {
    forall j | 0 <= j < |cols| ensures TableGet(t + [(h, f)], cols[j]) == TableGet(t, cols[j]) {
      TableGetExtend(t, h, f, cols[j]);
    }
    CsvSameLookups(sourceId, t + [(h, f)], t, cols);
  }

  lemma {:induction false} CsvSameLookups(sourceId: string, t: Table, u: Table, cols: seq<string>)
    requires forall j :: 0 <= j < |cols| ==> TableGet(t, cols[j]) == TableGet(u, cols[j])
    ensures CsvMappingAsWritten(sourceId, t, cols) == CsvMappingAsWritten(sourceId, u, cols)
  {
    if |cols| > 0 {
      var init := cols[..|cols| - 1];
      assert forall j :: 0 <= j < |init| ==> init[j] == cols[j];
      CsvSameLookups(sourceId, t, u, init);
    }
  }

  /**
   * How the CSV converters read a row with that list: `row[mapping[field]]`
   * for each declared field. A list indexed by a field name raises a
   * TypeError, so every row read fails as soon as one field is declared.
   */
  function ReadRowAsWritten(mapping: seq<string>, fields: seq<string>, row: seq<string>): (r: Result<Fields, Fault>)
    ensures |fields| > 0 ==> r == Err(Raised("TypeError", "list indices must be integers or slices, not str"))
    ensures |fields| == 0 ==> r == Ok([])
  {
    if |fields| == 0 then Ok([])
    else Err(Raised("TypeError", "list indices must be integers or slices, not str"))
  }

  /** Concretely: a one-column table, a header row that passes the helper, and the data row that cannot be read. */
  lemma CsvMappingAsWrittenBreaksCallers()
    ensures CsvMappingAsWritten("neckarsulm", [("id", "uid")], ["id"]) == Ok(["uid"])
    ensures ReadRowAsWritten(["uid"], TableValues([("id", "uid")]), ["7"]).Err?
  {
    var cols := ["id"];
    assert cols[..0] == [];
    assert TableGet([("id", "uid")], "id") == Some("uid");
    assert [] + ["uid"] == ["uid"];
    assert TableValues([("id", "uid")]) == ["uid"];
  }

  /**
   * The mapping the callers evidently expect (`dict[str, int]`): each
   * declared field to the position of its header cell; a later cell for the
   * same field overwrites an earlier one, as a dict assignment does. The
   * same undeclared-cell error as the written helper.
   */
  function CsvMapping(sourceId: string, t: Table, cols: seq<string>): (r: Result<Fields, ImportException>)
    ensures r.Ok? <==> forall j :: 0 <= j < |cols| ==> Declared(t, cols[j])
    ensures r.Err? ==> FirstUndeclared(t, cols) < |cols|
                       && r.error == UndeclaredColumn(sourceId, cols[FirstUndeclared(t, cols)])
  {
    if |cols| == 0 then Ok([])
    else
      var init := cols[..|cols| - 1];
      var last := cols[|cols| - 1];
      assert forall j :: 0 <= j < |init| ==> init[j] == cols[j];
      var m :- CsvMapping(sourceId, t, init);
      match TableGet(t, last)
      case None => Err(UndeclaredColumn(sourceId, last))
      case Some(field) => Ok(Put(m, field, Int(|cols| - 1)))
  }

  /** The same loop, filling the dict the callers index. */
  method GetCsvMapping(sourceId: string, t: Table, cols: seq<string>) returns (r: Result<Fields, ImportException>)
    ensures r == CsvMapping(sourceId, t, cols)
  {
    var mapping: Fields := [];
    var i := 0;
    while i < |cols|
      invariant 0 <= i <= |cols|
      invariant CsvMapping(sourceId, t, cols[..i]) == Ok(mapping)
    {
      assert cols[..i + 1][..i] == cols[..i];
      var col := cols[i];
      match TableGet(t, col) {
        case None =>
          CsvMappingStopsAt(sourceId, t, cols, i);
          return Err(UndeclaredColumn(sourceId, col));
        case Some(field) =>
          mapping := Put(mapping, field, Int(i));
      }
      i := i + 1;
    }
    assert cols[..i] == cols;
    r := Ok(mapping);
  }

  /** A header row whose first `i` cells are declared and whose cell `i` is not is refused for that cell. */
  lemma CsvMappingStopsAt(sourceId: string, t: Table, cols: seq<string>, i: nat)
    requires i < |cols| && CsvMapping(sourceId, t, cols[..i]).Ok? && !Declared(t, cols[i])
    ensures CsvMapping(sourceId, t, cols) == Err(UndeclaredColumn(sourceId, cols[i]))
  {
    assert forall j :: 0 <= j < i ==> cols[..i][j] == cols[j];
    var k := FirstUndeclared(t, cols);
    assert k == i;
  }

  /** Column `j` is the last header cell declared as `field`. */
  predicate LastColumnOf(t: Table, cols: seq<string>, field: string, j: nat) {
    j < |cols| && TableGet(t, cols[j]) == Some(field)
    && forall k :: j < k < |cols| ==> TableGet(t, cols[k]) != Some(field)
  }

  /** The corrected mapping sends each field to the last header cell declared for it. */
  lemma {:induction false} CsvMappingFinds(sourceId: string, t: Table, cols: seq<string>, field: string, j: nat)
    requires CsvMapping(sourceId, t, cols).Ok? && LastColumnOf(t, cols, field, j)
    ensures Lookup(CsvMapping(sourceId, t, cols).value, field) == Some(Int(j))
  {
    var n := |cols| - 1;
    var init := cols[..n];
    assert forall k :: 0 <= k < |init| ==> init[k] == cols[k];
    var m := CsvMapping(sourceId, t, init).value;
    var last := TableGet(t, cols[n]).value;
    assert CsvMapping(sourceId, t, cols).value == Put(m, last, Int(n));
    LookupPut(m, last, Int(n), field);
    if j < n {
      assert LastColumnOf(t, init, field, j);
      CsvMappingFinds(sourceId, t, init, field, j);
    }
  }

  /** A field no header cell is declared as is not in the corrected mapping. */
  lemma {:induction false} CsvMappingOmits(sourceId: string, t: Table, cols: seq<string>, field: string)
    requires CsvMapping(sourceId, t, cols).Ok?
    requires forall j :: 0 <= j < |cols| ==> TableGet(t, cols[j]) != Some(field)
    ensures Lookup(CsvMapping(sourceId, t, cols).value, field).None?
  {
    if |cols| > 0 {
      var n := |cols| - 1;
      var init := cols[..n];
      assert forall k :: 0 <= k < |init| ==> init[k] == cols[k];
      var m := CsvMapping(sourceId, t, init).value;
      var last := TableGet(t, cols[n]).value;
      assert CsvMapping(sourceId, t, cols).value == Put(m, last, Int(n));
      LookupPut(m, last, Int(n), field);
      CsvMappingOmits(sourceId, t, init, field);
    }
  }

  /** The cell a field reads: the position the mapping gives it, if that is inside the row. */
  function CellOf(mapping: Fields, field: string, row: seq<string>): Option<string> {
    match Lookup(mapping, field)
    case None => None
    case Some(v) => if v.Int? && 0 <= v.i < |row| then Some(row[v.i]) else None
  }

  /** Why a field cannot be read: it has no column (KeyError) or its column is past the row's end (IndexError). */
  function ReadFault(mapping: Fields, field: string): Fault {
    if Lookup(mapping, field).None? then Raised("KeyError", field)
    else Raised("IndexError", "list index out of range")
  }

  /** The first field without a readable cell, or the number of fields when every one has one. */
  function FirstUnreadable(mapping: Fields, fields: seq<string>, row: seq<string>): (k: nat)
    ensures k <= |fields|
    ensures forall j :: 0 <= j < k ==> CellOf(mapping, fields[j], row).Some?
    ensures k < |fields| ==> CellOf(mapping, fields[k], row).None?
  {
    if |fields| == 0 then 0
    else if CellOf(mapping, fields[0], row).None? then 0
    else 1 + FirstUnreadable(mapping, fields[1..], row)
  }

  /**
   * `for field in table.values(): input_dict[field] = row[mapping[field]]`
   * with the dict mapping: a field the header row lacks raises KeyError, a
   * row shorter than the header raises IndexError.
   */
  function ReadRow(mapping: Fields, fields: seq<string>, row: seq<string>): (r: Result<Fields, Fault>)
    ensures r.Ok? <==> forall j :: 0 <= j < |fields| ==> CellOf(mapping, fields[j], row).Some?
    ensures r.Err? ==> FirstUnreadable(mapping, fields, row) < |fields|
                       && r.error == ReadFault(mapping, fields[FirstUnreadable(mapping, fields, row)])
  {
    if |fields| == 0 then Ok([])
    else
      var init := fields[..|fields| - 1];
      var field := fields[|fields| - 1];
      assert forall j :: 0 <= j < |init| ==> init[j] == fields[j];
      match ReadRow(mapping, init, row)
      case Err(e) =>
        assert FirstUnreadable(mapping, fields, row) == FirstUnreadable(mapping, init, row) by {
          var k := FirstUnreadable(mapping, init, row);
          assert fields[k] == init[k];
        }
        Err(e)
      case Ok(d) =>
        match CellOf(mapping, field, row)
        case None =>
          assert FirstUnreadable(mapping, fields, row) == |init|;
          Err(ReadFault(mapping, field))
        case Some(c) => Ok(Put(d, field, Str(c)))
  }

  /** A row whose first `i` fields read and whose field `i` does not fails for that field. */
  lemma ReadRowStopsAt(mapping: Fields, fields: seq<string>, row: seq<string>, i: nat)
    requires i < |fields| && ReadRow(mapping, fields[..i], row).Ok? && CellOf(mapping, fields[i], row).None?
    ensures ReadRow(mapping, fields, row) == Err(ReadFault(mapping, fields[i]))
  {
    assert forall j :: 0 <= j < i ==> fields[..i][j] == fields[j];
    var k := FirstUnreadable(mapping, fields, row);
    assert k == i;
  }

  method ReadRowLoop(mapping: Fields, fields: seq<string>, row: seq<string>) returns (r: Result<Fields, Fault>)
    ensures r == ReadRow(mapping, fields, row)
  {
    var inputDict: Fields := [];
    var i := 0;
    while i < |fields|
      invariant 0 <= i <= |fields|
      invariant ReadRow(mapping, fields[..i], row) == Ok(inputDict)
    {
      assert fields[..i + 1][..i] == fields[..i];
      var field := fields[i];
      var column := Lookup(mapping, field);
      if column.None? || !column.value.Int? || !(0 <= column.value.i < |row|) {
        ReadRowStopsAt(mapping, fields, row, i);
        return Err(ReadFault(mapping, field));
      }
      inputDict := Put(inputDict, field, Str(row[column.value.i]));
      i := i + 1;
    }
    assert fields[..i] == fields;
    r := Ok(inputDict);
  }

  /** After a successful read each field holds its own cell. */
  lemma {:induction false} ReadRowCells(mapping: Fields, fields: seq<string>, row: seq<string>, j: nat)
    requires ReadRow(mapping, fields, row).Ok? && j < |fields|
    ensures Lookup(ReadRow(mapping, fields, row).value, fields[j]) == Some(Str(CellOf(mapping, fields[j], row).value))
  {
    var n := |fields| - 1;
    var init := fields[..n];
    assert forall k :: 0 <= k < |init| ==> init[k] == fields[k];
    var d := ReadRow(mapping, init, row).value;
    var c := CellOf(mapping, fields[n], row).value;
    assert ReadRow(mapping, fields, row).value == Put(d, fields[n], Str(c));
    LookupPut(d, fields[n], Str(c), fields[j]);
    if j < n && fields[j] != fields[n] {
      ReadRowCells(mapping, init, row, j);
    }
  }

  /** A read row holds no key besides the declared fields. */
  lemma {:induction false} ReadRowOnlyFields(mapping: Fields, fields: seq<string>, row: seq<string>, key: string)
    requires ReadRow(mapping, fields, row).Ok? && key !in fields
    ensures Lookup(ReadRow(mapping, fields, row).value, key) == None
  {
    if |fields| > 0 {
      var n := |fields| - 1;
      var init := fields[..n];
      assert forall k :: 0 <= k < |init| ==> init[k] == fields[k];
      assert key !in init;
      var d := ReadRow(mapping, init, row).value;
      var c := CellOf(mapping, fields[n], row).value;
      assert ReadRow(mapping, fields, row).value == Put(d, fields[n], Str(c));
      LookupPut(d, fields[n], Str(c), key);
      ReadRowOnlyFields(mapping, init, row, key);
    }
  }

  /**
   * Header and data row together: a field whose header cell is at column
   * `j` of a well-formed header row reads the data cell at column `j`.
   */
  lemma CellUnderHeader(sourceId: string, t: Table, cols: seq<string>, row: seq<string>, field: string, j: nat)
    requires CsvMapping(sourceId, t, cols).Ok? && |row| == |cols|
    requires LastColumnOf(t, cols, field, j)
    ensures CellOf(CsvMapping(sourceId, t, cols).value, field, row) == Some(row[j])
  {
    CsvMappingFinds(sourceId, t, cols, field, j);
  }

  // ------------------------------------------------ the spreadsheet helper

  /** `list.index(v)`: the first position holding `v`. */
  function IndexOfValue(row: seq<Value>, v: Value): (r: Option<nat>)
    ensures r.Some? ==> r.value < |row| && row[r.value] == v && forall j :: 0 <= j < r.value ==> row[j] != v
    ensures r.None? <==> v !in row
  {
    if |row| == 0 then None
    else if row[0] == v then Some(0)
    else match IndexOfValue(row[1..], v)
      case None => None
      case Some(i) => Some(i + 1)
  }

  /** The first declared header the row lacks, or the table's length when none is missing. */
  function FirstMissing(t: Table, row: seq<Value>): (k: nat)
    ensures k <= |t|
    ensures forall j :: 0 <= j < k ==> Str(t[j].0) in row
    ensures k < |t| ==> Str(t[k].0) !in row
  {
    if |t| == 0 then 0
    else if Str(t[0].0) !in row then 0
    else 1 + FirstMissing(t[1..], row)
  }

  function MissingHeader(sourceId: string, h: string): ImportException {
    SourceError(sourceId, "cannot find header key " + h)
  }

  /**
   * `XlsxConverter.get_mapping_by_header`: for each declared header in
   * declaration order, its target field is set to the header's first
   * position in the row; the first missing header raises.
   */
  function XlsxMapping(sourceId: string, t: Table, row: seq<Value>): (r: Result<Fields, ImportException>)
    ensures r.Ok? <==> forall j :: 0 <= j < |t| ==> Str(t[j].0) in row
    ensures r.Err? ==> FirstMissing(t, row) < |t| && r.error == MissingHeader(sourceId, t[FirstMissing(t, row)].0)
  {
    if |t| == 0 then Ok([])
    else
      var init := t[..|t| - 1];
      var last := t[|t| - 1];
      assert forall j :: 0 <= j < |init| ==> init[j] == t[j];
      match XlsxMapping(sourceId, init, row)
      case Err(e) =>
        assert FirstMissing(t, row) == FirstMissing(init, row) by {
          var k := FirstMissing(init, row);
          assert t[k] == init[k];
        }
        Err(e)
      case Ok(m) =>
        match IndexOfValue(row, Str(last.0))
        case None =>
          assert FirstMissing(t, row) == |init|;
          Err(MissingHeader(sourceId, last.0))
        case Some(i) => Ok(Put(m, last.1, Int(i)))
  }

  /** A table whose first `i` headers are in the row and whose header `i` is not is refused for that header. */
  lemma XlsxMappingStopsAt(sourceId: string, t: Table, row: seq<Value>, i: nat)
    requires i < |t| && XlsxMapping(sourceId, t[..i], row).Ok? && Str(t[i].0) !in row
    ensures XlsxMapping(sourceId, t, row) == Err(MissingHeader(sourceId, t[i].0))
  {
    assert forall j :: 0 <= j < i ==> t[..i][j] == t[j];
    assert FirstMissing(t, row) == i;
  }

  method GetXlsxMapping(sourceId: string, t: Table, row: seq<Value>) returns (r: Result<Fields, ImportException>)
    ensures r == XlsxMapping(sourceId, t, row)
  {
    var mapping: Fields := [];
    var i := 0;
    while i < |t|
      invariant 0 <= i <= |t|
      invariant XlsxMapping(sourceId, t[..i], row) == Ok(mapping)
    {
      assert t[..i + 1][..i] == t[..i];
      var (headerCol, targetField) := t[i];
      if Str(headerCol) !in row {
        XlsxMappingStopsAt(sourceId, t, row, i);
        return Err(MissingHeader(sourceId, headerCol));
      }
      mapping := Put(mapping, targetField, Int(IndexOfValue(row, Str(headerCol)).value));
      i := i + 1;
    }
    assert t[..i] == t;
    r := Ok(mapping);
  }

  /** A header row holding exactly the declared headers, in declaration order. */
  function HeaderTexts(t: Table): (r: seq<Value>)
    ensures |r| == |t| && forall j :: 0 <= j < |t| ==> r[j] == Str(t[j].0)
  {
    seq(|t|, j requires 0 <= j < |t| => Str(t[j].0))
  }

  predicate DistinctHeaders(t: Table) { forall i, j :: 0 <= i < j < |t| ==> t[i].0 != t[j].0 }

  predicate DistinctTargets(t: Table) { forall i, j :: 0 <= i < j < |t| ==> t[i].1 != t[j].1 }

  /** Each declared field at the position of its own entry. */
  function Positions(t: Table): (r: Fields)
    ensures |r| == |t| && forall j :: 0 <= j < |t| ==> r[j] == (t[j].1, Int(j))
  {
    seq(|t|, j requires 0 <= j < |t| => (t[j].1, Int(j)))
  }

  /** In a row of distinct headers, each header is first found at its own position. */
  lemma IndexOfHeaderText(t: Table, j: nat)
    requires DistinctHeaders(t) && j < |t|
    ensures IndexOfValue(HeaderTexts(t), Str(t[j].0)) == Some(j)
  {
    var row := HeaderTexts(t);
    assert row[j] == Str(t[j].0);
    assert forall p :: 0 <= p < j ==> row[p] != Str(t[j].0);
  }

  /** A field that no entry declares is not a key of the positions. */
  lemma PositionsLacks(t: Table, f: string)
    requires forall j :: 0 <= j < |t| ==> t[j].1 != f
    ensures !HasKey(Positions(t), f)
  {
    assert forall e :: e in Positions(t) ==> e.0 != f;
  }

  /** With distinct targets, the last entry's field is put after the others' positions. */
  lemma PositionsSnoc(t: Table)
    requires |t| > 0 && DistinctTargets(t)
    ensures Put(Positions(t[..|t| - 1]), t[|t| - 1].1, Int(|t| - 1)) == Positions(t)
  {
    var n := |t| - 1;
    var init := t[..n];
    assert forall j :: 0 <= j < n ==> init[j] == t[j];
    PositionsLacks(init, t[n].1);
    assert Positions(init) + [(t[n].1, Int(n))] == Positions(t);
  }

  /**
   * With distinct headers and distinct targets, the mapping of the row of
   * header texts puts every field at its own entry's position.
   */
  lemma {:induction false} XlsxMappingOfHeaderTexts(sourceId: string, t: Table, row: seq<Value>)
    requires DistinctTargets(t)
    requires forall j :: 0 <= j < |t| ==> IndexOfValue(row, Str(t[j].0)) == Some(j)
    ensures XlsxMapping(sourceId, t, row) == Ok(Positions(t))
  {
    if |t| > 0 {
      var n := |t| - 1;
      var init := t[..n];
      assert forall j :: 0 <= j < n ==> init[j] == t[j];
      XlsxMappingOfHeaderTexts(sourceId, init, row);
      assert forall j :: 0 <= j < |t| ==> Str(t[j].0) in row by {
        forall j | 0 <= j < |t| ensures Str(t[j].0) in row {
          assert row[IndexOfValue(row, Str(t[j].0)).value] == Str(t[j].0);
        }
      }
      XlsxMappingSnoc(sourceId, t, row);
      PositionsSnoc(t);
    }
  }

  /** The row of a table's own header texts maps every field to its entry's position. */
  lemma HeaderTextsMapping(sourceId: string, t: Table)
    requires DistinctHeaders(t) && DistinctTargets(t)
    ensures XlsxMapping(sourceId, t, HeaderTexts(t)) == Ok(Positions(t))
  {
    forall j | 0 <= j < |t| ensures IndexOfValue(HeaderTexts(t), Str(t[j].0)) == Some(j) {
      IndexOfHeaderText(t, j);
    }
    XlsxMappingOfHeaderTexts(sourceId, t, HeaderTexts(t));
  }

  /** A successful mapping is the mapping of all but the last entry, with the last entry's field put on top. */
  lemma XlsxMappingSnoc(sourceId: string, t: Table, row: seq<Value>)
    requires |t| > 0 && XlsxMapping(sourceId, t, row).Ok?
    ensures XlsxMapping(sourceId, t[..|t| - 1], row).Ok? && IndexOfValue(row, Str(t[|t| - 1].0)).Some?
    ensures XlsxMapping(sourceId, t, row).value
      == Put(XlsxMapping(sourceId, t[..|t| - 1], row).value, t[|t| - 1].1, Int(IndexOfValue(row, Str(t[|t| - 1].0)).value))
  {
  }

  /** The target fields of a table with one more entry. */
  lemma TableValuesSnoc(t: Table, f: string)
    requires |t| > 0
    ensures f in TableValues(t) <==> f in TableValues(t[..|t| - 1]) || f == t[|t| - 1].1
  {
    var init := t[..|t| - 1];
    assert forall j :: 0 <= j < |init| ==> init[j] == t[j];
    if f in TableValues(t) {
      var j :| 0 <= j < |t| && TableValues(t)[j] == f;
      if j < |init| {
        assert TableValues(init)[j] == f;
      }
    }
    if f in TableValues(init) {
      var j :| 0 <= j < |init| && TableValues(init)[j] == f;
      assert TableValues(t)[j] == f;
    }
    if f == t[|t| - 1].1 {
      assert TableValues(t)[|t| - 1] == f;
    }
  }

  /** The mapping's keys are exactly the declared target fields. */
  lemma {:induction false} XlsxMappingKeys(sourceId: string, t: Table, row: seq<Value>, field: string)
    requires XlsxMapping(sourceId, t, row).Ok?
    ensures HasKey(XlsxMapping(sourceId, t, row).value, field) <==> field in TableValues(t)
  {
    if |t| > 0 {
      var n := |t| - 1;
      XlsxMappingSnoc(sourceId, t, row);
      XlsxMappingKeys(sourceId, t[..n], row, field);
      LookupPut(XlsxMapping(sourceId, t[..n], row).value, t[n].1, Int(IndexOfValue(row, Str(t[n].0)).value), field);
      TableValuesSnoc(t, field);
    }
  }

  /** The position of a header cell as the mapping stores it, None when the row lacks the header. */
  function HeaderColumn(row: seq<Value>, h: string): (r: Option<Value>)
    ensures r.Some? <==> Str(h) in row
  {
    match IndexOfValue(row, Str(h))
    case None => None
    case Some(i) => Some(Int(i))
  }

  /**
   * A target field declared by exactly one entry holds the first position
   * of that entry's header in the row.
   */
  lemma {:induction false} XlsxMappingFinds(sourceId: string, t: Table, row: seq<Value>, j: nat, h: string, f: string)
    requires XlsxMapping(sourceId, t, row).Ok? && j < |t| && t[j] == (h, f)
    requires forall i :: 0 <= i < |t| && i != j ==> t[i].1 != f
    ensures Lookup(XlsxMapping(sourceId, t, row).value, f) == HeaderColumn(row, h)
  {
    var n := |t| - 1;
    var init := t[..n];
    assert forall i :: 0 <= i < |init| ==> init[i] == t[i];
    var m := XlsxMapping(sourceId, init, row).value;
    var i := IndexOfValue(row, Str(t[n].0)).value;
    assert XlsxMapping(sourceId, t, row).value == Put(m, t[n].1, Int(i));
    LookupPut(m, t[n].1, Int(i), f);
    if j < n {
      XlsxMappingFinds(sourceId, init, row, j, h, f);
    }
  }

  /** Columns after the header row's end are never consulted: appending cells leaves a successful mapping as it was. */
  lemma {:induction false} XlsxIgnoresExtraColumns(sourceId: string, t: Table, row: seq<Value>, extra: seq<Value>)
    requires XlsxMapping(sourceId, t, row).Ok?
    ensures XlsxMapping(sourceId, t, row + extra) == XlsxMapping(sourceId, t, row)
  {
    if |t| > 0 {
      var n := |t| - 1;
      var init := t[..n];
      assert forall j :: 0 <= j < |init| ==> init[j] == t[j];
      XlsxIgnoresExtraColumns(sourceId, init, row, extra);
      IndexOfPrefix(row, extra, Str(t[n].0));
    }
  }

  lemma {:induction false} IndexOfPrefix(row: seq<Value>, extra: seq<Value>, v: Value)
    requires v in row
    ensures IndexOfValue(row + extra, v) == IndexOfValue(row, v)
  {
    if row[0] != v {
      assert (row + extra)[1..] == row[1..] + extra;
      IndexOfPrefix(row[1..], extra, v);
    }
  }
}
