/**
 * v3/reutlingen.py: a comma-separated file with one site per row; the
 * position is a WKT `POINT (lon lat)` cell and the site type a German word.
 */
module Reutlingen {
  import opened Wrappers
  import opened Text
  import opened Values
  import opened FieldValidators
  import opened SiteInputs
  import opened ImportResults
  import opened Aggregation
  import opened HeaderMapping
  import CsvRows

  const Info := SourceInfo("reutlingen", "Stadt Reutlingen", Some("https://www.reutlingen.de"))

  const HeaderTable: Table := [("id", "uid"), ("ort", "name"), ("Kapazität", "capacity"), ("GEOM", "coordinates"), ("type", "type")]

  // ------------------------------------------------------------ site type

  datatype ReutlingenType = Parkhaus | Tiefgarage | Parkflaeche | ParkAndRide

  function ReutlingenTypeName(t: ReutlingenType): string {
    match t
    case Parkhaus => "parkhaus"
    case Tiefgarage => "tiefgarage"
    case Parkflaeche => "parkfläche"
    case ParkAndRide => "p+r"
  }

  function ParseReutlingenType(s: string): (r: Option<ReutlingenType>)
    ensures r.Some? ==> ReutlingenTypeName(r.value) == s
  {
    if s == "parkhaus" then Some(Parkhaus)
    else if s == "tiefgarage" then Some(Tiefgarage)
    else if s == "parkfläche" then Some(Parkflaeche)
    else if s == "p+r" then Some(ParkAndRide)
    else None
  }

  /** Every enum value is accepted by name. */
  lemma ReutlingenTypeRoundTrip(t: ReutlingenType)
    ensures ParseReutlingenType(ReutlingenTypeName(t)) == Some(t)
  {
  }

  /** `to_parking_site_type_input`: the three building words map one to one, anything else is OTHER. */
  function ToParkingSiteType(t: ReutlingenType): (r: ParkingSiteType)
    ensures r == Other <==> t == ParkAndRide
    ensures t == Parkhaus <==> r == CarPark
    ensures t == Tiefgarage <==> r == Underground
    ensures t == Parkflaeche <==> r == OffStreetParkingGround
  {
    match t
    case Parkhaus => CarPark
    case Tiefgarage => Underground
    case Parkflaeche => OffStreetParkingGround
    case ParkAndRide => Other
  }

  // ---------------------------------------------------- WKT point cells

  /** The length of the run of ASCII digits `s` starts with. */
  function DigitRun(s: string): (n: nat)
    ensures n <= |s| && AllDigits(s[..n]) && (n < |s| ==> !IsDigit(s[n]))
  {
    if |s| == 0 || !IsDigit(s[0]) then 0
    else
      var m := DigitRun(s[1..]);
      assert s[..m + 1] == [s[0]] + s[1..][..m];
      m + 1
  }

  lemma {:induction false} DigitRunOf(a: string, rest: string)
    requires AllDigits(a) && (|rest| > 0 ==> !IsDigit(rest[0]))
    ensures DigitRun(a + rest) == |a|
  {
    if |a| > 0 {
      assert (a + rest)[1..] == a[1..] + rest;
      DigitRunOf(a[1..], rest);
    } else {
      assert a + rest == rest;
    }
  }

  /** `\d+\.\d+` at the start of `t`: the digits without the point, the scale, and the text after it. */
  function UnsignedPrefix(t: string): (r: Option<(nat, nat, string)>)
    ensures r.Some? ==> |r.value.2| < |t| && t[|t| - |r.value.2|..] == r.value.2 && r.value.1 >= 1
  {
    var a := DigitRun(t);
    if a == 0 || a == |t| || t[a] != '.' then None
    else
      var u := t[a + 1..];
      var b := DigitRun(u);
      if b == 0 then None
      else
        assert t[|t| - |u[b..]|..] == u[b..];
        Some((DigitsValue(t[..a] + u[..b]), b, u[b..]))
  }

  /**
   * `[-+]?\d+\.\d+` at the start of `s`: the number the two digit runs
   * spell and the text after it. Digits are never a point, so each run is
   * as long as it can be.
   */
  function NumberPrefix(s: string): (r: Option<(Decimal, string)>)
    ensures r.Some? ==> |r.value.1| < |s| && s[|s| - |r.value.1|..] == r.value.1
    ensures r.Some? ==> r.value.0.scale >= 1
  {
    var k := if |s| > 0 && (s[0] == '-' || s[0] == '+') then 1 else 0;
    match UnsignedPrefix(s[k..])
    case None => None
    case Some((magnitude, scale, rest)) =>
      assert s[|s| - |rest|..] == s[k..][|s[k..]| - |rest|..];
      Some((Decimal(if k == 1 && s[0] == '-' then -(magnitude as int) else magnitude, scale), rest))
  }

  lemma UnsignedPrefixOf(a: string, b: string, rest: string)
    requires |a| > 0 && |b| > 0 && AllDigits(a) && AllDigits(b) && |rest| > 0 && !IsDigit(rest[0])
    ensures UnsignedPrefix(a + ("." + (b + rest))) == Some((DigitsValue(a + b), |b|, rest))
  {
    var u := b + rest;
    var t := a + ("." + u);
    DigitRunOf(a, "." + u);
    assert t[|a|] == '.';
    assert t[|a| + 1..] == u;
    DigitRunOf(b, rest);
    assert t[..|a|] == a;
    assert u[..|b|] == b;
    assert u[|b|..] == rest;
  }

  /** A decimal with a fraction, written out, reads back as itself and leaves the rest untouched. */
  lemma NumberPrefixSigned(x: Decimal, t: string, rest: string)
    requires |t| > 0 && IsDigit(t[0]) && UnsignedPrefix(t) == Some((Abs(x.digits), x.scale, rest))
    ensures NumberPrefix((if x.digits < 0 then "-" else "") + t) == Some((x, rest))
  {
    var neg := x.digits < 0;
    var s := (if neg then "-" else "") + t;
    var k := if neg then 1 else 0;
    assert s[k..] == t;
    assert s[0] == (if neg then '-' else t[0]);
    assert k == (if |s| > 0 && (s[0] == '-' || s[0] == '+') then 1 else 0);
  }

  lemma NumberPrefixOf(x: Decimal, rest: string)
    requires x.scale >= 1 && |rest| > 0 && !IsDigit(rest[0])
    ensures NumberPrefix(DecimalToString(x) + rest) == Some((x, rest))
  {
    var p := PaddedDigits(Abs(x.digits), x.scale);
    var a, b := SplitPadded(p, x.scale, Abs(x.digits));
    UnsignedPrefixOf(a, b, rest);
    var t := a + ("." + (b + rest));
    var sign := if x.digits < 0 then "-" else "";
    assert DecimalToString(x) == sign + (a + "." + b);
    Reassociate(sign, a, b, rest);
    NumberPrefixSigned(x, t, rest);
  }

  lemma Reassociate(sign: string, a: string, b: string, rest: string)
    ensures sign + (a + "." + b) + rest == sign + (a + ("." + (b + rest)))
  {
  }

  /** The two digit groups of a padded decimal: before and after the point. */
  lemma SplitPadded(p: string, scale: nat, n: nat) returns (a: string, b: string)
    requires AllDigits(p) && |p| > scale >= 1 && DigitsValue(p) == n
    ensures |a| > 0 && |b| == scale && AllDigits(a) && AllDigits(b)
    ensures DigitsValue(a + b) == n && PointAt(p, scale) == a + "." + b
  {
    a, b := p[..|p| - scale], p[|p| - scale..];
    assert a + b == p;
  }

  /** `re.match(PATTERN, s)`: "POINT (", two numbers split by a space, ")", and anything after. */
  function MatchPoint(s: string): (r: Option<(Decimal, Decimal)>)
    ensures r.Some? ==> StartsWith(s, "POINT (")
  {
    if !StartsWith(s, "POINT (") then None
    else match NumberPrefix(s[7..])
      case None => None
      case Some((x, rest)) =>
        if |rest| == 0 || rest[0] != ' ' then None
        else match NumberPrefix(rest[1..])
          case None => None
          case Some((y, tail)) => if |tail| == 0 || tail[0] != ')' then None else Some((x, y))
  }

  /** The cell a geometry column holds gives back its two coordinates, whatever follows the point. */
  lemma PointRoundTrip(x: Decimal, y: Decimal, tail: string)
    requires x.scale >= 1 && y.scale >= 1
    ensures MatchPoint("POINT (" + DecimalToString(x) + " " + DecimalToString(y) + ")" + tail) == Some((x, y))
  {
    var xs, ys := DecimalToString(x), DecimalToString(y);
    var close := ")" + tail;
    var rest := " " + (ys + close);
    NumberPrefixOf(x, rest);
    NumberPrefixOf(y, close);
    Regroup("POINT (", xs, " ", ys, ")", tail);
    PointOf(xs, ys, x, y, rest, close);
  }

  lemma Regroup(a: string, b: string, c: string, d: string, e: string, f: string)
    ensures a + b + c + d + e + f == a + (b + (c + (d + (e + f))))
  {
  }

  lemma PointOf(xs: string, ys: string, x: Decimal, y: Decimal, rest: string, close: string)
    requires |close| > 0 && close[0] == ')' && rest == " " + (ys + close)
    requires NumberPrefix(xs + rest) == Some((x, rest)) && NumberPrefix(ys + close) == Some((y, close))
    ensures MatchPoint("POINT (" + (xs + rest)) == Some((x, y))
  {
    var s := "POINT (" + (xs + rest);
    assert StartsWith(s, "POINT (") by {
      assert s[..7] == "POINT (";
    }
    assert NumberPrefix(s[7..]) == Some((x, rest)) by {
      assert s[7..] == xs + rest;
    }
    assert NumberPrefix(rest[1..]) == Some((y, close)) by {
      assert rest[1..] == ys + close;
    }
    MatchPointSteps(s, x, rest, y, close);
  }

  /** The pattern matched piece by piece: the prefix, a number, a space, a number, a ')'. */
  lemma MatchPointSteps(s: string, x: Decimal, rest: string, y: Decimal, close: string)
    requires StartsWith(s, "POINT (") && NumberPrefix(s[7..]) == Some((x, rest))
    requires |rest| > 0 && rest[0] == ' ' && NumberPrefix(rest[1..]) == Some((y, close))
    requires |close| > 0 && close[0] == ')'
    ensures MatchPoint(s) == Some((x, y))
  {
  }

  /** A coordinate without a fractional part does not match: the pattern demands a point and digits after it. */
  lemma IntegerPointRejected(n: nat, tail: string)
    ensures MatchPoint("POINT (" + NatToString(n) + " " + tail) == None
  {
    var s := "POINT (" + NatToString(n) + " " + tail;
    assert s[7..] == NatToString(n) + (" " + tail);
    IntegerNoNumber(n, " " + tail);
  }

  /** Digits followed by a space are no number: the point is missing. */
  lemma IntegerNoNumber(n: nat, rest: string)
    requires |rest| > 0 && rest[0] == ' '
    ensures NumberPrefix(NatToString(n) + rest) == None
  {
    var digits := NatToString(n);
    var t := digits + rest;
    DigitRunOf(digits, rest);
    assert t[|digits|] == ' ';
    assert IsDigit(t[0]) && t[0..] == t;
  }

  /** `PointCoordinateTupleValidator(DecimalValidator())`: a str that matches gives its two numbers, in cell order. */
  function ValidatePoint(v: Value): (r: Result<(Decimal, Decimal), Fault>)
    ensures r.Ok? <==> v.Str? && MatchPoint(v.s).Some?
    ensures r.Ok? ==> r.value == MatchPoint(v.s).value
    ensures !v.Str? ==> r == Err(Invalid("invalid_type", "str expected"))
    ensures v.Str? && r.Err? ==> r == Err(Invalid("invalid_tuple_input", "invalid point coordinate tuple input"))
  {
    if !v.Str? then Err(Invalid("invalid_type", "str expected"))
    else match MatchPoint(v.s)
      case None => Err(Invalid("invalid_tuple_input", "invalid point coordinate tuple input"))
      case Some(c) => Ok(c)
  }

  // -------------------------------------------------------------- rows

  /** `ReutlingenRowInput`; `coordinates` keeps the cell's order, longitude first. */
  datatype RowInput = RowInput(uid: int, siteType: ReutlingenType, coordinates: (Decimal, Decimal), capacity: Option<int>, name: string)

  function CapacityCell(v: Value): (r: Result<Option<int>, Fault>)
    ensures IsBlank(v) ==> r == Ok(None)
    ensures !IsBlank(v) ==> r == SomeOf(ValidateInteger(v, INT32_MIN, INT32_MAX, true))
  {
    ValidateExcelNoneable(v, w => SomeOf(ValidateInteger(w, INT32_MIN, INT32_MAX, true)), None)
  }

  function ValidateRow(d: Fields): (r: Result<RowInput, Fault>)
    ensures r.Ok? ==> Lookup(d, "coordinates").Some? && ValidatePoint(Lookup(d, "coordinates").value) == Ok(r.value.coordinates)
    ensures r.Ok? ==> Lookup(d, "capacity").Some? && CapacityCell(Lookup(d, "capacity").value) == Ok(r.value.capacity)
    ensures r.Ok? ==> Lookup(d, "name").Some? && Lookup(d, "name").value == Str(r.value.name) && |r.value.name| <= 255
    ensures r.Ok? ==> Lookup(d, "type").Some? && Lookup(d, "type").value == Str(ReutlingenTypeName(r.value.siteType))
    ensures r.Err? ==> r.error.Invalid?
  {
    var uid :- Field(d, "uid", v => ValidateInteger(v, INT32_MIN, INT32_MAX, true), None);
    var siteType :- Field(d, "type", v => ValidateEnum(v, ParseReutlingenType), None);
    var coordinates :- Field(d, "coordinates", ValidatePoint, None);
    var capacity :- Field(d, "capacity", CapacityCell, None);
    var name :- Field(d, "name", v => ValidateString(v, 0, Some(255), false), None);
    Ok(RowInput(uid, siteType, coordinates, capacity, name))
  }

  /** The record the row becomes: latitude is the second number of the point, longitude the first. */
  function SiteOf(input: RowInput, now: DateTime): (s: StaticParkingSiteInput)
    ensures s.lat == input.coordinates.1 && s.lon == input.coordinates.0
    ensures s.address == Some(input.name + ", Reutlingen")
    ensures s.siteType == Some(ToParkingSiteType(input.siteType))
    ensures s.capacities == NoCapacities.(total := input.capacity)
    ensures ParseInt(s.uid) == Some(input.uid)
    ensures !s.hasRealtimeData && s.staticDataUpdatedAt == now
  {
    ParseIntOfString(input.uid);
    StaticParkingSiteInput(
      IntToString(input.uid), input.name, None, None, Some(input.name + ", Reutlingen"), None,
      Some(ToParkingSiteType(input.siteType)), None, None, None, None, None, None, false,
      now, input.coordinates.1, input.coordinates.0, NoCapacities.(total := input.capacity), None)
  }

  /**
   * The body of the row loop after the row is read: a validation error is
   * the row's error, keyed by the raw `uid` cell; construction runs outside
   * the `try`, so a point at (0, 0) ends the call.
   */
  function RowStep(d: Fields, now: DateTime): (r: Step<StaticParkingSiteInput>)
    ensures ValidateRow(d).Err? ==>
      r == Ok(Reject(SiteError(Get(d, "uid"), "validation error for " + Formatted(Obj(d)) + ": " + FaultText(ValidateRow(d).error))))
    ensures ValidateRow(d).Ok? ==>
      (r.Ok? <==> !(DecIsZero(ValidateRow(d).value.coordinates.0) && DecIsZero(ValidateRow(d).value.coordinates.1)))
    ensures r.Ok? && ValidateRow(d).Ok? ==> r.value == Accept(SiteOf(ValidateRow(d).value, now))
  {
    match ValidateRow(d)
    case Err(f) => Ok(Reject(SiteError(Get(d, "uid"), "validation error for " + Formatted(Obj(d)) + ": " + FaultText(f))))
    case Ok(input) =>
      match ConstructStatic(SiteOf(input, now), [])
      case Err(f) => Err(Raise(f))
      case Ok(s) => Ok(Accept(s))
  }

  function Handler(now: DateTime): CsvRows.RowHandler {
    d => RowStep(d, now)
  }

  /** `handle_csv`, with `datetime.now()` passed in as `now`. */
  function HandleCsvSpec(rows: seq<seq<string>>, now: DateTime): Result<ImportSourceResult, Abort> {
    CsvRows.HandleCsvSpec(Info, HeaderTable, rows, Handler(now))
  }

  lemma HandlerNeverSkips(now: DateTime)
    ensures forall d: Fields :: Handler(now)(d).Ok? ==> !Handler(now)(d).value.Skip?
  {
    forall d: Fields | Handler(now)(d).Ok? ensures !Handler(now)(d).value.Skip? {
      assert Handler(now)(d) == RowStep(d, now);
    }
  }

  method HandleCsv(rows: seq<seq<string>>, now: DateTime) returns (r: Result<ImportSourceResult, Abort>)
    ensures r == HandleCsvSpec(rows, now)
  {
    r := CsvRows.HandleCsv(Info, HeaderTable, rows, Handler(now));
  }

  // ---------------------------------------------------------- properties

  /**
   * A file that converts yields one record or one error per data row; every
   * record is static only and stamped with the conversion time.
   */
  lemma ConvertedRows(rows: seq<seq<string>>, now: DateTime)
    requires HandleCsvSpec(rows, now).Ok?
    ensures var r := HandleCsvSpec(rows, now).value;
      |r.staticInputs.value| + |r.staticErrors.value| == |rows| - 1
      && forall s :: s in r.staticInputs.value ==> !s.hasRealtimeData && s.staticDataUpdatedAt == now
  {
    HandlerNeverSkips(now);
    CsvRows.RowCounts(Info, HeaderTable, rows, Handler(now));
    var mapping := CsvMapping(Info.id, HeaderTable, rows[0]).value;
    var steps := CsvRows.RowSteps(mapping, TableValues(HeaderTable), rows[1..], Handler(now));
    GatherSpec(steps);
    forall s: StaticParkingSiteInput | s in Accepted(steps) ensures !s.hasRealtimeData && s.staticDataUpdatedAt == now {
      AcceptedFrom(steps, s);
      var i :| 0 <= i < |steps| && steps[i] == Ok(Accept(s));
      var read := ReadRow(mapping, TableValues(HeaderTable), rows[1..][i]);
      assert read.Ok? && steps[i] == RowStep(read.value, now);
    }
  }

  /**
   * A row that reads "POINT (lon lat)" in its geometry cell yields the
   * site at that latitude and longitude, addressed by name in Reutlingen.
   */
  lemma AcceptedRowPosition(d: Fields, now: DateTime, x: Decimal, y: Decimal, tail: string)
    requires x.scale >= 1 && y.scale >= 1 && !(DecIsZero(x) && DecIsZero(y))
    requires Lookup(d, "coordinates") == Some(Str("POINT (" + DecimalToString(x) + " " + DecimalToString(y) + ")" + tail))
    requires ValidateRow(d).Ok?
    ensures RowStep(d, now).Ok? && RowStep(d, now).value.Accept?
    ensures var s := RowStep(d, now).value.record;
      s.lat == y && s.lon == x && s.address == Some(ValidateRow(d).value.name + ", Reutlingen")
  {
    PointRoundTrip(x, y, tail);
  }

  /** A blank capacity cell leaves the capacity unset instead of rejecting the row. */
  lemma BlankCapacityUnset(d: Fields, now: DateTime)
    requires ValidateRow(d).Ok? && Lookup(d, "capacity") == Some(Str("-"))
    ensures ValidateRow(d).value.capacity == None
  {
  }

  /** A valid row at (0, 0) is refused by construction, which no `except` covers: the whole call fails. */
  lemma ZeroPointAborts(d: Fields, now: DateTime)
    requires ValidateRow(d).Ok? && DecIsZero(ValidateRow(d).value.coordinates.0) && DecIsZero(ValidateRow(d).value.coordinates.1)
    ensures RowStep(d, now) == Err(Raise(Invalid("lat_lon_zero", "Latitude and longitude are both zero.")))
  {
  }
}
