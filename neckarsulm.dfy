/**
 * v3/neckarsulm.py: a comma-separated file with one site per row, with
 * coordinates in two decimal columns, a German category word, the address
 * in three columns and five capacity counts.
 */
module Neckarsulm {
  import opened Wrappers
  import opened Text
  import opened Values
  import opened FieldValidators
  import opened SiteInputs
  import opened ImportResults
  import opened Aggregation
  import opened HeaderMapping
  import CsvRows

  const Info := SourceInfo("neckarsulm", "Stadt Neckarsulm", Some("https://www.neckarsulm.de"))

  const HeaderTable: Table := [
    ("id", "uid"), ("name", "name"), ("kategorie", "type"), ("y-koord", "lat"), ("x-koord", "lon"),
    ("strasse", "street"), ("plz", "postcode"), ("stadt", "city"), ("anz_plaetze", "capacity"),
    ("anzcarsharing", "capacity_carsharing"), ("anzeladestation", "capacity_charging"),
    ("anzfrauenpark", "capacity_woman"), ("anzbehinderte", "capacity_disabled"), ("gebuehren", "has_fee"),
    ("open_time", "opening_hours"), ("maxhoehe", "max_height")]

  /**
   * How the record is built: as written, the call passes a `max_height`
   * keyword the record does not declare; corrected, it does not.
   */
  datatype Reading = AsWritten | Corrected

  function UnknownKeywords(reading: Reading): seq<string> {
    match reading
    case AsWritten => ["max_height"]
    case Corrected => []
  }

  // -------------------------------------------------------------- rows

  datatype Place = Place(uid: int, name: string, typeName: string, lat: Decimal, lon: Decimal,
                         street: string, postcode: string, city: string)

  datatype Facilities = Facilities(capacity: int, carsharing: int, charging: int, woman: int, disabled: int,
                                   hasFee: bool, openingHours: string, maxHeight: Decimal)

  /** `NeckarsulmRowInput`, in two blocks. */
  datatype RowInput = RowInput(place: Place, facilities: Facilities)

  function Text255(v: Value): Result<string, Fault> { ValidateString(v, 0, Some(255), false) }

  function Count(v: Value): Result<int, Fault> { ValidateInteger(v, INT32_MIN, INT32_MAX, true) }

  const LatMin := DecOfInt(40)
  const LatMax := DecOfInt(60)
  const LonMin := DecOfInt(7)
  const LonMax := DecOfInt(10)

  /** The fields `uid` to `city`; the coordinates are decimal strings within the Neckarsulm box. */
  /** A required decimal field within its bounds. */
  function Coordinate(d: Fields, key: string, min: Decimal, max: Decimal): (r: Result<Decimal, Fault>)
    ensures r.Ok? ==> InBounds(r.value, Some(min), Some(max))
    ensures r.Ok? ==> Lookup(d, key).Some? && ValidateDecimal(Lookup(d, key).value, Some(min), Some(max)) == Ok(r.value)
    ensures r.Err? ==> r.error.Invalid?
  {
    Field(d, key, v => ValidateDecimal(v, Some(min), Some(max)), None)
  }

  function ValidatePlace(d: Fields): (r: Result<Place, Fault>)
    ensures r.Ok? ==> InBounds(r.value.lat, Some(LatMin), Some(LatMax)) && InBounds(r.value.lon, Some(LonMin), Some(LonMax))
    ensures r.Ok? ==> Lookup(d, "lat").Some? && ValidateDecimal(Lookup(d, "lat").value, Some(LatMin), Some(LatMax)) == Ok(r.value.lat)
    ensures r.Ok? ==> Lookup(d, "lon").Some? && ValidateDecimal(Lookup(d, "lon").value, Some(LonMin), Some(LonMax)) == Ok(r.value.lon)
    ensures r.Ok? ==> Lookup(d, "type") == Some(Str(r.value.typeName))
    ensures r.Err? ==> r.error.Invalid?
  {
    var (uid, name, typeName) :- Naming(d);
    var lat :- Coordinate(d, "lat", LatMin, LatMax);
    var lon :- Coordinate(d, "lon", LonMin, LonMax);
    var (street, postcode, city) :- Address(d);
    Ok(Place(uid, name, typeName, lat, lon, street, postcode, city))
  }

  /** The fields `uid`, `name` and `type`, in that order. */
  function Naming(d: Fields): (r: Result<(int, string, string), Fault>)
    ensures r.Ok? ==> Lookup(d, "type") == Some(Str(r.value.2))
    ensures r.Err? ==> r.error.Invalid?
  {
    var uid :- Field(d, "uid", Count, None);
    var name :- Field(d, "name", Text255, None);
    var typeName :- Field(d, "type", Text255, None);
    Ok((uid, name, typeName))
  }

  /** The fields `street`, `postcode` and `city`, in that order. */
  function Address(d: Fields): (r: Result<(string, string, string), Fault>)
    ensures r.Err? ==> r.error.Invalid?
  {
    var street :- Field(d, "street", Text255, None);
    var postcode :- Field(d, "postcode", Text255, None);
    var city :- Field(d, "city", Text255, None);
    Ok((street, postcode, city))
  }

  /** The fields `capacity` to `max_height`. */
  function ValidateFacilities(d: Fields): (r: Result<Facilities, Fault>)
    ensures r.Ok? ==> Lookup(d, "opening_hours") == Some(Str(r.value.openingHours))
    ensures r.Ok? ==> Lookup(d, "has_fee").Some? && ValidateExtendedBoolean(Lookup(d, "has_fee").value) == Ok(r.value.hasFee)
    ensures r.Ok? ==> Lookup(d, "capacity").Some? && Count(Lookup(d, "capacity").value) == Ok(r.value.capacity)
    ensures r.Err? ==> r.error.Invalid?
  {
    var (capacity, carsharing, charging, woman, disabled) :- Capacities(d);
    var (hasFee, openingHours, maxHeight) :- Terms(d);
    Ok(Facilities(capacity, carsharing, charging, woman, disabled, hasFee, openingHours, maxHeight))
  }

  /** The five capacity fields, in order. */
  function Capacities(d: Fields): (r: Result<(int, int, int, int, int), Fault>)
    ensures r.Ok? ==> Lookup(d, "capacity").Some? && Count(Lookup(d, "capacity").value) == Ok(r.value.0)
    ensures r.Err? ==> r.error.Invalid?
  {
    var capacity :- Field(d, "capacity", Count, None);
    var carsharing :- Field(d, "capacity_carsharing", Count, None);
    var charging :- Field(d, "capacity_charging", Count, None);
    var woman :- Field(d, "capacity_woman", Count, None);
    var disabled :- Field(d, "capacity_disabled", Count, None);
    Ok((capacity, carsharing, charging, woman, disabled))
  }

  /** The fields `has_fee`, `opening_hours` and `max_height`, in order. */
  function Terms(d: Fields): (r: Result<(bool, string, Decimal), Fault>)
    ensures r.Ok? ==> Lookup(d, "has_fee").Some? && ValidateExtendedBoolean(Lookup(d, "has_fee").value) == Ok(r.value.0)
    ensures r.Ok? ==> Lookup(d, "opening_hours") == Some(Str(r.value.1))
    ensures r.Err? ==> r.error.Invalid?
  {
    var hasFee :- Field(d, "has_fee", ValidateExtendedBoolean, None);
    var openingHours :- Field(d, "opening_hours", Text255, None);
    var maxHeight :- Field(d, "max_height", v => ValidateDecimal(v, None, None), None);
    Ok((hasFee, openingHours, maxHeight))
  }

  function ValidateRow(d: Fields): (r: Result<RowInput, Fault>)
    ensures r.Ok? <==> ValidatePlace(d).Ok? && ValidateFacilities(d).Ok?
    ensures r.Ok? ==> r.value == RowInput(ValidatePlace(d).value, ValidateFacilities(d).value)
    ensures r.Err? ==> r.error.Invalid?
  {
    var place :- ValidatePlace(d);
    var facilities :- ValidateFacilities(d);
    Ok(RowInput(place, facilities))
  }

  // ------------------------------------------------------------ records

  /** `type_mapping.get(type)`: the five category words the file uses, None for any other. */
  function TypeMapping(s: string): (r: Option<ParkingSiteType>)
    ensures r.None? <==> s !in {"Parkplatz", "Wanderparkplatz", "Parkhaus", "Tiefgarage", "p+r"}
    ensures r == Some(CarPark) <==> s == "Parkhaus"
    ensures r == Some(Underground) <==> s == "Tiefgarage"
    ensures r.Some? ==> r.value in {OffStreetParkingGround, CarPark, Underground}
  {
    if s == "Parkplatz" || s == "Wanderparkplatz" || s == "p+r" then Some(OffStreetParkingGround)
    else if s == "Parkhaus" then Some(CarPark)
    else if s == "Tiefgarage" then Some(Underground)
    else None
  }

  /** The record built from a validated row: the address joins street, postcode and city. */
  function SiteOf(input: RowInput, now: DateTime): (s: StaticParkingSiteInput)
    ensures ParseInt(s.uid) == Some(input.place.uid)
    ensures s.lat == input.place.lat && s.lon == input.place.lon
    ensures s.siteType == TypeMapping(input.place.typeName)
    ensures s.address == Some(input.place.street + ", " + input.place.postcode + " " + input.place.city)
    ensures s.capacities.total == Some(input.facilities.capacity) && s.capacities.carsharing == Some(input.facilities.carsharing)
    ensures s.capacities.charging == Some(input.facilities.charging) && s.capacities.woman == Some(input.facilities.woman)
    ensures s.capacities.disabled == Some(input.facilities.disabled)
    ensures s.capacities.family.None? && s.capacities.truck.None? && s.capacities.bus.None?
    ensures s.hasFee == Some(input.facilities.hasFee)
    ensures s.openingHours.Some? <==> input.facilities.openingHours == "00:00-24:00"
    ensures s.openingHours.Some? ==> s.openingHours.value == "24/7"
    ensures !s.hasRealtimeData && s.staticDataUpdatedAt == now
  {
    ParseIntOfString(input.place.uid);
    var p, f := input.place, input.facilities;
    StaticParkingSiteInput(
      IntToString(p.uid), p.name, None, None, Some(p.street + ", " + p.postcode + " " + p.city), None,
      TypeMapping(p.typeName), None, None, None, Some(f.hasFee), None, None, false, now, p.lat, p.lon,
      NoCapacities.(total := Some(f.capacity), carsharing := Some(f.carsharing), charging := Some(f.charging),
                    woman := Some(f.woman), disabled := Some(f.disabled)),
      if f.openingHours == "00:00-24:00" then Some("24/7") else None)
  }

  /**
   * The body of the row loop after the row is read. The error is keyed by
   * the dict's `id` entry; construction runs outside the `try`.
   */
  function RowStep(d: Fields, now: DateTime, reading: Reading): (r: Step<StaticParkingSiteInput>)
    ensures ValidateRow(d).Err? ==>
      r == Ok(Reject(SiteError(Get(d, "id"), "validation error for " + Formatted(Obj(d)) + ": " + FaultText(ValidateRow(d).error))))
    ensures ValidateRow(d).Ok? ==> r == (match ConstructStatic(SiteOf(ValidateRow(d).value, now), UnknownKeywords(reading))
                                         case Err(f) => Err(Raise(f)) case Ok(s) => Ok(Accept(s)))
  {
    match ValidateRow(d)
    case Err(f) => Ok(Reject(SiteError(Get(d, "id"), "validation error for " + Formatted(Obj(d)) + ": " + FaultText(f))))
    case Ok(input) =>
      match ConstructStatic(SiteOf(input, now), UnknownKeywords(reading))
      case Err(f) => Err(Raise(f))
      case Ok(s) => Ok(Accept(s))
  }

  function Handler(now: DateTime, reading: Reading): CsvRows.RowHandler {
    d => RowStep(d, now, reading)
  }

  /** `handle_csv`, with `datetime.now()` passed in as `now`. */
  function HandleCsvSpec(rows: seq<seq<string>>, now: DateTime, reading: Reading): Result<ImportSourceResult, Abort> {
    CsvRows.HandleCsvSpec(Info, HeaderTable, rows, Handler(now, reading))
  }

  method HandleCsv(rows: seq<seq<string>>, now: DateTime) returns (r: Result<ImportSourceResult, Abort>)
    ensures r == HandleCsvSpec(rows, now, Corrected)
  {
    r := CsvRows.HandleCsv(Info, HeaderTable, rows, Handler(now, Corrected));
  }

  // ---------------------------------------------------------- properties

  /** A latitude of at least 40 is not zero, so the (0, 0) rule never refuses a validated row. */
  lemma BoundedLatNotZero(lat: Decimal)
    requires InBounds(lat, Some(LatMin), Some(LatMax))
    ensures !DecIsZero(lat)
  {
  }

  /** Corrected, every row that validates becomes its record. */
  lemma ValidRowAccepted(d: Fields, now: DateTime)
    requires ValidateRow(d).Ok?
    ensures RowStep(d, now, Corrected) == Ok(Accept(SiteOf(ValidateRow(d).value, now)))
  {
    BoundedLatNotZero(ValidateRow(d).value.place.lat);
  }

  /** As written, every row that validates raises a TypeError that ends the call. */
  lemma ValidRowAbortsAsWritten(d: Fields, now: DateTime)
    requires ValidateRow(d).Ok?
    ensures RowStep(d, now, AsWritten).Err?
    ensures RowStep(d, now, AsWritten).error.Raise? && RowStep(d, now, AsWritten).error.fault.kind == "TypeError"
  {
  }

  /** As written, a file converts only when no data row validates: the result never holds a record. */
  lemma AsWrittenNoRecords(rows: seq<seq<string>>, now: DateTime)
    requires HandleCsvSpec(rows, now, AsWritten).Ok?
    ensures HandleCsvSpec(rows, now, AsWritten).value.staticInputs.value == []
  {
    forall d: Fields | Handler(now, AsWritten)(d).Ok? ensures !Handler(now, AsWritten)(d).value.Accept? {
      assert Handler(now, AsWritten)(d) == RowStep(d, now, AsWritten);
    }
    CsvRows.NoRecordsWithoutAccept(Info, HeaderTable, rows, Handler(now, AsWritten));
  }

  /** The read dict's keys are the declared field names, and `id` is a header, not a field. */
  lemma NoIdField()
    ensures "id" !in TableValues(HeaderTable)
  {
    var vs := TableValues(HeaderTable);
    forall j | 0 <= j < |vs| ensures vs[j] != "id" {
      assert vs[j] == HeaderTable[j].1;
    }
  }

  /** Every error of a converted file has no uid: the row's dict has no `id` entry. */
  lemma ErrorsHaveNoUid(rows: seq<seq<string>>, now: DateTime, reading: Reading)
    requires HandleCsvSpec(rows, now, reading).Ok?
    ensures forall e :: e in HandleCsvSpec(rows, now, reading).value.staticErrors.value ==> e.uid == Null
  {
    forall e | e in HandleCsvSpec(rows, now, reading).value.staticErrors.value ensures e.uid == Null {
      ErrorHasNoUid(rows, now, reading, e);
    }
  }

  lemma ErrorHasNoUid(rows: seq<seq<string>>, now: DateTime, reading: Reading, e: ImportException)
    requires HandleCsvSpec(rows, now, reading).Ok? && e in HandleCsvSpec(rows, now, reading).value.staticErrors.value
    ensures e.uid == Null
  {
    CsvRows.ErrorFromRow(Info, HeaderTable, rows, Handler(now, reading), e);
    var i :| 1 <= i < |rows| && CsvRows.ReadData(Info, HeaderTable, rows, i).Ok?
             && Handler(now, reading)(CsvRows.ReadData(Info, HeaderTable, rows, i).value) == Ok(Reject(e));
    var d := CsvRows.ReadData(Info, HeaderTable, rows, i).value;
    NoIdField();
    ReadRowOnlyFields(CsvMapping(Info.id, HeaderTable, rows[0]).value, TableValues(HeaderTable), rows[i], "id");
    RowErrorUid(d, now, reading, e);
  }

  /** A rejected row's error carries the dict's `id` entry, or None. */
  lemma RowErrorUid(d: Fields, now: DateTime, reading: Reading, e: ImportException)
    requires RowStep(d, now, reading) == Ok(Reject(e))
    ensures e.uid == Get(d, "id")
  {
  }

  /** Corrected, a converted file yields one record or one error per data row. */
  lemma ConvertedRows(rows: seq<seq<string>>, now: DateTime)
    requires HandleCsvSpec(rows, now, Corrected).Ok?
    ensures var r := HandleCsvSpec(rows, now, Corrected).value;
      |r.staticInputs.value| + |r.staticErrors.value| == |rows| - 1
  {
    forall d: Fields | Handler(now, Corrected)(d).Ok? ensures !Handler(now, Corrected)(d).value.Skip? {
      assert Handler(now, Corrected)(d) == RowStep(d, now, Corrected);
    }
    CsvRows.RowCounts(Info, HeaderTable, rows, Handler(now, Corrected));
  }

  /** A row whose opening-hours cell reads "00:00-24:00" is open around the clock; any other text leaves the hours unset. */
  lemma OpeningHoursOnlyAllDay(d: Fields, now: DateTime)
    requires ValidateRow(d).Ok?
    ensures var s := SiteOf(ValidateRow(d).value, now);
      (Lookup(d, "opening_hours") == Some(Str("00:00-24:00")) ==> s.openingHours == Some("24/7"))
      && (Lookup(d, "opening_hours") != Some(Str("00:00-24:00")) ==> s.openingHours == None)
  {
  }
}
