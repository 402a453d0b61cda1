/**
 * v3/pforzheim.py: a comma-separated file with one site per row, whose
 * position is a GeoJSON point in the `locations` column. The JSON decoder
 * is a parameter of the model.
 */
module Pforzheim {
  import opened Wrappers
  import opened Text
  import opened Values
  import opened PyOps
  import opened SiteInputs
  import opened ImportResults
  import opened Aggregation
  import opened HeaderMapping
  import CsvRows

  const Info := SourceInfo("pforzheim", "Stadt Pforzheim", Some(""))

  const HeaderTable: Table := [
    ("Id", "uid"), ("name", "name"), ("locations", "location"), ("operatorID", "operator_name"),
    ("address", "address"), ("description", "description"), ("type", "type"),
    ("quantitySpacesReservedForWomen", "capacity_woman"),
    ("quantitySpacesReservedForMobilityImpededPerson", "capacity_disabled"),
    ("securityInformation", "is_supervised"), ("feeInformation", "fee_description"), ("capacity", "capacity"),
    ("hasOpeningHours24h", "opening_hours_is_24_7"), ("openingHours", "opening_hours")]

  /** `json.loads`: the parsed value, or the exception a malformed text raises. */
  type JsonDecoder = string -> Result<Value, Fault>

  /**
   * The opening-hours text that means "always open": as written, the
   * literal in the source is "durchgehend geöffnet" with its "ö" garbled
   * into two other characters; corrected, it is spelled properly.
   */
  datatype Reading = AsWritten | Corrected

  function AllDayText(reading: Reading): string {
    match reading
    case AsWritten => "durchgehend ge\U{221A}\U{2202}ffnet"
    case Corrected => "durchgehend geöffnet"
  }

  // ------------------------------------------------------- the position

  /** `str(json.loads(cell).get('coordinates')[i])`. */
  function Coordinate(cell: string, decode: JsonDecoder, i: nat): (r: Result<string, Fault>)
    ensures r.Ok? <==> decode(cell).Ok? && decode(cell).value.Obj?
                       && Index(Get(decode(cell).value.fields, "coordinates"), i).Ok?
    ensures r.Ok? ==> r.value == Formatted(Index(Get(decode(cell).value.fields, "coordinates"), i).value)
  {
    var parsed :- decode(cell);
    var coordinates :- GetOr(parsed, "coordinates", Null);
    var c :- Index(coordinates, i);
    Ok(Formatted(c))
  }

  /**
   * The two lines before the `try`: `lat` is the point's second number and
   * `lon` its first, each written back into the dict as text.
   */
  function Located(d: Fields, decode: JsonDecoder): (r: Result<Fields, Fault>)
    ensures r.Ok? <==> Lookup(d, "location").Some? && Lookup(d, "location").value.Str?
                       && Coordinate(Lookup(d, "location").value.s, decode, 1).Ok?
                       && Coordinate(Lookup(d, "location").value.s, decode, 0).Ok?
    ensures r.Ok? ==> Lookup(r.value, "lat") == Some(Str(Coordinate(Lookup(d, "location").value.s, decode, 1).value))
    ensures r.Ok? ==> Lookup(r.value, "lon") == Some(Str(Coordinate(Lookup(d, "location").value.s, decode, 0).value))
    ensures r.Ok? ==> forall k :: k != "lat" && k != "lon" ==> Lookup(r.value, k) == Lookup(d, k)
  {
    var location :- Item(d, "location");
    if !location.Str? then Err(Raised("TypeError", "the JSON object must be str"))
    else
      assert location == Lookup(d, "location").value;
      var lat :- Coordinate(location.s, decode, 1);
      var withLat := Put(d, "lat", Str(lat));
      var lon :- Coordinate(location.s, decode, 0);
      var located := Put(withLat, "lon", Str(lon));
      PutLatLon(d, Str(lat), Str(lon));
      Ok(located)
  }

  /** What the two writes leave in the dict. */
  lemma PutLatLon(d: Fields, lat: Value, lon: Value)
    ensures Lookup(Put(Put(d, "lat", lat), "lon", lon), "lat") == Some(lat)
    ensures Lookup(Put(Put(d, "lat", lat), "lon", lon), "lon") == Some(lon)
    ensures forall k :: k != "lat" && k != "lon" ==> Lookup(Put(Put(d, "lat", lat), "lon", lon), k) == Lookup(d, k)
  {
    var withLat := Put(d, "lat", lat);
    LookupPut(withLat, "lon", lon, "lat");
    LookupPut(withLat, "lon", lon, "lon");
    LookupPut(d, "lat", lat, "lat");
    forall k | k != "lat" && k != "lon" ensures Lookup(Put(withLat, "lon", lon), k) == Lookup(d, k) {
      LookupPut(withLat, "lon", lon, k);
      LookupPut(d, "lat", lat, k);
    }
  }

  // -------------------------------------------------------------- rows

  datatype Identity = Identity(uid: string, name: string, lat: Decimal, lon: Decimal, operatorName: string, address: string)

  datatype Details = Details(description: string, typeName: string, isSupervised: string, feeDescription: string,
                             openingHoursIs24x7: string, openingHours: string)

  /** `PforzheimRowInput`, in two blocks. */
  datatype RowInput = RowInput(identity: Identity, details: Details)

  function Text255(v: Value): Result<string, Fault> { ValidateString(v, 0, Some(255), false) }

  const LatMin := DecOfInt(40)
  const LatMax := DecOfInt(60)
  const LonMin := DecOfInt(7)
  const LonMax := DecOfInt(10)

  /** The fields `uid` to `address`. */
  function ValidateIdentity(d: Fields): (r: Result<Identity, Fault>)
    ensures r.Ok? ==> InBounds(r.value.lat, Some(LatMin), Some(LatMax)) && InBounds(r.value.lon, Some(LonMin), Some(LonMax))
    ensures r.Ok? ==> Lookup(d, "lat").Some? && ValidateDecimal(Lookup(d, "lat").value, Some(LatMin), Some(LatMax)) == Ok(r.value.lat)
    ensures r.Ok? ==> Lookup(d, "lon").Some? && ValidateDecimal(Lookup(d, "lon").value, Some(LonMin), Some(LonMax)) == Ok(r.value.lon)
    ensures r.Err? ==> r.error.Invalid?
  {
    var uid :- Field(d, "uid", Text255, None);
    var name :- Field(d, "name", Text255, None);
    var lat :- Field(d, "lat", v => ValidateDecimal(v, Some(LatMin), Some(LatMax)), None);
    var lon :- Field(d, "lon", v => ValidateDecimal(v, Some(LonMin), Some(LonMax)), None);
    var operatorName :- Field(d, "operator_name", Text255, None);
    var address :- Field(d, "address", v => ValidateString(v, 0, Some(255), true), None);
    Ok(Identity(uid, name, lat, lon, operatorName, address))
  }

  /** The fields `description` to `opening_hours`. */
  function ValidateDetails(d: Fields): (r: Result<Details, Fault>)
    ensures r.Ok? ==> Lookup(d, "fee_description") == Some(Str(r.value.feeDescription))
    ensures r.Ok? ==> Lookup(d, "opening_hours") == Some(Str(r.value.openingHours))
    ensures r.Ok? ==> Lookup(d, "type") == Some(Str(r.value.typeName))
    ensures r.Err? ==> r.error.Invalid?
  {
    var description :- Field(d, "description", v => ValidateString(v, 0, Some(512), true), None);
    var typeName :- Field(d, "type", Text255, None);
    var isSupervised :- Field(d, "is_supervised", Text255, None);
    var feeDescription :- Field(d, "fee_description", v => ValidateString(v, 0, None, true), None);
    var openingHoursIs24x7 :- Field(d, "opening_hours_is_24_7", Text255, None);
    var openingHours :- Field(d, "opening_hours", v => ValidateString(v, 0, Some(255), true), None);
    Ok(Details(description, typeName, isSupervised, feeDescription, openingHoursIs24x7, openingHours))
  }

  function ValidateRow(d: Fields): (r: Result<RowInput, Fault>)
    ensures r.Ok? <==> ValidateIdentity(d).Ok? && ValidateDetails(d).Ok?
    ensures r.Ok? ==> r.value == RowInput(ValidateIdentity(d).value, ValidateDetails(d).value)
    ensures r.Err? ==> r.error.Invalid?
  {
    var identity :- ValidateIdentity(d);
    var details :- ValidateDetails(d);
    Ok(RowInput(identity, details))
  }

  // ------------------------------------------------------------ records

  /** `type_mapping.get(type)`. */
  function TypeMapping(s: string): (r: Option<ParkingSiteType>)
    ensures r.None? <==> s !in {"Parkplatz", "onStreet", "Parkhaus", "Tiefgarage"}
  {
    if s == "Parkplatz" then Some(OffStreetParkingGround)
    else if s == "onStreet" then Some(OnStreet)
    else if s == "Parkhaus" then Some(CarPark)
    else if s == "Tiefgarage" then Some(Underground)
    else None
  }

  /** Any type text containing "onStreet" is on-street parking; other text goes through the table. */
  function SiteType(s: string): (r: Option<ParkingSiteType>)
    ensures Contains(s, "onStreet") ==> r == Some(OnStreet)
    ensures !Contains(s, "onStreet") ==> r == TypeMapping(s)
    ensures r == Some(OnStreet) <==> Contains(s, "onStreet")
  {
    assert Contains("onStreet", "onStreet") by {
      assert Occurs("onStreet", "onStreet", 0);
      ContainsIff("onStreet", "onStreet");
    }
    if Contains(s, "onStreet") then TypeMapping("onStreet") else TypeMapping(s)
  }

  /** The record built from a validated row. */
  function SiteOf(input: RowInput, now: DateTime, reading: Reading): (s: StaticParkingSiteInput)
    ensures s.uid == input.identity.uid && s.name == input.identity.name
    ensures s.lat == input.identity.lat && s.lon == input.identity.lon
    ensures s.siteType == SiteType(input.details.typeName)
    ensures s.address == Some(ReplaceAll(input.identity.address, "\n", " "))
    ensures s.description == Some(input.details.description)
    ensures s.hasFee == Some(input.details.feeDescription != "") && s.feeDescription == Some(input.details.feeDescription)
    ensures s.openingHours == (if input.details.openingHours == AllDayText(reading) then Some("24/7") else None)
    ensures s.capacities == NoCapacities
    ensures !s.hasRealtimeData && s.staticDataUpdatedAt == now
  {
    var id, det := input.identity, input.details;
    StaticParkingSiteInput(
      id.uid, id.name, None, None, Some(ReplaceAll(id.address, "\n", " ")), Some(det.description),
      SiteType(det.typeName), None, None, Some(det.feeDescription), Some(det.feeDescription != ""), None, None, false,
      now, id.lat, id.lon, NoCapacities,
      if det.openingHours == AllDayText(reading) then Some("24/7") else None)
  }

  function RowError(d: Fields, f: Fault): ImportException {
    SiteError(Get(d, "id"), "validation error for " + Formatted(Obj(d)) + ": " + FaultText(f))
  }

  /**
   * The body of the row loop after the row is read: the position lines run
   * outside the `try`, a validation error is the row's error keyed by the
   * dict's `id` entry, and construction runs outside the `try` as well.
   */
  function RowStep(d: Fields, now: DateTime, decode: JsonDecoder, reading: Reading): (r: Step<StaticParkingSiteInput>)
    ensures Located(d, decode).Err? ==> r == Err(Raise(Located(d, decode).error))
    ensures Located(d, decode).Ok? && ValidateRow(Located(d, decode).value).Err? ==>
      r == Ok(Reject(RowError(Located(d, decode).value, ValidateRow(Located(d, decode).value).error)))
    ensures Located(d, decode).Ok? && ValidateRow(Located(d, decode).value).Ok? ==>
      r == Ok(Accept(SiteOf(ValidateRow(Located(d, decode).value).value, now, reading)))
  {
    match Located(d, decode)
    case Err(f) => Err(Raise(f))
    case Ok(located) =>
      match ValidateRow(located)
      case Err(f) => Ok(Reject(RowError(located, f)))
      case Ok(input) =>
        var s := SiteOf(input, now, reading);
        assert !DecIsZero(s.lat) by { AbovePositive(LatMin, s.lat); }
        match ConstructStatic(s, [])
        case Err(f) => Err(Raise(f))
        case Ok(site) => Ok(Accept(site))
  }

  function Handler(now: DateTime, decode: JsonDecoder, reading: Reading): CsvRows.RowHandler {
    d => RowStep(d, now, decode, reading)
  }

  /** `handle_csv`, with `datetime.now()` passed in as `now` and `json.loads` as `decode`. */
  function HandleCsvSpec(rows: seq<seq<string>>, now: DateTime, decode: JsonDecoder, reading: Reading): Result<ImportSourceResult, Abort> {
    CsvRows.HandleCsvSpec(Info, HeaderTable, rows, Handler(now, decode, reading))
  }

  method HandleCsv(rows: seq<seq<string>>, now: DateTime, decode: JsonDecoder) returns (r: Result<ImportSourceResult, Abort>)
    ensures r == HandleCsvSpec(rows, now, decode, Corrected)
  {
    r := CsvRows.HandleCsv(Info, HeaderTable, rows, Handler(now, decode, Corrected));
  }

  // ---------------------------------------------------------- properties

  /** A GeoJSON point `[lon, lat]` puts its second number into `lat` and its first into `lon`, as text. */
  lemma PointCoordinates(d: Fields, decode: JsonDecoder, cell: string, fs: Fields, x: Decimal, y: Decimal, more: seq<Value>)
    requires Lookup(d, "location") == Some(Str(cell)) && decode(cell) == Ok(Obj(fs))
    requires Lookup(fs, "coordinates") == Some(List([Real(x), Real(y)] + more))
    ensures Located(d, decode).Ok?
    ensures Lookup(Located(d, decode).value, "lat") == Some(Str(DecimalToString(y)))
    ensures Lookup(Located(d, decode).value, "lon") == Some(Str(DecimalToString(x)))
  {
    assert ([Real(x), Real(y)] + more)[1] == Real(y);
  }

  /**
   * A row whose point lies inside the Neckar box and whose other cells
   * validate becomes a record at that point: the text written into the dict
   * reads back as the same decimal.
   */
  lemma AcceptedPosition(d: Fields, now: DateTime, decode: JsonDecoder, reading: Reading, cell: string, fs: Fields,
                         x: Decimal, y: Decimal, more: seq<Value>)
    requires Lookup(d, "location") == Some(Str(cell)) && decode(cell) == Ok(Obj(fs))
    requires Lookup(fs, "coordinates") == Some(List([Real(x), Real(y)] + more))
    requires ValidateRow(Located(d, decode).value).Ok?
    ensures RowStep(d, now, decode, reading).Ok? && RowStep(d, now, decode, reading).value.Accept?
    ensures RowStep(d, now, decode, reading).value.record.lat == y
    ensures RowStep(d, now, decode, reading).value.record.lon == x
  {
    PointCoordinates(d, decode, cell, fs, x, y, more);
    DecimalValidatorRoundTrip(y, Some(LatMin), Some(LatMax));
    DecimalValidatorRoundTrip(x, Some(LonMin), Some(LonMax));
  }

  /** A point with fewer than two numbers raises IndexError before the `try`: the whole call fails. */
  lemma ShortPointAborts(d: Fields, now: DateTime, decode: JsonDecoder, reading: Reading, cell: string, fs: Fields, x: Value)
    requires Lookup(d, "location") == Some(Str(cell)) && decode(cell) == Ok(Obj(fs))
    requires Lookup(fs, "coordinates") == Some(List([x]))
    ensures RowStep(d, now, decode, reading) == Err(Raise(Raised("IndexError", "list index out of range")))
  {
  }

  /** The address loses its line breaks; a fee is recorded exactly when a fee text is given. */
  lemma RecordText(input: RowInput, now: DateTime, reading: Reading)
    ensures '\n' !in SiteOf(input, now, reading).address.value
    ensures SiteOf(input, now, reading).hasFee == Some(|input.details.feeDescription| > 0)
  {
    ReplaceCharRemoves(input.identity.address, '\n', " ");
  }

  /** The read dict's keys are the declared field names, and `id` is not one of them. */
  lemma NoIdField()
    ensures "id" !in TableValues(HeaderTable)
  {
    var vs := TableValues(HeaderTable);
    forall j | 0 <= j < |vs| ensures vs[j] != "id" {
      assert vs[j] == HeaderTable[j].1;
    }
  }

  /** Every error of a converted file has no uid: the row's dict has no `id` entry. */
  lemma ErrorsHaveNoUid(rows: seq<seq<string>>, now: DateTime, decode: JsonDecoder, reading: Reading)
    requires HandleCsvSpec(rows, now, decode, reading).Ok?
    ensures forall e :: e in HandleCsvSpec(rows, now, decode, reading).value.staticErrors.value ==> e.uid == Null
  {
    forall e | e in HandleCsvSpec(rows, now, decode, reading).value.staticErrors.value ensures e.uid == Null {
      ErrorHasNoUid(rows, now, decode, reading, e);
    }
  }

  lemma ErrorHasNoUid(rows: seq<seq<string>>, now: DateTime, decode: JsonDecoder, reading: Reading, e: ImportException)
    requires HandleCsvSpec(rows, now, decode, reading).Ok? && e in HandleCsvSpec(rows, now, decode, reading).value.staticErrors.value
    ensures e.uid == Null
  {
    CsvRows.ErrorFromRow(Info, HeaderTable, rows, Handler(now, decode, reading), e);
    var i :| 1 <= i < |rows| && CsvRows.ReadData(Info, HeaderTable, rows, i).Ok?
             && Handler(now, decode, reading)(CsvRows.ReadData(Info, HeaderTable, rows, i).value) == Ok(Reject(e));
    var d := CsvRows.ReadData(Info, HeaderTable, rows, i).value;
    NoIdField();
    ReadRowOnlyFields(CsvMapping(Info.id, HeaderTable, rows[0]).value, TableValues(HeaderTable), rows[i], "id");
    RowErrorUid(d, now, decode, reading, e);
  }

  /** A rejected row's error carries the `id` entry of the dict before the position lines, which never add one. */
  lemma RowErrorUid(d: Fields, now: DateTime, decode: JsonDecoder, reading: Reading, e: ImportException)
    requires RowStep(d, now, decode, reading) == Ok(Reject(e))
    ensures e.uid == Get(d, "id")
  {
  }

  /** Every data row that gets past the position lines yields a record or an error: nothing is skipped. */
  lemma ConvertedRows(rows: seq<seq<string>>, now: DateTime, decode: JsonDecoder, reading: Reading)
    requires HandleCsvSpec(rows, now, decode, reading).Ok?
    ensures var r := HandleCsvSpec(rows, now, decode, reading).value;
      |r.staticInputs.value| + |r.staticErrors.value| == |rows| - 1
  {
    forall d: Fields | Handler(now, decode, reading)(d).Ok? ensures !Handler(now, decode, reading)(d).value.Skip? {
      assert Handler(now, decode, reading)(d) == RowStep(d, now, decode, reading);
    }
    CsvRows.RowCounts(Info, HeaderTable, rows, Handler(now, decode, reading));
  }

  /** As written, a properly spelled "durchgehend geöffnet" does not count as open around the clock. */
  lemma AsWrittenMissesAllDay(input: RowInput, now: DateTime)
    requires input.details.openingHours == "durchgehend geöffnet"
    ensures SiteOf(input, now, AsWritten).openingHours == None
  {
    assert "durchgehend geöffnet"[14] != AllDayText(AsWritten)[14];
  }

  /** Corrected, the phrase gives "24/7", and only that exact phrase does. */
  lemma CorrectedAllDay(input: RowInput, now: DateTime)
    ensures SiteOf(input, now, Corrected).openingHours == Some("24/7") <==> input.details.openingHours == "durchgehend geöffnet"
  {
  }
}
