/**
 * The normalised input records of common/validators: the static and the
 * realtime parking site, their enums, the dict validation that produces
 * them (base schema and spreadsheet schema), their direct construction,
 * their projection onto the legacy `LotInfo`/`LotData` pair, and the
 * spreadsheet opening-time record with its OSM `opening_hours` rendering.
 */
module SiteInputs {
  import opened Wrappers
  import opened Text
  import opened Values
  import opened FieldValidators
  import opened LegacyStructs

  // ------------------------------------------------------------------ enums

  datatype ParkingSiteType = OnStreet | OffStreetParkingGround | Underground | CarPark | Other

  /** The enum member's value string, which `EnumValidator` matches. */
  function ParkingSiteTypeName(t: ParkingSiteType): string {
    match t
    case OnStreet => "ON_STREET"
    case OffStreetParkingGround => "OFF_STREET_PARKING_GROUND"
    case Underground => "UNDERGROUND"
    case CarPark => "CAR_PARK"
    case Other => "OTHER"
  }

  function ParseParkingSiteType(s: string): (r: Option<ParkingSiteType>)
    ensures r.Some? ==> ParkingSiteTypeName(r.value) == s
    ensures r.None? ==> forall t :: ParkingSiteTypeName(t) != s
  {
    if s == "ON_STREET" then Some(OnStreet)
    else if s == "OFF_STREET_PARKING_GROUND" then Some(OffStreetParkingGround)
    else if s == "UNDERGROUND" then Some(Underground)
    else if s == "CAR_PARK" then Some(CarPark)
    else if s == "OTHER" then Some(Other)
    else None
  }

  /** Exactly the five value strings parse, each to its own member. */
  lemma ParkingSiteTypeParseIff(s: string, t: ParkingSiteType)
    ensures ParseParkingSiteType(s) == Some(t) <==> s == ParkingSiteTypeName(t)
  {
  }

  /** `to_lot_info_type`: the legacy type string of each site type. */
  function ToLotInfoType(t: ParkingSiteType): (r: string)
    ensures r in LotTypes
    ensures r == "unknown" <==> t == Other
    ensures t == OnStreet ==> r == "street"
    ensures t == OffStreetParkingGround ==> r == "lot"
    ensures t == Underground ==> r == "underground"
    ensures t == CarPark ==> r == "garage"
    ensures t == Other ==> r == "unknown"
  {
    match t
    case OnStreet => "street"
    case OffStreetParkingGround => "lot"
    case Underground => "underground"
    case CarPark => "garage"
    case Other => "unknown"
  }

  /** Distinct site types keep distinct legacy types. */
  lemma ToLotInfoTypeInjective(a: ParkingSiteType, b: ParkingSiteType)
    ensures ToLotInfoType(a) == ToLotInfoType(b) <==> a == b
  {
  }

  datatype ParkAndRideType = Carpool | Train | Bus | Tram

  function ParkAndRideTypeName(t: ParkAndRideType): string {
    match t
    case Carpool => "CARPOOL"
    case Train => "TRAIN"
    case Bus => "BUS"
    case Tram => "TRAM"
  }

  function ParseParkAndRideType(s: string): (r: Option<ParkAndRideType>)
    ensures r.Some? ==> ParkAndRideTypeName(r.value) == s
    ensures r.None? ==> forall t :: ParkAndRideTypeName(t) != s
  {
    if s == "CARPOOL" then Some(Carpool)
    else if s == "TRAIN" then Some(Train)
    else if s == "BUS" then Some(Bus)
    else if s == "TRAM" then Some(Tram)
    else None
  }

  datatype OpeningStatus = Open | Closed | Unknown

  function OpeningStatusName(t: OpeningStatus): string {
    match t
    case Open => "OPEN"
    case Closed => "CLOSED"
    case Unknown => "UNKNOWN"
  }

  function ParseOpeningStatus(s: string): (r: Option<OpeningStatus>)
    ensures r.Some? ==> OpeningStatusName(r.value) == s
    ensures r.None? ==> forall t :: OpeningStatusName(t) != s
  {
    if s == "OPEN" then Some(Open)
    else if s == "CLOSED" then Some(Closed)
    else if s == "UNKNOWN" then Some(Unknown)
    else None
  }

  /** `to_lot_data_status`: a status the legacy `LotData` accepts, and a different one per member. */
  function ToLotDataStatus(t: OpeningStatus): (r: string)
    ensures r in LotStatuses
    ensures t == Open ==> r == "open"
    ensures t == Closed ==> r == "closed"
    ensures t == Unknown ==> r == "unknown"
  {
    match t
    case Open => "open"
    case Closed => "closed"
    case Unknown => "unknown"
  }

  /** Distinct statuses keep distinct legacy statuses, so nothing is merged on the way to `LotData`. */
  lemma ToLotDataStatusInjective(a: OpeningStatus, b: OpeningStatus)
    ensures ToLotDataStatus(a) == ToLotDataStatus(b) <==> a == b
  {
  }

  /** A status given by its value string reaches `LotData` as the lower-case form of that string. */
  lemma OpeningStatusLowered(s: string)
    ensures ParseOpeningStatus(s).Some? ==> ToLotDataStatus(ParseOpeningStatus(s).value) == Lower(s)
  {
  }

  // ---------------------------------------------------------------- records

  /** The eight capacity fields, by vehicle group; the same shape serves totals and free counts. */
  datatype Capacities = Capacities(
    total: Option<int>, disabled: Option<int>, woman: Option<int>, family: Option<int>,
    charging: Option<int>, carsharing: Option<int>, truck: Option<int>, bus: Option<int>)

  const NoCapacities := Capacities(None, None, None, None, None, None, None, None)

  datatype StaticParkingSiteInput = StaticParkingSiteInput(
    uid: string, name: string, operatorName: Option<string>, publicUrl: Option<string>,
    address: Option<string>, description: Option<string>, siteType: Option<ParkingSiteType>,
    maxStay: Option<int>, hasLighting: Option<bool>, feeDescription: Option<string>, hasFee: Option<bool>,
    parkAndRideType: Option<seq<ParkAndRideType>>, isSupervised: Option<bool>, hasRealtimeData: bool,
    staticDataUpdatedAt: DateTime, lat: Decimal, lon: Decimal, capacities: Capacities,
    openingHours: Option<string>)

  datatype RealtimeParkingSiteInput = RealtimeParkingSiteInput(
    uid: string, realtimeDataUpdatedAt: DateTime, openingStatus: OpeningStatus,
    capacities: Capacities, freeCapacities: Capacities)

  // --------------------------------------------------------- field handling

  /** A field error names the field; an exception escaping a validator is not a validation error and passes as is. */
  function Label<T>(key: string, r: Result<T, Fault>): (l: Result<T, Fault>)
    ensures l.Ok? <==> r.Ok?
    ensures l.Ok? ==> l.value == r.value
    ensures r.Err? && r.error.Raised? ==> l == r
    ensures r.Err? && r.error.Invalid? ==> l == Err(Invalid(r.error.code, key))
  {
    if r.Err? && r.error.Invalid? then Err(Invalid(r.error.code, key)) else r
  }

  /**
   * One dataclass field: a missing key takes the `Default(...)` if there is
   * one and is otherwise reported as required; a present value goes through
   * the field's validator.
   */
  function Field<T>(d: Fields, key: string, validate: Value -> Result<T, Fault>, default: Option<T>): (r: Result<T, Fault>)
    ensures Lookup(d, key).None? && default.Some? ==> r == Ok(default.value)
    ensures Lookup(d, key).None? && default.None? ==> r == Err(Invalid("field_required", key))
    ensures Lookup(d, key).Some? ==> r == Label(key, validate(Lookup(d, key).value))
  {
    match Lookup(d, key)
    case None => if default.Some? then Ok(default.value) else Err(Invalid("field_required", key))
    case Some(v) => Label(key, validate(v))
  }

  function SomeOf<T>(r: Result<T, Fault>): (s: Result<Option<T>, Fault>)
    ensures s.Ok? <==> r.Ok?
    ensures s.Ok? ==> s.value == Some(r.value)
    ensures s.Err? ==> s.error == r.error
  {
    if r.Ok? then Ok(Some(r.value)) else Err(r.error)
  }

  /** `StringValidator()`: any single-line str. */
  function PlainText(v: Value): Result<string, Fault> { ValidateString(v, 0, None, false) }

  /** `NumericValidator()` without bounds: an int or a float, as a decimal. */
  function Number(v: Value): (r: Result<Decimal, Fault>)
    ensures r.Ok? <==> v.Int? || v.Real?
    ensures v.Int? ==> r == Ok(DecOfInt(v.i))
    ensures v.Real? ==> r == Ok(v.d)
    ensures r.Err? ==> r.error.Invalid?
  {
    if v.Int? then Ok(DecOfInt(v.i))
    else if v.Real? then Ok(v.d)
    else Err(Invalid("invalid_type", "number expected"))
  }

  /** `DataclassValidator(cls)` as a field: the value must be a dict, validated by the class's fields. */
  function Nested<T>(v: Value, validate: Fields -> Result<T, Fault>): (r: Result<T, Fault>)
    ensures !v.Obj? ==> r == Err(Invalid("invalid_type", "dict expected"))
    ensures v.Obj? ==> r == validate(v.fields)
  {
    if v.Obj? then validate(v.fields) else Err(Invalid("invalid_type", "dict expected"))
  }

  /** `Noneable(validator)` without a default: the key is required, but may hold None. */
  function OptionalOf<T>(v: Value, validate: Value -> Result<T, Fault>): (r: Result<Option<T>, Fault>)
    ensures v.Null? ==> r == Ok(None)
    ensures !v.Null? ==> r.Ok? == validate(v).Ok?
    ensures !v.Null? && r.Ok? ==> r.value == Some(validate(v).value)
  {
    ValidateNoneable(v, w => SomeOf(validate(w)), None)
  }

  predicate TextOk(s: Option<string>, maxLength: nat) { s.Some? ==> |s.value| <= maxLength }
  predicate CountOk(c: Option<int>) { c.Some? ==> 0 <= c.value <= INT32_MAX }

  /** `Noneable(StringValidator(max_length=n)), Default(None)`. */
  function OptTextField(d: Fields, key: string, maxLength: nat): (r: Result<Option<string>, Fault>)
    ensures r.Ok? ==> TextOk(r.value, maxLength)
    ensures Lookup(d, key).None? ==> r == Ok(None)
    ensures Lookup(d, key) == Some(Null) ==> r == Ok(None)
    ensures r.Ok? && r.value.Some? ==> Lookup(d, key) == Some(Str(r.value.value))
  {
    Field(d, key, v => ValidateNoneable(v, w => SomeOf(ValidateString(w, 0, Some(maxLength), false)), None), Some(None))
  }

  /** `Noneable(IntegerValidator(min_value=0)), Default(None)`; the upper bound is the validator's 32-bit default. */
  function CountField(d: Fields, key: string): (r: Result<Option<int>, Fault>)
    ensures r.Ok? ==> CountOk(r.value)
    ensures Lookup(d, key).None? ==> r == Ok(None)
    ensures r.Ok? && r.value.Some? ==> Lookup(d, key) == Some(Int(r.value.value))
    ensures forall n :: Lookup(d, key) == Some(Int(n)) && r.Ok? ==> r.value == Some(n)
  {
    Field(d, key, v => ValidateNoneable(v, w => SomeOf(ValidateInteger(w, 0, INT32_MAX, false)), None), Some(None))
  }

  /** The keys of the eight capacity fields of one kind, in declaration order. */
  const StaticCapacityKeys: seq<string> := ["capacity", "capacity_disabled", "capacity_woman", "capacity_family",
    "capacity_charging", "capacity_carsharing", "capacity_truck", "capacity_bus"]
  const RealtimeCapacityKeys: seq<string> := ["realtime_capacity", "realtime_capacity_disabled",
    "realtime_capacity_woman", "realtime_capacity_family", "realtime_capacity_charging",
    "realtime_capacity_carsharing", "realtime_capacity_truck", "realtime_capacity_bus"]
  const RealtimeFreeCapacityKeys: seq<string> := ["realtime_free_capacity", "realtime_free_capacity_disabled",
    "realtime_free_capacity_woman", "realtime_free_capacity_family", "realtime_free_capacity_charging",
    "realtime_free_capacity_carsharing", "realtime_free_capacity_truck", "realtime_free_capacity_bus"]

  predicate CapacitiesOk(c: Capacities) {
    CountOk(c.total) && CountOk(c.disabled) && CountOk(c.woman) && CountOk(c.family)
    && CountOk(c.charging) && CountOk(c.carsharing) && CountOk(c.truck) && CountOk(c.bus)
  }

  /** The eight capacity fields named by `keys`, validated in order. */
  function CapacitiesField(d: Fields, keys: seq<string>): (r: Result<Capacities, Fault>)
    requires |keys| == 8
    ensures r.Ok? ==> CapacitiesOk(r.value)
    ensures (forall i :: 0 <= i < 8 ==> Lookup(d, keys[i]).None?) ==> r == Ok(NoCapacities)
    ensures r.Ok? ==> CountField(d, keys[0]) == Ok(r.value.total)
  {
    var total :- CountField(d, keys[0]);
    var disabled :- CountField(d, keys[1]);
    var woman :- CountField(d, keys[2]);
    var family :- CountField(d, keys[3]);
    var charging :- CountField(d, keys[4]);
    var carsharing :- CountField(d, keys[5]);
    var truck :- CountField(d, keys[6]);
    var bus :- CountField(d, keys[7]);
    Ok(Capacities(total, disabled, woman, family, charging, carsharing, truck, bus))
  }

  /** `ListValidator(EnumValidator(...))` over the items of a list. */
  function EnumItems<T>(items: seq<Value>, parse: string -> Option<T>): (r: Result<seq<T>, Fault>)
    ensures r.Ok? ==> |r.value| == |items|
    ensures r.Ok? ==> forall i :: 0 <= i < |items| ==> ValidateEnum(items[i], parse) == Ok(r.value[i])
    ensures r.Err? ==> r.error.Invalid?
    ensures (forall i :: 0 <= i < |items| ==> ValidateEnum(items[i], parse).Ok?) ==> r.Ok?
  {
    if |items| == 0 then Ok([])
    else
      var head :- ValidateEnum(items[0], parse);
      var tail :- EnumItems(items[1..], parse);
      Ok([head] + tail)
  }

  function ValidateParkAndRide(v: Value): (r: Result<Option<seq<ParkAndRideType>>, Fault>)
    ensures v.Null? ==> r == Ok(None)
    ensures !v.Null? && !v.List? ==> r.Err?
    ensures r.Err? ==> r.error.Invalid?
    ensures v.List? && r.Ok? ==>
      && r.value.Some? && |r.value.value| == |v.items|
      && forall i :: 0 <= i < |v.items| ==> ValidateEnum(v.items[i], ParseParkAndRideType) == Ok(r.value.value[i])
    ensures v.List? && (forall i :: 0 <= i < |v.items| ==> ValidateEnum(v.items[i], ParseParkAndRideType).Ok?) ==> r.Ok?
  {
    if v.Null? then Ok(None)
    else if !v.List? then Err(Invalid("invalid_type", "list expected"))
    else SomeOf(EnumItems(v.items, ParseParkAndRideType))
  }

  // --------------------------------------------------------------- schemas

  /** The base schema and its spreadsheet subclass, which swaps six field validators. */
  datatype Schema = Base | Excel

  /** The closed ranges the coordinate validators admit. */
  datatype Bounds = Bounds(latMin: Decimal, latMax: Decimal, lonMin: Decimal, lonMax: Decimal)

  /** The bounds as declared: `min_value=90, max_value=90` and `min_value=180, max_value=180`. */
  const AsWrittenBounds := Bounds(DecOfInt(90), DecOfInt(90), DecOfInt(180), DecOfInt(180))
  /** The geographic ranges the declaration evidently meant. */
  const GeoBounds := Bounds(DecOfInt(-90), DecOfInt(90), DecOfInt(-180), DecOfInt(180))

  predicate InRange(x: Decimal, lo: Decimal, hi: Decimal) { DecLe(lo, x) && DecLe(x, hi) }

  function UidField(d: Fields, schema: Schema): (r: Result<string, Fault>)
    ensures r.Ok? ==> 1 <= |r.value| <= 256
  {
    match schema
    case Base => Field(d, "uid", v => ValidateString(v, 1, Some(256), false), None)
    case Excel => Field(d, "uid", v => ValidateNumberCastingString(v, 1, Some(256)), None)
  }

  /**
   * `has_lighting`, `has_fee`, `is_supervised`: optional strict booleans, or
   * spreadsheet booleans. The spreadsheet override replaces only the
   * validator, so the field keeps its inherited `Default(None)`.
   */
  function FlagField(d: Fields, key: string, schema: Schema): (r: Result<Option<bool>, Fault>)
    ensures Lookup(d, key).None? ==> r == Ok(None)
    ensures schema == Excel && Lookup(d, key).Some? && IsBlank(Lookup(d, key).value) ==> r == Ok(None)
  {
    match schema
    case Base => Field(d, key, v => ValidateNoneable(v, w => SomeOf(ValidateStrictBool(w)), None), Some(None))
    case Excel => Field(d, key, v => ValidateExcelNoneable(v, w => SomeOf(ValidateExtendedBoolean(w)), None), Some(None))
  }

  /** `has_realtime_data`: a boolean defaulting to False, in both schemas, since the override keeps the `Default(False)`. */
  function RealtimeFlagField(d: Fields, schema: Schema): (r: Result<bool, Fault>)
    ensures Lookup(d, "has_realtime_data").None? ==> r == Ok(false)
    ensures Lookup(d, "has_realtime_data") == Some(Null) ==> r == Ok(false)
    ensures schema == Base && Lookup(d, "has_realtime_data") == Some(Bool(true)) ==> r == Ok(true)
  {
    match schema
    case Base => Field(d, "has_realtime_data", v => ValidateNoneable(v, ValidateStrictBool, false), Some(false))
    case Excel => Field(d, "has_realtime_data", v => ValidateExcelNoneable(v, ValidateExtendedBoolean, false), Some(false))
  }

  /** `max_stay` in seconds: a non-negative integer, or in the spreadsheet a German duration phrase or any 32-bit integer. */
  function MaxStayField(d: Fields, schema: Schema): (r: Result<Option<int>, Fault>)
    ensures Lookup(d, "max_stay").None? ==> r == Ok(None)
    ensures schema == Base ==> r.Ok? ==> CountOk(r.value)
    ensures r.Err? ==> r.error.Invalid?
  {
    match schema
    case Base => Field(d, "max_stay", v => ValidateNoneable(v, w => SomeOf(ValidateInteger(w, 0, INT32_MAX, false)), None), Some(None))
    case Excel => Field(d, "max_stay", v => ValidateExcelNoneable(v, w => SomeOf(ValidateGermanDuration(w)), None), Some(None))
  }

  /** The dict holds `x` at `key`, as an int or as a decimal. */
  predicate NumberAt(d: Fields, key: string, x: Decimal) {
    Lookup(d, key).Some? &&
    var v := Lookup(d, key).value; (v.Int? && x == DecOfInt(v.i)) || (v.Real? && x == v.d)
  }

  function CoordinateField(d: Fields, key: string, lo: Decimal, hi: Decimal): (r: Result<Decimal, Fault>)
    ensures r.Ok? ==> InRange(r.value, lo, hi)
    ensures r.Ok? ==> NumberAt(d, key, r.value)
    ensures Lookup(d, key).Some? && Lookup(d, key).value.Real? && InRange(Lookup(d, key).value.d, lo, hi) ==>
      r == Ok(Lookup(d, key).value.d)
  {
    Field(d, key, v => ValidateNumeric(v, lo, hi), None)
  }

  function NameField(d: Fields): (r: Result<string, Fault>)
    ensures r.Ok? ==> 1 <= |r.value| <= 256 && Lookup(d, "name") == Some(Str(r.value))
  {
    Field(d, "name", v => ValidateString(v, 1, Some(256), false), None)
  }

  function SiteTypeField(d: Fields): (r: Result<Option<ParkingSiteType>, Fault>)
    ensures Lookup(d, "type").None? ==> r == Ok(None)
    ensures r.Ok? && r.value.Some? ==> Lookup(d, "type") == Some(Str(ParkingSiteTypeName(r.value.value)))
  {
    Field(d, "type", v => ValidateNoneable(v, w => SomeOf(ValidateEnum(w, ParseParkingSiteType)), None), Some(None))
  }

  /** A required datetime field; the result is always aware. */
  function MomentField(d: Fields, key: string): (r: Result<DateTime, Fault>)
    ensures r.Ok? ==> r.value.offset == Some(0) && Lookup(d, key).Some?
    ensures Lookup(d, key).None? ==> r == Err(Invalid("field_required", key))
  {
    Field(d, key, ValidateDateTime, None)
  }

  /** What every validated static record satisfies. */
  predicate ValidStatic(s: StaticParkingSiteInput, schema: Schema, bounds: Bounds) {
    && 1 <= |s.uid| <= 256 && 1 <= |s.name| <= 256
    && TextOk(s.operatorName, 256) && TextOk(s.publicUrl, 4096) && TextOk(s.address, 512)
    && TextOk(s.description, 4096) && TextOk(s.feeDescription, 256) && TextOk(s.openingHours, 512)
    && (schema == Base ==> CountOk(s.maxStay))
    && s.staticDataUpdatedAt.offset == Some(0)
    && InRange(s.lat, bounds.latMin, bounds.latMax) && InRange(s.lon, bounds.lonMin, bounds.lonMax)
    && CapacitiesOk(s.capacities)
    && !(DecIsZero(s.lat) && DecIsZero(s.lon))
  }

  /** `__post_init__`: a site at (0, 0) is refused. */
  function PostInit(s: StaticParkingSiteInput): (r: Result<StaticParkingSiteInput, Fault>)
    ensures r.Ok? <==> !(DecIsZero(s.lat) && DecIsZero(s.lon))
    ensures r.Ok? ==> r.value == s
    ensures r.Err? ==> r.error == Invalid("lat_lon_zero", "Latitude and longitude are both zero.")
  {
    if DecIsZero(s.lat) && DecIsZero(s.lon) then Err(Invalid("lat_lon_zero", "Latitude and longitude are both zero."))
    else Ok(s)
  }

  /** The fields `uid` to `type`, the first block of the declaration. */
  datatype DescriptionBlock = DescriptionBlock(
    uid: string, name: string, operatorName: Option<string>, publicUrl: Option<string>,
    address: Option<string>, description: Option<string>, siteType: Option<ParkingSiteType>)

  /** The fields `max_stay` to `is_supervised`. */
  datatype FacilityBlock = FacilityBlock(
    maxStay: Option<int>, hasLighting: Option<bool>, feeDescription: Option<string>, hasFee: Option<bool>,
    parkAndRideType: Option<seq<ParkAndRideType>>, isSupervised: Option<bool>)

  /** The fields `has_realtime_data` to `lon`. */
  datatype PositionBlock = PositionBlock(hasRealtimeData: bool, updatedAt: DateTime, lat: Decimal, lon: Decimal)

  function DescriptionFields(f: Fields, schema: Schema): (r: Result<DescriptionBlock, Fault>)
    ensures r.Ok? ==> 1 <= |r.value.uid| <= 256 && 1 <= |r.value.name| <= 256
    ensures r.Ok? ==> TextOk(r.value.operatorName, 256) && TextOk(r.value.publicUrl, 4096)
                      && TextOk(r.value.address, 512) && TextOk(r.value.description, 4096)
    ensures r.Ok? ==> Lookup(f, "name") == Some(Str(r.value.name))
  {
    var uid :- UidField(f, schema);
    var name :- NameField(f);
    var operatorName :- OptTextField(f, "operator_name", 256);
    var publicUrl :- OptTextField(f, "public_url", 4096);
    var address :- OptTextField(f, "address", 512);
    var description :- OptTextField(f, "description", 4096);
    var siteType :- SiteTypeField(f);
    Ok(DescriptionBlock(uid, name, operatorName, publicUrl, address, description, siteType))
  }

  function FacilityFields(f: Fields, schema: Schema): (r: Result<FacilityBlock, Fault>)
    ensures r.Ok? ==> TextOk(r.value.feeDescription, 256)
    ensures r.Ok? && schema == Base ==> CountOk(r.value.maxStay)
    ensures r.Ok? && Lookup(f, "has_lighting").None? ==> r.value.hasLighting.None?
    ensures r.Ok? && Lookup(f, "has_fee").None? ==> r.value.hasFee.None?
    ensures r.Ok? && Lookup(f, "is_supervised").None? ==> r.value.isSupervised.None?
  {
    var maxStay :- MaxStayField(f, schema);
    var hasLighting :- FlagField(f, "has_lighting", schema);
    var feeDescription :- OptTextField(f, "fee_description", 256);
    var hasFee :- FlagField(f, "has_fee", schema);
    var parkAndRide :- Field(f, "park_and_ride_type", ValidateParkAndRide, Some(None));
    var isSupervised :- FlagField(f, "is_supervised", schema);
    Ok(FacilityBlock(maxStay, hasLighting, feeDescription, hasFee, parkAndRide, isSupervised))
  }

  function PositionFields(f: Fields, schema: Schema, bounds: Bounds): (r: Result<PositionBlock, Fault>)
    ensures r.Ok? ==> r.value.updatedAt.offset == Some(0)
    ensures r.Ok? && Lookup(f, "has_realtime_data").None? ==> !r.value.hasRealtimeData
    ensures r.Ok? && schema == Base && Lookup(f, "has_realtime_data") == Some(Bool(true)) ==> r.value.hasRealtimeData
    ensures r.Ok? ==> InRange(r.value.lat, bounds.latMin, bounds.latMax) && NumberAt(f, "lat", r.value.lat)
    ensures r.Ok? ==> InRange(r.value.lon, bounds.lonMin, bounds.lonMax) && NumberAt(f, "lon", r.value.lon)
  {
    var hasRealtimeData :- RealtimeFlagField(f, schema);
    var updatedAt :- MomentField(f, "static_data_updated_at");
    var lat :- CoordinateField(f, "lat", bounds.latMin, bounds.latMax);
    var lon :- CoordinateField(f, "lon", bounds.lonMin, bounds.lonMax);
    Ok(PositionBlock(hasRealtimeData, updatedAt, lat, lon))
  }

  /**
   * The dataclass validator on a dict: fields in declaration order, block by
   * block, unknown keys ignored, the first failing field reported, then
   * `__post_init__`.
   */
  function ValidateStaticWith(d: Value, schema: Schema, bounds: Bounds): (r: Result<StaticParkingSiteInput, Fault>)
    ensures r.Ok? ==> d.Obj? && ValidStatic(r.value, schema, bounds)
    ensures r.Ok? ==> NumberAt(d.fields, "lat", r.value.lat) && NumberAt(d.fields, "lon", r.value.lon)
    ensures r.Ok? ==> Lookup(d.fields, "name") == Some(Str(r.value.name))
    ensures r.Ok? && schema == Base && Lookup(d.fields, "has_realtime_data") == Some(Bool(true)) ==> r.value.hasRealtimeData
    ensures r.Ok? ==> d.Obj? && (Lookup(d.fields, "has_lighting").None? ==> r.value.hasLighting.None?)
                              && (Lookup(d.fields, "has_fee").None? ==> r.value.hasFee.None?)
                              && (Lookup(d.fields, "is_supervised").None? ==> r.value.isSupervised.None?)
                              && (Lookup(d.fields, "has_realtime_data").None? ==> !r.value.hasRealtimeData)
  {
    if !d.Obj? then Err(Invalid("invalid_type", "dict expected"))
    else
      var f := d.fields;
      var a :- DescriptionFields(f, schema);
      var b :- FacilityFields(f, schema);
      var c :- PositionFields(f, schema, bounds);
      var capacities :- CapacitiesField(f, StaticCapacityKeys);
      var openingHours :- OptTextField(f, "opening_hours", 512);
      PostInit(StaticParkingSiteInput(
        a.uid, a.name, a.operatorName, a.publicUrl, a.address, a.description, a.siteType,
        b.maxStay, b.hasLighting, b.feeDescription, b.hasFee, b.parkAndRideType, b.isSupervised,
        c.hasRealtimeData, c.updatedAt, c.lat, c.lon, capacities, openingHours))
  }

  /** `StaticParkingSiteInput` as declared, with the coordinate bounds as written. */
  function ValidateStaticAsWritten(d: Value): (r: Result<StaticParkingSiteInput, Fault>)
    ensures r.Ok? ==> ValidStatic(r.value, Base, AsWrittenBounds)
  {
    ValidateStaticWith(d, Base, AsWrittenBounds)
  }

  /** `StaticParkingSiteInput` with geographic coordinate bounds. */
  function ValidateStatic(d: Value): (r: Result<StaticParkingSiteInput, Fault>)
    ensures r.Ok? ==> ValidStatic(r.value, Base, GeoBounds)
  {
    ValidateStaticWith(d, Base, GeoBounds)
  }

  /**
   * `ExcelStaticParkingSiteInput` with geographic coordinate bounds. Its four
   * boolean columns keep the defaults of the base schema: a dict without one
   * of them reads it as unset, and `has_realtime_data` as False.
   */
  function ValidateExcelStatic(d: Value): (r: Result<StaticParkingSiteInput, Fault>)
    ensures r.Ok? ==> ValidStatic(r.value, Excel, GeoBounds)
    ensures r.Ok? ==> d.Obj? && (Lookup(d.fields, "has_lighting").None? ==> r.value.hasLighting.None?)
                              && (Lookup(d.fields, "has_fee").None? ==> r.value.hasFee.None?)
                              && (Lookup(d.fields, "is_supervised").None? ==> r.value.isSupervised.None?)
                              && (Lookup(d.fields, "has_realtime_data").None? ==> !r.value.hasRealtimeData)
  {
    ValidateStaticWith(d, Excel, GeoBounds)
  }

  /** The four boolean columns of the spreadsheet schema. */
  predicate IsFlagKey(k: string) {
    k == "has_lighting" || k == "has_fee" || k == "is_supervised" || k == "has_realtime_data"
  }

  /** At flag `k`, `g` holds what `d` holds, or a blank cell where `d` has none. */
  predicate SameFlag(d: Fields, g: Fields, k: string) {
    Lookup(g, k) == Lookup(d, k) || (Lookup(d, k).None? && Lookup(g, k) == Some(Null))
  }

  /** `g` agrees with `d` on every key, except that a flag absent from `d` may be a blank cell in `g`. */
  ghost predicate AgreeAsBlank(d: Fields, g: Fields) {
    && (forall key | !IsFlagKey(key) :: Lookup(g, key) == Lookup(d, key))
    && (forall key | IsFlagKey(key) :: SameFlag(d, g, key))
  }

  /**
   * The spreadsheet schema reads a missing flag column exactly as a blank
   * cell: a dict without `k` validates as the same dict with `k` set to None.
   */
  lemma AbsentFlagAsBlank(d: Fields, k: string)
    requires IsFlagKey(k) && !HasKey(d, k)
    ensures ValidateExcelStatic(Obj(d)) == ValidateExcelStatic(Obj(Put(d, k, Null)))
  {
    var g := Put(d, k, Null);
    forall key ensures Lookup(g, key) == if key == k then Some(Null) else Lookup(d, key) {
      LookupPut(d, k, Null, key);
    }
    AgreeingSame(d, g);
  }

  /** Two dicts that agree but for blank flag cells validate alike. */
  lemma AgreeingSame(d: Fields, g: Fields)
    requires AgreeAsBlank(d, g)
    ensures ValidateExcelStatic(Obj(d)) == ValidateExcelStatic(Obj(g))
  {
    BlankedDescription(d, g);
    BlankedFacilities(d, g);
    BlankedPosition(d, g);
    BlankedCapacities(d, g);
    SameStatic(d, g);
  }

  /** The spreadsheet schema reads a dict block by block. */
  lemma SameStatic(d: Fields, g: Fields)
    requires DescriptionFields(g, Excel) == DescriptionFields(d, Excel)
    requires FacilityFields(g, Excel) == FacilityFields(d, Excel)
    requires PositionFields(g, Excel, GeoBounds) == PositionFields(d, Excel, GeoBounds)
    requires CapacitiesField(g, StaticCapacityKeys) == CapacitiesField(d, StaticCapacityKeys)
    requires OptTextField(g, "opening_hours", 512) == OptTextField(d, "opening_hours", 512)
    ensures ValidateExcelStatic(Obj(d)) == ValidateExcelStatic(Obj(g))
  {
    var a, b, c := DescriptionFields(d, Excel), FacilityFields(d, Excel), PositionFields(d, Excel, GeoBounds);
    var e, h := CapacitiesField(d, StaticCapacityKeys), OptTextField(d, "opening_hours", 512);
    assert ValidateExcelStatic(Obj(d)) == ValidateStaticWith(Obj(d), Excel, GeoBounds);
    assert ValidateExcelStatic(Obj(g)) == ValidateStaticWith(Obj(g), Excel, GeoBounds);
  }

  // The other keys the schema reads are not flags.

  lemma DescriptionKeysNotFlags()
    ensures !IsFlagKey("uid") && !IsFlagKey("name") && !IsFlagKey("operator_name") && !IsFlagKey("public_url")
    ensures !IsFlagKey("address") && !IsFlagKey("description") && !IsFlagKey("type")
  {
  }

  lemma FacilityKeysNotFlags()
    ensures !IsFlagKey("max_stay") && !IsFlagKey("fee_description") && !IsFlagKey("park_and_ride_type")
  {
  }

  lemma PositionKeysNotFlags()
    ensures !IsFlagKey("static_data_updated_at") && !IsFlagKey("lat") && !IsFlagKey("lon") && !IsFlagKey("opening_hours")
  {
  }

  lemma BlankedDescription(d: Fields, g: Fields)
    requires AgreeAsBlank(d, g)
    ensures DescriptionFields(g, Excel) == DescriptionFields(d, Excel)
  {
    DescriptionKeysNotFlags();
    SameUid(d, g);
    SameName(d, g);
    SameText(d, g, "operator_name", 256);
    SameText(d, g, "public_url", 4096);
    SameText(d, g, "address", 512);
    SameText(d, g, "description", 4096);
    SameSiteType(d, g);
  }

  lemma BlankedFacilities(d: Fields, g: Fields)
    requires AgreeAsBlank(d, g)
    ensures FacilityFields(g, Excel) == FacilityFields(d, Excel)
  {
    FacilityKeysNotFlags();
    SameMaxStay(d, g);
    SameFlagField(d, g, "has_lighting");
    SameText(d, g, "fee_description", 256);
    SameFlagField(d, g, "has_fee");
    SameParkAndRide(d, g);
    SameFlagField(d, g, "is_supervised");
    SameFacilities(d, g);
  }

  /** The facility block reads its six fields. */
  lemma SameFacilities(d: Fields, g: Fields)
    requires MaxStayField(g, Excel) == MaxStayField(d, Excel)
    requires FlagField(g, "has_lighting", Excel) == FlagField(d, "has_lighting", Excel)
    requires OptTextField(g, "fee_description", 256) == OptTextField(d, "fee_description", 256)
    requires FlagField(g, "has_fee", Excel) == FlagField(d, "has_fee", Excel)
    requires Field(g, "park_and_ride_type", ValidateParkAndRide, Some(None)) == Field(d, "park_and_ride_type", ValidateParkAndRide, Some(None))
    requires FlagField(g, "is_supervised", Excel) == FlagField(d, "is_supervised", Excel)
    ensures FacilityFields(g, Excel) == FacilityFields(d, Excel)
  {
    var a0, a1, a2 := MaxStayField(d, Excel), FlagField(d, "has_lighting", Excel), OptTextField(d, "fee_description", 256);
    var a3, a4 := FlagField(d, "has_fee", Excel), Field(d, "park_and_ride_type", ValidateParkAndRide, Some(None));
    var a5 := FlagField(d, "is_supervised", Excel);
  }

  lemma BlankedPosition(d: Fields, g: Fields)
    requires AgreeAsBlank(d, g)
    ensures PositionFields(g, Excel, GeoBounds) == PositionFields(d, Excel, GeoBounds)
    ensures OptTextField(g, "opening_hours", 512) == OptTextField(d, "opening_hours", 512)
  {
    PositionKeysNotFlags();
    SameText(d, g, "opening_hours", 512);
    SameRealtimeFlag(d, g);
    SameMoment(d, g, "static_data_updated_at");
    SameCoordinate(d, g, "lat", GeoBounds.latMin, GeoBounds.latMax);
    SameCoordinate(d, g, "lon", GeoBounds.lonMin, GeoBounds.lonMax);
  }

  lemma BlankedCapacities(d: Fields, g: Fields)
    requires AgreeAsBlank(d, g)
    ensures CapacitiesField(g, StaticCapacityKeys) == CapacitiesField(d, StaticCapacityKeys)
  {
    forall i | 0 <= i < 8 ensures CountField(g, StaticCapacityKeys[i]) == CountField(d, StaticCapacityKeys[i]) {
      assert !IsFlagKey(StaticCapacityKeys[i]);
      SameCount(d, g, StaticCapacityKeys[i]);
    }
    SameCapacities(d, g, StaticCapacityKeys);
  }

  /** The capacity block reads only its eight counts. */
  lemma SameCapacities(d: Fields, g: Fields, keys: seq<string>)
    requires |keys| == 8
    requires forall i | 0 <= i < 8 :: CountField(g, keys[i]) == CountField(d, keys[i])
    ensures CapacitiesField(g, keys) == CapacitiesField(d, keys)
  {
    var a0, a1, a2, a3 := CountField(d, keys[0]), CountField(d, keys[1]), CountField(d, keys[2]), CountField(d, keys[3]);
    var a4, a5, a6, a7 := CountField(d, keys[4]), CountField(d, keys[5]), CountField(d, keys[6]), CountField(d, keys[7]);
    assert CountField(g, keys[0]) == a0 && CountField(g, keys[1]) == a1 && CountField(g, keys[2]) == a2 && CountField(g, keys[3]) == a3;
    assert CountField(g, keys[4]) == a4 && CountField(g, keys[5]) == a5 && CountField(g, keys[6]) == a6 && CountField(g, keys[7]) == a7;
  }

  // Each field reads only its own key: two dicts that agree there give the same result.

  lemma SameUid(d: Fields, g: Fields)
    requires Lookup(g, "uid") == Lookup(d, "uid")
    ensures UidField(g, Excel) == UidField(d, Excel)
  {
  }

  lemma SameName(d: Fields, g: Fields)
    requires Lookup(g, "name") == Lookup(d, "name")
    ensures NameField(g) == NameField(d)
  {
  }

  lemma SameSiteType(d: Fields, g: Fields)
    requires Lookup(g, "type") == Lookup(d, "type")
    ensures SiteTypeField(g) == SiteTypeField(d)
  {
  }

  lemma SameText(d: Fields, g: Fields, key: string, maxLength: nat)
    requires Lookup(g, key) == Lookup(d, key)
    ensures OptTextField(g, key, maxLength) == OptTextField(d, key, maxLength)
  {
  }

  lemma SameMaxStay(d: Fields, g: Fields)
    requires Lookup(g, "max_stay") == Lookup(d, "max_stay")
    ensures MaxStayField(g, Excel) == MaxStayField(d, Excel)
  {
  }

  lemma SameParkAndRide(d: Fields, g: Fields)
    requires Lookup(g, "park_and_ride_type") == Lookup(d, "park_and_ride_type")
    ensures Field(g, "park_and_ride_type", ValidateParkAndRide, Some(None)) == Field(d, "park_and_ride_type", ValidateParkAndRide, Some(None))
  {
  }

  /** A spreadsheet flag reads a blank cell as it reads an absent one. */
  lemma SameFlagField(d: Fields, g: Fields, key: string)
    requires SameFlag(d, g, key)
    ensures FlagField(g, key, Excel) == FlagField(d, key, Excel)
  {
    assert IsBlank(Null);
  }

  lemma SameRealtimeFlag(d: Fields, g: Fields)
    requires SameFlag(d, g, "has_realtime_data")
    ensures RealtimeFlagField(g, Excel) == RealtimeFlagField(d, Excel)
  {
  }

  lemma SameMoment(d: Fields, g: Fields, key: string)
    requires Lookup(g, key) == Lookup(d, key)
    ensures MomentField(g, key) == MomentField(d, key)
  {
  }

  lemma SameCoordinate(d: Fields, g: Fields, key: string, lo: Decimal, hi: Decimal)
    requires Lookup(g, key) == Lookup(d, key)
    ensures CoordinateField(g, key, lo, hi) == CoordinateField(d, key, lo, hi)
  {
  }

  lemma SameCount(d: Fields, g: Fields, key: string)
    requires Lookup(g, key) == Lookup(d, key)
    ensures CountField(g, key) == CountField(d, key)
  {
  }

  /** A cell left empty: the key is absent or holds None. */
  predicate BlankAt(d: Fields, key: string) { Lookup(d, key).None? || Lookup(d, key) == Some(Null) }

  /** Every optional spreadsheet field except the type and the opening hours is blank. */
  predicate BlankExtras(d: Fields) {
    && BlankAt(d, "operator_name") && BlankAt(d, "public_url") && BlankAt(d, "address")
    && BlankAt(d, "description") && BlankAt(d, "max_stay") && BlankAt(d, "fee_description")
    && BlankAt(d, "park_and_ride_type")
    && BlankAt(d, "has_lighting") && BlankAt(d, "has_fee") && BlankAt(d, "is_supervised")
    && BlankAt(d, "has_realtime_data")
    && (forall i | 0 <= i < 8 :: BlankAt(d, StaticCapacityKeys[i]))
  }

  /** What a filled-in row holds: a uid, a name, an import time and a position, as given. */
  predicate FilledSite(d: Fields, uid: string, name: string, updatedAt: string, lat: Decimal, lon: Decimal) {
    && Lookup(d, "uid") == Some(Str(uid)) && Lookup(d, "name") == Some(Str(name))
    && Lookup(d, "static_data_updated_at") == Some(Str(updatedAt))
    && Lookup(d, "lat") == Some(Real(lat)) && Lookup(d, "lon") == Some(Real(lon))
  }

  /**
   * The spreadsheet schema accepts a row holding a valid uid, name, import
   * time and position, a valid type and opening hours, and nothing else
   * (the other cells blank or the columns absent): every flag reads as
   * unset, the realtime flag as False, every capacity as unknown.
   */
  lemma ExcelAcceptsFilledSite(d: Fields, uid: string, name: string, updatedAt: string, lat: Decimal, lon: Decimal)
    requires FilledSite(d, uid, name, updatedAt, lat, lon) && BlankExtras(d)
    requires ValidateString(Str(uid), 1, Some(256), false).Ok? && ValidateString(Str(name), 1, Some(256), false).Ok?
    requires ValidateDateTime(Str(updatedAt)).Ok?
    requires InRange(lat, DecOfInt(-90), DecOfInt(90)) && InRange(lon, DecOfInt(-180), DecOfInt(180))
    requires !(DecIsZero(lat) && DecIsZero(lon))
    requires SiteTypeField(d).Ok? && OptTextField(d, "opening_hours", 512).Ok?
    ensures var r := ValidateExcelStatic(Obj(d));
      && r.Ok?
      && r.value.uid == uid && r.value.name == name && r.value.lat == lat && r.value.lon == lon
      && r.value.siteType == SiteTypeField(d).value && r.value.openingHours == OptTextField(d, "opening_hours", 512).value
      && r.value.hasLighting.None? && r.value.hasFee.None? && r.value.isSupervised.None?
      && !r.value.hasRealtimeData && r.value.capacities == NoCapacities
  {
    FilledDescription(d, uid, name, updatedAt, lat, lon);
    FilledFacilities(d);
    FilledPosition(d, uid, name, updatedAt, lat, lon);
    FilledCapacities(d);
  }

  lemma FilledDescription(g: Fields, uid: string, name: string, updatedAt: string, lat: Decimal, lon: Decimal)
    requires FilledSite(g, uid, name, updatedAt, lat, lon) && BlankExtras(g) && SiteTypeField(g).Ok?
    requires ValidateString(Str(uid), 1, Some(256), false).Ok? && ValidateString(Str(name), 1, Some(256), false).Ok?
    ensures DescriptionFields(g, Excel) == Ok(DescriptionBlock(uid, name, None, None, None, None, SiteTypeField(g).value))
  {
    assert NumberCastInput(Str(uid)) == Str(uid);
  }

  lemma FilledFacilities(g: Fields)
    requires BlankExtras(g)
    ensures FacilityFields(g, Excel) == Ok(FacilityBlock(None, None, None, None, None, None))
  {
    assert MaxStayField(g, Excel) == Ok(None) by {
      if Lookup(g, "max_stay").Some? {
        assert IsBlank(Null);
      }
    }
    assert FlagField(g, "has_lighting", Excel) == Ok(None) by { assert IsBlank(Null); }
    assert FlagField(g, "has_fee", Excel) == Ok(None) by { assert IsBlank(Null); }
    assert FlagField(g, "is_supervised", Excel) == Ok(None) by { assert IsBlank(Null); }
    assert OptTextField(g, "fee_description", 256) == Ok(None);
    assert Field(g, "park_and_ride_type", ValidateParkAndRide, Some(None)) == Ok(None);
  }

  lemma FilledPosition(g: Fields, uid: string, name: string, updatedAt: string, lat: Decimal, lon: Decimal)
    requires FilledSite(g, uid, name, updatedAt, lat, lon) && BlankAt(g, "has_realtime_data")
    requires ValidateDateTime(Str(updatedAt)).Ok?
    requires InRange(lat, DecOfInt(-90), DecOfInt(90)) && InRange(lon, DecOfInt(-180), DecOfInt(180))
    ensures PositionFields(g, Excel, GeoBounds) == Ok(PositionBlock(false, ValidateDateTime(Str(updatedAt)).value, lat, lon))
  {
    assert MomentField(g, "static_data_updated_at") == ValidateDateTime(Str(updatedAt));
  }

  lemma FilledCapacities(g: Fields)
    requires BlankExtras(g)
    ensures CapacitiesField(g, StaticCapacityKeys) == Ok(NoCapacities)
  {
    forall i | 0 <= i < 8 ensures CountField(g, StaticCapacityKeys[i]) == Ok(None) {
      assert BlankAt(g, StaticCapacityKeys[i]);
    }
  }

  /** As written, a latitude must equal 90 and a longitude 180: only one point on Earth passes. */
  lemma AsWrittenOnlyOnePoint(d: Value)
    requires ValidateStaticAsWritten(d).Ok?
    ensures var s := ValidateStaticAsWritten(d).value;
      s.lat.digits == 90 * Pow10(s.lat.scale) && s.lon.digits == 180 * Pow10(s.lon.scale)
  {
    var s := ValidateStaticAsWritten(d).value;
    assert Pow10(0) == 1;
    assert InRange(s.lat, DecOfInt(90), DecOfInt(90));
    assert InRange(s.lon, DecOfInt(180), DecOfInt(180));
  }

  /** A dict placing a site at 48.77 N is refused as written, whatever its other fields. */
  lemma AsWrittenRefusesStuttgart(fs: Fields)
    requires Lookup(fs, "lat") == Some(Real(Decimal(4877, 2)))
    ensures ValidateStaticAsWritten(Obj(fs)).Err?
  {
    assert Pow10(2) == 100;
    if ValidateStaticAsWritten(Obj(fs)).Ok? {
      AsWrittenOnlyOnePoint(Obj(fs));
      assert false;
    }
  }

  /** A dict with only the required keys of the base schema. */
  function MinimalSite(uid: string, name: string, updatedAt: string, lat: Decimal, lon: Decimal): Value {
    Obj([("uid", Str(uid)), ("name", Str(name)), ("static_data_updated_at", Str(updatedAt)),
         ("lat", Real(lat)), ("lon", Real(lon))])
  }

  lemma AbsentKey(fs: Fields, key: string)
    requires forall j :: 0 <= j < |fs| ==> fs[j].0 != key
    ensures Lookup(fs, key).None?
  {
  }

  /** The five required keys of a minimal site are found with their values. */
  lemma MinimalSiteLookups(uid: string, name: string, updatedAt: string, lat: Decimal, lon: Decimal)
    ensures var fs := MinimalSite(uid, name, updatedAt, lat, lon).fields;
      && Lookup(fs, "uid") == Some(Str(uid)) && Lookup(fs, "name") == Some(Str(name))
      && Lookup(fs, "static_data_updated_at") == Some(Str(updatedAt))
      && Lookup(fs, "lat") == Some(Real(lat)) && Lookup(fs, "lon") == Some(Real(lon))
  {
    var fs := MinimalSite(uid, name, updatedAt, lat, lon).fields;
    LookupAt(fs, 0);
    LookupAt(fs, 1);
    LookupAt(fs, 2);
    LookupAt(fs, 3);
    LookupAt(fs, 4);
  }

  /** The first letters of the five keys a minimal site holds. */
  const RequiredInitials: set<char> := {'u', 'n', 's', 'l'}

  /** A key no required key shares its first letter with; every optional field of the declaration is one. */
  predicate OptionalKey(key: string) { |key| > 0 && key[0] !in RequiredInitials }

  /** A minimal site holds no optional key. */
  lemma MinimalSiteOptional(uid: string, name: string, updatedAt: string, lat: Decimal, lon: Decimal, key: string)
    requires OptionalKey(key)
    ensures Lookup(MinimalSite(uid, name, updatedAt, lat, lon).fields, key).None?
  {
    var fs := MinimalSite(uid, name, updatedAt, lat, lon).fields;
    forall j | 0 <= j < |fs| ensures fs[j].0 != key {
      assert fs[j].0[0] in RequiredInitials;
    }
    AbsentKey(fs, key);
  }

  /** The optional keys the validator of the base schema reads. */
  lemma OptionalFieldKeys()
    ensures OptionalKey("operator_name") && OptionalKey("public_url") && OptionalKey("address")
    ensures OptionalKey("description") && OptionalKey("type") && OptionalKey("max_stay")
    ensures OptionalKey("has_lighting") && OptionalKey("fee_description") && OptionalKey("has_fee")
    ensures OptionalKey("park_and_ride_type") && OptionalKey("is_supervised")
    ensures OptionalKey("has_realtime_data") && OptionalKey("opening_hours")
  {
  }

  lemma MinimalDescription(uid: string, name: string, updatedAt: string, lat: Decimal, lon: Decimal)
    requires ValidateString(Str(uid), 1, Some(256), false).Ok?
    requires ValidateString(Str(name), 1, Some(256), false).Ok?
    ensures DescriptionFields(MinimalSite(uid, name, updatedAt, lat, lon).fields, Base)
            == Ok(DescriptionBlock(uid, name, None, None, None, None, None))
  {
    var fs := MinimalSite(uid, name, updatedAt, lat, lon).fields;
    OptionalFieldKeys();
    assert UidField(fs, Base) == Ok(uid) && NameField(fs) == Ok(name) by {
      MinimalSiteLookups(uid, name, updatedAt, lat, lon);
    }
    assert OptTextField(fs, "operator_name", 256) == Ok(None) by {
      MinimalSiteOptional(uid, name, updatedAt, lat, lon, "operator_name");
    }
    assert OptTextField(fs, "public_url", 4096) == Ok(None) by {
      MinimalSiteOptional(uid, name, updatedAt, lat, lon, "public_url");
    }
    assert OptTextField(fs, "address", 512) == Ok(None) by {
      MinimalSiteOptional(uid, name, updatedAt, lat, lon, "address");
    }
    assert OptTextField(fs, "description", 4096) == Ok(None) by {
      MinimalSiteOptional(uid, name, updatedAt, lat, lon, "description");
    }
    assert SiteTypeField(fs) == Ok(None) by {
      MinimalSiteOptional(uid, name, updatedAt, lat, lon, "type");
    }
  }

  lemma MinimalFacilities(uid: string, name: string, updatedAt: string, lat: Decimal, lon: Decimal)
    ensures FacilityFields(MinimalSite(uid, name, updatedAt, lat, lon).fields, Base)
            == Ok(FacilityBlock(None, None, None, None, None, None))
  {
    var fs := MinimalSite(uid, name, updatedAt, lat, lon).fields;
    OptionalFieldKeys();
    assert MaxStayField(fs, Base) == Ok(None) by {
      MinimalSiteOptional(uid, name, updatedAt, lat, lon, "max_stay");
    }
    assert FlagField(fs, "has_lighting", Base) == Ok(None) by {
      MinimalSiteOptional(uid, name, updatedAt, lat, lon, "has_lighting");
    }
    assert OptTextField(fs, "fee_description", 256) == Ok(None) by {
      MinimalSiteOptional(uid, name, updatedAt, lat, lon, "fee_description");
    }
    assert FlagField(fs, "has_fee", Base) == Ok(None) by {
      MinimalSiteOptional(uid, name, updatedAt, lat, lon, "has_fee");
    }
    assert Field(fs, "park_and_ride_type", ValidateParkAndRide, Some(None)) == Ok(None) by {
      MinimalSiteOptional(uid, name, updatedAt, lat, lon, "park_and_ride_type");
    }
    assert FlagField(fs, "is_supervised", Base) == Ok(None) by {
      MinimalSiteOptional(uid, name, updatedAt, lat, lon, "is_supervised");
    }
  }

  lemma MinimalPosition(uid: string, name: string, updatedAt: string, lat: Decimal, lon: Decimal)
    requires ValidateDateTime(Str(updatedAt)).Ok?
    requires InRange(lat, DecOfInt(-90), DecOfInt(90)) && InRange(lon, DecOfInt(-180), DecOfInt(180))
    ensures PositionFields(MinimalSite(uid, name, updatedAt, lat, lon).fields, Base, GeoBounds)
            == Ok(PositionBlock(false, ValidateDateTime(Str(updatedAt)).value, lat, lon))
  {
    var fs := MinimalSite(uid, name, updatedAt, lat, lon).fields;
    assert Lookup(fs, "has_realtime_data").None? by {
      OptionalFieldKeys();
      MinimalSiteOptional(uid, name, updatedAt, lat, lon, "has_realtime_data");
    }
    MinimalSiteLookups(uid, name, updatedAt, lat, lon);
    PositionOfCells(fs, updatedAt, lat, lon);
  }

  /** Any dict without a realtime flag holding an import time and a position in range yields that position block. */
  lemma PositionOfCells(fs: Fields, updatedAt: string, lat: Decimal, lon: Decimal)
    requires Lookup(fs, "has_realtime_data").None? && Lookup(fs, "static_data_updated_at") == Some(Str(updatedAt))
    requires Lookup(fs, "lat") == Some(Real(lat)) && Lookup(fs, "lon") == Some(Real(lon))
    requires ValidateDateTime(Str(updatedAt)).Ok?
    requires InRange(lat, DecOfInt(-90), DecOfInt(90)) && InRange(lon, DecOfInt(-180), DecOfInt(180))
    ensures PositionFields(fs, Base, GeoBounds) == Ok(PositionBlock(false, ValidateDateTime(Str(updatedAt)).value, lat, lon))
  {
    assert MomentField(fs, "static_data_updated_at") == ValidateDateTime(Str(updatedAt));
  }

  lemma MinimalRest(uid: string, name: string, updatedAt: string, lat: Decimal, lon: Decimal)
    ensures CapacitiesField(MinimalSite(uid, name, updatedAt, lat, lon).fields, StaticCapacityKeys) == Ok(NoCapacities)
    ensures OptTextField(MinimalSite(uid, name, updatedAt, lat, lon).fields, "opening_hours", 512) == Ok(None)
  {
    var fs := MinimalSite(uid, name, updatedAt, lat, lon).fields;
    forall i | 0 <= i < 8 ensures Lookup(fs, StaticCapacityKeys[i]).None? {
      assert StaticCapacityKeys[i][0] == 'c';
      MinimalSiteOptional(uid, name, updatedAt, lat, lon, StaticCapacityKeys[i]);
    }
    assert OptTextField(fs, "opening_hours", 512) == Ok(None) by {
      OptionalFieldKeys();
      MinimalSiteOptional(uid, name, updatedAt, lat, lon, "opening_hours");
    }
  }

  /**
   * With geographic bounds a dict holding just the required keys is accepted:
   * the values are taken over and every optional field gets its default.
   */
  lemma GeoAcceptsMinimalSite(uid: string, name: string, updatedAt: string, lat: Decimal, lon: Decimal)
    requires ValidateString(Str(uid), 1, Some(256), false).Ok?
    requires ValidateString(Str(name), 1, Some(256), false).Ok?
    requires ValidateDateTime(Str(updatedAt)).Ok?
    requires InRange(lat, DecOfInt(-90), DecOfInt(90)) && InRange(lon, DecOfInt(-180), DecOfInt(180))
    requires !(DecIsZero(lat) && DecIsZero(lon))
    ensures var r := ValidateStatic(MinimalSite(uid, name, updatedAt, lat, lon));
      && r.Ok?
      && r.value.uid == uid && r.value.name == name && r.value.lat == lat && r.value.lon == lon
      && r.value.staticDataUpdatedAt.offset == Some(0)
      && r.value.siteType.None? && r.value.operatorName.None? && r.value.maxStay.None?
      && !r.value.hasRealtimeData && r.value.capacities == NoCapacities
  {
    MinimalDescription(uid, name, updatedAt, lat, lon);
    MinimalFacilities(uid, name, updatedAt, lat, lon);
    MinimalPosition(uid, name, updatedAt, lat, lon);
    MinimalRest(uid, name, updatedAt, lat, lon);
  }

  // --------------------------------------------------- direct construction

  /**
   * `StaticParkingSiteInput(...)` called with keywords: no field validator
   * runs; a keyword that is not a field is a TypeError; then `__post_init__`.
   */
  function ConstructStatic(s: StaticParkingSiteInput, unknownKeywords: seq<string>): (r: Result<StaticParkingSiteInput, Fault>)
    ensures |unknownKeywords| > 0 ==> r.Err? && r.error.Raised? && r.error.kind == "TypeError"
    ensures |unknownKeywords| == 0 ==> (r.Ok? <==> !(DecIsZero(s.lat) && DecIsZero(s.lon)))
    ensures r.Ok? ==> r.value == s
  {
    if |unknownKeywords| > 0 then
      Err(Raised("TypeError", "__init__() got an unexpected keyword argument '" + unknownKeywords[0] + "'"))
    else PostInit(s)
  }

  /** Construction checks only the (0, 0) rule: a negative capacity no dict validation would let through is kept. */
  lemma ConstructSkipsFieldValidation(s: StaticParkingSiteInput)
    requires s.capacities.total == Some(-1) && !DecIsZero(s.lat)
    ensures ConstructStatic(s, []) == Ok(s)
    ensures !ValidStatic(s, Base, GeoBounds)
  {
  }

  // ----------------------------------------------------- realtime records

  predicate ValidRealtime(r: RealtimeParkingSiteInput) {
    1 <= |r.uid| <= 256 && r.realtimeDataUpdatedAt.offset == Some(0)
    && CapacitiesOk(r.capacities) && CapacitiesOk(r.freeCapacities)
  }

  /** `Noneable(EnumValidator(OpeningStatusInput), default=UNKNOWN), Default(UNKNOWN)`. */
  function StatusField(d: Fields): (r: Result<OpeningStatus, Fault>)
    ensures Lookup(d, "realtime_opening_status").None? ==> r == Ok(Unknown)
    ensures Lookup(d, "realtime_opening_status") == Some(Null) ==> r == Ok(Unknown)
    ensures r.Ok? && r.value != Unknown ==>
      Lookup(d, "realtime_opening_status") == Some(Str(OpeningStatusName(r.value)))
    ensures forall t :: Lookup(d, "realtime_opening_status") == Some(Str(OpeningStatusName(t))) ==> r == Ok(t)
    ensures Lookup(d, "realtime_opening_status").Some? && Lookup(d, "realtime_opening_status").value.Str? ==>
      (r.Ok? <==> ParseOpeningStatus(Lookup(d, "realtime_opening_status").value.s).Some?)
  {
    Field(d, "realtime_opening_status", v => ValidateNoneable(v, w => ValidateEnum(w, ParseOpeningStatus), Unknown), Some(Unknown))
  }

  function ValidateRealtime(d: Value): (r: Result<RealtimeParkingSiteInput, Fault>)
    ensures r.Ok? ==> d.Obj? && ValidRealtime(r.value)
    ensures d.Obj? && StatusField(d.fields).Err? ==> r.Err?
    ensures r.Ok? ==> StatusField(d.fields) == Ok(r.value.openingStatus)
    ensures r.Ok? ==> CapacitiesField(d.fields, RealtimeCapacityKeys) == Ok(r.value.capacities)
  {
    if !d.Obj? then Err(Invalid("invalid_type", "dict expected"))
    else
      var f := d.fields;
      var uid :- UidField(f, Base);
      var updatedAt :- MomentField(f, "realtime_data_updated_at");
      var status :- StatusField(f);
      var capacities :- CapacitiesField(f, RealtimeCapacityKeys);
      var freeCapacities :- CapacitiesField(f, RealtimeFreeCapacityKeys);
      Ok(RealtimeParkingSiteInput(uid, updatedAt, status, capacities, freeCapacities))
  }

  // ------------------------------------------------------ legacy projection

  /** `to_lot_info`: the static record as a legacy `LotInfo`, coordinates passed as `str()` of the decimals. */
  function ToLotInfo(s: StaticParkingSiteInput): (r: Result<LotInfo, Fault>)
    ensures s.siteType.None? ==> r == Err(Raised("AttributeError", "'NoneType' object has no attribute 'to_lot_info_type'"))
  {
    if s.siteType.None? then Err(Raised("AttributeError", "'NoneType' object has no attribute 'to_lot_info_type'"))
    else MakeLotInfo(s.uid, s.name, Some(ToLotInfoType(s.siteType.value)), s.publicUrl, None, s.address,
                     s.capacities.total, s.hasRealtimeData, Str(DecimalToString(s.lat)), Str(DecimalToString(s.lon)))
  }

  lemma GeoInCoordinateRange(x: Decimal, lo: int, hi: int)
    requires -180 <= lo && hi <= 180
    requires InRange(x, DecOfInt(lo), DecOfInt(hi))
    ensures InCoordinateRange(x)
  {
    var p := Pow10(x.scale);
    assert Pow10(0) == 1;
    MulMono(-180, lo, p);
    MulMono(hi, 180, p);
  }

  lemma MulMono(a: int, b: int, p: nat)
    requires a <= b
    ensures a * p <= b * p
  {
  }

  /**
   * A validated site with a type becomes a `LotInfo` carrying its values: the
   * coordinates survive the trip through `str()` and `float()` unchanged.
   */
  lemma ToLotInfoOfValidated(s: StaticParkingSiteInput, schema: Schema)
    requires ValidStatic(s, schema, GeoBounds) && s.siteType.Some?
    ensures ToLotInfo(s).Ok?
    ensures var info := ToLotInfo(s).value;
      && info.id == s.uid && info.name == s.name && info.lotType == ToLotInfoType(s.siteType.value)
      && info.publicUrl == OrNone(s.publicUrl) && info.address == OrNone(s.address)
      && info.capacity == s.capacities.total && info.hasLiveCapacity == s.hasRealtimeData
      && info.latitude == Some(s.lat) && info.longitude == Some(s.lon)
  {
    GeoInCoordinateRange(s.lat, -90, 90);
    GeoInCoordinateRange(s.lon, -180, 180);
    CoordinateOfString(s.lat);
    CoordinateOfString(s.lon);
  }

  /** `to_lot_data` as written: the validated timestamp is passed on aware. */
  function ToLotDataAsWritten(rt: RealtimeParkingSiteInput): Result<LotData, Fault> {
    MakeLotData(Moment(rt.realtimeDataUpdatedAt), rt.uid, ToLotDataStatus(rt.openingStatus),
                rt.freeCapacities.total, None, rt.capacities.total, Null)
  }

  /** Every validated realtime record is aware, and `LotData` refuses every aware timestamp. */
  lemma ToLotDataAsWrittenAlwaysFails(d: Value)
    requires ValidateRealtime(d).Ok?
    ensures ToLotDataAsWritten(ValidateRealtime(d).value)
            == Err(Raised("ValueError", "timestamp must be UTC and not contain a tzinfo"))
  {
    var rt := ValidateRealtime(d).value;
    LotDataRejectsAware(rt.realtimeDataUpdatedAt, rt.uid, ToLotDataStatus(rt.openingStatus),
                        rt.freeCapacities.total, None, rt.capacities.total, Null);
  }

  /** `to_lot_data` with the UTC timestamp passed naive, as `LotData` demands. */
  function ToLotData(rt: RealtimeParkingSiteInput): (r: Result<LotData, Fault>)
    ensures r.Ok?
    ensures r.value.id == rt.uid && r.value.status == ToLotDataStatus(rt.openingStatus)
    ensures r.value.timestamp == rt.realtimeDataUpdatedAt.(offset := None)
    ensures r.value.numFree == rt.freeCapacities.total && r.value.capacity == rt.capacities.total
    ensures rt.capacities.total.Some? && rt.freeCapacities.total.Some? ==>
      r.value.numOccupied == Some(rt.capacities.total.value - rt.freeCapacities.total.value)
  {
    var ts := Moment(rt.realtimeDataUpdatedAt.(offset := None));
    var status := ToLotDataStatus(rt.openingStatus);
    assert true by {
      if rt.capacities.total.Some? && rt.freeCapacities.total.Some? {
        LotDataCountsAddUp(ts, rt.uid, status, rt.freeCapacities.total, None, rt.capacities.total, Null);
      }
    }
    MakeLotData(ts, rt.uid, status, rt.freeCapacities.total, None, rt.capacities.total, Null)
  }
}
