/**
 * v3/bahn_v2/validators.py: the enumerations of the Deutsche Bahn parking
 * API (version 2) and the dataclass schemas one parking facility of its
 * `_embedded` list is validated against.
 */
module BahnValidators {
  import opened Wrappers
  import opened Text
  import opened Values
  import opened SiteInputs

  // ------------------------------------------------------------ enumerations

  datatype NameContext = NAME | DISPLAY | LABEL | SLOGAN

  function NameContextValue(c: NameContext): string {
    match c
    case NAME => "NAME"
    case DISPLAY => "DISPLAY"
    case LABEL => "LABEL"
    case SLOGAN => "SLOGAN"
  }

  /** `NameContext(value)`: the member whose value is `s`, if any. */
  function ParseNameContext(s: string): (r: Option<NameContext>)
    ensures r.Some? ==> NameContextValue(r.value) == s
    ensures forall c :: NameContextValue(c) == s ==> r == Some(c)
  {
    if s == "NAME" then Some(NAME)
    else if s == "DISPLAY" then Some(DISPLAY)
    else if s == "LABEL" then Some(LABEL)
    else if s == "SLOGAN" then Some(SLOGAN)
    else None
  }

  datatype BahnParkingSiteCapacityType = PARKING | HANDICAPPED_PARKING

  function CapacityTypeValue(t: BahnParkingSiteCapacityType): string {
    match t
    case PARKING => "PARKING"
    case HANDICAPPED_PARKING => "HANDICAPPED_PARKING"
  }

  function ParseCapacityType(s: string): (r: Option<BahnParkingSiteCapacityType>)
    ensures r.Some? ==> CapacityTypeValue(r.value) == s
    ensures forall t :: CapacityTypeValue(t) == s ==> r == Some(t)
  {
    if s == "PARKING" then Some(PARKING)
    else if s == "HANDICAPPED_PARKING" then Some(HANDICAPPED_PARKING)
    else None
  }

  datatype BahnParkingSiteType = PARKPLATZ | TIEFGARAGE | PARKHAUS | STRASSE | PARKDECK

  function BahnParkingSiteTypeValue(t: BahnParkingSiteType): string {
    match t
    case PARKPLATZ => "Parkplatz"
    case TIEFGARAGE => "Tiefgarage"
    case PARKHAUS => "Parkhaus"
    case STRASSE => "Stra\U{DF}e"
    case PARKDECK => "Parkdeck"
  }

  function ParseBahnParkingSiteType(s: string): (r: Option<BahnParkingSiteType>)
    ensures r.Some? ==> BahnParkingSiteTypeValue(r.value) == s
    ensures forall t :: BahnParkingSiteTypeValue(t) == s ==> r == Some(t)
  {
    if s == "Parkplatz" then Some(PARKPLATZ)
    else if s == "Tiefgarage" then Some(TIEFGARAGE)
    else if s == "Parkhaus" then Some(PARKHAUS)
    else if s == "Stra\U{DF}e" then Some(STRASSE)
    else if s == "Parkdeck" then Some(PARKDECK)
    else None
  }

  /**
   * `to_parking_site_type_input`: the lookup table covers every member, so
   * the OTHER default of `.get` is never returned.
   */
  function ToParkingSiteType(t: BahnParkingSiteType): (r: ParkingSiteType)
    ensures r != Other && r != OffStreetParkingGround
    ensures r == OnStreet <==> t == PARKPLATZ || t == STRASSE
    ensures r == CarPark <==> t == PARKHAUS || t == PARKDECK
    ensures r == Underground <==> t == TIEFGARAGE
  {
    match t
    case PARKPLATZ => OnStreet
    case PARKHAUS => CarPark
    case TIEFGARAGE => Underground
    case STRASSE => OnStreet
    case PARKDECK => CarPark
  }

  // ----------------------------------------------------------------- schemas

  datatype BahnNameInput = BahnNameInput(name: string, context: NameContext)

  datatype BahnTypeInput = BahnTypeInput(name: BahnParkingSiteType, nameEn: string, abbreviation: string)

  datatype BahnOperatorInput = BahnOperatorInput(name: string)

  datatype BahnLocationInput = BahnLocationInput(longitude: Decimal, latitude: Decimal)

  datatype BahnAdressInput = BahnAdressInput(
    streetAndNumber: string, zip: string, city: string, phone: Option<string>, location: BahnLocationInput)

  datatype BahnCapacityInput = BahnCapacityInput(capacityType: BahnParkingSiteCapacityType, total: int)

  datatype BahnOpeningHoursInput = BahnOpeningHoursInput(text: Option<string>, is24h: bool)

  datatype BahnClearanceInput = BahnClearanceInput(height: Option<Decimal>, width: Option<Decimal>)

  datatype BahnRestrictionInput = BahnRestrictionInput(clearance: BahnClearanceInput)

  datatype BahnAccessInput = BahnAccessInput(openingHours: BahnOpeningHoursInput, restrictions: BahnRestrictionInput)

  datatype BahnParkingSiteInput = BahnParkingSiteInput(
    id: int, name: seq<BahnNameInput>, url: string, siteType: BahnTypeInput, operator: BahnOperatorInput,
    address: BahnAdressInput, capacity: seq<BahnCapacityInput>, hasPrognosis: bool, access: BahnAccessInput)

  // ------------------------------------------------------ field validators

  /**
   * The items of a list, validated one by one; the first refused item's
   * error is the list's error.
   */
  function ListItems<T>(items: seq<Value>, validate: Value -> Result<T, Fault>): (r: Result<seq<T>, Fault>)
    ensures r.Ok? <==> forall i :: 0 <= i < |items| ==> validate(items[i]).Ok?
    ensures r.Ok? ==> |r.value| == |items| && forall i :: 0 <= i < |items| ==> r.value[i] == validate(items[i]).value
    ensures r.Err? ==> exists i :: 0 <= i < |items| && validate(items[i]) == Err(r.error)
  {
    if |items| == 0 then Ok([])
    else
      var first :- validate(items[0]);
      var rest :- ListItems(items[1..], validate);
      assert forall i :: 1 <= i < |items| ==> items[i] == items[1..][i - 1];
      Ok([first] + rest)
  }

  /** `ListValidator(inner)`: a list whose every item the inner validator accepts. */
  function ValidateList<T>(v: Value, validate: Value -> Result<T, Fault>): (r: Result<seq<T>, Fault>)
    ensures !v.List? ==> r == Err(Invalid("invalid_type", "list expected"))
    ensures v.List? ==> r == ListItems(v.items, validate)
  {
    if v.List? then ListItems(v.items, validate) else Err(Invalid("invalid_type", "list expected"))
  }

  const URL_MAX_LENGTH: nat := 2000

  /** An absolute http or https address with a host part and no white space or control character. */
  predicate IsUrl(s: string) {
    |s| <= URL_MAX_LENGTH
    && ((StartsWith(s, "http://") && |s| > 7) || (StartsWith(s, "https://") && |s| > 8))
    && forall i :: 0 <= i < |s| ==> s[i] > ' ' && s[i] != '\U{7F}'
  }

  /** `UrlValidator()`, reduced to the shape `IsUrl` describes. */
  function ValidateUrl(v: Value): (r: Result<string, Fault>)
    ensures r.Ok? <==> v.Str? && IsUrl(v.s)
    ensures r.Ok? ==> r.value == v.s
    ensures r.Err? ==> r.error.Invalid?
  {
    if v.Str? && IsUrl(v.s) then Ok(v.s) else Err(Invalid("invalid_url", "url expected"))
  }

  /** `IntegerValidator(allow_strings=True, min_value=0)`, with the library's 32-bit default maximum. */
  function Total(v: Value): (r: Result<int, Fault>)
    ensures r.Ok? ==> 0 <= r.value <= INT32_MAX
    ensures v.Int? && 0 <= v.i <= INT32_MAX ==> r == Ok(v.i)
    ensures v.Int? && v.i < 0 ==> r.Err?
    ensures r.Err? ==> r.error.Invalid?
  {
    ValidateInteger(v, 0, INT32_MAX, true)
  }

  // ------------------------------------------------------- class validators

  function ValidateName(d: Fields): (r: Result<BahnNameInput, Fault>)
    ensures r.Ok? ==> Lookup(d, "name") == Some(Str(r.value.name))
    ensures r.Ok? ==> Lookup(d, "context") == Some(Str(NameContextValue(r.value.context)))
    ensures r.Err? ==> r.error.Invalid?
  {
    var name :- Field(d, "name", PlainText, None);
    var context :- Field(d, "context", v => ValidateEnum(v, ParseNameContext), None);
    Ok(BahnNameInput(name, context))
  }

  function ValidateType(d: Fields): (r: Result<BahnTypeInput, Fault>)
    ensures r.Ok? ==> Lookup(d, "name") == Some(Str(BahnParkingSiteTypeValue(r.value.name)))
    ensures r.Err? ==> r.error.Invalid?
  {
    var name :- Field(d, "name", v => ValidateEnum(v, ParseBahnParkingSiteType), None);
    var nameEn :- Field(d, "nameEn", PlainText, None);
    var abbreviation :- Field(d, "abbreviation", PlainText, None);
    Ok(BahnTypeInput(name, nameEn, abbreviation))
  }

  function ValidateOperator(d: Fields): (r: Result<BahnOperatorInput, Fault>)
    ensures r.Ok? ==> Lookup(d, "name") == Some(Str(r.value.name))
    ensures r.Err? ==> r.error.Invalid?
  {
    var name :- Field(d, "name", PlainText, None);
    Ok(BahnOperatorInput(name))
  }

  /** `NumericValidator()` without bounds: an int or a float, nothing else. */
  function ValidateLocation(d: Fields): (r: Result<BahnLocationInput, Fault>)
    ensures r.Ok? <==> (Lookup(d, "longitude").Some? && Number(Lookup(d, "longitude").value).Ok?
                        && Lookup(d, "latitude").Some? && Number(Lookup(d, "latitude").value).Ok?)
    ensures r.Ok? ==> r.value.latitude == Number(Lookup(d, "latitude").value).value
    ensures r.Err? ==> r.error.Invalid?
  {
    var longitude :- Field(d, "longitude", Number, None);
    var latitude :- Field(d, "latitude", Number, None);
    Ok(BahnLocationInput(longitude, latitude))
  }

  /** The phone key is required, but it may hold None. */
  function ValidateAddress(d: Fields): (r: Result<BahnAdressInput, Fault>)
    ensures r.Ok? ==> Lookup(d, "phone").Some?
    ensures r.Ok? ==> (r.value.phone.None? <==> Lookup(d, "phone") == Some(Null))
    ensures r.Ok? ==> Lookup(d, "zip") == Some(Str(r.value.zip)) && Lookup(d, "city") == Some(Str(r.value.city))
    ensures r.Err? ==> r.error.Invalid?
  {
    var streetAndNumber :- Field(d, "streetAndNumber", PlainText, None);
    var zip :- Field(d, "zip", PlainText, None);
    var city :- Field(d, "city", PlainText, None);
    var phone :- Field(d, "phone", v => OptionalOf(v, PlainText), None);
    var location :- Field(d, "location", v => Nested(v, ValidateLocation), None);
    Ok(BahnAdressInput(streetAndNumber, zip, city, phone, location))
  }

  function ValidateCapacity(d: Fields): (r: Result<BahnCapacityInput, Fault>)
    ensures r.Ok? ==> 0 <= r.value.total <= INT32_MAX
    ensures r.Ok? ==> Lookup(d, "type") == Some(Str(CapacityTypeValue(r.value.capacityType)))
    ensures forall n :: Lookup(d, "total") == Some(Int(n)) && n < 0 ==> r.Err?
    ensures r.Err? ==> r.error.Invalid?
  {
    var capacityType :- Field(d, "type", v => ValidateEnum(v, ParseCapacityType), None);
    var total :- Field(d, "total", Total, None);
    Ok(BahnCapacityInput(capacityType, total))
  }

  /**
   * The text has a default but is not Noneable: a missing text is None, an
   * explicit None is refused.
   */
  function ValidateOpeningHours(d: Fields): (r: Result<BahnOpeningHoursInput, Fault>)
    ensures Lookup(d, "text") == Some(Null) ==> r.Err?
    ensures r.Ok? ==> (r.value.text.None? <==> Lookup(d, "text").None?)
    ensures r.Ok? ==> Lookup(d, "is24h") == Some(Bool(r.value.is24h))
    ensures r.Err? ==> r.error.Invalid?
  {
    var text :- Field(d, "text", v => SomeOf(PlainText(v)), Some(None));
    var is24h :- Field(d, "is24h", ValidateStrictBool, None);
    Ok(BahnOpeningHoursInput(text, is24h))
  }

  /** `Noneable(DecimalValidator()), Default(None)`: missing or None gives None. */
  function ClearanceField(d: Fields, key: string): (r: Result<Option<Decimal>, Fault>)
    ensures Lookup(d, key).None? || Lookup(d, key) == Some(Null) ==> r == Ok(None)
    ensures r.Ok? && r.value.Some? ==> Lookup(d, key).Some? && Lookup(d, key).value.Str?
    ensures r.Err? ==> r.error.Invalid?
  {
    Field(d, key, v => OptionalOf(v, w => ValidateDecimal(w, None, None)), Some(None))
  }

  function ValidateClearance(d: Fields): (r: Result<BahnClearanceInput, Fault>)
    ensures (Lookup(d, "height").None? || Lookup(d, "height") == Some(Null)) && r.Ok? ==> r.value.height.None?
    ensures (Lookup(d, "width").None? || Lookup(d, "width") == Some(Null)) && r.Ok? ==> r.value.width.None?
    ensures r.Err? ==> r.error.Invalid?
  {
    var height :- ClearanceField(d, "height");
    var width :- ClearanceField(d, "width");
    Ok(BahnClearanceInput(height, width))
  }

  function ValidateRestriction(d: Fields): (r: Result<BahnRestrictionInput, Fault>)
    ensures r.Ok? ==> Lookup(d, "clearance").Some? && Nested(Lookup(d, "clearance").value, ValidateClearance) == Ok(r.value.clearance)
    ensures r.Err? ==> r.error.Invalid?
  {
    var clearance :- Field(d, "clearance", v => Nested(v, ValidateClearance), None);
    Ok(BahnRestrictionInput(clearance))
  }

  function ValidateAccess(d: Fields): (r: Result<BahnAccessInput, Fault>)
    ensures r.Ok? <==>
      && Lookup(d, "openingHours").Some? && Nested(Lookup(d, "openingHours").value, ValidateOpeningHours).Ok?
      && Lookup(d, "restrictions").Some? && Nested(Lookup(d, "restrictions").value, ValidateRestriction).Ok?
    ensures r.Ok? ==>
      && Nested(Lookup(d, "openingHours").value, ValidateOpeningHours) == Ok(r.value.openingHours)
      && Nested(Lookup(d, "restrictions").value, ValidateRestriction) == Ok(r.value.restrictions)
    ensures r.Err? ==> r.error.Invalid?
  {
    var openingHours :- Field(d, "openingHours", v => Nested(v, ValidateOpeningHours), None);
    var restrictions :- Field(d, "restrictions", v => Nested(v, ValidateRestriction), None);
    Ok(BahnAccessInput(openingHours, restrictions))
  }

  // ------------------------------------------- fields of the parking site

  /** `IntegerValidator(allow_strings=True)`, with the library's 32-bit default range. */
  function IdField(d: Fields): (r: Result<int, Fault>)
    ensures r.Ok? ==> INT32_MIN <= r.value <= INT32_MAX
    ensures r.Err? ==> r.error.Invalid?
  {
    Field(d, "id", v => ValidateInteger(v, INT32_MIN, INT32_MAX, true), None)
  }

  function NamesField(d: Fields): (r: Result<seq<BahnNameInput>, Fault>)
    ensures r.Ok? ==> Lookup(d, "name").Some? && Lookup(d, "name").value.List?
                      && |r.value| == |Lookup(d, "name").value.items|
    ensures r.Err? ==> r.error.Invalid?
  {
    Field(d, "name", v => ValidateList(v, w => Nested(w, ValidateName)), None)
  }

  function UrlField(d: Fields): (r: Result<string, Fault>)
    ensures r.Ok? ==> IsUrl(r.value) && Lookup(d, "url") == Some(Str(r.value))
    ensures r.Err? ==> r.error.Invalid?
  {
    Field(d, "url", ValidateUrl, None)
  }

  function TypeField(d: Fields): (r: Result<BahnTypeInput, Fault>)
    ensures r.Ok? ==> Lookup(d, "type").Some? && Nested(Lookup(d, "type").value, ValidateType) == Ok(r.value)
    ensures r.Err? ==> r.error.Invalid?
  {
    Field(d, "type", v => Nested(v, ValidateType), None)
  }

  function OperatorField(d: Fields): (r: Result<BahnOperatorInput, Fault>)
    ensures r.Ok? ==> Lookup(d, "operator").Some? && Nested(Lookup(d, "operator").value, ValidateOperator) == Ok(r.value)
    ensures r.Err? ==> r.error.Invalid?
  {
    Field(d, "operator", v => Nested(v, ValidateOperator), None)
  }

  function AddressField(d: Fields): (r: Result<BahnAdressInput, Fault>)
    ensures r.Ok? ==> Lookup(d, "address").Some? && Nested(Lookup(d, "address").value, ValidateAddress) == Ok(r.value)
    ensures r.Err? ==> r.error.Invalid?
  {
    Field(d, "address", v => Nested(v, ValidateAddress), None)
  }

  predicate TotalsOk(cs: seq<BahnCapacityInput>) {
    forall i :: 0 <= i < |cs| ==> 0 <= cs[i].total <= INT32_MAX
  }

  function CapacitiesField(d: Fields): (r: Result<seq<BahnCapacityInput>, Fault>)
    ensures r.Ok? ==> TotalsOk(r.value)
    ensures r.Ok? ==> Lookup(d, "capacity").Some? && Lookup(d, "capacity").value.List?
                      && |r.value| == |Lookup(d, "capacity").value.items|
    ensures r.Err? ==> r.error.Invalid?
  {
    Field(d, "capacity", v => ValidateList(v, w => Nested(w, ValidateCapacity)), None)
  }

  function PrognosisField(d: Fields): (r: Result<bool, Fault>)
    ensures r.Ok? ==> Lookup(d, "hasPrognosis") == Some(Bool(r.value))
    ensures r.Err? ==> r.error.Invalid?
  {
    Field(d, "hasPrognosis", ValidateStrictBool, None)
  }

  function AccessField(d: Fields): (r: Result<BahnAccessInput, Fault>)
    ensures r.Ok? ==> Lookup(d, "access").Some? && Nested(Lookup(d, "access").value, ValidateAccess) == Ok(r.value)
    ensures r.Err? ==> r.error.Invalid?
  {
    Field(d, "access", v => Nested(v, ValidateAccess), None)
  }

  /**
   * `DataclassValidator(BahnParkingSiteInput)` on a dict: the fields in
   * declaration order, the first refusal ending the validation.
   */
  function ValidateBahnParkingSite(d: Fields): (r: Result<BahnParkingSiteInput, Fault>)
    ensures r.Ok? ==> INT32_MIN <= r.value.id <= INT32_MAX
    ensures r.Ok? ==> IsUrl(r.value.url) && TotalsOk(r.value.capacity)
    ensures r.Ok? ==> Lookup(d, "hasPrognosis") == Some(Bool(r.value.hasPrognosis))
    ensures r.Ok? <==> && IdField(d).Ok? && NamesField(d).Ok? && UrlField(d).Ok? && TypeField(d).Ok?
                       && OperatorField(d).Ok? && AddressField(d).Ok? && CapacitiesField(d).Ok?
                       && PrognosisField(d).Ok? && AccessField(d).Ok?
    ensures r.Ok? ==> && r.value.id == IdField(d).value && r.value.name == NamesField(d).value
                      && r.value.url == UrlField(d).value && r.value.siteType == TypeField(d).value
                      && r.value.operator == OperatorField(d).value && r.value.address == AddressField(d).value
                      && r.value.capacity == CapacitiesField(d).value
                      && r.value.hasPrognosis == PrognosisField(d).value && r.value.access == AccessField(d).value
    ensures r.Err? ==> r.error.Invalid?
  {
    var id :- IdField(d);
    var name :- NamesField(d);
    var url :- UrlField(d);
    var siteType :- TypeField(d);
    var operator :- OperatorField(d);
    var address :- AddressField(d);
    var capacity :- CapacitiesField(d);
    var hasPrognosis :- PrognosisField(d);
    var access :- AccessField(d);
    Ok(BahnParkingSiteInput(id, name, url, siteType, operator, address, capacity, hasPrognosis, access))
  }

  // ---------------------------------------------------------------- lemmas

  /** A capacity total may be given as a numeric string, which reads back as the number. */
  lemma CapacityTotalFromString(t: BahnParkingSiteCapacityType, n: nat)
    requires n <= INT32_MAX
    ensures ValidateCapacity([("type", Str(CapacityTypeValue(t))), ("total", Str(NatToString(n)))])
            == Ok(BahnCapacityInput(t, n))
  {
    var s := NatToString(n);
    NatToStringValue(n);
    assert IsDigit(s[0]);
    assert IsIntegerString(s) && IntegerStringValue(s) == n;
    var d := [("type", Str(CapacityTypeValue(t))), ("total", Str(s))];
    LookupAt(d, 0);
    assert d[0].0 != d[1].0;
    LookupAt(d, 1);
  }

  /** Every enumeration value is parsed back to its member. */
  lemma EnumRoundTrips(c: NameContext, k: BahnParkingSiteCapacityType, t: BahnParkingSiteType)
    ensures ValidateEnum(Str(NameContextValue(c)), ParseNameContext) == Ok(c)
    ensures ValidateEnum(Str(CapacityTypeValue(k)), ParseCapacityType) == Ok(k)
    ensures ValidateEnum(Str(BahnParkingSiteTypeValue(t)), ParseBahnParkingSiteType) == Ok(t)
  {
  }
}
