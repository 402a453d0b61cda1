/**
 * v3/pbw/validation.py: the site-type enumeration of the PBW car-park API
 * and the dataclass schemas its city, object, detail and realtime
 * documents are validated against. Only the schemas the converter uses are
 * modelled; the ones commented out in the detail schema are not validated.
 */
module PbwValidation {
  import opened Wrappers
  import opened Text
  import opened Values
  import opened SiteInputs

  // ------------------------------------------------------------ site types

  datatype PbwParkingSiteType = Parkplatz | Parkbereich | Parkhaus | Parkgarage | Parkierungsareal | Gesamtareal

  function PbwParkingSiteTypeName(t: PbwParkingSiteType): string {
    match t
    case Parkplatz => "Parkplatz"
    case Parkbereich => "Parkbereich"
    case Parkhaus => "Parkhaus"
    case Parkgarage => "Parkgarage"
    case Parkierungsareal => "Parkierungsareal"
    case Gesamtareal => "Gesamtareal"
  }

  /** `PbwParkingSiteType(value)`: the member whose value is `s`. */
  function ParsePbwParkingSiteType(s: string): (r: Option<PbwParkingSiteType>)
    ensures r.Some? ==> PbwParkingSiteTypeName(r.value) == s
  {
    if s == "Parkplatz" then Some(Parkplatz)
    else if s == "Parkbereich" then Some(Parkbereich)
    else if s == "Parkhaus" then Some(Parkhaus)
    else if s == "Parkgarage" then Some(Parkgarage)
    else if s == "Parkierungsareal" then Some(Parkierungsareal)
    else if s == "Gesamtareal" then Some(Gesamtareal)
    else None
  }

  lemma PbwParkingSiteTypeRoundTrip(t: PbwParkingSiteType)
    ensures ParsePbwParkingSiteType(PbwParkingSiteTypeName(t)) == Some(t)
  {
  }

  /**
   * `to_parking_site_type_input`: the table covers every member, so the
   * OTHER fallback is never taken.
   */
  function ToParkingSiteType(t: PbwParkingSiteType): (r: ParkingSiteType)
    ensures r != Other
    ensures r == OnStreet <==> t == Parkplatz || t == Parkbereich
    ensures r == CarPark <==> t == Parkhaus
    ensures r == Underground <==> t == Parkgarage
    ensures r == OffStreetParkingGround <==> t == Parkierungsareal || t == Gesamtareal
  {
    match t
    case Parkplatz => OnStreet
    case Parkbereich => OnStreet
    case Parkhaus => CarPark
    case Parkgarage => Underground
    case Parkierungsareal => OffStreetParkingGround
    case Gesamtareal => OffStreetParkingGround
  }

  datatype PbwParkingSiteShortType = PP | PG | PH | PA

  function ParsePbwParkingSiteShortType(s: string): (r: Option<PbwParkingSiteShortType>)
    ensures r.Some? <==> s in {"PP", "PG", "PH", "PA"}
  {
    if s == "PP" then Some(PP) else if s == "PG" then Some(PG)
    else if s == "PH" then Some(PH) else if s == "PA" then Some(PA)
    else None
  }

  // ------------------------------------------------------------- schemas

  datatype CityInput = CityInput(id: int, name: string, countObjects: int)

  datatype SiteInput = SiteInput(id: int, idCity: int, name: string)

  datatype ObjectInput = ObjectInput(
    name: string, plz: string, ort: string, land: string, strasse: string,
    artLang: PbwParkingSiteType, artKurz: PbwParkingSiteShortType)

  datatype PositionInput = PositionInput(longitude: Decimal, latitude: Decimal)

  datatype PlacesInput = PlacesInput(gesamt: int, behinderte: int, familien: int, frauen: int, elektrofahrzeuge: int)

  datatype TypeInput = TypeInput(dauerparker: bool, kurzparker: bool, eparker: bool)

  /** `PbwParkingSiteSetupInput`, its eighteen fields grouped in three blocks of declaration order. */
  datatype SetupInput = SetupInput(amenities: Amenities, services: Services, dimensions: Dimensions)

  datatype Amenities = Amenities(
    aufzug: bool, videoaufzeichnung: bool, schuelerkunst: bool, wc: bool, wcMitarbeiter: bool,
    behindertenstellplaetze: bool, familienstellplaetze: bool)

  datatype Services = Services(
    frauenstellplaetze: bool, pAndR: bool, regenschirmautomat: bool, notrufmoeglichkeiten: bool,
    servicepersonal: bool, parkplatzreservierung: bool, serviceangebote: Option<string>)

  datatype Dimensions = Dimensions(
    einfahrtshoehe: Option<Decimal>, einfahrtsbreite: Option<Decimal>,
    stellplatzbreiteMax: Option<Decimal>, stellplatzbreiteMin: Option<Decimal>)

  datatype DetailInput = DetailInput(
    id: int, objekt: ObjectInput, position: PositionInput, stellplaetze: PlacesInput,
    typ: TypeInput, ausstattung: SetupInput)

  datatype DynamicInput = DynamicInput(kurzparkerFrei: Option<int>, ladeplaetzeFrei: Option<int>)

  datatype RealtimeInput = RealtimeInput(id: int, dynamisch: DynamicInput)

  // ----------------------------------------------------- field validators

  /** `IntegerValidator(allow_strings=True)`, with the library's 32-bit default range. */
  function Id(v: Value): (r: Result<int, Fault>)
    ensures r.Ok? ==> INT32_MIN <= r.value <= INT32_MAX
  {
    ValidateInteger(v, INT32_MIN, INT32_MAX, true)
  }

  /** `IntegerValidator(min_value=0)`. */
  function Count(v: Value): (r: Result<int, Fault>)
    ensures r.Ok? ==> 0 <= r.value <= INT32_MAX
  {
    ValidateInteger(v, 0, INT32_MAX, false)
  }

  // ------------------------------------------------------- class validators

  function ValidateCity(d: Fields): (r: Result<CityInput, Fault>)
    ensures r.Ok? ==> Lookup(d, "name") == Some(Str(r.value.name))
    ensures r.Err? ==> r.error.Invalid?
  {
    var id :- Field(d, "id", Id, None);
    var name :- Field(d, "name", PlainText, None);
    var countObjects :- Field(d, "count_objects", Id, None);
    Ok(CityInput(id, name, countObjects))
  }

  function ValidateSite(d: Fields): (r: Result<SiteInput, Fault>)
    ensures r.Ok? ==> Lookup(d, "id").Some? && Id(Lookup(d, "id").value) == Ok(r.value.id)
    ensures r.Err? ==> r.error.Invalid?
  {
    var id :- Field(d, "id", Id, None);
    var idCity :- Field(d, "id_city", Id, None);
    var name :- Field(d, "name", PlainText, None);
    Ok(SiteInput(id, idCity, name))
  }

  function ValidateObject(d: Fields): (r: Result<ObjectInput, Fault>)
    ensures r.Ok? ==> 1 <= |r.value.name| <= 256
    ensures r.Ok? ==> Lookup(d, "art_lang") == Some(Str(PbwParkingSiteTypeName(r.value.artLang)))
    ensures r.Ok? ==> Lookup(d, "strasse") == Some(Str(r.value.strasse)) && Lookup(d, "plz") == Some(Str(r.value.plz))
                      && Lookup(d, "ort") == Some(Str(r.value.ort))
    ensures r.Err? ==> r.error.Invalid?
  {
    var name :- Field(d, "name", v => ValidateString(v, 1, Some(256), false), None);
    var plz :- Field(d, "plz", PlainText, None);
    var ort :- Field(d, "ort", PlainText, None);
    var land :- Field(d, "land", PlainText, None);
    var strasse :- Field(d, "strasse", PlainText, None);
    var artLang :- Field(d, "art_lang", v => ValidateEnum(v, ParsePbwParkingSiteType), None);
    var artKurz :- Field(d, "art_kurz", v => ValidateEnum(v, ParsePbwParkingSiteShortType), None);
    Ok(ObjectInput(name, plz, ort, land, strasse, artLang, artKurz))
  }

  function ValidatePosition(d: Fields): (r: Result<PositionInput, Fault>)
    ensures r.Ok? ==> Lookup(d, "longitude").Some? && Number(Lookup(d, "longitude").value) == Ok(r.value.longitude)
    ensures r.Ok? ==> Lookup(d, "latitude").Some? && Number(Lookup(d, "latitude").value) == Ok(r.value.latitude)
    ensures r.Err? ==> r.error.Invalid?
  {
    var longitude :- Field(d, "longitude", Number, None);
    var latitude :- Field(d, "latitude", Number, None);
    Ok(PositionInput(longitude, latitude))
  }

  predicate PlacesOk(p: PlacesInput) {
    0 <= p.gesamt <= INT32_MAX && 0 <= p.behinderte <= INT32_MAX && 0 <= p.familien <= INT32_MAX
    && 0 <= p.frauen <= INT32_MAX && 0 <= p.elektrofahrzeuge <= INT32_MAX
  }

  const PlacesKeys: seq<string> := ["gesamt", "behinderte", "familien", "frauen", "elektrofahrzeuge"]

  /** Every place count is a native int from 0 up to the 32-bit maximum, and the counts are those of the dict. */
  function ValidatePlaces(d: Fields): (r: Result<PlacesInput, Fault>)
    ensures r.Ok? ==> PlacesOk(r.value)
    ensures r.Ok? ==> Lookup(d, "gesamt") == Some(Int(r.value.gesamt)) && Lookup(d, "behinderte") == Some(Int(r.value.behinderte))
                      && Lookup(d, "familien") == Some(Int(r.value.familien)) && Lookup(d, "frauen") == Some(Int(r.value.frauen))
                      && Lookup(d, "elektrofahrzeuge") == Some(Int(r.value.elektrofahrzeuge))
    ensures (forall i :: 0 <= i < |PlacesKeys| ==>
               (Lookup(d, PlacesKeys[i]).Some? && Lookup(d, PlacesKeys[i]).value.Int?
                && 0 <= Lookup(d, PlacesKeys[i]).value.i <= INT32_MAX)) ==> r.Ok?
    ensures r.Err? ==> r.error.Invalid?
  {
    assert PlacesKeys[0] == "gesamt" && PlacesKeys[1] == "behinderte" && PlacesKeys[2] == "familien"
        && PlacesKeys[3] == "frauen" && PlacesKeys[4] == "elektrofahrzeuge";
    var gesamt :- Field(d, "gesamt", Count, None);
    var behinderte :- Field(d, "behinderte", Count, None);
    var familien :- Field(d, "familien", Count, None);
    var frauen :- Field(d, "frauen", Count, None);
    var elektrofahrzeuge :- Field(d, "elektrofahrzeuge", Count, None);
    Ok(PlacesInput(gesamt, behinderte, familien, frauen, elektrofahrzeuge))
  }

  function ValidateType(d: Fields): (r: Result<TypeInput, Fault>)
    ensures r.Ok? <==>
      && Lookup(d, "dauerparker").Some? && Lookup(d, "dauerparker").value.Bool?
      && Lookup(d, "kurzparker").Some? && Lookup(d, "kurzparker").value.Bool?
      && Lookup(d, "eparker").Some? && Lookup(d, "eparker").value.Bool?
    ensures r.Ok? ==>
      && Lookup(d, "dauerparker") == Some(Bool(r.value.dauerparker))
      && Lookup(d, "kurzparker") == Some(Bool(r.value.kurzparker))
      && Lookup(d, "eparker") == Some(Bool(r.value.eparker))
    ensures r.Err? ==> r.error.Invalid?
  {
    var dauerparker :- Field(d, "dauerparker", ValidateStrictBool, None);
    var kurzparker :- Field(d, "kurzparker", ValidateStrictBool, None);
    var eparker :- Field(d, "eparker", ValidateStrictBool, None);
    Ok(TypeInput(dauerparker, kurzparker, eparker))
  }

  function ValidateAmenities(d: Fields): (r: Result<Amenities, Fault>)
    ensures r.Ok? ==>
      && Lookup(d, "aufzug") == Some(Bool(r.value.aufzug))
      && Lookup(d, "videoaufzeichnung") == Some(Bool(r.value.videoaufzeichnung))
      && Lookup(d, "schuelerkunst") == Some(Bool(r.value.schuelerkunst))
      && Lookup(d, "wc") == Some(Bool(r.value.wc))
      && Lookup(d, "wc_mitarbeiter") == Some(Bool(r.value.wcMitarbeiter))
      && Lookup(d, "behindertenstellplaetze") == Some(Bool(r.value.behindertenstellplaetze))
      && Lookup(d, "familienstellplaetze") == Some(Bool(r.value.familienstellplaetze))
    ensures r.Err? ==> r.error.Invalid?
  {
    var aufzug :- Field(d, "aufzug", ValidateStrictBool, None);
    var videoaufzeichnung :- Field(d, "videoaufzeichnung", ValidateStrictBool, None);
    var schuelerkunst :- Field(d, "schuelerkunst", ValidateStrictBool, None);
    var wc :- Field(d, "wc", ValidateStrictBool, None);
    var wcMitarbeiter :- Field(d, "wc_mitarbeiter", ValidateStrictBool, None);
    var behindertenstellplaetze :- Field(d, "behindertenstellplaetze", ValidateStrictBool, None);
    var familienstellplaetze :- Field(d, "familienstellplaetze", ValidateStrictBool, None);
    Ok(Amenities(aufzug, videoaufzeichnung, schuelerkunst, wc, wcMitarbeiter, behindertenstellplaetze, familienstellplaetze))
  }

  function ValidateServices(d: Fields): (r: Result<Services, Fault>)
    ensures r.Ok? ==>
      && Lookup(d, "frauenstellplaetze") == Some(Bool(r.value.frauenstellplaetze))
      && Lookup(d, "p_and_r") == Some(Bool(r.value.pAndR))
      && Lookup(d, "regenschirmautomat") == Some(Bool(r.value.regenschirmautomat))
      && Lookup(d, "notrufmoeglichkeiten") == Some(Bool(r.value.notrufmoeglichkeiten))
      && Lookup(d, "servicepersonal") == Some(Bool(r.value.servicepersonal))
      && Lookup(d, "parkplatzreservierung") == Some(Bool(r.value.parkplatzreservierung))
    ensures r.Err? ==> r.error.Invalid?
  {
    var frauenstellplaetze :- Field(d, "frauenstellplaetze", ValidateStrictBool, None);
    var pAndR :- Field(d, "p_and_r", ValidateStrictBool, None);
    var regenschirmautomat :- Field(d, "regenschirmautomat", ValidateStrictBool, None);
    var notrufmoeglichkeiten :- Field(d, "notrufmoeglichkeiten", ValidateStrictBool, None);
    var servicepersonal :- Field(d, "servicepersonal", ValidateStrictBool, None);
    var parkplatzreservierung :- Field(d, "parkplatzreservierung", ValidateStrictBool, None);
    var serviceangebote :- Field(d, "serviceangebote", v => OptionalOf(v, PlainText), None);
    Ok(Services(frauenstellplaetze, pAndR, regenschirmautomat, notrufmoeglichkeiten, servicepersonal,
                parkplatzreservierung, serviceangebote))
  }

  /** The four measures are required keys that may hold None. */
  function ValidateDimensions(d: Fields): (r: Result<Dimensions, Fault>)
    ensures r.Ok? ==> Lookup(d, "einfahrtshoehe").Some?
    ensures r.Ok? && r.value.einfahrtshoehe.None? ==> Lookup(d, "einfahrtshoehe") == Some(Null)
    ensures r.Err? ==> r.error.Invalid?
  {
    var einfahrtshoehe :- Field(d, "einfahrtshoehe", v => OptionalOf(v, Number), None);
    var einfahrtsbreite :- Field(d, "einfahrtsbreite", v => OptionalOf(v, Number), None);
    var stellplatzbreiteMax :- Field(d, "stellplatzbreite_max", v => OptionalOf(v, Number), None);
    var stellplatzbreiteMin :- Field(d, "stellplatzbreite_min", v => OptionalOf(v, Number), None);
    Ok(Dimensions(einfahrtshoehe, einfahrtsbreite, stellplatzbreiteMax, stellplatzbreiteMin))
  }

  function ValidateSetup(d: Fields): (r: Result<SetupInput, Fault>)
    ensures r.Ok? <==> ValidateAmenities(d).Ok? && ValidateServices(d).Ok? && ValidateDimensions(d).Ok?
    ensures r.Err? ==> r.error.Invalid?
  {
    var amenities :- ValidateAmenities(d);
    var services :- ValidateServices(d);
    var dimensions :- ValidateDimensions(d);
    Ok(SetupInput(amenities, services, dimensions))
  }

  function ObjectField(d: Fields): (r: Result<ObjectInput, Fault>)
    ensures r.Ok? ==> Lookup(d, "objekt").Some? && Nested(Lookup(d, "objekt").value, ValidateObject) == Ok(r.value)
    ensures r.Ok? ==> 1 <= |r.value.name| <= 256
    ensures r.Err? ==> r.error.Invalid?
  {
    Field(d, "objekt", v => Nested(v, ValidateObject), None)
  }

  function PositionField(d: Fields): (r: Result<PositionInput, Fault>)
    ensures r.Ok? ==> Lookup(d, "position").Some? && Nested(Lookup(d, "position").value, ValidatePosition) == Ok(r.value)
    ensures r.Err? ==> r.error.Invalid?
  {
    Field(d, "position", v => Nested(v, ValidatePosition), None)
  }

  function PlacesField(d: Fields): (r: Result<PlacesInput, Fault>)
    ensures r.Ok? ==> Lookup(d, "stellplaetze").Some? && Nested(Lookup(d, "stellplaetze").value, ValidatePlaces) == Ok(r.value)
    ensures r.Ok? ==> PlacesOk(r.value)
    ensures r.Err? ==> r.error.Invalid?
  {
    Field(d, "stellplaetze", v => Nested(v, ValidatePlaces), None)
  }

  function TypeField(d: Fields): (r: Result<TypeInput, Fault>)
    ensures r.Ok? ==> Lookup(d, "typ").Some? && Nested(Lookup(d, "typ").value, ValidateType) == Ok(r.value)
    ensures r.Err? ==> r.error.Invalid?
  {
    Field(d, "typ", v => Nested(v, ValidateType), None)
  }

  function SetupField(d: Fields): (r: Result<SetupInput, Fault>)
    ensures r.Ok? ==> Lookup(d, "ausstattung").Some? && Nested(Lookup(d, "ausstattung").value, ValidateSetup) == Ok(r.value)
    ensures r.Err? ==> r.error.Invalid?
  {
    Field(d, "ausstattung", v => Nested(v, ValidateSetup), None)
  }

  /** `PbwParkingSiteDetailInput`: the id and five nested dicts, each validated by its own schema. */
  function ValidateDetail(d: Fields): (r: Result<DetailInput, Fault>)
    ensures r.Ok? ==> ObjectField(d) == Ok(r.value.objekt) && PositionField(d) == Ok(r.value.position)
                      && PlacesField(d) == Ok(r.value.stellplaetze)
    ensures r.Ok? ==> PlacesOk(r.value.stellplaetze) && 1 <= |r.value.objekt.name| <= 256
    ensures r.Err? ==> r.error.Invalid?
  {
    var id :- Field(d, "id", Id, None);
    var objekt :- ObjectField(d);
    var position :- PositionField(d);
    var stellplaetze :- PlacesField(d);
    var typ :- TypeField(d);
    var ausstattung :- SetupField(d);
    Ok(DetailInput(id, objekt, position, stellplaetze, typ, ausstattung))
  }

  /** Both free counts are absent, None or a native int of at least zero; an absent one is None. */
  function ValidateDynamic(d: Fields): (r: Result<DynamicInput, Fault>)
    ensures r.Ok? ==> CountOk(r.value.kurzparkerFrei) && CountOk(r.value.ladeplaetzeFrei)
    ensures Lookup(d, "kurzparker_frei").None? && Lookup(d, "ladeplaetze_frei").None? ==> r == Ok(DynamicInput(None, None))
    ensures r.Ok? && r.value.kurzparkerFrei.Some? ==> Lookup(d, "kurzparker_frei") == Some(Int(r.value.kurzparkerFrei.value))
    ensures r.Err? ==> r.error.Invalid?
  {
    var kurzparkerFrei :- CountField(d, "kurzparker_frei");
    var ladeplaetzeFrei :- CountField(d, "ladeplaetze_frei");
    Ok(DynamicInput(kurzparkerFrei, ladeplaetzeFrei))
  }

  function ValidateRealtimeInput(d: Fields): (r: Result<RealtimeInput, Fault>)
    ensures r.Ok? ==> CountOk(r.value.dynamisch.kurzparkerFrei) && INT32_MIN <= r.value.id <= INT32_MAX
    ensures r.Err? ==> r.error.Invalid?
  {
    var id :- Field(d, "id", Id, None);
    var dynamisch :- Field(d, "dynamisch", v => Nested(v, ValidateDynamic), None);
    Ok(RealtimeInput(id, dynamisch))
  }
}
