/**
 * The legacy records of util/structs.py: `PoolInfo`, `LotInfo` and
 * `LotData`, whose constructors check and complete their arguments, and
 * `validate_timestamp`.
 */
module LegacyStructs {
  import opened Wrappers
  import opened Text
  import opened Values
  import opened LegacyStrings
  import opened PyOps

  // ---------------------------------------------------------------- PoolInfo

  /** Python's `s or None` on an optional string: the empty string becomes None. */
  function OrNone(s: Option<string>): (r: Option<string>)
    ensures r.Some? <==> s.Some? && s.value != ""
    ensures r.Some? ==> r == s
  {
    if s == Some("") then None else s
  }

  datatype PoolInfo = PoolInfo(
    id: string, name: string, publicUrl: string, timezone: string,
    sourceUrl: Option<string>, attributionLicense: Option<string>,
    attributionUrl: Option<string>, attributionContributor: Option<string>)

  /** `PoolInfo(...)`: the four optional strings are stored with "" turned into None. */
  function NewPoolInfo(
    id: string, name: string, publicUrl: string, timezone: string,
    sourceUrl: Option<string>, attributionLicense: Option<string>,
    attributionUrl: Option<string>, attributionContributor: Option<string>): (p: PoolInfo)
    ensures p.id == id && p.name == name && p.publicUrl == publicUrl && p.timezone == timezone
    ensures p.sourceUrl != Some("") && p.attributionLicense != Some("")
    ensures p.attributionUrl != Some("") && p.attributionContributor != Some("")
    ensures p.sourceUrl.Some? ==> p.sourceUrl == sourceUrl
  {
    PoolInfo(id, name, publicUrl, timezone, OrNone(sourceUrl), OrNone(attributionLicense),
             OrNone(attributionUrl), OrNone(attributionContributor))
  }

  // ----------------------------------------------------------------- LotInfo

  /** The lot types of `LotInfo.Types`. */
  const LotTypes: set<string> := {"bus", "garage", "level", "lot", "street", "underground", "unknown"}

  /**
   * The keys Python (up to 3.12) puts in the `__dict__` of every class
   * statement besides its own attributes.
   */
  const ClassBodyKeys: set<string> := {"__module__", "__doc__", "__dict__", "__weakref__"}

  /** The keys of `vars(LotInfo.Types)`: the lot types and the class-body keys. */
  const LotTypesVars: set<string> := LotTypes + ClassBodyKeys

  datatype LotInfo = LotInfo(
    id: string, name: string, lotType: string, publicUrl: Option<string>, sourceUrl: Option<string>,
    address: Option<string>, capacity: Option<int>, hasLiveCapacity: bool,
    latitude: Option<Decimal>, longitude: Option<Decimal>)

  /** The lot type `LotInfo.__init__` settles on. */
  function ResolveLotType(name: string, lotType: Option<string>): (r: Result<string, Fault>)
    ensures lotType.None? ==> r == (if GuessLotTypeOf(name).Some? then Ok(GuessLotTypeOf(name).value)
                                    else Err(Raised("ValueError", "Can not guess the type of lot")))
    ensures lotType.Some? && lotType.value in LotTypesVars ==> r == Ok(lotType.value)
    ensures lotType.Some? && lotType.value !in LotTypesVars ==>
              r == (if GuessLotTypeOf(lotType.value).Some? then Ok(GuessLotTypeOf(lotType.value).value)
                    else Err(Raised("ValueError", "Lot type is invalid")))
  {
    match lotType
    case None =>
      (match GuessLotTypeOf(name)
       case Some(t) => Ok(t)
       case None => Err(Raised("ValueError", "Can not guess the type of lot")))
    case Some(t) =>
      if t in LotTypesVars then Ok(t)
      else match GuessLotTypeOf(t)
        case Some(g) => Ok(g)
        case None => Err(Raised("ValueError", "Lot type is invalid"))
  }

  /** Python `float(x)` on the values a coordinate can hold; None for a string `float` rejects. */
  function PyFloat(v: Value): (r: Result<Decimal, Fault>)
    requires !v.Null?
    ensures v.Real? ==> r == Ok(v.d)
    ensures v.Int? ==> r == Ok(DecOfInt(v.i))
    ensures v.Str? ==> (r.Ok? <==> ParseDecimal(v.s).Some?) && (r.Ok? ==> r.value == ParseDecimal(v.s).value)
    ensures v.List? || v.Obj? || v.Time? || v.Moment? ==> r.Err?
  {
    match v
    case Bool(b) => Ok(DecOfInt(if b then 1 else 0))
    case Int(i) => Ok(DecOfInt(i))
    case Real(d) => Ok(d)
    case Str(s) =>
      (match ParseDecimal(s)
       case Some(d) => Ok(d)
       case None => Err(Raised("ValueError", "could not convert string to float")))
    case _ => Err(Raised("TypeError", "float() argument must be a string or a number"))
  }

  predicate InCoordinateRange(d: Decimal) { DecLe(DecOfInt(-180), d) && DecLe(d, DecOfInt(180)) }

  /** One step of the coordinate loop: None stays None, anything else must be a float in [-180, 180]. */
  function Coordinate(v: Value): (r: Result<Option<Decimal>, Fault>)
    ensures v.Null? ==> r == Ok(None)
    ensures r.Ok? && r.value.Some? ==> !v.Null? && PyFloat(v) == Ok(r.value.value) && InCoordinateRange(r.value.value)
    ensures r.Err? ==> r.error == Raised("ValueError", "invalid coordinate") || r.error == Raised("ValueError", "coordinate out of bounds")
    ensures !v.Null? && PyFloat(v).Ok? && InCoordinateRange(PyFloat(v).value) ==> r == Ok(Some(PyFloat(v).value))
  {
    if v.Null? then Ok(None)
    else match PyFloat(v)
      case Err(_) => Err(Raised("ValueError", "invalid coordinate"))
      case Ok(d) => if InCoordinateRange(d) then Ok(Some(d)) else Err(Raised("ValueError", "coordinate out of bounds"))
  }

  /** `LotInfo(...)`: the type is settled first, then latitude and then longitude are converted and checked. */
  function MakeLotInfo(
    id: string, name: string, lotType: Option<string>, publicUrl: Option<string>, sourceUrl: Option<string>,
    address: Option<string>, capacity: Option<int>, hasLiveCapacity: bool,
    latitude: Value, longitude: Value): Result<LotInfo, Fault>
  {
    var t :- ResolveLotType(name, lotType);
    var lat :- Coordinate(latitude);
    var lon :- Coordinate(longitude);
    Ok(LotInfo(id, name, t, OrNone(publicUrl), sourceUrl, OrNone(address), capacity, hasLiveCapacity, lat, lon))
  }

  /** `LotInfo.__init__` step by step: fields assigned, type settled, then the loop over the two coordinates. */
  method InitLotInfo(
    id: string, name: string, lotType: Option<string>, publicUrl: Option<string>, sourceUrl: Option<string>,
    address: Option<string>, capacity: Option<int>, hasLiveCapacity: bool,
    latitude: Value, longitude: Value) returns (r: Result<LotInfo, Fault>)
    ensures r == MakeLotInfo(id, name, lotType, publicUrl, sourceUrl, address, capacity, hasLiveCapacity, latitude, longitude)
  {
    MakeLotInfoSteps(id, name, lotType, publicUrl, sourceUrl, address, capacity, hasLiveCapacity, latitude, longitude);
    var info := LotInfo(id, name, "", OrNone(publicUrl), sourceUrl, OrNone(address), capacity, hasLiveCapacity, None, None);
    var t := ResolveLotType(name, lotType);
    if t.Err? {
      return Err(t.error);
    }
    info := info.(lotType := t.value);
    var raw := [latitude, longitude];
    var i := 0;
    while i < 2
      invariant 0 <= i <= 2
      invariant i >= 1 ==> Coordinate(latitude).Ok?
      invariant i >= 2 ==> Coordinate(longitude).Ok?
      invariant info == LotInfo(id, name, t.value, OrNone(publicUrl), sourceUrl, OrNone(address), capacity, hasLiveCapacity,
                                if i >= 1 then Coordinate(latitude).value else None,
                                if i >= 2 then Coordinate(longitude).value else None)
    {
      assert raw[i] == if i == 0 then latitude else longitude;
      var c := Coordinate(raw[i]);
      if c.Err? {
        return Err(c.error);
      }
      if i == 0 {
        info := info.(latitude := c.value);
      } else {
        info := info.(longitude := c.value);
      }
      i := i + 1;
    }
    return Ok(info);
  }

  /** The outcome of each of the three steps of `MakeLotInfo`. */
  lemma MakeLotInfoSteps(
    id: string, name: string, lotType: Option<string>, publicUrl: Option<string>, sourceUrl: Option<string>,
    address: Option<string>, capacity: Option<int>, hasLiveCapacity: bool,
    latitude: Value, longitude: Value)
    ensures var r := MakeLotInfo(id, name, lotType, publicUrl, sourceUrl, address, capacity, hasLiveCapacity, latitude, longitude);
      var t, lat, lon := ResolveLotType(name, lotType), Coordinate(latitude), Coordinate(longitude);
      && (t.Err? ==> r == Err(t.error))
      && (t.Ok? && lat.Err? ==> r == Err(lat.error))
      && (t.Ok? && lat.Ok? && lon.Err? ==> r == Err(lon.error))
      && (t.Ok? && lat.Ok? && lon.Ok? ==>
            r == Ok(LotInfo(id, name, t.value, OrNone(publicUrl), sourceUrl, OrNone(address), capacity, hasLiveCapacity, lat.value, lon.value)))
  {
  }

  /** The constructor keeps the id and the name it is given. */
  lemma MakeLotInfoKeeps(
    id: string, name: string, lotType: Option<string>, publicUrl: Option<string>, sourceUrl: Option<string>,
    address: Option<string>, capacity: Option<int>, hasLiveCapacity: bool,
    latitude: Value, longitude: Value)
    ensures var r := MakeLotInfo(id, name, lotType, publicUrl, sourceUrl, address, capacity, hasLiveCapacity, latitude, longitude);
      r.Ok? ==> r.value.id == id && r.value.name == name
  {
    MakeLotInfoSteps(id, name, lotType, publicUrl, sourceUrl, address, capacity, hasLiveCapacity, latitude, longitude);
  }

  /** A constructed lot always has a type string and coordinates within [-180, 180]. */
  lemma LotInfoInvariant(
    id: string, name: string, lotType: Option<string>, publicUrl: Option<string>, sourceUrl: Option<string>,
    address: Option<string>, capacity: Option<int>, hasLiveCapacity: bool,
    latitude: Value, longitude: Value)
    ensures var r := MakeLotInfo(id, name, lotType, publicUrl, sourceUrl, address, capacity, hasLiveCapacity, latitude, longitude);
      r.Ok? ==>
        && (r.value.lotType in LotTypesVars || r.value.lotType in {"lot", "garage", "underground", "level"})
        && (r.value.latitude.Some? ==> InCoordinateRange(r.value.latitude.value))
        && (r.value.longitude.Some? ==> InCoordinateRange(r.value.longitude.value))
        && r.value.publicUrl != Some("") && r.value.address != Some("")
  {
    MakeLotInfoSteps(id, name, lotType, publicUrl, sourceUrl, address, capacity, hasLiveCapacity, latitude, longitude);
    ResolvedTypeKnown(name, lotType);
  }

  /** The type settled on is a type name or a guessed one. */
  lemma ResolvedTypeKnown(name: string, lotType: Option<string>)
    ensures var t := ResolveLotType(name, lotType);
      t.Ok? ==> t.value in LotTypesVars || t.value in {"lot", "garage", "underground", "level"}
  {
  }

  /** Without a type, a name without any keyword cannot be constructed; a known type is kept as given. */
  lemma LotInfoTypeRules(name: string, t: string, lat: Value, lon: Value)
    ensures GuessLotTypeOf(name).None? ==>
      MakeLotInfo("id", name, None, None, None, None, None, false, lat, lon).Err?
    ensures t in LotTypes && Coordinate(lat).Ok? && Coordinate(lon).Ok? ==>
      MakeLotInfo("id", name, Some(t), None, None, None, None, false, lat, lon).Ok?
      && MakeLotInfo("id", name, Some(t), None, None, None, None, false, lat, lon).value.lotType == t
  {
    MakeLotInfoSteps("id", name, None, None, None, None, None, false, lat, lon);
    MakeLotInfoSteps("id", name, Some(t), None, None, None, None, false, lat, lon);
    if t in LotTypes {
      assert t in LotTypesVars;
    }
  }

  /** The coordinate check admits 180 for latitude too: the bound is the same for both. */
  lemma LatitudeBoundIs180()
    ensures Coordinate(Int(180)) == Ok(Some(DecOfInt(180)))
    ensures Coordinate(Int(181)).Err?
  {
  }

  /** A coordinate written out by `str()` reads back as the same number. */
  lemma CoordinateOfString(d: Decimal)
    requires InCoordinateRange(d)
    ensures Coordinate(Str(DecimalToString(d))) == Ok(Some(d))
  {
    DecimalRoundTrip(d);
  }

  /** The attribute names of a `LotInfo`, in assignment order: the keys `from_dict` copies. */
  const LotInfoKeys: seq<string> := ["id", "name", "type", "public_url", "source_url", "address",
                                      "capacity", "has_live_capacity", "latitude", "longitude"]

  function OptString(v: Value): Result<Option<string>, Fault> {
    match v
    case Null => Ok(None)
    case Str(s) => Ok(Some(s))
    case _ => Err(Raised("TypeError", "str expected"))
  }

  function OptInt(v: Value): Result<Option<int>, Fault> {
    match v
    case Null => Ok(None)
    case Int(i) => Ok(Some(i))
    case _ => Err(Raised("TypeError", "int expected"))
  }

  /** The keyword arguments `from_dict` passes: the entries of `data` whose key is a LotInfo attribute. */
  function FromDictKwargs(data: Fields): (r: Fields)
    ensures forall p :: p in r <==> p in data && p.0 in LotInfoKeys
  {
    FilterKeys(data, k => k in LotInfoKeys)
  }

  /** A LotInfo attribute reads the same in the keyword arguments as in the dict. */
  lemma KwargsLookup(data: Fields, key: string)
    requires key in LotInfoKeys
    ensures Lookup(FromDictKwargs(data), key) == Lookup(data, key)
  {
    LookupFilter(data, k => k in LotInfoKeys, key);
  }

  /** The dict entries have the types the record's fields take (absent entries read as None). */
  predicate KwargsTyped(data: Fields) {
    && HasKey(data, "id") && Get(data, "id").Str?
    && HasKey(data, "name") && Get(data, "name").Str?
    && OptString(Get(data, "type")).Ok? && OptString(Get(data, "public_url")).Ok?
    && OptString(Get(data, "source_url")).Ok? && OptString(Get(data, "address")).Ok?
    && OptInt(Get(data, "capacity")).Ok?
  }

  /** `cls(**kwargs)` on the keyword arguments `from_dict` collected. */
  function LotInfoOfKwargs(kw: Fields): (r: Result<LotInfo, Fault>)
    ensures !HasKey(kw, "id") || !HasKey(kw, "name") ==> r == Err(Raised("TypeError", "missing required argument"))
    ensures r.Ok? ==> Lookup(kw, "id") == Some(Str(r.value.id)) && Lookup(kw, "name") == Some(Str(r.value.name))
  {
    if !HasKey(kw, "id") || !HasKey(kw, "name") then Err(Raised("TypeError", "missing required argument"))
    else if !Get(kw, "id").Str? || !Get(kw, "name").Str? then Err(Raised("TypeError", "str expected"))
    else
      var t :- OptString(Get(kw, "type"));
      var publicUrl :- OptString(Get(kw, "public_url"));
      var sourceUrl :- OptString(Get(kw, "source_url"));
      var address :- OptString(Get(kw, "address"));
      var capacity :- OptInt(Get(kw, "capacity"));
      var info :- MakeLotInfo(Get(kw, "id").s, Get(kw, "name").s, t, publicUrl, sourceUrl, address, capacity,
                              Truthy(Get(kw, "has_live_capacity")), Get(kw, "latitude"), Get(kw, "longitude"));
      MakeLotInfoKeeps(Get(kw, "id").s, Get(kw, "name").s, t, publicUrl, sourceUrl, address, capacity,
                       Truthy(Get(kw, "has_live_capacity")), Get(kw, "latitude"), Get(kw, "longitude"));
      Ok(info)
  }

  /**
   * `LotInfo.from_dict`: the known keys of `data` become keyword arguments,
   * the others are dropped; id and name are required, and every other
   * argument takes its default when absent.
   */
  function LotInfoFromDict(data: Fields): (r: Result<LotInfo, Fault>)
    ensures (forall p :: p in data ==> p.0 in LotInfoKeys) ==> FromDictKwargs(data) == data
    ensures !HasKey(data, "id") || !HasKey(data, "name") ==> r == Err(Raised("TypeError", "missing required argument"))
    ensures r.Ok? ==> Lookup(data, "id") == Some(Str(r.value.id)) && Lookup(data, "name") == Some(Str(r.value.name))
  {
    assert (forall p :: p in data ==> p.0 in LotInfoKeys) ==> FromDictKwargs(data) == data by {
      if forall p :: p in data ==> p.0 in LotInfoKeys {
        FilterKeepsAll(data);
      }
    }
    KwargsLookup(data, "id"); KwargsLookup(data, "name");
    LotInfoOfKwargs(FromDictKwargs(data))
  }

  /** With well-typed entries, `from_dict` is the constructor applied to the entries as given. */
  lemma LotInfoFromDictTyped(data: Fields)
    requires KwargsTyped(data)
    ensures LotInfoFromDict(data)
      == MakeLotInfo(Get(data, "id").s, Get(data, "name").s,
                     OptString(Get(data, "type")).value, OptString(Get(data, "public_url")).value,
                     OptString(Get(data, "source_url")).value, OptString(Get(data, "address")).value,
                     OptInt(Get(data, "capacity")).value, Truthy(Get(data, "has_live_capacity")),
                     Get(data, "latitude"), Get(data, "longitude"))
  {
    var kw := FromDictKwargs(data);
    KwargsLookup(data, "id"); KwargsLookup(data, "name"); KwargsLookup(data, "type");
    KwargsLookup(data, "public_url"); KwargsLookup(data, "source_url"); KwargsLookup(data, "address");
    KwargsLookup(data, "capacity"); KwargsLookup(data, "has_live_capacity");
    KwargsLookup(data, "latitude"); KwargsLookup(data, "longitude");
    LotInfoOfKwargsTyped(kw);
  }

  lemma LotInfoOfKwargsTyped(kw: Fields)
    requires KwargsTyped(kw)
    ensures LotInfoOfKwargs(kw)
      == MakeLotInfo(Get(kw, "id").s, Get(kw, "name").s,
                     OptString(Get(kw, "type")).value, OptString(Get(kw, "public_url")).value,
                     OptString(Get(kw, "source_url")).value, OptString(Get(kw, "address")).value,
                     OptInt(Get(kw, "capacity")).value, Truthy(Get(kw, "has_live_capacity")),
                     Get(kw, "latitude"), Get(kw, "longitude"))
  {
  }

  lemma FilterKeepsAll(data: Fields)
    requires forall p :: p in data ==> p.0 in LotInfoKeys
    ensures FilterKeys(data, k => k in LotInfoKeys) == data
  {
    assert forall i :: 0 <= i < |data| ==> data[i] in data;
    FilterAllKept(data, k => k in LotInfoKeys);
  }

  /** Unknown keys in the dict make no difference to `from_dict`. */
  lemma FromDictIgnoresExtraKeys(data: Fields, key: string, v: Value)
    requires key !in LotInfoKeys
    ensures FromDictKwargs(data + [(key, v)]) == FromDictKwargs(data)
  {
    FilterAppend(data, [(key, v)]);
  }

  lemma {:induction false} FilterAppend(a: Fields, b: Fields)
    ensures FilterKeys(a + b, k => k in LotInfoKeys) == FilterKeys(a, k => k in LotInfoKeys) + FilterKeys(b, k => k in LotInfoKeys)
  {
    if |a| > 0 {
      assert (a + b)[1..] == a[1..] + b;
      FilterAppend(a[1..], b);
    } else {
      assert a + b == b;
    }
  }

  // ------------------------------------------------------- validate_timestamp

  /** `validate_timestamp`: a datetime without tzinfo. */
  function ValidateTimestamp(v: Value): (r: Result<DateTime, Fault>)
    ensures r.Ok? <==> v.Moment? && v.dt.offset.None?
    ensures r.Ok? ==> r.value == v.dt
    ensures r.Err? ==> r.error.Raised? && r.error.kind == "ValueError"
  {
    if !v.Moment? then Err(Raised("ValueError", "timestamp must datetime"))
    else if v.dt.offset.Some? then Err(Raised("ValueError", "timestamp must be UTC and not contain a tzinfo"))
    else Ok(v.dt)
  }

  // ----------------------------------------------------------------- LotData

  /** The keys of `vars(LotData.Status)` that do not start with '_'. */
  const LotStatuses: set<string> := {"open", "closed", "unknown", "nodata", "error"}

  /** All keys of `vars(LotData.Status)`. */
  const LotStatusVars: set<string> := LotStatuses + ClassBodyKeys

  datatype LotData = LotData(
    id: string, timestamp: DateTime, status: string, numFree: Option<int>, numOccupied: Option<int>,
    capacity: Option<int>, lotTimestamp: Option<DateTime>)

  /**
   * `LotData(...)`: both timestamps checked, the status checked, then the
   * missing one of free and occupied derived from the capacity, or the given
   * pair checked against it.
   */
  function MakeLotData(
    timestamp: Value, id: string, status: string, numFree: Option<int>, numOccupied: Option<int>,
    capacity: Option<int>, lotTimestamp: Value): (r: Result<LotData, Fault>)
    ensures r.Ok? ==> r.value.status in LotStatuses && r.value.id == id && r.value.capacity == capacity
    ensures r.Ok? ==> timestamp == Moment(r.value.timestamp) && r.value.timestamp.offset.None?
    ensures r.Ok? ==> StatusOk(status) && ValidateTimestamp(timestamp).Ok?
    ensures (StatusOk(status) && ValidateTimestamp(timestamp).Ok? && (lotTimestamp.Null? || ValidateTimestamp(lotTimestamp).Ok?)
             && CountsAgree(numFree, numOccupied, capacity)) ==> r.Ok?
  {
    var ts :- ValidateTimestamp(timestamp);
    var lts :- if lotTimestamp.Null? then Ok(None) else
                 var t :- ValidateTimestamp(lotTimestamp); Ok(Some(t));
    if !StatusOk(status) then Err(Raised("ValueError", "status must be one of open, closed, unknown, nodata, error"))
    else if capacity.Some? && numFree.Some? then
      if numOccupied.None? then Ok(LotData(id, ts, status, numFree, Some(capacity.value - numFree.value), capacity, lts))
      else if numOccupied.value != capacity.value - numFree.value then Err(Raised("ValueError", "invalid 'num_occupied'"))
      else Ok(LotData(id, ts, status, numFree, numOccupied, capacity, lts))
    else if capacity.Some? && numOccupied.Some? then
      Ok(LotData(id, ts, status, Some(capacity.value - numOccupied.value), numOccupied, capacity, lts))
    else Ok(LotData(id, ts, status, numFree, numOccupied, capacity, lts))
  }

  /** The status test: not starting with '_' and a key of `vars(LotData.Status)`. */
  predicate StatusOk(status: string) { status in LotStatuses }

  /** The given counts do not contradict the capacity. */
  predicate CountsAgree(numFree: Option<int>, numOccupied: Option<int>, capacity: Option<int>) {
    capacity.Some? && numFree.Some? && numOccupied.Some? ==> numOccupied.value == capacity.value - numFree.value
  }

  /** With a capacity and at least one count, the constructed lot has both counts and they add up to the capacity. */
  lemma LotDataCountsAddUp(
    timestamp: Value, id: string, status: string, numFree: Option<int>, numOccupied: Option<int>,
    capacity: Option<int>, lotTimestamp: Value)
    requires capacity.Some? && (numFree.Some? || numOccupied.Some?)
    ensures var r := MakeLotData(timestamp, id, status, numFree, numOccupied, capacity, lotTimestamp);
      r.Ok? ==> r.value.numFree.Some? && r.value.numOccupied.Some?
                && r.value.numFree.value + r.value.numOccupied.value == capacity.value
                && (numFree.Some? ==> r.value.numFree == numFree)
                && (numOccupied.Some? ==> r.value.numOccupied == numOccupied)
  {
  }

  /** Without a capacity the counts are stored as given. */
  lemma LotDataNoCapacity(
    timestamp: Value, id: string, status: string, numFree: Option<int>, numOccupied: Option<int>, lotTimestamp: Value)
    ensures var r := MakeLotData(timestamp, id, status, numFree, numOccupied, None, lotTimestamp);
      r.Ok? ==> r.value.numFree == numFree && r.value.numOccupied == numOccupied
  {
  }

  /** Nothing keeps the derived free count non-negative: 12 occupied of 10 gives -2 free. */
  lemma LotDataNegativeFree(ts: DateTime)
    requires ts.offset.None?
    ensures MakeLotData(Moment(ts), "x", "open", None, Some(12), Some(10), Null)
            == Ok(LotData("x", ts, "open", Some(-2), Some(12), Some(10), None))
  {
  }

  /** An aware timestamp is always refused. */
  lemma LotDataRejectsAware(
    timestamp: DateTime, id: string, status: string, numFree: Option<int>, numOccupied: Option<int>,
    capacity: Option<int>, lotTimestamp: Value)
    requires timestamp.offset.Some?
    ensures MakeLotData(Moment(timestamp), id, status, numFree, numOccupied, capacity, lotTimestamp)
            == Err(Raised("ValueError", "timestamp must be UTC and not contain a tzinfo"))
  {
  }

  /** The attributes of a `LotInfo` as `vars()` lists them. */
  function LotInfoVars(info: LotInfo): (r: Fields)
    ensures |r| == 10
    ensures forall i :: 0 <= i < 10 ==> r[i].0 == LotInfoKeys[i]
  {
    [("id", Str(info.id)), ("name", Str(info.name)), ("type", Str(info.lotType)),
     ("public_url", OptStr(info.publicUrl)), ("source_url", OptStr(info.sourceUrl)),
     ("address", OptStr(info.address)), ("capacity", OptIntValue(info.capacity)),
     ("has_live_capacity", Bool(info.hasLiveCapacity)),
     ("latitude", OptReal(info.latitude)), ("longitude", OptReal(info.longitude))]
  }

  /** The attributes of a `LotData` as `vars()` lists them. */
  function LotDataVars(data: LotData): (r: Fields)
    ensures |r| == 7 && r[0] == ("id", Str(data.id))
  {
    [("id", Str(data.id)), ("timestamp", Moment(data.timestamp)), ("status", Str(data.status)),
     ("num_free", OptIntValue(data.numFree)), ("num_occupied", OptIntValue(data.numOccupied)),
     ("capacity", OptIntValue(data.capacity)),
     ("lot_timestamp", if data.lotTimestamp.Some? then Moment(data.lotTimestamp.value) else Null)]
  }

  function OptStr(s: Option<string>): Value { if s.Some? then Str(s.value) else Null }
  function OptIntValue(i: Option<int>): Value { if i.Some? then Int(i.value) else Null }
  function OptReal(d: Option<Decimal>): Value { if d.Some? then Real(d.value) else Null }
}
