/**
 * v3/stuttgart.py: a DATEX II document converted to a dict, holding either
 * the facility table (static data) or the facility status table (realtime
 * data). Each facility is turned into an input dict, with the projected
 * coordinates, an optional height limit and the sub-capacities its assigned
 * spaces describe, and validated on its own.
 */
module Stuttgart {
  import opened Wrappers
  import opened Text
  import opened Values
  import opened PyOps
  import opened XmlHelper
  import opened SiteInputs
  import opened ImportResults
  import opened Aggregation

  const Info := SourceInfo("stuttgart", "Stuttgart",
    Some("https://service.mdm-portal.de/mdm-portal-application/publDetail.do?publicationId=3059002"))

  /**
   * Which reading of the converter a definition follows: as written, or with
   * the two corrections applied (list keys given as (parent, child) pairs,
   * opening statuses spelled as the enum spells them).
   */
  datatype Reading = AsWritten | Corrected

  const ConditionalRemoteTypeTags: seq<(string, string)> :=
    [("values", "value"), ("periodName", "values"), ("parkingFacilityName", "values"), ("openingTimes", "period")]

  /** The conversion options: the list keys as plain names as written, as pairs once corrected. */
  function XmlOptions(reading: Reading): Options {
    match reading
    case AsWritten =>
      Options([Bare("parkingFacility"), Bare("parkingFacilityStatus")], [], ConditionalRemoteTypeTags, [])
    case Corrected =>
      Options([Pair("parkingFacilityTable", "parkingFacility"),
               Pair("parkingFacilityTableStatusPublication", "parkingFacilityStatus")], [], ConditionalRemoteTypeTags, [])
  }

  /** The UTM-to-WGS84 inversion: (easting, northing) to (longitude, latitude). */
  type Projection = (Decimal, Decimal) -> (Decimal, Decimal)

  /** A fault raised outside every `try` of the converter ends the call. */
  function Escape<T>(r: Result<T, Fault>): (e: Result<T, Abort>)
    ensures e.Ok? <==> r.Ok?
    ensures r.Ok? ==> e.value == r.value
    ensures r.Err? ==> e.error == Raise(r.error)
  {
    match r
    case Ok(v) => Ok(v)
    case Err(f) => Err(Raise(f))
  }

  // ---------------------------------------------------------- sub-capacities

  /** The sub-capacity table: a (key, value) pair of a space description and the capacity field it fills. */
  const CapacityTable: seq<((string, Value), string)> := [
    (("personTypeForWhichSpacesAssigned", Str("disabled")), "capacity_disabled"),
    (("personTypeForWhichSpacesAssigned", Str("families")), "capacity_family"),
    (("personTypeForWhichSpacesAssigned", Str("women")), "capacity_woman"),
    (("characteristicsOfVehiclesForWhichSpacesAssigned", Obj([("fuelType", Str("battery"))])), "capacity_charging")
  ]

  /** The fields the sub-capacity loop may write. */
  predicate IsCapacityField(k: string) {
    k == "capacity_disabled" || k == "capacity_family" || k == "capacity_woman" || k == "capacity_charging"
  }

  /** The field of the first table entry whose pair is (key, value), as the `break` finds it. */
  function FirstMatch(table: seq<((string, Value), string)>, key: string, value: Value): (r: Option<string>)
    ensures r.None? <==> forall e :: e in table ==> e.0 != (key, value)
    ensures r.Some? ==> ((key, value), r.value) in table
  {
    if |table| == 0 then None
    else if table[0].0 == (key, value) then Some(table[0].1)
    else
      assert forall e :: e in table ==> e == table[0] || e in table[1..];
      FirstMatch(table[1..], key, value)
  }

  /**
   * The entries of one space description, applied in order: a matching
   * entry stores `int(numberOfAssignedParkingSpaces)` of `spaces` (the
   * sub-capacity's `assignedParkingSpaces`, None when absent) under its field.
   */
  function ApplyEntries(d: Fields, spaces: Value, entries: Fields): (r: Result<Fields, Fault>)
    ensures r.Ok? ==> forall k :: !IsCapacityField(k) ==> Lookup(r.value, k) == Lookup(d, k)
    ensures r.Err? ==> r.error.Raised?
    decreases |entries|
  {
    if |entries| == 0 then Ok(d)
    else
      var acc :- ApplyEntries(d, spaces, entries[..|entries| - 1]);
      var entry := entries[|entries| - 1];
      match FirstMatch(CapacityTable, entry.0, entry.1)
      case None => Ok(acc)
      case Some(field) =>
        var count :- Subscript(spaces, "numberOfAssignedParkingSpaces");
        var n :- IntOf(count);
        CapacityFieldOfTable(entry.0, entry.1);
        forall k | !IsCapacityField(k) ensures Lookup(Put(acc, field, Int(n)), k) == Lookup(d, k) {
          LookupPut(acc, field, Int(n), k);
        }
        Ok(Put(acc, field, Int(n)))
  }

  /** Every field in the table is a capacity field. */
  lemma CapacityFieldOfTable(key: string, value: Value)
    ensures FirstMatch(CapacityTable, key, value).Some? ==> IsCapacityField(FirstMatch(CapacityTable, key, value).value)
  {
    var r := FirstMatch(CapacityTable, key, value);
    if r.Some? {
      assert ((key, value), r.value) in CapacityTable;
    }
  }

  /** One sub-capacity: its description must be a dict, since `.items()` is called on it. */
  function ApplySub(d: Fields, sub: Value): (r: Result<Fields, Fault>)
    ensures r.Ok? ==> forall k :: !IsCapacityField(k) ==> Lookup(r.value, k) == Lookup(d, k)
    ensures r.Err? ==> r.error.Raised?
  {
    var spaces :- GetOr(sub, "assignedParkingSpaces", Obj([]));
    var description :- GetOr(spaces, "descriptionOfAssignedParkingSpaces", Obj([]));
    if !description.Obj? then Err(Raised("AttributeError", "object has no attribute 'items'"))
    else ApplyEntries(d, Get(sub.fields, "assignedParkingSpaces"), description.fields)
  }

  /** The sub-capacities in order; a later one overwrites a field an earlier one set. */
  function ApplySubs(d: Fields, subs: seq<Value>): (r: Result<Fields, Fault>)
    ensures r.Ok? ==> forall k :: !IsCapacityField(k) ==> Lookup(r.value, k) == Lookup(d, k)
    ensures r.Err? ==> r.error.Raised?
  {
    if |subs| == 0 then Ok(d)
    else
      var acc :- ApplySubs(d, subs[..|subs| - 1]);
      ApplySub(acc, subs[|subs| - 1])
  }

  // ----------------------------------------------------------- static items

  /** `max_height` in millimetres, set only for a truthy height under a "lessThan" comparison. */
  function MaxHeight(d: Fields, height: Value): (r: Result<Fields, Fault>)
    ensures r.Ok? ==> forall k :: k != "max_height" ==> Lookup(r.value, k) == Lookup(d, k)
    ensures r.Err? ==> r.error.Raised?
  {
    var operator :- GetOr(height, "comparisonOperator", Null);
    if operator != Str("lessThan") then Ok(d)
    else
      var limit := Get(height.fields, "vehicleHeight");
      if !Truthy(limit) then Ok(d)
      else
        var metres :- FloatOf(limit);
        var millimetres := Truncate(Decimal(metres.digits * 1000, metres.scale));
        forall k | k != "max_height" ensures Lookup(Put(d, "max_height", Int(millimetres)), k) == Lookup(d, k) {
          LookupPut(d, "max_height", Int(millimetres), k);
        }
        Ok(Put(d, "max_height", Int(millimetres)))
  }

  /** The input dict's first five fields. */
  function BaseFields(f: Fields, capacity: int): (r: Fields)
    ensures Lookup(r, "has_realtime_data") == Some(Bool(true))
    ensures Lookup(r, "capacity") == Some(Int(capacity))
    ensures Lookup(r, "uid") == Some(Get(f, "id"))
  {
    var r := [("uid", Get(f, "id")), ("name", Get(f, "parkingFacilityName")), ("has_realtime_data", Bool(true)),
              ("capacity", Int(capacity)), ("static_data_updated_at", Get(f, "parkingFacilityRecordVersionTime"))];
    assert r[2].0 == "has_realtime_data" && r[3].0 == "capacity" && r[0].0 == "uid";
    r
  }

  /** The coordinates of the display location, converted by `project`. */
  function Coordinates(f: Fields, project: Projection): (r: Result<(Decimal, Decimal), Fault>)
    ensures r.Err? ==> r.error.Raised?
  {
    var location := Lookup(f, "facilityLocation").UnwrapOr(Obj([]));
    var display :- GetOr(location, "locationForDisplay", Obj([]));
    var easting :- GetOr(display, "longitude", Null);
    var x :- FloatOf(easting);
    var y :- FloatOf(Get(display.fields, "latitude"));
    Ok(project(x, y))
  }

  /** The height limit and the sub-capacities, added to the dict `d`. */
  function Extras(f: Fields, d: Fields): (r: Result<Fields, Fault>)
    ensures r.Err? ==> r.error.Raised?
    ensures r.Ok? ==> forall k :: k != "max_height" && !IsCapacityField(k) ==> Lookup(r.value, k) == Lookup(d, k)
  {
    var heights := Lookup(f, "characteristicsOfPermittedVehicles").UnwrapOr(Obj([]));
    var height :- GetOr(heights, "heightCharacteristic", Obj([]));
    var withHeight :- MaxHeight(d, height);
    var subItems :- Iterate(Lookup(f, "assignedParkingSpaces").UnwrapOr(List([])));
    ApplySubs(withHeight, subItems)
  }

  /** `_handle_static_item` up to the validator: the input dict of one facility. */
  function StaticDict(item: Value, project: Projection): (r: Result<Fields, Fault>)
    ensures r.Err? ==> r.error.Raised?
    ensures !item.Obj? ==> r.Err?
    ensures r.Ok? ==> Lookup(r.value, "has_realtime_data") == Some(Bool(true))
    ensures r.Ok? ==> (Coordinates(item.fields, project).Ok?
      && Lookup(r.value, "lat") == Some(Real(Coordinates(item.fields, project).value.1))
      && Lookup(r.value, "lon") == Some(Real(Coordinates(item.fields, project).value.0)))
  {
    if !item.Obj? then Err(Raised("AttributeError", "object has no attribute 'get'"))
    else
      var capacity :- IntOf(Get(item.fields, "totalParkingCapacity"));
      var coordinates :- Coordinates(item.fields, project);
      var d := PositionedFields(item.fields, capacity, coordinates);
      ExtrasKeepPosition(item.fields, d);
      Extras(item.fields, d)
  }

  /** The extras leave the realtime flag and the position alone. */
  lemma ExtrasKeepPosition(f: Fields, d: Fields)
    ensures Extras(f, d).Ok? ==> Lookup(Extras(f, d).value, "has_realtime_data") == Lookup(d, "has_realtime_data")
    ensures Extras(f, d).Ok? ==> Lookup(Extras(f, d).value, "lat") == Lookup(d, "lat")
    ensures Extras(f, d).Ok? ==> Lookup(Extras(f, d).value, "lon") == Lookup(d, "lon")
  {
    assert !IsCapacityField("has_realtime_data") && "has_realtime_data" != "max_height";
    assert !IsCapacityField("lat") && "lat" != "max_height";
    assert !IsCapacityField("lon") && "lon" != "max_height";
  }

  /** The first five fields, then `lat` from the second and `lon` from the first projected component. */
  function PositionedFields(f: Fields, capacity: int, coordinates: (Decimal, Decimal)): (r: Fields)
    ensures Lookup(r, "has_realtime_data") == Some(Bool(true))
    ensures Lookup(r, "lat") == Some(Real(coordinates.1)) && Lookup(r, "lon") == Some(Real(coordinates.0))
  {
    var base := BaseFields(f, capacity);
    var withLat := Put(base, "lat", Real(coordinates.1));
    LookupPut(base, "lat", Real(coordinates.1), "has_realtime_data");
    LookupPut(withLat, "lon", Real(coordinates.0), "has_realtime_data");
    LookupPut(withLat, "lon", Real(coordinates.0), "lat");
    LookupPut(base, "lat", Real(coordinates.1), "lat");
    LookupPut(withLat, "lon", Real(coordinates.0), "lon");
    Put(withLat, "lon", Real(coordinates.0))
  }

  /** `_handle_static_item`. */
  function StaticInput(item: Value, project: Projection): (r: Result<StaticParkingSiteInput, Fault>)
    ensures r.Ok? ==> ValidStatic(r.value, Base, GeoBounds)
  {
    var d :- StaticDict(item, project);
    ValidateStatic(Obj(d))
  }

  /** The error of a rejected item carries the item's own `id`. */
  function ItemError(item: Value, f: Fault): ImportException {
    SiteError(if item.Obj? then Get(item.fields, "id") else Null, FaultText(f))
  }

  function StaticStep(item: Value, project: Projection): (r: Step<StaticParkingSiteInput>)
    ensures r.Ok? ==> !r.value.Skip?
  {
    match StaticInput(item, project)
    case Ok(s) => Ok(Accept(s))
    case Err(f) => if f.Invalid? then Ok(Reject(ItemError(item, f))) else Err(Raise(f))
  }

  function StaticSteps(items: seq<Value>, project: Projection): (r: seq<Step<StaticParkingSiteInput>>)
    ensures |r| == |items| && forall i :: 0 <= i < |items| ==> r[i] == StaticStep(items[i], project)
  {
    seq(|items|, i requires 0 <= i < |items| => StaticStep(items[i], project))
  }

  /** The static branch: every facility validated, the realtime lists left out of the result. */
  function StaticBranch(items: seq<Value>, project: Projection): (r: Result<ImportSourceResult, Abort>)
    ensures r.Ok? ==> r.value.staticInputs.Some? && r.value.staticErrors.Some?
                      && r.value.realtimeInputs.None? && r.value.realtimeErrors.None?
    ensures r.Ok? ==> |r.value.staticInputs.value| + |r.value.staticErrors.value| == |items|
  {
    var steps := StaticSteps(items, project);
    match Gather(steps)
    case Err(a) => Err(a)
    case Ok(g) =>
      GatherSpec(steps);
      GatherCountsNoSkip(steps);
      Ok(GenerateImportSourceResult(Info, Some(g.0), None, Some(g.1), None))
  }

  // --------------------------------------------------------- realtime items

  /** The status text the converter stores: lower-case as written, the enum's spelling once corrected. */
  function StatusText(status: OpeningStatus, reading: Reading): string {
    match reading
    case AsWritten => if status == Open then "open" else "closed"
    case Corrected => OpeningStatusName(status)
  }

  /** `item.get('totalNumberOfVacantParkingSpaces', 0)`. */
  function Vacant(f: Fields): Value {
    Lookup(f, "totalNumberOfVacantParkingSpaces").UnwrapOr(Int(0))
  }

  /** The status the item's status list names, if any: open wins over closed. */
  function StatusChoice(f: Fields): (r: Result<Option<OpeningStatus>, Fault>)
    ensures r.Err? ==> r.error.Raised?
    ensures var statuses := Lookup(f, "parkingFacilityStatus").UnwrapOr(List([]));
      statuses.List? ==> r == Ok(if Str("open") in statuses.items then Some(Open)
                                 else if Str("closed") in statuses.items then Some(Closed) else None)
  {
    var statuses := Lookup(f, "parkingFacilityStatus").UnwrapOr(List([]));
    var isOpen :- In(Str("open"), statuses);
    if isOpen then Ok(Some(Open))
    else
      if In(Str("closed"), statuses).value then Ok(Some(Closed)) else Ok(None)
  }

  /** The realtime input dict: uid, free spaces counted as capacity, time stamp, and the status when one is named. */
  function RealtimeFields(uid: Value, vacant: int, updatedAt: Value, status: Option<OpeningStatus>, reading: Reading): (r: Fields)
    ensures Lookup(r, "uid") == Some(uid)
    ensures Lookup(r, "realtime_capacity") == Some(Int(vacant))
    ensures Lookup(r, "realtime_opening_status") == if status.Some? then Some(Str(StatusText(status.value, reading))) else None
  {
    var d := [("uid", uid), ("realtime_capacity", Int(vacant)), ("realtime_data_updated_at", updatedAt)];
    assert d[0].0 == "uid" && d[1].0 == "realtime_capacity";
    assert Lookup(d, "realtime_opening_status").None? by {
      assert forall j :: 0 <= j < |d| ==> d[j].0 != "realtime_opening_status";
    }
    if status.Some? then
      var text := Str(StatusText(status.value, reading));
      LookupPut(d, "realtime_opening_status", text, "uid");
      LookupPut(d, "realtime_opening_status", text, "realtime_capacity");
      LookupPut(d, "realtime_opening_status", text, "realtime_opening_status");
      Put(d, "realtime_opening_status", text)
    else d
  }

  /** `item.get('parkingFacilityReference', {}).get('id')`: the uid of a status is the facility it refers to. */
  function ReferenceId(f: Fields): (r: Result<Value, Fault>)
    ensures r.Err? ==> r.error.Raised?
  {
    GetOr(Lookup(f, "parkingFacilityReference").UnwrapOr(Obj([])), "id", Null)
  }

  /** `_handle_realtime_item` up to the validator. */
  function RealtimeDict(item: Value, reading: Reading): (r: Result<Fields, Fault>)
    ensures r.Err? ==> r.error.Raised?
    ensures r.Ok? ==> (item.Obj? && IntOf(Vacant(item.fields)).Ok? && StatusChoice(item.fields).Ok?
      && ReferenceId(item.fields).Ok?
      && r.value == RealtimeFields(ReferenceId(item.fields).value,
                                   IntOf(Vacant(item.fields)).value, Get(item.fields, "parkingFacilityStatusTime"),
                                   StatusChoice(item.fields).value, reading))
  {
    if !item.Obj? then Err(Raised("AttributeError", "object has no attribute 'get'"))
    else
      var uid :- ReferenceId(item.fields);
      var vacant :- IntOf(Vacant(item.fields));
      var status :- StatusChoice(item.fields);
      Ok(RealtimeFields(uid, vacant, Get(item.fields, "parkingFacilityStatusTime"), status, reading))
  }

  function RealtimeInput(item: Value, reading: Reading): (r: Result<RealtimeParkingSiteInput, Fault>)
    ensures r.Ok? ==> ValidRealtime(r.value)
  {
    var d :- RealtimeDict(item, reading);
    ValidateRealtime(Obj(d))
  }

  function RealtimeStep(item: Value, reading: Reading): (r: Step<RealtimeParkingSiteInput>)
    ensures r.Ok? ==> !r.value.Skip?
  {
    match RealtimeInput(item, reading)
    case Ok(s) => Ok(Accept(s))
    case Err(f) => if f.Invalid? then Ok(Reject(ItemError(item, f))) else Err(Raise(f))
  }

  function RealtimeSteps(items: seq<Value>, reading: Reading): (r: seq<Step<RealtimeParkingSiteInput>>)
    ensures |r| == |items| && forall i :: 0 <= i < |items| ==> r[i] == RealtimeStep(items[i], reading)
  {
    seq(|items|, i requires 0 <= i < |items| => RealtimeStep(items[i], reading))
  }

  /** The realtime branch: every status validated, the static lists left out of the result. */
  function RealtimeBranch(items: seq<Value>, reading: Reading): (r: Result<ImportSourceResult, Abort>)
    ensures r.Ok? ==> r.value.realtimeInputs.Some? && r.value.realtimeErrors.Some?
                      && r.value.staticInputs.None? && r.value.staticErrors.None?
    ensures r.Ok? ==> |r.value.realtimeInputs.value| + |r.value.realtimeErrors.value| == |items|
  {
    var steps := RealtimeSteps(items, reading);
    match Gather(steps)
    case Err(a) => Err(a)
    case Ok(g) =>
      GatherSpec(steps);
      GatherCountsNoSkip(steps);
      Ok(GenerateImportSourceResult(Info, None, Some(g.0), None, Some(g.1)))
  }

  // --------------------------------------------------------------- document

  /** `data.get('d2LogicalModel', {}).get('payloadPublication', {}).get('genericPublicationExtension', {})`. */
  function ItemsBase(data: Value): (r: Result<Value, Fault>)
    ensures r.Err? ==> r.error.Raised?
  {
    var model :- GetOr(data, "d2LogicalModel", Obj([]));
    var payload :- GetOr(model, "payloadPublication", Obj([]));
    GetOr(payload, "genericPublicationExtension", Obj([]))
  }

  function StaticItems(base: Value): (r: Result<seq<Value>, Fault>) {
    var publication :- GetOr(base, "parkingFacilityTablePublication", Obj([]));
    var table :- GetOr(publication, "parkingFacilityTable", Obj([]));
    var facilities :- GetOr(table, "parkingFacility", List([]));
    Iterate(facilities)
  }

  function RealtimeItems(base: Value): (r: Result<seq<Value>, Fault>) {
    var publication :- GetOr(base, "parkingFacilityTableStatusPublication", Obj([]));
    var statuses :- GetOr(publication, "parkingFacilityStatus", Obj([]));
    Iterate(statuses)
  }

  /**
   * `handle_xml` after the conversion: the static branch when the
   * facility table is truthy, else the status branch when the status table
   * is truthy, else no result at all (the method falls off its end).
   */
  function HandleData(data: Value, project: Projection, reading: Reading): (r: Result<Option<ImportSourceResult>, Abort>)
    ensures ItemsBase(data).Ok? && ItemsBase(data).value.Obj? ==>
      var base := ItemsBase(data).value.fields;
      (Truthy(Get(base, "parkingFacilityTablePublication")) && r.Ok? ==>
         r.value.Some? && r.value.value.staticInputs.Some? && r.value.value.realtimeInputs.None?)
      && (!Truthy(Get(base, "parkingFacilityTablePublication")) && Truthy(Get(base, "parkingFacilityTableStatusPublication")) && r.Ok? ==>
         r.value.Some? && r.value.value.staticInputs.None? && r.value.value.realtimeInputs.Some?)
      && (!Truthy(Get(base, "parkingFacilityTablePublication")) && !Truthy(Get(base, "parkingFacilityTableStatusPublication")) ==>
         r == Ok(None))
  {
    var base :- Escape(ItemsBase(data));
    var table :- Escape(GetOr(base, "parkingFacilityTablePublication", Null));
    if Truthy(table) then
      var items :- Escape(StaticItems(base));
      var result :- StaticBranch(items, project);
      Ok(Some(result))
    else
      if Truthy(Get(base.fields, "parkingFacilityTableStatusPublication")) then
        var items :- Escape(RealtimeItems(base));
        var result :- RealtimeBranch(items, reading);
        Ok(Some(result))
      else Ok(None)
  }

  /** `handle_xml` on the parsed document. */
  function HandleXmlSpec(root: Element, project: Projection, reading: Reading): Result<Option<ImportSourceResult>, Abort> {
    HandleData(XmlToDict(root, XmlOptions(reading)), project, reading)
  }

  // ---------------------------------------------------------------- methods

  /** An error in a prefix of the entries is the error of all of them. */
  lemma {:induction false} EntriesStopAt(d: Fields, spaces: Value, entries: Fields, n: nat)
    requires n <= |entries| && ApplyEntries(d, spaces, entries[..n]).Err?
    ensures ApplyEntries(d, spaces, entries) == ApplyEntries(d, spaces, entries[..n])
    decreases |entries|
  {
    if n == |entries| {
      assert entries[..n] == entries;
    } else {
      var init := entries[..|entries| - 1];
      assert init[..n] == entries[..n];
      EntriesStopAt(d, spaces, init, n);
    }
  }

  /** An error in a prefix of the sub-capacities is the error of all of them. */
  lemma {:induction false} SubsStopAt(d: Fields, subs: seq<Value>, n: nat)
    requires n <= |subs| && ApplySubs(d, subs[..n]).Err?
    ensures ApplySubs(d, subs) == ApplySubs(d, subs[..n])
    decreases |subs|
  {
    if n == |subs| {
      assert subs[..n] == subs;
    } else {
      var init := subs[..|subs| - 1];
      assert init[..n] == subs[..n];
      SubsStopAt(d, init, n);
    }
  }

  /** The nested sub-capacity loops of `_handle_static_item`. */
  method FillSubCapacities(d: Fields, subs: seq<Value>) returns (r: Result<Fields, Fault>)
    ensures r == ApplySubs(d, subs)
  {
    var inputData := d;
    for i := 0 to |subs|
      invariant ApplySubs(d, subs[..i]) == Ok(inputData)
    {
      assert subs[..i + 1][..i] == subs[..i];
      var sub := subs[i];
      var spaces := GetOr(sub, "assignedParkingSpaces", Obj([]));
      var description := if spaces.Ok? then GetOr(spaces.value, "descriptionOfAssignedParkingSpaces", Obj([])) else Ok(Null);
      if spaces.Err? || description.Err? || !description.value.Obj? {
        SubsStopAt(d, subs, i + 1);
        return ApplySubs(d, subs[..i + 1]);
      }
      var numbers := Get(sub.fields, "assignedParkingSpaces");
      var entries := description.value.fields;
      ghost var before := inputData;
      for j := 0 to |entries|
        invariant ApplyEntries(before, numbers, entries[..j]) == Ok(inputData)
      {
        assert entries[..j + 1][..j] == entries[..j];
        var field := FirstMatch(CapacityTable, entries[j].0, entries[j].1);
        if field.Some? {
          var count := Subscript(numbers, "numberOfAssignedParkingSpaces");
          var n := if count.Ok? then IntOf(count.value) else Ok(0);
          if count.Err? || n.Err? {
            EntriesStopAt(before, numbers, entries, j + 1);
            SubsStopAt(d, subs, i + 1);
            return ApplySubs(d, subs[..i + 1]);
          }
          inputData := Put(inputData, field.value, Int(n.value));
        }
      }
      assert entries[..|entries|] == entries;
    }
    assert subs[..|subs|] == subs;
    return Ok(inputData);
  }

  /** `_handle_static_item`, filling the input dict step by step. */
  method HandleStaticItem(item: Value, project: Projection) returns (r: Result<StaticParkingSiteInput, Fault>)
    ensures r == StaticInput(item, project)
  {
    if !item.Obj? {
      return Err(Raised("AttributeError", "object has no attribute 'get'"));
    }
    var capacity := IntOf(Get(item.fields, "totalParkingCapacity"));
    if capacity.Err? {
      return Err(capacity.error);
    }
    var coordinates := Coordinates(item.fields, project);
    if coordinates.Err? {
      return Err(coordinates.error);
    }
    var inputData := PositionedFields(item.fields, capacity.value, coordinates.value);
    var heights := Lookup(item.fields, "characteristicsOfPermittedVehicles").UnwrapOr(Obj([]));
    var height := GetOr(heights, "heightCharacteristic", Obj([]));
    if height.Err? {
      return Err(height.error);
    }
    var withHeight := MaxHeight(inputData, height.value);
    if withHeight.Err? {
      return Err(withHeight.error);
    }
    var subs := Iterate(Lookup(item.fields, "assignedParkingSpaces").UnwrapOr(List([])));
    if subs.Err? {
      return Err(subs.error);
    }
    var filled := FillSubCapacities(withHeight.value, subs.value);
    if filled.Err? {
      return Err(filled.error);
    }
    r := ValidateStatic(Obj(filled.value));
  }

  /** The static branch's loop over the facilities. */
  method HandleStatic(items: seq<Value>, project: Projection) returns (r: Result<ImportSourceResult, Abort>)
    ensures r == StaticBranch(items, project)
  {
    ghost var steps := StaticSteps(items, project);
    var staticParkingSites: seq<StaticParkingSiteInput> := [];
    var errors: seq<ImportException> := [];
    for i := 0 to |items|
      invariant Gather(steps[..i]) == Ok((staticParkingSites, errors))
    {
      GatherSnoc(steps, i);
      var result := HandleStaticItem(items[i], project);
      assert steps[i] == StaticStep(items[i], project);
      if result.Ok? {
        staticParkingSites := staticParkingSites + [result.value];
      } else if result.error.Invalid? {
        errors := errors + [ItemError(items[i], result.error)];
      } else {
        GatherStopsAt(steps, i);
        return Err(Raise(result.error));
      }
    }
    GatherAll(steps);
    r := Ok(GenerateImportSourceResult(Info, Some(staticParkingSites), None, Some(errors), None));
  }

  /** The realtime branch's loop over the statuses. */
  method HandleRealtime(items: seq<Value>, reading: Reading) returns (r: Result<ImportSourceResult, Abort>)
    ensures r == RealtimeBranch(items, reading)
  {
    ghost var steps := RealtimeSteps(items, reading);
    var realtimeParkingSites: seq<RealtimeParkingSiteInput> := [];
    var errors: seq<ImportException> := [];
    for i := 0 to |items|
      invariant Gather(steps[..i]) == Ok((realtimeParkingSites, errors))
    {
      GatherSnoc(steps, i);
      var result := RealtimeInput(items[i], reading);
      assert steps[i] == RealtimeStep(items[i], reading);
      if result.Ok? {
        realtimeParkingSites := realtimeParkingSites + [result.value];
      } else if result.error.Invalid? {
        errors := errors + [ItemError(items[i], result.error)];
      } else {
        GatherStopsAt(steps, i);
        return Err(Raise(result.error));
      }
    }
    GatherAll(steps);
    r := Ok(GenerateImportSourceResult(Info, None, Some(realtimeParkingSites), None, Some(errors)));
  }

  /** `handle_xml`, with both corrections applied. */
  method HandleXml(root: Element, project: Projection) returns (r: Result<Option<ImportSourceResult>, Abort>)
    ensures r == HandleXmlSpec(root, project, Corrected)
  {
    var data := XmlToDict(root, XmlOptions(Corrected));
    var itemsBase := ItemsBase(data);
    if itemsBase.Err? {
      return Err(Raise(itemsBase.error));
    }
    var base := itemsBase.value;
    var table := GetOr(base, "parkingFacilityTablePublication", Null);
    if table.Err? {
      return Err(Raise(table.error));
    }
    if Truthy(table.value) {
      var staticItems := StaticItems(base);
      if staticItems.Err? {
        return Err(Raise(staticItems.error));
      }
      var result := HandleStatic(staticItems.value, project);
      if result.Err? {
        return Err(result.error);
      }
      return Ok(Some(result.value));
    }
    if Truthy(Get(base.fields, "parkingFacilityTableStatusPublication")) {
      var realtimeItems := RealtimeItems(base);
      if realtimeItems.Err? {
        return Err(Raise(realtimeItems.error));
      }
      var result := HandleRealtime(realtimeItems.value, Corrected);
      if result.Err? {
        return Err(result.error);
      }
      return Ok(Some(result.value));
    }
    return Ok(None);
  }

  // ------------------------------------------------------------- properties

  /** Every accepted facility claims realtime data, with `lat` the second and `lon` the first projected component. */
  lemma AcceptedStaticFacts(item: Value, project: Projection)
    requires StaticInput(item, project).Ok?
    ensures var s := StaticInput(item, project).value;
      s.hasRealtimeData && item.Obj? && Coordinates(item.fields, project).Ok?
      && s.lat == Coordinates(item.fields, project).value.1 && s.lon == Coordinates(item.fields, project).value.0
  {
    var d := StaticDict(item, project).value;
    assert ValidateStaticWith(Obj(d), Base, GeoBounds) == StaticInput(item, project);
  }

  /** The four sub-capacity kinds the table recognises. */
  lemma CapacityTableReadings()
    ensures FirstMatch(CapacityTable, "personTypeForWhichSpacesAssigned", Str("disabled")) == Some("capacity_disabled")
    ensures FirstMatch(CapacityTable, "personTypeForWhichSpacesAssigned", Str("families")) == Some("capacity_family")
    ensures FirstMatch(CapacityTable, "personTypeForWhichSpacesAssigned", Str("women")) == Some("capacity_woman")
    ensures FirstMatch(CapacityTable, "characteristicsOfVehiclesForWhichSpacesAssigned",
                       Obj([("fuelType", Str("battery"))])) == Some("capacity_charging")
  {
    var t := CapacityTable;
    assert "disabled" != "families" && "families" != "women" && "women" != "disabled";
    assert "characteristicsOfVehiclesForWhichSpacesAssigned" != "personTypeForWhichSpacesAssigned";
    assert t[1..] == [t[1], t[2], t[3]] && t[2..] == [t[2], t[3]] && t[3..] == [t[3]];
  }

  /** No description key other than the two the table names matters. */
  lemma OtherKeysUnmatched(key: string, value: Value)
    requires key != "personTypeForWhichSpacesAssigned" && key != "characteristicsOfVehiclesForWhichSpacesAssigned"
    ensures FirstMatch(CapacityTable, key, value).None?
  {
    assert forall e :: e in CapacityTable ==> e.0.0 != key;
  }

  /**
   * A description entry the table recognises stores the sub-capacity's
   * number of spaces under its field, overwriting what earlier entries set.
   */
  lemma MatchedEntryStoresCount(d: Fields, spaces: Value, entries: Fields, n: int)
    requires |entries| > 0 && ApplyEntries(d, spaces, entries[..|entries| - 1]).Ok?
    requires FirstMatch(CapacityTable, entries[|entries| - 1].0, entries[|entries| - 1].1).Some?
    requires spaces.Obj? && Lookup(spaces.fields, "numberOfAssignedParkingSpaces") == Some(Int(n))
    ensures ApplyEntries(d, spaces, entries).Ok?
    ensures Lookup(ApplyEntries(d, spaces, entries).value,
                   FirstMatch(CapacityTable, entries[|entries| - 1].0, entries[|entries| - 1].1).value) == Some(Int(n))
  {
    var acc := ApplyEntries(d, spaces, entries[..|entries| - 1]).value;
    var field := FirstMatch(CapacityTable, entries[|entries| - 1].0, entries[|entries| - 1].1).value;
    LookupPut(acc, field, Int(n), field);
  }

  /** A realtime input counts the vacant spaces as its capacity, and 0 when the document gives none. */
  lemma VacantSpacesAreCapacity(item: Value, reading: Reading)
    requires RealtimeInput(item, reading).Ok?
    ensures item.Obj? && IntOf(Vacant(item.fields)).Ok?
    ensures RealtimeInput(item, reading).value.capacities.total == Some(IntOf(Vacant(item.fields)).value)
    ensures !HasKey(item.fields, "totalNumberOfVacantParkingSpaces") ==>
      RealtimeInput(item, reading).value.capacities.total == Some(0)
  {
    var d := RealtimeDict(item, reading).value;
    assert ValidateRealtime(Obj(d)) == RealtimeInput(item, reading);
    assert CountField(d, RealtimeCapacityKeys[0]) == Ok(RealtimeInput(item, reading).value.capacities.total);
  }

  /**
   * As written, a status list naming "open" or "closed" makes the stored
   * status lower-case, which the status enum does not accept: such a status
   * is never accepted.
   */
  lemma LowercaseStatusRejected(item: Value)
    requires RealtimeDict(item, AsWritten).Ok? && StatusChoice(item.fields).value.Some?
    ensures RealtimeInput(item, AsWritten).Err?
    ensures !(RealtimeStep(item, AsWritten).Ok? && RealtimeStep(item, AsWritten).value.Accept?)
  {
    var d := RealtimeDict(item, AsWritten).value;
    var text := StatusText(StatusChoice(item.fields).value.value, AsWritten);
    assert Lookup(d, "realtime_opening_status") == Some(Str(text));
    assert StatusField(d).Err? by { LowercaseNotParsed(StatusChoice(item.fields).value.value); }
  }

  /** Neither lower-case spelling is a member name of the status enum. */
  lemma LowercaseNotParsed(status: OpeningStatus)
    ensures ParseOpeningStatus(StatusText(status, AsWritten)).None?
  {
    var text := StatusText(status, AsWritten);
    assert text[0] == 'o' || text[0] == 'c';
    assert "OPEN"[0] == 'O' && "CLOSED"[0] == 'C' && "UNKNOWN"[0] == 'U';
  }

  /** Corrected, the status the list names is the status of the realtime input, and UNKNOWN when it names none. */
  lemma CorrectedStatusKept(item: Value)
    requires RealtimeInput(item, Corrected).Ok?
    ensures item.Obj? && StatusChoice(item.fields).Ok?
    ensures RealtimeInput(item, Corrected).value.openingStatus == StatusChoice(item.fields).value.UnwrapOr(Unknown)
  {
    var d := RealtimeDict(item, Corrected).value;
    assert ValidateRealtime(Obj(d)) == RealtimeInput(item, Corrected);
    var choice := StatusChoice(item.fields).value;
    if choice.Some? {
      assert Lookup(d, "realtime_opening_status") == Some(Str(OpeningStatusName(choice.value)));
    } else {
      assert Lookup(d, "realtime_opening_status").None?;
    }
  }

  /** As written, the list keys are plain names and change nothing in the conversion. */
  lemma AsWrittenListKeysInert(root: Element)
    ensures XmlToDict(root, XmlOptions(AsWritten)) == XmlToDict(root, XmlOptions(AsWritten).(ensureArrayKeys := []))
  {
    BareKeysHaveNoEffect(root, XmlOptions(AsWritten));
  }

  /** A table with one facility: as written that facility is stored as a dict, corrected as a one-element list. */
  lemma SingleFacilityShape(v: Value)
    ensures Collapse(XmlOptions(AsWritten), "parkingFacilityTable", "parkingFacility", [v]) == v
    ensures Collapse(XmlOptions(Corrected), "parkingFacilityTable", "parkingFacility", [v]) == List([v])
  {
    assert ArrayKeyed(XmlOptions(Corrected), "parkingFacilityTable", "parkingFacility");
  }

  /**
   * When the facility table holds a single facility stored as a dict,
   * iterating it yields the dict's keys, and the first key, a string, has
   * no `get`: the whole call fails.
   */
  lemma SingleFacilityAborts(base: Value, facility: Fields, project: Projection)
    requires base.Obj? && Lookup(base.fields, "parkingFacilityTablePublication").Some?
    requires var publication := Get(base.fields, "parkingFacilityTablePublication");
      publication.Obj? && Lookup(publication.fields, "parkingFacilityTable").Some?
      && Get(publication.fields, "parkingFacilityTable").Obj?
      && Lookup(Get(publication.fields, "parkingFacilityTable").fields, "parkingFacility") == Some(Obj(facility))
    requires |facility| > 0
    ensures StaticItems(base) == Ok(Keys(facility))
    ensures StaticBranch(Keys(facility), project).Err?
  {
    var steps := StaticSteps(Keys(facility), project);
    assert steps[0].Err?;
    assert !NoAbort(steps);
  }
}
