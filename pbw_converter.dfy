/**
 * v3/pbw/converter.py: the PBW pull converter. The static side walks the
 * city catalogue and, per valid city, that city's object details; the
 * realtime side walks the object catalogue and, per object, its dynamic
 * documents. Each HTTP answer is the decoded JSON body that `fetch`
 * returns for a request type and an optional id.
 */
module PbwConverter {
  import opened Wrappers
  import opened Text
  import opened Values
  import opened SiteInputs
  import opened ImportResults
  import opened Aggregation
  import opened PbwValidation
  import opened PbwMapper

  const Info := SourceInfo("pbw", "PBW", Some("https://www.pbw.de"))

  /** `requests.get(...).json()` for a request type and an optional id. */
  type Fetch = (string, Option<int>) -> Value

  // ---------------------------------------------------------- remote data

  /** The body's entries, each a dict, in order; the dict of each entry gets its key as `id`. */
  predicate AllEntriesDicts(body: Fields) {
    forall i :: 0 <= i < |body| ==> body[i].1.Obj?
  }

  /**
   * The list-building part of `_get_remote_data`: one item per top-level
   * entry, in iteration order, with `id` set to the entry's key. A body
   * that is not a dict has no `items()`; an entry that is not a dict does
   * not take item assignment.
   */
  function RemoteItems(body: Value): (r: Result<seq<Fields>, Fault>)
    ensures r.Ok? <==> body.Obj? && AllEntriesDicts(body.fields)
    ensures r.Ok? ==> |r.value| == |body.fields|
    ensures r.Ok? ==> forall i :: 0 <= i < |r.value| ==>
      r.value[i] == Put(body.fields[i].1.fields, "id", Str(body.fields[i].0))
    ensures r.Err? ==> r.error.Raised?
  {
    if !body.Obj? then Err(Raised("AttributeError", "object has no attribute 'items'"))
    else if !AllEntriesDicts(body.fields) then Err(Raised("TypeError", "object does not support item assignment"))
    else Ok(seq(|body.fields|, i requires 0 <= i < |body.fields| => Put(body.fields[i].1.fields, "id", Str(body.fields[i].0))))
  }

  method GetRemoteData(fetch: Fetch, dataType: string, dataId: Option<int>) returns (r: Result<seq<Fields>, Fault>)
    ensures r == RemoteItems(fetch(dataType, dataId))
  {
    var result := fetch(dataType, dataId);
    if !result.Obj? {
      return Err(Raised("AttributeError", "object has no attribute 'items'"));
    }
    var items: seq<Fields> := [];
    for i := 0 to |result.fields|
      invariant |items| == i
      invariant forall j :: 0 <= j < i ==>
        result.fields[j].1.Obj? && items[j] == Put(result.fields[j].1.fields, "id", Str(result.fields[j].0))
    {
      var (key, item) := result.fields[i];
      if !item.Obj? {
        assert !AllEntriesDicts(result.fields) by { assert !result.fields[i].1.Obj?; }
        return Err(Raised("TypeError", "object does not support item assignment"));
      }
      items := items + [Put(item.fields, "id", Str(key))];
    }
    assert items == RemoteItems(result).value;
    r := Ok(items);
  }

  /** Each item reads back its entry's key under `id`; every other key reads as in the entry. */
  lemma RemoteItemIds(body: Value, i: nat, k: string)
    requires RemoteItems(body).Ok? && i < |body.fields|
    ensures Lookup(RemoteItems(body).value[i], "id") == Some(Str(body.fields[i].0))
    ensures k != "id" ==> Lookup(RemoteItems(body).value[i], k) == Lookup(body.fields[i].1.fields, k)
  {
    LookupPut(body.fields[i].1.fields, "id", Str(body.fields[i].0), "id");
    LookupPut(body.fields[i].1.fields, "id", Str(body.fields[i].0), k);
  }

  // ---------------------------------------------------------- static side

  /** The converter's detail validator; the converter is built with `ValidateDetail`. */
  type DetailValidator = Fields -> Result<DetailInput, Fault>

  /** The converter's mapping of a validated detail to a static record. */
  type StaticMapper = DetailInput -> Result<StaticParkingSiteInput, Fault>

  /** The mapper the converter is built with, at time `now`. */
  function MapperAt(now: DateTime, reading: Reading): StaticMapper {
    input => MapStatic(input, now, reading)
  }

  /** One object detail of a valid city: its error is filed under the city's id; a valid one is mapped. */
  function DetailStep(validate: DetailValidator, mapStatic: StaticMapper, cityId: int, detail: Fields): Step<StaticParkingSiteInput> {
    match validate(detail)
    case Err(f) => Ok(Reject(ItemError(Str(IntToString(cityId)), f)))
    case Ok(input) =>
      match mapStatic(input)
      case Err(f) => Err(Raise(f))
      case Ok(s) => Ok(Accept(s))
  }

  /** The steps of one city's detail documents, in order. */
  function DetailSteps(validate: DetailValidator, mapStatic: StaticMapper, cityId: int, details: seq<Fields>): (r: seq<Step<StaticParkingSiteInput>>)
    ensures |r| == |details|
  {
    if |details| == 0 then []
    else DetailSteps(validate, mapStatic, cityId, details[..|details| - 1]) + [DetailStep(validate, mapStatic, cityId, details[|details| - 1])]
  }

  lemma {:induction false} DetailStepsAt(validate: DetailValidator, mapStatic: StaticMapper, cityId: int, details: seq<Fields>, j: nat)
    requires j < |details|
    ensures DetailSteps(validate, mapStatic, cityId, details)[j] == DetailStep(validate, mapStatic, cityId, details[j])
  {
    if j < |details| - 1 {
      DetailStepsAt(validate, mapStatic, cityId, details[..|details| - 1], j);
    }
  }

  /** One pass of the city loop: an invalid city is one error and its objects are never fetched. */
  function CitySteps(city: Fields, fetch: Fetch, now: DateTime, reading: Reading): seq<Step<StaticParkingSiteInput>> {
    match ValidateCity(city)
    case Err(f) => [Ok(Reject(ItemError(Get(city, "id"), f)))]
    case Ok(c) =>
      match RemoteItems(fetch("object-by-city", Some(c.id)))
      case Err(f) => [Err(Raise(f))]
      case Ok(details) => DetailSteps(ValidateDetail, MapperAt(now, reading), c.id, details)
  }

  /** The three ways one pass of the city loop can go. */
  lemma CityStepsCases(city: Fields, fetch: Fetch, now: DateTime, reading: Reading)
    ensures ValidateCity(city).Err? ==> CitySteps(city, fetch, now, reading) == [Ok(Reject(ItemError(Get(city, "id"), ValidateCity(city).error)))]
    ensures ValidateCity(city).Ok? ==>
      var items := RemoteItems(fetch("object-by-city", Some(ValidateCity(city).value.id)));
      (items.Err? ==> CitySteps(city, fetch, now, reading) == [Err(Raise(items.error))]) &&
      (items.Ok? ==> CitySteps(city, fetch, now, reading) == DetailSteps(ValidateDetail, MapperAt(now, reading), ValidateCity(city).value.id, items.value))
  {
  }

  function AllCitySteps(cities: seq<Fields>, fetch: Fetch, now: DateTime, reading: Reading): (r: seq<seq<Step<StaticParkingSiteInput>>>)
    ensures |r| == |cities| && forall i :: 0 <= i < |cities| ==> r[i] == CitySteps(cities[i], fetch, now, reading)
  {
    seq(|cities|, i requires 0 <= i < |cities| => CitySteps(cities[i], fetch, now, reading))
  }

  /** `get_static_parking_sites`, with `datetime.now()` passed in as `now`. */
  function GetStaticSpec(fetch: Fetch, now: DateTime, reading: Reading): (r: Result<ImportSourceResult, Abort>)
    ensures r.Ok? ==> r.value.staticInputs.Some? && r.value.staticErrors.Some?
                      && r.value.realtimeInputs.None? && r.value.realtimeErrors.None?
  {
    match RemoteItems(fetch("catalog-city", None))
    case Err(f) => Err(Raise(f))
    case Ok(cities) =>
      match Gather(Flatten(AllCitySteps(cities, fetch, now, reading)))
      case Err(a) => Err(a)
      case Ok(g) => Ok(GenerateImportSourceResult(Info, Some(g.0), None, Some(g.1), None))
  }

  /** One pass of the inner loop over a city's detail documents, as `Gather` sees it. */
  lemma DetailNext(validate: DetailValidator, mapStatic: StaticMapper, steps: seq<Step<StaticParkingSiteInput>>, start: nat,
                   cityId: int, details: seq<Fields>, j: nat, inputs: seq<StaticParkingSiteInput>, errors: seq<ImportException>)
    requires start <= |steps| && steps[start..] == DetailSteps(validate, mapStatic, cityId, details) && j < |details|
    requires Gather(steps[..start + j]) == Ok((inputs, errors))
    ensures validate(details[j]).Err? ==>
      Gather(steps[..start + j + 1]) == Ok((inputs, errors + [ItemError(Str(IntToString(cityId)), validate(details[j]).error)]))
    ensures validate(details[j]).Ok? && mapStatic(validate(details[j]).value).Err? ==>
      Gather(steps) == Err(Raise(mapStatic(validate(details[j]).value).error))
    ensures validate(details[j]).Ok? && mapStatic(validate(details[j]).value).Ok? ==>
      Gather(steps[..start + j + 1]) == Ok((inputs + [mapStatic(validate(details[j]).value).value], errors))
  {
    DetailStepsAt(validate, mapStatic, cityId, details, j);
    assert steps[start + j] == steps[start..][j] == DetailStep(validate, mapStatic, cityId, details[j]);
    var v := validate(details[j]);
    if v.Err? {
      GatherRejectAt(steps, start + j, inputs, errors);
    } else if mapStatic(v.value).Err? {
      GatherStopsAt(steps, start + j);
    } else {
      GatherAcceptAt(steps, start + j, inputs, errors);
    }
  }

  /**
   * The inner loop over one city's detail documents, continuing the lists
   * gathered from the first `start` steps; the documents' steps are the
   * rest of `steps`.
   */
  method GatherDetails(validate: DetailValidator, mapStatic: StaticMapper, ghost steps: seq<Step<StaticParkingSiteInput>>,
                       ghost start: nat, inputs: seq<StaticParkingSiteInput>, errors: seq<ImportException>,
                       cityId: int, details: seq<Fields>)
    returns (r: Result<(seq<StaticParkingSiteInput>, seq<ImportException>), Abort>)
    requires start <= |steps| && steps[start..] == DetailSteps(validate, mapStatic, cityId, details)
    requires Gather(steps[..start]) == Ok((inputs, errors))
    ensures r == Gather(steps)
  {
    assert |steps| == start + |details| by { assert |steps[start..]| == |details|; }
    var staticParkingSiteInputs, staticParkingSiteErrors := inputs, errors;
    for j := 0 to |details|
      invariant Gather(steps[..start + j]) == Ok((staticParkingSiteInputs, staticParkingSiteErrors))
    {
      var detailInput := validate(details[j]);
      if detailInput.Err? {
        assert Gather(steps[..start + (j + 1)])
            == Ok((staticParkingSiteInputs, staticParkingSiteErrors + [ItemError(Str(IntToString(cityId)), detailInput.error)])) by {
          DetailNext(validate, mapStatic, steps, start, cityId, details, j, staticParkingSiteInputs, staticParkingSiteErrors);
        }
        staticParkingSiteErrors := staticParkingSiteErrors + [ItemError(Str(IntToString(cityId)), detailInput.error)];
        continue;
      }
      var site := mapStatic(detailInput.value);
      if site.Err? {
        assert Gather(steps) == Err(Raise(site.error)) by {
          DetailNext(validate, mapStatic, steps, start, cityId, details, j, staticParkingSiteInputs, staticParkingSiteErrors);
        }
        return Err(Raise(site.error));
      }
      assert Gather(steps[..start + (j + 1)]) == Ok((staticParkingSiteInputs + [site.value], staticParkingSiteErrors)) by {
        DetailNext(validate, mapStatic, steps, start, cityId, details, j, staticParkingSiteInputs, staticParkingSiteErrors);
      }
      staticParkingSiteInputs := staticParkingSiteInputs + [site.value];
    }
    assert steps[..start + |details|] == steps;
    r := Ok((staticParkingSiteInputs, staticParkingSiteErrors));
  }

  method GetStaticParkingSites(fetch: Fetch, now: DateTime) returns (r: Result<ImportSourceResult, Abort>)
    ensures r == GetStaticSpec(fetch, now, Corrected)
  {
    var cityDicts := GetRemoteData(fetch, "catalog-city", None);
    if cityDicts.Err? {
      return Err(Raise(cityDicts.error));
    }
    var cities := cityDicts.value;
    ghost var css := AllCitySteps(cities, fetch, now, Corrected);
    var staticParkingSiteInputs: seq<StaticParkingSiteInput> := [];
    var staticParkingSiteErrors: seq<ImportException> := [];
    for i := 0 to |cities|
      invariant Gather(Flatten(css[..i])) == Ok((staticParkingSiteInputs, staticParkingSiteErrors))
    {
      FlattenSnoc(css, i);
      FlattenSplit(css, i + 1);
      ghost var done := Flatten(css[..i]);
      CityStepsCases(cities[i], fetch, now, Corrected);
      var cityInput := ValidateCity(cities[i]);
      if cityInput.Err? {
        GatherThenReject(done, ItemError(Get(cities[i], "id"), cityInput.error), staticParkingSiteInputs, staticParkingSiteErrors);
        staticParkingSiteErrors := staticParkingSiteErrors + [ItemError(Get(cities[i], "id"), cityInput.error)];
        continue;
      }
      var detailDicts := GetRemoteData(fetch, "object-by-city", Some(cityInput.value.id));
      if detailDicts.Err? {
        GatherThenAbort(done, Raise(detailDicts.error));
        GatherPrefixAbort(done + css[i], Flatten(css));
        return Err(Raise(detailDicts.error));
      }
      assert (done + css[i])[..|done|] == done && (done + css[i])[|done|..] == css[i];
      var gathered := GatherDetails(ValidateDetail, MapperAt(now, Corrected), done + css[i], |done|,
                                    staticParkingSiteInputs, staticParkingSiteErrors, cityInput.value.id, detailDicts.value);
      if gathered.Err? {
        GatherPrefixAbort(done + css[i], Flatten(css));
        return Err(gathered.error);
      }
      staticParkingSiteInputs, staticParkingSiteErrors := gathered.value.0, gathered.value.1;
    }
    assert css[..|cities|] == css;
    r := Ok(GenerateImportSourceResult(Info, Some(staticParkingSiteInputs), None, Some(staticParkingSiteErrors), None));
  }

  // -------------------------------------------------------- realtime side

  /** The converter's realtime validator; the converter is built with `ValidateRealtimeInput`. */
  type RealtimeValidator = Fields -> Result<RealtimeInput, Fault>

  /** One dynamic document: a validation error is not caught here, so it ends the call. */
  function RealtimeStep(validate: RealtimeValidator, d: Fields, now: DateTime): Step<RealtimeParkingSiteInput> {
    match validate(d)
    case Err(f) => Err(Raise(f))
    case Ok(input) => Ok(Accept(MapRealtime(input, now)))
  }

  /** The steps of one object's dynamic documents, in order. */
  function RealtimeSteps(validate: RealtimeValidator, ds: seq<Fields>, now: DateTime): (r: seq<Step<RealtimeParkingSiteInput>>)
    ensures |r| == |ds|
  {
    if |ds| == 0 then [] else RealtimeSteps(validate, ds[..|ds| - 1], now) + [RealtimeStep(validate, ds[|ds| - 1], now)]
  }

  lemma {:induction false} RealtimeStepsAt(validate: RealtimeValidator, ds: seq<Fields>, now: DateTime, j: nat)
    requires j < |ds|
    ensures RealtimeSteps(validate, ds, now)[j] == RealtimeStep(validate, ds[j], now)
  {
    if j < |ds| - 1 {
      RealtimeStepsAt(validate, ds[..|ds| - 1], now, j);
    }
  }

  /** One pass of the object loop: an invalid catalogue entry ends the call as well. */
  function SiteSteps(site: Fields, fetch: Fetch, now: DateTime): seq<Step<RealtimeParkingSiteInput>> {
    match ValidateSite(site)
    case Err(f) => [Err(Raise(f))]
    case Ok(p) =>
      match RemoteItems(fetch("object-dynamic-by-id", Some(p.id)))
      case Err(f) => [Err(Raise(f))]
      case Ok(ds) => RealtimeSteps(ValidateRealtimeInput, ds, now)
  }

  /** The three ways one pass of the object loop can go. */
  lemma SiteStepsCases(site: Fields, fetch: Fetch, now: DateTime)
    ensures ValidateSite(site).Err? ==> SiteSteps(site, fetch, now) == [Err(Raise(ValidateSite(site).error))]
    ensures ValidateSite(site).Ok? ==>
      var items := RemoteItems(fetch("object-dynamic-by-id", Some(ValidateSite(site).value.id)));
      (items.Err? ==> SiteSteps(site, fetch, now) == [Err(Raise(items.error))]) &&
      (items.Ok? ==> SiteSteps(site, fetch, now) == RealtimeSteps(ValidateRealtimeInput, items.value, now))
  {
  }

  function AllSiteSteps(sites: seq<Fields>, fetch: Fetch, now: DateTime): (r: seq<seq<Step<RealtimeParkingSiteInput>>>)
    ensures |r| == |sites| && forall i :: 0 <= i < |sites| ==> r[i] == SiteSteps(sites[i], fetch, now)
  {
    seq(|sites|, i requires 0 <= i < |sites| => SiteSteps(sites[i], fetch, now))
  }

  /** `get_realtime_parking_sites`, with `datetime.now()` passed in as `now`. */
  function GetRealtimeSpec(fetch: Fetch, now: DateTime): (r: Result<ImportSourceResult, Abort>)
    ensures r.Ok? ==> r.value.realtimeInputs.Some? && r.value.realtimeErrors.Some?
                      && r.value.staticInputs.None? && r.value.staticErrors.None?
  {
    match RemoteItems(fetch("catalog-object", None))
    case Err(f) => Err(Raise(f))
    case Ok(sites) =>
      match Gather(Flatten(AllSiteSteps(sites, fetch, now)))
      case Err(a) => Err(a)
      case Ok(g) => Ok(GenerateImportSourceResult(Info, None, Some(g.0), None, Some(g.1)))
  }

  /** One pass of the inner loop over an object's dynamic documents, as `Gather` sees it. */
  lemma RealtimeNext(validate: RealtimeValidator, steps: seq<Step<RealtimeParkingSiteInput>>, start: nat,
                     ds: seq<Fields>, now: DateTime, j: nat, inputs: seq<RealtimeParkingSiteInput>, errors: seq<ImportException>)
    requires start <= |steps| && steps[start..] == RealtimeSteps(validate, ds, now) && j < |ds|
    requires Gather(steps[..start + j]) == Ok((inputs, errors))
    ensures validate(ds[j]).Err? ==> Gather(steps) == Err(Raise(validate(ds[j]).error))
    ensures validate(ds[j]).Ok? ==>
      Gather(steps[..start + j + 1]) == Ok((inputs + [MapRealtime(validate(ds[j]).value, now)], errors))
  {
    RealtimeStepsAt(validate, ds, now, j);
    assert steps[start + j] == steps[start..][j] == RealtimeStep(validate, ds[j], now);
    if validate(ds[j]).Err? {
      GatherStopsAt(steps, start + j);
    } else {
      GatherAcceptAt(steps, start + j, inputs, errors);
    }
  }

  /**
   * The inner loop over one object's dynamic documents, continuing the
   * lists gathered from the first `start` steps; the documents' steps are
   * the rest of `steps`.
   */
  method GatherRealtime(validate: RealtimeValidator, ghost steps: seq<Step<RealtimeParkingSiteInput>>, ghost start: nat,
                        inputs: seq<RealtimeParkingSiteInput>, errors: seq<ImportException>,
                        ds: seq<Fields>, now: DateTime)
    returns (r: Result<(seq<RealtimeParkingSiteInput>, seq<ImportException>), Abort>)
    requires start <= |steps| && steps[start..] == RealtimeSteps(validate, ds, now)
    requires Gather(steps[..start]) == Ok((inputs, errors))
    ensures r == Gather(steps)
  {
    var realtimeParkingSiteInputs := inputs;
    for j := 0 to |ds|
      invariant Gather(steps[..start + j]) == Ok((realtimeParkingSiteInputs, errors))
    {
      RealtimeNext(validate, steps, start, ds, now, j, realtimeParkingSiteInputs, errors);
      var realtimeInput := validate(ds[j]);
      if realtimeInput.Err? {
        return Err(Raise(realtimeInput.error));
      }
      realtimeParkingSiteInputs := realtimeParkingSiteInputs + [MapRealtime(realtimeInput.value, now)];
    }
    assert |steps[start..]| == |ds|;
    assert steps[..start + |ds|] == steps;
    r := Ok((realtimeParkingSiteInputs, errors));
  }

  method GetRealtimeParkingSites(fetch: Fetch, now: DateTime) returns (r: Result<ImportSourceResult, Abort>)
    ensures r == GetRealtimeSpec(fetch, now)
  {
    var realtimeParkingSiteInputs: seq<RealtimeParkingSiteInput> := [];
    var realtimeParkingSiteErrors: seq<ImportException> := [];
    var siteDicts := GetRemoteData(fetch, "catalog-object", None);
    if siteDicts.Err? {
      return Err(Raise(siteDicts.error));
    }
    var sites := siteDicts.value;
    ghost var css := AllSiteSteps(sites, fetch, now);
    for i := 0 to |sites|
      invariant Gather(Flatten(css[..i])) == Ok((realtimeParkingSiteInputs, realtimeParkingSiteErrors))
    {
      FlattenSnoc(css, i);
      FlattenSplit(css, i + 1);
      ghost var done := Flatten(css[..i]);
      SiteStepsCases(sites[i], fetch, now);
      var siteInput := ValidateSite(sites[i]);
      if siteInput.Err? {
        GatherThenAbort(done, Raise(siteInput.error));
        GatherPrefixAbort(done + css[i], Flatten(css));
        return Err(Raise(siteInput.error));
      }
      var realtimeDicts := GetRemoteData(fetch, "object-dynamic-by-id", Some(siteInput.value.id));
      if realtimeDicts.Err? {
        GatherThenAbort(done, Raise(realtimeDicts.error));
        GatherPrefixAbort(done + css[i], Flatten(css));
        return Err(Raise(realtimeDicts.error));
      }
      assert (done + css[i])[..|done|] == done && (done + css[i])[|done|..] == css[i];
      var gathered := GatherRealtime(ValidateRealtimeInput, done + css[i], |done|, realtimeParkingSiteInputs, realtimeParkingSiteErrors,
                                     realtimeDicts.value, now);
      if gathered.Err? {
        GatherPrefixAbort(done + css[i], Flatten(css));
        return Err(gathered.error);
      }
      realtimeParkingSiteInputs, realtimeParkingSiteErrors := gathered.value.0, gathered.value.1;
    }
    assert css[..|sites|] == css;
    r := Ok(GenerateImportSourceResult(Info, None, Some(realtimeParkingSiteInputs), None, Some(realtimeParkingSiteErrors)));
  }

  // ---------------------------------------------------------- properties

  /** Every step of a city's details is the step of one of its documents. */
  lemma {:induction false} DetailStepsMember(validate: DetailValidator, mapStatic: StaticMapper, cityId: int,
                                             details: seq<Fields>, x: Step<StaticParkingSiteInput>)
    requires x in DetailSteps(validate, mapStatic, cityId, details)
    ensures exists j :: 0 <= j < |details| && x == DetailStep(validate, mapStatic, cityId, details[j])
  {
    var n := |details| - 1;
    if x != DetailStep(validate, mapStatic, cityId, details[n]) {
      DetailStepsMember(validate, mapStatic, cityId, details[..n], x);
      var j :| 0 <= j < n && x == DetailStep(validate, mapStatic, cityId, details[..n][j]);
      assert details[..n][j] == details[j];
    }
  }

  /** Every step of an object's dynamic documents is the step of one of them. */
  lemma {:induction false} RealtimeStepsMember(validate: RealtimeValidator, ds: seq<Fields>, now: DateTime,
                                               x: Step<RealtimeParkingSiteInput>)
    requires x in RealtimeSteps(validate, ds, now)
    ensures exists j :: 0 <= j < |ds| && x == RealtimeStep(validate, ds[j], now)
  {
    var n := |ds| - 1;
    if x != RealtimeStep(validate, ds[n], now) {
      RealtimeStepsMember(validate, ds[..n], now, x);
      var j :| 0 <= j < n && x == RealtimeStep(validate, ds[..n][j], now);
      assert ds[..n][j] == ds[j];
    }
  }

  /**
   * A detail document that fails validation is one error filed under its
   * city's id; a valid one becomes the mapped record, unless it lies at
   * (0, 0), which ends the call.
   */
  lemma DetailOutcome(cityId: int, d: Fields, now: DateTime)
    ensures ValidateDetail(d).Err? ==>
      DetailStep(ValidateDetail, MapperAt(now, Corrected), cityId, d) == Ok(Reject(ItemError(Str(IntToString(cityId)), ValidateDetail(d).error)))
    ensures ValidateDetail(d).Ok? ==>
      var p := ValidateDetail(d).value.position;
      && (!(DecIsZero(p.latitude) && DecIsZero(p.longitude)) ==>
            DetailStep(ValidateDetail, MapperAt(now, Corrected), cityId, d) == Ok(Accept(SiteOf(ValidateDetail(d).value, now))))
      && (DecIsZero(p.latitude) && DecIsZero(p.longitude) ==> DetailStep(ValidateDetail, MapperAt(now, Corrected), cityId, d).Err?)
  {
  }

  /** The error of an invalid city is filed under the key the catalogue gave it. */
  lemma CityErrorCarriesKey(body: Value, i: nat, fetch: Fetch, now: DateTime, reading: Reading)
    requires RemoteItems(body).Ok? && i < |body.fields| && ValidateCity(RemoteItems(body).value[i]).Err?
    ensures CitySteps(RemoteItems(body).value[i], fetch, now, reading)
         == [Ok(Reject(ItemError(Str(body.fields[i].0), ValidateCity(RemoteItems(body).value[i]).error)))]
  {
    RemoteItemIds(body, i, "id");
    CityStepsCases(RemoteItems(body).value[i], fetch, now, reading);
  }

  /** With the mapper as written, no detail document ever becomes a record. */
  lemma AsWrittenDetailNeverAccepted(cityId: int, d: Fields, now: DateTime)
    ensures !DetailStep(ValidateDetail, MapperAt(now, AsWritten), cityId, d).Ok?
         || !DetailStep(ValidateDetail, MapperAt(now, AsWritten), cityId, d).value.Accept?
  {
    if ValidateDetail(d).Ok? {
      assert MapperAt(now, AsWritten)(ValidateDetail(d).value).Err?;
    }
  }

  /** A step of one pass of the city loop: never a skip, and never a record with the mapper as written. */
  lemma CityStepKinds(city: Fields, fetch: Fetch, now: DateTime, reading: Reading, x: Step<StaticParkingSiteInput>)
    requires x in CitySteps(city, fetch, now, reading)
    ensures x.Ok? ==> !x.value.Skip?
    ensures x.Ok? && reading == AsWritten ==> !x.value.Accept?
  {
    CityStepsCases(city, fetch, now, reading);
    var c := ValidateCity(city);
    if c.Err? {
      assert x == Ok(Reject(ItemError(Get(city, "id"), c.error)));
    } else if RemoteItems(fetch("object-by-city", Some(c.value.id))).Err? {
      assert x.Err?;
    } else {
      var details := RemoteItems(fetch("object-by-city", Some(c.value.id))).value;
      DetailStepsMember(ValidateDetail, MapperAt(now, reading), c.value.id, details, x);
      var j :| 0 <= j < |details| && x == DetailStep(ValidateDetail, MapperAt(now, reading), c.value.id, details[j]);
      DetailStepKinds(c.value.id, details[j], now, reading);
    }
  }

  /** The step of one detail document: never a skip, and never a record with the mapper as written. */
  lemma DetailStepKinds(cityId: int, d: Fields, now: DateTime, reading: Reading)
    ensures var x := DetailStep(ValidateDetail, MapperAt(now, reading), cityId, d);
      && (x.Ok? ==> !x.value.Skip?)
      && (x.Ok? && reading == AsWritten ==> !x.value.Accept?)
  {
    if reading == AsWritten {
      AsWrittenDetailNeverAccepted(cityId, d, now);
    }
  }

  /** A step of one pass of the object loop either accepts a record or ends the call. */
  lemma SiteStepKinds(site: Fields, fetch: Fetch, now: DateTime, x: Step<RealtimeParkingSiteInput>)
    requires x in SiteSteps(site, fetch, now)
    ensures x.Ok? ==> x.value.Accept?
  {
    SiteStepsCases(site, fetch, now);
    var p := ValidateSite(site);
    if p.Ok? && RemoteItems(fetch("object-dynamic-by-id", Some(p.value.id))).Ok? {
      var ds := RemoteItems(fetch("object-dynamic-by-id", Some(p.value.id))).value;
      RealtimeStepsMember(ValidateRealtimeInput, ds, now, x);
    }
  }

  /**
   * As written, the static pull never yields a record: each valid detail
   * document raises a TypeError in the mapper, so a call that completes
   * saw only invalid documents and cities.
   */
  lemma AsWrittenNoStaticRecords(fetch: Fetch, now: DateTime)
    requires GetStaticSpec(fetch, now, AsWritten).Ok?
    ensures GetStaticSpec(fetch, now, AsWritten).value.staticInputs == Some([])
  {
    var cities := RemoteItems(fetch("catalog-city", None)).value;
    var css := AllCitySteps(cities, fetch, now, AsWritten);
    var steps := Flatten(css);
    GatherSpec(steps);
    forall k | 0 <= k < |steps| && steps[k].Ok?
      ensures !steps[k].value.Accept?
    {
      FlattenMember(css, steps[k]);
      var c :| 0 <= c < |css| && steps[k] in css[c];
      CityStepKinds(cities[c], fetch, now, AsWritten, steps[k]);
    }
    NothingAccepted(steps);
  }

  /**
   * A completed static pull has exactly one record or one error per
   * invalid city and per detail document of every valid city.
   */
  lemma StaticCounts(fetch: Fetch, now: DateTime, reading: Reading)
    requires GetStaticSpec(fetch, now, reading).Ok?
    ensures var cities := RemoteItems(fetch("catalog-city", None)).value;
      var r := GetStaticSpec(fetch, now, reading).value;
      |r.staticInputs.value| + |r.staticErrors.value| == |Flatten(AllCitySteps(cities, fetch, now, reading))|
  {
    var cities := RemoteItems(fetch("catalog-city", None)).value;
    var css := AllCitySteps(cities, fetch, now, reading);
    var steps := Flatten(css);
    GatherSpec(steps);
    forall k | 0 <= k < |steps|
      ensures !steps[k].value.Skip?
    {
      FlattenMember(css, steps[k]);
      var c :| 0 <= c < |css| && steps[k] in css[c];
      CityStepKinds(cities[c], fetch, now, reading, steps[k]);
    }
    GatherCountsNoSkip(steps);
  }

  /**
   * The realtime pull files no errors: every step either accepts a record
   * or ends the call, so a completed call has an empty error list and one
   * record per dynamic document.
   */
  lemma RealtimeNoErrors(fetch: Fetch, now: DateTime)
    requires GetRealtimeSpec(fetch, now).Ok?
    ensures var sites := RemoteItems(fetch("catalog-object", None)).value;
      var r := GetRealtimeSpec(fetch, now).value;
      r.realtimeErrors == Some([]) && |r.realtimeInputs.value| == |Flatten(AllSiteSteps(sites, fetch, now))|
  {
    var sites := RemoteItems(fetch("catalog-object", None)).value;
    var css := AllSiteSteps(sites, fetch, now);
    var steps := Flatten(css);
    GatherSpec(steps);
    forall k | 0 <= k < |steps| && steps[k].Ok?
      ensures steps[k].value.Accept?
    {
      FlattenMember(css, steps[k]);
      var c :| 0 <= c < |css| && steps[k] in css[c];
      SiteStepKinds(sites[c], fetch, now, steps[k]);
    }
    NothingRejected(steps);
    GatherCountsNoSkip(steps);
  }

  /** A completed realtime pull found every catalogue entry valid. */
  lemma RealtimeSitesValid(fetch: Fetch, now: DateTime, i: nat)
    requires GetRealtimeSpec(fetch, now).Ok?
    requires i < |RemoteItems(fetch("catalog-object", None)).value|
    ensures ValidateSite(RemoteItems(fetch("catalog-object", None)).value[i]).Ok?
  {
    var sites := RemoteItems(fetch("catalog-object", None)).value;
    var css := AllSiteSteps(sites, fetch, now);
    SiteStepsCases(sites[i], fetch, now);
    GatherSpec(Flatten(css));
    if ValidateSite(sites[i]).Err? {
      FlattenMember(css, css[i][0]);
    }
  }
}
