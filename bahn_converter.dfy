/**
 * v3/bahn_v2/converter.py: the pull converter for the Deutsche Bahn
 * parking API. The HTTP request of `get_data` is not modelled: the decoded
 * JSON answer is a parameter, as is the current time.
 */
module BahnConverter {
  import opened Wrappers
  import opened Values
  import opened SiteInputs
  import opened ImportResults
  import opened Aggregation
  import opened BahnValidators
  import opened BahnMapper

  /** The name is kept as the source spells it, in its UTF-8 bytes read as Latin-1. */
  const Info := SourceInfo("bahn_v2", "Deutsche Bahn Parkpl\U{C3}\U{A4}tze", Some("https://www.dbbahnpark.de"))

  /** `.get` called on a value that is not a dict. */
  const NoGet := Raised("AttributeError", "object has no attribute 'get'")

  const NotIterable := Raised("TypeError", "object is not iterable")

  /** The one-character strings iterating a str yields. */
  function Chars(s: string): (r: seq<Value>)
    ensures |r| == |s| && forall i :: 0 <= i < |s| ==> r[i] == Str([s[i]])
  {
    if |s| == 0 then [] else Chars(s[..|s| - 1]) + [Str([s[|s| - 1]])]
  }

  /** The keys iterating a dict yields. */
  function Keys(fs: Fields): (r: seq<Value>)
    ensures |r| == |fs| && forall i :: 0 <= i < |fs| ==> r[i] == Str(fs[i].0)
  {
    if |fs| == 0 then [] else Keys(fs[..|fs| - 1]) + [Str(fs[|fs| - 1].0)]
  }

  /**
   * The items `for parking_site_dict in parking_site_dicts.get('_embedded', [])`
   * visits: an answer that is not a dict has no `get`, a missing key gives
   * no items, and a value that cannot be iterated is a TypeError.
   */
  function EmbeddedItems(body: Value): (r: Result<seq<Value>, Fault>)
    ensures !body.Obj? ==> r == Err(NoGet)
    ensures body.Obj? && Lookup(body.fields, "_embedded").None? ==> r == Ok([])
    ensures body.Obj? && Lookup(body.fields, "_embedded").Some? && Lookup(body.fields, "_embedded").value.List?
            ==> r == Ok(Lookup(body.fields, "_embedded").value.items)
    ensures body.Obj? && Lookup(body.fields, "_embedded").Some? ==>
      var v := Lookup(body.fields, "_embedded").value;
      (v.Obj? ==> r == Ok(Keys(v.fields))) && (v.Str? ==> r == Ok(Chars(v.s)))
      && (!(v.List? || v.Obj? || v.Str?) ==> r == Err(NotIterable))
  {
    if !body.Obj? then Err(NoGet)
    else
      match Lookup(body.fields, "_embedded")
      case None => Ok([])
      case Some(v) =>
        match v
        case List(items) => Ok(items)
        case Obj(fs) => Ok(Keys(fs))
        case Str(s) => Ok(Chars(s))
        case _ => Err(NotIterable)
  }

  /** The converter's validator; the converter is built with `ValidateBahnParkingSite`. */
  type SiteValidator = Fields -> Result<BahnParkingSiteInput, Fault>

  /**
   * One pass of the loop. A refused dict becomes an error under its `id`
   * entry; an item that is not a dict is refused too, and then the error
   * handler's own `.get` raises. The mapper is called outside the `try`.
   */
  function ItemStep(validate: SiteValidator, item: Value, now: DateTime): (r: Step<StaticParkingSiteInput>)
    ensures !item.Obj? ==> r == Err(Raise(NoGet))
    ensures item.Obj? && validate(item.fields).Err? ==> r == Ok(Reject(ItemError(Get(item.fields, "id"), validate(item.fields).error)))
    ensures item.Obj? && validate(item.fields).Ok? ==>
      var m := MapStatic(validate(item.fields).value, now);
      (m.Err? ==> r == Err(Raise(m.error))) && (m.Ok? ==> r == Ok(Accept(m.value)))
  {
    if !item.Obj? then Err(Raise(NoGet))
    else
      match validate(item.fields)
      case Err(f) => Ok(Reject(ItemError(Get(item.fields, "id"), f)))
      case Ok(input) =>
        match MapStatic(input, now)
        case Err(f) => Err(Raise(f))
        case Ok(s) => Ok(Accept(s))
  }

  /** The steps of the items, in order. */
  function ItemSteps(validate: SiteValidator, items: seq<Value>, now: DateTime): (r: seq<Step<StaticParkingSiteInput>>)
    ensures |r| == |items|
  {
    if |items| == 0 then [] else ItemSteps(validate, items[..|items| - 1], now) + [ItemStep(validate, items[|items| - 1], now)]
  }

  lemma {:induction false} ItemStepsAt(validate: SiteValidator, items: seq<Value>, now: DateTime, j: nat)
    requires j < |items|
    ensures ItemSteps(validate, items, now)[j] == ItemStep(validate, items[j], now)
  {
    if j < |items| - 1 {
      ItemStepsAt(validate, items[..|items| - 1], now, j);
    }
  }

  /** `get_static_parking_sites`, with the decoded answer of `get_data` and `datetime.now()` passed in. */
  function GetStaticSpec(body: Value, now: DateTime): (r: Result<ImportSourceResult, Abort>)
    ensures EmbeddedItems(body).Err? ==> r == Err(Raise(EmbeddedItems(body).error))
    ensures r.Ok? ==> r.value.uid == "bahn_v2" && r.value.status == Active
                      && r.value.staticInputs.Some? && r.value.staticErrors.Some?
                      && r.value.realtimeInputs.None? && r.value.realtimeErrors.None?
  {
    match EmbeddedItems(body)
    case Err(f) => Err(Raise(f))
    case Ok(items) =>
      match Gather(ItemSteps(ValidateBahnParkingSite, items, now))
      case Err(a) => Err(a)
      case Ok(g) => Ok(GenerateImportSourceResult(Info, Some(g.0), None, Some(g.1), None))
  }

  /** One pass of the loop, as `Gather` sees it. */
  lemma ItemNext(validate: SiteValidator, items: seq<Value>, now: DateTime, j: nat,
                 inputs: seq<StaticParkingSiteInput>, errors: seq<ImportException>)
    requires j < |items| && Gather(ItemSteps(validate, items, now)[..j]) == Ok((inputs, errors))
    ensures var steps := ItemSteps(validate, items, now);
      (steps[j].Err? ==> Gather(steps) == Err(steps[j].error))
      && (steps[j] == ItemStep(validate, items[j], now))
      && (steps[j].Ok? && steps[j].value.Accept? ==> Gather(steps[..j + 1]) == Ok((inputs + [steps[j].value.record], errors)))
      && (steps[j].Ok? && steps[j].value.Reject? ==> Gather(steps[..j + 1]) == Ok((inputs, errors + [steps[j].value.error])))
  {
    var steps := ItemSteps(validate, items, now);
    ItemStepsAt(validate, items, now, j);
    if steps[j].Err? {
      GatherStopsAt(steps, j);
    } else if steps[j].value.Accept? {
      GatherAcceptAt(steps, j, inputs, errors);
    } else if steps[j].value.Reject? {
      GatherRejectAt(steps, j, inputs, errors);
    }
  }

  /** The loop over the items, calling the mapper method for each validated one. */
  method GatherItems(validate: SiteValidator, items: seq<Value>, now: DateTime)
    returns (r: Result<(seq<StaticParkingSiteInput>, seq<ImportException>), Abort>)
    ensures r == Gather(ItemSteps(validate, items, now))
  {
    ghost var steps := ItemSteps(validate, items, now);
    var staticParkingSiteInputs: seq<StaticParkingSiteInput> := [];
    var staticParkingSiteErrors: seq<ImportException> := [];
    assert steps[..0] == [];
    for j := 0 to |items|
      invariant Gather(steps[..j]) == Ok((staticParkingSiteInputs, staticParkingSiteErrors))
    {
      ItemNext(validate, items, now, j, staticParkingSiteInputs, staticParkingSiteErrors);
      var item := items[j];
      if !item.Obj? {
        return Err(Raise(NoGet));
      }
      var parkingSiteInput := validate(item.fields);
      if parkingSiteInput.Err? {
        staticParkingSiteErrors := staticParkingSiteErrors + [ItemError(Get(item.fields, "id"), parkingSiteInput.error)];
        continue;
      }
      var mapped, _ := MapStaticParkingSite(parkingSiteInput.value, now);
      if mapped.Err? {
        return Err(Raise(mapped.error));
      }
      staticParkingSiteInputs := staticParkingSiteInputs + [mapped.value];
    }
    assert steps[..|items|] == steps;
    r := Ok((staticParkingSiteInputs, staticParkingSiteErrors));
  }

  method GetStaticParkingSites(body: Value, now: DateTime) returns (r: Result<ImportSourceResult, Abort>)
    ensures r == GetStaticSpec(body, now)
  {
    var items := EmbeddedItems(body);
    if items.Err? {
      return Err(Raise(items.error));
    }
    var gathered := GatherItems(ValidateBahnParkingSite, items.value, now);
    if gathered.Err? {
      return Err(gathered.error);
    }
    r := Ok(GenerateImportSourceResult(Info, Some(gathered.value.0), None, Some(gathered.value.1), None));
  }

  /** `get_realtime_parking_sites`: an ACTIVE result whose four lists are all None. */
  function GetRealtimeParkingSites(): (r: ImportSourceResult)
    ensures r.status == Active && r.uid == Info.id && r.publicUrl == Info.publicUrl
    ensures r.staticInputs.None? && r.realtimeInputs.None? && r.staticErrors.None? && r.realtimeErrors.None?
    ensures StaticErrorCount(r).None? && RealtimeErrorCount(r).None?
  {
    GenerateImportSourceResult(Info, None, None, None, None)
  }

  // ---------------------------------------------------------------- lemmas

  /** An answer without `_embedded` converts to an empty result. */
  lemma NoEmbeddedNoSites(body: Value, now: DateTime)
    requires body.Obj? && !HasKey(body.fields, "_embedded")
    ensures GetStaticSpec(body, now) == Ok(GenerateImportSourceResult(Info, Some([]), None, Some([]), None))
  {
  }

  /** A successful call accounts for every item, as a record or as an error. */
  lemma StaticCounts(body: Value, now: DateTime)
    requires GetStaticSpec(body, now).Ok?
    ensures var r := GetStaticSpec(body, now).value;
      |r.staticInputs.value| + |r.staticErrors.value| == |EmbeddedItems(body).value|
  {
    ItemCounts(ValidateBahnParkingSite, EmbeddedItems(body).value, now);
  }

  /** The loop never skips an item: each one becomes a record or an error. */
  lemma ItemCounts(validate: SiteValidator, items: seq<Value>, now: DateTime)
    requires Gather(ItemSteps(validate, items, now)).Ok?
    ensures |Gather(ItemSteps(validate, items, now)).value.0| + |Gather(ItemSteps(validate, items, now)).value.1| == |items|
  {
    var steps := ItemSteps(validate, items, now);
    GatherSpec(steps);
    forall i | 0 <= i < |steps| && steps[i].Ok?
      ensures !steps[i].value.Skip?
    {
      ItemStepsAt(validate, items, now, i);
    }
    GatherCountsNoSkip(steps);
  }

  /**
   * A successful call saw only dicts, and each error it records names an
   * item the validator refused, under that item's `id` entry.
   */
  lemma ErrorsFromRefusedItems(body: Value, now: DateTime, e: ImportException)
    requires GetStaticSpec(body, now).Ok? && e in GetStaticSpec(body, now).value.staticErrors.value
    ensures exists i :: 0 <= i < |EmbeddedItems(body).value| && EmbeddedItems(body).value[i].Obj?
              && var d := EmbeddedItems(body).value[i].fields;
                 ValidateBahnParkingSite(d).Err? && e == ItemError(Get(d, "id"), ValidateBahnParkingSite(d).error)
  {
    RefusedItem(ValidateBahnParkingSite, EmbeddedItems(body).value, now, e);
  }

  /** Each error the loop gathers names an item the validator refused. */
  lemma RefusedItem(validate: SiteValidator, items: seq<Value>, now: DateTime, e: ImportException)
    requires Gather(ItemSteps(validate, items, now)).Ok? && e in Gather(ItemSteps(validate, items, now)).value.1
    ensures exists i :: 0 <= i < |items| && items[i].Obj?
              && validate(items[i].fields).Err? && e == ItemError(Get(items[i].fields, "id"), validate(items[i].fields).error)
  {
    var steps := ItemSteps(validate, items, now);
    GatherSpec(steps);
    RejectedFrom(steps, e);
    var i :| 0 <= i < |steps| && steps[i] == Ok(Reject(e));
    ItemStepsAt(validate, items, now, i);
  }

  /** Each record of a successful call is the mapping of a validated item. */
  lemma RecordsFromMappedItems(body: Value, now: DateTime, s: StaticParkingSiteInput)
    requires GetStaticSpec(body, now).Ok? && s in GetStaticSpec(body, now).value.staticInputs.value
    ensures exists i :: 0 <= i < |EmbeddedItems(body).value| && EmbeddedItems(body).value[i].Obj?
              && var d := EmbeddedItems(body).value[i].fields;
                 ValidateBahnParkingSite(d).Ok? && MapStatic(ValidateBahnParkingSite(d).value, now) == Ok(s)
  {
    MappedItem(ValidateBahnParkingSite, EmbeddedItems(body).value, now, s);
  }

  /** Each record the loop gathers is the mapping of an item the validator accepted. */
  lemma MappedItem(validate: SiteValidator, items: seq<Value>, now: DateTime, s: StaticParkingSiteInput)
    requires Gather(ItemSteps(validate, items, now)).Ok? && s in Gather(ItemSteps(validate, items, now)).value.0
    ensures exists i :: 0 <= i < |items| && items[i].Obj?
              && validate(items[i].fields).Ok? && MapStatic(validate(items[i].fields).value, now) == Ok(s)
  {
    var steps := ItemSteps(validate, items, now);
    GatherSpec(steps);
    AcceptedFrom(steps, s);
    var i :| 0 <= i < |steps| && steps[i] == Ok(Accept(s));
    ItemStepsAt(validate, items, now, i);
  }

  /** No record of the converter claims realtime data, and none has the OTHER type. */
  lemma NoRealtimeClaimed(body: Value, now: DateTime, s: StaticParkingSiteInput)
    requires GetStaticSpec(body, now).Ok? && s in GetStaticSpec(body, now).value.staticInputs.value
    ensures !s.hasRealtimeData && s.siteType.Some? && s.siteType.value != Other
  {
    RecordsFromMappedItems(body, now, s);
  }
}
