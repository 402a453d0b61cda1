/**
 * v3/mannheim_v2.py: a JSON document whose `items` list holds one dict per
 * site, validated once as static data and, when the static record says it
 * has realtime data, once more as realtime data.
 */
module Mannheim {
  import opened Wrappers
  import opened Values
  import opened SiteInputs
  import opened ImportResults
  import opened Aggregation

  const Info := SourceInfo("mannheim_v2", "Mannheim", Some("https://www.parken-mannheim.de/"))

  /** Every element is a dict (`AnythingValidator(allowed_types=[dict])`). */
  predicate AllDicts(items: seq<Value>) { forall i :: 0 <= i < |items| ==> items[i].Obj? }

  /** `ParkingSiteItemsInput`: a dict whose `items` is a list of dicts. */
  function ValidateItems(data: Value): (r: Result<seq<Value>, Fault>)
    ensures r.Ok? <==> data.Obj? && Lookup(data.fields, "items").Some?
                       && Get(data.fields, "items").List? && AllDicts(Get(data.fields, "items").items)
    ensures r.Ok? ==> r.value == Get(data.fields, "items").items
    ensures r.Err? ==> r.error.Invalid?
  {
    if !data.Obj? then Err(Invalid("invalid_type", "dict expected"))
    else match Lookup(data.fields, "items")
      case None => Err(Invalid("field_required", "items"))
      case Some(v) =>
        if !v.List? then Err(Invalid("invalid_type", "items"))
        else if !AllDicts(v.items) then Err(Invalid("invalid_type", "items"))
        else Ok(v.items)
  }

  /** What one item contributes to the static and to the realtime lists. */
  datatype ItemOutcome = ItemOutcome(forStatic: Outcome<StaticParkingSiteInput>, forRealtime: Outcome<RealtimeParkingSiteInput>)

  function ItemError(item: Value, f: Fault): ImportException {
    SiteError(if item.Obj? then Get(item.fields, "uid") else Null,
              "validation error for " + Formatted(item) + ": " + FaultText(f))
  }

  /** One pass of the item loop: a rejected or flag-less static record yields no realtime step. */
  function ItemStep(item: Value): (r: Result<ItemOutcome, Abort>)
    ensures r.Ok? ==> !r.value.forStatic.Skip?
    ensures r.Ok? && !r.value.forRealtime.Skip? ==> r.value.forStatic.Accept? && r.value.forStatic.record.hasRealtimeData
    ensures r.Ok? && r.value.forStatic.Accept? && r.value.forStatic.record.hasRealtimeData ==> !r.value.forRealtime.Skip?
  {
    match ValidateStatic(item)
    case Err(f) => if f.Invalid? then Ok(ItemOutcome(Reject(ItemError(item, f)), Skip)) else Err(Raise(f))
    case Ok(s) =>
      if !s.hasRealtimeData then Ok(ItemOutcome(Accept(s), Skip))
      else match ValidateRealtime(item)
        case Ok(rt) => Ok(ItemOutcome(Accept(s), Accept(rt)))
        case Err(f) => if f.Invalid? then Ok(ItemOutcome(Accept(s), Reject(ItemError(item, f)))) else Err(Raise(f))
  }

  function StaticSteps(items: seq<Value>): (r: seq<Step<StaticParkingSiteInput>>)
    ensures |r| == |items|
    ensures forall i :: 0 <= i < |items| ==>
      r[i] == (match ItemStep(items[i]) case Err(a) => Err(a) case Ok(o) => Ok(o.forStatic))
  {
    seq(|items|, i requires 0 <= i < |items| => match ItemStep(items[i]) case Err(a) => Err(a) case Ok(o) => Ok(o.forStatic))
  }

  function RealtimeSteps(items: seq<Value>): (r: seq<Step<RealtimeParkingSiteInput>>)
    ensures |r| == |items|
    ensures forall i :: 0 <= i < |items| ==>
      r[i] == (match ItemStep(items[i]) case Err(a) => Err(a) case Ok(o) => Ok(o.forRealtime))
  {
    seq(|items|, i requires 0 <= i < |items| => match ItemStep(items[i]) case Err(a) => Err(a) case Ok(o) => Ok(o.forRealtime))
  }

  /** `handle_json`. */
  function HandleJsonSpec(data: Value): (r: Result<ImportSourceResult, Abort>)
    ensures ValidateItems(data).Err? ==>
      r == Err(RaiseImport(SourceError("mannheim_v2", "Invalid data " + FaultText(ValidateItems(data).error))))
    ensures r.Ok? ==> r.value.uid == "mannheim_v2" && r.value.status == Active
  {
    match ValidateItems(data)
    case Err(f) => Err(RaiseImport(SourceError(Info.id, "Invalid data " + FaultText(f))))
    case Ok(items) =>
      match Gather(StaticSteps(items))
      case Err(a) => Err(a)
      case Ok(statics) =>
        var realtimes := if Gather(RealtimeSteps(items)).Ok? then Gather(RealtimeSteps(items)).value else ([], []);
        Ok(GenerateImportSourceResult(Info, Some(statics.0), Some(realtimes.0), Some(statics.1), Some(realtimes.1)))
  }

  /** The two gathered views abort together: each step is an abort in both or in neither. */
  lemma StepsAbortTogether(items: seq<Value>)
    ensures NoAbort(StaticSteps(items)) <==> NoAbort(RealtimeSteps(items))
  {
  }

  method HandleJson(data: Value) returns (r: Result<ImportSourceResult, Abort>)
    ensures r == HandleJsonSpec(data)
  {
    var parkingSiteItemInputs := ValidateItems(data);
    if parkingSiteItemInputs.Err? {
      return Err(RaiseImport(SourceError(Info.id, "Invalid data " + FaultText(parkingSiteItemInputs.error))));
    }
    var items := parkingSiteItemInputs.value;
    ghost var statics := StaticSteps(items);
    ghost var realtimes := RealtimeSteps(items);
    var staticParkingSiteInputs: seq<StaticParkingSiteInput> := [];
    var staticParkingSiteErrors: seq<ImportException> := [];
    var realtimeParkingSiteInputs: seq<RealtimeParkingSiteInput> := [];
    var realtimeParkingSiteErrors: seq<ImportException> := [];
    for i := 0 to |items|
      invariant Gather(statics[..i]) == Ok((staticParkingSiteInputs, staticParkingSiteErrors))
      invariant Gather(realtimes[..i]) == Ok((realtimeParkingSiteInputs, realtimeParkingSiteErrors))
    {
      GatherSnoc(statics, i);
      GatherSnoc(realtimes, i);
      var item := items[i];
      var staticResult := ValidateStatic(item);
      if staticResult.Err? {
        if !staticResult.error.Invalid? {
          GatherStopsAt(statics, i);
          return Err(Raise(staticResult.error));
        }
        staticParkingSiteErrors := staticParkingSiteErrors + [ItemError(item, staticResult.error)];
        continue;
      }
      staticParkingSiteInputs := staticParkingSiteInputs + [staticResult.value];
      if !staticResult.value.hasRealtimeData {
        continue;
      }
      var realtimeResult := ValidateRealtime(item);
      if realtimeResult.Err? {
        if !realtimeResult.error.Invalid? {
          GatherStopsAt(statics, i);
          return Err(Raise(realtimeResult.error));
        }
        realtimeParkingSiteErrors := realtimeParkingSiteErrors + [ItemError(item, realtimeResult.error)];
      } else {
        realtimeParkingSiteInputs := realtimeParkingSiteInputs + [realtimeResult.value];
      }
    }
    GatherAll(statics);
    GatherAll(realtimes);
    StepsAbortTogether(items);
    r := Ok(GenerateImportSourceResult(Info, Some(staticParkingSiteInputs), Some(realtimeParkingSiteInputs),
                                       Some(staticParkingSiteErrors), Some(realtimeParkingSiteErrors)));
  }

  // ------------------------------------------------------------- properties

  /** How many accepted static records say they have realtime data. */
  function Flagged(statics: seq<StaticParkingSiteInput>): nat {
    if |statics| == 0 then 0
    else Flagged(statics[..|statics| - 1]) + (if statics[|statics| - 1].hasRealtimeData then 1 else 0)
  }

  /**
   * Every item yields exactly one static input or static error, and a
   * realtime input or realtime error exists for exactly the accepted static
   * records whose `has_realtime_data` is set.
   */
  lemma ItemCounts(items: seq<Value>)
    requires NoAbort(StaticSteps(items))
    ensures |Accepted(StaticSteps(items))| + |Rejected(StaticSteps(items))| == |items|
    ensures |Accepted(RealtimeSteps(items))| + |Rejected(RealtimeSteps(items))| == Flagged(Accepted(StaticSteps(items)))
  {
    var ss := StaticSteps(items);
    var rs := RealtimeSteps(items);
    GatherCountsNoSkip(ss);
    forall i | 0 <= i < |items| ensures Paired(ss[i], rs[i]) {
      var o := ItemStep(items[i]);
      assert ss[i] == Ok(o.value.forStatic) && rs[i] == Ok(o.value.forRealtime);
    }
    PairedCounts(ss, rs);
  }

  /** A realtime step is an entry exactly when its static step accepted a flagged record. */
  predicate Paired(s: Step<StaticParkingSiteInput>, r: Step<RealtimeParkingSiteInput>) {
    s.Ok? && r.Ok? && (!r.value.Skip? <==> s.value.Accept? && s.value.record.hasRealtimeData)
  }

  lemma {:induction false} PairedCounts(ss: seq<Step<StaticParkingSiteInput>>, rs: seq<Step<RealtimeParkingSiteInput>>)
    requires |ss| == |rs| && forall i :: 0 <= i < |ss| ==> Paired(ss[i], rs[i])
    ensures |Accepted(rs)| + |Rejected(rs)| == Flagged(Accepted(ss))
  {
    if |ss| > 0 {
      var n := |ss| - 1;
      assert forall i :: 0 <= i < n ==> ss[..n][i] == ss[i] && rs[..n][i] == rs[i];
      PairedCounts(ss[..n], rs[..n]);
      var a := Accepted(ss[..n]);
      assert Paired(ss[n], rs[n]);
      if ss[n].value.Accept? {
        var x := ss[n].value.record;
        assert Accepted(ss) == a + [x];
        assert (a + [x])[..|a|] == a;
        assert Flagged(a + [x]) == Flagged(a) + (if x.hasRealtimeData then 1 else 0);
      } else {
        assert Accepted(ss) == a + [] == a;
      }
    }
  }

  /** An accepted static record without the flag never reaches the realtime validator: its item adds no realtime entry. */
  lemma NoFlagNoRealtime(item: Value)
    requires ValidateStatic(item).Ok? && !ValidateStatic(item).value.hasRealtimeData
    ensures ItemStep(item) == Ok(ItemOutcome(Accept(ValidateStatic(item).value), Skip))
  {
  }

  /** A dict the static validator rejects is never validated as realtime data either. */
  lemma RejectedStaticNoRealtime(item: Value)
    requires ValidateStatic(item).Err? && ValidateStatic(item).error.Invalid?
    ensures ItemStep(item).Ok? && ItemStep(item).value.forRealtime.Skip?
    ensures ItemStep(item).value.forStatic.Reject?
  {
  }
}
