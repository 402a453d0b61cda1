/**
 * util/legacy_mixin.py: how a converter of the current interface serves
 * the legacy scraper interface. Its import result (what
 * `get_realtime_parking_sites` or `get_static_parking_sites` returned) is
 * given as input; the records are turned into legacy records one by one
 * and the errors are reduced to their messages. The list types the source
 * imports are not defined in the repository; `LegacyList` stands for both.
 */
module LegacyMixin {
  import opened Wrappers
  import opened Values
  import opened LegacyStructs
  import opened SiteInputs
  import opened ImportResults

  /** A `LotDataList` or `LotInfoList`: the records and the error messages. */
  datatype LegacyList<T> = LegacyList(items: seq<T>, errors: seq<string>)

  /** Iterating over a list the import result left at None. */
  const NotIterable := Raised("TypeError", "'NoneType' object is not iterable")

  /** A list comprehension over a conversion that may raise: the first exception propagates. */
  function MapResults<A, B>(xs: seq<A>, convert: A -> Result<B, Fault>): Result<seq<B>, Fault>
    decreases |xs|
  {
    if xs == [] then Ok([])
    else
      var head :- convert(xs[0]);
      var tail :- MapResults(xs[1..], convert);
      Ok([head] + tail)
  }

  /**
   * The comprehension succeeds exactly when every element converts, and
   * then holds the converted elements in order; otherwise it raises the
   * exception of the first element that does not convert.
   */
  lemma {:induction false} MapResultsSpec<A, B>(xs: seq<A>, convert: A -> Result<B, Fault>)
    ensures MapResults(xs, convert).Ok? <==> forall i :: 0 <= i < |xs| ==> convert(xs[i]).Ok?
    ensures MapResults(xs, convert).Ok? ==>
      |MapResults(xs, convert).value| == |xs|
      && forall i :: 0 <= i < |xs| ==> MapResults(xs, convert).value[i] == convert(xs[i]).value
    ensures MapResults(xs, convert).Err? ==>
      exists i :: 0 <= i < |xs| && convert(xs[i]).Err? && MapResults(xs, convert).error == convert(xs[i]).error
        && forall j :: 0 <= j < i ==> convert(xs[j]).Ok?
    decreases |xs|
  {
    if xs != [] {
      MapResultsSpec(xs[1..], convert);
      var r := MapResults(xs, convert);
      if convert(xs[0]).Ok? && MapResults(xs[1..], convert).Ok? {
        var tail := MapResults(xs[1..], convert).value;
        assert r.value == [convert(xs[0]).value] + tail;
        assert forall i :: 1 <= i < |xs| ==> xs[i] == xs[1..][i - 1];
      } else if convert(xs[0]).Ok? {
        var k :| 0 <= k < |xs[1..]| && convert(xs[1..][k]).Err? && MapResults(xs[1..], convert).error == convert(xs[1..][k]).error
          && forall j :: 0 <= j < k ==> convert(xs[1..][j]).Ok?;
        assert xs[k + 1] == xs[1..][k];
        assert forall j :: 1 <= j < k + 1 ==> xs[j] == xs[1..][j - 1];
      } else {
        assert convert(xs[0]).Err?;
      }
    }
  }

  /** `[item.message for item in errors]`. */
  function Messages(errors: seq<ImportException>): seq<string> {
    seq(|errors|, i requires 0 <= i < |errors| => errors[i].message)
  }

  /**
   * The list both methods build: the records converted one by one, then
   * the errors' messages; a list the import result left at None cannot be
   * iterated.
   */
  function LegacyListOf<I, T>(inputs: Option<seq<I>>, errors: Option<seq<ImportException>>, convert: I -> Result<T, Fault>)
    : Result<LegacyList<T>, Fault>
  {
    if inputs.None? then Err(NotIterable)
    else
      var items :- MapResults(inputs.value, convert);
      if errors.None? then Err(NotIterable)
      else Ok(LegacyList(items, Messages(errors.value)))
  }

  /**
   * The list is exactly the records, converted one by one in order, with
   * the errors' messages in order. It fails when a list is None or a
   * record does not convert, and then with the exception of the first
   * record that does not.
   */
  lemma LegacyListSpec<I, T>(inputs: Option<seq<I>>, errors: Option<seq<ImportException>>, convert: I -> Result<T, Fault>)
    ensures LegacyListOf(inputs, errors, convert).Ok? <==>
      && inputs.Some? && errors.Some?
      && forall i :: 0 <= i < |inputs.value| ==> convert(inputs.value[i]).Ok?
    ensures LegacyListOf(inputs, errors, convert).Ok? ==>
      var list := LegacyListOf(inputs, errors, convert).value;
      && |list.items| == |inputs.value|
      && (forall i :: 0 <= i < |inputs.value| ==> list.items[i] == convert(inputs.value[i]).value)
      && |list.errors| == |errors.value|
      && (forall i :: 0 <= i < |errors.value| ==> list.errors[i] == errors.value[i].message)
    ensures inputs.None? ==> LegacyListOf(inputs, errors, convert) == Err(NotIterable)
    ensures inputs.Some? && LegacyListOf(inputs, errors, convert).Err? && LegacyListOf(inputs, errors, convert).error != NotIterable ==>
      exists i :: 0 <= i < |inputs.value| && convert(inputs.value[i]).Err?
        && LegacyListOf(inputs, errors, convert).error == convert(inputs.value[i]).error
        && forall j :: 0 <= j < i ==> convert(inputs.value[j]).Ok?
  {
    if inputs.Some? {
      MapResultsSpec(inputs.value, convert);
    }
  }

  /** `get_lot_data`, with each record converted by the corrected `to_lot_data`. */
  function GetLotData(result: ImportSourceResult): Result<LegacyList<LotData>, Fault> {
    LegacyListOf(result.realtimeInputs, result.realtimeErrors, ToLotData)
  }

  /** `get_lot_data` as written, with `to_lot_data` passing the aware timestamp on. */
  function GetLotDataAsWritten(result: ImportSourceResult): Result<LegacyList<LotData>, Fault> {
    LegacyListOf(result.realtimeInputs, result.realtimeErrors, ToLotDataAsWritten)
  }

  /** `get_lot_infos`: each static record converted by `to_lot_info`. */
  function GetLotInfos(result: ImportSourceResult): Result<LegacyList<LotInfo>, Fault> {
    LegacyListOf(result.staticInputs, result.staticErrors, ToLotInfo)
  }

  /**
   * The corrected lot data is exactly the realtime records, converted one
   * by one in order, with the realtime errors' messages in order; it fails
   * only when one of the two lists is None.
   */
  lemma GetLotDataSpec(result: ImportSourceResult)
    ensures GetLotData(result).Ok? <==> result.realtimeInputs.Some? && result.realtimeErrors.Some?
    ensures GetLotData(result).Err? ==> GetLotData(result).error == NotIterable
    ensures GetLotData(result).Ok? ==>
      var inputs, errors, list := result.realtimeInputs.value, result.realtimeErrors.value, GetLotData(result).value;
      && |list.items| == |inputs|
      && (forall i :: 0 <= i < |inputs| ==> list.items[i] == ToLotData(inputs[i]).value)
      && |list.errors| == |errors|
      && (forall i :: 0 <= i < |errors| ==> list.errors[i] == errors[i].message)
  {
    LegacyListSpec(result.realtimeInputs, result.realtimeErrors, ToLotData);
  }

  /**
   * The lot infos are the static records converted one by one in order,
   * with the static errors' messages in order; a None list, or a record the
   * conversion refuses (a record without a type, say), makes the call raise.
   */
  lemma GetLotInfosSpec(result: ImportSourceResult)
    ensures GetLotInfos(result).Ok? <==>
      && result.staticInputs.Some? && result.staticErrors.Some?
      && forall i :: 0 <= i < |result.staticInputs.value| ==> ToLotInfo(result.staticInputs.value[i]).Ok?
    ensures GetLotInfos(result).Ok? ==>
      var inputs, errors, list := result.staticInputs.value, result.staticErrors.value, GetLotInfos(result).value;
      && |list.items| == |inputs|
      && (forall i :: 0 <= i < |inputs| ==> list.items[i] == ToLotInfo(inputs[i]).value)
      && |list.errors| == |errors|
      && (forall i :: 0 <= i < |errors| ==> list.errors[i] == errors[i].message)
    ensures result.staticInputs.Some? && (exists i :: 0 <= i < |result.staticInputs.value| && result.staticInputs.value[i].siteType.None?) ==>
      GetLotInfos(result).Err?
  {
    LegacyListSpec(result.staticInputs, result.staticErrors, ToLotInfo);
  }

  /** A first record that does not convert makes the whole list raise its exception. */
  lemma FirstRecordFails<I, T>(inputs: seq<I>, errors: Option<seq<ImportException>>, convert: I -> Result<T, Fault>)
    requires |inputs| > 0 && convert(inputs[0]).Err?
    ensures LegacyListOf(Some(inputs), errors, convert) == Err(convert(inputs[0]).error)
  {
  }

  /**
   * As written, a realtime result whose first record is a validated one
   * makes `get_lot_data` raise: `LotData` refuses the aware timestamp.
   */
  lemma GetLotDataAsWrittenFails(result: ImportSourceResult, d: Value)
    requires ValidateRealtime(d).Ok?
    requires result.realtimeInputs.Some? && |result.realtimeInputs.value| > 0
    requires result.realtimeInputs.value[0] == ValidateRealtime(d).value
    ensures GetLotDataAsWritten(result) == Err(Raised("ValueError", "timestamp must be UTC and not contain a tzinfo"))
  {
    ToLotDataAsWrittenAlwaysFails(d);
    FirstRecordFails(result.realtimeInputs.value, result.realtimeErrors, ToLotDataAsWritten);
  }
}
