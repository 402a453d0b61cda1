/**
 * util/snapshot.py and the lot-info map of util/scraper.py: the snapshot
 * of one pool, which merges each lot's live data into its static info, and
 * the GeoJSON export of the infos. What the scraper fetches (its infos and
 * its lot data) is given as input lists.
 */
module LegacySnapshot {
  import opened Wrappers
  import opened Text
  import opened Values
  import opened PyOps
  import opened LegacyStructs

  // ------------------------------------------------------- get_lot_info_map

  /** The ids of a list of infos. */
  function InfoIds(infos: seq<LotInfo>): set<string> {
    set i | 0 <= i < |infos| :: infos[i].id
  }

  predicate DistinctInfoIds(infos: seq<LotInfo>) {
    forall i, j :: 0 <= i < j < |infos| ==> infos[i].id != infos[j].id
  }

  lemma InfoIdsSnoc(infos: seq<LotInfo>, last: LotInfo)
    ensures var all := infos + [last];
      && infos == all[..|infos|] && last == all[|infos|]
      && InfoIds(all) == InfoIds(infos) + {last.id}
      && (DistinctInfoIds(all) <==> DistinctInfoIds(infos) && last.id !in InfoIds(infos))
      && (!DistinctInfoIds(infos) ==> !DistinctInfoIds(all))
      && (last.id in InfoIds(infos) ==> exists i :: 0 <= i < |infos| && all[i].id == all[|infos|].id)
  {
    var all := infos + [last];
    assert forall i :: 0 <= i < |infos| ==> all[i] == infos[i];
    assert all[..|infos|] == infos;
    if DistinctInfoIds(all) {
      assert DistinctInfoIds(infos);
    }
  }

  function DuplicateInfo(id: string, poolId: string): Fault {
    Raised("ValueError", "Duplicate LotInfo id '" + id + "' in pool '" + poolId + "'")
  }

  /** The duplicate check of `get_lot_info_map`, one info at a time, and the dict keyed by id. */
  function InfoMapOf(infos: seq<LotInfo>, poolId: string): Result<map<string, LotInfo>, Fault>
    decreases |infos|
  {
    if infos == [] then Ok(map[])
    else
      var last := infos[|infos| - 1];
      match InfoMapOf(infos[..|infos| - 1], poolId)
      case Err(e) => Err(e)
      case Ok(m) =>
        if last.id in m then Err(DuplicateInfo(last.id, poolId))
        else Ok(m[last.id := last])
  }

  /**
   * A repeated id raises, naming an id that occurs twice; otherwise every
   * info is found under its own id and the dict has no other key.
   */
  lemma {:induction false} InfoMapOfChecks(infos: seq<LotInfo>, poolId: string)
    ensures var r := InfoMapOf(infos, poolId);
      && (r.Ok? <==> DistinctInfoIds(infos))
      && (r.Ok? ==> r.value.Keys == InfoIds(infos))
      && (r.Ok? ==> forall i :: 0 <= i < |infos| ==> r.value[infos[i].id] == infos[i])
      && (r.Err? ==> exists i, j :: 0 <= i < j < |infos| && infos[i].id == infos[j].id && r.error == DuplicateInfo(infos[j].id, poolId))
  {
    if infos != [] {
      var before := infos[..|infos| - 1];
      var last := infos[|infos| - 1];
      assert infos == before + [last];
      InfoIdsSnoc(before, last);
      InfoMapOfChecks(before, poolId);
      match InfoMapOf(before, poolId)
      case Err(e) =>
      case Ok(m) =>
        if last.id !in m {
          var r := m[last.id := last];
          forall i | 0 <= i < |infos|
            ensures r[infos[i].id] == infos[i]
          {
            if i < |before| {
              assert infos[i] == before[i];
            }
          }
        }
    }
  }

  const NoLotInfos := Raised("NotImplementedError", "You need to either implement get_lot_infos() or create a geojson file")

  /**
   * `get_lot_info_map(required)`: `infos` is None when the scraper does not
   * implement `get_lot_infos`, which is an error only when infos are
   * required; without them the map is empty.
   */
  function LotInfoMap(infos: Option<seq<LotInfo>>, poolId: string, required: bool): (r: Result<map<string, LotInfo>, Fault>)
    ensures infos.None? ==> (r.Ok? <==> !required)
    ensures infos.None? && r.Ok? ==> r.value == map[]
    ensures infos.None? && r.Err? ==> r.error == NoLotInfos
    ensures infos.Some? ==> (r.Ok? <==> DistinctInfoIds(infos.value))
  {
    assert infos.Some? ==> (InfoMapOf(infos.value, poolId).Ok? <==> DistinctInfoIds(infos.value)) by {
      if infos.Some? {
        InfoMapOfChecks(infos.value, poolId);
      }
    }
    match infos
    case None => if required then Err(NoLotInfos) else Ok(map[])
    case Some(list) => InfoMapOf(list, poolId)
  }

  // ------------------------------------------------------------- one lot

  /** The attributes of a `PoolInfo` as `vars()` lists them. */
  function PoolVars(pool: PoolInfo): (r: Fields)
    ensures |r| == 8 && r[0] == ("id", Str(pool.id))
  {
    [("id", Str(pool.id)), ("name", Str(pool.name)), ("public_url", Str(pool.publicUrl)),
     ("timezone", Str(pool.timezone)), ("source_url", OptStr(pool.sourceUrl)),
     ("attribution_license", OptStr(pool.attributionLicense)),
     ("attribution_url", OptStr(pool.attributionUrl)),
     ("attribution_contributor", OptStr(pool.attributionContributor))]
  }

  /** One step of the merge loop: the data's value is taken unless it is None and the key is already there. */
  function MergeEntry(merged: Fields, entry: (string, Value)): Fields {
    if !HasKey(merged, entry.0) || !entry.1.Null? then Put(merged, entry.0, entry.1) else merged
  }

  /** The merge loop over the data's attributes, one step per attribute. */
  function Merged(merged: Fields, entries: Fields): Fields
    decreases |entries|
  {
    if entries == [] then merged
    else MergeEntry(Merged(merged, entries[..|entries| - 1]), entries[|entries| - 1])
  }

  /** `for key, value in vars(lot_data).items()`: the data merged into the record, step by step. */
  method MergeInto(record: Fields, data: Fields) returns (merged: Fields)
    ensures merged == Merged(record, data)
  {
    merged := record;
    for i := 0 to |data|
      invariant merged == Merged(record, data[..i])
    {
      assert data[..i + 1][..i] == data[..i];
      var (key, value) := data[i];
      if !HasKey(merged, key) || !value.Null? {
        merged := Put(merged, key, value);
      }
    }
    assert data[..|data|] == data;
  }

  /** The keys of a dict's entries are pairwise different. */
  predicate DistinctKeys(fs: Fields) {
    forall i, j :: 0 <= i < j < |fs| ==> fs[i].0 != fs[j].0
  }

  /** Reading a dict with one more entry at the end. */
  lemma LookupSnoc(fs: Fields, x: (string, Value), k: string)
    ensures Lookup(fs + [x], k) == if HasKey(fs, k) then Lookup(fs, k) else if x.0 == k then Some(x.1) else None
  {
    var r := fs + [x];
    HasKeySnoc(fs, x, k);
    if HasKey(fs, k) {
      var i := KeyIndex(fs, k).value;
      assert KeyIndex(r, k) == Some(i) by {
        assert forall j :: 0 <= j < i ==> r[j] == fs[j];
        LookupAt(r, i);
      }
    } else if x.0 == k {
      assert forall j :: 0 <= j < |fs| ==> r[j].0 != k;
      LookupAt(r, |fs|);
    }
  }

  /**
   * The merge rule: a key the data has reads as the data's value unless that
   * is None and the record already had the key; every other key reads as in
   * the record.
   */
  lemma {:induction false} MergedLookup(record: Fields, data: Fields, k: string)
    requires DistinctKeys(data)
    ensures Lookup(Merged(record, data), k)
            == if Lookup(data, k).Some? && (!Lookup(data, k).value.Null? || Lookup(record, k).None?)
               then Lookup(data, k) else Lookup(record, k)
  {
    if data != [] {
      var before := data[..|data| - 1];
      var last := data[|data| - 1];
      assert data == before + [last];
      assert DistinctKeys(before);
      MergedLookup(record, before, k);
      var m := Merged(record, before);
      LookupSnoc(before, last, k);
      LookupPut(m, last.0, last.1, k);
    }
  }

  /** Every entry of the merged record is an entry of the record or of the data. */
  lemma {:induction false} MergedEntries(record: Fields, data: Fields)
    ensures forall p :: p in Merged(record, data) ==> p in record || p in data
  {
    if data != [] {
      var before := data[..|data| - 1];
      var last := data[|data| - 1];
      MergedEntries(record, before);
      var m := Merged(record, before);
      assert forall p :: p in before ==> p in data;
      if !HasKey(m, last.0) || !last.1.Null? {
        match KeyIndex(m, last.0)
        case None =>
        case Some(i) =>
          assert forall p :: p in m[i := last] ==> p in m || p == last;
      }
    }
  }

  /** Values that are datetimes are real ones, as Python's `datetime` objects always are. */
  predicate MomentsValid(fs: Fields) {
    forall p :: p in fs && p.1.Moment? ==> ValidDateTime(p.1.dt)
  }

  /** The value stored for `merged_lot[key] = value.isoformat()`. */
  function IsoValue(v: Value): (r: Value)
    ensures (v.Moment? ==> ValidDateTime(v.dt)) ==> !r.Moment?
  {
    if v.Moment? && ValidDateTime(v.dt) then Str(DateTimeToIso(v.dt)) else v
  }

  /** The record with its datetime values replaced by their ISO strings. */
  function IsoValues(fs: Fields): (r: Fields)
  {
    seq(|fs|, j requires 0 <= j < |fs| => (fs[j].0, IsoValue(fs[j].1)))
  }

  /**
   * The loop over `merged_lot.items()`: datetimes become ISO strings; the
   * keys, their order and every other value stay.
   */
  method IsoFormatValues(merged: Fields) returns (r: Fields)
    requires MomentsValid(merged)
    ensures r == IsoValues(merged)
    ensures |r| == |merged| && forall j :: 0 <= j < |r| ==> r[j].0 == merged[j].0 && !r[j].1.Moment?
    ensures forall j :: 0 <= j < |r| && !merged[j].1.Moment? ==> r[j] == merged[j]
  {
    r := merged;
    for j := 0 to |merged|
      invariant |r| == |merged|
      invariant forall m :: 0 <= m < j ==> r[m] == (merged[m].0, IsoValue(merged[m].1))
      invariant forall m :: j <= m < |r| ==> r[m] == merged[m]
    {
      var (key, value) := merged[j];
      assert merged[j] in merged;
      if value.Moment? {
        r := r[j := (key, Str(DateTimeToIso(value.dt)))];
      }
    }
  }

  /** `POOL.source_url or POOL.public_url`. */
  function PoolSourceUrl(pool: PoolInfo): string {
    if pool.sourceUrl.Some? && pool.sourceUrl.value != "" then pool.sourceUrl.value else pool.publicUrl
  }

  /**
   * A missing or falsy "source_url" is set to the pool's source URL, or its
   * public URL when it has none; every other key stays.
   */
  function FillSourceUrl(merged: Fields, pool: PoolInfo): (r: Fields)
    ensures Lookup(r, "source_url")
            == if Truthy(Get(merged, "source_url")) then Lookup(merged, "source_url") else Some(Str(PoolSourceUrl(pool)))
    ensures forall k :: k != "source_url" ==> Lookup(r, k) == Lookup(merged, k)
  {
    if Truthy(Get(merged, "source_url")) then merged
    else
      var r := Put(merged, "source_url", Str(PoolSourceUrl(pool)));
      assert forall k :: Lookup(r, k) == if k == "source_url" then Some(Str(PoolSourceUrl(pool))) else Lookup(merged, k) by {
        forall k { LookupPut(merged, "source_url", Str(PoolSourceUrl(pool)), k); }
      }
      r
  }

  /** The datetimes of a lot's data are real ones. */
  predicate LotTimesValid(data: LotData) {
    ValidDateTime(data.timestamp) && (data.lotTimestamp.Some? ==> ValidDateTime(data.lotTimestamp.value))
  }

  /** The record a lot starts from: its info's attributes, or nothing when it has no info. */
  function BaseRecord(infoMap: map<string, LotInfo>, id: string): Fields {
    if id in infoMap then LotInfoVars(infoMap[id]) else []
  }

  /** An info's attributes hold no datetime. */
  lemma InfoVarsNoMoments(info: LotInfo)
    ensures forall p :: p in LotInfoVars(info) ==> !p.1.Moment?
  {
    var r := LotInfoVars(info);
    assert forall j :: 0 <= j < |r| ==> !r[j].1.Moment?;
  }

  /** A lot's datetimes are its two timestamps. */
  lemma DataVarsMomentsValid(data: LotData)
    requires LotTimesValid(data)
    ensures MomentsValid(LotDataVars(data))
  {
    var r := LotDataVars(data);
    assert forall j :: 0 <= j < |r| && r[j].1.Moment? ==> ValidDateTime(r[j].1.dt);
  }

  lemma MergedMomentsValid(infoMap: map<string, LotInfo>, data: LotData)
    requires LotTimesValid(data)
    ensures MomentsValid(Merged(BaseRecord(infoMap, data.id), LotDataVars(data)))
  {
    MergedEntries(BaseRecord(infoMap, data.id), LotDataVars(data));
    if data.id in infoMap {
      InfoVarsNoMoments(infoMap[data.id]);
    }
    DataVarsMomentsValid(data);
  }

  /** The record one lot contributes to the snapshot. */
  function MergedLot(infoMap: map<string, LotInfo>, pool: PoolInfo, data: LotData): Fields
  {
    FillSourceUrl(IsoValues(Merged(BaseRecord(infoMap, data.id), LotDataVars(data))), pool)
  }

  /** The attribute names of a `LotData` are all different, and "source_url" is not one of them. */
  lemma DataVarsKeys(data: LotData)
    ensures DistinctKeys(LotDataVars(data))
    ensures Lookup(LotDataVars(data), "source_url") == None
  {
    var r := LotDataVars(data);
    assert forall j :: 0 <= j < |r| ==> r[j].0 != "source_url";
  }

  /** An info's "source_url" attribute. */
  lemma InfoVarsSourceUrl(info: LotInfo)
    ensures Lookup(LotInfoVars(info), "source_url") == Some(OptStr(info.sourceUrl))
  {
    var r := LotInfoVars(info);
    assert forall j :: 0 <= j < 4 ==> r[j].0 != "source_url";
    LookupAt(r, 4);
  }

  /** The ISO conversion keeps the keys: each reads as its converted value. */
  lemma {:induction false} LookupIsoValues(fs: Fields, k: string)
    ensures Lookup(IsoValues(fs), k) == if Lookup(fs, k).Some? then Some(IsoValue(Lookup(fs, k).value)) else None
  {
    if fs != [] {
      assert IsoValues(fs) == [IsoValues(fs)[0]] + IsoValues(fs[1..]);
      assert fs == [fs[0]] + fs[1..];
      LookupIsoValues(fs[1..], k);
      LookupCons(IsoValues(fs)[0], IsoValues(fs[1..]), k);
      LookupCons(fs[0], fs[1..], k);
    }
  }

  /**
   * A lot's record, key by key: the merge rule applied to its info's
   * attributes (none when it has no info) and its data's, datetimes as ISO
   * strings; "source_url" aside.
   */
  lemma MergedLotLookup(infoMap: map<string, LotInfo>, pool: PoolInfo, data: LotData, k: string)
    requires k != "source_url"
    ensures var base := BaseRecord(infoMap, data.id);
      var d := LotDataVars(data);
      var v := if Lookup(d, k).Some? && (!Lookup(d, k).value.Null? || Lookup(base, k).None?) then Lookup(d, k) else Lookup(base, k);
      Lookup(MergedLot(infoMap, pool, data), k) == if v.Some? then Some(IsoValue(v.value)) else None
  {
    var base := BaseRecord(infoMap, data.id);
    DataVarsKeys(data);
    MergedLookup(base, LotDataVars(data), k);
    LookupIsoValues(Merged(base, LotDataVars(data)), k);
  }

  /**
   * A lot's "source_url" is its info's when that is set and not empty,
   * otherwise the pool's source URL, or its public URL.
   */
  lemma MergedLotSourceUrl(infoMap: map<string, LotInfo>, pool: PoolInfo, data: LotData)
    ensures Lookup(MergedLot(infoMap, pool, data), "source_url")
            == Some(Str(if data.id in infoMap && infoMap[data.id].sourceUrl.Some? && infoMap[data.id].sourceUrl.value != ""
                        then infoMap[data.id].sourceUrl.value else PoolSourceUrl(pool)))
  {
    var base := BaseRecord(infoMap, data.id);
    DataVarsKeys(data);
    MergedLookup(base, LotDataVars(data), "source_url");
    LookupIsoValues(Merged(base, LotDataVars(data)), "source_url");
    if data.id in infoMap {
      InfoVarsSourceUrl(infoMap[data.id]);
    }
  }

  /** No datetime is left in a lot's record. */
  lemma MergedLotNoMoments(infoMap: map<string, LotInfo>, pool: PoolInfo, data: LotData, k: string)
    requires LotTimesValid(data)
    ensures Lookup(MergedLot(infoMap, pool, data), k).Some? ==> !Lookup(MergedLot(infoMap, pool, data), k).value.Moment?
  {
    var merged := Merged(BaseRecord(infoMap, data.id), LotDataVars(data));
    MergedMomentsValid(infoMap, data);
    LookupIsoValues(merged, k);
    if Lookup(merged, k).Some? {
      assert (k, Lookup(merged, k).value) in merged;
    }
  }

  // ------------------------------------------------------------ the loop

  /** The ids of a list of lot data. */
  function LotIds(lots: seq<LotData>): set<string> {
    set i | 0 <= i < |lots| :: lots[i].id
  }

  predicate DistinctLotIds(lots: seq<LotData>) {
    forall i, j :: 0 <= i < j < |lots| ==> lots[i].id != lots[j].id
  }

  function DuplicateData(id: string): Fault {
    Raised("ValueError", "Duplicate LotData id '" + id + "'")
  }

  function NotInInfos(id: string): Fault {
    Raised("ValueError", "Lot " + id + " is not in lot_infos")
  }

  /** The exception the loop raises at a lot, given the lots before it. */
  function StepFault(infoMap: map<string, LotInfo>, required: bool, before: seq<LotData>, data: LotData): Option<Fault> {
    if data.id in LotIds(before) then Some(DuplicateData(data.id))
    else if data.id !in infoMap && required then Some(NotInInfos(data.id))
    else None
  }

  /**
   * The loop over the lot data: the records merged so far and the exception
   * that stopped it. The records are those of the lots before the one that
   * raised, in order.
   */
  function RunLots(infoMap: map<string, LotInfo>, required: bool, lots: seq<LotData>, merge: LotData -> Fields): (seq<Fields>, Option<Fault>)
    decreases |lots|
  {
    if lots == [] then ([], None)
    else
      var before := lots[..|lots| - 1];
      var data := lots[|lots| - 1];
      var (out, err) := RunLots(infoMap, required, before, merge);
      if err.Some? then (out, err)
      else
        var f := StepFault(infoMap, required, before, data);
        if f.Some? then (out, f) else (out + [merge(data)], None)
  }

  /**
   * What the loop leaves: the records of the lots before the one that
   * raised, in order, each of those lots having passed both checks; the
   * exception is the one that lot raised.
   */
  lemma {:induction false} RunLotsShape(infoMap: map<string, LotInfo>, required: bool, lots: seq<LotData>, merge: LotData -> Fields)
    ensures var r := RunLots(infoMap, required, lots, merge);
      && |r.0| <= |lots|
      && (forall i :: 0 <= i < |r.0| ==> r.0[i] == merge(lots[i]))
      && (forall i :: 0 <= i < |r.0| ==> StepFault(infoMap, required, lots[..i], lots[i]).None?)
      && (r.1.None? ==> |r.0| == |lots|)
      && (r.1.Some? ==> |r.0| < |lots| && r.1 == StepFault(infoMap, required, lots[..|r.0|], lots[|r.0|]))
  {
    if lots != [] {
      var before := lots[..|lots| - 1];
      assert forall i :: 0 <= i < |before| ==> before[i] == lots[i];
      assert forall i :: 0 <= i <= |before| ==> before[..i] == lots[..i];
      RunLotsShape(infoMap, required, before, merge);
    }
  }

  lemma LotIdsSnoc(lots: seq<LotData>, data: LotData)
    ensures LotIds(lots + [data]) == LotIds(lots) + {data.id}
    ensures DistinctLotIds(lots + [data]) <==> DistinctLotIds(lots) && data.id !in LotIds(lots)
  {
    var all := lots + [data];
    assert forall i :: 0 <= i < |lots| ==> all[i] == lots[i];
    assert all[|lots|] == data;
    if DistinctLotIds(all) {
      assert DistinctLotIds(lots);
    }
  }

  /** The loop over one more lot: the loop over the others, then one step. */
  lemma RunLotsSnoc(infoMap: map<string, LotInfo>, required: bool, lots: seq<LotData>, merge: LotData -> Fields, data: LotData)
    ensures var all := lots + [data];
      && RunLots(infoMap, required, all, merge)
         == if RunLots(infoMap, required, lots, merge).1.Some? then RunLots(infoMap, required, lots, merge)
            else if StepFault(infoMap, required, lots, data).Some? then (RunLots(infoMap, required, lots, merge).0, StepFault(infoMap, required, lots, data))
            else (RunLots(infoMap, required, lots, merge).0 + [merge(data)], None)
  {
    var all := lots + [data];
    assert all[..|all| - 1] == lots;
  }

  /**
   * The loop runs to the end exactly when no lot id repeats and, when infos
   * are required, every lot has an info.
   */
  lemma {:induction false} RunLotsCompletes(infoMap: map<string, LotInfo>, required: bool, lots: seq<LotData>, merge: LotData -> Fields)
    ensures RunLots(infoMap, required, lots, merge).1.None?
            <==> DistinctLotIds(lots) && (required ==> forall i :: 0 <= i < |lots| ==> lots[i].id in infoMap)
  {
    if lots != [] {
      var before := lots[..|lots| - 1];
      var data := lots[|lots| - 1];
      assert lots == before + [data];
      RunLotsCompletes(infoMap, required, before, merge);
      RunLotsSnoc(infoMap, required, before, merge, data);
      LotIdsSnoc(before, data);
    }
  }

  /** Once the loop has raised, the lots after that one are never looked at. */
  lemma {:induction false} RunLotsStops(infoMap: map<string, LotInfo>, required: bool, lots: seq<LotData>, merge: LotData -> Fields, k: nat)
    requires k <= |lots| && RunLots(infoMap, required, lots[..k], merge).1.Some?
    ensures RunLots(infoMap, required, lots, merge) == RunLots(infoMap, required, lots[..k], merge)
    decreases |lots|
  {
    if k == |lots| {
      assert lots[..k] == lots;
    } else {
      var before := lots[..|lots| - 1];
      assert before[..k] == lots[..k];
      RunLotsStops(infoMap, required, before, merge, k);
    }
  }

  datatype Snapshot = Snapshot(pool: Fields, lots: seq<Fields>, error: Option<string>)

  /** `f"{type(e).__name__}: {e}"`, the head of the error entry. */
  function ErrorText(f: Fault): (s: string)
    ensures |s| > 0
  {
    match f
    case Raised(kind, detail) => kind + ": " + detail
    case Invalid(code, detail) => "ValidationError: " + detail
  }

  /** The per-lot part of the loop body, as a function of the lot. */
  function MergeWith(infoMap: map<string, LotInfo>, pool: PoolInfo): LotData -> Fields {
    data => MergedLot(infoMap, pool, data)
  }

  /** What `get_snapshot` returns. */
  function SnapshotOf(pool: PoolInfo, infos: Option<seq<LotInfo>>, lots: seq<LotData>, infosRequired: bool): Snapshot
  {
    match LotInfoMap(infos, pool.id, infosRequired)
    case Err(e) => Snapshot(PoolVars(pool), [], Some(ErrorText(e)))
    case Ok(m) =>
      var (out, err) := RunLots(m, infosRequired, lots, MergeWith(m, pool));
      Snapshot(PoolVars(pool), out, if err.Some? then Some(ErrorText(err.value)) else None)
  }

  /** The body of the loop for a lot that raised nothing: merge, convert the datetimes, fill the source URL. */
  method MergeLot(infoMap: map<string, LotInfo>, pool: PoolInfo, data: LotData) returns (merged: Fields)
    requires LotTimesValid(data)
    ensures merged == MergedLot(infoMap, pool, data)
  {
    merged := MergeInto(BaseRecord(infoMap, data.id), LotDataVars(data));
    MergedMomentsValid(infoMap, data);
    merged := IsoFormatValues(merged);
    merged := FillSourceUrl(merged, pool);
  }

  /**
   * The loop of `get_snapshot` over the lot data, with the set of ids seen
   * so far: a repeated id or, when infos are required, a lot without an
   * info raises and ends it. The body for a lot that raised nothing is
   * `merge` (`MergeLot` below, as a function of the lot).
   */
  method MergeLots(infoMap: map<string, LotInfo>, required: bool, merge: LotData -> Fields, lots: seq<LotData>)
    returns (out: seq<Fields>, error: Option<Fault>)
    ensures (out, error) == RunLots(infoMap, required, lots, merge)
  {
    out := [];
    var seen: set<string> := {};
    var i := 0;
    while i < |lots|
      invariant 0 <= i <= |lots|
      invariant seen == LotIds(lots[..i])
      invariant RunLots(infoMap, required, lots[..i], merge) == (out, None)
    {
      var data := lots[i];
      assert lots[..i + 1] == lots[..i] + [data];
      RunLotsSnoc(infoMap, required, lots[..i], merge, data);
      LotIdsSnoc(lots[..i], data);
      if data.id in seen {
        RunLotsStops(infoMap, required, lots, merge, i + 1);
        return out, Some(DuplicateData(data.id));
      }
      seen := seen + {data.id};
      if data.id !in infoMap && required {
        RunLotsStops(infoMap, required, lots, merge, i + 1);
        return out, Some(NotInInfos(data.id));
      }
      var merged := merge(data);
      out := out + [merged];
      i := i + 1;
    }
    assert lots[..i] == lots;
    return out, None;
  }

  /**
   * `get_snapshot`: the pool's attributes, then the infos are mapped and
   * the lots merged; an exception ends the work, keeps the lots merged so
   * far and is recorded as the snapshot's error.
   */
  method GetSnapshot(pool: PoolInfo, infos: Option<seq<LotInfo>>, lots: seq<LotData>, infosRequired: bool)
    returns (snapshot: Snapshot)
    ensures snapshot == SnapshotOf(pool, infos, lots, infosRequired)
  {
    var infoMap := LotInfoMap(infos, pool.id, infosRequired);
    if infoMap.Err? {
      return Snapshot(PoolVars(pool), [], Some(ErrorText(infoMap.error)));
    }
    var out, error := MergeLots(infoMap.value, infosRequired, MergeWith(infoMap.value, pool), lots);
    snapshot := Snapshot(PoolVars(pool), out, if error.Some? then Some(ErrorText(error.value)) else None);
  }

  // ------------------------------------------------------------- GeoJSON

  /** A GeoJSON feature: its properties and, when it has a Point geometry, that point's coordinates. */
  datatype Feature = Feature(properties: Fields, coordinates: Option<seq<Decimal>>)

  /**
   * One feature of `info_map_to_geojson`: the info's attributes without the
   * two coordinates as properties, and a Point at [longitude, latitude]
   * (the position order of RFC 7946, section 3.1.1) only when both are set.
   */
  function FeatureOf(info: LotInfo): (f: Feature)
    ensures f.coordinates.Some? <==> info.latitude.Some? && info.longitude.Some?
    ensures f.coordinates.Some? ==> f.coordinates.value == [info.longitude.value, info.latitude.value]
    ensures forall k :: Lookup(f.properties, k)
                        == if k == "latitude" || k == "longitude" then None else Lookup(LotInfoVars(info), k)
  {
    var keep := k => k != "latitude" && k != "longitude";
    var props := FilterKeys(LotInfoVars(info), keep);
    assert forall k :: Lookup(props, k) == if keep(k) then Lookup(LotInfoVars(info), k) else None by {
      forall k { LookupFilter(LotInfoVars(info), keep, k); }
    }
    Feature(props, if info.latitude.Some? && info.longitude.Some? then Some([info.longitude.value, info.latitude.value]) else None)
  }

  /** The sort key `f["properties"]["id"]`. */
  function Key(f: Feature): string {
    match Get(f.properties, "id")
    case Str(s) => s
    case _ => ""
  }

  /** A feature's sort key is its info's id. */
  lemma KeyOfFeature(info: LotInfo)
    ensures Key(FeatureOf(info)) == info.id
  {
    LookupAt(LotInfoVars(info), 0);
  }

  /** Python's `<=` on strings: code point by code point, a prefix first. */
  predicate StrLe(a: string, b: string)
    decreases |a|
  {
    a == [] || (b != [] && (a[0] < b[0] || (a[0] == b[0] && StrLe(a[1..], b[1..]))))
  }

  lemma {:induction false} StrLeTotal(a: string, b: string)
    ensures StrLe(a, b) || StrLe(b, a)
    decreases |a|
  {
    if a != [] && b != [] && a[0] == b[0] {
      StrLeTotal(a[1..], b[1..]);
    }
  }

  predicate SortedById(fs: seq<Feature>) {
    forall i :: 0 < i < |fs| ==> StrLe(Key(fs[i - 1]), Key(fs[i]))
  }

  /** A feature put into a sorted list, before the first one whose key is not smaller. */
  function Insert(f: Feature, s: seq<Feature>): (r: seq<Feature>)
    requires SortedById(s)
    ensures SortedById(r) && multiset(r) == multiset(s) + multiset{f}
    ensures |r| == |s| + 1 && (r[0] == f || (s != [] && r[0] == s[0]))
    decreases |s|
  {
    if s == [] || StrLe(Key(f), Key(s[0])) then [f] + s
    else
      StrLeTotal(Key(f), Key(s[0]));
      assert s == [s[0]] + s[1..];
      var t := Insert(f, s[1..]);
      [s[0]] + t
  }

  /** `features.sort(key=...)`: the features ordered by id. */
  method SortById(fs: seq<Feature>) returns (r: seq<Feature>)
    ensures SortedById(r) && multiset(r) == multiset(fs)
  {
    r := [];
    for i := 0 to |fs|
      invariant SortedById(r) && multiset(r) == multiset(fs[..i])
    {
      assert fs[..i + 1] == fs[..i] + [fs[i]];
      r := Insert(fs[i], r);
    }
    assert fs[..|fs|] == fs;
  }

  /** `LotInfo(id=lot.id, name=lot.id, type=LotInfo.Types.unknown)`. */
  function MinimalInfo(id: string): LotInfo {
    LotInfo(id, id, "unknown", None, None, None, None, false, None, None)
  }

  /** The constructor accepts the minimal info and stores it as given. */
  lemma MinimalInfoConstructed(id: string)
    ensures MakeLotInfo(id, id, Some("unknown"), None, None, None, None, false, Null, Null) == Ok(MinimalInfo(id))
  {
  }

  /** The info map with a minimal info for each of the ids that has none. */
  function WithUnknown(infoMap: map<string, LotInfo>, ids: set<string>): map<string, LotInfo> {
    map k | k in infoMap.Keys + ids :: if k in infoMap then infoMap[k] else MinimalInfo(k)
  }

  /** One more id: a minimal info for it unless it already has one. */
  lemma WithUnknownAdd(infoMap: map<string, LotInfo>, ids: set<string>, id: string)
    ensures var before := WithUnknown(infoMap, ids);
      WithUnknown(infoMap, ids + {id}) == if id in before then before else before[id := MinimalInfo(id)]
  {
  }

  /** The infos exported: a minimal one added for each data id without info, then restricted to the data's ids. */
  function SelectedInfos(infoMap: map<string, LotInfo>, lots: seq<LotData>, includeUnknown: bool, includeAllInfos: bool): map<string, LotInfo> {
    var ids := LotIds(lots);
    var all := if includeUnknown then WithUnknown(infoMap, ids) else infoMap;
    if includeAllInfos then all else map k | k in all.Keys && k in ids :: all[k]
  }

  /**
   * Which lots are exported: with `include_unknown` every data id (with a
   * minimal info when it has none) and, with `include_all_infos`, every
   * info besides; without `include_unknown` the infos, only those with data
   * unless all are wanted.
   */
  lemma SelectedInfosKeys(infoMap: map<string, LotInfo>, lots: seq<LotData>, includeUnknown: bool, includeAllInfos: bool)
    ensures var sel := SelectedInfos(infoMap, lots, includeUnknown, includeAllInfos);
      var ids := LotIds(lots);
      && sel.Keys == (if includeAllInfos then infoMap.Keys + (if includeUnknown then ids else {})
                      else if includeUnknown then ids else infoMap.Keys * ids)
      && forall k :: k in sel ==> sel[k] == if k in infoMap then infoMap[k] else MinimalInfo(k)
  {
  }

  /** Lines 39-44 of `info_map_to_geojson`: a minimal info for each lot without one. */
  method AddUnknownInfos(infoMap: map<string, LotInfo>, lots: seq<LotData>) returns (all: map<string, LotInfo>)
    ensures all == WithUnknown(infoMap, LotIds(lots))
  {
    all := infoMap;
    for i := 0 to |lots|
      invariant all == WithUnknown(infoMap, LotIds(lots[..i]))
    {
      assert lots[..i + 1] == lots[..i] + [lots[i]];
      LotIdsSnoc(lots[..i], lots[i]);
      WithUnknownAdd(infoMap, LotIds(lots[..i]), lots[i].id);
      if lots[i].id !in all {
        all := all[lots[i].id := MinimalInfo(lots[i].id)];
      }
    }
    assert lots[..|lots|] == lots;
  }

  /** Lines 34-47 of `info_map_to_geojson`: the minimal infos added, then the restriction to the data's ids. */
  method SelectInfos(infoMap: map<string, LotInfo>, lots: seq<LotData>, includeUnknown: bool, includeAllInfos: bool)
    returns (sel: map<string, LotInfo>)
    ensures sel == SelectedInfos(infoMap, lots, includeUnknown, includeAllInfos)
  {
    sel := infoMap;
    if includeUnknown || !includeAllInfos {
      var ids := LotIds(lots);
      if includeUnknown {
        sel := AddUnknownInfos(infoMap, lots);
      }
      if !includeAllInfos {
        sel := map k | k in sel.Keys && k in ids :: sel[k];
      }
    }
  }

  /** Lines 53-65 of `info_map_to_geojson`: one feature per info of the map, in the map's order. */
  method CollectFeatures(infoMap: map<string, LotInfo>) returns (features: seq<Feature>)
    ensures |features| == |infoMap.Keys|
    ensures forall k :: k in infoMap ==> FeatureOf(infoMap[k]) in features
    ensures forall f :: f in features ==> exists k :: k in infoMap && f == FeatureOf(infoMap[k])
  {
    var keys := infoMap.Keys;
    features := [];
    while keys != {}
      invariant keys <= infoMap.Keys
      invariant |features| + |keys| == |infoMap.Keys|
      invariant forall k :: k in infoMap.Keys - keys ==> FeatureOf(infoMap[k]) in features
      invariant forall f :: f in features ==> exists k :: k in infoMap.Keys - keys && f == FeatureOf(infoMap[k])
      decreases |keys|
    {
      var k :| k in keys;
      features := features + [FeatureOf(infoMap[k])];
      keys := keys - {k};
    }
  }

  /** The elements of a permutation are those of the original list. */
  lemma PermutationMembers(a: seq<Feature>, b: seq<Feature>)
    requires multiset(a) == multiset(b)
    ensures |a| == |b| && forall f :: f in a <==> f in b
  {
    assert |a| == |multiset(a)| == |multiset(b)| == |b|;
    forall f ensures f in a <==> f in b {
      assert f in a <==> f in multiset(a);
      assert f in b <==> f in multiset(b);
    }
  }

  /**
   * `info_map_to_geojson`: the infos (not required when unknown lots are
   * included) are selected, turned into features and sorted by id; an
   * exception of the info map is not caught.
   */
  method InfoMapToGeojson(poolId: string, infos: Option<seq<LotInfo>>, lots: seq<LotData>, includeUnknown: bool, includeAllInfos: bool)
    returns (r: Result<seq<Feature>, Fault>)
    ensures LotInfoMap(infos, poolId, !includeUnknown).Err? ==> r == Err(LotInfoMap(infos, poolId, !includeUnknown).error)
    ensures LotInfoMap(infos, poolId, !includeUnknown).Ok? ==> r.Ok?
    ensures r.Ok? ==>
      var sel := SelectedInfos(LotInfoMap(infos, poolId, !includeUnknown).value, lots, includeUnknown, includeAllInfos);
      && SortedById(r.value)
      && |r.value| == |sel.Keys|
      && (forall k :: k in sel ==> FeatureOf(sel[k]) in r.value)
      && (forall f :: f in r.value ==> exists k :: k in sel && f == FeatureOf(sel[k]))
  {
    var mapped := LotInfoMap(infos, poolId, !includeUnknown);
    if mapped.Err? {
      return Err(mapped.error);
    }
    var sel := SelectInfos(mapped.value, lots, includeUnknown, includeAllInfos);
    var features := CollectFeatures(sel);
    var sorted := SortById(features);
    PermutationMembers(sorted, features);
    return Ok(sorted);
  }
}
