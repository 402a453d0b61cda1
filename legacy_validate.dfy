/**
 * util/validate.py: the validation a snapshot goes through after it is made.
 * The JSON-schema check comes first and, when it fails, is the only
 * finding; otherwise the snapshot's error and the "good practice" of the
 * pool and of every lot are reported, each finding with a path, a message
 * and a priority (0 is the most severe).
 *
 * Paths and messages are kept as what they are built from; `PathText` and
 * `MessageText` give the text the source formats from those parts.
 */
module LegacyValidate {
  import opened Wrappers
  import opened Text
  import opened Values
  import opened PyOps
  import opened LegacySnapshot

  /** One element more of a list's prefix. */
  lemma TakeNext<T>(s: seq<T>, k: nat)
    requires k < |s|
    ensures s[..k + 1] == s[..k] + [s[k]] && s[..k + 1][..k] == s[..k]
  {
  }

  lemma TakeAll<T>(s: seq<T>)
    ensures s[..|s|] == s
  {
  }

  /** Where a finding points: the path of the schema error, the error, a pool attribute or a lot attribute. */
  datatype Path = SchemaPath(text: string) | ErrorsPath | PoolPath(key: string) | LotPath(index: nat, key: string)

  /** The dotted path as the source writes it. */
  function PathText(p: Path): string {
    match p
    case SchemaPath(text) => text
    case ErrorsPath => "errors"
    case PoolPath(key) => "pool." + key
    case LotPath(i, key) => "lots." + NatToString(i) + "." + key
  }

  /** Distinct lot attributes have distinct paths, and so do distinct pool attributes. */
  lemma PathTextInjective(p: Path, q: Path)
    requires (p.PoolPath? && q.PoolPath?) || (p.LotPath? && q.LotPath? && p.index == q.index)
    ensures PathText(p) == PathText(q) ==> p == q
  {
    if PathText(p) == PathText(q) {
      var prefix := if p.PoolPath? then "pool." else "lots." + NatToString(p.index) + ".";
      assert PathText(p) == prefix + p.key && PathText(q) == prefix + q.key;
      assert (prefix + p.key)[|prefix|..] == p.key;
      assert (prefix + q.key)[|prefix|..] == q.key;
    }
  }

  /** What a finding says, with the id of the pool or lot it is about. */
  datatype Message =
    | SchemaMessage(text: string)
    | ErrorMessage(text: string)
    | PoolShouldHave(poolId: string, key: string)
    | TypeIsUnknown(lotId: string)
    | LotShouldHave(lotId: string, key: string)
    | NoCounts(lotId: string)
    | NoCapacity(lotId: string)

  /** The message as the source formats it. */
  function MessageText(m: Message): string {
    match m
    case SchemaMessage(text) => text
    case ErrorMessage(text) => text
    case PoolShouldHave(id, key) => "Pool '" + id + "' should have '" + key + "'"
    case TypeIsUnknown(id) => "Lot '" + id + "' should have a type other than 'unknown'"
    case LotShouldHave(id, key) => "Lot '" + id + "' should have '" + key + "'"
    case NoCounts(id) => "Lot '" + id + "' should have 'num_free' or 'num_occupied'"
    case NoCapacity(id) => "Lot '" + id + "' should have 'capacity' when defining 'num_occupied'"
  }

  /** One entry of `ret_data["validations"]`. */
  datatype Validation = Validation(path: Path, message: Message, priority: nat)

  /** Whether a list holds an entry with the path and the priority. */
  predicate Has(vs: seq<Validation>, path: Path, priority: nat) {
    exists v :: v in vs && v.path == path && v.priority == priority
  }

  /** An id as an f-string shows it; the ids of a snapshot that passed the schema check are strings. */
  function IdText(v: Value): string {
    if v.Str? then v.s else ""
  }

  // ------------------------------------------------------------ the error

  /** `if snapshot.get("error")`: a non-empty error is reported at path "errors". */
  function ErrorEntries(error: Option<string>): seq<Validation> {
    if error.Some? && error.value != "" then [Validation(ErrorsPath, ErrorMessage(error.value), 0)] else []
  }

  // ------------------------------------------------------------- the pool

  /** The pool attributes every pool should have, in the order they are checked. */
  const AttributionKeys: seq<string> := ["attribution_license", "attribution_contributor", "attribution_url"]

  /** The finding for one attribute of the pool: one entry when it is falsy. */
  function AttributionEntry(pool: Fields, key: string): seq<Validation> {
    if Truthy(Get(pool, key)) then []
    else [Validation(PoolPath(key), PoolShouldHave(IdText(Get(pool, "id")), key), 3)]
  }

  /** The findings for the attributes `keys`, in their order. */
  function AttributionEntries(pool: Fields, keys: seq<string>): seq<Validation>
    decreases |keys|
  {
    if keys == [] then []
    else AttributionEntries(pool, keys[..|keys| - 1]) + AttributionEntry(pool, keys[|keys| - 1])
  }

  /**
   * A falsy attribute of the pool is reported with priority 3 at
   * "pool.<key>", and nothing else is reported about the pool.
   */
  lemma {:induction false} AttributionEntriesIff(pool: Fields, keys: seq<string>, key: string)
    ensures Has(AttributionEntries(pool, keys), PoolPath(key), 3) <==> key in keys && !Truthy(Get(pool, key))
    ensures forall v :: v in AttributionEntries(pool, keys) ==> v.priority == 3 && v.path.PoolPath?
    decreases |keys|
  {
    if keys != [] {
      var init, last := keys[..|keys| - 1], keys[|keys| - 1];
      AttributionEntriesIff(pool, init, key);
      assert keys == init + [last];
      if key == last && !Truthy(Get(pool, key)) {
        assert AttributionEntry(pool, key)[0] in AttributionEntries(pool, keys);
      }
    }
  }

  // ------------------------------------------------------------- the lots

  /** What validation reads of a lot record: `lot[key]` for each key it names. */
  datatype LotView = LotView(
    id: Value, lotType: Value, latitude: Value, longitude: Value, address: Value,
    capacity: Value, numFree: Value, numOccupied: Value)

  /** The view of a record, with an absent key read as None. */
  function ViewOf(lot: Fields): LotView {
    LotView(Get(lot, "id"), Get(lot, "type"), Get(lot, "latitude"), Get(lot, "longitude"), Get(lot, "address"),
            Get(lot, "capacity"), Get(lot, "num_free"), Get(lot, "num_occupied"))
  }

  /** `lot[key]` for the location keys. */
  function Field(lot: LotView, key: string): Value {
    if key == "latitude" then lot.latitude
    else if key == "longitude" then lot.longitude
    else if key == "address" then lot.address
    else if key == "capacity" then lot.capacity
    else Null
  }

  /** A lot of type "unknown" should have another type. */
  function TypeEntry(i: nat, lot: LotView): seq<Validation> {
    if lot.lotType == Str("unknown") then [Validation(LotPath(i, "type"), TypeIsUnknown(IdText(lot.id)), 2)] else []
  }

  /** The attributes every lot should have, in the order they are checked. */
  const LocationKeys: seq<string> := ["latitude", "longitude", "address", "capacity"]

  /** Whether a missing attribute is reported: a missing longitude only when the latitude is there. */
  predicate Reported(lot: LotView, key: string) {
    Field(lot, key).Null? && !(key == "longitude" && lot.latitude.Null?)
  }

  function MissingEntry(i: nat, lot: LotView, key: string): seq<Validation> {
    if Reported(lot, key) then [Validation(LotPath(i, key), LotShouldHave(IdText(lot.id), key), 1)] else []
  }

  /** The findings for the attributes `keys` of lot `i`, in their order. */
  function MissingEntries(i: nat, lot: LotView, keys: seq<string>): seq<Validation>
    decreases |keys|
  {
    if keys == [] then []
    else MissingEntries(i, lot, keys[..|keys| - 1]) + MissingEntry(i, lot, keys[|keys| - 1])
  }

  lemma MissingEntriesSnoc(i: nat, lot: LotView, keys: seq<string>, key: string)
    ensures MissingEntries(i, lot, keys + [key]) == MissingEntries(i, lot, keys) + MissingEntry(i, lot, key)
  {
    assert (keys + [key])[..|keys|] == keys;
  }

  /** A lot without both counts should have one of them. */
  function CountsEntry(i: nat, lot: LotView): seq<Validation> {
    if lot.numFree.Null? && lot.numOccupied.Null? then [Validation(LotPath(i, "num_free"), NoCounts(IdText(lot.id)), 4)]
    else []
  }

  /** A lot with only an occupied count should have a capacity. */
  function CapacityEntry(i: nat, lot: LotView): seq<Validation> {
    if lot.numFree.Null? && lot.capacity.Null? && !lot.numOccupied.Null? then
      [Validation(LotPath(i, "capacity"), NoCapacity(IdText(lot.id)), 2)]
    else []
  }

  /** Everything reported about lot `i`, in the order it is found. */
  function LotEntries(i: nat, lot: LotView): seq<Validation> {
    TypeEntry(i, lot) + MissingEntries(i, lot, LocationKeys) + CountsEntry(i, lot) + CapacityEntry(i, lot)
  }

  /** The findings of the lots in order, each at its index. */
  function LotsEntries(lots: seq<Fields>): seq<Validation>
    decreases |lots|
  {
    if lots == [] then []
    else LotsEntries(lots[..|lots| - 1]) + LotEntries(|lots| - 1, ViewOf(lots[|lots| - 1]))
  }

  /** The missing-attribute findings: priority 1, at "lots.<i>.<key>" exactly for the reported keys. */
  lemma {:induction false} MissingEntriesIff(i: nat, lot: LotView, keys: seq<string>, key: string)
    ensures Has(MissingEntries(i, lot, keys), LotPath(i, key), 1) <==> key in keys && Reported(lot, key)
    ensures forall v :: v in MissingEntries(i, lot, keys) ==> v.priority == 1 && v.path.LotPath? && v.path.index == i
    decreases |keys|
  {
    if keys != [] {
      var init, last := keys[..|keys| - 1], keys[|keys| - 1];
      MissingEntriesIff(i, lot, init, key);
      assert keys == init + [last];
      if key == last && Reported(lot, key) {
        assert MissingEntry(i, lot, key)[0] in MissingEntries(i, lot, keys);
      }
    }
  }

  /**
   * The validation of one lot: type "unknown" gives a priority-2 entry at its
   * type; each missing location attribute a priority-1 entry, but a
   * missing longitude only when the latitude is there; no count at all a
   * priority-4 entry at "num_free"; an occupied count with neither a free
   * count nor a capacity a priority-2 entry at "capacity". Every entry is
   * about lot `i`.
   */
  lemma {:induction false} LotEntriesIff(i: nat, lot: LotView)
    ensures Has(LotEntries(i, lot), LotPath(i, "type"), 2) <==> lot.lotType == Str("unknown")
    ensures forall key :: key in LocationKeys ==>
      (Has(LotEntries(i, lot), LotPath(i, key), 1) <==> Field(lot, key).Null? && !(key == "longitude" && lot.latitude.Null?))
    ensures Has(LotEntries(i, lot), LotPath(i, "num_free"), 4) <==> lot.numFree.Null? && lot.numOccupied.Null?
    ensures Has(LotEntries(i, lot), LotPath(i, "capacity"), 2)
            <==> lot.numFree.Null? && lot.capacity.Null? && !lot.numOccupied.Null?
    ensures forall v :: v in LotEntries(i, lot) ==> v.path.LotPath? && v.path.index == i && v.priority in {1, 2, 4}
  {
    var missing := MissingEntries(i, lot, LocationKeys);
    MissingEntriesIff(i, lot, LocationKeys, "type");
    EntriesAround(i, lot, missing);
    forall key | key in LocationKeys
      ensures Has(LotEntries(i, lot), LotPath(i, key), 1) <==> Reported(lot, key)
    {
      MissingEntriesIff(i, lot, LocationKeys, key);
    }
  }

  /** The entries around a lot's priority-1 findings, whatever those are. */
  lemma EntriesAround(i: nat, lot: LotView, missing: seq<Validation>)
    requires forall v :: v in missing ==> v.priority == 1 && v.path.LotPath? && v.path.index == i
    ensures var es := TypeEntry(i, lot) + missing + CountsEntry(i, lot) + CapacityEntry(i, lot);
      && (Has(es, LotPath(i, "type"), 2) <==> lot.lotType == Str("unknown"))
      && (Has(es, LotPath(i, "num_free"), 4) <==> lot.numFree.Null? && lot.numOccupied.Null?)
      && (Has(es, LotPath(i, "capacity"), 2) <==> lot.numFree.Null? && lot.capacity.Null? && !lot.numOccupied.Null?)
      && (forall key :: Has(es, LotPath(i, key), 1) <==> Has(missing, LotPath(i, key), 1))
      && (forall v :: v in es ==> v.path.LotPath? && v.path.index == i && v.priority in {1, 2, 4})
  {
    var es := TypeEntry(i, lot) + missing + CountsEntry(i, lot) + CapacityEntry(i, lot);
    assert forall v :: v in es <==> v in TypeEntry(i, lot) || v in missing || v in CountsEntry(i, lot) || v in CapacityEntry(i, lot);
    if lot.lotType == Str("unknown") {
      assert TypeEntry(i, lot)[0] in es;
    }
    if lot.numFree.Null? && lot.numOccupied.Null? {
      assert CountsEntry(i, lot)[0] in es;
    }
    if lot.numFree.Null? && lot.capacity.Null? && !lot.numOccupied.Null? {
      assert CapacityEntry(i, lot)[0] in es;
    }
  }

  /** The findings of the first lots come first: they are a prefix of all the findings. */
  lemma {:induction false} LotsEntriesPrefix(lots: seq<Fields>, j: nat)
    requires j <= |lots|
    ensures LotsEntries(lots[..j]) <= LotsEntries(lots)
    decreases |lots|
  {
    if j < |lots| {
      var init := lots[..|lots| - 1];
      assert init[..j] == lots[..j];
      LotsEntriesPrefix(init, j);
    } else {
      assert lots[..j] == lots;
    }
  }

  /** Lot `i`'s findings follow those of the lots before it, before those of the lots after it. */
  lemma {:induction false} LotsEntriesInOrder(lots: seq<Fields>, i: nat)
    requires i < |lots|
    ensures LotsEntries(lots[..i]) + LotEntries(i, ViewOf(lots[i])) <= LotsEntries(lots)
  {
    LotsEntriesPrefix(lots, i + 1);
    TakeNext(lots, i);
  }

  /** Every lot finding is about one of the lots, with priority 1, 2 or 4. */
  lemma {:induction false} LotsEntriesShape(lots: seq<Fields>)
    ensures forall v :: v in LotsEntries(lots) ==> v.path.LotPath? && v.path.index < |lots| && v.priority in {1, 2, 4}
    decreases |lots|
  {
    if lots != [] {
      var i := |lots| - 1;
      LotsEntriesShape(lots[..i]);
      LotEntriesIff(i, ViewOf(lots[i]));
    }
  }

  // ------------------------------------------------------ validate_snapshot

  /**
   * `ret_data["validations"]` of `validate_snapshot`; the result of the
   * schema check is given as the path and message of its error, or None.
   */
  function Validations(snapshot: Snapshot, schemaError: Option<(string, string)>): seq<Validation> {
    match schemaError
    case Some((path, message)) => [Validation(SchemaPath(path), SchemaMessage(message), 0)]
    case None => ErrorEntries(snapshot.error) + AttributionEntries(snapshot.pool, AttributionKeys) + LotsEntries(snapshot.lots)
  }

  /**
   * Priority 0 is for the snapshot's failures: a failed schema check is
   * the only entry, and otherwise there is a priority-0 entry exactly when
   * the snapshot has an error, and it comes first.
   */
  lemma {:induction false} SevereEntries(snapshot: Snapshot, schemaError: Option<(string, string)>)
    ensures schemaError.Some? ==> |Validations(snapshot, schemaError)| == 1 && Validations(snapshot, schemaError)[0].priority == 0
    ensures schemaError.None? ==>
      ((exists v :: v in Validations(snapshot, schemaError) && v.priority == 0)
       <==> snapshot.error.Some? && snapshot.error.value != "")
    ensures schemaError.None? && snapshot.error.Some? && snapshot.error.value != "" ==>
      Validations(snapshot, schemaError)[0] == Validation(ErrorsPath, ErrorMessage(snapshot.error.value), 0)
  {
    if schemaError.None? {
      var pool := AttributionEntries(snapshot.pool, AttributionKeys);
      var lots := LotsEntries(snapshot.lots);
      AttributionEntriesIff(snapshot.pool, AttributionKeys, "");
      LotsEntriesShape(snapshot.lots);
      assert Validations(snapshot, schemaError) == ErrorEntries(snapshot.error) + pool + lots;
    }
  }

  /**
   * The order of the findings: the error, then the pool's, then the lots'
   * (each lot's at its own index).
   */
  lemma {:induction false} PoolBeforeLots(snapshot: Snapshot)
    ensures var vs := Validations(snapshot, None);
      var k := |ErrorEntries(snapshot.error)| + |AttributionEntries(snapshot.pool, AttributionKeys)|;
      && k <= |vs|
      && (forall j :: 0 <= j < k ==> vs[j].path.ErrorsPath? || vs[j].path.PoolPath?)
      && (forall j :: k <= j < |vs| ==> vs[j].path.LotPath? && vs[j].path.index < |snapshot.lots|)
  {
    var e := ErrorEntries(snapshot.error);
    var p := AttributionEntries(snapshot.pool, AttributionKeys);
    var l := LotsEntries(snapshot.lots);
    assert Validations(snapshot, None) == e + p + l;
    AttributionEntriesIff(snapshot.pool, AttributionKeys, "");
    LotsEntriesShape(snapshot.lots);
    InThreeParts(e, p, l, |snapshot.lots|);
  }

  /** Where the entries of three concatenated lists of findings stand. */
  lemma InThreeParts(e: seq<Validation>, p: seq<Validation>, l: seq<Validation>, n: nat)
    requires forall v :: v in e ==> v.path.ErrorsPath?
    requires forall v :: v in p ==> v.path.PoolPath?
    requires forall v :: v in l ==> v.path.LotPath? && v.path.index < n
    ensures forall j :: 0 <= j < |e| + |p| ==> (e + p + l)[j].path.ErrorsPath? || (e + p + l)[j].path.PoolPath?
    ensures forall j :: |e| + |p| <= j < |e + p + l| ==> (e + p + l)[j].path.LotPath? && (e + p + l)[j].path.index < n
  {
    var vs := e + p + l;
    forall j | 0 <= j < |e| + |p|
      ensures vs[j].path.ErrorsPath? || vs[j].path.PoolPath?
    {
      if j < |e| {
        assert vs[j] == e[j];
      } else {
        assert vs[j] == p[j - |e|];
      }
    }
    forall j | |e| + |p| <= j < |vs|
      ensures vs[j].path.LotPath? && vs[j].path.index < n
    {
      assert vs[j] == l[j - |e| - |p|];
    }
  }

  /** `validate_snapshot`, with the schema check's outcome given. */
  method ValidateSnapshot(snapshot: Snapshot, schemaError: Option<(string, string)>) returns (validations: seq<Validation>)
    ensures validations == Validations(snapshot, schemaError)
  {
    if schemaError.Some? {
      return [Validation(SchemaPath(schemaError.value.0), SchemaMessage(schemaError.value.1), 0)];
    }
    validations := [];
    if snapshot.error.Some? && snapshot.error.value != "" {
      validations := validations + [Validation(ErrorsPath, ErrorMessage(snapshot.error.value), 0)];
    }
    assert validations == ErrorEntries(snapshot.error);
    var pool := ValidatePool(snapshot.pool);
    var lots := ValidateLots(snapshot.lots);
    validations := validations + pool + lots;
  }

  /** The loop over the lots. */
  method ValidateLots(lots: seq<Fields>) returns (found: seq<Validation>)
    ensures found == LotsEntries(lots)
  {
    found := [];
    for i := 0 to |lots|
      invariant found == LotsEntries(lots[..i])
    {
      var entries := ValidateLot(i, ViewOf(lots[i]));
      TakeNext(lots, i);
      found := found + entries;
    }
    TakeAll(lots);
  }

  /** The loop over the pool's attributes. */
  method ValidatePool(pool: Fields) returns (found: seq<Validation>)
    ensures found == AttributionEntries(pool, AttributionKeys)
  {
    found := [];
    for k := 0 to |AttributionKeys|
      invariant found == AttributionEntries(pool, AttributionKeys[..k])
    {
      var key := AttributionKeys[k];
      TakeNext(AttributionKeys, k);
      if !Truthy(Get(pool, key)) {
        found := found + [Validation(PoolPath(key), PoolShouldHave(IdText(Get(pool, "id")), key), 3)];
      }
    }
    TakeAll(AttributionKeys);
  }

  /** The body of the loop over the lots; `lot[key]` reads the lot's view. */
  method ValidateLot(i: nat, lot: LotView) returns (found: seq<Validation>)
    ensures found == LotEntries(i, lot)
  {
    found := [];
    if lot.lotType == Str("unknown") {
      found := found + [Validation(LotPath(i, "type"), TypeIsUnknown(IdText(lot.id)), 2)];
    }
    for k := 0 to |LocationKeys|
      invariant found == TypeEntry(i, lot) + MissingEntries(i, lot, LocationKeys[..k])
    {
      var key := LocationKeys[k];
      MissingEntriesSnoc(i, lot, LocationKeys[..k], key);
      TakeNext(LocationKeys, k);
      if Field(lot, key).Null? {
        if key == "longitude" && lot.latitude.Null? {
          continue;
        }
        found := found + [Validation(LotPath(i, key), LotShouldHave(IdText(lot.id), key), 1)];
      }
    }
    TakeAll(LocationKeys);
    if lot.numFree.Null? && lot.numOccupied.Null? {
      found := found + [Validation(LotPath(i, "num_free"), NoCounts(IdText(lot.id)), 4)];
    }
    if lot.numFree.Null? && lot.capacity.Null? && !lot.numOccupied.Null? {
      found := found + [Validation(LotPath(i, "capacity"), NoCapacity(IdText(lot.id)), 2)];
    }
  }
}
