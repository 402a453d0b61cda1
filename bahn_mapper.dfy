/**
 * v3/bahn_v2/mapper.py: builds the common static record from a validated
 * Deutsche Bahn parking facility. The record is constructed first, then
 * its opening hours and capacities are overwritten field by field. The
 * current time is a parameter.
 */
module BahnMapper {
  import opened Wrappers
  import opened Text
  import opened Values
  import opened SiteInputs
  import opened BahnValidators

  /** `next(iter(...))` over the names: the first one in NAME context. */
  function FirstName(names: seq<BahnNameInput>): Option<string> {
    if |names| == 0 then None
    else if names[0].context == NAME then Some(names[0].name)
    else FirstName(names[1..])
  }

  /** The first name in NAME context is found exactly when there is one, and no earlier entry has that context. */
  lemma {:induction false} FirstNameIsFirst(names: seq<BahnNameInput>)
    ensures FirstName(names).None? <==> forall i :: 0 <= i < |names| ==> names[i].context != NAME
    ensures FirstName(names).Some? ==>
      exists i :: 0 <= i < |names| && names[i].context == NAME && names[i].name == FirstName(names).value
                  && forall j :: 0 <= j < i ==> names[j].context != NAME
  {
    if |names| > 0 && names[0].context != NAME {
      FirstNameIsFirst(names[1..]);
      assert forall i :: 1 <= i < |names| ==> names[i] == names[1..][i - 1];
      if FirstName(names).Some? {
        var k :| 0 <= k < |names[1..]| && names[1..][k].context == NAME && names[1..][k].name == FirstName(names).value
                 && forall j :: 0 <= j < k ==> names[1..][j].context != NAME;
        assert names[k + 1] == names[1..][k];
      }
    }
  }

  /**
   * The value the capacity loop leaves in a field: the total of the last
   * entry of the given type, or nothing when no entry has it.
   */
  function LastTotal(cs: seq<BahnCapacityInput>, t: BahnParkingSiteCapacityType): Option<int> {
    if |cs| == 0 then None
    else if cs[|cs| - 1].capacityType == t then Some(cs[|cs| - 1].total)
    else LastTotal(cs[..|cs| - 1], t)
  }

  /** The field is set exactly when some entry has the type, and then to the total of the last such entry. */
  lemma {:induction false} LastTotalIsLast(cs: seq<BahnCapacityInput>, t: BahnParkingSiteCapacityType)
    ensures LastTotal(cs, t).None? <==> forall i :: 0 <= i < |cs| ==> cs[i].capacityType != t
    ensures LastTotal(cs, t).Some? ==>
      exists i :: 0 <= i < |cs| && cs[i].capacityType == t && cs[i].total == LastTotal(cs, t).value
                  && forall j :: i < j < |cs| ==> cs[j].capacityType != t
  {
    if |cs| > 0 && cs[|cs| - 1].capacityType != t {
      var init := cs[..|cs| - 1];
      LastTotalIsLast(init, t);
      assert LastTotal(cs, t) == LastTotal(init, t);
      if LastTotal(cs, t).Some? {
        var k :| 0 <= k < |init| && init[k].capacityType == t && init[k].total == LastTotal(cs, t).value
                 && forall j :: k < j < |init| ==> init[j].capacityType != t;
        assert cs[k] == init[k];
        forall j | k < j < |cs| ensures cs[j].capacityType != t {
          if j < |init| {
            assert cs[j] == init[j];
          }
        }
      } else {
        forall i | 0 <= i < |cs| ensures cs[i].capacityType != t {
          if i < |init| {
            assert cs[i] == init[i];
          }
        }
      }
    }
  }

  /** `next(...)` on an exhausted iterator. */
  const NoName := Raised("StopIteration", "")

  /** The keyword arguments of the constructor call; the raw capacity list it passes is not a count and stays apart. */
  function Initial(input: BahnParkingSiteInput, name: string, now: DateTime): (s: StaticParkingSiteInput)
    ensures s.capacities == NoCapacities && s.openingHours.None?
  {
    var address := input.address;
    StaticParkingSiteInput(
      IntToString(input.id), name, Some(input.operator.name), Some(input.url),
      Some(address.streetAndNumber + ", " + address.zip + " " + address.city), None,
      Some(ToParkingSiteType(input.siteType.name)),
      None, None, None, None, None, None, false, now,
      address.location.latitude, address.location.longitude, NoCapacities, None)
  }

  /**
   * `map_static_parking_site`: without a name in NAME context the call
   * raises StopIteration, at (0, 0) the constructor refuses the record;
   * otherwise the record carries the facility's data, "24/7" opening hours
   * exactly for a facility open around the clock, and the totals the
   * capacity loop leaves.
   */
  function MapStatic(input: BahnParkingSiteInput, now: DateTime): (r: Result<StaticParkingSiteInput, Fault>)
    ensures FirstName(input.name).None? ==> r == Err(NoName)
    ensures r.Ok? <==> FirstName(input.name).Some?
                       && !(DecIsZero(input.address.location.latitude) && DecIsZero(input.address.location.longitude))
    ensures r.Ok? ==>
      var s := r.value;
      s.name == FirstName(input.name).value
      && s.lat == input.address.location.latitude && s.lon == input.address.location.longitude
      && s.operatorName == Some(input.operator.name) && s.publicUrl == Some(input.url)
      && s.address == Some(input.address.streetAndNumber + ", " + input.address.zip + " " + input.address.city)
      && s.siteType.Some? && s.siteType.value != Other
      && !s.hasRealtimeData && s.staticDataUpdatedAt == now
      && (s.openingHours.Some? <==> input.access.openingHours.is24h)
      && (s.openingHours.Some? ==> s.openingHours.value == "24/7")
      && s.capacities == NoCapacities.(total := LastTotal(input.capacity, PARKING),
                                       disabled := LastTotal(input.capacity, HANDICAPPED_PARKING))
  {
    match FirstName(input.name)
    case None => Err(NoName)
    case Some(name) =>
      var s :- ConstructStatic(Initial(input, name, now), []);
      Ok(s.(openingHours := if input.access.openingHours.is24h then Some("24/7") else None,
            capacities := s.capacities.(total := LastTotal(input.capacity, PARKING),
                                        disabled := LastTotal(input.capacity, HANDICAPPED_PARKING))))
  }

  /**
   * What `capacity` holds after the mapping: the raw list while no entry is
   * PARKING, nothing (a count is in the record) otherwise.
   */
  function RawCapacity(input: BahnParkingSiteInput): Option<seq<BahnCapacityInput>> {
    if LastTotal(input.capacity, PARKING).None? then Some(input.capacity) else None
  }

  /**
   * The mapper as the source runs it: construct, then overwrite the opening
   * hours and, entry by entry, the capacities. The second result is the raw
   * list left in `capacity` when no entry set a count.
   */
  method MapStaticParkingSite(input: BahnParkingSiteInput, now: DateTime)
    returns (r: Result<StaticParkingSiteInput, Fault>, rawCapacity: Option<seq<BahnCapacityInput>>)
    ensures r == MapStatic(input, now)
    ensures rawCapacity == (if r.Ok? then RawCapacity(input) else None)
  {
    var name := FirstName(input.name);
    if name.None? {
      return Err(NoName), None;
    }
    var constructed := ConstructStatic(Initial(input, name.value, now), []);
    if constructed.Err? {
      return Err(constructed.error), None;
    }
    var site := constructed.value;
    rawCapacity := Some(input.capacity);
    if input.access.openingHours.is24h {
      site := site.(openingHours := Some("24/7"));
    }
    ghost var built := site;
    var cs := input.capacity;
    for i := 0 to |cs|
      invariant site == built.(capacities := site.capacities)
      invariant site.capacities == NoCapacities.(total := LastTotal(cs[..i], PARKING),
                                                 disabled := LastTotal(cs[..i], HANDICAPPED_PARKING))
      invariant rawCapacity == (if LastTotal(cs[..i], PARKING).None? then Some(cs) else None)
    {
      assert cs[..i + 1][..i] == cs[..i];
      if cs[i].capacityType == PARKING {
        site := site.(capacities := site.capacities.(total := Some(cs[i].total)));
        rawCapacity := None;
      } else if cs[i].capacityType == HANDICAPPED_PARKING {
        site := site.(capacities := site.capacities.(disabled := Some(cs[i].total)));
      }
    }
    assert cs[..|cs|] == cs;
    r := Ok(site);
  }

  /**
   * The record's capacity is the total of the last PARKING entry and its
   * disabled capacity that of the last HANDICAPPED_PARKING entry; without a
   * PARKING entry the raw list stays in `capacity`.
   */
  lemma MappedCapacities(input: BahnParkingSiteInput, now: DateTime)
    requires MapStatic(input, now).Ok?
    ensures var caps := MapStatic(input, now).value.capacities; var cs := input.capacity;
      (caps.total.None? <==> RawCapacity(input) == Some(cs))
      && (caps.total.None? <==> forall i :: 0 <= i < |cs| ==> cs[i].capacityType != PARKING)
      && (caps.total.Some? ==> exists i :: 0 <= i < |cs| && cs[i].capacityType == PARKING && cs[i].total == caps.total.value
                                           && forall j :: i < j < |cs| ==> cs[j].capacityType != PARKING)
      && (caps.disabled.Some? ==> exists i :: 0 <= i < |cs| && cs[i].capacityType == HANDICAPPED_PARKING
                                              && cs[i].total == caps.disabled.value
                                              && forall j :: i < j < |cs| ==> cs[j].capacityType != HANDICAPPED_PARKING)
  {
    LastTotalIsLast(input.capacity, PARKING);
    LastTotalIsLast(input.capacity, HANDICAPPED_PARKING);
  }

  /** A mapped record's name is that of the first entry in NAME context, and its uid reads back as the id. */
  lemma MappedName(input: BahnParkingSiteInput, now: DateTime)
    requires MapStatic(input, now).Ok?
    ensures var s := MapStatic(input, now).value;
      ParseInt(s.uid) == Some(input.id)
      && exists i :: 0 <= i < |input.name| && input.name[i] == BahnNameInput(s.name, NAME)
                     && forall j :: 0 <= j < i ==> input.name[j].context != NAME
  {
    ParseIntOfString(input.id);
    FirstNameIsFirst(input.name);
  }

  /** Validated totals stay within the validator's range after mapping. */
  lemma MappedCountsValid(input: BahnParkingSiteInput, now: DateTime)
    requires TotalsOk(input.capacity) && MapStatic(input, now).Ok?
    ensures CountOk(MapStatic(input, now).value.capacities.total)
    ensures CountOk(MapStatic(input, now).value.capacities.disabled)
  {
    LastTotalIsLast(input.capacity, PARKING);
    LastTotalIsLast(input.capacity, HANDICAPPED_PARKING);
  }
}
