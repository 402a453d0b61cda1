/**
 * v3/pbw/mapper.py: builds the common records from validated PBW
 * documents, with the record constructors called directly (no field
 * validation runs). The current time is a parameter.
 */
module PbwMapper {
  import opened Wrappers
  import opened Text
  import opened Values
  import opened SiteInputs
  import opened PbwValidation

  /**
   * As written, the static constructor is also given a `max_height`
   * keyword, which the record does not declare; corrected, it is not.
   */
  datatype Reading = AsWritten | Corrected

  function UnknownKeywords(reading: Reading): seq<string> {
    match reading
    case AsWritten => ["max_height"]
    case Corrected => []
  }

  /** The keyword arguments of the static constructor call. */
  function SiteOf(detail: DetailInput, now: DateTime): (s: StaticParkingSiteInput)
    ensures s.name == detail.objekt.name
    ensures s.address == Some(detail.objekt.strasse + ", " + detail.objekt.plz + " " + detail.objekt.ort)
    ensures s.siteType.Some? && s.siteType.value != Other
    ensures s.hasRealtimeData && s.staticDataUpdatedAt == now
    ensures s.lat == detail.position.latitude && s.lon == detail.position.longitude
    ensures s.capacities.total == Some(detail.stellplaetze.gesamt)
    ensures s.capacities.disabled == Some(detail.stellplaetze.behinderte)
    ensures s.capacities.family == Some(detail.stellplaetze.familien)
    ensures s.capacities.woman == Some(detail.stellplaetze.frauen)
    ensures s.capacities.charging == Some(detail.stellplaetze.elektrofahrzeuge)
    ensures s.openingHours.None? && s.hasFee.None? && s.isSupervised.None?
  {
    var places := detail.stellplaetze;
    StaticParkingSiteInput(
      IntToString(detail.id), detail.objekt.name, None, None,
      Some(detail.objekt.strasse + ", " + detail.objekt.plz + " " + detail.objekt.ort), None,
      // an enum member is always truthy, so the conditional never yields None
      Some(PbwValidation.ToParkingSiteType(detail.objekt.artLang)),
      None, None, None, None, None, None, true, now,
      detail.position.latitude, detail.position.longitude,
      Capacities(Some(places.gesamt), Some(places.behinderte), Some(places.frauen), Some(places.familien),
                 Some(places.elektrofahrzeuge), None, None, None),
      None)
  }

  /** The static record's uid reads back as the object's id. */
  lemma StaticUid(detail: DetailInput, now: DateTime)
    ensures ParseInt(SiteOf(detail, now).uid) == Some(detail.id)
  {
    ParseIntOfString(detail.id);
  }

  /**
   * `map_static_parking_site`. As written the call always raises a
   * TypeError for `max_height`; corrected, only the (0, 0) rule can refuse
   * the record.
   */
  function MapStatic(detail: DetailInput, now: DateTime, reading: Reading): (r: Result<StaticParkingSiteInput, Fault>)
    ensures reading == AsWritten ==> r.Err? && r.error.Raised? && r.error.kind == "TypeError"
    ensures reading == Corrected ==> (r.Ok? <==> !(DecIsZero(detail.position.latitude) && DecIsZero(detail.position.longitude)))
    ensures r.Ok? ==> r.value == SiteOf(detail, now)
  {
    ConstructStatic(SiteOf(detail, now), UnknownKeywords(reading))
  }

  /**
   * `map_realtime_parking_site`: the uid is the id as text and the only
   * count is the short-term parkers' free places.
   */
  function MapRealtime(input: RealtimeInput, now: DateTime): (r: RealtimeParkingSiteInput)
    ensures r.realtimeDataUpdatedAt == now && r.openingStatus == Unknown
    ensures r.freeCapacities == NoCapacities.(total := input.dynamisch.kurzparkerFrei)
    ensures r.capacities == NoCapacities
  {
    RealtimeParkingSiteInput(IntToString(input.id), now, Unknown, NoCapacities,
                             NoCapacities.(total := input.dynamisch.kurzparkerFrei))
  }

  /** The realtime record's uid reads back as the object's id. */
  lemma RealtimeUid(input: RealtimeInput, now: DateTime)
    ensures ParseInt(MapRealtime(input, now).uid) == Some(input.id)
  {
    ParseIntOfString(input.id);
  }

  /** A realtime record made from a validated document with a UTC time stamp satisfies the realtime schema. */
  lemma MappedRealtimeValid(d: Fields, now: DateTime)
    requires ValidateRealtimeInput(d).Ok? && now.offset == Some(0)
    ensures ValidRealtime(MapRealtime(ValidateRealtimeInput(d).value, now))
  {
    var id := ValidateRealtimeInput(d).value.id;
    NatToStringShort(if id < 0 then -id else id, 10);
  }

  /** A number below 10^k has at most k digits. */
  lemma {:induction false} NatToStringShort(n: nat, k: nat)
    requires 0 < k && n < Pow10(k)
    ensures |NatToString(n)| <= k
  {
    if n >= 10 {
      assert k > 1 && n / 10 < Pow10(k - 1);
      NatToStringShort(n / 10, k - 1);
    }
  }
}
