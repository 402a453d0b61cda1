/**
 * new/jena.py: the opening-rule matcher of the Jena scraper. A lot's
 * parking time is either "open around the clock" or a list of rules, each
 * naming a range of weekdays (1 Monday … 7 Sunday, wrapping past Sunday
 * when the first day is after the last) and the time ranges of those days,
 * which may run past midnight. The current weekday and time are
 * parameters.
 */
module Jena {
  import opened Values

  /** `_get_timestamp_without_date`: the seconds since midnight. */
  function SecondsOfDay(t: ClockTime): (r: nat)
    ensures r < 86400
    ensures r / 3600 == t.hour && r % 3600 / 60 == t.minute && r % 60 == t.second
  {
    var r := t.hour * 3600 + t.minute * 60 + t.second;
    assert r % 3600 == t.minute * 60 + t.second;
    r
  }

  /** `a` is no later in the day than `b`, comparing hours, then minutes, then seconds. */
  predicate NotLater(a: ClockTime, b: ClockTime) {
    a.hour < b.hour || (a.hour == b.hour && (a.minute < b.minute || (a.minute == b.minute && a.second <= b.second)))
  }

  /** The seconds of the day order times as the clock does, and tell different times apart. */
  lemma SecondsOfDayOrder(a: ClockTime, b: ClockTime)
    ensures SecondsOfDay(a) <= SecondsOfDay(b) <==> NotLater(a, b)
    ensures SecondsOfDay(a) == SecondsOfDay(b) ==> a == b
  {
    var sa, sb := SecondsOfDay(a), SecondsOfDay(b);
    if a.hour < b.hour {
      assert sa < (a.hour + 1) * 3600 <= sb;
    } else if a.hour > b.hour {
      assert sb < (b.hour + 1) * 3600 <= sa;
    }
  }

  datatype TimeRange = TimeRange(from: ClockTime, to: ClockTime)

  datatype OpeningRule = OpeningRule(dateFrom: int, dateTo: int, times: seq<TimeRange>)

  datatype ParkingTime = ParkingTime(openTwentyFourSeven: bool, openingTimes: seq<OpeningRule>)

  /** The rule's own days: from its first to its last day, past Sunday when it wraps. */
  predicate OnRuleDay(rule: OpeningRule, weekday: int) {
    if rule.dateFrom <= rule.dateTo then rule.dateFrom <= weekday <= rule.dateTo
    else weekday >= rule.dateFrom || weekday <= rule.dateTo
  }

  /** The days after the rule's days, on which a range running past midnight still holds. */
  predicate AfterRuleDay(rule: OpeningRule, weekday: int) {
    if rule.dateFrom <= rule.dateTo then rule.dateFrom + 1 <= weekday <= rule.dateTo + 1
    else weekday >= rule.dateFrom + 1 || weekday <= rule.dateTo + 1
  }

  /** The weekday test that lets a rule past the `continue` of the outer loop. */
  predicate RuleConsidered(rule: OpeningRule, weekday: int) {
    if rule.dateFrom <= rule.dateTo then rule.dateFrom <= weekday <= rule.dateTo + 1
    else !(weekday > rule.dateTo + 1 && weekday < rule.dateFrom)
  }

  /** A range past midnight holds after its start on a rule day, or up to its end on the day after. */
  predicate OvernightOpen(rule: OpeningRule, range: TimeRange, weekday: int, now: nat) {
    (now >= SecondsOfDay(range.from) && OnRuleDay(rule, weekday))
    || (now <= SecondsOfDay(range.to) && AfterRuleDay(rule, weekday))
  }

  /**
   * The test of the inner loop, as written: a range within one day holds
   * from its start to its end, both included, whatever the weekday.
   */
  predicate RangeOpen(rule: OpeningRule, range: TimeRange, weekday: int, now: nat) {
    if SecondsOfDay(range.to) >= SecondsOfDay(range.from) then
      SecondsOfDay(range.from) <= now <= SecondsOfDay(range.to)
    else OvernightOpen(rule, range, weekday, now)
  }

  /** A rule past the weekday test with a range that holds. */
  predicate RuleOpen(rule: OpeningRule, weekday: int, now: nat) {
    RuleConsidered(rule, weekday) && exists j :: 0 <= j < |rule.times| && RangeOpen(rule, rule.times[j], weekday, now)
  }

  /** When `_get_status` answers "open". */
  predicate OpenAsWritten(pt: ParkingTime, weekday: int, now: nat) {
    pt.openTwentyFourSeven || exists i :: 0 <= i < |pt.openingTimes| && RuleOpen(pt.openingTimes[i], weekday, now)
  }

  /**
   * The inner loop of `_get_status`: whether one of the rule's ranges
   * holds, trying them in order and stopping at the first that does.
   */
  method AnyRangeOpen(oh: OpeningRule, weekday: int, timeNow: nat) returns (open: bool)
    ensures open <==> exists j :: 0 <= j < |oh.times| && RangeOpen(oh, oh.times[j], weekday, timeNow)
  {
    for j := 0 to |oh.times|
      invariant forall m :: 0 <= m < j ==> !RangeOpen(oh, oh.times[m], weekday, timeNow)
    {
      var timeFrom := SecondsOfDay(oh.times[j].from);
      var timeTo := SecondsOfDay(oh.times[j].to);
      var hit;
      if timeTo >= timeFrom {
        hit := timeNow >= timeFrom && timeNow <= timeTo;
      } else if oh.dateFrom <= oh.dateTo {
        hit := (timeNow >= timeFrom && weekday >= oh.dateFrom && weekday <= oh.dateTo)
               || (timeNow <= timeTo && weekday >= oh.dateFrom + 1 && weekday <= oh.dateTo + 1);
      } else {
        hit := (timeNow >= timeFrom && (weekday >= oh.dateFrom || weekday <= oh.dateTo))
               || (timeNow <= timeTo && (weekday >= oh.dateFrom + 1 || weekday <= oh.dateTo + 1));
      }
      assert hit == RangeOpen(oh, oh.times[j], weekday, timeNow);
      if hit {
        return true;
      }
    }
    return false;
  }

  /**
   * `_get_status`: "open" around the clock, otherwise "open" at the first
   * rule and range that hold, "closed" when none does.
   */
  method GetStatus(pt: ParkingTime, weekday: int, now: ClockTime) returns (status: string)
    ensures status == (if OpenAsWritten(pt, weekday, SecondsOfDay(now)) then "open" else "closed")
  {
    if pt.openTwentyFourSeven {
      return "open";
    }
    var timeNow := SecondsOfDay(now);
    for i := 0 to |pt.openingTimes|
      invariant forall k :: 0 <= k < i ==> !RuleOpen(pt.openingTimes[k], weekday, timeNow)
    {
      var oh := pt.openingTimes[i];
      if oh.dateFrom <= oh.dateTo {
        if !(weekday >= oh.dateFrom) || !(weekday <= oh.dateTo + 1) {
          continue;
        }
      } else {
        if weekday > oh.dateTo + 1 && weekday < oh.dateFrom {
          continue;
        }
      }
      assert RuleConsidered(oh, weekday);
      var open := AnyRangeOpen(oh, weekday, timeNow);
      if open {
        assert RuleOpen(pt.openingTimes[i], weekday, timeNow);
        return "open";
      }
    }
    return "closed";
  }

  // ------------------------------------------------- the intended reading

  /** A range within one day holds only on the rule's own days. */
  predicate RangeOpenIntended(rule: OpeningRule, range: TimeRange, weekday: int, now: nat) {
    if SecondsOfDay(range.to) >= SecondsOfDay(range.from) then
      SecondsOfDay(range.from) <= now <= SecondsOfDay(range.to) && OnRuleDay(rule, weekday)
    else OvernightOpen(rule, range, weekday, now)
  }

  /**
   * The status the rules evidently mean: the day after a rule's last day is
   * let through the weekday test only for ranges running past midnight.
   */
  function Status(pt: ParkingTime, weekday: int, now: nat): (s: string)
    ensures s in {"open", "closed"}
    ensures pt.openTwentyFourSeven ==> s == "open"
    ensures (exists i, j :: 0 <= i < |pt.openingTimes| && 0 <= j < |pt.openingTimes[i].times|
               && RangeOpenIntended(pt.openingTimes[i], pt.openingTimes[i].times[j], weekday, now)) ==> s == "open"
    ensures s == "open" && !pt.openTwentyFourSeven ==>
      exists i, j :: 0 <= i < |pt.openingTimes| && 0 <= j < |pt.openingTimes[i].times|
        && RangeOpenIntended(pt.openingTimes[i], pt.openingTimes[i].times[j], weekday, now)
  {
    if pt.openTwentyFourSeven
       || exists i, j :: 0 <= i < |pt.openingTimes| && 0 <= j < |pt.openingTimes[i].times|
            && RangeOpenIntended(pt.openingTimes[i], pt.openingTimes[i].times[j], weekday, now)
    then "open" else "closed"
  }

  /**
   * Under the intended reading a rule opens the lot only on its own days,
   * or on the day after while a range that runs past midnight has not
   * ended yet.
   */
  lemma StatusOnRuleDays(pt: ParkingTime, weekday: int, now: nat)
    requires Status(pt, weekday, now) == "open" && !pt.openTwentyFourSeven
    ensures exists i :: 0 <= i < |pt.openingTimes| && (
              OnRuleDay(pt.openingTimes[i], weekday)
              || (AfterRuleDay(pt.openingTimes[i], weekday)
                  && exists j :: 0 <= j < |pt.openingTimes[i].times|
                       && SecondsOfDay(pt.openingTimes[i].times[j].to) < SecondsOfDay(pt.openingTimes[i].times[j].from)
                       && now <= SecondsOfDay(pt.openingTimes[i].times[j].to)))
  {
    var i, j :| 0 <= i < |pt.openingTimes| && 0 <= j < |pt.openingTimes[i].times|
                && RangeOpenIntended(pt.openingTimes[i], pt.openingTimes[i].times[j], weekday, now);
    var rule := pt.openingTimes[i];
    if !OnRuleDay(rule, weekday) {
      assert SecondsOfDay(rule.times[j].to) < SecondsOfDay(rule.times[j].from);
    }
  }

  /** The intended reading only takes openings away: whatever it opens, the code opens too. */
  lemma IntendedWithinAsWritten(pt: ParkingTime, weekday: int, now: nat)
    requires Status(pt, weekday, now) == "open"
    ensures OpenAsWritten(pt, weekday, now)
  {
    if !pt.openTwentyFourSeven {
      var i, j :| 0 <= i < |pt.openingTimes| && 0 <= j < |pt.openingTimes[i].times|
                  && RangeOpenIntended(pt.openingTimes[i], pt.openingTimes[i].times[j], weekday, now);
      assert RangeOpen(pt.openingTimes[i], pt.openingTimes[i].times[j], weekday, now);
      assert RuleOpen(pt.openingTimes[i], weekday, now);
    }
  }

  /** On the rule's own days both readings agree. */
  lemma ReadingsAgreeOnRuleDays(pt: ParkingTime, weekday: int, now: nat)
    requires forall i :: 0 <= i < |pt.openingTimes| ==> OnRuleDay(pt.openingTimes[i], weekday)
    ensures Status(pt, weekday, now) == (if OpenAsWritten(pt, weekday, now) then "open" else "closed")
  {
    if OpenAsWritten(pt, weekday, now) && !pt.openTwentyFourSeven {
      var i :| 0 <= i < |pt.openingTimes| && RuleOpen(pt.openingTimes[i], weekday, now);
      var j :| 0 <= j < |pt.openingTimes[i].times| && RangeOpen(pt.openingTimes[i], pt.openingTimes[i].times[j], weekday, now);
      assert RangeOpenIntended(pt.openingTimes[i], pt.openingTimes[i].times[j], weekday, now);
    }
    if Status(pt, weekday, now) == "open" {
      IntendedWithinAsWritten(pt, weekday, now);
    }
  }

  /**
   * As written, a Monday-to-Friday rule from 08:00 to 18:00 opens the lot
   * on Saturday at 10:00: the day after the last day passes the weekday
   * test, and a range within one day is not checked against the weekday
   * again. The intended reading keeps the lot closed.
   */
  lemma WeekdayRuleOpensOnSaturday()
    ensures var rule := OpeningRule(1, 5, [TimeRange(TimeOfDay(8, 0, 0), TimeOfDay(18, 0, 0))]);
      && OpenAsWritten(ParkingTime(false, [rule]), 6, SecondsOfDay(TimeOfDay(10, 0, 0)))
      && Status(ParkingTime(false, [rule]), 6, SecondsOfDay(TimeOfDay(10, 0, 0))) == "closed"
  {
    var rule := OpeningRule(1, 5, [TimeRange(TimeOfDay(8, 0, 0), TimeOfDay(18, 0, 0))]);
    assert SecondsOfDay(TimeOfDay(8, 0, 0)) == 28800;
    assert SecondsOfDay(TimeOfDay(18, 0, 0)) == 64800;
    assert SecondsOfDay(TimeOfDay(10, 0, 0)) == 36000;
    assert RangeOpen(rule, rule.times[0], 6, 36000);
    assert RuleOpen(rule, 6, 36000);
    assert ParkingTime(false, [rule]).openingTimes[0] == rule;
  }
}
