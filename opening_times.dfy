/**
 * The spreadsheet opening-time record of common/validators/xlsx_validators.py:
 * seven optional columns, and their rendering as an OpenStreetMap
 * `opening_hours` value.
 */
module OpeningTimes {
  import opened Wrappers
  import opened Text
  import opened Values
  import opened FieldValidators
  import opened SiteInputs

  datatype ExcelOpeningTime = ExcelOpeningTime(
    is247: Option<bool>,
    weekdayBegin: Option<ClockTime>, weekdayEnd: Option<ClockTime>,
    saturdayBegin: Option<ClockTime>, saturdayEnd: Option<ClockTime>,
    sundayBegin: Option<ClockTime>, sundayEnd: Option<ClockTime>)

  /** `ExcelNoneable(ExcelTimeValidator()), Default(None)`. */
  function TimeColumn(d: Fields, key: string): (r: Result<Option<ClockTime>, Fault>)
    ensures Lookup(d, key).None? ==> r == Ok(None)
    ensures Lookup(d, key).Some? && IsBlank(Lookup(d, key).value) ==> r == Ok(None)
    ensures Lookup(d, key).Some? && Lookup(d, key).value.Time? ==> r == Ok(Some(Lookup(d, key).value.t))
    ensures Lookup(d, key).Some? && !IsBlank(Lookup(d, key).value) ==>
      && (r.Ok? <==> ValidateExcelTime(Lookup(d, key).value).Ok?)
      && (r.Ok? ==> r.value == Some(ValidateExcelTime(Lookup(d, key).value).value))
  {
    Field(d, key, v => ValidateExcelNoneable(v, w => SomeOf(ValidateExcelTime(w)), None), Some(None))
  }

  /** `opening_hours_is_24_7`: `ExcelNoneable(ExtendedBooleanValidator()), Default(None)`. */
  function Is247Column(d: Fields): (r: Result<Option<bool>, Fault>)
    ensures Lookup(d, "opening_hours_is_24_7").None? ==> r == Ok(None)
    ensures Lookup(d, "opening_hours_is_24_7").Some? && IsBlank(Lookup(d, "opening_hours_is_24_7").value) ==> r == Ok(None)
    ensures Lookup(d, "opening_hours_is_24_7").Some? && !IsBlank(Lookup(d, "opening_hours_is_24_7").value) ==>
      && (r.Ok? <==> ValidateExtendedBoolean(Lookup(d, "opening_hours_is_24_7").value).Ok?)
      && (r.Ok? ==> r.value == Some(ValidateExtendedBoolean(Lookup(d, "opening_hours_is_24_7").value).value))
  {
    Field(d, "opening_hours_is_24_7", v => ValidateExcelNoneable(v, w => SomeOf(ValidateExtendedBoolean(w)), None), Some(None))
  }

  /** Every one of the six time columns validates. */
  predicate TimeColumnsOk(d: Fields) {
    && TimeColumn(d, "opening_hours_weekday_begin").Ok?
    && TimeColumn(d, "opening_hours_weekday_end").Ok?
    && TimeColumn(d, "opening_hours_saturday_begin").Ok?
    && TimeColumn(d, "opening_hours_saturday_end").Ok?
    && TimeColumn(d, "opening_hours_sunday_begin").Ok?
    && TimeColumn(d, "opening_hours_sunday_end").Ok?
  }

  /**
   * The opening-time columns of one spreadsheet row; every column is
   * optional. The row is accepted exactly when it is a dict whose flag and
   * six time columns all validate, and each field is its column's verdict.
   */
  function ValidateOpeningTime(d: Value): (r: Result<ExcelOpeningTime, Fault>)
    ensures d == Obj([]) ==> r == Ok(ExcelOpeningTime(None, None, None, None, None, None, None))
    ensures !d.Obj? ==> r.Err?
    ensures d.Obj? ==> (r.Ok? <==> Is247Column(d.fields).Ok? && TimeColumnsOk(d.fields))
    ensures r.Ok? ==>
      && r.value.is247 == Is247Column(d.fields).value
      && r.value.weekdayBegin == TimeColumn(d.fields, "opening_hours_weekday_begin").value
      && r.value.weekdayEnd == TimeColumn(d.fields, "opening_hours_weekday_end").value
      && r.value.saturdayBegin == TimeColumn(d.fields, "opening_hours_saturday_begin").value
      && r.value.saturdayEnd == TimeColumn(d.fields, "opening_hours_saturday_end").value
      && r.value.sundayBegin == TimeColumn(d.fields, "opening_hours_sunday_begin").value
      && r.value.sundayEnd == TimeColumn(d.fields, "opening_hours_sunday_end").value
  {
    if !d.Obj? then Err(Invalid("invalid_type", "dict expected"))
    else
      var f := d.fields;
      var is247 :- Is247Column(f);
      var weekdayBegin :- TimeColumn(f, "opening_hours_weekday_begin");
      var weekdayEnd :- TimeColumn(f, "opening_hours_weekday_end");
      var saturdayBegin :- TimeColumn(f, "opening_hours_saturday_begin");
      var saturdayEnd :- TimeColumn(f, "opening_hours_saturday_end");
      var sundayBegin :- TimeColumn(f, "opening_hours_sunday_begin");
      var sundayEnd :- TimeColumn(f, "opening_hours_sunday_end");
      Ok(ExcelOpeningTime(is247, weekdayBegin, weekdayEnd, saturdayBegin, saturdayEnd, sundayBegin, sundayEnd))
  }

  /** `strftime("%H:%M")`. */
  function HourMinute(t: ClockTime): (s: string)
    ensures |s| == 5 && s[2] == ':'
    ensures AllDigits(s[..2]) && DigitsValue(s[..2]) == t.hour
    ensures AllDigits(s[3..]) && DigitsValue(s[3..]) == t.minute
  {
    var s := Pad2(t.hour) + ":" + Pad2(t.minute);
    assert s[..2] == Pad2(t.hour);
    assert s[3..] == Pad2(t.minute);
    s
  }

  /** One fragment: the days, a space, and the begin and end times joined by '-'. */
  function Fragment(days: string, begin: ClockTime, end: ClockTime): string {
    days + " " + HourMinute(begin) + "-" + HourMinute(end)
  }

  /** The fragments for the weekday, Saturday and Sunday pairs that have both times, in that order. */
  function OpeningFragments(o: ExcelOpeningTime): seq<string> {
    PairFragment("Mo-Fr", o.weekdayBegin, o.weekdayEnd)
    + PairFragment("Sa", o.saturdayBegin, o.saturdayEnd)
    + PairFragment("Su", o.sundayBegin, o.sundayEnd)
  }

  function PairFragment(days: string, begin: Option<ClockTime>, end: Option<ClockTime>): seq<string> {
    if begin.Some? && end.Some? then [Fragment(days, begin.value, end.value)] else []
  }

  /** What `get_osm_opening_hours` returns. */
  function OsmOpeningHours(o: ExcelOpeningTime): string {
    if o.is247 == Some(true) then "24/7" else Join("; ", OpeningFragments(o))
  }

  /** `get_osm_opening_hours`: the 24/7 shortcut, else the fragments appended one by one and joined. */
  method GetOsmOpeningHours(o: ExcelOpeningTime) returns (r: string)
    ensures r == OsmOpeningHours(o)
  {
    if o.is247 == Some(true) {
      return "24/7";
    }
    var fragments: seq<string> := [];
    if o.weekdayBegin.Some? && o.weekdayEnd.Some? {
      fragments := fragments + [Fragment("Mo-Fr", o.weekdayBegin.value, o.weekdayEnd.value)];
    }
    assert fragments == PairFragment("Mo-Fr", o.weekdayBegin, o.weekdayEnd);
    if o.saturdayBegin.Some? && o.saturdayEnd.Some? {
      fragments := fragments + [Fragment("Sa", o.saturdayBegin.value, o.saturdayEnd.value)];
    }
    assert fragments == PairFragment("Mo-Fr", o.weekdayBegin, o.weekdayEnd) + PairFragment("Sa", o.saturdayBegin, o.saturdayEnd);
    if o.sundayBegin.Some? && o.sundayEnd.Some? {
      fragments := fragments + [Fragment("Su", o.sundayBegin.value, o.sundayEnd.value)];
    }
    assert fragments == OpeningFragments(o);
    r := Join("; ", fragments);
  }

  /** Reads "DD HH:MM-HH:MM" back into its days and the four numbers. */
  function ParseFragment(s: string): Option<(string, int, int, int, int)> {
    if |s| < 12 then None
    else
      var t := s[|s| - 11..];
      if s[|s| - 12] == ' ' && t[2] == ':' && t[5] == '-' && t[8] == ':'
         && AllDigits(t[..2]) && AllDigits(t[3..5]) && AllDigits(t[6..8]) && AllDigits(t[9..])
      then Some((s[..|s| - 12], DigitsValue(t[..2]), DigitsValue(t[3..5]), DigitsValue(t[6..8]), DigitsValue(t[9..])))
      else None
  }

  /** A fragment keeps its days and the hour and minute of both times; the seconds are dropped. */
  lemma FragmentRoundTrip(days: string, begin: ClockTime, end: ClockTime)
    ensures ParseFragment(Fragment(days, begin, end)) == Some((days, begin.hour, begin.minute, end.hour, end.minute))
  {
    var b := HourMinute(begin);
    var e := HourMinute(end);
    var s := Fragment(days, begin, end);
    assert s == days + " " + b + "-" + e;
    var t := s[|s| - 11..];
    assert t == b + "-" + e;
    assert t[..2] == b[..2] && t[3..5] == b[3..];
    assert t[6..8] == e[..2] && t[9..] == e[3..];
    assert s[..|s| - 12] == days;
  }

  /** A fragment holds no ';', so the joined value splits back into the fragments. */
  lemma NoSemicolonInFragment(days: string, begin: ClockTime, end: ClockTime)
    requires ';' !in days
    ensures ';' !in Fragment(days, begin, end)
  {
    var b := HourMinute(begin);
    var e := HourMinute(end);
    assert forall i :: 0 <= i < |b| ==> b[i] != ';' by {
      forall i | 0 <= i < |b| ensures b[i] != ';' {
        if i < 2 { assert b[i] == b[..2][i]; } else if i > 2 { assert b[i] == b[3..][i - 3]; }
      }
    }
    assert forall i :: 0 <= i < |e| ==> e[i] != ';' by {
      forall i | 0 <= i < |e| ensures e[i] != ';' {
        if i < 2 { assert e[i] == e[..2][i]; } else if i > 2 { assert e[i] == e[3..][i - 3]; }
      }
    }
  }

  /** Unless the site is open around the clock, splitting the value at "; " gives the fragments back. */
  lemma OsmOpeningHoursSplits(o: ExcelOpeningTime)
    requires o.is247 != Some(true) && |OpeningFragments(o)| > 0
    ensures Split(OsmOpeningHours(o), "; ") == OpeningFragments(o)
  {
    var fs := OpeningFragments(o);
    forall i | 0 <= i < |fs| ensures "; "[0] !in fs[i] {
      if o.weekdayBegin.Some? && o.weekdayEnd.Some? {
        NoSemicolonInFragment("Mo-Fr", o.weekdayBegin.value, o.weekdayEnd.value);
      }
      if o.saturdayBegin.Some? && o.saturdayEnd.Some? {
        NoSemicolonInFragment("Sa", o.saturdayBegin.value, o.saturdayEnd.value);
      }
      if o.sundayBegin.Some? && o.sundayEnd.Some? {
        NoSemicolonInFragment("Su", o.sundayBegin.value, o.sundayEnd.value);
      }
    }
    SplitOfJoin(fs, "; ");
  }

  /** One fragment per complete pair, and nothing at all when no pair is complete and the flag is not set. */
  lemma OpeningFragmentsCount(o: ExcelOpeningTime)
    ensures |OpeningFragments(o)| ==
      (if o.weekdayBegin.Some? && o.weekdayEnd.Some? then 1 else 0)
      + (if o.saturdayBegin.Some? && o.saturdayEnd.Some? then 1 else 0)
      + (if o.sundayBegin.Some? && o.sundayEnd.Some? then 1 else 0)
    ensures |OpeningFragments(o)| == 0 && o.is247 != Some(true) ==> OsmOpeningHours(o) == ""
  {
  }
}
