/**
 * The dynamic values the converters pass around (Python None, bool, int,
 * float, str, time, datetime, list and dict), the two kinds of failure, and
 * the base validators of the validation library the field validators
 * delegate to.
 */
module Values {
  import opened Wrappers
  import opened Text

  // -------------------------------------------------------- times and dates

  datatype TimeOfDay = TimeOfDay(hour: int, minute: int, second: int)

  predicate ValidTime(t: TimeOfDay) {
    0 <= t.hour < 24 && 0 <= t.minute < 60 && 0 <= t.second < 60
  }

  /** A Python `time` value: its fields are always in range. */
  type ClockTime = t: TimeOfDay | ValidTime(t) witness TimeOfDay(0, 0, 0)

  /**
   * A calendar date and wall-clock time; `offset` is the UTC offset in minutes
   * of an aware datetime and None for a naive one.
   */
  datatype DateTime = DateTime(year: int, month: int, day: int, hour: int, minute: int, second: int, offset: Option<int>)

  /** A date of Python's `datetime`: years 1 to 9999 of the proleptic Gregorian calendar. */
  predicate ValidDateTime(d: DateTime) {
    ValidDate(d.year, d.month, d.day)
    && 0 <= d.hour < 24 && 0 <= d.minute < 60 && 0 <= d.second < 60
    && (d.offset.Some? ==> -1440 < d.offset.value < 1440)
  }

  predicate LeapYear(y: int) { y % 4 == 0 && (y % 100 != 0 || y % 400 == 0) }

  function DaysInMonth(y: int, m: int): int
    requires 1 <= m <= 12
  {
    if m == 2 then (if LeapYear(y) then 29 else 28)
    else if m == 4 || m == 6 || m == 9 || m == 11 then 30
    else 31
  }

  predicate ValidDate(y: int, m: int, d: int) {
    1 <= y <= 9999 && 1 <= m <= 12 && 1 <= d <= DaysInMonth(y, m)
  }

  function YearLength(y: int): int { if LeapYear(y) then 366 else 365 }

  /** Days from 1 January of year 1 to 1 January of year `y`. */
  function DaysBeforeYear(y: int): int
    decreases y
  {
    if y <= 1 then 0 else DaysBeforeYear(y - 1) + YearLength(y - 1)
  }

  /** Days from 1 January to the first of month `m`. */
  function DaysBeforeMonth(y: int, m: int): int
    requires 1 <= m <= 12
  {
    (if m == 1 then 0 else if m == 2 then 31 else if m == 3 then 59 else if m == 4 then 90
     else if m == 5 then 120 else if m == 6 then 151 else if m == 7 then 181 else if m == 8 then 212
     else if m == 9 then 243 else if m == 10 then 273 else if m == 11 then 304 else 334)
    + (if m > 2 && LeapYear(y) then 1 else 0)
  }

  /** The ordinal of a date, counting 1 January of year 1 as day 0. */
  function DayNumber(y: int, m: int, d: int): int
    requires 1 <= m <= 12
  {
    DaysBeforeYear(y) + DaysBeforeMonth(y, m) + d - 1
  }

  datatype Date = Date(year: int, month: int, day: int)

  /** The calendar day after a date; the year may leave the valid range. */
  function NextDay(y: int, m: int, d: int): (r: Date)
    requires ValidDate(y, m, d)
    ensures 1 <= r.month <= 12 && 1 <= r.day <= DaysInMonth(r.year, r.month) && r.year >= 1
    ensures r.year <= 9999 ==> ValidDate(r.year, r.month, r.day)
    ensures DayNumber(r.year, r.month, r.day) == DayNumber(y, m, d) + 1
  {
    if d < DaysInMonth(y, m) then Date(y, m, d + 1)
    else if m < 12 then Date(y, m + 1, 1)
    else Date(y + 1, 1, 1)
  }

  /** The calendar day before a date; the year may leave the valid range. */
  function PrevDay(y: int, m: int, d: int): (r: Date)
    requires ValidDate(y, m, d)
    ensures 1 <= r.month <= 12 && 1 <= r.day <= DaysInMonth(r.year, r.month) && r.year <= 9999
    ensures r.year >= 1 ==> ValidDate(r.year, r.month, r.day)
    ensures r.year >= 1 ==> DayNumber(r.year, r.month, r.day) == DayNumber(y, m, d) - 1
  {
    if d > 1 then Date(y, m, d - 1)
    else if m > 1 then Date(y, m - 1, DaysInMonth(y, m - 1))
    else Date(y - 1, 12, 31)
  }

  /** The moment an aware datetime stands for, in seconds on the UTC time line. */
  function Instant(d: DateTime): int
    requires d.offset.Some? && 1 <= d.month <= 12
  {
    (DayNumber(d.year, d.month, d.day) * 1440 + d.hour * 60 + d.minute - d.offset.value) * 60 + d.second
  }

  /**
   * `astimezone(timezone.utc)`: the same moment with offset zero. None when
   * the moment falls outside years 1 to 9999, where Python raises
   * OverflowError.
   */
  function ToUtc(d: DateTime): (r: Option<DateTime>)
    requires ValidDateTime(d) && d.offset.Some?
    ensures r.Some? ==> ValidDateTime(r.value) && r.value.offset == Some(0) && r.value.second == d.second
    ensures r.Some? ==> Instant(r.value) == Instant(d)
    ensures d.offset == Some(0) ==> r == Some(d)
  {
    var total := d.hour * 60 + d.minute - d.offset.value;
    if total < 0 then
      var p := PrevDay(d.year, d.month, d.day);
      if p.year < 1 then None
      else Some(DateTime(p.year, p.month, p.day, (total + 1440) / 60, (total + 1440) % 60, d.second, Some(0)))
    else if total >= 1440 then
      var n := NextDay(d.year, d.month, d.day);
      if n.year > 9999 then None
      else Some(DateTime(n.year, n.month, n.day, (total - 1440) / 60, (total - 1440) % 60, d.second, Some(0)))
    else Some(d.(hour := total / 60, minute := total % 60, offset := Some(0)))
  }

  // ------------------------------------------------------------------ values

  datatype Value =
    | Null
    | Bool(b: bool)
    | Int(i: int)
    | Real(d: Decimal)
    | Str(s: string)
    | Time(t: ClockTime)
    | Moment(dt: DateTime)
    | List(items: seq<Value>)
    | Obj(fields: seq<(string, Value)>)

  /** A Python dict: its entries in insertion order. */
  type Fields = seq<(string, Value)>

  /** Position of `key` among the entries, if present. */
  function KeyIndex(fs: Fields, key: string): (r: Option<nat>)
    ensures r.Some? ==> r.value < |fs| && fs[r.value].0 == key
    ensures r.Some? ==> forall j :: 0 <= j < r.value ==> fs[j].0 != key
    ensures r.None? ==> forall j :: 0 <= j < |fs| ==> fs[j].0 != key
  {
    if |fs| == 0 then None
    else if fs[0].0 == key then Some(0)
    else match KeyIndex(fs[1..], key)
      case None => None
      case Some(i) => Some(i + 1)
  }

  /** `key in d`. */
  predicate HasKey(fs: Fields, key: string) { KeyIndex(fs, key).Some? }

  /** `d[key]`: the value stored under `key`, None when absent. */
  function Lookup(fs: Fields, key: string): (r: Option<Value>)
    ensures r.Some? <==> HasKey(fs, key)
    ensures r.Some? ==> (key, r.value) in fs
  {
    match KeyIndex(fs, key)
    case None => None
    case Some(i) => Some(fs[i].1)
  }

  /** The first entry with a key is the one `d[key]` reads. */
  lemma LookupAt(fs: Fields, i: nat)
    requires i < |fs|
    requires forall j :: 0 <= j < i ==> fs[j].0 != fs[i].0
    ensures Lookup(fs, fs[i].0) == Some(fs[i].1)
  {
    var key := fs[i].0;
    assert KeyIndex(fs, key).Some?;
  }

  /** `d.get(key)`: the stored value, or None when the key is absent. */
  function Get(fs: Fields, key: string): Value {
    Lookup(fs, key).UnwrapOr(Null)
  }

  /** `d[key] = v`: overwrite in place when present, else append at the end. */
  function Put(fs: Fields, key: string, v: Value): (r: Fields)
    ensures HasKey(fs, key) ==> |r| == |fs|
    ensures !HasKey(fs, key) ==> r == fs + [(key, v)]
    ensures forall j :: 0 <= j < |fs| ==> r[j].0 == fs[j].0
  {
    match KeyIndex(fs, key)
    case None => fs + [(key, v)]
    case Some(i) => fs[i := (key, v)]
  }

  /** After `d[key] = v`, `d[key]` is `v` and every other key reads as before. */
  lemma LookupPut(fs: Fields, key: string, v: Value, k: string)
    ensures Lookup(Put(fs, key, v), k) == if k == key then Some(v) else Lookup(fs, k)
  {
    var r := Put(fs, key, v);
    match KeyIndex(fs, k)
    case None =>
      if k == key {
        assert r[|fs|].0 == key;
        assert forall j :: 0 <= j < |fs| ==> r[j].0 != key;
        assert KeyIndex(r, k) == Some(|fs|);
      } else {
        assert r[..|fs|] == fs || |r| == |fs|;
        assert KeyIndex(r, k) == None;
      }
    case Some(i) =>
      assert KeyIndex(r, k) == Some(i);
  }

  /** The entries whose key `keep` accepts, in order (a dict comprehension with a key filter). */
  function FilterKeys(fs: Fields, keep: string -> bool): (r: Fields)
    ensures |r| <= |fs|
    ensures forall p :: p in r <==> p in fs && keep(p.0)
  {
    if |fs| == 0 then [] else (if keep(fs[0].0) then [fs[0]] else []) + FilterKeys(fs[1..], keep)
  }

  /** A filter that accepts every key keeps the whole dict. */
  lemma {:induction false} FilterAllKept(fs: Fields, keep: string -> bool)
    requires forall i :: 0 <= i < |fs| ==> keep(fs[i].0)
    ensures FilterKeys(fs, keep) == fs
  {
    if |fs| > 0 {
      var tail := fs[1..];
      forall i | 0 <= i < |tail|
        ensures keep(tail[i].0)
      {
        assert tail[i] == fs[i + 1];
      }
      FilterAllKept(tail, keep);
      assert keep(fs[0].0);
      assert FilterKeys(fs, keep) == [fs[0]] + tail;
      assert fs == [fs[0]] + tail;
    }
  }

  /** A dict with one more entry at the end has that entry's key besides its own. */
  lemma HasKeySnoc(fs: Fields, x: (string, Value), k: string)
    ensures HasKey(fs + [x], k) <==> HasKey(fs, k) || x.0 == k
  {
    var r := fs + [x];
    if HasKey(fs, k) {
      assert r[KeyIndex(fs, k).value].0 == k;
    } else if x.0 == k {
      assert r[|fs|].0 == k;
    }
  }

  /** Reading a dict whose first entry is `x`. */
  lemma LookupCons(x: (string, Value), rest: Fields, k: string)
    ensures Lookup([x] + rest, k) == if x.0 == k then Some(x.1) else Lookup(rest, k)
  {
    var s := [x] + rest;
    assert s[0] == x && s[1..] == rest;
  }

  /** Reading a filtered dict: a kept key reads as before, a dropped one is absent. */
  lemma {:induction false} LookupFilter(fs: Fields, keep: string -> bool, k: string)
    ensures Lookup(FilterKeys(fs, keep), k) == if keep(k) then Lookup(fs, k) else None
  {
    if |fs| > 0 {
      var rest := FilterKeys(fs[1..], keep);
      LookupFilter(fs[1..], keep, k);
      assert fs == [fs[0]] + fs[1..];
      LookupCons(fs[0], fs[1..], k);
      if keep(fs[0].0) {
        assert FilterKeys(fs, keep) == [fs[0]] + rest;
        LookupCons(fs[0], rest, k);
      } else {
        assert FilterKeys(fs, keep) == [] + rest == rest;
      }
    }
  }

  // ------------------------------------------------------------------ faults

  /**
   * A raised exception. `Invalid` is the validation library's
   * ValidationError, which the per-record loops catch; `Raised` is any other
   * exception (TypeError, ValueError, KeyError, IndexError, AttributeError,
   * StopIteration, ImportSourceException), which no per-record loop catches.
   */
  datatype Fault = Invalid(code: string, detail: string) | Raised(kind: string, detail: string)

  // ------------------------------------------------------- base validators

  /** `BooleanValidator()`: only a native bool is accepted. */
  function ValidateStrictBool(v: Value): (r: Result<bool, Fault>)
    ensures r.Ok? <==> v.Bool?
    ensures r.Ok? ==> r.value == v.b
    ensures r.Err? ==> r.error.Invalid?
  {
    if v.Bool? then Ok(v.b) else Err(Invalid("invalid_type", "bool expected"))
  }

  const INT32_MIN: int := -2147483648
  const INT32_MAX: int := 2147483647

  /** An optional minus sign followed by at least one digit. */
  predicate IsIntegerString(s: string) {
    (|s| > 0 && AllDigits(s)) || (|s| > 1 && s[0] == '-' && AllDigits(s[1..]))
  }

  function IntegerStringValue(s: string): int
    requires IsIntegerString(s)
  {
    if s[0] == '-' then -(DigitsValue(s[1..]) as int) else DigitsValue(s)
  }

  /**
   * `IntegerValidator(min_value, max_value, allow_strings)`: a native int (not a
   * bool), or with `allowStrings` an integer string, within the bounds.
   */
  function ValidateInteger(v: Value, minValue: int, maxValue: int, allowStrings: bool): (r: Result<int, Fault>)
    ensures r.Ok? ==> minValue <= r.value <= maxValue
    ensures r.Ok? ==> v.Int? || (allowStrings && v.Str?)
    ensures v.Int? && minValue <= v.i <= maxValue ==> r == Ok(v.i)
    ensures r.Err? ==> r.error.Invalid?
  {
    var n :-
      if v.Int? then Ok(v.i)
      else if allowStrings && v.Str? then
        if IsIntegerString(v.s) then Ok(IntegerStringValue(v.s)) else Err(Invalid("invalid_integer", v.s))
      else Err(Invalid("invalid_type", "int expected"));
    if n < minValue then Err(Invalid("number_too_low", IntToString(n)))
    else if n > maxValue then Err(Invalid("number_too_high", IntToString(n)))
    else Ok(n)
  }

  /** A control character; a newline is allowed only in a multi-line string. */
  predicate ForbiddenChar(c: char, multiline: bool) {
    (c < ' ' || c == '\U{7F}') && !(multiline && c == '\n')
  }

  /**
   * `StringValidator(min_length, max_length, multiline)`: a str of admissible
   * length without control characters.
   */
  function ValidateString(v: Value, minLength: nat, maxLength: Option<nat>, multiline: bool): (r: Result<string, Fault>)
    ensures r.Ok? <==> v.Str? && minLength <= |v.s| && (maxLength.Some? ==> |v.s| <= maxLength.value)
                       && forall i :: 0 <= i < |v.s| ==> !ForbiddenChar(v.s[i], multiline)
    ensures r.Ok? ==> r.value == v.s
    ensures r.Err? ==> r.error.Invalid?
  {
    if !v.Str? then Err(Invalid("invalid_type", "str expected"))
    else if |v.s| < minLength then Err(Invalid("string_too_short", v.s))
    else if maxLength.Some? && |v.s| > maxLength.value then Err(Invalid("string_too_long", v.s))
    else if exists i :: 0 <= i < |v.s| && ForbiddenChar(v.s[i], multiline) then Err(Invalid("string_invalid_characters", v.s))
    else Ok(v.s)
  }

  /** `NumericValidator(min_value, max_value)`: an int or a float within the bounds, as a decimal. */
  function ValidateNumeric(v: Value, minValue: Decimal, maxValue: Decimal): (r: Result<Decimal, Fault>)
    ensures r.Ok? ==> DecLe(minValue, r.value) && DecLe(r.value, maxValue)
    ensures r.Ok? ==> (v.Int? && r.value == DecOfInt(v.i)) || (v.Real? && r.value == v.d)
    ensures v.Int? && DecLe(minValue, DecOfInt(v.i)) && DecLe(DecOfInt(v.i), maxValue) ==> r == Ok(DecOfInt(v.i))
    ensures v.Real? && DecLe(minValue, v.d) && DecLe(v.d, maxValue) ==> r == Ok(v.d)
    ensures r.Err? ==> r.error.Invalid?
  {
    var d :-
      if v.Int? then Ok(DecOfInt(v.i))
      else if v.Real? then Ok(v.d)
      else Err(Invalid("invalid_type", "number expected"));
    if !DecLe(minValue, d) then Err(Invalid("number_too_low", DecimalToString(d)))
    else if !DecLe(d, maxValue) then Err(Invalid("number_too_high", DecimalToString(d)))
    else Ok(d)
  }

  predicate InBounds(d: Decimal, minValue: Option<Decimal>, maxValue: Option<Decimal>) {
    (minValue.Some? ==> DecLe(minValue.value, d)) && (maxValue.Some? ==> DecLe(d, maxValue.value))
  }

  /**
   * `DecimalValidator(min_value, max_value)`: only a str is accepted; it
   * must spell a decimal (sign, digits, at most one point, no surrounding
   * space) within the bounds that are given.
   */
  function ValidateDecimal(v: Value, minValue: Option<Decimal>, maxValue: Option<Decimal>): (r: Result<Decimal, Fault>)
    ensures r.Ok? <==> v.Str? && Strip(v.s) == v.s && ParseDecimal(v.s).Some? && InBounds(ParseDecimal(v.s).value, minValue, maxValue)
    ensures r.Ok? ==> r.value == ParseDecimal(v.s).value
    ensures r.Err? ==> r.error.Invalid?
  {
    if !v.Str? then Err(Invalid("invalid_type", "str expected"))
    else if Strip(v.s) != v.s || ParseDecimal(v.s).None? then Err(Invalid("invalid_decimal", v.s))
    else if !InBounds(ParseDecimal(v.s).value, minValue, maxValue) then Err(Invalid("number_range_error", v.s))
    else Ok(ParseDecimal(v.s).value)
  }

  /** A decimal written out in plain notation is accepted back exactly when it lies within the bounds. */
  lemma DecimalValidatorRoundTrip(d: Decimal, minValue: Option<Decimal>, maxValue: Option<Decimal>)
    ensures ValidateDecimal(Str(DecimalToString(d)), minValue, maxValue) == (if InBounds(d, minValue, maxValue) then Ok(d) else Err(Invalid("number_range_error", DecimalToString(d))))
  {
    DecimalRoundTrip(d);
    DecimalToStringStripped(d);
  }

  /** `EnumValidator(cls)`: a str equal to one of the enum's values. */
  function ValidateEnum<T>(v: Value, parse: string -> Option<T>): (r: Result<T, Fault>)
    ensures r.Ok? <==> v.Str? && parse(v.s).Some?
    ensures r.Ok? ==> r.value == parse(v.s).value
    ensures r.Err? ==> r.error.Invalid?
  {
    if v.Str? && parse(v.s).Some? then Ok(parse(v.s).value) else Err(Invalid("value_not_allowed", "enum value expected"))
  }

  /** `Noneable(validator, default)`: None gives the default, anything else the validator's verdict. */
  function ValidateNoneable<T>(v: Value, inner: Value -> Result<T, Fault>, default: T): (r: Result<T, Fault>)
    ensures v.Null? ==> r == Ok(default)
    ensures !v.Null? ==> r == inner(v)
  {
    if v.Null? then Ok(default) else inner(v)
  }

  // ------------------------------------------------------ time formatting

  /** Two decimal digits, zero-padded. */
  function Pad2(n: nat): (s: string)
    requires n < 100
    ensures |s| == 2 && AllDigits(s) && DigitsValue(s) == n
  {
    var s := [DigitChar(n / 10), DigitChar(n % 10)];
    assert s[..1] == [DigitChar(n / 10)];
    assert s[..1][..0] == [];
    assert DigitsValue(s[..1]) == n / 10;
    s
  }

  /** Four decimal digits, zero-padded. */
  function Pad4(n: nat): (s: string)
    requires n < 10000
    ensures |s| == 4 && AllDigits(s) && DigitsValue(s) == n
  {
    var s := Pad2(n / 100) + Pad2(n % 100);
    assert s[..3] == Pad2(n / 100) + [s[2]];
    assert s[..2] == Pad2(n / 100);
    s
  }

  /** `time.isoformat()`: "HH:MM:SS". */
  function TimeToString(t: TimeOfDay): (s: string)
    requires ValidTime(t)
    ensures |s| == 8
  {
    Pad2(t.hour) + ":" + Pad2(t.minute) + ":" + Pad2(t.second)
  }

  /** Reads "HH:MM:SS", the format of the time validator. */
  function ParseTime(s: string): (r: Option<ClockTime>)
  {
    if |s| == 8 && s[2] == ':' && s[5] == ':'
       && AllDigits(s[0..2]) && AllDigits(s[3..5]) && AllDigits(s[6..8])
    then
      var t := TimeOfDay(DigitsValue(s[0..2]), DigitsValue(s[3..5]), DigitsValue(s[6..8]));
      if ValidTime(t) then var c: ClockTime := t; Some(c) else None
    else None
  }

  lemma TimeRoundTrip(t: ClockTime)
    ensures ParseTime(TimeToString(t)) == Some(t)
  {
    var s := TimeToString(t);
    assert s[0..2] == Pad2(t.hour);
    assert s[3..5] == Pad2(t.minute);
    assert s[6..8] == Pad2(t.second);
  }

  /** `TimeValidator()`: a time string in "HH:MM:SS" form. */
  function ValidateTime(v: Value): (r: Result<ClockTime, Fault>)
    ensures r.Ok? ==> v.Str? && ParseTime(v.s) == Some(r.value)
    ensures v.Str? && ParseTime(v.s).Some? ==> r == Ok(ParseTime(v.s).value)
    ensures r.Err? ==> r.error.Invalid?
  {
    if !v.Str? then Err(Invalid("invalid_type", "str expected"))
    else match ParseTime(v.s)
      case None => Err(Invalid("invalid_time", v.s))
      case Some(t) => Ok(t)
  }

  /** The UTC offset suffix of `datetime.isoformat()`: "+HH:MM" or "-HH:MM". */
  function OffsetToString(minutes: int): (s: string)
    requires -1440 < minutes < 1440
    ensures |s| == 6
  {
    var m := if minutes < 0 then -minutes else minutes;
    (if minutes < 0 then "-" else "+") + Pad2(m / 60) + ":" + Pad2(m % 60)
  }

  /** `datetime.isoformat()`: "YYYY-MM-DDTHH:MM:SS", followed by the offset when aware. */
  function DateTimeToIso(d: DateTime): (s: string)
    requires ValidDateTime(d)
    ensures |s| == 19 || |s| == 25
  {
    Pad4(d.year) + "-" + Pad2(d.month) + "-" + Pad2(d.day) + "T"
    + Pad2(d.hour) + ":" + Pad2(d.minute) + ":" + Pad2(d.second)
    + (if d.offset.Some? then OffsetToString(d.offset.value) else "")
  }

  function ParseOffset(s: string): (r: Option<Option<int>>)
  {
    if s == "" then Some(None)
    else if s == "Z" then Some(Some(0))
    else if |s| == 6 && (s[0] == '+' || s[0] == '-') && s[3] == ':' && AllDigits(s[1..3]) && AllDigits(s[4..6]) then
      var m := DigitsValue(s[1..3]) * 60 + DigitsValue(s[4..6]);
      if DigitsValue(s[4..6]) < 60 && m < 1440 then Some(Some(if s[0] == '-' then -m else m)) else None
    else None
  }

  /** The rest of the text after an optional fraction of a second: '.' and six or three digits. */
  function DropFraction(t: string): (r: string)
    ensures |r| <= |t|
    ensures |t| == 0 || t[0] != '.' ==> r == t
  {
    if |t| >= 7 && t[0] == '.' && AllDigits(t[1..7]) then t[7..]
    else if |t| >= 4 && t[0] == '.' && AllDigits(t[1..4]) then t[4..]
    else t
  }

  /**
   * Reads an ISO 8601 datetime "YYYY-MM-DDTHH:MM:SS", with an optional
   * fraction of a second, which is dropped, and an optional "Z" or "+HH:MM"
   * suffix.
   */
  function ParseIsoDateTime(s: string): (r: Option<DateTime>)
    ensures r.Some? ==> ValidDateTime(r.value)
  {
    if |s| >= 19 && s[4] == '-' && s[7] == '-' && s[10] == 'T' && s[13] == ':' && s[16] == ':'
       && AllDigits(s[0..4]) && AllDigits(s[5..7]) && AllDigits(s[8..10])
       && AllDigits(s[11..13]) && AllDigits(s[14..16]) && AllDigits(s[17..19])
    then
      match ParseOffset(DropFraction(s[19..]))
      case None => None
      case Some(off) =>
        var d := DateTime(DigitsValue(s[0..4]), DigitsValue(s[5..7]), DigitsValue(s[8..10]),
                          DigitsValue(s[11..13]), DigitsValue(s[14..16]), DigitsValue(s[17..19]), off);
        if ValidDateTime(d) then Some(d) else None
    else None
  }

  lemma OffsetRoundTrip(minutes: int)
    requires -1440 < minutes < 1440
    ensures ParseOffset(OffsetToString(minutes)) == Some(Some(minutes))
  {
    var s := OffsetToString(minutes);
    var m := if minutes < 0 then -minutes else minutes;
    var hours, mins := m / 60, m % 60;
    assert hours * 60 + mins == m && mins < 60;
    var sign := if minutes < 0 then "-" else "+";
    assert s == sign + Pad2(hours) + ":" + Pad2(mins);
    assert s[1..3] == Pad2(hours);
    assert s[4..6] == Pad2(mins);
    assert s[0] == sign[0] && s[3] == ':';
  }

  /** Formatting a valid datetime and parsing it back gives the same datetime. */
  lemma IsoRoundTrip(d: DateTime)
    requires ValidDateTime(d)
    ensures ParseIsoDateTime(DateTimeToIso(d)) == Some(d)
  {
    var s := DateTimeToIso(d);
    assert s[0..4] == Pad4(d.year);
    assert s[5..7] == Pad2(d.month);
    assert s[8..10] == Pad2(d.day);
    assert s[11..13] == Pad2(d.hour);
    assert s[14..16] == Pad2(d.minute);
    assert s[17..19] == Pad2(d.second);
    if d.offset.Some? {
      assert s[19..] == OffsetToString(d.offset.value);
      assert DropFraction(s[19..]) == s[19..];
      OffsetRoundTrip(d.offset.value);
    } else {
      assert s[19..] == "";
    }
  }

  /** `local_timezone=UTC`: a naive datetime is read as UTC. */
  function AsUtcIfNaive(d: DateTime): (r: DateTime)
    ensures r.offset.Some?
    ensures ValidDateTime(d) ==> ValidDateTime(r)
  {
    if d.offset.None? then d.(offset := Some(0)) else d
  }

  /**
   * `DateTimeValidator(local_timezone=UTC, target_timezone=UTC,
   * discard_milliseconds=True)`: an ISO string, read as UTC when naive and
   * converted to UTC otherwise, without its fraction of a second. The
   * result always has offset zero and stands for the moment written.
   */
  function ValidateDateTime(v: Value): (r: Result<DateTime, Fault>)
    ensures r.Ok? ==> v.Str? && ParseIsoDateTime(v.s).Some? && r.value.offset == Some(0) && ValidDateTime(r.value)
    ensures r.Ok? ==> Instant(r.value) == Instant(AsUtcIfNaive(ParseIsoDateTime(v.s).value))
    ensures v.Str? && ParseIsoDateTime(v.s).Some? && r.Err? ==> r.error == Raised("OverflowError", "date value out of range")
    ensures (!v.Str? || ParseIsoDateTime(v.s).None?) ==> r.Err? && r.error.Invalid?
  {
    if !v.Str? then Err(Invalid("invalid_type", "str expected"))
    else match ParseIsoDateTime(v.s)
      case None => Err(Invalid("invalid_datetime", v.s))
      case Some(d) =>
        match ToUtc(AsUtcIfNaive(d))
        case None => Err(Raised("OverflowError", "date value out of range"))
        case Some(u) => Ok(u)
  }

  /** A UTC datetime written by `isoformat()` validates back to itself. */
  lemma ValidateDateTimeOfUtc(d: DateTime)
    requires ValidDateTime(d) && d.offset == Some(0)
    ensures ValidateDateTime(Str(DateTimeToIso(d))) == Ok(d)
  {
    IsoRoundTrip(d);
  }

  /** A naive datetime written by `isoformat()` validates to the same wall-clock time in UTC. */
  lemma ValidateDateTimeOfNaive(d: DateTime)
    requires ValidDateTime(d) && d.offset.None?
    ensures ValidateDateTime(Str(DateTimeToIso(d))) == Ok(d.(offset := Some(0)))
  {
    IsoRoundTrip(d);
  }

  /** An aware datetime written by `isoformat()` validates to the same moment in UTC, or overflows. */
  lemma ValidateDateTimeOfAware(d: DateTime)
    requires ValidDateTime(d) && d.offset.Some?
    ensures ToUtc(d).Some? ==> ValidateDateTime(Str(DateTimeToIso(d))) == Ok(ToUtc(d).value)
    ensures ToUtc(d).None? ==> ValidateDateTime(Str(DateTimeToIso(d))) == Err(Raised("OverflowError", "date value out of range"))
  {
    IsoRoundTrip(d);
  }

  /** A fraction of three or six digits after the seconds does not change what is read. */
  lemma ParseIgnoresFraction(s: string, f: string, t: string)
    requires |s| == 19 && (|f| == 3 || |f| == 6) && AllDigits(f)
    requires t == "" || t[0] == 'Z' || t[0] == '+' || t[0] == '-'
    ensures ParseIsoDateTime(s + "." + f + t) == ParseIsoDateTime(s + t)
  {
    var u := s + "." + f + t;
    assert u[0..19] == s && (s + t)[0..19] == s;
    assert forall i :: 0 <= i < 19 ==> u[i] == s[i] && (s + t)[i] == s[i];
    assert u[0..4] == s[0..4] == (s + t)[0..4] && u[5..7] == s[5..7] == (s + t)[5..7];
    assert u[8..10] == s[8..10] == (s + t)[8..10] && u[11..13] == s[11..13] == (s + t)[11..13];
    assert u[14..16] == s[14..16] == (s + t)[14..16] && u[17..19] == s[17..19] == (s + t)[17..19];
    assert u[19..] == "." + f + t && (s + t)[19..] == t;
    var w := "." + f + t;
    if |f| == 6 {
      assert w[1..7] == f && w[7..] == t;
    } else {
      assert w[1..4] == f && w[4..] == t;
      if |w| >= 7 {
        assert w[4] == t[0];
        assert !AllDigits(w[1..7]) by { assert w[1..7][3] == t[0]; }
      }
    }
  }

  /** Just after midnight at +01:00 on 1 March 2024 is the last day of February, a leap day, in UTC. */
  lemma ValidateDateTimeCrossesDay()
    ensures ToUtc(DateTime(2024, 3, 1, 0, 30, 0, Some(60))) == Some(DateTime(2024, 2, 29, 23, 30, 0, Some(0)))
  {
  }

  // ------------------------------------------------------------------ str()

  /** `str(x)` for the scalar values; `str(True)` is "True". */
  function PyStr(v: Value): string
    requires !v.List? && !v.Obj?
    requires v.Moment? ==> ValidDateTime(v.dt)
  {
    match v
    case Null => "None"
    case Bool(b) => if b then "True" else "False"
    case Int(i) => IntToString(i)
    case Real(d) => DecimalToString(d)
    case Str(s) => s
    case Time(t) => TimeToString(t)
    case Moment(dt) => DateTimeToIso(dt)
  }
}
