/**
 * The five spreadsheet-oriented field validators of
 * common/validators/fields: German yes/no booleans, German duration
 * phrases, blank-as-None, number-to-string casting and time passthrough.
 */
module FieldValidators {
  import opened Wrappers
  import opened Text
  import opened Values

  // ------------------------------------------------ ExtendedBooleanValidator

  /** The `string_mapping` table, looked up with an already lower-cased key. */
  function BooleanWord(lowered: string): Option<bool> {
    if lowered == "ja" || lowered == "yes" then Some(true)
    else if lowered == "nein" || lowered == "no" then Some(false)
    else None
  }

  /** The input the strict boolean validator receives: a table word is replaced by its bool. */
  function BooleanWordInput(v: Value): (w: Value)
    ensures !v.Str? ==> w == v
  {
    if v.Str? && BooleanWord(Lower(v.s)).Some? then Bool(BooleanWord(Lower(v.s)).value) else v
  }

  function ValidateExtendedBoolean(v: Value): (r: Result<bool, Fault>)
    ensures v.Str? && Lower(v.s) in {"ja", "yes"} ==> r == Ok(true)
    ensures v.Str? && Lower(v.s) in {"nein", "no"} ==> r == Ok(false)
    ensures !v.Str? ==> r == ValidateStrictBool(v)
    ensures r.Ok? <==> v.Bool? || (v.Str? && Lower(v.s) in {"ja", "yes", "nein", "no"})
    ensures r.Err? ==> r.error.Invalid?
  {
    ValidateStrictBool(BooleanWordInput(v))
  }

  /** The lookup sees only the lower-cased string, so "JA", "Ja" and "ja" behave identically. */
  lemma ExtendedBooleanIgnoresCase(s: string, t: string)
    requires Lower(s) == Lower(t)
    ensures ValidateExtendedBoolean(Str(s)) == ValidateExtendedBoolean(Str(t))
  {
  }

  /** A string outside the table reaches the strict validator unchanged, and it refuses strings. */
  lemma ExtendedBooleanUnknownWord(s: string)
    requires Lower(s) !in {"ja", "yes", "nein", "no"}
    ensures ValidateExtendedBoolean(Str(s)) == ValidateStrictBool(Str(s))
    ensures ValidateExtendedBoolean(Str(s)).Err?
  {
  }

  lemma ExtendedBooleanExamples()
    ensures ValidateExtendedBoolean(Str("JA")) == Ok(true)
    ensures ValidateExtendedBoolean(Str("Nein")) == Ok(false)
    ensures ValidateExtendedBoolean(Str("true")).Err?
    ensures ValidateExtendedBoolean(Bool(false)) == Ok(false)
  {
    assert Lower("JA") == "ja";
    assert Lower("Nein") == "nein";
    assert Lower("true") == "true";
  }

  // ------------------------------------------ GermanDurationIntegerValidator

  /** `unit_factors`: seconds per unit; a month and a quarter both count 30 days. */
  function UnitFactor(unit: string): Option<nat> {
    if unit == "Stunde" || unit == "Stunden" then Some(60 * 60)
    else if unit == "Tag" || unit == "Tage" then Some(60 * 60 * 24)
    else if unit == "Woche" || unit == "Wochen" then Some(60 * 60 * 24 * 7)
    else if unit == "Monat" || unit == "Monate" || unit == "Quartal" || unit == "Quartale" then Some(60 * 60 * 24 * 30)
    else None
  }

  const DurationUnits: set<string> :=
    {"Stunde", "Stunden", "Tag", "Tage", "Woche", "Wochen", "Monat", "Monate", "Quartal", "Quartale"}

  lemma UnitFactors()
    ensures forall u :: UnitFactor(u).Some? <==> u in DurationUnits
    ensures UnitFactor("Stunde") == UnitFactor("Stunden") == Some(3600)
    ensures UnitFactor("Tag") == UnitFactor("Tage") == Some(86400)
    ensures UnitFactor("Woche") == UnitFactor("Wochen") == Some(604800)
    ensures UnitFactor("Monat") == UnitFactor("Monate") == UnitFactor("Quartal") == UnitFactor("Quartale") == Some(2592000)
  {
  }

  /** A unit's seconds times a count: never negative. */
  function Times(factor: nat, count: nat): nat { factor * count }

  /** The two groups of a successful pattern match. */
  datatype DurationMatch = DurationMatch(digits: string, unit: string)

  /**
   * The anchored pattern "<digits> <unit>": the digit group may be empty, and
   * `$` also matches just before one final newline.
   */
  function MatchDuration(s: string): (r: Option<DurationMatch>)
    ensures r.Some? ==> AllDigits(r.value.digits) && r.value.unit in DurationUnits && UnitFactor(r.value.unit).Some?
    ensures r.Some? ==> s == r.value.digits + " " + r.value.unit || s == r.value.digits + " " + r.value.unit + "\n"
  {
    var body := if |s| > 0 && s[|s| - 1] == '\n' then s[..|s| - 1] else s;
    match Find(body, " ")
    case None => None
    case Some(i) =>
      var digits, unit := body[..i], body[i + 1..];
      assert body == digits + " " + unit by { assert body[i..i + 1] == " "; }
      if AllDigits(digits) && UnitFactor(unit).Some? then Some(DurationMatch(digits, unit)) else None
  }

  /** Every "<digits> <unit>" phrase, with or without a final newline, matches with those groups. */
  lemma MatchDurationOf(d: string, u: string, newline: bool)
    requires AllDigits(d) && u in DurationUnits
    ensures MatchDuration(d + " " + u + (if newline then "\n" else "")) == Some(DurationMatch(d, u))
  {
    var body := d + " " + u;
    var s := body + (if newline then "\n" else "");
    UnitShape(u);
    assert (if |s| > 0 && s[|s| - 1] == '\n' then s[..|s| - 1] else s) == body by {
      assert body[|body| - 1] == u[|u| - 1];
      if newline {
        assert s[..|s| - 1] == body;
      } else {
        assert s == body;
      }
    }
    assert Find(body, " ") == Some(|d|) by {
      assert ' ' !in d by {
        forall k | 0 <= k < |d| ensures d[k] != ' ' { assert IsDigit(d[k]); }
      }
      FindCharAfter(d, ' ', u);
    }
    assert body[..|d|] == d && body[|d| + 1..] == u;
  }

  /** A unit word is non-empty, does not end in a newline and has a factor. */
  lemma UnitShape(u: string)
    requires u in DurationUnits
    ensures |u| > 0 && u[|u| - 1] != '\n' && UnitFactor(u).Some?
  {
  }

  /**
   * `GermanDurationIntegerValidator.validate` as written: non-strings go to the
   * plain integer validator; a phrase with an empty digit group reaches `int('')`,
   * which raises ValueError rather than a validation error.
   */
  function ValidateGermanDurationAsWritten(v: Value): (r: Result<int, Fault>)
    ensures !v.Str? ==> r == ValidateInteger(v, INT32_MIN, INT32_MAX, false)
    ensures v.Str? && MatchDuration(v.s).None? ==> r == Err(Invalid("invalid_string_input", "invalid string input"))
    ensures v.Str? && r.Ok? ==> r.value >= 0
  {
    if !v.Str? then ValidateInteger(v, INT32_MIN, INT32_MAX, false)
    else match MatchDuration(v.s)
      case None => Err(Invalid("invalid_string_input", "invalid string input"))
      case Some(m) =>
        if m.digits == "" then Err(Raised("ValueError", "invalid literal for int() with base 10: ''"))
        else Ok(Times(UnitFactor(m.unit).value, DigitsValue(m.digits)))
  }

  /** The empty digit group escapes as a non-validation error, so no per-record loop catches it. */
  lemma DurationEmptyDigitsRaises()
    ensures ValidateGermanDurationAsWritten(Str(" Tage")).Err?
    ensures ValidateGermanDurationAsWritten(Str(" Tage")).error.Raised?
  {
    MatchDurationOf("", "Tage", false);
    assert "" + " " + "Tage" + "" == " Tage";
  }

  /** The duration validator with the digit group required to be non-empty, as the pattern intends. */
  function ValidateGermanDuration(v: Value): (r: Result<int, Fault>)
    ensures !v.Str? ==> r == ValidateInteger(v, INT32_MIN, INT32_MAX, false)
    ensures v.Str? && r.Ok? ==> r.value >= 0
    ensures r.Err? ==> r.error.Invalid?
    ensures v.Str? && r.Ok? ==> exists m :: MatchDuration(v.s) == Some(m) && m.digits != ""
  {
    if !v.Str? then ValidateInteger(v, INT32_MIN, INT32_MAX, false)
    else match MatchDuration(v.s)
      case None => Err(Invalid("invalid_string_input", "invalid string input"))
      case Some(m) =>
        if m.digits == "" then Err(Invalid("invalid_string_input", "invalid string input"))
        else Ok(Times(UnitFactor(m.unit).value, DigitsValue(m.digits)))
  }

  /** Writing `n` units as a phrase and validating it gives n times the unit's seconds. */
  lemma GermanDurationOfPhrase(n: nat, u: string)
    requires u in DurationUnits
    ensures ValidateGermanDuration(Str(NatToString(n) + " " + u)) == Ok(UnitFactor(u).value * n)
    ensures ValidateGermanDurationAsWritten(Str(NatToString(n) + " " + u)) == Ok(UnitFactor(u).value * n)
  {
    MatchDurationOf(NatToString(n), u, false);
    assert NatToString(n) + " " + u + "" == NatToString(n) + " " + u;
    NatToStringValue(n);
  }

  /** The corrected validator differs from the one as written only on the empty digit group. */
  lemma GermanDurationAgreesOffEmptyDigits(v: Value)
    requires !(v.Str? && MatchDuration(v.s).Some? && MatchDuration(v.s).value.digits == "")
    ensures ValidateGermanDuration(v) == ValidateGermanDurationAsWritten(v)
  {
  }

  // ---------------------------------------------------------- ExcelNoneable

  /** The three sentinels an empty spreadsheet cell shows up as: None, "" and "-". */
  predicate IsBlank(v: Value) { v == Null || v == Str("") || v == Str("-") }

  function ValidateExcelNoneable<T>(v: Value, inner: Value -> Result<T, Fault>, default: T): (r: Result<T, Fault>)
    ensures IsBlank(v) ==> r == Ok(default)
    ensures !IsBlank(v) ==> r == inner(v)
  {
    if IsBlank(v) then Ok(default) else inner(v)
  }

  /** On a sentinel the wrapped validator is never consulted: any two give the same result. */
  lemma ExcelNoneableSkipsInner<T>(v: Value, f: Value -> Result<T, Fault>, g: Value -> Result<T, Fault>, default: T)
    requires IsBlank(v)
    ensures ValidateExcelNoneable(v, f, default) == ValidateExcelNoneable(v, g, default) == Ok(default)
  {
  }

  // ---------------------------------------------- NumberCastingStringValidator

  /** `str()` applied to ints and floats; bool is an int subclass, so it is cast too. */
  function NumberCastInput(v: Value): (w: Value)
    ensures v.Int? ==> w == Str(IntToString(v.i))
    ensures v.Real? ==> w == Str(DecimalToString(v.d))
    ensures v.Bool? ==> w == Str(if v.b then "True" else "False")
    ensures !v.Int? && !v.Real? && !v.Bool? ==> w == v
  {
    if v.Int? || v.Real? || v.Bool? then Str(PyStr(v)) else v
  }

  function ValidateNumberCastingString(v: Value, minLength: nat, maxLength: Option<nat>): (r: Result<string, Fault>)
    ensures r == ValidateString(NumberCastInput(v), minLength, maxLength, false)
    ensures r.Ok? && v.Int? ==> ParseInt(r.value) == Some(v.i)
    ensures r.Ok? && v.Real? ==> ParseDecimal(r.value) == Some(v.d)
  {
    assert v.Int? ==> ParseInt(IntToString(v.i)) == Some(v.i) by {
      if v.Int? { ParseIntOfString(v.i); }
    }
    assert v.Real? ==> ParseDecimal(DecimalToString(v.d)) == Some(v.d) by {
      if v.Real? { DecimalRoundTrip(v.d); }
    }
    ValidateString(NumberCastInput(v), minLength, maxLength, false)
  }

  /** A numeric spreadsheet uid is accepted as its decimal string when that fits 1..256 characters. */
  lemma NumericUidAccepted(i: int)
    requires |IntToString(i)| <= 256
    ensures ValidateNumberCastingString(Int(i), 1, Some(256)) == Ok(IntToString(i))
  {
    var s := IntToString(i);
    assert forall k :: 0 <= k < |s| ==> s[k] == '-' || IsDigit(s[k]);
  }

  lemma BoolCastExamples()
    ensures ValidateNumberCastingString(Bool(true), 1, Some(256)) == Ok("True")
    ensures ValidateNumberCastingString(Bool(false), 1, Some(256)) == Ok("False")
  {
    assert NumberCastInput(Bool(true)) == Str("True");
    assert NumberCastInput(Bool(false)) == Str("False");
    assert forall k :: 0 <= k < 4 ==> !ForbiddenChar("True"[k], false);
    assert forall k :: 0 <= k < 5 ==> !ForbiddenChar("False"[k], false);
  }

  // ------------------------------------------------------ ExcelTimeValidator

  function ValidateExcelTime(v: Value): (r: Result<ClockTime, Fault>)
    ensures v.Time? ==> r == Ok(v.t)
    ensures !v.Time? ==> r == ValidateTime(v)
  {
    if v.Time? then Ok(v.t) else ValidateTime(v)
  }

  /** Validating an already validated time returns it unchanged. */
  lemma ExcelTimeIdempotent(v: Value)
    requires ValidateExcelTime(v).Ok?
    ensures ValidateExcelTime(Time(ValidateExcelTime(v).value)) == ValidateExcelTime(v)
  {
  }

  /** A time cell and the same time written as "HH:MM:SS" validate to the same value. */
  lemma ExcelTimeTypedOrString(t: ClockTime)
    ensures ValidateExcelTime(Time(t)) == ValidateExcelTime(Str(TimeToString(t))) == Ok(t)
  {
    TimeRoundTrip(t);
  }
}
