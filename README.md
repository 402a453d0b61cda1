# ParkAPI2 sources — a Dafny model

ParkAPI2 sources is a collection of converters. Each one takes parking data
published by a city or an operator (JSON, XML, CSV or Excel) and turns it
into the two common records of the ParkAPI2 import format:
`StaticParkingSiteInput` (where a site is and what it offers) and
`RealtimeParkingSiteInput` (how many places are free now). A converter
returns an `ImportSourceResult` that holds the records it accepted next to
one `ImportParkingSiteException` per record it refused. Beside the v3
converters sits the legacy v1 scraper layer. Its `LotInfo`/`LotData`
structs, string helpers, snapshot maker and snapshot validator are kept for
the old ParkAPI, and `LegacyMixin` bridges the two worlds.

This project models the core of that code in Dafny, one module per source
file:

- the validators of the common records and the custom field validators;
- the XML-to-dict helper, the CSV and Excel header mappings, the result
  record and its error counts;
- the converters for normalized Excel files, BW Park-and-Drive, Mannheim,
  Stuttgart, Reutlingen, Neckarsulm, Pforzheim, PBW and Deutsche Bahn;
- the pure parsers of the Zürich, Basel, Münster and Jena scrapers;
- the legacy structs, string helpers, snapshot, validation and mixin.

A dynamic `Value` type (null, bool, int, decimal, string, time, date-time,
list, ordered dict) stands for Python's JSON-like data. A `Fault` separates
a validation error (which the per-record `try` catches) from any other
exception (which escapes the converter call). Loops that append to the
result lists are Dafny methods. Each is proved equal to a specification
function over a sequence of per-record steps, and the lemmas about those
functions state what the source promises. Where the code does not do what
it evidently means to, the model keeps both the code as written and the
corrected behaviour (see "## Findings"). The rest of the model uses the
corrected behaviour.

Network access, file and workbook I/O, XML and JSON parsing, and the clock
are inputs: fetched documents, parsed trees and "now" are parameters of the
modelled operations.

## Model

| member | source | states |
|---|---|---|
| Values.ValidateStrictBool | common/validators/fields/boolean_validators.py:8-23 | the `BooleanValidator` the extended one delegates to: accepted exactly for a native bool, giving that bool; every failure a validation error |
| Values.ValidateInteger | common/validators/fields/integer_validators.py:10-30 | `IntegerValidator`: an accepted value lies within the bounds and was an int (or, when allowed, a string); an int within the bounds is accepted as itself; every failure a validation error |
| Values.ValidateString | common/validators/fields/string_validators.py:8-16 | `StringValidator`: accepted exactly for a str of admissible length without forbidden control characters, returned unchanged; every failure a validation error |
| Values.ValidateNumeric | common/validators/base_validators.py:88-89 | `NumericValidator`: an accepted value is an int or a float, within the bounds, returned as the same decimal; conversely every int or float within the bounds is accepted as its own decimal |
| Values.ValidateDecimal | v3/neckarsulm.py:27-40 | `DecimalValidator`: accepted exactly for an unpadded str spelling a decimal within the bounds, giving that decimal |
| Values.DecimalValidatorRoundTrip | v3/neckarsulm.py:27-28 | a decimal written out in plain notation is accepted back as itself exactly when it lies within the bounds, otherwise refused with a range error |
| Values.ValidateEnum | common/validators/base_validators.py:72 | `EnumValidator`: accepted exactly for a str that is one of the enum's values, giving that member |
| Values.ValidateNoneable | common/validators/fields/noneable.py:9-23 | `Noneable`: None gives the default, anything else the wrapped validator's verdict |
| Values.TimeRoundTrip | common/validators/fields/time_validators.py:9-17 | a time written "HH:MM:SS" parses back to the same time |
| Values.ValidateTime | common/validators/fields/time_validators.py:9-17 | `TimeValidator`: a value is accepted exactly when it is a str that parses as a time, and the result is that time |
| Values.DateTimeToIso | common/base_converter/normalized_xlsx_converter.py:109 | `datetime.isoformat()` gives 19 characters, or 25 with a UTC offset |
| Values.IsoRoundTrip | common/base_converter/normalized_xlsx_converter.py:109 | formatting a valid datetime with `isoformat()` and parsing it back gives the same datetime, offset included |
| Values.OffsetRoundTrip | common/base_converter/normalized_xlsx_converter.py:109 | the "+HH:MM" offset suffix parses back to the same number of minutes |
| Values.ValidateDateTime | common/validators/base_validators.py:82-86 | `DateTimeValidator(local_timezone=utc, target_timezone=utc, discard_milliseconds=True)`: an accepted value is an ISO str; the result is in UTC and stands for the same moment as the text, a naive text read as UTC; a well-formed text is refused only with OverflowError, when the moment leaves years 1 to 9999; anything else is a validation error |
| Values.ToUtc | common/validators/base_validators.py:84 | conversion to UTC: a result has offset zero, the same seconds and the same instant; an aware UTC datetime is unchanged; None only when the day leaves the calendar |
| Values.NextDay | common/validators/base_validators.py:84 | the day after a valid date is a date one day number later, valid unless the year passes 9999 |
| Values.PrevDay | common/validators/base_validators.py:84 | the day before a valid date is a date one day number earlier, valid unless the year drops below 1 |
| Values.ValidateDateTimeOfUtc | common/validators/base_validators.py:82-86 | the `isoformat()` of a UTC datetime validates to that datetime |
| Values.ValidateDateTimeOfNaive | common/validators/base_validators.py:83 | the `isoformat()` of a naive datetime validates to the same clock time in UTC |
| Values.ValidateDateTimeOfAware | common/validators/base_validators.py:84 | the `isoformat()` of an aware datetime validates to its UTC conversion, or raises OverflowError when that leaves the calendar |
| Values.ParseIgnoresFraction | common/validators/base_validators.py:85 | a fraction of three or six digits after the seconds does not change the datetime read |
| Values.ValidateDateTimeCrossesDay | common/validators/base_validators.py:84 | 00:30 at +01:00 on 1 March 2024 is 23:30 UTC on 29 February, the leap day |
| FieldValidators.BooleanWordInput | common/validators/fields/boolean_validators.py:20-21 | a non-string reaches the strict validator unchanged |
| FieldValidators.ValidateExtendedBoolean | common/validators/fields/boolean_validators.py:11-23 | "ja"/"yes" in any case give True, "nein"/"no" give False, a non-string gets the strict bool verdict; accepted exactly for a bool or one of the four words; every failure is a validation error |
| FieldValidators.ExtendedBooleanIgnoresCase | common/validators/fields/boolean_validators.py:21 | two strings with the same lower-case form validate identically |
| FieldValidators.ExtendedBooleanUnknownWord | common/validators/fields/boolean_validators.py:21-23 | a string outside the table goes to the strict validator unchanged and is refused |
| FieldValidators.ExtendedBooleanExamples | common/validators/fields/boolean_validators.py:12-23 | "JA" is True, "Nein" is False, "true" is refused, a native False stays False |
| FieldValidators.UnitFactors | common/validators/fields/integer_validators.py:15-26 | exactly the ten unit words have a factor: hours 3600, days 86400, weeks 604800, months and quarters 2592000 seconds |
| FieldValidators.MatchDuration | common/validators/fields/integer_validators.py:14-32 | a match splits the text into a (possibly empty) digit group, one space and a unit word, optionally followed by one final newline |
| FieldValidators.MatchDurationOf | common/validators/fields/integer_validators.py:14-32 | every "digits unit" phrase, with or without a final newline, matches with exactly those groups |
| FieldValidators.ValidateGermanDurationAsWritten | common/validators/fields/integer_validators.py:28-40 | non-strings go to the plain integer validator, a non-matching string is an invalid_string_input error, an accepted phrase is never negative |
| FieldValidators.DurationEmptyDigitsRaises | common/validators/fields/integer_validators.py:14-37 | " Tage" matches with an empty digit group and `int("")` raises an error that is not a validation error |
| FieldValidators.ValidateGermanDuration | common/validators/fields/integer_validators.py:28-40 | the corrected validator: same non-string path, results never negative, every failure a validation error, accepted phrases have a non-empty digit group |
| FieldValidators.GermanDurationOfPhrase | common/validators/fields/integer_validators.py:37-40 | "n unit" validates to n times the unit's factor, both as written and corrected |
| FieldValidators.GermanDurationAgreesOffEmptyDigits | common/validators/fields/integer_validators.py:28-40 | the corrected validator differs from the written one only on an empty digit group |
| FieldValidators.ValidateExcelNoneable | common/validators/fields/noneable.py:12-23 | None, "" and "-" give the default, anything else the wrapped validator's result |
| FieldValidators.ExcelNoneableSkipsInner | common/validators/fields/noneable.py:20-21 | on a blank cell the wrapped validator is not consulted: any two wrapped validators give the default |
| FieldValidators.NumberCastInput | common/validators/fields/string_validators.py:13-14 | ints and floats (and bools, an int subclass) become their `str()`, anything else is passed unchanged |
| FieldValidators.ValidateNumberCastingString | common/validators/fields/string_validators.py:11-16 | the string validator applied to the cast input; an accepted int or float reads back as the same number |
| FieldValidators.NumericUidAccepted | common/validators/fields/string_validators.py:13-16 | a numeric uid of at most 256 digits is accepted as its decimal string |
| FieldValidators.BoolCastExamples | common/validators/fields/string_validators.py:13-14 | True and False are cast to "True" and "False" |
| FieldValidators.ValidateExcelTime | common/validators/fields/time_validators.py:12-17 | a time cell is returned as is, anything else goes to the time validator |
| FieldValidators.ExcelTimeIdempotent | common/validators/fields/time_validators.py:14-15 | validating an already validated time returns it unchanged |
| FieldValidators.ExcelTimeTypedOrString | common/validators/fields/time_validators.py:12-17 | a time cell and the same time written "HH:MM:SS" validate to the same time |
| LegacyStrings.FindKeyword | util/strings.py:24-27 | the keyword scan returns the type of the first table keyword contained in the lower-cased name, or nothing when none is contained |
| LegacyStrings.GuessLotType | util/strings.py:10-27 | `guess_lot_type` as a loop over the keyword table, equal to the first-match specification |
| LegacyStrings.FirstKeywordType | util/strings.py:25-27 | a found type belongs to a keyword contained in the name; nothing is found exactly when no keyword is contained |
| LegacyStrings.FirstKeywordAt | util/strings.py:25-27 | the keyword at position n decides the result when it is contained and no earlier keyword is (table order matters) |
| LegacyStrings.GuessLotTypeOf | util/strings.py:13-22 | a guessed type is always one of lot, garage, underground or level |
| LegacyStrings.KeywordTypesKnown | util/strings.py:13-22 | every type in the keyword table is a known lot type |
| LegacyStrings.GuessLotTypeShortName | util/strings.py:13-27 | a name shorter than the shortest keyword ("garage") guesses nothing |
| LegacyStrings.GuessLotTypeTiefgarage | util/strings.py:16-27 | "tiefgarage" is an underground lot even though it also contains "garage", because the table is scanned in order |
| LegacyStrings.RemoveSpecialChars | util/strings.py:56-83 | `remove_special_chars` as a loop applying each replacement in table order, equal to the specification fold |
| LegacyStrings.ReplaceEach | util/strings.py:81-82 | the replacement loop equals folding the replacements over the name |
| LegacyStrings.ApplyRemovesAll | util/strings.py:60-83 | when no replacement reintroduces a replaced character, none of the replaced characters survives |
| LegacyStrings.SpecialCharTableCleans | util/strings.py:60-80 | the legacy table is such a cleaning table |
| LegacyStrings.ApplyIdentity | util/strings.py:81-82 | a name containing none of the replaced characters is returned unchanged |
| LegacyStrings.RemoveSpecialCharsClean | util/strings.py:56-83 | the result holds no umlaut, space, dash or punctuation of the table, and cleaning twice equals cleaning once |
| LegacyStrings.NameToLegacyId | util/strings.py:30-40 | `name_to_legacy_id`: the legacy id holds no space, no dash and no umlaut |
| LegacyStrings.AsciiFold | util/strings.py:103-104 | the NFKD-and-ASCII step leaves only ASCII characters |
| LegacyStrings.DashOthers | util/strings.py:106-109 | every character is kept or turned into a dash, and the result holds only alphanumerics, whitespace kept by the rule, or dashes |
| LegacyStrings.CollapseDashes | util/strings.py:111 | collapsing runs of dashes never lengthens the text, keeps its first character and leaves no double dash |
| LegacyStrings.RemoveSpecialCharsV2 | util/strings.py:86-112 | `remove_special_chars_v2` returns at most 64 characters |
| LegacyStrings.NameToId | util/strings.py:43-53 | `name_to_id`: at most 64 characters, lower-case ASCII alphanumerics, dashes and the tab/newline the rule keeps, no double dash and no leading or trailing dash (before the cut) |
| LegacyStrings.V2Shape | util/strings.py:106-112 | the steps after folding give that id shape |
| LegacyStrings.CutShape | util/strings.py:112 | cutting to 64 characters keeps the id shape |
| LegacyStrings.V2KeepsTab | util/strings.py:107 | a tab survives the v2 cleaning, since it is in the kept whitespace and only spaces become dashes |
| LegacyStrings.V2CutCanEndInDash | util/strings.py:111-112 | because the cut follows the dash strip, a 63-letter word followed by "-b" ends in a dash |
| LegacyStrings.UmlautsFoldNotExpand | util/strings.py:93-104 | the umlaut table is applied to a discarded variable, so "ä" becomes "a" (by folding), while "ß" still becomes "ss" |
| LegacyStrings.V2OfPlain | util/strings.py:86-112 | an already plain id of at most 64 lower-case letters and digits is returned unchanged |
| LegacyStrings.IntOrNone | util/strings.py:115-122 | `int_or_none`: a string is parsed after stripping leading zeros when longer than one character; None and booleans give None |
| LegacyStrings.IntOrNoneOfNat | util/strings.py:115-122 | the decimal spelling of a natural number, and the number itself, read back as that number |
| LegacyStrings.IntOrNoneOfNatString | util/strings.py:115-122 | the decimal spelling of a natural number reads back as that number |
| LegacyStrings.IntOrNoneLeadingZeros | util/strings.py:118-120 | "007" reads as 7 |
| LegacyStrings.IntOrNoneZeros | util/strings.py:118-121 | "0" reads as 0, while "00" is stripped to the empty string and gives None |
| LegacyStrings.CapitalisedIsNoInt | util/strings.py:120-122 | a capitalised word is no number |
| LegacyStrings.WordIsNoInt | util/strings.py:115-122 | `int_or_none` of a capitalised word gives None |
| LegacyStrings.CommentFreeLines | util/strings.py:138-142 | the kept lines are exactly the lines not starting (after leading whitespace) with '#', and never more than there were |
| LegacyStrings.CommentFreeConcat | util/strings.py:138-142 | dropping comment lines distributes over concatenation, so the order of the kept lines is preserved |
| LegacyStructs.OrNone | util/structs.py:34-69 | `x or None` on an optional string: present exactly when given and non-empty, and then unchanged |
| LegacyStructs.NewPoolInfo | util/structs.py:17-37 | `PoolInfo`: id, name, public URL and timezone kept; the source and attribution fields never hold an empty string |
| LegacyStructs.ResolveLotType | util/structs.py:75-91 | no type: the type guessed from the name, or a ValueError; a known type kept; an unknown type replaced by the type guessed from it, or a ValueError |
| LegacyStructs.PyFloat | util/structs.py:96-97 | `float(value)`: a float as itself, an int widened, a str exactly when it spells a decimal; containers and dates raise |
| LegacyStructs.Coordinate | util/structs.py:93-106 | a None coordinate stays None; a present one becomes its float when it converts and lies in [-180, 180]; otherwise one of the two ValueErrors |
| LegacyStructs.CoordinateOfString | util/structs.py:96-103 | the decimal spelling of an in-range coordinate is read back as that coordinate |
| LegacyStructs.InitLotInfo | util/structs.py:51-106 | `LotInfo.__init__` as a method whose loop converts latitude then longitude, equal to the specification function |
| LegacyStructs.MakeLotInfoSteps | util/structs.py:75-106 | the order of the failures: type first, then latitude, then longitude; otherwise the record with cleaned URL and address and the converted coordinates |
| LegacyStructs.MakeLotInfoKeeps | util/structs.py:51-73 | an accepted LotInfo keeps the id and name it was given |
| LegacyStructs.LotInfoInvariant | util/structs.py:64-106 | every constructed LotInfo has a known type, coordinates within bounds, and no empty public URL or address |
| LegacyStructs.ResolvedTypeKnown | util/structs.py:75-91 | a resolved type is a `LotInfo.Types` name or a guessed type |
| LegacyStructs.LotInfoTypeRules | util/structs.py:75-91 | a name that guesses nothing and no type raises; a known type with valid coordinates is accepted and kept |
| LegacyStructs.LatitudeBoundIs180 | util/structs.py:103 | the bound is 180 for latitude as well: 180 is accepted and 181 rejected |
| LegacyStructs.FromDictKwargs | util/structs.py:110-116 | the keyword arguments of `from_dict` are exactly the entries of the input whose key is a LotInfo attribute |
| LegacyStructs.LotInfoFromDict | util/structs.py:108-117 | `from_dict`: without an id or a name the TypeError of the missing argument; an accepted LotInfo has the id and name of the input; an input of LotInfo attributes is passed on whole |
| LegacyStructs.KwargsLookup | util/structs.py:110-116 | for every LotInfo attribute the keyword arguments look up exactly as the input does |
| LegacyStructs.LotInfoOfKwargs | util/structs.py:117 | `cls(**kwargs)`: a missing id or name raises TypeError; an accepted LotInfo carries the given id and name |
| LegacyStructs.LotInfoOfKwargsTyped | util/structs.py:51-117 | with string id and name, optional strings and an optional int capacity, the constructor is applied to the given entries unchanged, the live-capacity flag as its truthiness |
| LegacyStructs.LotInfoFromDictTyped | util/structs.py:108-117 | for such well-typed input `from_dict` is the constructor applied to the input's own entries |
| LegacyStructs.FilterKeepsAll | util/structs.py:112-116 | filtering an input of LotInfo attributes keeps all of it |
| LegacyStructs.FromDictIgnoresExtraKeys | util/structs.py:112-116 | an extra key that is not a LotInfo attribute changes nothing |
| LegacyStructs.FilterAppend | util/structs.py:112-116 | the key filter distributes over concatenation |
| LegacyStructs.ValidateTimestamp | util/structs.py:183-194 | accepted exactly for a datetime without tzinfo, giving it back; every failure a ValueError |
| LegacyStructs.MakeLotData | util/structs.py:129-180 | an accepted LotData has a known status, the given id and capacity, a naive timestamp; a known status, valid timestamps and agreeing counts are accepted |
| LegacyStructs.LotDataCountsAddUp | util/structs.py:158-180 | with a capacity and one count given, the accepted record has both counts, adding up to the capacity, and the given counts unchanged |
| LegacyStructs.LotDataNoCapacity | util/structs.py:158 | without a capacity the counts are kept as given |
| LegacyStructs.LotDataNegativeFree | util/structs.py:171-173 | more occupied than capacity gives a negative free count instead of an error |
| LegacyStructs.LotDataRejectsAware | util/structs.py:190-194 | a timestamp with a timezone is rejected with the UTC message |
| LegacyStructs.LotInfoVars | util/structs.py:64-73 | `vars(info)` has the ten attributes in declaration order |
| LegacyStructs.LotDataVars | util/structs.py:139-145 | `vars(data)` has seven attributes, the id first |
| SiteInputs.ParkingSiteTypeParseIff | common/validators/base_validators.py:27-32 | the site-type enum accepts exactly the five member names, each giving its own member |
| SiteInputs.ParseParkingSiteType | common/validators/base_validators.py:27-32 | a parsed site type is the one whose name was given |
| SiteInputs.ToLotInfoType | common/validators/base_validators.py:34-41 | the conversion table: ON_STREET gives "street", OFF_STREET_PARKING_GROUND "lot", UNDERGROUND "underground", CAR_PARK "garage" and OTHER "unknown", each a LotInfo type |
| SiteInputs.ToLotInfoTypeInjective | common/validators/base_validators.py:34-41 | distinct site types give distinct LotInfo types |
| SiteInputs.ParseParkAndRideType | common/validators/base_validators.py:44-48 | the park-and-ride enum accepts exactly its member names, each giving its own member |
| SiteInputs.ParseOpeningStatus | common/validators/base_validators.py:51-54 | the opening-status enum accepts exactly "OPEN", "CLOSED" and "UNKNOWN", each giving its own member |
| SiteInputs.ToLotDataStatus | common/validators/base_validators.py:56-61 | the conversion table: OPEN gives "open", CLOSED "closed" and UNKNOWN "unknown", each a LotData status |
| SiteInputs.ToLotDataStatusInjective | common/validators/base_validators.py:56-61 | distinct opening statuses give distinct LotData statuses |
| SiteInputs.OpeningStatusLowered | common/validators/base_validators.py:51-61 | an accepted status name converts to that name in lower case |
| SiteInputs.Number | common/validators/base_validators.py:88-89 | the numeric field accepts exactly ints and floats, as the same decimal; otherwise a validation error |
| SiteInputs.OptTextField | common/validators/base_validators.py:68-100 | an optional text field: absent or None gives None; an accepted text is the given str within the length bound |
| SiteInputs.CountField | common/validators/base_validators.py:91-98 | an optional count: absent gives None; an accepted count is the given non-negative int (also lines 132-148 for the realtime counts) |
| SiteInputs.CapacitiesField | common/validators/base_validators.py:91-98 | the eight capacity fields: all accepted counts are non-negative, all absent gives no capacities, the total is the `capacity` field |
| SiteInputs.EnumItems | common/validators/base_validators.py:78 | a list of enum names is accepted exactly when every item is, giving the items in order |
| SiteInputs.ValidateParkAndRide | common/validators/base_validators.py:78 | the park-and-ride field: None gives None, anything but a list is rejected, a list is accepted exactly when every item names a park-and-ride type and then gives those types in order; every failure a validation error |
| SiteInputs.UidField | common/validators/base_validators.py:66 | an accepted uid has 1 to 256 characters (also `common/validators/xlsx_validators.py:23`) |
| SiteInputs.FlagField | common/validators/base_validators.py:75-79 | an optional flag: absent is None in both inputs, since the Excel override keeps the inherited `Default(None)`; in the Excel input a blank cell is None too (also `common/validators/xlsx_validators.py:24-26`) |
| SiteInputs.RealtimeFlagField | common/validators/base_validators.py:81 | `has_realtime_data` is false when absent, in both inputs (the Excel override keeps `Default(False)`) or None, and true stays true in the base input (also `common/validators/xlsx_validators.py:27`) |
| SiteInputs.MaxStayField | common/validators/base_validators.py:74 | `max_stay`: absent is None; in the base input an accepted value is a non-negative int (also `common/validators/xlsx_validators.py:28`) |
| SiteInputs.CoordinateField | common/validators/base_validators.py:88-89 | an accepted coordinate lies within the bounds and is the number given; a float within the bounds is accepted |
| SiteInputs.NameField | common/validators/base_validators.py:67 | an accepted name is the given str of 1 to 256 characters |
| SiteInputs.SiteTypeField | common/validators/base_validators.py:72 | the type field: absent is None, a parsed type was given by its name |
| SiteInputs.MomentField | common/validators/base_validators.py:82-86 | a required datetime field: an accepted moment is in UTC; absent is `field_required` (also line 127 for the realtime time stamp) |
| SiteInputs.PostInit | common/validators/base_validators.py:102-104 | `__post_init__` refuses exactly the sites whose latitude and longitude are both zero, with `lat_lon_zero` |
| SiteInputs.DescriptionFields | common/validators/base_validators.py:66-71 | uid and name of 1 to 256 characters, the optional texts within their bounds, the name as given |
| SiteInputs.FacilityFields | common/validators/base_validators.py:74-79 | the fee description within 256 characters, `max_stay` a count in the base input, and an absent lighting, fee or supervision flag read as None (also `common/validators/xlsx_validators.py:24-28`) |
| SiteInputs.PositionFields | common/validators/base_validators.py:81-89 | the update time is in UTC, latitude and longitude lie within the bounds and are the numbers given, an absent realtime flag is false |
| SiteInputs.ValidateStaticWith | common/validators/base_validators.py:64-104 | an accepted input was a dict and satisfies every field rule; coordinates and name are as given; an absent flag is None, an absent realtime flag false, in either input |
| SiteInputs.ValidateStaticAsWritten | common/validators/base_validators.py:88-89 | with the bounds as written, an accepted site satisfies the field rules for min = max = 90 and 180 |
| SiteInputs.AsWrittenOnlyOnePoint | common/validators/base_validators.py:88-89 | with those bounds, only latitude 90 and longitude 180 are ever accepted |
| SiteInputs.AsWrittenRefusesStuttgart | common/validators/base_validators.py:88-89 | with those bounds, a site at latitude 48.77 is refused |
| SiteInputs.ValidateStatic | common/validators/base_validators.py:64-104 | `StaticParkingSiteInput` with the corrected geographic bounds: an accepted site satisfies every field rule |
| SiteInputs.ValidateExcelStatic | common/validators/xlsx_validators.py:21-28 | `ExcelStaticParkingSiteInput`: an accepted site satisfies the Excel rules; the four boolean columns keep the base defaults, so an absent one is None (`has_realtime_data` false) |
| SiteInputs.AbsentFlagAsBlank | common/validators/xlsx_validators.py:24-27 | the Excel input reads a missing `has_lighting`, `has_fee`, `is_supervised` or `has_realtime_data` column exactly as a blank cell: the dict without it and with it set to None validate to the same result |
| SiteInputs.AgreeingSame | common/validators/base_validators.py:64-104 | two dicts that agree on every key except flags that are absent in one and blank in the other validate alike under the Excel input |
| SiteInputs.GeoAcceptsMinimalSite | common/validators/base_validators.py:64-104 | a dict with only uid, name, update time and in-range, not both zero, coordinates is accepted with every optional field None and no capacities |
| SiteInputs.ConstructStatic | common/validators/base_validators.py:64-104 | the plain constructor raises TypeError for an unknown keyword, otherwise keeps the record and refuses only the zero point |
| SiteInputs.ConstructSkipsFieldValidation | common/validators/base_validators.py:64-104 | a record built directly with a capacity of -1 is kept although the field validators would refuse it |
| SiteInputs.StatusField | common/validators/base_validators.py:128-131 | the realtime status: absent or None is UNKNOWN, a status name gives that status, and a str is accepted exactly when it names one |
| SiteInputs.ValidateRealtime | common/validators/base_validators.py:120-148 | `RealtimeParkingSiteInput`: an accepted input was a dict satisfying every field rule, with its status and capacities as validated |
| SiteInputs.ToLotInfo | common/validators/base_validators.py:106-117 | `to_lot_info` of a site without a type fails with the AttributeError of `None.to_lot_info_type` |
| SiteInputs.ToLotInfoOfValidated | common/validators/base_validators.py:106-117 | a validated site with a type converts to a LotInfo carrying its uid, name, mapped type, cleaned URL and address, capacity, realtime flag and coordinates |
| SiteInputs.ToLotDataAsWrittenAlwaysFails | common/validators/base_validators.py:123-157 | as written, `to_lot_data` of every validated realtime input raises, because the validated timestamp carries UTC and LotData refuses any tzinfo (also `util/structs.py:190-194`) |
| SiteInputs.ToLotData | common/validators/base_validators.py:150-157 | the corrected conversion never fails: uid, mapped status, the UTC timestamp without its offset, the free count and capacity, and occupied = capacity - free when both are known |
| SiteInputs.ExcelAcceptsFilledSite | common/validators/xlsx_validators.py:22-28 | a row holding a valid uid, name, import time, position, type and opening hours, with every other field blank or absent, is accepted with those values, every flag unset, `has_realtime_data` False and every capacity unknown |
| OpeningTimes.TimeColumn | common/validators/xlsx_validators.py:34-39 | a time column: absent or a blank cell gives None, a cell already holding a time gives that time (also `common/validators/fields/time_validators.py:12-17`) |
| OpeningTimes.Is247Column | common/validators/xlsx_validators.py:33 | the 24/7 column: absent or a blank cell gives None, any other cell the extended-boolean verdict |
| OpeningTimes.ValidateOpeningTime | common/validators/xlsx_validators.py:31-39 | `ExcelOpeningTimeInput`: a dict is accepted exactly when its 24/7 column and all six time columns are, and each field is then its column's value; anything but a dict is refused |
| OpeningTimes.HourMinute | common/validators/xlsx_validators.py:48-56 | `strftime("%H:%M")` is five characters, two digits of the hour, a colon and two digits of the minute |
| OpeningTimes.GetOsmOpeningHours | common/validators/xlsx_validators.py:41-58 | `get_osm_opening_hours` as a method that appends the fragments to a list and joins them, equal to the specification |
| OpeningTimes.FragmentRoundTrip | common/validators/xlsx_validators.py:46-57 | a fragment parses back into its days, begin and end hours and minutes |
| OpeningTimes.NoSemicolonInFragment | common/validators/xlsx_validators.py:46-57 | a fragment never contains the separator's semicolon |
| OpeningTimes.OsmOpeningHoursSplits | common/validators/xlsx_validators.py:45-58 | unless 24/7, splitting the result at "; " gives back the fragments |
| OpeningTimes.OpeningFragmentsCount | common/validators/xlsx_validators.py:42-58 | one fragment for each of weekdays, Saturday and Sunday whose begin and end are both set; no fragment and not 24/7 gives the empty string |
| XmlHelper.LocalNameOfQualified | common/xml_helper.py:197 | the local name of a namespace-qualified tag is the part after the namespace |
| XmlHelper.LocalNameOfPlain | common/xml_helper.py:197 | a tag without a namespace is its own local name |
| XmlHelper.RenameClass | common/xml_helper.py:223-224 | every key other than "class" is kept as it is |
| XmlHelper.Surviving | common/xml_helper.py:199-231 | the attributes kept are exactly those whose name is not ignored |
| XmlHelper.Append | common/xml_helper.py:219-220 | appending to the `defaultdict(list)` adds the value at the end of its key's list and touches no other key |
| XmlHelper.AppendAllAt | common/xml_helper.py:219-220 | after appending one child's items, each key's list is the old list followed by that child's values for the key |
| XmlHelper.GatherCollects | common/xml_helper.py:210-220 | after all children, each key's list holds the values of every child for that key, in document order |
| XmlHelper.Collapse | common/xml_helper.py:225-226 | a list of one value collapses to the value unless the (parent, key) pair is array-keyed; any other list stays a list |
| XmlHelper.PutGatheredAt | common/xml_helper.py:221-227 | every gathered key other than "class" appears in the tag's dict with its collapsed list |
| XmlHelper.PutGatheredClass | common/xml_helper.py:222-227 | a gathered "class" key is stored as "class_" |
| XmlHelper.SkipRemoteChild | common/xml_helper.py:242-251 | the child level is skipped only for a dict with exactly one pair |
| XmlHelper.ChildDicts | common/xml_helper.py:208-218 | one converted dict per child |
| XmlHelper.XmlToDict | common/xml_helper.py:26-258 | `xml_to_dict` always returns a dict: one entry keyed by the tag's local name, or the tag's own dict when the tag is a remote type tag |
| XmlHelper.EmptyLeafIsNull | common/xml_helper.py:199-207 | a leaf without text whose attributes are all ignored becomes `{tag: None}` |
| XmlHelper.TextLeafIsString | common/xml_helper.py:234-240 | a leaf with text and no surviving attribute becomes `{tag: stripped text}` |
| XmlHelper.PlainParentValue | common/xml_helper.py:209-227 | a parent without attributes or text becomes the dict of its gathered children |
| XmlHelper.ChildrenGathered | common/xml_helper.py:209-227 | in such a parent, each key (other than "class") holds the collapsed values every child gave for it, and is absent when none did |
| XmlHelper.RemoteTypeChildSkipped | common/xml_helper.py:242-251 | `<status><ChargePointStatusType>Operative</…></status>` with that remote type tag becomes `{status: "Operative"}` |
| XmlHelper.StripXsiPrefix | common/xml_helper.py:232 | the XMLSchema-instance namespace is removed from an attribute name |
| XmlHelper.AttributeBesideText | common/xml_helper.py:229-238 | a tag with one kept attribute and text becomes the attribute plus a `_text` entry |
| XmlHelper.OnlyPairsMatter | common/xml_helper.py:225 | only the (tag, key) pairs of `ensure_array_keys` affect the result |
| XmlHelper.BareKeysHaveNoEffect | common/xml_helper.py:225 | `ensure_array_keys` made of bare strings gives the same result as no array keys at all |
| ImportResults.ClassName | common/exceptions.py:7-23 | each exception class has a non-empty name without spaces |
| ImportResults.Repr | common/exceptions.py:15-16 | `__repr__` is the class name, a space, the uid, ": " and the message |
| ImportResults.ReprClassPrefix | common/exceptions.py:15-16 | the first space of the repr ends the class name, so the class can be read back from it |
| ImportResults.ReprDistinguishesClasses | common/exceptions.py:15-24 | exceptions of different classes never have the same repr |
| ImportResults.NewImportSourceResult | common/models.py:21-37 | the dataclass keeps uid, name and status and defaults every optional field to None |
| ImportResults.ErrorCount | common/models.py:39-49 | an error count is None exactly when the error list is None, otherwise its length |
| ImportResults.GenerateImportSourceResult | common/base_converter/base_converter.py:26-42 | the result is ACTIVE, carries the source's id, name and public URL and the given input and error lists, and no attribution |
| ImportResults.GeneratedErrorCounts | common/base_converter/base_converter.py:26-42 | the error counts of a generated result are the lengths of the given error lists, whatever inputs are passed (also `common/models.py:39-49`) |
| ImportResults.ItemError | common/base_converter/normalized_xlsx_converter.py:85-90 | a per-record error is an `ImportParkingSiteException` carrying the record's uid |
| Aggregation.FirstAbort | common/base_converter/normalized_xlsx_converter.py:76-91 | the first record whose handling raised an exception that is not caught: every earlier record was handled |
| Aggregation.GatherSpec | common/base_converter/normalized_xlsx_converter.py:73-96 | the per-record loop completes exactly when no record raises an uncaught exception; it then returns the accepted inputs and the caught errors in record order, and otherwise the first such exception |
| Aggregation.GatherCounts | common/base_converter/normalized_xlsx_converter.py:76-91 | when the loop completes, every record was accepted, rejected or skipped, exactly once |
| Aggregation.GatherCountsNoSkip | v3/neckarsulm.py:89-123 | without a skip branch the accepted inputs and the errors together number the records |
| Aggregation.AcceptedFrom | common/base_converter/normalized_xlsx_converter.py:83 | every accepted input comes from some record accepted by the handler |
| Aggregation.RejectedFrom | common/base_converter/normalized_xlsx_converter.py:84-90 | every error comes from some record the handler rejected |
| Aggregation.NothingAccepted | common/base_converter/normalized_xlsx_converter.py:82-91 | when no record is accepted the input list stays empty |
| Aggregation.NothingRejected | v3/pbw/converter.py:90-97 | when no record is rejected the error list stays empty |
| Aggregation.GatherSnoc | common/base_converter/normalized_xlsx_converter.py:76-91 | one more record: an earlier exception stays, a new one ends the loop, a skip changes nothing, an accept appends the input, a reject appends the error |
| Aggregation.GatherPrefixAbort | v3/pbw/converter.py:90-97 | once a record raised, later records change nothing |
| Aggregation.FlattenAppend | v3/pbw/converter.py:49-79 | the records of nested loops are taken in order, outer record by outer record |
| Aggregation.FlattenMember | v3/pbw/converter.py:49-79 | a record of the nested loops belongs to one outer record's group |
| HeaderMapping.TableGet | common/base_converter/csv_converter.py:22-30 | a found target field is the one the header table gives for the column; nothing is found exactly when the column is not declared |
| HeaderMapping.TableValues | v3/neckarsulm.py:91 | the target fields of the header table, in table order |
| HeaderMapping.FirstUndeclared | common/base_converter/csv_converter.py:24-29 | the first header column the table does not declare: every earlier column is declared |
| HeaderMapping.CsvMappingAsWritten | common/base_converter/csv_converter.py:21-31 | `get_mapping_by_header` as written: succeeds exactly when every column is declared, giving the list of target fields in column order; otherwise the `ImportSourceException` for the first undeclared column |
| HeaderMapping.GetCsvMappingAsWritten | common/base_converter/csv_converter.py:21-31 | the mapping loop as a method, equal to that specification |
| HeaderMapping.CsvIgnoresMissingDeclared | common/base_converter/csv_converter.py:21-31 | a declared header that the file lacks changes nothing: missing columns are not reported |
| HeaderMapping.ReadRowAsWritten | v3/neckarsulm.py:91-92 | indexing the list mapping by a field name raises TypeError as soon as there is a field |
| HeaderMapping.CsvMappingAsWrittenBreaksCallers | common/base_converter/csv_converter.py:21-31 | even a successful mapping makes the first row raise TypeError in the caller (also `v3/neckarsulm.py:86-92`) |
| HeaderMapping.CsvMapping | common/base_converter/csv_converter.py:21-31 | the corrected mapping from field to column index: succeeds exactly when every column is declared, otherwise the same error for the first undeclared column (also `v3/neckarsulm.py:86`) |
| HeaderMapping.GetCsvMapping | common/base_converter/csv_converter.py:21-31 | the corrected mapping loop as a method, equal to its specification |
| HeaderMapping.CsvMappingStopsAt | common/base_converter/csv_converter.py:24-29 | the first undeclared column decides the error |
| HeaderMapping.CsvMappingFinds | common/base_converter/csv_converter.py:24-30 | a field maps to the last column whose header declares it |
| HeaderMapping.CsvMappingOmits | common/base_converter/csv_converter.py:24-30 | a field declared by no column of the file is absent from the mapping |
| HeaderMapping.FirstUnreadable | v3/neckarsulm.py:91-92 | the first field whose cell cannot be read: every earlier one can |
| HeaderMapping.ReadRow | v3/neckarsulm.py:90-92 | reading a row succeeds exactly when every field's cell exists, otherwise it fails at the first field that has none |
| HeaderMapping.ReadRowLoop | v3/neckarsulm.py:90-92 | the reading loop as a method, equal to its specification |
| HeaderMapping.ReadRowCells | v3/neckarsulm.py:91-92 | every field of a read row holds the cell of its column |
| HeaderMapping.ReadRowOnlyFields | v3/neckarsulm.py:90-92 | a read row holds no key other than the fields |
| HeaderMapping.CellUnderHeader | common/base_converter/csv_converter.py:24-30 | with the corrected mapping, a field reads the cell under the last header that declares it (also `v3/neckarsulm.py:91-92`) |
| HeaderMapping.IndexOfValue | common/base_converter/xlsx_converter.py:40 | `row_values.index`: the first position holding the value, and None exactly when it is absent |
| HeaderMapping.FirstMissing | common/base_converter/xlsx_converter.py:34-39 | the first header of the table missing from the row: every earlier one is present |
| HeaderMapping.XlsxMapping | common/base_converter/xlsx_converter.py:31-41 | the xlsx mapping succeeds exactly when every table header is in the header row, otherwise the `ImportSourceException` for the first missing one |
| HeaderMapping.XlsxMappingStopsAt | common/base_converter/xlsx_converter.py:34-39 | the first missing header decides the error |
| HeaderMapping.GetXlsxMapping | common/base_converter/xlsx_converter.py:31-41 | the mapping loop as a method, equal to its specification |
| HeaderMapping.XlsxMappingKeys | common/base_converter/xlsx_converter.py:34-40 | the mapping's keys are exactly the table's target fields |
| HeaderMapping.XlsxMappingFinds | common/base_converter/xlsx_converter.py:40 | a target field named once in the table maps to the first column holding its header |
| HeaderMapping.XlsxIgnoresExtraColumns | common/base_converter/xlsx_converter.py:31-41 | extra columns after the headers change nothing |
| HeaderMapping.IndexOfHeaderText | common/base_converter/xlsx_converter.py:40 | in a header row holding a table's distinct headers in order, `row_values.index` finds each header at its own position |
| HeaderMapping.XlsxMappingOfHeaderTexts | common/base_converter/xlsx_converter.py:31-41 | when each header of a table with distinct targets is first found at its own position, every target maps to that position |
| HeaderMapping.HeaderTextsMapping | common/base_converter/xlsx_converter.py:31-41 | a header row holding exactly a table's distinct headers, in table order, succeeds and maps each target to its own column |
| NormalizedXlsx.TypeMapping | common/base_converter/normalized_xlsx_converter.py:62-67 | the type is mapped exactly for the four German names, and each maps to a site type; anything else becomes None |
| NormalizedXlsx.ReadCells | common/base_converter/normalized_xlsx_converter.py:99-101 | reading the mapped cells fails only with the IndexError of a row too short |
| NormalizedXlsx.ReadCellsLoop | common/base_converter/normalized_xlsx_converter.py:99-101 | the reading loop as a method, equal to its specification |
| NormalizedXlsx.ReadCellsStopsAt | common/base_converter/normalized_xlsx_converter.py:100-101 | the first column beyond the row raises the IndexError |
| NormalizedXlsx.ReadCellsKeys | common/base_converter/normalized_xlsx_converter.py:100-101 | the raw dict has exactly the mapping's keys |
| NormalizedXlsx.ShapeRow | common/base_converter/normalized_xlsx_converter.py:103-111 | shaping a row fails exactly when its opening-time columns fail validation |
| NormalizedXlsx.ShapeRowLookup | common/base_converter/normalized_xlsx_converter.py:103-109 | the shaped dict: the update time is now, the type is mapped, the opening hours are the OSM string, other opening-time columns are dropped, every other field is the raw cell |
| NormalizedXlsx.MapRowToParkingSiteDict | common/base_converter/normalized_xlsx_converter.py:98-111 | `map_row_to_parking_site_dict` as a method: the cells read, then shaped |
| NormalizedXlsx.RowStep | common/base_converter/normalized_xlsx_converter.py:76-91 | a row whose first cell is empty is skipped; an accepted row satisfies the Excel site rules; the layout decides where opening times fail |
| NormalizedXlsx.ValidatedStep | common/base_converter/normalized_xlsx_converter.py:82-91 | a shaped dict is accepted exactly when the Excel validator accepts it, with the validated record |
| NormalizedXlsx.RowSteps | common/base_converter/normalized_xlsx_converter.py:76 | one step per row, in row order |
| NormalizedXlsx.HandleXlsxSpec | common/base_converter/normalized_xlsx_converter.py:69-96 | no header row or a missing header aborts the import; a completed import is ACTIVE with static lists only |
| NormalizedXlsx.HandleRow | common/base_converter/normalized_xlsx_converter.py:77-91 | the loop body as a method, equal to the corrected row step |
| NormalizedXlsx.HandleXlsx | common/base_converter/normalized_xlsx_converter.py:69-96 | `handle_xlsx` as a method with its row loop, equal to the corrected specification |
| NormalizedXlsx.RowCounts | common/base_converter/normalized_xlsx_converter.py:76-91 | every data row is accepted, rejected or skipped exactly once |
| NormalizedXlsx.BadOpeningTimeStep | common/base_converter/normalized_xlsx_converter.py:80-106 | a row with a bad opening time raises as written, and is only rejected when the validation sits inside the try |
| NormalizedXlsx.BadOpeningTimeAbortsFile | common/base_converter/normalized_xlsx_converter.py:80-106 | one bad opening time aborts the whole file as written; corrected, that row is rejected |
| NormalizedXlsx.NoIsSupervisedColumn | common/base_converter/normalized_xlsx_converter.py:32-60 | the header table has no column for `is_supervised` |
| NormalizedXlsx.MissingColumnAsBlank | common/base_converter/normalized_xlsx_converter.py:82-91 | a shaped row without `is_supervised` fares exactly as the same row with a blank `is_supervised` cell (also `common/validators/xlsx_validators.py:26`) |
| NormalizedXlsx.ShapedRowAccepted | common/base_converter/normalized_xlsx_converter.py:76-91 | under either layout, a read and shaped row of the sheet is accepted exactly when its cells with a blank `is_supervised` pass the Excel input, as that record |
| NormalizedXlsx.ShapedRowFlags | common/base_converter/normalized_xlsx_converter.py:32-60 | a shaped row has the lighting and fee columns and no `is_supervised` column |
| NormalizedXlsx.MappingFlags | common/base_converter/normalized_xlsx_converter.py:32-60 | the mapping of the header table has `has_lighting` and `has_fee` and no `is_supervised` |
| NormalizedXlsx.FlagHeaders | common/base_converter/normalized_xlsx_converter.py:45-46 | the header table has the lighting and fee columns |
| NormalizedXlsx.AcceptedRow | common/base_converter/normalized_xlsx_converter.py:76-91 | an accepted row had a first cell, could be read and shaped, and its shaped dict passes the Excel input |
| NormalizedXlsx.LongitudeColumnFillsLat | common/base_converter/normalized_xlsx_converter.py:37-38 | the "Längengrad" (longitude) column fills `lat` and the "Breitengrad" (latitude) column fills `lon` |
| NormalizedXlsx.ReadCellsOfPositions | common/base_converter/normalized_xlsx_converter.py:99-101 | reading a row long enough at the positions of a table with distinct targets succeeds, each target holding the cell of its own column |
| NormalizedXlsx.CellsLookup | common/base_converter/normalized_xlsx_converter.py:100-101 | in such a read row every target looks up the cell of its own column |
| BwParkAndDrive.MapRowToParkingSiteDict | v3/bw_p_d.py:70-79 | `map_row_to_parking_site_dict` as a method with its cell loop, equal to its specification |
| BwParkAndDrive.MapRowDerived | v3/bw_p_d.py:75-77 | the name becomes street, a space and name; the uid becomes `name_to_id` of the formatted uid and that new name; the update time is now |
| BwParkAndDrive.MapRowKeeps | v3/bw_p_d.py:71-73 | every other field is the raw cell |
| BwParkAndDrive.MappingHasDerivedColumns | v3/bw_p_d.py:31-39 | a successful header mapping has the street, name and uid columns the derivation reads |
| BwParkAndDrive.RowStep | v3/bw_p_d.py:48-63 | a row whose first cell is empty is skipped; an accepted row satisfies the Excel site rules |
| BwParkAndDrive.RowSteps | v3/bw_p_d.py:48 | one step per data row, in order |
| BwParkAndDrive.HandleXlsxSpec | v3/bw_p_d.py:41-68 | no header row aborts; a completed import belongs to "bw-p-d", is ACTIVE and has no realtime list |
| BwParkAndDrive.HandleRow | v3/bw_p_d.py:49-63 | the loop body as a method, equal to the row step |
| BwParkAndDrive.HandleXlsx | v3/bw_p_d.py:41-68 | `handle_xlsx` as a method with its row loop, equal to the specification |
| BwParkAndDrive.NoFlagHeader | v3/bw_p_d.py:31-39 | the header table has no column for `has_lighting`, `has_fee`, `is_supervised` or `has_realtime_data` |
| BwParkAndDrive.NoFlagColumn | v3/bw_p_d.py:31-43 | so the mapping has none of those keys |
| BwParkAndDrive.MappedRowLacksFlag | v3/bw_p_d.py:70-79 | a mapped row has none of the four flags |
| BwParkAndDrive.BlankFlagsFilled | common/validators/xlsx_validators.py:24-27 | a dict without the four flags is judged as the same dict with four blank flag cells |
| BwParkAndDrive.MappedRowAccepted | v3/bw_p_d.py:48-63 | a mapped row of the sheet is accepted exactly when its cells with blank flag cells pass the Excel input, as that record |
| Mannheim.ValidateItems | v3/mannheim_v2.py:17-45 | the payload is accepted exactly when it is a dict whose `items` is a list of dicts, giving that list; otherwise a validation error |
| Mannheim.ItemStep | v3/mannheim_v2.py:47-69 | every item is accepted or rejected as static; a realtime outcome exists exactly for an accepted static site with realtime data |
| Mannheim.StaticSteps | v3/mannheim_v2.py:47-58 | one static step per item, in order |
| Mannheim.RealtimeSteps | v3/mannheim_v2.py:59-69 | one realtime step per item, in order |
| Mannheim.HandleJsonSpec | v3/mannheim_v2.py:36-76 | an invalid payload raises `ImportSourceException` with "Invalid data"; a completed import is ACTIVE and belongs to "mannheim_v2" |
| Mannheim.StepsAbortTogether | v3/mannheim_v2.py:47-69 | the static and realtime passes raise on the same items |
| Mannheim.HandleJson | v3/mannheim_v2.py:36-76 | `handle_json` as a method with its item loop, equal to its specification |
| Mannheim.ItemCounts | v3/mannheim_v2.py:47-69 | static inputs and errors number the items; realtime inputs and errors number the accepted sites flagged with realtime data |
| Mannheim.NoFlagNoRealtime | v3/mannheim_v2.py:59-60 | a valid site without realtime data is accepted and skipped for realtime |
| Mannheim.RejectedStaticNoRealtime | v3/mannheim_v2.py:51-58 | a site rejected as static is never validated for realtime |
| SampleRows.NormalizedRowAccepted | common/base_converter/normalized_xlsx_converter.py:69-91 | under either layout, a concrete well-filled row (ID "1", name "P", type "Parkhaus", a position, every other cell empty) under a header row holding exactly the sheet's headers is accepted as a car park with uid "1", name "P" and no realtime data, though the sheet has no `is_supervised` column |
| SampleRows.BwRowAccepted | v3/bw_p_d.py:41-79 | a concrete row of the "Park und Mitfahren" sheet (number "a", name "c", street "b", a position) under its exact header row is accepted with name "b c" and uid "a-b-c", though the sheet has none of the four flag columns |
| Stuttgart.FirstMatch | v3/stuttgart.py:103-115 | the sub-capacity table gives a field exactly for a listed (key, value) pair, and the field listed for it |
| Stuttgart.CapacityTableReadings | v3/stuttgart.py:103-108 | disabled, families, women and battery map to the disabled, family, woman and charging capacities |
| Stuttgart.OtherKeysUnmatched | v3/stuttgart.py:103-113 | any other description key matches nothing |
| Stuttgart.CapacityFieldOfTable | v3/stuttgart.py:103-108 | every field of the table is a capacity field |
| Stuttgart.ApplyEntries | v3/stuttgart.py:111-115 | the description loop changes only capacity fields, and fails only with an exception that is not caught |
| Stuttgart.MatchedEntryStoresCount | v3/stuttgart.py:112-115 | a matched description stores the number of assigned spaces under its capacity field |
| Stuttgart.ApplySub | v3/stuttgart.py:110-115 | one sub-capacity changes only capacity fields |
| Stuttgart.ApplySubs | v3/stuttgart.py:110-115 | all sub-capacities change only capacity fields |
| Stuttgart.FillSubCapacities | v3/stuttgart.py:110-115 | the nested loops as a method, equal to their specification |
| Stuttgart.MaxHeight | v3/stuttgart.py:97-100 | the height step changes only `max_height` |
| Stuttgart.BaseFields | v3/stuttgart.py:83-89 | the static dict starts with realtime data true, the converted capacity and the item's id as uid |
| Stuttgart.Coordinates | v3/stuttgart.py:92-93 | the projection fails only with an exception that is not caught |
| Stuttgart.PositionedFields | v3/stuttgart.py:94-95 | latitude is the second projected coordinate and longitude the first |
| Stuttgart.Extras | v3/stuttgart.py:97-115 | the height and sub-capacity steps leave every other field alone |
| Stuttgart.ExtrasKeepPosition | v3/stuttgart.py:97-115 | they keep the realtime flag and the position |
| Stuttgart.StaticDict | v3/stuttgart.py:82-115 | a built static dict has realtime data true and the projected coordinates; a non-dict item raises |
| Stuttgart.HandleStaticItem | v3/stuttgart.py:82-119 | `_handle_static_item` as a method, equal to its specification |
| Stuttgart.StaticInput | v3/stuttgart.py:119 | an accepted static item satisfies the base site rules |
| Stuttgart.AcceptedStaticFacts | v3/stuttgart.py:86-95 | an accepted static item has realtime data and the projected coordinates |
| Stuttgart.StaticStep | v3/stuttgart.py:45-54 | no static item is skipped |
| Stuttgart.StaticSteps | v3/stuttgart.py:45 | one step per static item, in order |
| Stuttgart.StaticBranch | v3/stuttgart.py:40-59 | the static branch returns static lists only, and its inputs and errors number the items |
| Stuttgart.HandleStatic | v3/stuttgart.py:43-59 | the static loop as a method, equal to its specification |
| Stuttgart.StatusChoice | v3/stuttgart.py:128-132 | "open" in the status list wins over "closed"; neither gives no status |
| Stuttgart.RealtimeFields | v3/stuttgart.py:122-132 | the realtime dict holds the reference id, the vacant spaces as `realtime_capacity`, and the status text when there is one |
| Stuttgart.RealtimeDict | v3/stuttgart.py:121-132 | a built realtime dict comes from a dict item whose vacant count converts, made of those fields |
| Stuttgart.VacantSpacesAreCapacity | v3/stuttgart.py:124 | the realtime capacity of an accepted item is its vacant count, 0 when absent |
| Stuttgart.RealtimeInput | v3/stuttgart.py:134 | an accepted realtime item satisfies the realtime rules |
| Stuttgart.LowercaseNotParsed | v3/stuttgart.py:130-132 | the lower-case status texts name no opening status (also `common/validators/base_validators.py:51-54`) |
| Stuttgart.LowercaseStatusRejected | v3/stuttgart.py:128-134 | as written, every item with an open or closed status is rejected |
| Stuttgart.CorrectedStatusKept | v3/stuttgart.py:128-134 | with upper-case texts the accepted status is the one chosen, UNKNOWN when none |
| Stuttgart.RealtimeStep | v3/stuttgart.py:66-75 | no realtime item is skipped |
| Stuttgart.RealtimeSteps | v3/stuttgart.py:66 | one step per realtime item, in order |
| Stuttgart.RealtimeBranch | v3/stuttgart.py:61-80 | the realtime branch returns realtime lists only, and its inputs and errors number the items |
| Stuttgart.HandleRealtime | v3/stuttgart.py:63-80 | the realtime loop as a method, equal to its specification |
| Stuttgart.HandleData | v3/stuttgart.py:39-80 | a static publication gives static lists, otherwise a status publication gives realtime lists, otherwise nothing is returned |
| Stuttgart.HandleXml | v3/stuttgart.py:28-80 | `handle_xml` as a method, equal to the corrected specification |
| Stuttgart.AsWrittenListKeysInert | v3/stuttgart.py:37 | the bare-string `ensure_array_keys` change nothing |
| Stuttgart.SingleFacilityShape | v3/stuttgart.py:37-41 | a single facility is a dict as written and a one-element list when corrected |
| Stuttgart.SingleFacilityAborts | v3/stuttgart.py:41-47 | as written, a feed with one facility iterates over its keys and aborts |
| CsvRows.RowStep | v3/neckarsulm.py:89-103 | a row that cannot be read raises; otherwise the row handler decides |
| CsvRows.RowSteps | v3/neckarsulm.py:89 | one step per data row, in order |
| CsvRows.HandleCsvSpec | v3/neckarsulm.py:80-125 | no header row raises; an undeclared header column raises `ImportSourceException`; a completed import has static lists only (also `common/base_converter/csv_converter.py:21-31`) |
| CsvRows.HandleCsv | v3/neckarsulm.py:80-125 | `handle_csv` as a method with its row loop, equal to its specification |
| CsvRows.RowCounts | v3/neckarsulm.py:89-123 | inputs and errors number the data rows |
| CsvRows.RecordFromRow | v3/neckarsulm.py:105-123 | every input comes from a data row the handler accepted |
| CsvRows.ErrorFromRow | v3/neckarsulm.py:94-103 | every error comes from a data row the handler rejected |
| CsvRows.NoRecordsWithoutAccept | v3/neckarsulm.py:89-123 | a handler that never accepts leaves the input list empty |
| Reutlingen.ReutlingenTypeRoundTrip | v3/reutlingen.py:33-64 | every Reutlingen type is parsed back from its own value |
| Reutlingen.ParseReutlingenType | v3/reutlingen.py:33-64 | a parsed type is the one whose value was given |
| Reutlingen.ToParkingSiteType | v3/reutlingen.py:39-44 | parkhaus, tiefgarage and parkfläche map to CAR_PARK, UNDERGROUND and OFF_STREET_PARKING_GROUND, and only p+r maps to OTHER |
| Reutlingen.DigitRun | v3/reutlingen.py:48 | `\d+` takes the longest run of digits |
| Reutlingen.UnsignedPrefix | v3/reutlingen.py:48 | an unsigned `\d+\.\d+` match consumes a non-empty prefix and has at least one fractional digit |
| Reutlingen.NumberPrefix | v3/reutlingen.py:48 | a signed number match consumes a non-empty prefix and has at least one fractional digit |
| Reutlingen.NumberPrefixOf | v3/reutlingen.py:48 | the spelling of a decimal with a fractional part, followed by a non-digit, matches as that decimal |
| Reutlingen.MatchPoint | v3/reutlingen.py:48-52 | `re.match` succeeds only on text starting with "POINT (" |
| Reutlingen.MatchPointSteps | v3/reutlingen.py:48-52 | "POINT (", a number, a space, a number and ")" match as those two numbers |
| Reutlingen.PointRoundTrip | v3/reutlingen.py:48-58 | a point written from two decimals with fractional parts is read back as those decimals, whatever follows |
| Reutlingen.IntegerPointRejected | v3/reutlingen.py:48 | an integer coordinate without a decimal point is not matched |
| Reutlingen.IntegerNoNumber | v3/reutlingen.py:48 | an integer followed by a space is no number of the pattern |
| Reutlingen.ValidatePoint | v3/reutlingen.py:47-58 | accepted exactly for a str the pattern matches, giving its two numbers; a non-str is `invalid_type` and an unmatched str `invalid_tuple_input` |
| Reutlingen.CapacityCell | v3/reutlingen.py:66 | a blank capacity cell is None, any other goes through the integer validator that allows strings |
| Reutlingen.ValidateRow | v3/reutlingen.py:61-67 | an accepted row has the matched coordinates, the validated capacity, a name of at most 255 characters and a known type; failures are validation errors |
| Reutlingen.SiteOf | v3/reutlingen.py:109-118 | latitude is the second coordinate and longitude the first; the address is the name and ", Reutlingen"; the type is mapped; only the total capacity is set; the uid is the decimal text of the number; no realtime data; updated now |
| Reutlingen.RowStep | v3/reutlingen.py:98-119 | a row that fails validation is rejected with its uid; a valid row is accepted exactly when its position is not the zero point, as the site built from it |
| Reutlingen.HandlerNeverSkips | v3/reutlingen.py:93-119 | no row is skipped |
| Reutlingen.HandleCsv | v3/reutlingen.py:84-121 | `handle_csv` as a method, equal to its specification |
| Reutlingen.ConvertedRows | v3/reutlingen.py:93-121 | inputs and errors number the data rows, and every input has no realtime data and was updated now |
| Reutlingen.AcceptedRowPosition | v3/reutlingen.py:48-114 | a row with a well-formed point is accepted with latitude the second and longitude the first number, and the Reutlingen address |
| Reutlingen.BlankCapacityUnset | v3/reutlingen.py:66 | a capacity of "-" leaves the capacity unset |
| Reutlingen.ZeroPointAborts | v3/reutlingen.py:109-118 | a valid row at the zero point raises `lat_lon_zero` outside the try and aborts the import (also `common/validators/base_validators.py:102-104`) |
| Neckarsulm.Coordinate | v3/neckarsulm.py:27-28 | an accepted coordinate is the decimal validated within its bounds |
| Neckarsulm.Naming | v3/neckarsulm.py:24-26 | uid, name and type validated, the type as given |
| Neckarsulm.Address | v3/neckarsulm.py:29-31 | street, postcode and city validated; failures are validation errors |
| Neckarsulm.ValidatePlace | v3/neckarsulm.py:24-31 | an accepted place has latitude in [40, 60] and longitude in [7, 10] as validated decimals, and its type as given |
| Neckarsulm.Capacities | v3/neckarsulm.py:33-37 | the five capacities validated, the total from `capacity` |
| Neckarsulm.Terms | v3/neckarsulm.py:38-40 | the fee flag by the extended boolean validator, the opening hours as given, and the maximum height |
| Neckarsulm.ValidateFacilities | v3/neckarsulm.py:33-40 | accepted facilities carry the validated capacity and fee flag and the opening hours as given |
| Neckarsulm.ValidateRow | v3/neckarsulm.py:22-40 | a row is accepted exactly when place and facilities are, made of both; failures are validation errors |
| Neckarsulm.TypeMapping | v3/neckarsulm.py:71-78 | the type is mapped exactly for the five listed names; only Parkhaus is CAR_PARK, only Tiefgarage UNDERGROUND, the rest OFF_STREET_PARKING_GROUND |
| Neckarsulm.SiteOf | v3/neckarsulm.py:105-122 | the site carries the row's uid, position, mapped type, joined address, the five capacities and fee flag; opening hours are "24/7" exactly for "00:00-24:00" |
| Neckarsulm.OpeningHoursOnlyAllDay | v3/neckarsulm.py:118 | only the all-day text sets opening hours, any other text leaves them unset |
| Neckarsulm.RowStep | v3/neckarsulm.py:94-123 | an invalid row is rejected with the `id` entry as uid; a valid row is passed to the site constructor, whose exception aborts the import |
| Neckarsulm.BoundedLatNotZero | v3/neckarsulm.py:27 | a latitude in [40, 60] is never zero, so the zero-point check never fires |
| Neckarsulm.ValidRowAccepted | v3/neckarsulm.py:105-123 | corrected, every valid row is accepted as the site built from it |
| Neckarsulm.ValidRowAbortsAsWritten | v3/neckarsulm.py:120 | as written, every valid row raises TypeError for the unknown `max_height` keyword (also `common/validators/base_validators.py:64-100`) |
| Neckarsulm.AsWrittenNoRecords | v3/neckarsulm.py:105-123 | as written, an import that completes holds no inputs |
| Neckarsulm.NoIdField | v3/neckarsulm.py:52-69 | no header maps to a field named `id` |
| Neckarsulm.RowErrorUid | v3/neckarsulm.py:97-102 | a row error carries the row's `id` entry |
| Neckarsulm.ErrorsHaveNoUid | v3/neckarsulm.py:97-102 | so every row error carries None as uid |
| Neckarsulm.HandleCsv | v3/neckarsulm.py:80-125 | `handle_csv` as a method, equal to the corrected specification |
| Neckarsulm.ConvertedRows | v3/neckarsulm.py:89-123 | corrected, inputs and errors number the data rows |
| Pforzheim.Coordinate | v3/pforzheim.py:98-99 | a coordinate is read exactly when the location cell decodes to a dict whose `coordinates` has that index, as the str of that entry |
| Pforzheim.Located | v3/pforzheim.py:98-99 | `lat` is the second and `lon` the first coordinate, every other entry unchanged; the decode or index failure escapes |
| Pforzheim.PointCoordinates | v3/pforzheim.py:98-99 | a GeoJSON point [x, y] gives `lat` y and `lon` x |
| Pforzheim.ShortPointAborts | v3/pforzheim.py:98-99 | a point with one coordinate raises IndexError outside the try and aborts the import |
| Pforzheim.ValidateIdentity | v3/pforzheim.py:29-34 | an accepted identity has latitude in [40, 60] and longitude in [7, 10] as validated decimals |
| Pforzheim.ValidateDetails | v3/pforzheim.py:35-43 | accepted details carry the fee description, opening hours and type as given |
| Pforzheim.ValidateRow | v3/pforzheim.py:27-43 | a row is accepted exactly when identity and details are, made of both |
| Pforzheim.TypeMapping | v3/pforzheim.py:72-77 | the type is mapped exactly for the four listed names |
| Pforzheim.SiteType | v3/pforzheim.py:115 | any type containing "onStreet" is ON_STREET, otherwise the table decides |
| Pforzheim.SiteOf | v3/pforzheim.py:112-127 | the site carries uid, name, position, type, the address with newlines as spaces, the description, a fee flag set exactly for a non-empty fee description, no capacities |
| Pforzheim.RecordText | v3/pforzheim.py:118-123 | the address holds no newline, and the fee flag says whether the fee description is non-empty |
| Pforzheim.RowStep | v3/pforzheim.py:94-128 | a location failure aborts; an invalid row is rejected; a valid row is accepted as the site built from it |
| Pforzheim.AcceptedPosition | v3/pforzheim.py:98-117 | a valid row with point [x, y] is accepted with latitude y and longitude x |
| Pforzheim.NoIdField | v3/pforzheim.py:55-70 | no header maps to a field named `id` |
| Pforzheim.RowErrorUid | v3/pforzheim.py:104-109 | a row error carries the row's `id` entry |
| Pforzheim.ErrorsHaveNoUid | v3/pforzheim.py:104-109 | so every row error carries None as uid |
| Pforzheim.HandleCsv | v3/pforzheim.py:82-130 | `handle_csv` as a method, equal to the corrected specification |
| Pforzheim.ConvertedRows | v3/pforzheim.py:93-128 | inputs and errors number the data rows |
| Pforzheim.AsWrittenMissesAllDay | v3/pforzheim.py:125 | as written, the correctly spelled "durchgehend geöffnet" never becomes "24/7" |
| Pforzheim.CorrectedAllDay | v3/pforzheim.py:125 | corrected, opening hours are "24/7" exactly for "durchgehend geöffnet" |
| PbwValidation.ParsePbwParkingSiteType | v3/pbw/validation.py:28-34 | a string is accepted as a long site type only if it is that member's value |
| PbwValidation.PbwParkingSiteTypeRoundTrip | v3/pbw/validation.py:28-34 | every long site type is parsed back from its value |
| PbwValidation.ToParkingSiteType | v3/pbw/validation.py:36-45 | Parkplatz and Parkbereich map to on-street, Parkhaus to car park, Parkgarage to underground, Parkierungsareal and Gesamtareal to off-street ground (each an iff); the OTHER fallback is never reached |
| PbwValidation.ParsePbwParkingSiteShortType | v3/pbw/validation.py:48-52 | a short type is accepted exactly for PP, PG, PH and PA |
| PbwValidation.Id | v3/pbw/validation.py:57-64 | an accepted id (integer or integer string) lies in the 32-bit signed range |
| PbwValidation.Count | v3/pbw/validation.py:95-99 | an accepted count lies in 0 .. 2^31-1 |
| PbwValidation.ValidateCity | v3/pbw/validation.py:55-59 | an accepted city carries the input's name string; every failure is a validation error |
| PbwValidation.ValidateSite | v3/pbw/validation.py:62-66 | an accepted site's id is the validated `id` field; every failure is a validation error |
| PbwValidation.ValidateObject | v3/pbw/validation.py:69-77 | an accepted object has a name of 1 to 256 characters, the `art_lang` value of its long type and the input's street, postcode and town |
| PbwValidation.ValidatePosition | v3/pbw/validation.py:87-90 | accepted longitude and latitude are the numeric readings of the two fields |
| PbwValidation.ValidatePlaces | v3/pbw/validation.py:93-99 | accepted places are the five input integers, each non-negative; five in-range integers are always accepted |
| PbwValidation.ValidateType | v3/pbw/validation.py:102-106 | accepted exactly when the three flags are present booleans, and then holds their values |
| PbwValidation.ValidateAmenities | v3/pbw/validation.py:111-118 | the first seven setup flags of an accepted setup are the input booleans |
| PbwValidation.ValidateServices | v3/pbw/validation.py:119-125 | the next six setup flags of an accepted setup are the input booleans |
| PbwValidation.ValidateDimensions | v3/pbw/validation.py:126-129 | the entrance height key must be present; an absent height in the result means the input held None |
| PbwValidation.ValidateSetup | v3/pbw/validation.py:110-129 | the setup is accepted exactly when its three blocks are |
| PbwValidation.ObjectField | v3/pbw/validation.py:259 | an accepted `objekt` is the nested object validation of that key, with its name bounds |
| PbwValidation.PositionField | v3/pbw/validation.py:261 | an accepted `position` is the nested position validation of that key |
| PbwValidation.PlacesField | v3/pbw/validation.py:262 | an accepted `stellplaetze` is the nested places validation of that key, with non-negative counts |
| PbwValidation.TypeField | v3/pbw/validation.py:263 | an accepted `typ` is the nested type validation of that key |
| PbwValidation.SetupField | v3/pbw/validation.py:264 | an accepted `ausstattung` is the nested setup validation of that key |
| PbwValidation.ValidateDetail | v3/pbw/validation.py:254-274 | an accepted detail holds exactly the object, position and places that their field validators give, with their bounds; the commented-out blocks are not read |
| PbwValidation.ValidateDynamic | v3/pbw/validation.py:81-84 | both counts are optional, default to None and are non-negative when present; a present short-stay count is the input integer |
| PbwValidation.ValidateRealtimeInput | v3/pbw/validation.py:277-280 | an accepted realtime record has a 32-bit id and a valid optional free count |
| PbwMapper.SiteOf | v3/pbw/mapper.py:14-38 | the site takes the object's name, the address "street, postcode town", a mapped type that is never OTHER, realtime true, the import time, the position and the five capacities; no opening hours, fee or supervision |
| PbwMapper.StaticUid | v3/pbw/mapper.py:17 | the uid is the decimal text of the detail id |
| PbwMapper.MapStatic | v3/pbw/mapper.py:14-38 | as written the `max_height` keyword makes the constructor raise TypeError for every detail; corrected, a site is produced exactly when the position is not (0, 0), the one case the site constructor refuses |
| PbwMapper.MapRealtime | v3/pbw/mapper.py:40-45 | the realtime record carries the import time, unknown status and the short-stay free count as its only free capacity |
| PbwMapper.RealtimeUid | v3/pbw/mapper.py:42 | the realtime uid is the decimal text of the record id |
| PbwMapper.MappedRealtimeValid | v3/pbw/mapper.py:40-45 | a validated realtime record always maps to a valid realtime input |
| PbwConverter.RemoteItems | v3/pbw/converter.py:110-117 | the body must be an object of objects; each item is the entry's object with `id` set to its key, in key order |
| PbwConverter.GetRemoteData | v3/pbw/converter.py:101-117 | the fetched body is turned into items as RemoteItems states |
| PbwConverter.RemoteItemIds | v3/pbw/converter.py:113-115 | an item's `id` is its key and every other field is unchanged |
| PbwConverter.DetailSteps | v3/pbw/converter.py:63-79 | one step per detail dict of a city |
| PbwConverter.DetailStepsAt | v3/pbw/converter.py:63-79 | the j-th detail step is the step for the j-th detail dict |
| PbwConverter.CityStepsCases | v3/pbw/converter.py:49-79 | an invalid city gives one error keyed by the city dict's `id`; a valid one fetches its objects, whose failure escapes, and steps through them |
| PbwConverter.AllCitySteps | v3/pbw/converter.py:49-79 | one step list per city, in order |
| PbwConverter.GetStaticSpec | v3/pbw/converter.py:42-81 | a completed static import fills only the static inputs and errors |
| PbwConverter.DetailNext | v3/pbw/converter.py:63-79 | one detail iteration appends exactly what its step says |
| PbwConverter.GatherDetails | v3/pbw/converter.py:63-79 | the detail loop's result equals gathering its steps |
| PbwConverter.GetStaticParkingSites | v3/pbw/converter.py:42-81 | the static import equals its specification with the mapper corrected |
| PbwConverter.RealtimeSteps | v3/pbw/converter.py:95-97 | one step per realtime dict of a site |
| PbwConverter.RealtimeStepsAt | v3/pbw/converter.py:95-97 | the j-th realtime step is the step for the j-th dict |
| PbwConverter.SiteStepsCases | v3/pbw/converter.py:90-97 | an invalid site dict aborts the import (no try); a valid one fetches its dynamic records and validates each, any failure aborting |
| PbwConverter.AllSiteSteps | v3/pbw/converter.py:90-97 | one step list per site, in order |
| PbwConverter.GetRealtimeSpec | v3/pbw/converter.py:83-99 | a completed realtime import fills only the realtime inputs and errors |
| PbwConverter.RealtimeNext | v3/pbw/converter.py:95-97 | one realtime iteration appends exactly what its step says |
| PbwConverter.GatherRealtime | v3/pbw/converter.py:95-97 | the realtime loop's result equals gathering its steps |
| PbwConverter.GetRealtimeParkingSites | v3/pbw/converter.py:83-99 | the realtime import equals its specification |
| PbwConverter.DetailStepsMember | v3/pbw/converter.py:63-79 | every detail step comes from some detail dict |
| PbwConverter.RealtimeStepsMember | v3/pbw/converter.py:95-97 | every realtime step comes from some realtime dict |
| PbwConverter.DetailOutcome | v3/pbw/converter.py:64-79 | an invalid detail is recorded under the city's id as text; a valid one off (0, 0) is mapped and kept |
| PbwConverter.CityErrorCarriesKey | v3/pbw/converter.py:113-115 | a city error's uid is the key under which the city came in the catalog |
| PbwConverter.AsWrittenDetailNeverAccepted | v3/pbw/converter.py:77-79 | as written no detail step ever accepts a site (also `v3/pbw/mapper.py:24-26`) |
| PbwConverter.CityStepKinds | v3/pbw/converter.py:49-79 | city steps never skip, and as written never accept |
| PbwConverter.DetailStepKinds | v3/pbw/converter.py:63-79 | detail steps never skip, and as written never accept |
| PbwConverter.SiteStepKinds | v3/pbw/converter.py:90-97 | every realtime step that does not abort accepts |
| PbwConverter.AsWrittenNoStaticRecords | v3/pbw/converter.py:42-81 | as written a completed static import holds no site |
| PbwConverter.StaticCounts | v3/pbw/converter.py:42-81 | inputs plus errors number exactly the non-aborting steps over all cities |
| PbwConverter.RealtimeNoErrors | v3/pbw/converter.py:83-99 | a completed realtime import has an empty error list and one input per step |
| PbwConverter.RealtimeSitesValid | v3/pbw/converter.py:90-91 | a completed realtime import means every catalog site validated |
| BahnValidators.ParseNameContext | v3/bahn_v2/validators.py:27-31 | a name context is parsed exactly from its value, and every value parses back to its member |
| BahnValidators.ParseCapacityType | v3/bahn_v2/validators.py:34-36 | a capacity type is parsed exactly from its value, and every value parses back to its member |
| BahnValidators.ParseBahnParkingSiteType | v3/bahn_v2/validators.py:39-44 | a site type is parsed exactly from its value (including "Straße"), and every value parses back to its member |
| BahnValidators.ToParkingSiteType | v3/bahn_v2/validators.py:46-54 | Parkplatz and Straße map to on-street, Parkhaus and Parkdeck to car park, Tiefgarage to underground (each an iff); neither OTHER nor off-street ground is produced |
| BahnValidators.ListItems | v3/bahn_v2/validators.py:124-129 | a list is accepted exactly when every item is, keeping length and order; a refusal is some item's refusal |
| BahnValidators.ValidateList | v3/bahn_v2/validators.py:124-129 | a non-list is refused as the wrong type; a list is validated item by item |
| BahnValidators.ValidateUrl | v3/bahn_v2/validators.py:125 | accepted exactly for a string that has the URL shape, unchanged |
| BahnValidators.Total | v3/bahn_v2/validators.py:94 | an accepted total is in 0 .. 2^31-1; an in-range integer is kept; a negative one is refused |
| BahnValidators.ValidateName | v3/bahn_v2/validators.py:57-60 | an accepted name entry carries the input's name string and the context whose value the input gave |
| BahnValidators.ValidateType | v3/bahn_v2/validators.py:63-67 | an accepted type carries the site type whose value the input's `name` gave |
| BahnValidators.ValidateOperator | v3/bahn_v2/validators.py:70-73 | an accepted operator carries the input's name; the commented-out url is not read |
| BahnValidators.ValidateLocation | v3/bahn_v2/validators.py:76-79 | accepted exactly when both coordinates are numeric, with the latitude read from its field |
| BahnValidators.ValidateAddress | v3/bahn_v2/validators.py:82-88 | `phone` is a required key that may hold None, absent in the result exactly then; zip and city are the input strings |
| BahnValidators.ValidateCapacity | v3/bahn_v2/validators.py:91-94 | an accepted capacity has a total in 0 .. 2^31-1 and the type named by the input; a negative total is refused |
| BahnValidators.ValidateOpeningHours | v3/bahn_v2/validators.py:97-100 | `text` defaults to None when absent but an explicit None is refused; `is24h` is the input boolean |
| BahnValidators.ClearanceField | v3/bahn_v2/validators.py:105-106 | an absent or None measure is None; a present one came from a decimal string |
| BahnValidators.ValidateClearance | v3/bahn_v2/validators.py:103-106 | absent or None height and width give None |
| BahnValidators.ValidateRestriction | v3/bahn_v2/validators.py:109-111 | an accepted restriction holds the nested clearance validation of `clearance` |
| BahnValidators.ValidateAccess | v3/bahn_v2/validators.py:114-117 | an access is accepted exactly when `openingHours` and `restrictions` are present and validate as nested objects, and holds their validated values; every failure a validation error |
| BahnValidators.IdField | v3/bahn_v2/validators.py:123 | an accepted id lies in the 32-bit signed range |
| BahnValidators.NamesField | v3/bahn_v2/validators.py:124 | accepted names are a list with one entry per input item |
| BahnValidators.UrlField | v3/bahn_v2/validators.py:125 | the accepted url is the input string and has the URL shape |
| BahnValidators.TypeField | v3/bahn_v2/validators.py:126 | an accepted `type` is the nested type validation of that key |
| BahnValidators.OperatorField | v3/bahn_v2/validators.py:127 | an accepted `operator` is the nested operator validation of that key |
| BahnValidators.AddressField | v3/bahn_v2/validators.py:128 | an accepted `address` is the nested address validation of that key |
| BahnValidators.CapacitiesField | v3/bahn_v2/validators.py:129 | accepted capacities are one per input item, each total in range |
| BahnValidators.PrognosisField | v3/bahn_v2/validators.py:130 | `hasPrognosis` is the input boolean |
| BahnValidators.AccessField | v3/bahn_v2/validators.py:131 | an accepted `access` is the nested access validation of that key |
| BahnValidators.ValidateBahnParkingSite | v3/bahn_v2/validators.py:121-132 | a site is accepted exactly when each of its nine fields (id, name, url, type, operator, address, capacity, hasPrognosis, access) passes its own validator, and every field of the result is that validator's value; hence a 32-bit id, a URL, in-range capacity totals and the input's prognosis flag |
| BahnValidators.CapacityTotalFromString | v3/bahn_v2/validators.py:91-94 | a capacity whose total is given as a decimal string is accepted with that number |
| BahnValidators.EnumRoundTrips | v3/bahn_v2/validators.py:27-44 | the enum validator accepts each member's value and returns that member, for all three enums |
| BahnMapper.FirstNameIsFirst | v3/bahn_v2/mapper.py:17 | the name is absent exactly when no entry has context NAME, else it is the first such entry's name |
| BahnMapper.LastTotalIsLast | v3/bahn_v2/mapper.py:31-35 | a count is set exactly when an entry of that type exists, and then to the last such entry's total |
| BahnMapper.Initial | v3/bahn_v2/mapper.py:15-27 | the constructed record has no counts yet and no opening hours |
| BahnMapper.MapStatic | v3/bahn_v2/mapper.py:14-37 | no NAME entry raises StopIteration; otherwise a record exactly when the location is not (0, 0), with the first NAME, position, operator, url, address, a type other than OTHER, no realtime, the import time, "24/7" exactly when is24h, and the last PARKING and HANDICAPPED_PARKING totals |
| BahnMapper.MapStaticParkingSite | v3/bahn_v2/mapper.py:14-37 | the step-by-step mapper equals MapStatic, and reports the raw capacity list it leaves when no PARKING entry exists |
| BahnMapper.MappedCapacities | v3/bahn_v2/mapper.py:22-35 | the capacity stays the raw list exactly when no PARKING entry exists; a set count is the last entry of its type |
| BahnMapper.MappedName | v3/bahn_v2/mapper.py:16-17 | the uid reads back as the id and the name is the first entry in NAME context |
| BahnMapper.MappedCountsValid | v3/bahn_v2/mapper.py:31-35 | counts taken from validated totals are in range |
| BahnConverter.Chars | v3/bahn_v2/converter.py:50 | iterating a string yields its characters as one-character strings |
| BahnConverter.Keys | v3/bahn_v2/converter.py:50 | iterating a dict yields its keys in order |
| BahnConverter.EmbeddedItems | v3/bahn_v2/converter.py:48-50 | a non-dict body has no `get`; a missing `_embedded` gives no items; a list gives its items, a dict its keys, a string its characters, anything else is not iterable |
| BahnConverter.ItemStep | v3/bahn_v2/converter.py:50-64 | a non-dict item aborts; a refused item gives an error keyed by its `id`; a valid item is mapped, a mapping failure aborting |
| BahnConverter.ItemSteps | v3/bahn_v2/converter.py:50-64 | one step per item |
| BahnConverter.ItemStepsAt | v3/bahn_v2/converter.py:50-64 | the j-th step is the step for the j-th item |
| BahnConverter.GetStaticSpec | v3/bahn_v2/converter.py:43-65 | an unusable body aborts; a completed import is an active bahn_v2 result with only static inputs and errors |
| BahnConverter.ItemNext | v3/bahn_v2/converter.py:50-64 | one loop iteration appends exactly what its step says, or the abort ends the import |
| BahnConverter.GatherItems | v3/bahn_v2/converter.py:50-64 | the loop's result equals gathering the item steps |
| BahnConverter.GetStaticParkingSites | v3/bahn_v2/converter.py:43-65 | the import equals its specification |
| BahnConverter.GetRealtimeParkingSites | v3/bahn_v2/converter.py:67-68 | the realtime import is an active bahn_v2 result with no lists at all |
| BahnConverter.NoEmbeddedNoSites | v3/bahn_v2/converter.py:50 | a body without `_embedded` gives empty static lists |
| BahnConverter.StaticCounts | v3/bahn_v2/converter.py:43-65 | inputs plus errors number exactly the embedded items |
| BahnConverter.ItemCounts | v3/bahn_v2/converter.py:50-64 | a completed loop yields one input or one error per item |
| BahnConverter.ErrorsFromRefusedItems | v3/bahn_v2/converter.py:51-60 | every error comes from an embedded item the validator refused, keyed by its `id` |
| BahnConverter.RefusedItem | v3/bahn_v2/converter.py:51-60 | every gathered error comes from a refused item |
| BahnConverter.RecordsFromMappedItems | v3/bahn_v2/converter.py:62-64 | every record is the mapping of an embedded item that validated |
| BahnConverter.MappedItem | v3/bahn_v2/converter.py:62-64 | every gathered record is the mapping of a validated item |
| BahnConverter.NoRealtimeClaimed | v3/bahn_v2/converter.py:62-64 | no imported record claims realtime data, and each has a type other than OTHER (also `v3/bahn_v2/mapper.py:23-24`) |
| Zuerich.ParseSummary | original/zuerich.py:48-60 | the summary fails with an index error exactly when it has no '/'; the status is always a LotData status key |
| Zuerich.SummaryPieces | original/zuerich.py:50-59 | the status is the stripped text before the first '/' when it is a status key, else "unknown"; the count is the integer reading of the text between the first and second '/' |
| Zuerich.SummaryOf | original/zuerich.py:50-59 | for a "head/count" summary, status and count are read from the two parts |
| Zuerich.StatusKeyPlain | original/zuerich.py:53 | every status key is a plain word with no '/' or surrounding space |
| Zuerich.PaddedStatus | original/zuerich.py:52 | trailing white space after a status is stripped away |
| Zuerich.StatusIsKey | original/zuerich.py:53 | every LotData status passes the `vars(LotData.Status)` test |
| Zuerich.ClassKeyIsNoStatus | original/zuerich.py:53 | the class's own attribute names also pass that test, though they are not statuses |
| Zuerich.SummaryOfStatus | original/zuerich.py:50-59 | a head that strips to a status key gives that status |
| Zuerich.SummaryRoundTrip | original/zuerich.py:48-60 | a status, padding, '/', padding and an integer parse back to that status and integer |
| Zuerich.PaddedCount | original/zuerich.py:57 | leading white space before the integer is accepted by int() |
| Zuerich.PaddedKey | original/zuerich.py:52-53 | a status key followed by white space strips back to the key |
| Zuerich.DashIsNoCount | original/zuerich.py:56-59 | "-" is not an integer |
| Zuerich.SummaryCountNotInteger | original/zuerich.py:56-59 | a count part that is not an integer gives num_free None with the status kept |
| Zuerich.SummaryAcceptsClassKeys | original/zuerich.py:53 | a class attribute name such as `__module__` passes as the status, and the LotData built from it is then refused (also `util/structs.py:150-155`) |
| Zuerich.ParseTitle | original/zuerich.py:63-71 | a title without " / " fails to unpack; an accepted title is exactly "name / address" with neither part containing " / ", and the type is the guess from the name or "unknown" |
| Zuerich.TitleRoundTrip | original/zuerich.py:68 | "name / address" gives back name and address |
| Zuerich.TitleWithThreeParts | original/zuerich.py:68 | a title with three " / "-separated parts fails to unpack |
| Basel.ParseSummary | original/basel.py:48-67 | fails with an index error exactly when the summary has no ':'; the status is open or nodata, and open always comes with a count |
| Basel.SummaryOf | original/basel.py:53-65 | a non-integer count gives nodata and None; an integer count is kept, with nodata exactly when the stripped label holds '?' |
| Basel.SummaryRoundTrip | original/basel.py:53-65 | a label without '?', ':', padding and an integer give open with that integer |
| Basel.PaddedCount | original/basel.py:63 | leading white space before the integer is accepted by int() |
| Basel.QuestionMarkKeepsCount | original/basel.py:58-63 | a '?' label with a valid count gives nodata with the count set |
| Muenster.TypeOfWord | original/muenster.py:60-65 | Parkplatz gives lot, Parkhaus garage, Busparkplatz bus (each an iff), anything else unknown |
| Muenster.Abbreviation | original/muenster.py:67-72 | lot gives "pp", garage "ph", every other type "" |
| Muenster.ProcessName | original/muenster.py:53-75 | fails with an index error exactly when the rewritten name has no word; otherwise a lot type, a non-empty lot name and the legacy id of abbreviation plus lot name |
| Muenster.BlankNameRaises | original/muenster.py:55-57 | a blank name raises the index error |
| Muenster.BlankName | original/muenster.py:54-55 | a blank name is not rewritten and splits into no words |
| Muenster.JoinedWordsPlain | original/muenster.py:58 | the lot name needs no stripping and is never empty |
| Muenster.ProcessRewritten | original/muenster.py:54-75 | for a rewritten name whose words are ws, the type comes from the first word and the name from the rest (or the word itself when alone) |
| Muenster.ProcessWords | original/muenster.py:55-75 | a name without the bus prefix is processed from its own words |
| Muenster.BusLotRewritten | original/muenster.py:54 | "Parkplatz Busparkplatz X" becomes a bus lot named X with id from X alone |
| Muenster.ProcessAfterFirst | original/muenster.py:57-58 | with two or more words the lot name is the remaining words joined by single spaces |
| Muenster.LotNameAfterFirst | original/muenster.py:58 | the lot name of two or more words drops the first |
| Muenster.RewriteToWords | original/muenster.py:54-55 | the rewritten bus name splits into Busparkplatz and the remaining words |
| Muenster.WordInFront | original/muenster.py:55 | putting a word in front of words joins with one space |
| Muenster.RewriteLeadingBusPrefix | original/muenster.py:54 | a leading "Parkplatz Busparkplatz" is replaced once by "Busparkplatz" |
| Muenster.StatusOfName | original/muenster.py:24-44 | frei and besetzt give open, geschlossen closed, every other name unknown |
| Muenster.TypedLotsHaveUnknownStatus | original/muenster.py:24-65 | a lot whose name starts with a type word always gets status unknown, because the table is keyed by the whole name |
| Jena.SecondsOfDay | new/jena.py:251-252 | 3600·hour + 60·minute + second, below 86400, from which hour, minute and second read back |
| Jena.SecondsOfDayOrder | new/jena.py:224-252 | comparing seconds of day is comparing clock times, and equal seconds mean equal times |
| Jena.AnyRangeOpen | new/jena.py:223-246 | the loop over a considered rule's times says open exactly when some range of the rule is open at that weekday and second |
| Jena.GetStatus | new/jena.py:206-249 | the status is "open" exactly when the as-written reading opens (24/7, or a considered rule with an open range), else "closed" |
| Jena.Status | new/jena.py:206-249 | only "open" and "closed" occur; open exactly when 24/7 or some range is open under the intended day window |
| Jena.StatusOnRuleDays | new/jena.py:218-246 | under the intended reading an open lot is on a rule's days, or on the day after with an overnight range not yet ended |
| Jena.IntendedWithinAsWritten | new/jena.py:218-246 | whatever the intended reading opens, the code as written opens too |
| Jena.ReadingsAgreeOnRuleDays | new/jena.py:218-246 | when the weekday lies within every rule's own days, the two readings agree |
| Jena.WeekdayRuleOpensOnSaturday | new/jena.py:218-233 | a Monday-to-Friday 08:00-18:00 rule opens at 10:00 on Saturday as written, and is closed under the intended reading |
| LegacySnapshot.InfoIdsSnoc | util/scraper.py:127-133 | appending an info adds its id to the seen set, and the ids stay distinct exactly when the new one was unseen |
| LegacySnapshot.InfoMapOfChecks | util/scraper.py:127-138 | the map is built exactly when the info ids are distinct, keyed by id with each info under its own id; otherwise the error names a repeated id and the pool |
| LegacySnapshot.LotInfoMap | util/scraper.py:113-138 | without lot infos the map is empty when not required and the missing-infos error when required; with infos it is built exactly when their ids are distinct |
| LegacySnapshot.PoolVars | util/snapshot.py:72 | the pool entry lists the pool's eight attributes, starting with its id |
| LegacySnapshot.MergeInto | util/snapshot.py:97-99 | copying the lot data's attributes into the record gives the merged record |
| LegacySnapshot.LookupSnoc | util/snapshot.py:97-99 | looking up a key after an append finds the earlier entry first |
| LegacySnapshot.MergedLookup | util/snapshot.py:97-99 | a data value replaces the info value unless it is None and the info has the key |
| LegacySnapshot.MergedEntries | util/snapshot.py:86-99 | every merged entry comes from the info record or the lot data |
| LegacySnapshot.IsoValue | util/snapshot.py:101-103 | a valid date-time becomes text, so no date-time is left |
| LegacySnapshot.IsoFormatValues | util/snapshot.py:101-103 | keys are kept in order, every date-time value is replaced by its text, every other value is untouched |
| LegacySnapshot.FillSourceUrl | util/snapshot.py:105-108 | a falsy `source_url` is replaced by the pool's source url (or public url when that is empty); every other key is unchanged |
| LegacySnapshot.InfoVarsNoMoments | util/snapshot.py:87 | a lot info holds no date-time attributes |
| LegacySnapshot.DataVarsMomentsValid | util/snapshot.py:97-103 | the lot data's date-times are valid for formatting |
| LegacySnapshot.MergedMomentsValid | util/snapshot.py:86-103 | every date-time in the merged record is valid for formatting |
| LegacySnapshot.DataVarsKeys | util/snapshot.py:97 | lot data attribute names are distinct and do not include `source_url` |
| LegacySnapshot.InfoVarsSourceUrl | util/snapshot.py:87-105 | a lot info's `source_url` attribute is its source url or None |
| LegacySnapshot.LookupIsoValues | util/snapshot.py:101-103 | formatting keeps each key and formats its value |
| LegacySnapshot.MergedLotLookup | util/snapshot.py:86-103 | each merged key other than `source_url` is the data value unless that is a None the info overrides, then formatted |
| LegacySnapshot.MergedLotSourceUrl | util/snapshot.py:105-108 | `source_url` is the info's non-empty source url, else the pool's |
| LegacySnapshot.MergedLotNoMoments | util/snapshot.py:101-103 | the merged lot holds no date-time values |
| LegacySnapshot.RunLotsShape | util/snapshot.py:78-110 | the lots loop emits the merge of each lot in order until the first duplicate id or required-but-missing info, which it reports |
| LegacySnapshot.LotIdsSnoc | util/snapshot.py:80-84 | adding a lot id keeps the ids distinct exactly when it was unseen |
| LegacySnapshot.RunLotsSnoc | util/snapshot.py:78-110 | one more lot either stops at its fault or appends its merge, and an earlier stop stays |
| LegacySnapshot.RunLotsCompletes | util/snapshot.py:78-110 | the loop completes exactly when lot ids are distinct and, if infos are required, each lot has one |
| LegacySnapshot.RunLotsStops | util/snapshot.py:78-112 | once a prefix stops, the later lots change nothing |
| LegacySnapshot.ErrorText | util/snapshot.py:112-113 | the error text is never empty |
| LegacySnapshot.MergeLot | util/snapshot.py:86-108 | the loop body's merge equals the merged lot specification |
| LegacySnapshot.MergeLots | util/snapshot.py:78-110 | the lots loop equals RunLots |
| LegacySnapshot.GetSnapshot | util/snapshot.py:70-114 | the snapshot equals its specification: the pool, the merged lots, and the error that ended the loop |
| LegacySnapshot.FeatureOf | util/snapshot.py:54-64 | a feature has geometry [lon, lat] exactly when both coordinates are set, and its properties are the info's attributes without latitude and longitude |
| LegacySnapshot.KeyOfFeature | util/snapshot.py:67 | the sort key of a feature is its info's id |
| LegacySnapshot.StrLeTotal | util/snapshot.py:67 | string order is total |
| LegacySnapshot.Insert | util/snapshot.py:67 | inserting into a sorted feature list keeps it sorted and adds exactly that feature |
| LegacySnapshot.SortById | util/snapshot.py:67 | the features come out sorted by id and are a permutation of the input |
| LegacySnapshot.MinimalInfoConstructed | util/snapshot.py:42-44 | the minimal lot info (name = id, type unknown) is a valid LotInfo |
| LegacySnapshot.WithUnknownAdd | util/snapshot.py:39-44 | one more lot id adds a minimal info only when the id has none |
| LegacySnapshot.SelectedInfosKeys | util/snapshot.py:32-47 | the selected ids are the infos, plus unknown lot ids when asked, restricted to lot ids unless all infos are asked for; each is its info or the minimal one |
| LegacySnapshot.AddUnknownInfos | util/snapshot.py:38-44 | the loop adds minimal infos for exactly the lot ids without one |
| LegacySnapshot.SelectInfos | util/snapshot.py:34-47 | the selection equals SelectedInfos |
| LegacySnapshot.CollectFeatures | util/snapshot.py:53-65 | one feature per selected info, each the feature of some info and every info's feature present |
| LegacySnapshot.PermutationMembers | util/snapshot.py:67 | sorting keeps the feature count and the set of features |
| LegacySnapshot.InfoMapToGeojson | util/snapshot.py:14-68 | an info-map error is passed on; otherwise the features are sorted by id, one per selected info, exactly the selected infos' features |
| LegacyValidate.PathTextInjective | util/validate.py:47-81 | two pool paths, or two lot paths of the same lot, with the same dotted text are the same path |
| LegacyValidate.AttributionEntriesIff | util/validate.py:44-50 | a priority-3 entry for `pool.<key>` exists exactly when the key is an attribution key whose value is falsy; all pool entries have priority 3 |
| LegacyValidate.MissingEntriesSnoc | util/validate.py:60-70 | checking one more key appends that key's entry |
| LegacyValidate.MissingEntriesIff | util/validate.py:60-70 | a priority-1 entry for a location key exists exactly when that key is checked and reported; all such entries are for that lot |
| LegacyValidate.LotEntriesIff | util/validate.py:52-84 | type entry (2) iff type is unknown; location entry (1) iff the value is None, except longitude when latitude is also None; num_free entry (4) iff free and occupied are both None; capacity entry (2) iff free and capacity are None and occupied is set |
| LegacyValidate.EntriesAround | util/validate.py:52-84 | the type, count and capacity entries around the location entries keep each condition |
| LegacyValidate.LotsEntriesPrefix | util/validate.py:52 | the entries for the first j lots come first |
| LegacyValidate.LotsEntriesInOrder | util/validate.py:52 | each lot's entries follow those of the lots before it |
| LegacyValidate.LotsEntriesShape | util/validate.py:52-84 | every lot entry names an existing lot and has priority 1, 2 or 4 |
| LegacyValidate.SevereEntries | util/validate.py:20-40 | a schema failure gives exactly one entry of priority 0; otherwise a priority-0 entry exists exactly when the snapshot's error is non-empty, and it comes first under `errors` |
| LegacyValidate.PoolBeforeLots | util/validate.py:35-84 | the error and pool entries precede all lot entries, which name existing lots |
| LegacyValidate.InThreeParts | util/validate.py:35-84 | concatenating error, pool and lot entries keeps that order by position |
| LegacyValidate.ValidateSnapshot | util/validate.py:8-86 | the validations equal their specification |
| LegacyValidate.ValidateLots | util/validate.py:52-84 | the lots loop equals its specification |
| LegacyValidate.ValidatePool | util/validate.py:44-50 | the attribution loop equals its specification |
| LegacyValidate.ValidateLot | util/validate.py:53-84 | one lot's checks equal their specification |
| LegacyMixin.MapResultsSpec | util/legacy_mixin.py:18-25 | the comprehension succeeds exactly when every item converts, keeping length and order; otherwise it raises the first failure |
| LegacyMixin.LegacyListSpec | util/legacy_mixin.py:15-27 | the list is built exactly when both lists exist and every record converts; items in order, error messages in order; a None list is not iterable |
| LegacyMixin.GetLotDataSpec | util/legacy_mixin.py:15-20 | with the corrected conversion the lot data is every realtime record converted in order plus the error messages, failing only on a None list |
| LegacyMixin.GetLotInfosSpec | util/legacy_mixin.py:22-27 | the lot infos are every static record converted in order plus the error messages; a None list or a record without a type raises |
| LegacyMixin.FirstRecordFails | util/legacy_mixin.py:18-25 | a first record that does not convert makes the call raise its exception |
| LegacyMixin.GetLotDataAsWrittenFails | util/legacy_mixin.py:18 | as written, a validated first realtime record makes get_lot_data raise the LotData timestamp error (also `common/validators/base_validators.py:150-157`) |

## Left out

- Network access is not modelled: HTTP requests, API keys and client secrets, caching, throttling, the SSL fallback and the geojson loaders of `util/scraper.py`. Fetched documents are parameters (`Fetch` in the PBW converter, the response body in the Bahn converter).
- The HTML and feed scraping bodies (`get_lot_data` and `get_lot_infos` of the original and new scrapers, feedparser, BeautifulSoup, `util/datex.py`, `util/soup.py`) are external markup navigation. Only the pure parsers named above are modelled.
- The clock is a parameter: every `datetime.now()` stamp is a `now` argument. `util/dt.py` (dateutil and pytz) is not part of this model.
- Jena.GetStatus: the source reads the clock once per rule; the model reads it once per call. Rule times are given as clock times rather than parsed from ISO text, and public holidays are not considered, as in the source.
- The pyproj UTM-to-WGS84 projection in `v3/stuttgart.py` is a function parameter (`Projection`). Float arithmetic is not modelled; decimals are exact digit/scale pairs.
- lxml, openpyxl and JSON parsing are not modelled: the converters take parsed trees, rows of cell values and decoded `Value`s.
- The validataclass library is not part of the repository. Its base validators (strict bool, integer with range and `allow_strings`, string with length and control characters, numeric and decimal bounds, enum by exact value, ISO date-time with conversion to UTC, time) are small concrete definitions.
- The validataclass `DataclassValidator` collects every field error. The model reports the first failing field in declaration order; acceptance and refusal are the same. Unknown keys are ignored.
- BahnValidators.ValidateUrl approximates validataclass's `UrlValidator` by an http/https scheme, a non-empty host, no white space and at most 2000 characters.
- The JSON-schema step of `util/validate.py` (`schema.json` and jsonschema) is not part of this model. Its outcome is the `schemaError` parameter of `LegacyValidate.ValidateSnapshot`.
- LegacyValidate.ValidateSnapshot: a lot key missing from the snapshot is read as None rather than raising KeyError. Paths and messages are structured values rather than formatted strings, and the lot id appears in them only when it is a string.
- LegacySnapshot.GetSnapshot: the error text does not include the traceback, and the duplicate-id message does not include the `LotData` repr.
- LegacySnapshot.GetSnapshot: `vars(info)` is mutated in place in the source, so the info object changes too. The model merges into a copy, so later readers of the info map do not see that aliasing.
- LegacySnapshot.MergeLots takes the per-lot merge as a function parameter. `GetSnapshot` passes `MergedLot`.
- LegacySnapshot.LotInfoMap takes the lot infos as an option: `None` stands for "no geojson file and `get_lot_infos` not implemented". The geojson loader and the `not lot_infos` fallback on an empty list are not modelled separately.
- LegacySnapshot.SortById is an insertion sort, not Timsort. The feature ids are distinct map keys, so every correct sort gives the same order.
- `warnings.warn` calls (`util/snapshot.py:93`, `original/zuerich.py:89`) and the `print` calls in `v3/pforzheim.py` are left out: they change no result.
- `LotDataList` and `LotInfoList` are not defined anywhere in the repository. `LegacyMixin.LegacyList` (items plus error messages) stands for both.
- `vars(LotData.Status)` and `vars(LotInfo.Types)` include the class-body keys `__module__`, `__doc__`, `__dict__` and `__weakref__`, as in Python up to 3.12. Newer versions add more keys, which are not modelled.
- LegacyStrings.IntOrNone requires a value that is not a list or dict, because `str()` of a container is not modelled. `int()` of such a text always fails, so the answer would be None.
- Muenster.ProcessName takes the `NAME` property as a string. A missing name (None) would raise AttributeError in `replace`.
- `unicodedata.normalize('NFKD', …)` in `util/strings.py` is modelled by a fixed folding table for the accented Latin letters; other non-ASCII characters are dropped.
- `remove_special_chars_v2` keeps tab and newline, exactly as written.
- Python string built-ins (`strip`, `split`, `replace`, `lower`, `int()`, `str()` of numbers) are modelled in `Text` and `PyOps`, with the number forms named in the next lines left out. White space is ASCII white space, and `lower` covers ASCII letters and the German umlauts; other Unicode case mappings are not modelled.
- Text.ParseInt: `int()` of a str with underscores between digits ("1_000") is refused, where Python gives the number; PyOps.IntOf raises ValueError for it.
- Text.ParseDecimal: exponent forms ("1e3", "4.8E1"), underscores, "inf", "infinity" and "nan" are refused, where Python's `float()` gives a number.
- LegacyStructs.PyFloat: built on Text.ParseDecimal, so the same `float()` forms raise ValueError in the model; `LotInfo(latitude="4.8e1")` is refused although Python reads 48.0.
- PyOps.FloatOf: the same `float()` forms raise ValueError in the model.
- Values.ParseIsoDateTime: the fraction of a second is read only with three or six digits; validataclass's own date-time pattern is not part of the repository.
- LegacyStructs.LotInfoFromDict: LotInfo's fields are typed, so a non-str id, name, type, URL or address, or a non-int capacity, is refused with a TypeError, where Python stores the value as given; `has_live_capacity` is stored as its truthiness rather than as the value given. LegacyStructs.LotInfoFromDictTyped states the result for well-typed input.
- LegacyStructs.LotInfoOfKwargs: the same typing as LegacyStructs.LotInfoFromDict.
- Reutlingen.SiteOf: the uid is stored as the decimal text of the number, since the record's uid is a string; the source passes the int itself, which direct construction keeps without validation.
- The CLI drivers, the JSON encoder hook and the interface-only converter base classes have no behaviour to model.

## Findings

| source | as written | input that shows it | evidently intended | confidence | as-written member | corrected member |
|---|---|---|---|---|---|---|
| common/validators/base_validators.py:88-89 | `lat` must lie in [90, 90] and `lon` in [180, 180] | any real site, e.g. lat 48.77, lon 9.18, is refused | latitude in [-90, 90], longitude in [-180, 180] | high; not executed | SiteInputs.AsWrittenOnlyOnePoint | SiteInputs.GeoAcceptsMinimalSite |
| common/validators/base_validators.py:150-157 | `to_lot_data` hands the timezone-aware `realtime_data_updated_at` to `LotData`, which refuses any tzinfo (`util/structs.py:190-194`) | any validated realtime record | a naive UTC time stamp | high; not executed | SiteInputs.ToLotDataAsWrittenAlwaysFails | SiteInputs.ToLotData |
| common/validators/fields/integer_validators.py:14-37 | the digit group is `[0-9]*`, so " Tage" matches and `int('')` raises ValueError | " Tage" | at least one digit, refused as a validation error otherwise | high; not executed | FieldValidators.DurationEmptyDigitsRaises | FieldValidators.ValidateGermanDuration |
| v3/stuttgart.py:37 | `ensure_array_keys` gets plain names but is compared with (parent, child) pairs (`common/xml_helper.py:225`), so it has no effect | a facility table with a single facility, which becomes a dict whose keys are iterated | the single facility kept as a one-element list | high; not executed | Stuttgart.SingleFacilityAborts | Stuttgart.SingleFacilityShape |
| common/base_converter/csv_converter.py:21-31 | the header mapping is a list of field names, but callers (`v3/neckarsulm.py:86-92`) index it by field name | header ["id"] with table id→uid, then data row ["7"] | a dict from field name to column position | high; not executed | HeaderMapping.CsvMappingAsWrittenBreaksCallers | HeaderMapping.CellUnderHeader |
| v3/neckarsulm.py:120 | `max_height` is passed to `StaticParkingSiteInput`, which declares no such field (`common/validators/base_validators.py:64-100`), so construction raises TypeError; `v3/pbw/mapper.py:24-26` does the same | any row or detail that validates | the height dropped (or a declared field) | high; not executed | Neckarsulm.ValidRowAbortsAsWritten | Neckarsulm.ValidRowAccepted |
| common/base_converter/normalized_xlsx_converter.py:80-106 | opening times are validated outside the per-row `try` | one row with an invalid opening-time cell | that row recorded as an error and the others kept | medium; not executed | NormalizedXlsx.BadOpeningTimeAbortsFile | NormalizedXlsx.BadOpeningTimeStep |
| v3/stuttgart.py:129-132 | the status is stored as "open"/"closed" but the enum values are "OPEN"/"CLOSED" (`common/validators/base_validators.py:51-54`) | a realtime item whose status list contains "open" | the upper-case enum value | high; not executed | Stuttgart.LowercaseStatusRejected | Stuttgart.CorrectedStatusKept |
| v3/pforzheim.py:125 | the all-day phrase is compared with a mis-encoded literal ("ge√∂ffnet") | opening hours "durchgehend geöffnet" | "24/7" for that phrase | medium; not executed | Pforzheim.AsWrittenMissesAllDay | Pforzheim.CorrectedAllDay |
| new/jena.py:218-233 | the day window dateFrom..dateTo+1, meant for overnight ranges, also admits daytime ranges on the day after | a Monday–Friday 08:00–18:00 rule at 10:00 on Saturday | daytime ranges only on dateFrom..dateTo | medium; not executed | Jena.WeekdayRuleOpensOnSaturday | Jena.StatusOnRuleDays |
