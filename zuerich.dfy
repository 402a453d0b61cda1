/**
 * original/zuerich.py: the two text parsers of the Zürich scraper. A
 * summary such as "open /   41" carries the status and the free count, a
 * title such as "Parkgarage am Central / Seilergraben" the lot's name and
 * address.
 */
module Zuerich {
  import opened Wrappers
  import opened Text
  import opened Values
  import opened LegacyStrings
  import opened LegacyStructs

  /** `summary[1]` on a summary without '/': the list has one element. */
  const NoCountPart := Raised("IndexError", "list index out of range")

  /** Tuple unpacking of a title that does not split into exactly two parts. */
  const NotNameAndAddress := Raised("ValueError", "wrong number of values to unpack")

  /**
   * `parse_summary`: the stripped text before the first '/' is the status
   * when it is a key of `vars(LotData.Status)`, otherwise "unknown"; the
   * second piece is the free count as `int()` reads it, or None. A summary
   * without '/' has no second piece and the lookup raises.
   */
  function ParseSummary(summary: string): (r: Result<(string, Option<int>), Fault>)
    ensures r.Err? <==> '/' !in summary
    ensures r.Err? ==> r.error == NoCountPart
    ensures r.Ok? ==> r.value.0 in LotStatusVars
  {
    SplitPieces(summary, "/");
    ContainsChar(summary, '/');
    var parts := Split(summary, "/");
    var status := Strip(parts[0]);
    var status := if status in LotStatusVars then status else "unknown";
    if |parts| < 2 then Err(NoCountPart)
    else Ok((status, ParseInt(parts[1])))
  }

  /**
   * The pieces located in the text: the status comes from the text before
   * the first '/', the count from the text after it up to a second '/'.
   */
  lemma SummaryPieces(summary: string)
    requires Contains(summary, "/")
    ensures var i := Find(summary, "/").value;
      var head := Strip(summary[..i]);
      var rest := summary[i + 1..];
      && ParseSummary(summary).value.0 == (if head in LotStatusVars then head else "unknown")
      && ParseSummary(summary).value.1 == ParseInt(if Contains(rest, "/") then rest[..Find(rest, "/").value] else rest)
  {
    SplitPieces(summary, "/");
  }

  /** A summary with exactly one '/': the status from the text before it, the count from the text after it. */
  lemma SummaryOf(head: string, count: string)
    requires '/' !in head && '/' !in count
    ensures ParseSummary(head + "/" + count)
            == Ok((if Strip(head) in LotStatusVars then Strip(head) else "unknown", ParseInt(count)))
  {
    SplitAtMarker(head, "/", count, 0);
  }

  /** Text without '/' and without whitespace at either end. */
  predicate PlainWord(s: string) {
    '/' !in s && |s| > 0 && !IsSpace(s[0]) && !IsSpace(s[|s| - 1])
  }

  /** The keys of `vars(LotData.Status)` are plain words. */
  lemma StatusKeyPlain(key: string)
    requires key in LotStatusVars
    ensures PlainWord(key)
  {
  }

  /** A plain word followed by whitespace strips to the word and holds no '/'. */
  lemma PaddedStatus(status: string, pad: string)
    requires PlainWord(status)
    requires forall k :: 0 <= k < |pad| ==> IsSpace(pad[k])
    ensures '/' !in status + pad && Strip(status + pad) == status
  {
    StripPadded("", status, pad);
    assert "" + status + pad == status + pad;
  }

  /** The statuses are keys of `vars(LotData.Status)`. */
  lemma StatusIsKey(status: string)
    requires status in LotStatuses
    ensures status in LotStatusVars
  {
  }

  /** The class-body keys are keys of `vars(LotData.Status)` but no statuses. */
  lemma ClassKeyIsNoStatus(key: string)
    requires key in ClassBodyKeys
    ensures key in LotStatusVars && !StatusOk(key)
  {
  }

  /** A summary whose text before its one '/' strips to a key keeps that key as the status. */
  lemma SummaryOfStatus(head: string, count: string, status: string)
    requires '/' !in head && '/' !in count
    requires Strip(head) == status && status in LotStatusVars
    ensures ParseSummary(head + "/" + count) == Ok((status, ParseInt(count)))
  {
    SummaryOf(head, count);
  }

  /**
   * A status and a count written as "status / count", with any whitespace
   * padding around the '/' (the scraper's format is "open /   41"), read
   * back as both.
   */
  lemma SummaryRoundTrip(status: string, n: int, pad1: string, pad2: string)
    requires status in LotStatuses
    requires forall k :: 0 <= k < |pad1| ==> IsSpace(pad1[k])
    requires forall k :: 0 <= k < |pad2| ==> IsSpace(pad2[k])
    ensures ParseSummary((status + pad1) + "/" + (pad2 + IntToString(n))) == Ok((status, Some(n)))
  {
    PaddedCount(pad2, n);
    StatusIsKey(status);
    PaddedKey(status, pad1);
    SummaryOfStatus(status + pad1, pad2 + IntToString(n), status);
  }

  /** A count written after whitespace holds no '/' and reads back. */
  lemma PaddedCount(pad: string, n: int)
    requires forall k :: 0 <= k < |pad| ==> IsSpace(pad[k])
    ensures '/' !in pad + IntToString(n) && ParseInt(pad + IntToString(n)) == Some(n)
  {
    ParseIntPaddedInt(pad, n);
    assert !IsSpace('/') && !IsDigit('/');
  }

  /** A key of `vars(LotData.Status)` followed by whitespace holds no '/' and strips to the key. */
  lemma PaddedKey(key: string, pad: string)
    requires key in LotStatusVars
    requires forall k :: 0 <= k < |pad| ==> IsSpace(pad[k])
    ensures '/' !in key + pad && Strip(key + pad) == key
  {
    StatusKeyPlain(key);
    PaddedStatus(key, pad);
  }

  /** `int("-")` fails. */
  lemma DashIsNoCount()
    ensures ParseInt("-") == None
  {
    StripNoSurroundingSpace("-");
  }

  /** A count part `int()` cannot read leaves the count None but keeps a known status. */
  lemma SummaryCountNotInteger(status: string)
    requires status in LotStatuses
    ensures ParseSummary(status + "/" + "-") == Ok((status, None))
  {
    DashIsNoCount();
    assert '/' !in "-";
    StatusIsKey(status);
    StatusKeyPlain(status);
    StripNoSurroundingSpace(status);
    SummaryOfStatus(status, "-", status);
  }

  /**
   * The status test is `vars(LotData.Status)` alone: the class-body keys
   * such as "__doc__" pass it, while the `LotData` constructor, which also
   * refuses names starting with '_', rejects the lot built from one.
   */
  lemma SummaryAcceptsClassKeys(key: string, n: int, ts: DateTime)
    requires key in ClassBodyKeys && ts.offset.None?
    ensures ParseSummary((key + "") + "/" + ("" + IntToString(n))) == Ok((key, Some(n)))
    ensures MakeLotData(Moment(ts), "zuerich", key, Some(n), None, None, Null).Err?
  {
    ClassKeyIsNoStatus(key);
    PaddedKey(key, "");
    PaddedCount("", n);
    SummaryOfStatus(key + "", "" + IntToString(n), key);
  }

  /**
   * `parse_title`: the title splits on " / " into exactly a name and an
   * address, which put back together give the title; the type is guessed
   * from the name, "unknown" when no keyword is found.
   */
  function ParseTitle(title: string): (r: Result<(string, string, string), Fault>)
    ensures !Contains(title, " / ") ==> r == Err(NotNameAndAddress)
    ensures r.Err? ==> r.error == NotNameAndAddress
    ensures r.Ok? ==>
      var (name, address, lotType) := r.value;
      && title == name + " / " + address
      && !Contains(name, " / ") && !Contains(address, " / ")
      && lotType == (if GuessLotTypeOf(name).Some? then GuessLotTypeOf(name).value else "unknown")
      && lotType in LotTypes
  {
    var parts := Split(title, " / ");
    SplitJoin(title, " / ");
    if |parts| != 2 then Err(NotNameAndAddress)
    else
      var name := parts[0];
      Ok((name, parts[1], if GuessLotTypeOf(name).Some? then GuessLotTypeOf(name).value else "unknown"))
  }

  /** A name and an address without '/' joined by " / " read back as both. */
  lemma TitleRoundTrip(name: string, address: string)
    requires '/' !in name && '/' !in address
    ensures ParseTitle(name + " / " + address).Ok?
    ensures ParseTitle(name + " / " + address).value.0 == name
    ensures ParseTitle(name + " / " + address).value.1 == address
  {
    SplitAtMarker(name, " / ", address, 1);
  }

  /** A title with a second " / " cannot be unpacked into two values. */
  lemma TitleWithThreeParts(a: string, b: string, c: string)
    requires '/' !in a && '/' !in b && '/' !in c
    ensures ParseTitle(a + " / " + b + " / " + c) == Err(NotNameAndAddress)
  {
    var s := a + " / " + b + " / " + c;
    SplitAtMarker(b, " / ", c, 1);
    assert s == a + " / " + (b + " / " + c);
    var rest := b + " / " + c;
    assert s[|a|..|a| + 3] == " / ";
    assert forall j :: 0 <= j < |a| ==> !Occurs(s, " / ", j);
    FindFirst(s, " / ", |a|);
    assert s[|a| + 3..] == rest;
  }
}
