/**
 * original/basel.py: the summary parser of the Basel scraper. A summary
 * such as "Anzahl freie Parkplätze: 179" carries a label and the number of
 * free spaces.
 */
module Basel {
  import opened Wrappers
  import opened Text
  import opened Values

  /** `summary[1]` on a summary without ':': the list has one element. */
  const NoCountPart := Raised("IndexError", "list index out of range")

  /**
   * `parse_summary`: the status starts as "open" and the count as None; a
   * '?' in the stripped label turns the status to "nodata", and so does a
   * count that `int()` cannot read, which leaves the count None. Only the
   * ValueError of `int()` is caught: without ':' there is no count part and
   * the lookup raises.
   */
  function ParseSummary(summary: string): (r: Result<(string, Option<int>), Fault>)
    ensures r.Err? <==> ':' !in summary
    ensures r.Err? ==> r.error == NoCountPart
    ensures r.Ok? ==> r.value.0 in {"open", "nodata"}
    ensures r.Ok? && r.value.0 == "open" ==> r.value.1.Some?
  {
    SplitPieces(summary, ":");
    ContainsChar(summary, ':');
    var parts := Split(summary, ":");
    var head := Strip(parts[0]);
    var status := if '?' in head then "nodata" else "open";
    if |parts| < 2 then Err(NoCountPart)
    else match ParseInt(parts[1])
      case None => Ok(("nodata", None))
      case Some(n) => Ok((status, Some(n)))
  }

  /**
   * A summary with exactly one ':': a count `int()` cannot read gives
   * "nodata" and no count; a readable one is kept, with "nodata" exactly
   * when the label holds a '?'.
   */
  lemma SummaryOf(head: string, count: string)
    requires ':' !in head && ':' !in count
    ensures ParseInt(count).None? ==> ParseSummary(head + ":" + count) == Ok(("nodata", None))
    ensures ParseInt(count).Some? ==>
      ParseSummary(head + ":" + count) == Ok((if '?' in Strip(head) then "nodata" else "open", ParseInt(count)))
  {
    var parts := Split(head + ":" + count, ":");
    assert |parts| == 2 && parts[0] == head && parts[1] == count by { SplitAtMarker(head, ":", count, 0); }
  }

  /**
   * The format the scraper reads, a label then ':' and the count after any
   * whitespace: a label without '?' gives "open" and the count.
   */
  lemma SummaryRoundTrip(head: string, pad: string, n: int)
    requires ':' !in head && '?' !in head
    requires |head| > 0 ==> !IsSpace(head[0]) && !IsSpace(head[|head| - 1])
    requires forall k :: 0 <= k < |pad| ==> IsSpace(pad[k])
    ensures ParseSummary(head + ":" + (pad + IntToString(n))) == Ok(("open", Some(n)))
  {
    PaddedCount(pad, n);
    StripNoSurroundingSpace(head);
    SummaryOf(head, pad + IntToString(n));
  }

  /** A count written after whitespace holds no ':' and reads back. */
  lemma PaddedCount(pad: string, n: int)
    requires forall k :: 0 <= k < |pad| ==> IsSpace(pad[k])
    ensures ':' !in pad + IntToString(n) && ParseInt(pad + IntToString(n)) == Some(n)
  {
    ParseIntPaddedInt(pad, n);
    assert !IsSpace(':') && !IsDigit(':');
  }

  /** A '?' in the label marks the count as unreliable: "nodata", but the count is still kept. */
  lemma QuestionMarkKeepsCount(head: string, pad: string, n: int)
    requires ':' !in head && '?' in head
    requires |head| > 0 ==> !IsSpace(head[0]) && !IsSpace(head[|head| - 1])
    requires forall k :: 0 <= k < |pad| ==> IsSpace(pad[k])
    ensures ParseSummary(head + ":" + (pad + IntToString(n))) == Ok(("nodata", Some(n)))
  {
    PaddedCount(pad, n);
    StripNoSurroundingSpace(head);
    SummaryOf(head, pad + IntToString(n));
  }
}
