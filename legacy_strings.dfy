/**
 * The legacy string helpers of util/strings.py: lot-type guessing, the two
 * lot-id normalisations, `int_or_none` and the comment filter of the
 * GeoJSON loader.
 */
module LegacyStrings {
  import opened Wrappers
  import opened Text
  import opened Values

  // ---------------------------------------------------------- guess_lot_type

  /** The keyword table in its declaration order: the first keyword found in the name wins. */
  const LotTypeKeywords: seq<(string, string)> := [
    ("parkplatz", "lot"), ("parkplätze", "lot"), ("parkhaus", "garage"), ("parkgarage", "garage"),
    ("tiefgarage", "underground"), ("parkdeck", "level"), ("parklevel", "level"), ("garage", "garage")
  ]

  /** The first table entry whose keyword occurs in `lowered`. */
  function FirstKeywordType(lowered: string, table: seq<(string, string)>): (r: Option<string>)
    ensures r.Some? ==> exists i :: 0 <= i < |table| && table[i].1 == r.value && Contains(lowered, table[i].0)
    ensures r.None? <==> forall i :: 0 <= i < |table| ==> !Contains(lowered, table[i].0)
  {
    if |table| == 0 then None
    else if Contains(lowered, table[0].0) then Some(table[0].1)
    else
      var r := FirstKeywordType(lowered, table[1..]);
      assert forall i :: 1 <= i < |table| ==> table[i] == table[1..][i - 1];
      r
  }

  /** `guess_lot_type`: case-insensitive substring match against the keyword table. */
  function GuessLotTypeOf(name: string): (r: Option<string>)
    ensures r.Some? ==> r.value in {"lot", "garage", "underground", "level"}
  {
    KeywordTypesKnown();
    FirstKeywordType(Lower(name), LotTypeKeywords)
  }

  lemma KeywordTypesKnown()
    ensures forall i :: 0 <= i < |LotTypeKeywords| ==> LotTypeKeywords[i].1 in {"lot", "garage", "underground", "level"}
  {
  }

  /** `guess_lot_type`, returning at the first keyword found. */
  method GuessLotType(name: string) returns (r: Option<string>)
    ensures r == GuessLotTypeOf(name)
  {
    r := FindKeyword(Lower(name), LotTypeKeywords);
  }

  /** The loop of `guess_lot_type` over a keyword table. */
  method FindKeyword(lowered: string, table: seq<(string, string)>) returns (r: Option<string>)
    ensures r == FirstKeywordType(lowered, table)
  {
    var i := 0;
    while i < |table|
      invariant 0 <= i <= |table|
      invariant FirstKeywordType(lowered, table) == FirstKeywordType(lowered, table[i..])
    {
      assert table[i..][1..] == table[i + 1..];
      if Contains(lowered, table[i].0) {
        return Some(table[i].1);
      }
      i := i + 1;
    }
    return None;
  }

  /** A keyword whose first letter the text lacks does not occur in it. */
  lemma AbsentFirstLetter(s: string, k: string)
    requires |k| > 0 && k[0] !in s
    ensures !Contains(s, k)
  {
    ContainsIff(s, k);
    forall j | 0 <= j < |s| ensures !Occurs(s, k, j) {
      if j + |k| <= |s| {
        assert s[j..j + |k|][0] == s[j];
      }
    }
  }

  /** A keyword longer than the text does not occur in it. */
  lemma TooShort(s: string, k: string)
    requires |s| < |k|
    ensures !Contains(s, k)
  {
    ContainsIff(s, k);
  }

  /** Names shorter than the shortest keyword ("garage") get no type. */
  lemma GuessLotTypeShortName(name: string)
    requires |name| < 6
    ensures GuessLotTypeOf(name) == None
  {
    forall i | 0 <= i < |LotTypeKeywords| ensures !Contains(Lower(name), LotTypeKeywords[i].0) {
      TooShort(Lower(name), LotTypeKeywords[i].0);
    }
  }

  /** The table order decides: a "tiefgarage" is underground although it also contains "garage". */
  lemma GuessLotTypeTiefgarage()
    ensures GuessLotTypeOf("tiefgarage") == Some("underground")
  {
    var s := "tiefgarage";
    LowerOfLowercase(s);
    assert 'p' !in s;
    forall i | 0 <= i < 4 ensures !Contains(s, LotTypeKeywords[i].0) {
      assert LotTypeKeywords[i].0[0] == 'p';
      AbsentFirstLetter(s, LotTypeKeywords[i].0);
    }
    assert Occurs(s, LotTypeKeywords[4].0, 0);
    ContainsIff(s, LotTypeKeywords[4].0);
    FirstKeywordAt(s, LotTypeKeywords, 4);
  }

  /** The type of the first keyword that occurs. */
  lemma {:induction false} FirstKeywordAt(s: string, table: seq<(string, string)>, n: nat)
    requires n < |table| && Contains(s, table[n].0)
    requires forall i :: 0 <= i < n ==> !Contains(s, table[i].0)
    ensures FirstKeywordType(s, table) == Some(table[n].1)
    decreases n
  {
    if n > 0 {
      forall i | 0 <= i < n - 1 ensures !Contains(s, table[1..][i].0) {
        assert table[1..][i] == table[i + 1];
      }
      FirstKeywordAt(s, table[1..], n - 1);
    }
  }

  lemma LowerOfLowercase(s: string)
    requires forall i :: 0 <= i < |s| ==> 'a' <= s[i] <= 'z'
    ensures Lower(s) == s
  {
  }

  // ---------------------------------------------------- remove_special_chars

  /** The replacement table of `remove_special_chars`, in its iteration order. */
  const SpecialCharReplacements: seq<(char, string)> := [
    ('ä', "ae"), ('ö', "oe"), ('ü', "ue"), ('ß', "ss"),
    ('-', ""), (' ', ""), ('.', ""), (',', ""), ('\'', ""), ('"', ""), ('/', ""), ('\\', ""),
    ('\n', ""), ('\t', ""), ('&', ""), ('(', ""), (')', "")
  ]

  /** The replacements applied one after the other, each to the previous result. */
  function ApplyReplacements(s: string, reps: seq<(char, string)>): string
    decreases |reps|
  {
    if |reps| == 0 then s else ApplyReplacements(ReplaceAll(s, [reps[0].0], reps[0].1), reps[1..])
  }

  /** `remove_special_chars` as the source writes it: one `str.replace` per table entry. */
  method RemoveSpecialChars(name: string) returns (r: string)
    ensures r == ApplyReplacements(name, SpecialCharReplacements)
  {
    r := ReplaceEach(name, SpecialCharReplacements);
  }

  /** The loop of `remove_special_chars` over any table: `name = name.replace(c, rep)` per entry. */
  method ReplaceEach(name: string, reps: seq<(char, string)>) returns (r: string)
    ensures r == ApplyReplacements(name, reps)
  {
    r := name;
    var i := 0;
    while i < |reps|
      invariant 0 <= i <= |reps|
      invariant ApplyReplacements(name, reps) == ApplyReplacements(r, reps[i..])
    {
      assert reps[i..][1..] == reps[i + 1..];
      r := ReplaceAll(r, [reps[i].0], reps[i].1);
      i := i + 1;
    }
  }

  /** Replacing one character never brings back a character that neither side contains. */
  lemma {:induction false} ReplaceKeepsAbsent(s: string, c: char, rep: string, d: char)
    requires d !in s && d !in rep
    ensures d !in ReplaceAll(s, [c], rep)
    decreases |s|
  {
    match Find(s, [c])
    case None =>
    case Some(i) =>
      ReplaceKeepsAbsent(s[i + 1..], c, rep, d);
      assert d !in s[..i];
  }

  lemma {:induction false} ApplyKeepsAbsent(s: string, reps: seq<(char, string)>, d: char)
    requires d !in s
    requires forall i :: 0 <= i < |reps| ==> d !in reps[i].1
    ensures d !in ApplyReplacements(s, reps)
    decreases |reps|
  {
    if |reps| > 0 {
      ReplaceKeepsAbsent(s, reps[0].0, reps[0].1, d);
      ApplyKeepsAbsent(ReplaceAll(s, [reps[0].0], reps[0].1), reps[1..], d);
    }
  }

  predicate LowerAscii(s: string) { forall k :: 0 <= k < |s| ==> 'a' <= s[k] <= 'z' }

  /** Tables whose replacement texts are lower-case ASCII and whose replaced characters are not. */
  predicate CleaningTable(reps: seq<(char, string)>) {
    forall i :: 0 <= i < |reps| ==> LowerAscii(reps[i].1) && !('a' <= reps[i].0 <= 'z')
  }

  /** After a cleaning table, none of its replaced characters survives. */
  lemma {:induction false} ApplyRemovesAll(s: string, reps: seq<(char, string)>)
    requires CleaningTable(reps)
    ensures forall j :: 0 <= j < |reps| ==> reps[j].0 !in ApplyReplacements(s, reps)
    decreases |reps|
  {
    if |reps| > 0 {
      var t := ReplaceAll(s, [reps[0].0], reps[0].1);
      ReplaceCharRemoves(s, reps[0].0, reps[0].1);
      assert CleaningTable(reps[1..]) by {
        forall i | 0 <= i < |reps| - 1 ensures reps[1..][i] == reps[i + 1] { }
      }
      ApplyRemovesAll(t, reps[1..]);
      ApplyKeepsAbsent(t, reps[1..], reps[0].0);
      forall j | 1 <= j < |reps| ensures reps[j].0 !in ApplyReplacements(s, reps) {
        assert reps[j] == reps[1..][j - 1];
      }
    }
  }

  lemma SpecialCharTableCleans()
    ensures CleaningTable(SpecialCharReplacements)
  {
  }

  /** Applying replacements to a text without any replaced character changes nothing. */
  lemma {:induction false} ApplyIdentity(s: string, reps: seq<(char, string)>)
    requires forall j :: 0 <= j < |reps| ==> reps[j].0 !in s
    ensures ApplyReplacements(s, reps) == s
    decreases |reps|
  {
    if |reps| > 0 {
      ContainsChar(s, reps[0].0);
      ReplaceAbsent(s, [reps[0].0], reps[0].1);
      ApplyIdentity(s, reps[1..]);
    }
  }

  /** The output contains none of the replaced characters, and a second pass changes nothing. */
  lemma RemoveSpecialCharsClean(s: string)
    ensures forall j :: 0 <= j < |SpecialCharReplacements| ==>
              SpecialCharReplacements[j].0 !in ApplyReplacements(s, SpecialCharReplacements)
    ensures ApplyReplacements(ApplyReplacements(s, SpecialCharReplacements), SpecialCharReplacements)
            == ApplyReplacements(s, SpecialCharReplacements)
  {
    SpecialCharTableCleans();
    ApplyRemovesAll(s, SpecialCharReplacements);
    ApplyIdentity(ApplyReplacements(s, SpecialCharReplacements), SpecialCharReplacements);
  }

  /** `name_to_legacy_id`: the lower-cased concatenation with special characters removed. */
  function NameToLegacyId(city: string, lot: string): (r: string)
    ensures ' ' !in r && '-' !in r && 'ä' !in r
  {
    RemoveSpecialCharsClean(Lower(city + lot));
    assert SpecialCharReplacements[0].0 == 'ä' && SpecialCharReplacements[4].0 == '-' && SpecialCharReplacements[5].0 == ' ';
    ApplyReplacements(Lower(city + lot), SpecialCharReplacements)
  }

  // ------------------------------------------------- remove_special_chars_v2

  /**
   * Unicode NFKD decomposition followed by dropping every non-ASCII
   * character: accented Latin letters lose their accent, others vanish.
   */
  function AsciiFoldChar(c: char): string {
    if c < '\U{80}' then [c]
    else if c in "äàáâã" then "a" else if c in "ÄÀÁÂÃ" then "A"
    else if c in "öòóô" then "o" else if c in "ÖÒÓÔ" then "O"
    else if c in "üùúû" then "u" else if c in "ÜÙÚÛ" then "U"
    else if c in "éèêë" then "e" else if c in "ÉÈÊË" then "E"
    else if c in "íìîï" then "i" else if c == 'ç' then "c" else if c == 'ñ' then "n"
    else ""
  }

  function AsciiFold(s: string): (r: string)
    ensures forall i :: 0 <= i < |r| ==> r[i] < '\U{80}'
  {
    if |s| == 0 then "" else AsciiFoldChar(s[0]) + AsciiFold(s[1..])
  }

  /** The characters an id may hold: lower-case ASCII letters, digits, '-', tab and newline. */
  predicate IdChar(c: char) {
    'a' <= c <= 'z' || IsDigit(c) || c == '-' || c == '\t' || c == '\n'
  }

  /** Alphanumerics, space, tab and newline stay; every other character becomes '-'. */
  function DashOthers(s: string): (r: string)
    ensures |r| == |s|
    ensures forall i :: 0 <= i < |s| ==> r[i] == s[i] || r[i] == '-'
    ensures forall i :: 0 <= i < |s| ==> IsAlnum(r[i]) || r[i] in " \t\n-"
  {
    seq(|s|, i requires 0 <= i < |s| => if IsAlnum(s[i]) || s[i] in " \t\n" then s[i] else '-')
  }

  predicate NoDoubleDash(s: string) {
    forall i :: 0 <= i && i + 1 < |s| ==> !(s[i] == '-' && s[i + 1] == '-')
  }

  /** `re.sub("--+", "-", s)`: every run of dashes becomes one dash. */
  function CollapseDashes(s: string): (r: string)
    ensures |r| <= |s|
    ensures |r| > 0 && |s| > 0 ==> r[0] == s[0]
    ensures NoDoubleDash(r)
  {
    if |s| == 0 then ""
    else if |s| >= 2 && s[0] == '-' && s[1] == '-' then CollapseDashes(s[1..])
    else
      var rest := CollapseDashes(s[1..]);
      assert |rest| > 0 ==> rest[0] == s[1];
      [s[0]] + rest
  }

  /** The characters `remove_special_chars_v2` lets through before lower-casing. */
  predicate V2Char(c: char) { IsAlnum(c) || c == '-' || c == '\t' || c == '\n' }

  predicate AllV2(s: string) { forall k :: 0 <= k < |s| ==> V2Char(s[k]) }

  /**
   * `remove_special_chars_v2` as written. Its umlaut loop rewrites a variable
   * that is never read again, so of the four replacements only ß→ss applies;
   * the other umlauts go through the ASCII folding.
   */
  function RemoveSpecialCharsV2(name: string): (r: string)
    ensures |r| <= 64
  {
    V2Steps(AsciiFold(ReplaceAll(name, "ß", "ss")))
  }

  /**
   * The steps after the ASCII folding: other characters to '-', spaces to
   * '-', runs of '-' collapsed, surrounding '-' stripped, lower-cased, and
   * only then cut to 64 characters.
   */
  function V2Steps(folded: string): (r: string)
    ensures |r| <= 64
  {
    var lowered := V2Lowered(folded);
    if |lowered| <= 64 then lowered else lowered[..64]
  }

  /** The steps before the cut. */
  function V2Lowered(folded: string): string {
    var dashed := ReplaceAll(DashOthers(folded), " ", "-");
    var collapsed := TrimChar(CollapseDashes(dashed), '-');
    Lower(collapsed)
  }

  /** `name_to_id`; its own `[:64]` cuts nothing, the inner function has already truncated. */
  function NameToId(city: string, lot: string): (r: string)
    ensures |r| <= 64
    ensures IdShape(r)
  {
    var folded := AsciiFold(ReplaceAll(Lower(city + "-" + lot), "ß", "ss"));
    V2Shape(folded);
    V2Steps(folded)
  }

  /** Replacing spaces by '-' keeps every other character and removes the spaces. */
  lemma SpacesToDashes(d: string)
    requires forall k :: 0 <= k < |d| ==> V2Char(d[k]) || d[k] == ' '
    ensures AllV2(ReplaceAll(d, " ", "-"))
  {
    var r := ReplaceAll(d, " ", "-");
    assert " " == [' '];
    ReplaceCharRemoves(d, ' ', "-");
    forall k | 0 <= k < |r| ensures V2Char(r[k]) {
      var x := r[k];
      if !V2Char(x) {
        assert x !in d;
        ReplaceKeepsAbsent(d, ' ', "-", x);
      }
    }
  }

  lemma {:induction false} CollapseKeepsV2(s: string)
    requires AllV2(s)
    ensures AllV2(CollapseDashes(s))
    decreases |s|
  {
    if |s| > 0 {
      CollapseKeepsV2(s[1..]);
    }
  }

  /** Stripping '-' takes a slice, which keeps both the characters and the single dashes. */
  lemma TrimDashSlice(s: string)
    requires AllV2(s) && NoDoubleDash(s)
    ensures AllV2(TrimChar(s, '-')) && NoDoubleDash(TrimChar(s, '-'))
  {
    var off := TrimCharSlice(s, '-');
    SliceKeepsV2(s, off, off + |TrimChar(s, '-')|);
  }

  lemma SliceKeepsV2(s: string, i: int, j: int)
    requires AllV2(s) && NoDoubleDash(s) && 0 <= i <= j <= |s|
    ensures AllV2(s[i..j]) && NoDoubleDash(s[i..j])
  {
    assert forall k :: 0 <= k < j - i ==> s[i..j][k] == s[i + k];
  }

  /** Lower-casing turns the letters lower-case and keeps the dashes. */
  lemma LowerV2(s: string)
    requires AllV2(s) && NoDoubleDash(s)
    ensures forall k :: 0 <= k < |Lower(s)| ==> IdChar(Lower(s)[k])
    ensures NoDoubleDash(Lower(s))
  {
    forall k | 0 <= k < |s| ensures IdChar(Lower(s)[k]) && (Lower(s)[k] == '-' <==> s[k] == '-') {
      assert Lower(s)[k] == LowerChar(s[k]);
    }
  }

  /** The shape of the normalised id: allowed characters only, no leading '-', no "--". */
  predicate IdShape(r: string) {
    && (forall i :: 0 <= i < |r| ==> IdChar(r[i]))
    && (|r| > 0 ==> r[0] != '-')
    && NoDoubleDash(r)
  }

  lemma V2Shape(folded: string)
    ensures IdShape(V2Steps(folded))
  {
    var d1 := ReplaceAll(DashOthers(folded), " ", "-");
    assert AllV2(d1) by { SpacesToDashes(DashOthers(folded)); }
    var c0 := CollapseDashes(d1);
    assert AllV2(c0) && NoDoubleDash(c0) by { CollapseKeepsV2(d1); }
    var c1 := TrimChar(c0, '-');
    assert AllV2(c1) && NoDoubleDash(c1) && (|c1| > 0 ==> c1[0] != '-') by { TrimDashSlice(c0); }
    var lowered := Lower(c1);
    assert IdShape(lowered) by {
      LowerV2(c1);
      assert |lowered| > 0 ==> lowered[0] == LowerChar(c1[0]);
    }
    assert V2Lowered(folded) == lowered;
    CutShape(lowered);
  }

  /** Cutting a well-shaped id keeps its shape. */
  lemma CutShape(r: string)
    requires IdShape(r)
    ensures IdShape(if |r| <= 64 then r else r[..64])
  {
    if |r| > 64 {
      var c := r[..64];
      assert forall i :: 0 <= i < |c| ==> c[i] == r[i];
    }
  }

  /** Tab and newline survive: "a\tb" keeps its tab. */
  lemma V2KeepsTab()
    ensures RemoveSpecialCharsV2("a\tb") == "a\tb"
  {
    var s := "a\tb";
    NoOccurrenceIn(s, "ß");
    assert AsciiFold(s) == s;
    V2OfPlain(s);
  }

  lemma NoOccurrenceIn(s: string, pat: string)
    requires |pat| == 1 && pat[0] !in s
    ensures ReplaceAll(s, pat, "ss") == s
  {
    ContainsChar(s, pat[0]);
    assert pat == [pat[0]];
    ReplaceAbsent(s, pat, "ss");
  }

  lemma NoSpaceIn(s: string)
    requires ' ' !in s
    ensures ReplaceAll(s, " ", "-") == s
  {
    ContainsChar(s, ' ');
    assert " " == [' '];
    ReplaceAbsent(s, " ", "-");
  }

  lemma {:induction false} NoDashCollapse(w: string)
    requires '-' !in w
    ensures CollapseDashes(w) == w
  {
    if |w| > 0 {
      NoDashCollapse(w[1..]);
    }
  }

  /** Truncation comes after stripping: a long name can be cut right after a '-'. */
  lemma V2CutCanEndInDash(w: string)
    requires |w| == 63 && LowerAscii(w)
    ensures V2Steps(w + "-b") == w + "-"
  {
    var s := w + "-b";
    assert V2Lowered(s) == s by { DashedWord(w); }
    CutOfLowered(s);
    assert s[..|w| + 1] == w + "-";
  }

  /** A lower-case word, a dash and a letter pass the steps before the cut unchanged. */
  lemma DashedWord(w: string)
    requires |w| > 0 && LowerAscii(w)
    ensures V2Lowered(w + "-b") == w + "-b"
  {
    var s := w + "-b";
    assert LowerDashed(s) && NoDoubleDash(s) && s[0] != '-' && s[|s| - 1] != '-' by {
      assert forall k :: 0 <= k < |w| ==> s[k] == w[k];
    }
    DashedSteps(s);
  }

  /** A text the steps before the cut leave alone is cut to its first 64 characters. */
  lemma CutOfLowered(s: string)
    requires V2Lowered(s) == s && |s| > 64
    ensures V2Steps(s) == s[..64]
  {
  }

  predicate LowerDashed(s: string) { forall k :: 0 <= k < |s| ==> 'a' <= s[k] <= 'z' || s[k] == '-' }

  /** A lower-case word with single inner dashes passes the steps before the cut unchanged. */
  lemma DashedSteps(s: string)
    requires |s| > 0 && LowerDashed(s) && NoDoubleDash(s) && s[0] != '-' && s[|s| - 1] != '-'
    ensures V2Lowered(s) == s
  {
    assert DashOthers(s) == s by { DashOthersKeeps(s); }
    assert ReplaceAll(s, " ", "-") == s by {
      assert ' ' !in s by {
        forall k | 0 <= k < |s| ensures s[k] != ' ' { }
      }
      NoSpaceIn(s);
    }
    assert CollapseDashes(s) == s by { CollapseSingleDashes(s); }
    assert TrimChar(s, '-') == s by { TrimKeeps(s, '-'); }
    assert Lower(s) == s by { LowerKeepsDashed(s); }
  }

  lemma TrimKeeps(s: string, c: char)
    requires |s| > 0 && s[0] != c && s[|s| - 1] != c
    ensures TrimChar(s, c) == s
  {
    assert TrimLeftChar(s, c) == s;
  }

  lemma LowerKeepsDashed(s: string)
    requires LowerDashed(s)
    ensures Lower(s) == s
  {
    forall k | 0 <= k < |s| ensures Lower(s)[k] == s[k] { }
  }

  lemma DashOthersKeeps(s: string)
    requires LowerDashed(s)
    ensures DashOthers(s) == s
  {
  }

  lemma {:induction false} CollapseSingleDashes(s: string)
    requires NoDoubleDash(s)
    ensures CollapseDashes(s) == s
    decreases |s|
  {
    if |s| > 0 {
      CollapseSingleDashes(s[1..]);
    }
  }

  /** Only the "ß" replacement takes effect: "ä" folds to "a", not "ae". */
  lemma UmlautsFoldNotExpand()
    ensures RemoveSpecialCharsV2("ä") == "a"
    ensures RemoveSpecialCharsV2("ß") == "ss"
  {
    NoOccurrenceIn("ä", "ß");
    assert AsciiFold("ä") == "a";
    V2OfPlain("a");
    ReplaceSharpS();
    assert AsciiFold("ss") == "ss";
    V2OfPlain("ss");
  }

  lemma ReplaceSharpS()
    ensures ReplaceAll("ß", "ß", "ss") == "ss"
  {
    assert Find("ß", "ß") == Some(0);
    assert "ß"[1..] == "";
  }

  /** Lower-case letters, digits, tab and newline: what the steps after the folding leave alone. */
  predicate PlainId(w: string) {
    forall k :: 0 <= k < |w| ==> 'a' <= w[k] <= 'z' || IsDigit(w[k]) || w[k] == '\t' || w[k] == '\n'
  }

  /** The steps after the folding leave a short plain word as it is. */
  lemma V2OfPlain(w: string)
    requires 0 < |w| <= 64 && PlainId(w)
    ensures V2Steps(w) == w
  {
    PlainLowered(w);
  }

  /** The steps before the cut leave a plain word as it is. */
  lemma PlainLowered(w: string)
    requires 0 < |w| && PlainId(w)
    ensures V2Lowered(w) == w
  {
    PlainKept(w);
    assert ReplaceAll(w, " ", "-") == w by { NoSpaceIn(w); }
    assert CollapseDashes(w) == w by { NoDashCollapse(w); }
    assert TrimChar(w, '-') == w by { NoDashTrim(w); }
  }

  /** A plain word has no space and no dash, and neither the dashing nor lower-casing changes it. */
  lemma PlainKept(w: string)
    requires PlainId(w)
    ensures ' ' !in w && '-' !in w && DashOthers(w) == w && Lower(w) == w
  {
    assert DashOthers(w) == w by {
      forall k | 0 <= k < |w| ensures DashOthers(w)[k] == w[k] { }
    }
    assert ' ' !in w && '-' !in w by {
      forall k | 0 <= k < |w| ensures w[k] != ' ' && w[k] != '-' { }
    }
    assert Lower(w) == w by {
      forall k | 0 <= k < |w| ensures Lower(w)[k] == w[k] { }
    }
  }

  lemma NoDashTrim(w: string)
    requires |w| > 0 && PlainId(w)
    ensures TrimChar(w, '-') == w
  {
    assert TrimLeftChar(w, '-') == w;
  }


  // ---------------------------------------------------------- int_or_none

  /** `int_or_none` after `str()`: leading zeros stripped when longer than one character, then `int()`. */
  function IntOrNoneOfString(s: string): Option<int> {
    ParseInt(if |s| > 1 then TrimLeftChar(s, '0') else s)
  }

  /** `int_or_none`: `str()` of the value, then the string rules; a failed `int()` gives None. */
  function IntOrNone(v: Value): (r: Option<int>)
    requires !v.List? && !v.Obj?
    requires v.Moment? ==> ValidDateTime(v.dt)
    ensures v.Str? ==> r == IntOrNoneOfString(v.s)
    ensures v.Null? || v.Bool? ==> r.None?
  {
    if v.Null? || v.Bool? then
      WordIsNoInt(PyStr(v));
      IntOrNoneOfString(PyStr(v))
    else IntOrNoneOfString(PyStr(v))
  }

  /** A word starting with a capital letter is no integer: `str(None)`, `str(True)`, `str(False)`. */
  lemma WordIsNoInt(s: string)
    requires |s| > 1 && 'A' <= s[0] <= 'Z' && 'a' <= s[|s| - 1] <= 'z'
    ensures IntOrNoneOfString(s).None?
  {
    NoLeadingZero(s);
    CapitalisedIsNoInt(s);
  }

  lemma NoLeadingZero(s: string)
    requires |s| > 0 && s[0] != '0'
    ensures TrimLeftChar(s, '0') == s
  {
  }

  lemma CapitalisedIsNoInt(s: string)
    requires |s| > 1 && 'A' <= s[0] <= 'Z' && 'a' <= s[|s| - 1] <= 'z'
    ensures ParseInt(s).None?
  {
    StripNoSurroundingSpace(s);
  }

  /** The decimal string of a natural number, and the number itself, read back as that number. */
  lemma IntOrNoneOfNat(n: nat)
    ensures IntOrNoneOfString(NatToString(n)) == Some(n)
    ensures IntOrNone(Int(n)) == Some(n)
  {
    IntOrNoneOfNatString(n);
    PyStrOfNat(n);
  }

  lemma PyStrOfNat(n: nat)
    ensures PyStr(Int(n)) == NatToString(n)
  {
  }

  /** The string half: a decimal spelling has no leading zero to strip. */
  lemma IntOrNoneOfNatString(n: nat)
    ensures IntOrNoneOfString(NatToString(n)) == Some(n)
  {
    var s := NatToString(n);
    ParseIntOfNat(n);
    if |s| > 1 {
      NoLeadingZero(s);
    }
  }

  /** Leading zeros are stripped: "007" reads as 7. */
  lemma IntOrNoneLeadingZeros()
    ensures IntOrNoneOfString("007") == Some(7)
  {
    assert TrimLeftChar("007", '0') == "7" by {
      assert "007"[1..] == "07" && "07"[1..] == "7";
    }
    assert NatToString(7) == "7";
    ParseIntOfNat(7);
  }

  /** A lone "0" is kept, but "00" is stripped to the empty string, which `int()` rejects. */
  lemma IntOrNoneZeros()
    ensures IntOrNoneOfString("0") == Some(0)
    ensures IntOrNoneOfString("00") == None
  {
    IntOrNoneLoneZero();
    IntOrNoneDoubleZero();
  }

  lemma IntOrNoneLoneZero()
    ensures IntOrNoneOfString("0") == Some(0)
  {
    assert NatToString(0) == "0";
    ParseIntOfNat(0);
  }

  lemma IntOrNoneDoubleZero()
    ensures IntOrNoneOfString("00") == None
  {
    assert TrimLeftChar("00", '0') == "" by {
      assert "00"[1..] == "0" && "0"[1..] == "";
    }
    ParseIntRejectsEmpty();
  }

  // ------------------------------------------------------ parse_geojson lines

  /** A line whose first non-blank character is '#'. */
  predicate IsCommentLine(line: string) { StartsWith(StripLeft(line), "#") }

  /** The lines `parse_geojson` keeps, in their original order. */
  function CommentFreeLines(lines: seq<string>): (r: seq<string>)
    ensures |r| <= |lines|
    ensures forall l :: l in r <==> l in lines && !IsCommentLine(l)
  {
    if |lines| == 0 then []
    else (if IsCommentLine(lines[0]) then [] else [lines[0]]) + CommentFreeLines(lines[1..])
  }

  /** Filtering distributes over concatenation, so the kept lines keep their relative order. */
  lemma {:induction false} CommentFreeConcat(a: seq<string>, b: seq<string>)
    ensures CommentFreeLines(a + b) == CommentFreeLines(a) + CommentFreeLines(b)
  {
    if |a| > 0 {
      var x, rest := a[0], a[1..];
      assert a == [x] + rest;
      assert a + b == [x] + (rest + b);
      CommentFreeCons(x, rest + b);
      CommentFreeCons(x, rest);
      CommentFreeConcat(rest, b);
    } else {
      assert a + b == b;
    }
  }

  lemma CommentFreeCons(x: string, rest: seq<string>)
    ensures CommentFreeLines([x] + rest) == (if IsCommentLine(x) then [] else [x]) + CommentFreeLines(rest)
  {
    assert ([x] + rest)[1..] == rest;
  }
}
