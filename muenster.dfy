/**
 * original/muenster.py: the name parser of the Münster scraper, which
 * reads a lot's type, its name and its legacy id from the feature's NAME
 * ("Parkhaus Theater", "Parkplatz Busparkplatz Hafen"), and the status
 * table its lot data consults.
 */
module Muenster {
  import opened Wrappers
  import opened Text
  import opened Values
  import opened LegacyStrings
  import opened LegacyStructs

  /** `POOL.id`. */
  const PoolId := "muenster"

  /** The text rewritten before splitting, and what it becomes. */
  const BusPrefix := "Parkplatz Busparkplatz"
  const BusWord := "Busparkplatz"

  /** `split_name[0]` on a name without any word. */
  const NoWord := Raised("IndexError", "list index out of range")

  /** `type_mapping.get(word, unknown)`: the lot type a leading word names. */
  function TypeOfWord(w: string): (t: string)
    ensures t in LotTypes
    ensures t == "lot" <==> w == "Parkplatz"
    ensures t == "garage" <==> w == "Parkhaus"
    ensures t == "bus" <==> w == BusWord
  {
    if w == "Parkplatz" then "lot"
    else if w == "Parkhaus" then "garage"
    else if w == BusWord then "bus"
    else "unknown"
  }

  /** `type_abbrevation_mapping.get(type, '')`: the prefix of the legacy id. */
  function Abbreviation(lotType: string): (a: string)
    ensures lotType == "lot" ==> a == "pp"
    ensures lotType == "garage" ==> a == "ph"
    ensures lotType != "lot" && lotType != "garage" ==> a == ""
  {
    if lotType == "lot" then "pp" else if lotType == "garage" then "ph" else ""
  }

  /**
   * `process_name`: after the rewrite the name is split into words; the
   * first picks the type, the lot name is the other words joined by single
   * spaces (the word itself when it is the only one), and the legacy id is
   * built from the pool id and the abbreviated type before the lot name.
   * A name without any word raises.
   */
  function ProcessName(name: string): (r: Result<(string, string, string), Fault>)
    ensures r.Err? <==> Words(ReplaceAll(name, BusPrefix, BusWord)) == []
    ensures r.Err? ==> r.error == NoWord
    ensures r.Ok? ==>
      var (lotType, lotName, legacyId) := r.value;
      && lotType in LotTypes
      && lotName != ""
      && legacyId == NameToLegacyId(PoolId, Abbreviation(lotType) + lotName)
  {
    var words := Words(ReplaceAll(name, BusPrefix, BusWord));
    if |words| == 0 then Err(NoWord)
    else
      var lotType := TypeOfWord(words[0]);
      var joined := if |words| == 1 then words[0] else Join(" ", words[1..]);
      JoinedWordsPlain(words);
      var lotName := Strip(joined);
      Ok((lotType, lotName, NameToLegacyId(PoolId, Abbreviation(lotType) + lotName)))
  }

  /** A name made only of whitespace has no first word, and `process_name` raises. */
  lemma BlankNameRaises(name: string)
    requires forall k :: 0 <= k < |name| ==> IsSpace(name[k])
    ensures ProcessName(name) == Err(NoWord)
  {
    BlankName(name);
  }

  /** A blank name is left alone by the rewrite and has no words. */
  lemma BlankName(name: string)
    requires forall k :: 0 <= k < |name| ==> IsSpace(name[k])
    ensures ReplaceAll(name, BusPrefix, BusWord) == name && Words(name) == []
  {
    ContainsIff(name, BusPrefix);
    assert forall j :: 0 <= j < |name| ==> name[j] != BusPrefix[0];
    ReplaceAbsent(name, BusPrefix, BusWord);
  }

  /** The lot name before stripping is non-empty and without surrounding whitespace. */
  lemma JoinedWordsPlain(words: seq<string>)
    requires |words| > 0 && AreWords(words)
    ensures var joined := if |words| == 1 then words[0] else Join(" ", words[1..]);
      Strip(joined) == joined && joined != ""
  {
    if |words| == 1 {
      StripNoSurroundingSpace(words[0]);
    } else {
      JoinEnds(words[1..]);
      StripNoSurroundingSpace(Join(" ", words[1..]));
    }
  }

  /** The lot name `process_name` takes from the words: all but the first, or the only one. */
  function LotNameOf(ws: seq<string>): string
    requires |ws| > 0
  {
    if |ws| == 1 then ws[0] else Join(" ", ws[1..])
  }

  /** A name whose rewrite is words joined by single spaces is parsed word by word. */
  lemma ProcessRewritten(name: string, ws: seq<string>)
    requires |ws| > 0 && AreWords(ws)
    requires ReplaceAll(name, BusPrefix, BusWord) == Join(" ", ws)
    ensures ProcessName(name)
            == Ok((TypeOfWord(ws[0]), LotNameOf(ws), NameToLegacyId(PoolId, Abbreviation(TypeOfWord(ws[0])) + LotNameOf(ws))))
  {
    WordsOfJoin(ws);
    JoinedWordsPlain(ws);
  }

  /**
   * A name made of words joined by single spaces, without the rewritten
   * text: the first word picks the type, the others form the lot name, or
   * the word itself when it is alone.
   */
  lemma ProcessWords(ws: seq<string>)
    requires |ws| > 0 && AreWords(ws)
    requires !Contains(Join(" ", ws), BusPrefix)
    ensures ProcessName(Join(" ", ws))
            == Ok((TypeOfWord(ws[0]), LotNameOf(ws), NameToLegacyId(PoolId, Abbreviation(TypeOfWord(ws[0])) + LotNameOf(ws))))
  {
    ReplaceAbsent(Join(" ", ws), BusPrefix, BusWord);
    ProcessRewritten(Join(" ", ws), ws);
  }

  /**
   * "Parkplatz Busparkplatz" in front is rewritten first, so such a lot is
   * a bus lot named by the words after it, with no abbreviation in its id.
   */
  lemma BusLotRewritten(ws: seq<string>)
    requires |ws| > 0 && AreWords(ws)
    requires !Contains(" " + Join(" ", ws), BusPrefix)
    ensures ProcessName(BusPrefix + (" " + Join(" ", ws)))
            == Ok(("bus", Join(" ", ws), NameToLegacyId(PoolId, Join(" ", ws))))
  {
    RewriteToWords(ws);
    ProcessAfterFirst(BusPrefix + (" " + Join(" ", ws)), BusWord, ws);
    BusType();
    assert "" + Join(" ", ws) == Join(" ", ws);
  }

  /** The bus word picks the type "bus", which has no abbreviation. */
  lemma BusType()
    ensures TypeOfWord(BusWord) == "bus" && Abbreviation("bus") == ""
  {
  }

  /** A name rewritten to a first word and more words: the lot name is the other words. */
  lemma ProcessAfterFirst(name: string, w: string, ws: seq<string>)
    requires |ws| > 0 && AreWords([w] + ws) && ([w] + ws)[0] == w
    requires ReplaceAll(name, BusPrefix, BusWord) == Join(" ", [w] + ws)
    ensures ProcessName(name) == Ok((TypeOfWord(w), Join(" ", ws), NameToLegacyId(PoolId, Abbreviation(TypeOfWord(w)) + Join(" ", ws))))
  {
    LotNameAfterFirst(w, ws);
    ProcessRewritten(name, [w] + ws);
  }

  /** With words after the first, the lot name is those words. */
  lemma LotNameAfterFirst(w: string, ws: seq<string>)
    requires |ws| > 0
    ensures LotNameOf([w] + ws) == Join(" ", ws)
  {
    assert ([w] + ws)[1..] == ws;
  }

  /** After the rewrite, the bus word stands in front of the other words. */
  lemma RewriteToWords(ws: seq<string>)
    requires |ws| > 0 && AreWords(ws)
    requires !Contains(" " + Join(" ", ws), BusPrefix)
    ensures AreWords([BusWord] + ws) && ([BusWord] + ws)[0] == BusWord && ([BusWord] + ws)[1..] == ws
    ensures ReplaceAll(BusPrefix + (" " + Join(" ", ws)), BusPrefix, BusWord) == Join(" ", [BusWord] + ws)
  {
    RewriteLeadingBusPrefix(" " + Join(" ", ws));
    BusWordIsWord();
    WordInFront(BusWord, ws);
  }

  lemma BusWordIsWord()
    ensures |BusWord| > 0 && NoSpace(BusWord)
  {
  }

  /** A word put in front of words joined by single spaces. */
  lemma WordInFront(w: string, ws: seq<string>)
    requires |w| > 0 && NoSpace(w) && |ws| > 0 && AreWords(ws)
    ensures AreWords([w] + ws) && ([w] + ws)[0] == w && ([w] + ws)[1..] == ws
    ensures Join(" ", [w] + ws) == w + (" " + Join(" ", ws))
  {
    WordsCons(w, ws);
    JoinInFront(w, ws);
  }

  lemma WordsCons(w: string, ws: seq<string>)
    requires |w| > 0 && NoSpace(w) && AreWords(ws)
    ensures AreWords([w] + ws) && ([w] + ws)[0] == w && ([w] + ws)[1..] == ws
  {
    var all := [w] + ws;
    assert all[1..] == ws;
    forall i | 0 <= i < |all|
      ensures |all[i]| > 0 && NoSpace(all[i])
    {
      if i > 0 {
        assert all[i] == ws[i - 1];
      }
    }
  }

  lemma JoinInFront(w: string, ws: seq<string>)
    requires |ws| > 0
    ensures Join(" ", [w] + ws) == w + (" " + Join(" ", ws))
  {
    JoinCons(" ", w, ws);
    ConcatAssoc(w, " ", Join(" ", ws));
  }

  lemma ConcatAssoc(a: string, b: string, c: string)
    ensures a + b + c == a + (b + c)
  {
  }

  /** The rewrite at the front of a name, with no further occurrence after it. */
  lemma RewriteLeadingBusPrefix(rest: string)
    requires !Contains(rest, BusPrefix)
    ensures ReplaceAll(BusPrefix + rest, BusPrefix, BusWord) == BusWord + rest
  {
    var name := BusPrefix + rest;
    assert name[..|BusPrefix|] == BusPrefix;
    assert Find(name, BusPrefix) == Some(0);
    assert name[|BusPrefix|..] == rest;
    ReplaceAbsent(rest, BusPrefix, BusWord);
  }

  /** `STATE_MAP`: the three entries of the status table. */
  const StateMap: seq<(string, string)> := [("frei", "open"), ("geschlossen", "closed"), ("besetzt", "open")]

  /**
   * `STATE_MAP.get(NAME, unknown)`: the table is looked up by the lot's
   * NAME, so a status other than "unknown" comes only from a name that is
   * itself one of the three words.
   */
  function StatusOfName(name: string): (s: string)
    ensures s in LotStatuses
    ensures s != "unknown" <==> name in {"frei", "geschlossen", "besetzt"}
    ensures name == "geschlossen" ==> s == "closed"
    ensures name == "frei" || name == "besetzt" ==> s == "open"
  {
    if name == StateMap[0].0 then StateMap[0].1
    else if name == StateMap[1].0 then StateMap[1].1
    else if name == StateMap[2].0 then StateMap[2].1
    else "unknown"
  }

  /** A name the parser gives a known type has the status "unknown". */
  lemma TypedLotsHaveUnknownStatus(ws: seq<string>)
    requires |ws| > 0 && AreWords(ws)
    requires !Contains(Join(" ", ws), BusPrefix)
    requires TypeOfWord(ws[0]) != "unknown"
    ensures StatusOfName(Join(" ", ws)) == "unknown"
  {
    if |ws| == 1 {
      assert Join(" ", ws) == ws[0];
    } else {
      JoinEnds(ws);
      assert Join(" ", ws) == ws[0] + " " + Join(" ", ws[1..]);
      assert Join(" ", ws)[|ws[0]|] == ' ';
    }
  }
}
