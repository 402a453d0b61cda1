/**
 * The Python string operations the parking-source code relies on
 * (`str.lower`, `strip`, `split`, `replace`, `in`, `int()`, `float()`,
 * `str()` of numbers), written out over `seq<char>`.
 */
module Text {
  import opened Wrappers

  // ---------------------------------------------------------------- chars

  predicate IsDigit(c: char) { '0' <= c <= '9' }

  predicate IsAsciiLetter(c: char) { 'a' <= c <= 'z' || 'A' <= c <= 'Z' }

  /** `str.isalnum` restricted to ASCII, the only characters left after ASCII folding. */
  predicate IsAlnum(c: char) { IsDigit(c) || IsAsciiLetter(c) }

  /** The whitespace set of `str.strip()` and `str.split()` for ASCII text. */
  predicate IsSpace(c: char) {
    c == ' ' || c == '\t' || c == '\n' || c == '\r' || c == '\U{0B}' || c == '\U{0C}'
  }

  /** `str.lower` on one character: ASCII capitals and the German umlaut capitals. */
  function LowerChar(c: char): (r: char)
    ensures 'A' <= c <= 'Z' ==> r as int == c as int + 32
    ensures !('A' <= c <= 'Z') && c != 'Ä' && c != 'Ö' && c != 'Ü' ==> r == c
    ensures !('A' <= r <= 'Z')
  {
    if 'A' <= c <= 'Z' then (c as int + 32) as char
    else if c == 'Ä' then 'ä'
    else if c == 'Ö' then 'ö'
    else if c == 'Ü' then 'ü'
    else c
  }

  function Lower(s: string): (r: string)
    ensures |r| == |s|
    ensures forall i :: 0 <= i < |s| ==> r[i] == LowerChar(s[i])
  {
    seq(|s|, i requires 0 <= i < |s| => LowerChar(s[i]))
  }

  lemma LowerIdempotent(s: string)
    ensures Lower(Lower(s)) == Lower(s)
  {
    assert forall i :: 0 <= i < |s| ==> LowerChar(LowerChar(s[i])) == LowerChar(s[i]);
  }

  lemma LowerConcat(a: string, b: string)
    ensures Lower(a + b) == Lower(a) + Lower(b)
  {
    assert forall i :: 0 <= i < |a + b| ==> Lower(a + b)[i] == (Lower(a) + Lower(b))[i];
  }

  // --------------------------------------------------------------- digits

  predicate AllDigits(s: string) { forall i :: 0 <= i < |s| ==> IsDigit(s[i]) }

  function DigitValue(c: char): nat
    requires IsDigit(c)
  {
    c as int - '0' as int
  }

  function DigitChar(d: nat): (c: char)
    requires d < 10
    ensures IsDigit(c) && DigitValue(c) == d
  {
    ('0' as int + d) as char
  }

  /** The number a run of decimal digits denotes (most significant first). */
  function DigitsValue(s: string): nat
    requires AllDigits(s)
  {
    if |s| == 0 then 0 else DigitsValue(s[..|s| - 1]) * 10 + DigitValue(s[|s| - 1])
  }

  /** `str(n)` for a natural number: no sign, no leading zero. */
  function NatToString(n: nat): (s: string)
    ensures |s| > 0 && AllDigits(s)
    ensures |s| > 1 ==> s[0] != '0'
  {
    if n < 10 then [DigitChar(n)] else NatToString(n / 10) + [DigitChar(n % 10)]
  }

  lemma {:induction false} NatToStringValue(n: nat)
    ensures DigitsValue(NatToString(n)) == n
  {
    if n >= 10 {
      var s := NatToString(n);
      assert s[..|s| - 1] == NatToString(n / 10);
      NatToStringValue(n / 10);
    }
  }

  /** `str(i)` for a Python int. */
  function IntToString(i: int): (s: string)
    ensures |s| > 0
  {
    if i < 0 then "-" + NatToString(-i) else NatToString(i)
  }

  lemma {:induction false} DigitsValueZeroPrefix(z: nat, s: string)
    requires AllDigits(s)
    ensures AllDigits(Zeros(z) + s) && DigitsValue(Zeros(z) + s) == DigitsValue(s)
    decreases |s|
  {
    var t := Zeros(z) + s;
    if |s| == 0 {
      assert t == Zeros(z);
      ZerosValue(z);
    } else {
      assert t[..|t| - 1] == Zeros(z) + s[..|s| - 1];
      DigitsValueZeroPrefix(z, s[..|s| - 1]);
    }
  }

  function Zeros(n: nat): (s: string)
    ensures |s| == n && AllDigits(s)
    ensures forall i :: 0 <= i < n ==> s[i] == '0'
  {
    seq(n, i => '0')
  }

  lemma {:induction false} ZerosValue(n: nat)
    ensures DigitsValue(Zeros(n)) == 0
  {
    if n > 0 {
      assert Zeros(n)[..n - 1] == Zeros(n - 1);
      ZerosValue(n - 1);
    }
  }

  // ------------------------------------------------------------ stripping

  function StripLeft(s: string): (r: string)
    ensures |r| <= |s| && r == s[|s| - |r|..]
    ensures forall i :: 0 <= i < |s| - |r| ==> IsSpace(s[i])
    ensures |r| > 0 ==> !IsSpace(r[0])
  {
    if |s| > 0 && IsSpace(s[0]) then
      var r := StripLeft(s[1..]);
      assert s[1..][|s| - 1 - |r|..] == s[|s| - |r|..];
      r
    else s
  }

  function StripRight(s: string): (r: string)
    ensures |r| <= |s| && r == s[..|r|]
    ensures forall i :: |r| <= i < |s| ==> IsSpace(s[i])
    ensures |r| > 0 ==> !IsSpace(r[|r| - 1])
  {
    if |s| > 0 && IsSpace(s[|s| - 1]) then StripRight(s[..|s| - 1]) else s
  }

  /** `str.strip()`: surrounding whitespace removed. */
  function Strip(s: string): (r: string)
    ensures |r| > 0 ==> !IsSpace(r[0]) && !IsSpace(r[|r| - 1])
  {
    StripRight(StripLeft(s))
  }

  lemma {:induction false} StripLeftSpaces(pre: string, s: string)
    requires forall k :: 0 <= k < |pre| ==> IsSpace(pre[k])
    ensures StripLeft(pre + s) == StripLeft(s)
    decreases |pre|
  {
    if |pre| > 0 {
      assert (pre + s)[1..] == pre[1..] + s;
      StripLeftSpaces(pre[1..], s);
    } else {
      assert pre + s == s;
    }
  }

  lemma {:induction false} StripRightSpaces(s: string, post: string)
    requires forall k :: 0 <= k < |post| ==> IsSpace(post[k])
    ensures StripRight(s + post) == StripRight(s)
    decreases |post|
  {
    if |post| > 0 {
      assert (s + post)[..|s + post| - 1] == s + post[..|post| - 1];
      StripRightSpaces(s, post[..|post| - 1]);
    } else {
      assert s + post == s;
    }
  }

  /** Stripping removes exactly the whitespace padding around a text without surrounding whitespace. */
  lemma StripPadded(pre: string, s: string, post: string)
    requires forall k :: 0 <= k < |pre| ==> IsSpace(pre[k])
    requires forall k :: 0 <= k < |post| ==> IsSpace(post[k])
    requires |s| > 0 ==> !IsSpace(s[0]) && !IsSpace(s[|s| - 1])
    ensures Strip(pre + s + post) == s
  {
    assert pre + s + post == pre + (s + post);
    StripLeftSpaces(pre, s + post);
    if |s| > 0 {
      assert StripLeft(s + post) == s + post;
    } else {
      assert s + post == post;
      StripLeftSpaces(post, "");
      assert post + "" == post;
    }
    StripRightSpaces(s, post);
    StripNoSurroundingSpace(s);
  }

  lemma StripNoSurroundingSpace(s: string)
    requires |s| > 0 ==> !IsSpace(s[0]) && !IsSpace(s[|s| - 1])
    ensures Strip(s) == s
  {
  }

  /** `str.lstrip(c)` for one character. */
  function TrimLeftChar(s: string, c: char): (r: string)
    ensures |r| <= |s| && r == s[|s| - |r|..]
    ensures forall i :: 0 <= i < |s| - |r| ==> s[i] == c
    ensures |r| > 0 ==> r[0] != c
  {
    if |s| > 0 && s[0] == c then TrimLeftChar(s[1..], c) else s
  }

  /** `str.rstrip(c)` for one character. */
  function TrimRightChar(s: string, c: char): (r: string)
    ensures |r| <= |s| && r == s[..|r|]
    ensures |r| > 0 ==> r[|r| - 1] != c
  {
    if |s| > 0 && s[|s| - 1] == c then TrimRightChar(s[..|s| - 1], c) else s
  }

  /** `str.strip(c)` for one character. */
  function TrimChar(s: string, c: char): (r: string)
    ensures |r| <= |s|
    ensures |r| > 0 ==> r[0] != c && r[|r| - 1] != c
  {
    TrimRightChar(TrimLeftChar(s, c), c)
  }

  /** Stripping a character takes a slice: the offset where the stripped text starts. */
  lemma TrimCharSlice(s: string, c: char) returns (off: nat)
    ensures off + |TrimChar(s, c)| <= |s| && TrimChar(s, c) == s[off..off + |TrimChar(s, c)|]
  {
    var l := TrimLeftChar(s, c);
    var t := TrimRightChar(l, c);
    off := |s| - |l|;
    assert t == l[..|t|];
    assert l == s[off..];
  }

  // ---------------------------------------------------- searching, splitting

  predicate Occurs(s: string, sub: string, i: int) {
    0 <= i && i + |sub| <= |s| && s[i..i + |sub|] == sub
  }

  /** Index of the first occurrence of `sub` in `s`, as `str.find` (None for -1). */
  function Find(s: string, sub: string): (r: Option<nat>)
    ensures r.Some? ==> Occurs(s, sub, r.value)
    ensures r.Some? ==> forall j :: 0 <= j < r.value ==> !Occurs(s, sub, j)
    ensures r.None? ==> forall j :: !Occurs(s, sub, j)
    decreases |s|
  {
    if |s| < |sub| then None
    else if s[..|sub|] == sub then Some(0)
    else
      match Find(s[1..], sub)
      case None =>
        assert forall j :: Occurs(s, sub, j) && j > 0 ==> Occurs(s[1..], sub, j - 1) by {
          forall j | Occurs(s, sub, j) && j > 0 ensures Occurs(s[1..], sub, j - 1) {
            assert s[1..][j - 1..j - 1 + |sub|] == s[j..j + |sub|];
          }
        }
        None
      case Some(k) =>
        assert s[1..][k..k + |sub|] == s[k + 1..k + 1 + |sub|];
        assert forall j :: 0 < j < k + 1 && Occurs(s, sub, j) ==> Occurs(s[1..], sub, j - 1) by {
          forall j | 0 < j < k + 1 && Occurs(s, sub, j) ensures Occurs(s[1..], sub, j - 1) {
            assert s[1..][j - 1..j - 1 + |sub|] == s[j..j + |sub|];
          }
        }
        Some(k + 1)
  }

  /** The first occurrence, characterised without computing it. */
  lemma FindFirst(s: string, sub: string, i: nat)
    requires Occurs(s, sub, i) && forall j :: 0 <= j < i ==> !Occurs(s, sub, j)
    ensures Find(s, sub) == Some(i)
  {
  }

  /** The first occurrence of a character not in a prefix is right after that prefix. */
  lemma FindCharAfter(prefix: string, c: char, rest: string)
    requires c !in prefix
    ensures Find(prefix + [c] + rest, [c]) == Some(|prefix|)
  {
    var s := prefix + [c] + rest;
    assert s[|prefix|..|prefix| + 1] == [c];
    forall j | 0 <= j < |prefix| ensures !Occurs(s, [c], j) {
      assert s[j..j + 1] == [prefix[j]];
    }
    FindFirst(s, [c], |prefix|);
  }

  /** Python's `sub in s` on strings: a substring test. */
  predicate Contains(s: string, sub: string) { Find(s, sub).Some? }

  lemma ContainsIff(s: string, sub: string)
    ensures Contains(s, sub) <==> exists i :: Occurs(s, sub, i)
  {
    if Contains(s, sub) {
      assert Occurs(s, sub, Find(s, sub).value);
    }
  }

  lemma ContainsChar(s: string, c: char)
    ensures Contains(s, [c]) <==> c in s
  {
    ContainsIff(s, [c]);
    if c in s {
      var i :| 0 <= i < |s| && s[i] == c;
      assert s[i..i + 1] == [c];
      assert Occurs(s, [c], i);
    }
    if exists i :: Occurs(s, [c], i) {
      var i :| Occurs(s, [c], i);
      assert s[i] == s[i..i + 1][0];
    }
  }

  /** `sep.join(parts)`. */
  function Join(sep: string, parts: seq<string>): string {
    if |parts| == 0 then ""
    else if |parts| == 1 then parts[0]
    else parts[0] + sep + Join(sep, parts[1..])
  }

  /** `s.split(sep)` for a non-empty separator: the pieces between the occurrences. */
  function Split(s: string, sep: string): (parts: seq<string>)
    requires |sep| > 0
    ensures |parts| >= 1
    ensures forall i :: 0 <= i < |parts| ==> !Contains(parts[i], sep)
    decreases |s|
  {
    match Find(s, sep)
    case None => [s]
    case Some(i) =>
      var head := s[..i];
      assert !Contains(head, sep) by {
        forall j | Occurs(head, sep, j) ensures false {
          assert head[j..j + |sep|] == s[j..j + |sep|];
          assert Occurs(s, sep, j);
        }
      }
      [head] + Split(s[i + |sep|..], sep)
  }

  /** The first two pieces of a split, located by the first two occurrences. */
  lemma SplitPieces(s: string, sep: string)
    requires |sep| > 0
    ensures !Contains(s, sep) <==> Split(s, sep) == [s]
    ensures Contains(s, sep) ==>
      var i := Find(s, sep).value;
      var rest := s[i + |sep|..];
      && |Split(s, sep)| >= 2
      && Split(s, sep)[0] == s[..i]
      && Split(s, sep)[1] == (if Contains(rest, sep) then rest[..Find(rest, sep).value] else rest)
  {
    if Contains(s, sep) {
      var i := Find(s, sep).value;
      var rest := s[i + |sep|..];
      assert Split(s, sep) == [s[..i]] + Split(rest, sep);
    }
  }

  lemma {:induction false} SplitJoin(s: string, sep: string)
    requires |sep| > 0
    ensures Join(sep, Split(s, sep)) == s
    decreases |s|
  {
    match Find(s, sep)
    case None =>
    case Some(i) =>
      var rest := s[i + |sep|..];
      SplitJoin(rest, sep);
      SplitFirst(s, sep);
      JoinCons(sep, s[..i], Split(rest, sep));
  }

  /** The first piece of a split is the text before the first occurrence. */
  lemma SplitFirst(s: string, sep: string)
    requires |sep| > 0 && Find(s, sep).Some?
    ensures var i := Find(s, sep).value;
      && Split(s, sep) == [s[..i]] + Split(s[i + |sep|..], sep)
      && s == s[..i] + sep + s[i + |sep|..]
  {
    OccursAround(s, sep, Find(s, sep).value);
  }

  /** A text is what stands before an occurrence, the occurrence and what follows. */
  lemma OccursAround(s: string, sub: string, i: int)
    requires Occurs(s, sub, i)
    ensures s == s[..i] + sub + s[i + |sub|..]
  {
    assert s == s[..i] + s[i..i + |sub|] + s[i + |sub|..];
  }

  /** A part in front of at least one other part is followed by the separator. */
  lemma JoinCons(sep: string, p: string, tail: seq<string>)
    requires |tail| >= 1
    ensures Join(sep, [p] + tail) == p + sep + Join(sep, tail)
  {
    assert ([p] + tail)[1..] == tail;
  }

  /** `s.replace(pat, rep)`: every leftmost non-overlapping occurrence replaced. */
  function ReplaceAll(s: string, pat: string, rep: string): string
    requires |pat| > 0
    decreases |s|
  {
    match Find(s, pat)
    case None => s
    case Some(i) => s[..i] + rep + ReplaceAll(s[i + |pat|..], pat, rep)
  }

  /** A string without the separator's first character holds no occurrence of it. */
  lemma NoSepWithoutFirstChar(s: string, sep: string)
    requires |sep| > 0 && sep[0] !in s
    ensures Find(s, sep).None?
  {
    forall j ensures !Occurs(s, sep, j) {
      if 0 <= j < |s| {
        assert s[j] in s;
      }
    }
  }

  /** The first occurrence of a separator whose first character is not in the prefix is right after it. */
  lemma FindSepAfter(prefix: string, sep: string, rest: string)
    requires |sep| > 0 && sep[0] !in prefix
    ensures Find(prefix + sep + rest, sep) == Some(|prefix|)
  {
    var s := prefix + sep + rest;
    assert s[|prefix|..|prefix| + |sep|] == sep;
    forall j | 0 <= j < |prefix| ensures !Occurs(s, sep, j) {
      assert s[j] == prefix[j];
      assert prefix[j] in prefix;
    }
    FindFirst(s, sep, |prefix|);
  }

  /** Splitting a join gives the parts back when no part holds the separator's first character. */
  lemma {:induction false} SplitOfJoin(parts: seq<string>, sep: string)
    requires |sep| > 0 && |parts| >= 1
    requires forall i :: 0 <= i < |parts| ==> sep[0] !in parts[i]
    ensures Split(Join(sep, parts), sep) == parts
    decreases |parts|
  {
    if |parts| == 1 {
      NoSepWithoutFirstChar(parts[0], sep);
    } else {
      var rest := Join(sep, parts[1..]);
      assert sep[0] !in parts[0];
      SplitAfterFirst(parts[0], sep, rest);
      assert forall i :: 0 <= i < |parts[1..]| ==> sep[0] !in parts[1..][i] by {
        forall i | 0 <= i < |parts[1..]| ensures sep[0] !in parts[1..][i] {
          assert parts[1..][i] == parts[i + 1];
        }
      }
      SplitOfJoin(parts[1..], sep);
      assert parts == [parts[0]] + parts[1..];
    }
  }

  /** A text without the separator's first character, the separator and more: the text is the first piece. */
  lemma SplitAfterFirst(p: string, sep: string, rest: string)
    requires |sep| > 0 && sep[0] !in p
    ensures Split(p + sep + rest, sep) == [p] + Split(rest, sep)
  {
    var s := p + sep + rest;
    FindSepAfter(p, sep, rest);
    SplitFirst(s, sep);
    ConcatPieces(p, sep, rest);
  }

  /** The outer pieces of a three-part concatenation. */
  lemma ConcatPieces(a: string, b: string, c: string)
    ensures (a + b + c)[..|a|] == a && (a + b + c)[|a| + |b|..] == c
  {
  }

  /** Replacing is splitting on the old text and joining with the new one. */
  lemma {:induction false} ReplaceIsSplitJoin(s: string, pat: string, rep: string)
    requires |pat| > 0
    ensures ReplaceAll(s, pat, rep) == Join(rep, Split(s, pat))
    decreases |s|
  {
    match Find(s, pat)
    case None =>
    case Some(i) =>
      var rest := s[i + |pat|..];
      ReplaceIsSplitJoin(rest, pat, rep);
      assert Split(s, pat) == [s[..i]] + Split(rest, pat);
  }

  lemma ReplaceAbsent(s: string, pat: string, rep: string)
    requires |pat| > 0 && !Contains(s, pat)
    ensures ReplaceAll(s, pat, rep) == s
  {
  }

  /** Replacing a single character removes it, provided the replacement lacks it. */
  lemma {:induction false} ReplaceCharRemoves(s: string, c: char, rep: string)
    requires c !in rep
    ensures c !in ReplaceAll(s, [c], rep)
    decreases |s|
  {
    match Find(s, [c])
    case None =>
      ContainsChar(s, c);
    case Some(i) =>
      var rest := s[i + 1..];
      ReplaceCharRemoves(rest, c, rep);
      assert c !in s[..i] by {
        forall j | 0 <= j < i ensures s[j] != c {
          assert !Occurs(s, [c], j);
          assert s[j..j + 1] == [s[j]];
        }
      }
  }

  /** `str.split()` without a separator: the maximal runs of non-whitespace. */
  function Words(s: string): (ws: seq<string>)
    ensures AreWords(ws)
    decreases |s|
  {
    var t := StripLeft(s);
    if |t| == 0 then []
    else
      var w := TakeWord(t);
      var rest := Words(t[|w|..]);
      AreWordsCons(w, rest);
      [w] + rest
  }

  /** Words: non-empty and without whitespace. */
  predicate AreWords(ws: seq<string>) {
    forall i :: 0 <= i < |ws| ==> |ws[i]| > 0 && NoSpace(ws[i])
  }

  lemma AreWordsTail(ws: seq<string>)
    requires |ws| > 0 && AreWords(ws)
    ensures |ws[0]| > 0 && NoSpace(ws[0]) && AreWords(ws[1..])
  {
    assert forall i :: 0 <= i < |ws[1..]| ==> ws[1..][i] == ws[i + 1];
  }

  lemma AreWordsCons(w: string, ws: seq<string>)
    requires |w| > 0 && NoSpace(w) && AreWords(ws)
    ensures AreWords([w] + ws)
  {
  }

  predicate NoSpace(w: string) { forall k :: 0 <= k < |w| ==> !IsSpace(w[k]) }

  /** The longest prefix without whitespace. */
  function TakeWord(t: string): (w: string)
    ensures |w| <= |t| && w == t[..|w|]
    ensures NoSpace(w)
    ensures |t| > 0 && !IsSpace(t[0]) ==> |w| > 0
    ensures |w| < |t| ==> IsSpace(t[|w|])
  {
    if |t| == 0 || IsSpace(t[0]) then "" else [t[0]] + TakeWord(t[1..])
  }

  /** A word followed by nothing or by whitespace is taken whole. */
  lemma {:induction false} TakeWordOf(w: string, rest: string)
    requires NoSpace(w) && (|rest| == 0 || IsSpace(rest[0]))
    ensures TakeWord(w + rest) == w
    decreases |w|
  {
    if |w| > 0 {
      assert (w + rest)[1..] == w[1..] + rest;
      TakeWordOf(w[1..], rest);
    } else {
      assert w + rest == rest;
    }
  }

  /** A word in front of a space and more text is the first word of the whole. */
  lemma WordsCons(w: string, rest: string)
    requires |w| > 0 && NoSpace(w)
    ensures Words(w + " " + rest) == [w] + Words(rest)
  {
    var s := w + " " + rest;
    assert StripLeft(s) == s;
    TakeWordOf(w, " " + rest);
    assert s == w + (" " + rest);
    assert s[|w|..] == " " + rest;
    assert (" " + rest)[1..] == rest;
    assert StripLeft(" " + rest) == StripLeft(rest);
  }

  /** Splitting words joined by single spaces gives the words back. */
  lemma {:induction false} WordsOfJoin(ws: seq<string>)
    requires AreWords(ws)
    ensures Words(Join(" ", ws)) == ws
    decreases |ws|
  {
    if |ws| == 1 {
      WordsOfWord(ws[0]);
    } else if |ws| > 1 {
      var rest := Join(" ", ws[1..]);
      assert Join(" ", ws) == ws[0] + " " + rest;
      AreWordsTail(ws);
      WordsCons(ws[0], rest);
      WordsOfJoin(ws[1..]);
      assert ws == [ws[0]] + ws[1..];
    }
  }

  /** A single word is its own only word. */
  lemma WordsOfWord(w: string)
    requires |w| > 0 && NoSpace(w)
    ensures Words(w) == [w]
  {
    assert StripLeft(w) == w;
    TakeWordOf(w, "");
    assert w + "" == w;
    assert w[|w|..] == "";
  }

  /** Words joined by single spaces start and end with a non-blank character. */
  lemma {:induction false} JoinEnds(ws: seq<string>)
    requires |ws| > 0 && AreWords(ws)
    ensures var j := Join(" ", ws); |j| > 0 && j[0] == ws[0][0] && j[|j| - 1] == ws[|ws| - 1][|ws[|ws| - 1]| - 1]
    decreases |ws|
  {
    if |ws| > 1 {
      JoinEnds(ws[1..]);
    }
  }

  /**
   * Splitting around one separator when a character of the separator
   * occurs nowhere else: neither in the two texts nor elsewhere in the
   * separator.
   */
  lemma SplitAtMarker(a: string, sep: string, b: string, k: nat)
    requires k < |sep| && sep[k] !in a && sep[k] !in b
    requires forall m :: 0 <= m < |sep| && m != k ==> sep[m] != sep[k]
    ensures Split(a + sep + b, sep) == [a, b]
  {
    var s := a + sep + b;
    assert forall j :: 0 <= j < |a| ==> !Occurs(s, sep, j);
    assert s[|a|..|a| + |sep|] == sep;
    FindFirst(s, sep, |a|);
    assert s[..|a|] == a && s[|a| + |sep|..] == b;
    assert forall j :: !Occurs(b, sep, j);
  }

  predicate StartsWith(s: string, prefix: string) {
    |prefix| <= |s| && s[..|prefix|] == prefix
  }

  // ---------------------------------------------------------- int() parsing

  /** Python `int(s)` on a string: optional surrounding whitespace and sign, then decimal digits. */
  function ParseInt(s: string): (r: Option<int>)
    ensures r.Some? ==> |Strip(s)| > 0 && (IsDigit(Strip(s)[0]) || Strip(s)[0] == '-' || Strip(s)[0] == '+')
  {
    var t := Strip(s);
    if |t| > 0 && (t[0] == '-' || t[0] == '+') then
      var d := t[1..];
      if |d| > 0 && AllDigits(d) then Some(if t[0] == '-' then -(DigitsValue(d) as int) else DigitsValue(d)) else None
    else if |t| > 0 && AllDigits(t) then Some(DigitsValue(t))
    else None
  }

  lemma ParseIntOfString(i: int)
    ensures ParseInt(IntToString(i)) == Some(i)
  {
    if i < 0 {
      var n: nat := -i;
      assert IntToString(i) == "-" + NatToString(n);
      ParseIntOfNegative(n);
    } else {
      assert IntToString(i) == NatToString(i);
      ParseIntOfNat(i);
    }
  }

  lemma ParseIntOfNat(n: nat)
    ensures ParseInt(NatToString(n)) == Some(n)
  {
    var s := NatToString(n);
    assert Strip(s) == s by {
      assert IsDigit(s[0]) && IsDigit(s[|s| - 1]);
      StripNoSurroundingSpace(s);
    }
    NatToStringValue(n);
  }

  lemma ParseIntOfNegative(n: nat)
    ensures ParseInt("-" + NatToString(n)) == Some(-(n as int))
  {
    var s := "-" + NatToString(n);
    assert Strip(s) == s by {
      assert !IsSpace(s[0]) && IsDigit(s[|s| - 1]);
      StripNoSurroundingSpace(s);
    }
    assert s[1..] == NatToString(n);
    NatToStringValue(n);
  }

  /** `int()` ignores whitespace padding. */
  lemma ParseIntPadded(pre: string, s: string, post: string)
    requires forall k :: 0 <= k < |pre| ==> IsSpace(pre[k])
    requires forall k :: 0 <= k < |post| ==> IsSpace(post[k])
    requires |s| > 0 ==> !IsSpace(s[0]) && !IsSpace(s[|s| - 1])
    ensures ParseInt(pre + s + post) == ParseInt(s)
  {
    StripPadded(pre, s, post);
    StripNoSurroundingSpace(s);
  }

  /** `str(i)` is made of digits and at most a leading minus sign. */
  lemma IntToStringChars(i: int)
    ensures var s := IntToString(i);
      && (forall k :: 0 <= k < |s| ==> IsDigit(s[k]) || s[k] == '-')
      && !IsSpace(s[0]) && !IsSpace(s[|s| - 1])
  {
    var s := IntToString(i);
    if i < 0 {
      assert s == "-" + NatToString(-i);
      assert forall k :: 1 <= k < |s| ==> s[k] == NatToString(-i)[k - 1];
    }
  }

  /** An integer written out after whitespace reads back as the integer. */
  lemma ParseIntPaddedInt(pad: string, i: int)
    requires forall k :: 0 <= k < |pad| ==> IsSpace(pad[k])
    ensures ParseInt(pad + IntToString(i)) == Some(i)
    ensures forall c :: c in pad + IntToString(i) ==> IsSpace(c) || IsDigit(c) || c == '-'
  {
    var s := IntToString(i);
    IntToStringChars(i);
    ParseIntOfString(i);
    ParseIntPadded(pad, s, "");
    assert pad + s + "" == pad + s;
  }

  lemma ParseIntRejectsEmpty()
    ensures ParseInt("") == None
  {
  }

  // ------------------------------------------------------------- decimals

  /** An exact decimal number `digits / 10^scale`: Python `Decimal`, and the model's stand-in for a float. */
  datatype Decimal = Decimal(digits: int, scale: nat)

  function Pow10(n: nat): (p: nat)
    ensures p >= 1
  {
    if n == 0 then 1 else 10 * Pow10(n - 1)
  }

  /** `a <= b` on the decimals' values. */
  predicate DecLe(a: Decimal, b: Decimal) {
    a.digits * Pow10(b.scale) <= b.digits * Pow10(a.scale)
  }

  predicate DecIsZero(a: Decimal) { a.digits == 0 }

  /** A decimal at or above a positive one is positive. */
  lemma AbovePositive(a: Decimal, b: Decimal)
    requires a.digits > 0 && DecLe(a, b)
    ensures b.digits > 0
  {
    MulMonotone(a.digits, Pow10(b.scale));
  }

  lemma MulMonotone(x: int, y: nat)
    requires x >= 1
    ensures x * y >= y
  {
  }

  function DecOfInt(i: int): Decimal { Decimal(i, 0) }

  /** `str()` of a decimal in plain notation, keeping its scale ("0.05", "-12.50", "7"). */
  function DecimalToString(d: Decimal): (s: string)
    ensures |s| > 0 && IsDigit(s[|s| - 1])
  {
    var body := PointAt(PaddedDigits(Abs(d.digits), d.scale), d.scale);
    if d.digits < 0 then
      var s := "-" + body;
      assert s[|s| - 1] == body[|body| - 1];
      s
    else body
  }

  function Abs(i: int): nat { if i < 0 then -i else i }

  /** The digits of `n`, zero-padded so that at least one digit stands before the point. */
  function PaddedDigits(n: nat, scale: nat): (p: string)
    ensures AllDigits(p) && |p| > scale && DigitsValue(p) == n
  {
    var mag := NatToString(n);
    NatToStringValue(n);
    var z: nat := if |mag| <= scale then scale + 1 - |mag| else 0;
    DigitsValueZeroPrefix(z, mag);
    Zeros(z) + mag
  }

  /** Digits with a decimal point inserted `scale` places from the right. */
  function PointAt(p: string, scale: nat): (s: string)
    requires AllDigits(p) && |p| > scale
    ensures |s| > 0 && IsDigit(s[0]) && IsDigit(s[|s| - 1])
  {
    if scale == 0 then p else p[..|p| - scale] + "." + p[|p| - scale..]
  }

  /** Python `float(s)` over plain decimal notation: sign, digits, optional fraction. */
  function ParseDecimal(s: string): Option<Decimal> {
    var t := Strip(s);
    if |t| > 0 && t[0] == '-' then
      match ParseUnsignedDecimal(t[1..])
      case None => None
      case Some(d) => Some(Decimal(-d.digits, d.scale))
    else if |t| > 0 && t[0] == '+' then ParseUnsignedDecimal(t[1..])
    else ParseUnsignedDecimal(t)
  }

  /**
   * Digits with at most one decimal point and at least one digit. The text
   * after the first point must be digits, so a second point is refused.
   */
  function ParseUnsignedDecimal(u: string): (r: Option<Decimal>)
    ensures r.Some? ==> r.value.digits >= 0
  {
    match IndexOf(u, '.')
    case None =>
      if |u| > 0 && AllDigits(u) then Some(Decimal(DigitsValue(u), 0)) else None
    case Some(i) =>
      var ab := u[..i] + u[i + 1..];
      if |ab| > 0 && AllDigits(ab) then Some(Decimal(DigitsValue(ab), |u| - i - 1)) else None
  }

  /** `str.find` for one character. */
  function IndexOf(s: string, c: char): (r: Option<nat>)
    ensures r.Some? ==> r.value < |s| && s[r.value] == c && c !in s[..r.value]
    ensures r.None? ==> c !in s
  {
    if |s| == 0 then None
    else if s[0] == c then Some(0)
    else match IndexOf(s[1..], c)
      case None => None
      case Some(i) =>
        assert s[..i + 1] == [s[0]] + s[1..][..i];
        Some(i + 1)
  }

  /** The first occurrence of a character is found after a text without it. */
  lemma IndexOfAfter(a: string, c: char, b: string)
    requires c !in a
    ensures IndexOf(a + [c] + b, c) == Some(|a|)
  {
    var s := a + [c] + b;
    assert s[|a|] == c && s[..|a|] == a;
  }

  lemma NoDotInDigits(s: string)
    requires AllDigits(s)
    ensures '.' !in s
  {
    forall k | 0 <= k < |s| ensures s[k] != '.' {
      assert IsDigit(s[k]);
    }
  }

  lemma UnsignedDecimalOf(a: string, b: string)
    requires |a| > 0 && AllDigits(a) && AllDigits(b)
    ensures ParseUnsignedDecimal(if |b| == 0 then a else a + "." + b) == Some(Decimal(DigitsValue(a + b), |b|))
  {
    NoDotInDigits(a);
    if |b| == 0 {
      assert IndexOf(a, '.').None?;
      assert a + b == a;
    } else {
      var u := a + "." + b;
      IndexOfAfter(a, '.', b);
      assert u[..|a|] == a && u[|a| + 1..] == b;
    }
  }

  /** A sign in front of an unsigned decimal negates it. */
  lemma ParseSignedDecimal(neg: bool, body: string)
    requires |body| > 0 && IsDigit(body[0]) && IsDigit(body[|body| - 1])
    requires ParseUnsignedDecimal(body).Some?
    ensures var d := ParseUnsignedDecimal(body).value;
            ParseDecimal(if neg then "-" + body else body) == Some(Decimal(if neg then -d.digits else d.digits, d.scale))
  {
    if neg {
      ParseNegatedDecimal(body);
    } else {
      ParsePlainDecimal(body);
    }
  }

  lemma ParsePlainDecimal(body: string)
    requires |body| > 0 && IsDigit(body[0]) && IsDigit(body[|body| - 1])
    ensures ParseDecimal(body) == ParseUnsignedDecimal(body)
  {
    StripNoSurroundingSpace(body);
  }

  lemma ParseNegatedDecimal(body: string)
    requires |body| > 0 && IsDigit(body[0]) && IsDigit(body[|body| - 1])
    requires ParseUnsignedDecimal(body).Some?
    ensures ParseDecimal("-" + body) == Some(Decimal(-ParseUnsignedDecimal(body).value.digits, ParseUnsignedDecimal(body).value.scale))
  {
    var s := "-" + body;
    assert s[1..] == body;
    assert Strip(s) == s by {
      assert !IsSpace(s[0]) && IsDigit(s[|s| - 1]);
      StripNoSurroundingSpace(s);
    }
    var d := ParseUnsignedDecimal(body).value;
    assert ParseDecimal(s) == Some(Decimal(-d.digits, d.scale));
  }

  /** Writing a decimal out and reading it back gives the same decimal. */
  lemma DecimalRoundTrip(d: Decimal)
    ensures ParseDecimal(DecimalToString(d)) == Some(d)
  {
    var p := PaddedDigits(Abs(d.digits), d.scale);
    var body := PointAt(p, d.scale);
    assert DecimalToString(d) == if d.digits < 0 then "-" + body else body;
    assert ParseUnsignedDecimal(body) == Some(Decimal(Abs(d.digits), d.scale)) by {
      UnsignedPointAt(p, d.scale);
    }
    ParseSignedDecimal(d.digits < 0, body);
  }

  /** A decimal written out has no surrounding whitespace. */
  lemma DecimalToStringStripped(d: Decimal)
    ensures Strip(DecimalToString(d)) == DecimalToString(d)
  {
    var s := DecimalToString(d);
    var body := PointAt(PaddedDigits(Abs(d.digits), d.scale), d.scale);
    assert s == if d.digits < 0 then "-" + body else body;
    assert !IsSpace(s[0]) && IsDigit(s[|s| - 1]) by {
      if d.digits < 0 {
        assert s[0] == '-';
      } else {
        assert IsDigit(s[0]);
      }
    }
    StripNoSurroundingSpace(s);
  }

  lemma UnsignedPointAt(p: string, scale: nat)
    requires AllDigits(p) && |p| > scale
    ensures ParseUnsignedDecimal(PointAt(p, scale)) == Some(Decimal(DigitsValue(p), scale))
  {
    var a, b := p[..|p| - scale], p[|p| - scale..];
    assert a + b == p;
    UnsignedDecimalOf(a, b);
  }
}
