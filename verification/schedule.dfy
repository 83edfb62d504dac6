/** The schedule section: splitting an event date such as "14th July 2026"
    into the day, month and year shown on its badge, with the regular
    expression `(\d+)\w*\s+(\w+)\s+(\d+)` (searched, not anchored), and
    showing an event title with its first line break turned into a space. */
module Schedule {
  import opened Wrappers
  import opened Text

  datatype DateParts = DateParts(day: string, month: string, year: string)

  const NoMatch := DateParts("", "", "")

  /** The three character classes of the expression. */
  datatype CharClass = Digits | Word | Space

  predicate In(cls: CharClass, c: char) {
    match cls
    case Digits => IsDigit(c)
    case Word => IsWordChar(c)
    case Space => IsJsWhitespace(c)
  }

  /** Every character of `s[lo..hi]` is of class `cls`. */
  ghost predicate AllIn(s: string, lo: nat, hi: nat, cls: CharClass)
    requires lo <= hi <= |s|
  {
    forall k :: lo <= k < hi ==> In(cls, s[k])
  }

  /** The end of the longest run of `cls` characters starting at `i`: where a
      greedy quantifier over that class stops. */
  function RunEnd(s: string, i: nat, cls: CharClass): (j: nat)
    requires i <= |s|
    ensures i <= j <= |s|
    decreases |s| - i
  {
    if i < |s| && In(cls, s[i]) then RunEnd(s, i + 1, cls) else i
  }

  /** The run holds only `cls` characters and cannot be extended. */
  lemma {:induction false} RunEndSpec(s: string, i: nat, cls: CharClass)
    requires i <= |s|
    ensures AllIn(s, i, RunEnd(s, i, cls), cls)
    ensures RunEnd(s, i, cls) == |s| || !In(cls, s[RunEnd(s, i, cls)])
    decreases |s| - i
  {
    if i < |s| && In(cls, s[i]) {
      RunEndSpec(s, i + 1, cls);
    }
  }

  /** A run that stops before a character outside `cls` (or at the end) is the
      longest one. */
  lemma RunEndAt(s: string, i: nat, j: nat, cls: CharClass)
    requires i <= j <= |s|
    requires forall k :: i <= k < j ==> In(cls, s[k])
    requires j == |s| || !In(cls, s[j])
    ensures RunEnd(s, i, cls) == j
    decreases j - i
  {
    if i < j {
      RunEndAt(s, i + 1, j, cls);
    }
  }

  /** The regular expression matches `s` from position `i`, with its six
      parts ending at `a` (`\d+`), `b` (`\w*`), `c` (`\s+`), `d` (`\w+`),
      `e` (`\s+`) and `f` (`\d+`). */
  ghost predicate PatternAt(s: string, i: nat, a: nat, b: nat, c: nat, d: nat, e: nat, f: nat) {
    && i < a <= b < c < d < e < f <= |s|
    && AllIn(s, i, a, Digits)
    && AllIn(s, a, b, Word)
    && AllIn(s, b, c, Space)
    && AllIn(s, c, d, Word)
    && AllIn(s, d, e, Space)
    && AllIn(s, e, f, Digits)
  }

  ghost predicate MatchesAt(s: string, i: nat) {
    exists a: nat, b: nat, c: nat, d: nat, e: nat, f: nat :: PatternAt(s, i, a, b, c, d, e, f)
  }

  /** Three captured groups: day and year made of digits, month of word
      characters, none empty. */
  predicate WellFormed(p: DateParts) {
    && |p.day| > 0 && AllDigits(p.day)
    && |p.month| > 0 && (forall k :: 0 <= k < |p.month| ==> IsWordChar(p.month[k]))
    && |p.year| > 0 && AllDigits(p.year)
  }

  /** The match attempt at position `i`, with the groups the greedy
      backtracking search captures. Word and whitespace characters never
      overlap, so each quantifier keeps its longest run: a shorter run would
      leave a character the next part cannot start with. */
  function MatchAt(s: string, i: nat): Option<DateParts> {
    if !(i < |s| && IsDigit(s[i])) then None
    else
      var dayEnd := RunEnd(s, i, Digits);
      var wordEnd := RunEnd(s, i, Word);
      var monthStart := RunEnd(s, wordEnd, Space);
      if monthStart == wordEnd then None
      else
        var monthEnd := RunEnd(s, monthStart, Word);
        if monthEnd == monthStart then None
        else
          var yearStart := RunEnd(s, monthEnd, Space);
          if yearStart == monthEnd then None
          else
            var yearEnd := RunEnd(s, yearStart, Digits);
            if yearEnd == yearStart then None
            else Some(DateParts(s[i..dayEnd], s[monthStart..monthEnd], s[yearStart..yearEnd]))
  }

  lemma DigitRunWithinWordRun(s: string, i: nat)
    requires i <= |s|
    ensures RunEnd(s, i, Digits) <= RunEnd(s, i, Word)
    decreases |s| - i
  {
    if i < |s| && IsDigit(s[i]) {
      DigitRunWithinWordRun(s, i + 1);
    }
  }

  /** A successful attempt is a match of the expression whose day group is
      the whole digit run found at `i`. */
  lemma MatchAtFound(s: string, i: nat)
    requires MatchAt(s, i).Some?
    ensures MatchesAt(s, i)
    ensures var p := MatchAt(s, i).value;
      && i + |p.day| <= |s| && s[i..i + |p.day|] == p.day
      && (i + |p.day| == |s| || !IsDigit(s[i + |p.day|]))
  {
    var a := RunEnd(s, i, Digits);
    var b := RunEnd(s, i, Word);
    var c := RunEnd(s, b, Space);
    var d := RunEnd(s, c, Word);
    var e := RunEnd(s, d, Space);
    var f := RunEnd(s, e, Digits);
    DigitRunWithinWordRun(s, i);
    RunEndSpec(s, i, Digits);
    RunEndSpec(s, i, Word);
    RunEndSpec(s, b, Space);
    RunEndSpec(s, c, Word);
    RunEndSpec(s, d, Space);
    RunEndSpec(s, e, Digits);
    assert PatternAt(s, i, a, b, c, d, e, f);
  }

  /** Wherever the expression can match, the attempt succeeds: backtracking
      never has to give up characters of a word or whitespace run. */
  lemma MatchAtComplete(s: string, i: nat, a: nat, b: nat, c: nat, d: nat, e: nat, f: nat)
    requires PatternAt(s, i, a, b, c, d, e, f)
    ensures MatchAt(s, i).Some?
  {
    WordAndWhitespaceDisjoint(s[b]);
    RunEndAt(s, i, b, Word);
    WordAndWhitespaceDisjoint(s[c]);
    RunEndAt(s, b, c, Space);
    WordAndWhitespaceDisjoint(s[d]);
    RunEndAt(s, c, d, Word);
    WordAndWhitespaceDisjoint(s[e]);
    RunEndAt(s, d, e, Space);
  }

  /** The match attempt succeeds exactly where the regular expression can
      match. */
  lemma MatchAtSound(s: string, i: nat)
    ensures MatchAt(s, i).Some? <==> MatchesAt(s, i)
  {
    if MatchAt(s, i).Some? {
      MatchAtFound(s, i);
    }
    if MatchesAt(s, i) {
      var a: nat, b: nat, c: nat, d: nat, e: nat, f: nat :| PatternAt(s, i, a, b, c, d, e, f);
      MatchAtComplete(s, i, a, b, c, d, e, f);
    }
  }

  /** Every match attempt that succeeds captures well-formed groups. */
  lemma MatchAtWellFormed(s: string, i: nat)
    ensures MatchAt(s, i).Some? ==> WellFormed(MatchAt(s, i).value)
  {
    if MatchAt(s, i).Some? {
      var b := RunEnd(s, i, Word);
      var c := RunEnd(s, b, Space);
      var d := RunEnd(s, c, Word);
      var e := RunEnd(s, d, Space);
      RunEndSpec(s, i, Digits);
      RunEndSpec(s, c, Word);
      RunEndSpec(s, e, Digits);
    }
  }

  /** Whichever way the expression matches at `i`, the groups captured are
      the month between the two whitespace runs and the longest digit runs
      at `i` and after the second whitespace run. */
  lemma MatchAtCaptures(s: string, i: nat, a: nat, b: nat, c: nat, d: nat, e: nat, f: nat)
    requires PatternAt(s, i, a, b, c, d, e, f)
    requires a == |s| || !IsDigit(s[a])
    requires f == |s| || !IsDigit(s[f])
    ensures MatchAt(s, i) == Some(DateParts(s[i..a], s[c..d], s[e..f]))
  {
    RunEndAt(s, i, a, Digits);
    WordAndWhitespaceDisjoint(s[b]);
    RunEndAt(s, i, b, Word);
    WordAndWhitespaceDisjoint(s[c]);
    RunEndAt(s, b, c, Space);
    WordAndWhitespaceDisjoint(s[d]);
    RunEndAt(s, c, d, Word);
    WordAndWhitespaceDisjoint(s[e]);
    RunEndAt(s, d, e, Space);
    RunEndAt(s, e, f, Digits);
  }

  /** The first present element of a sequence of attempts. */
  function FirstSome<T>(xs: seq<Option<T>>): (r: Option<T>)
    ensures r.None? <==> forall i :: 0 <= i < |xs| ==> xs[i].None?
    ensures r.Some? ==> exists i :: 0 <= i < |xs| && xs[i] == r && forall j :: 0 <= j < i ==> xs[j].None?
  {
    if |xs| == 0 then None
    else if xs[0].Some? then xs[0]
    else
      var r := FirstSome(xs[1..]);
      assert forall i :: 1 <= i < |xs| ==> xs[i] == xs[1..][i - 1];
      r
  }

  /** Failed attempts in front do not change the first present one. */
  lemma {:induction false} FirstSomeSkipsNone<T>(xs: seq<Option<T>>, ys: seq<Option<T>>)
    requires forall i :: 0 <= i < |xs| ==> xs[i].None?
    ensures FirstSome(xs + ys) == FirstSome(ys)
  {
    if |xs| > 0 {
      assert (xs + ys)[0] == xs[0];
      assert (xs + ys)[1..] == xs[1..] + ys;
      assert forall i :: 0 <= i < |xs| - 1 ==> xs[1..][i] == xs[i + 1];
      FirstSomeSkipsNone(xs[1..], ys);
      assert FirstSome(xs + ys) == FirstSome((xs + ys)[1..]);
    } else {
      assert xs + ys == ys;
    }
  }

  /** The match attempts at every position of `s`, in order. */
  function Attempts(s: string): (r: seq<Option<DateParts>>)
    ensures |r| == |s| && forall i :: 0 <= i < |s| ==> r[i] == MatchAt(s, i)
  {
    seq(|s|, i requires 0 <= i < |s| => MatchAt(s, i))
  }

  /** `parseDate`: the groups of the leftmost match, or three empty strings
      when the expression matches nowhere. */
  function ParseDate(dateStr: string): DateParts {
    match FirstSome(Attempts(dateStr))
    case Some(parts) => parts
    case None => NoMatch
  }

  /** Stated against the regular expression itself: no part is shown exactly
      when the expression matches nowhere. */
  lemma ParseDateNoMatch(dateStr: string)
    ensures ParseDate(dateStr) == NoMatch <==> forall i :: 0 <= i < |dateStr| ==> !MatchesAt(dateStr, i)
  {
    var attempts := Attempts(dateStr);
    forall i | 0 <= i < |dateStr| {
      MatchAtSound(dateStr, i);
    }
    if FirstSome(attempts).Some? {
      var i :| 0 <= i < |attempts| && attempts[i] == FirstSome(attempts);
      MatchAtWellFormed(dateStr, i);
    }
  }

  /** When a date is shown, all three groups are present and come from the
      leftmost position where the expression matches. */
  lemma ParseDateLeftmost(dateStr: string)
    requires ParseDate(dateStr) != NoMatch
    ensures WellFormed(ParseDate(dateStr))
    ensures exists i :: 0 <= i < |dateStr| && MatchesAt(dateStr, i) && MatchAt(dateStr, i) == Some(ParseDate(dateStr))
                        && forall j :: 0 <= j < i ==> !MatchesAt(dateStr, j)
  {
    var attempts := Attempts(dateStr);
    var i :| 0 <= i < |attempts| && attempts[i] == FirstSome(attempts)
             && forall j :: 0 <= j < i ==> attempts[j].None?;
    MatchAtWellFormed(dateStr, i);
    MatchAtSound(dateStr, i);
    forall j | 0 <= j < i {
      MatchAtSound(dateStr, j);
    }
  }

  /** The search is not anchored: positions without a digit in front of a
      date are passed over. */
  lemma ParseSkipsDigitFreePrefix(s: string, k: nat)
    requires k <= |s|
    requires forall i :: 0 <= i < k ==> !IsDigit(s[i])
    ensures ParseDate(s) == match FirstSome(Attempts(s)[k..]) case Some(p) => p case None => NoMatch
  {
    var attempts := Attempts(s);
    assert attempts == attempts[..k] + attempts[k..];
    FirstSomeSkipsNone(attempts[..k], attempts[k..]);
  }

  const ShippedDate := "14th July 2026"
  const DateAfterText := "on 14th July 2026"

  lemma ShippedDatePattern()
    ensures PatternAt(ShippedDate, 0, 2, 4, 5, 9, 10, 14) && !IsDigit(ShippedDate[2])
    ensures ShippedDate[0..2] == "14" && ShippedDate[5..9] == "July" && ShippedDate[10..14] == "2026"
  {
  }

  lemma DateAfterTextPattern()
    ensures PatternAt(DateAfterText, 3, 5, 7, 8, 12, 13, 17) && !IsDigit(DateAfterText[5])
    ensures DateAfterText[3..5] == "14" && DateAfterText[8..12] == "July" && DateAfterText[13..17] == "2026"
    ensures forall i :: 0 <= i < 3 ==> !IsDigit(DateAfterText[i])
  {
  }

  /** The date format of the configuration. */
  lemma ParseShippedDate()
    ensures ParseDate(ShippedDate) == DateParts("14", "July", "2026")
  {
    ShippedDatePattern();
    MatchAtCaptures(ShippedDate, 0, 2, 4, 5, 9, 10, 14);
    assert Attempts(ShippedDate)[0] == MatchAt(ShippedDate, 0);
  }

  /** The same date after other text. */
  lemma ParseDateAfterText()
    ensures ParseDate(DateAfterText) == DateParts("14", "July", "2026")
  {
    DateAfterTextPattern();
    ParseSkipsDigitFreePrefix(DateAfterText, 3);
    MatchAtCaptures(DateAfterText, 3, 5, 7, 8, 12, 13, 17);
    assert Attempts(DateAfterText)[3..][0] == MatchAt(DateAfterText, 3);
  }

  // ---------------------------------------------------------------------
  // Event titles

  /** `s.replace(from, to)` with a one-character string pattern: only the
      first occurrence is replaced. */
  function ReplaceFirst(s: string, from: char, to: char): (r: string)
    ensures |r| == |s|
    ensures forall i :: 0 <= i < |s| && i != IndexOf(s, from) ==> r[i] == s[i]
    ensures IndexOf(s, from) < |s| ==> r[IndexOf(s, from)] == to
  {
    var k := IndexOf(s, from);
    if k == |s| then s else s[..k] + [to] + s[k + 1..]
  }

  /** How an event title is shown: its first line break becomes a space. */
  function DisplayTitle(title: string): string {
    ReplaceFirst(title, '\n', ' ')
  }

  /** A title loses exactly one line break when it has any, and is unchanged
      otherwise. */
  lemma DisplayTitleRemovesOneBreak(title: string)
    ensures '\n' in title ==> multiset(DisplayTitle(title))['\n'] == multiset(title)['\n'] - 1
    ensures '\n' !in title ==> DisplayTitle(title) == title
  {
    var k := IndexOf(title, '\n');
    if k < |title| {
      assert title == title[..k] + [title[k]] + title[k + 1..];
    } else {
      assert '\n' !in title;
    }
  }

  /** Everything up to the first line break is kept, the break becomes a
      space, and everything after it is kept, later breaks included. */
  lemma DisplayTitleFirstBreak(first: string, rest: string)
    requires '\n' !in first
    ensures DisplayTitle(first + "\n" + rest) == first + " " + rest
  {
    var t := first + "\n" + rest;
    assert t[|first|] == '\n';
    assert forall j :: 0 <= j < |first| ==> t[j] == first[j];
    assert IndexOf(t, '\n') == |first|;
    assert t[..|first|] == first && t[|first| + 1..] == rest;
  }

  /** The two-line titles of the configuration show on one line. */
  lemma ShippedFirstTitle()
    ensures DisplayTitle("Akad" + "\n" + "Nikah") == "Akad Nikah"
  {
    assert "Akad" + " " + "Nikah" == "Akad Nikah";
    DisplayTitleFirstBreak("Akad", "Nikah");
  }

  lemma ShippedSecondTitle()
    ensures DisplayTitle("Ceremony &" + "\n" + "Reception") == "Ceremony & Reception"
  {
    assert "Ceremony &" + " " + "Reception" == "Ceremony & Reception";
    DisplayTitleFirstBreak("Ceremony &", "Reception");
  }
}
