/** The Python backend's rule-based entity extractor (`backend/nlp/entity_extractor.py`).
    `re.search` becomes a scan for the leftmost position where a hand-written matcher
    succeeds; `\d`, `\s` and `str.lower` are ASCII. spaCy is taken to be unavailable,
    and the dates "today", "tomorrow" and "yesterday" are passed in already formatted. */
module PyEntityExtractor {
  import opened Wrappers
  import opened Strings

  // ------------------------------------------------------------------ matchers

  /** Length of a greedy `\d{1,2}` at `i` (0 when there is no digit). Giving a digit
      back never rescues the patterns below, since what they need next is never a digit. */
  function TwoDigits(s: string, i: nat): (n: nat)
    ensures n <= 2 && (n > 0 ==> i + n <= |s|)
    ensures forall j :: i <= j < i + n ==> j < |s| && IsDigit(s[j])
  {
    var r := RunAt(s, i, IsDigit);
    if r < 2 then r else 2
  }

  /** The lower-case word `w` at `i`, ignoring case. */
  predicate CiAt(s: string, i: nat, w: string) {
    i + |w| <= |s| && Lower(s[i..i + |w|]) == w
  }

  predicate MeridiemAt(s: string, i: nat) { CiAt(s, i, "am") || CiAt(s, i, "pm") }

  /** A captured group: where it starts and ends. */
  predicate Group(s: string, g: (nat, nat)) { g.0 < g.1 <= |s| && IsDigit(s[g.0]) }

  /** `(\d{1,2}:\d{2}\s*(?:AM|PM|am|pm))` at `i`. */
  function ClockAt(s: string, i: nat): (r: Option<(nat, nat)>)
    ensures r.Some? ==> r.value.0 == i && Group(s, r.value)
  {
    var d := TwoDigits(s, i);
    var c := i + d;
    if d > 0 && c < |s| && s[c] == ':' && RunAt(s, c + 1, IsDigit) >= 2 then
      var e := c + 3 + SpaceRun(s, c + 3);
      if MeridiemAt(s, e) then Some((i, e + 2)) else None
    else None
  }

  /** `(\d{1,2}\s*(?:AM|PM|am|pm))` at `i`. */
  function HourAt(s: string, i: nat): (r: Option<(nat, nat)>)
    ensures r.Some? ==> r.value.0 == i && Group(s, r.value)
  {
    var d := TwoDigits(s, i);
    var e := i + d + SpaceRun(s, i + d);
    if d > 0 && MeridiemAt(s, e) then Some((i, e + 2)) else None
  }

  /** `at\s+(\d{1,2}(?::\d{2})?)` at `i`, ignoring case: the group is the number only. */
  function AtAt(s: string, i: nat): (r: Option<(nat, nat)>)
    ensures r.Some? ==> Group(s, r.value)
  {
    if !CiAt(s, i, "at") then None
    else
      var sp := SpaceRun(s, i + 2);
      var j := i + 2 + sp;
      var d := TwoDigits(s, j);
      var k := j + d;
      if sp == 0 || d == 0 then None
      else if k < |s| && s[k] == ':' && RunAt(s, k + 1, IsDigit) >= 2 then Some((j, k + 3))
      else Some((j, k))
  }

  /** `(\d{1,2})\s*(?:o'clock|oclock)` at `i`, ignoring case: the group is the number. */
  function OclockAt(s: string, i: nat): (r: Option<(nat, nat)>)
    ensures r.Some? ==> r.value.0 == i && Group(s, r.value)
  {
    var d := TwoDigits(s, i);
    var e := i + d + SpaceRun(s, i + d);
    if d > 0 && (CiAt(s, e, "o'clock") || CiAt(s, e, "oclock")) then Some((i, i + d)) else None
  }

  /** The four time patterns of `extract_time`, in list order. */
  function TimePatternAt(k: nat, s: string, i: nat): (r: Option<(nat, nat)>)
    ensures r.Some? ==> Group(s, r.value)
  {
    if k == 0 then ClockAt(s, i)
    else if k == 1 then HourAt(s, i)
    else if k == 2 then AtAt(s, i)
    else OclockAt(s, i)
  }

  /** `re.search(pattern_k, s)`: group 1 of the leftmost match. */
  function SearchTime(s: string, k: nat): (r: Option<string>)
    ensures r.Some? ==> |r.value| > 0 && IsDigit(r.value[0]) && Contains(s, r.value)
  {
    var m := (i: nat) => TimePatternAt(k, s, i);
    var hit := Leftmost(|s|, m, 0);
    if hit.None? then None
    else
      var g := hit.value.1;
      assert PrefixAt(s, g.0, s[g.0..g.1]);
      Some(s[g.0..g.1])
  }

  /** The search finds nothing exactly when the pattern matches at no position. */
  lemma SearchTimeMisses(s: string, k: nat)
    ensures SearchTime(s, k).None? <==> forall i :: 0 <= i <= |s| ==> TimePatternAt(k, s, i).None?
  {
    var m := (i: nat) => TimePatternAt(k, s, i);
    var hit := Leftmost(|s|, m, 0);
    if hit.None? {
      forall i | 0 <= i <= |s| ensures TimePatternAt(k, s, i).None? {
        assert m(i).None?;
      }
    } else {
      assert m(hit.value.0).Some?;
    }
  }

  /** The first of the four time patterns, in list order, that matches anywhere in `s`. */
  function PatternTime(s: string): (r: Option<string>)
    ensures r.Some? ==> |r.value| > 0 && IsDigit(r.value[0]) && Contains(s, r.value)
  {
    var c0 := SearchTime(s, 0);
    var c1 := SearchTime(s, 1);
    var c2 := SearchTime(s, 2);
    var c3 := SearchTime(s, 3);
    if c0.Some? then c0 else if c1.Some? then c1 else if c2.Some? then c2 else c3
  }

  /** No time is found exactly when every one of the four searches misses. */
  lemma PatternTimeMisses(s: string)
    ensures PatternTime(s).None? <==>
      SearchTime(s, 0).None? && SearchTime(s, 1).None? && SearchTime(s, 2).None? && SearchTime(s, 3).None?
  {
  }

  /** Every time pattern needs a digit. */
  lemma {:induction false} NoDigitNoPattern(s: string)
    requires forall i :: 0 <= i < |s| ==> !IsDigit(s[i])
    ensures PatternTime(s).None?
  {
    forall k | 0 <= k < 4 ensures SearchTime(s, k).None? {
      forall i | 0 <= i <= |s| ensures TimePatternAt(k, s, i).None? {
        var r := TimePatternAt(k, s, i);
      }
      SearchTimeMisses(s, k);
    }
    assert SearchTime(s, 0).None? && SearchTime(s, 1).None? && SearchTime(s, 2).None? && SearchTime(s, 3).None?;
    PatternTimeMisses(s);
  }

  /** The `relative_time` table, in its (insertion) order. */
  const RelativeKeys: seq<string> := ["morning", "afternoon", "evening", "night", "noon", "midnight"]
  const RelativeValues: seq<string> := ["09:00 AM", "02:00 PM", "06:00 PM", "08:00 PM", "12:00 PM", "12:00 AM"]

  /** The value of the first key occurring in the lower-cased text. */
  function RelativeTime(lower: string): (r: Option<string>)
    ensures r.None? <==> !ContainsAny(lower, RelativeKeys)
    ensures r.Some? ==> exists k :: (0 <= k < |RelativeKeys| && Contains(lower, RelativeKeys[k])
      && (forall j :: 0 <= j < k ==> !Contains(lower, RelativeKeys[j])) && r.value == RelativeValues[k])
  {
    match FirstContained(lower, RelativeKeys)
    case None => None
    case Some(k) => Some(RelativeValues[k])
  }

  /** `extract_time`: the raw group of the first pattern, in list order, matching
      anywhere (never normalised); otherwise the first relative keyword's time. */
  function ExtractTime(text: string): (r: Option<string>)
    ensures PatternTime(text).Some? ==>
      r == PatternTime(text) && Contains(text, r.value) && IsDigit(r.value[0])
    ensures SearchTime(text, 0).Some? ==> r == SearchTime(text, 0)
    ensures PatternTime(text).None? ==> r == RelativeTime(Lower(text))
    ensures r.None? <==> PatternTime(text).None? && !ContainsAny(Lower(text), RelativeKeys)
  {
    var p := PatternTime(text);
    if p.Some? then p else RelativeTime(Lower(text))
  }

  /** "midnight" contains "night", which comes first in the table: with no number
      and no earlier keyword, midnight means 8 in the evening. */
  lemma {:induction false} MidnightMeansNight(text: string)
    requires forall i :: 0 <= i < |text| ==> !IsDigit(text[i])
    requires Contains(Lower(text), "midnight")
    requires !Contains(Lower(text), "morning") && !Contains(Lower(text), "afternoon")
    requires !Contains(Lower(text), "evening")
    ensures ExtractTime(text) == Some("08:00 PM")
  {
    NoDigitNoPattern(text);
    assert PrefixAt("midnight", 3, "night");
    ContainsWidens(Lower(text), "midnight", "night");
    var r := FirstContained(Lower(text), RelativeKeys);
    assert RelativeKeys[3] == "night";
    assert r == Some(3);
  }

  // ------------------------------------------------------------------ date

  /** The dates a keyword stands for, formatted `%Y-%m-%d`. */
  datatype Days = Days(today: string, tomorrow: string, yesterday: string)

  /** `(\d{1,2}/\d{1,2}/\d{2,4})` at `i`: the end of the match. */
  function DateAt(s: string, i: nat): (r: Option<nat>)
    ensures r.Some? ==> i < r.value <= |s|
  {
    var d1 := TwoDigits(s, i);
    var a := i + d1;
    if d1 == 0 || a >= |s| || s[a] != '/' then None
    else
      var d2 := TwoDigits(s, a + 1);
      var b := a + 1 + d2;
      if d2 == 0 || b >= |s| || s[b] != '/' then None
      else
        var r3 := RunAt(s, b + 1, IsDigit);
        if r3 < 2 then None else Some(b + 1 + (if r3 < 4 then r3 else 4))
  }

  /** `re.search` of the date pattern: the leftmost match. */
  function SearchDate(s: string): (r: Option<string>)
    ensures r.Some? ==> Contains(s, r.value)
    ensures r.None? <==> forall i :: 0 <= i <= |s| ==> DateAt(s, i).None?
  {
    var m := (i: nat) => DateAt(s, i);
    var hit := Leftmost(|s|, m, 0);
    if hit.None? then
      assert forall i :: 0 <= i <= |s| ==> DateAt(s, i).None? by {
        forall i | 0 <= i <= |s| ensures DateAt(s, i).None? {
          assert m(i).None?;
        }
      }
      None
    else
      var (i, e) := hit.value;
      assert PrefixAt(s, i, s[i..e]);
      Some(s[i..e])
  }

  const Weekdays: seq<string> := ["monday", "tuesday", "wednesday", "thursday", "friday", "saturday", "sunday"]

  predicate NoDayWord(lower: string) {
    !Contains(lower, "today") && !Contains(lower, "tomorrow") && !Contains(lower, "yesterday")
  }

  /** `extract_date`: today > tomorrow > yesterday, then a d/m/y date as written, then
      the first weekday in week order. */
  function ExtractDate(text: string, days: Days): (r: Option<string>)
    ensures Contains(Lower(text), "today") ==> r == Some(days.today)
    ensures !Contains(Lower(text), "today") && Contains(Lower(text), "tomorrow") ==> r == Some(days.tomorrow)
    ensures (!Contains(Lower(text), "today") && !Contains(Lower(text), "tomorrow")
      && Contains(Lower(text), "yesterday")) ==> r == Some(days.yesterday)
    ensures NoDayWord(Lower(text)) && SearchDate(text).Some? ==>
      r == SearchDate(text) && Contains(text, r.value)
    ensures NoDayWord(Lower(text)) && SearchDate(text).None? ==>
      (r.None? <==> !ContainsAny(Lower(text), Weekdays))
      && (r.Some? ==> r.value in Weekdays && Contains(Lower(text), r.value))
    ensures NoDayWord(Lower(text)) && SearchDate(text).None? && r.Some? ==>
      exists j :: 0 <= j < |Weekdays| && r.value == Weekdays[j] && Contains(Lower(text), Weekdays[j])
        && forall k :: 0 <= k < j ==> !Contains(Lower(text), Weekdays[k])
  {
    var lower := Lower(text);
    if Contains(lower, "today") then Some(days.today)
    else if Contains(lower, "tomorrow") then Some(days.tomorrow)
    else if Contains(lower, "yesterday") then Some(days.yesterday)
    else if SearchDate(text).Some? then SearchDate(text)
    else match FirstContained(lower, Weekdays)
      case None => None
      case Some(k) => Some(Weekdays[k])
  }

  // ------------------------------------------------------------------ task

  const TaskKeywords: seq<string> :=
    ["medication", "medicine", "pills", "appointment", "doctor", "meeting", "call", "exercise", "eat", "drink", "take"]

  predicate NonSpace(c: char) { !IsSpace(c) }

  /** `text.split()`. */
  function Words(text: string): seq<string> { Runs(text, NonSpace) }

  /** The first word (from `i` on) whose lower-cased form contains `kw`. */
  function WordWith(words: seq<string>, kw: string, i: nat): (r: Option<nat>)
    requires i <= |words|
    ensures r.Some? ==> i <= r.value < |words| && Contains(Lower(words[r.value]), kw)
    ensures r.Some? ==> forall j :: i <= j < r.value ==> !Contains(Lower(words[j]), kw)
    ensures r.None? ==> forall j :: i <= j < |words| ==> !Contains(Lower(words[j]), kw)
    decreases |words| - i
  {
    if i == |words| then None
    else if Contains(Lower(words[i]), kw) then Some(i)
    else WordWith(words, kw, i + 1)
  }

  /** A run of at most five consecutive words containing a word with a task keyword. */
  predicate TaskWindow(words: seq<string>, r: string) {
    exists lo, hi | 0 <= lo < hi <= |words| && hi - lo <= 5 ::
      r == Join(words[lo..hi], " ") && exists j | lo <= j < hi :: ContainsAny(Lower(words[j]), TaskKeywords)
  }

  /** The words `words[i-2..i+3]`, clipped to the sentence, joined with single spaces:
      word `i` and at most two neighbours on each side. */
  function Around(words: seq<string>, i: nat): (r: string)
    requires i < |words|
    ensures TaskWindow(words, r) || !ContainsAny(Lower(words[i]), TaskKeywords)
  {
    var lo := if i < 2 then 0 else i - 2;
    var hi := if i + 3 < |words| then i + 3 else |words|;
    Join(words[lo..hi], " ")
  }

  /** The keyword loop of `extract_task` from keyword `k` on. */
  function TaskFrom(text: string, k: nat): (r: string)
    requires k <= |TaskKeywords|
    ensures r == text || TaskWindow(Words(text), r)
    decreases |TaskKeywords| - k
  {
    if k == |TaskKeywords| then text
    else if !Contains(Lower(text), TaskKeywords[k]) then TaskFrom(text, k + 1)
    else
      var words := Words(text);
      match WordWith(words, TaskKeywords[k], 0)
      case None => TaskFrom(text, k + 1)
      case Some(i) =>
        assert ContainsAny(Lower(words[i]), TaskKeywords);
        Around(words, i)
  }

  /** `extract_task`: the five-word window around the first word holding the first
      listed keyword that occurs in the text; the whole text when none occurs. Never
      absent: a keyword has no white space, so wherever it occurs it lies inside one
      word and the word search cannot miss. */
  function ExtractTask(text: string): (r: string)
    ensures !ContainsAny(Lower(text), TaskKeywords) ==> r == text
    ensures r == text || TaskWindow(Words(text), r)
    ensures ContainsAny(Lower(text), TaskKeywords) ==>
      var kw := TaskKeywords[FirstContained(Lower(text), TaskKeywords).value];
      WordWith(Words(text), kw, 0).Some? && r == Around(Words(text), WordWith(Words(text), kw, 0).value)
  {
    if !ContainsAny(Lower(text), TaskKeywords) then
      NoKeywordWholeText(text, 0);
      text
    else
      var k := FirstContained(Lower(text), TaskKeywords).value;
      SkipToFirstKeyword(text, 0, k);
      KeywordFindsWord(text, TaskKeywords[k]);
      TaskFrom(text, 0)
  }

  lemma {:induction false} NoKeywordWholeText(text: string, k: nat)
    requires k <= |TaskKeywords| && !ContainsAny(Lower(text), TaskKeywords)
    ensures TaskFrom(text, k) == text
    decreases |TaskKeywords| - k
  {
    if k < |TaskKeywords| {
      NoKeywordWholeText(text, k + 1);
    }
  }

  /** Keywords before the first one that occurs are skipped. */
  lemma {:induction false} SkipToFirstKeyword(text: string, j: nat, k: nat)
    requires j <= k < |TaskKeywords|
    requires forall m :: j <= m < k ==> !Contains(Lower(text), TaskKeywords[m])
    ensures TaskFrom(text, j) == TaskFrom(text, k)
    decreases k - j
  {
    if j < k {
      SkipToFirstKeyword(text, j + 1, k);
    }
  }

  /** A task keyword found in the text is found in one of its words. */
  lemma KeywordFindsWord(text: string, kw: string)
    requires kw in TaskKeywords && Contains(Lower(text), kw)
    ensures WordWith(Words(text), kw, 0).Some?
  {
    KeywordsHaveNoSpace(kw);
    SpacelessFindsWord(text, kw);
  }

  /** Every task keyword is a non-empty string without white space. */
  lemma KeywordsHaveNoSpace(kw: string)
    requires kw in TaskKeywords
    ensures 0 < |kw| && forall c :: 0 <= c < |kw| ==> NonSpace(kw[c])
  {
  }

  /** A string without white space that occurs in `Lower(text)` is found in a word. */
  lemma SpacelessFindsWord(text: string, kw: string)
    requires 0 < |kw| && forall c :: 0 <= c < |kw| ==> NonSpace(kw[c])
    requires Contains(Lower(text), kw)
    ensures WordWith(Words(text), kw, 0).Some?
  {
    var p :| 0 <= p <= |Lower(text)| && PrefixAt(Lower(text), p, kw);
    InsideOneWord(text, kw, p);
  }

  /** A string without white space that occurs in `Lower(s)` occurs in the lower-cased
      form of one of the words of `s`. */
  lemma {:induction false} InsideOneWord(s: string, kw: string, p: nat)
    requires 0 < |kw| && forall c :: 0 <= c < |kw| ==> NonSpace(kw[c])
    requires PrefixAt(Lower(s), p, kw)
    ensures exists j :: 0 <= j < |Words(s)| && Contains(Lower(Words(s)[j]), kw)
    decreases |s|
  {
    NonSpaceUnder(s, kw, p);
    if !NonSpace(s[0]) {
      assert p != 0;
      OccursInSuffix(s, kw, p, 1);
      InsideOneWord(s[1..], kw, p - 1);
      WordsStep(s);
    } else {
      var n := RunLength(s, NonSpace);
      WordsStep(s);
      if p + |kw| <= n {
        OccursInPrefix(s, kw, p, n);
        assert Contains(Lower(Words(s)[0]), kw);
      } else {
        assert n < p;
        OccursInSuffix(s, kw, p, n);
        InsideOneWord(s[n..], kw, p - n);
        var j :| 0 <= j < |Words(s[n..])| && Contains(Lower(Words(s[n..])[j]), kw);
        assert Words(s)[j + 1] == Words(s[n..])[j];
      }
    }
  }

  /** The characters under an occurrence of a string without white space are not
      white space either. */
  lemma NonSpaceUnder(s: string, kw: string, p: nat)
    requires forall c :: 0 <= c < |kw| ==> NonSpace(kw[c])
    requires PrefixAt(Lower(s), p, kw)
    ensures forall c :: p <= c < p + |kw| ==> NonSpace(s[c])
  {
    forall c | p <= c < p + |kw| ensures NonSpace(s[c]) {
      assert Lower(s)[c] == kw[c - p];
    }
  }

  lemma OccursInSuffix(s: string, kw: string, p: nat, n: nat)
    requires n <= p && PrefixAt(Lower(s), p, kw)
    ensures PrefixAt(Lower(s[n..]), p - n, kw)
  {
    LowerSlice(s, n, |s|);
    assert Lower(s)[n..][p - n..p - n + |kw|] == Lower(s)[p..p + |kw|];
  }

  lemma OccursInPrefix(s: string, kw: string, p: nat, n: nat)
    requires p + |kw| <= n <= |s| && PrefixAt(Lower(s), p, kw)
    ensures PrefixAt(Lower(s[..n]), p, kw)
  {
    LowerSlice(s, 0, n);
    assert Lower(s)[..n][p..p + |kw|] == Lower(s)[p..p + |kw|];
  }

  /** One step of `split()`: leading white space is dropped, a leading word is cut off. */
  lemma WordsStep(s: string)
    requires |s| > 0
    ensures !NonSpace(s[0]) ==> Words(s) == Words(s[1..])
    ensures NonSpace(s[0]) ==>
      var n := RunLength(s, NonSpace); Words(s) == [s[..n]] + Words(s[n..])
  {
  }

  // ------------------------------------------------------------------ object

  const CommonObjects: seq<string> :=
    ["keys", "glasses", "phone", "wallet", "pillbox", "medicine", "remote", "book", "watch", "bag"]

  /** `extract_object`: the first listed object occurring in the lower-cased text. */
  function ExtractObject(text: string): (r: Option<string>)
    ensures r.None? <==> !ContainsAny(Lower(text), CommonObjects)
    ensures r.Some? ==> exists k :: (0 <= k < |CommonObjects| && r.value == CommonObjects[k]
      && Contains(Lower(text), CommonObjects[k]) && forall j :: 0 <= j < k ==> !Contains(Lower(text), CommonObjects[j]))
  {
    match FirstContained(Lower(text), CommonObjects)
    case None => None
    case Some(k) => Some(CommonObjects[k])
  }

  // ------------------------------------------------------------------ all

  /** The dictionary `extract_all` builds. */
  datatype Extracted = Extracted(
    time: Option<string>, date: Option<string>, task: string,
    persons: seq<string>, item: Option<string>, rawText: string)

  /** `extract_all` without spaCy: the raw text is kept and no person is found. */
  function ExtractAll(text: string, days: Days): (r: Extracted)
    ensures r.rawText == text && r.persons == []
    ensures r.time == ExtractTime(text) && r.date == ExtractDate(text, days)
    ensures r.task == ExtractTask(text) && r.item == ExtractObject(text)
  {
    Extracted(ExtractTime(text), ExtractDate(text, days), ExtractTask(text), [], ExtractObject(text), text)
  }

  /** The dictionary `extract_all` returns, as its readers see it: every key is present,
      and the optional entries are `None` when nothing was found. */
  datatype EntityDict = EntityDict(time: Slot, date: Slot, task: Slot, item: Slot, rawText: Slot)

  function Present(x: Option<string>): (r: Slot)
    ensures !r.Missing? && SlotValue(r) == x
  {
    if x.Some? then Str(x.value) else Null
  }

  function AsDict(e: Extracted): (r: EntityDict)
    ensures r.task == Str(e.task) && r.rawText == Str(e.rawText)
    ensures SlotValue(r.time) == e.time && SlotValue(r.date) == e.date && SlotValue(r.item) == e.item
    ensures !r.time.Missing? && !r.date.Missing? && !r.item.Missing?
  {
    EntityDict(Present(e.time), Present(e.date), Str(e.task), Present(e.item), Str(e.rawText))
  }
}
