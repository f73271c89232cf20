/** The fake server's entity extractor, `extractEntities(text)`: a time phrase
    found by an ordered list of regular expressions and normalised, and a task
    title found by an ordered cascade of heuristics.

    Each regular expression is modelled as a matcher at a start position that
    follows the engine's backtracking order (alternatives left to right, greedy
    quantifiers longest first, lazy ones shortest first), and `Leftmost` scans the
    start positions. Case-insensitive patterns are matched against the lower-cased
    text; captures are cut from the original text, which has the same length. */
module Entities {
  import opened Wrappers
  import opened Strings
  import TimeNormalizer

  // ---------------------------------------------------------------- time phrases

  /** `\b\d{1,2}:\d{2}` at `i`: the end of the clock digits. A run of three or more
      digits cannot match, since `\d{1,2}` must be followed by the colon. */
  function ClockAt(l: string, i: nat): (r: Option<nat>)
    ensures r.Some? ==> i < r.value <= |l|
  {
    var k := RunAt(l, i, IsDigit);
    if Boundary(l, i) && 1 <= k <= 2 && i + k + 3 <= |l| && l[i + k] == ':'
       && IsDigit(l[i + k + 1]) && IsDigit(l[i + k + 2])
    then Some(i + k + 3)
    else None
  }

  /** `\s*(?:am|pm)\b` at `e`: the end of the meridiem word. */
  function MeridiemAt(l: string, e: nat): (r: Option<nat>)
    ensures r.Some? ==> e < r.value <= |l|
  {
    var j := e + SpaceRun(l, e);
    if (PrefixAt(l, j, "am") || PrefixAt(l, j, "pm")) && Boundary(l, j + 2) then Some(j + 2)
    else None
  }

  const TimeWords: seq<string> := ["noon", "morning", "evening", "night"]

  /** The `k`-th time pattern matching at `i`, in list order:
      0 `\b(\d{1,2}:\d{2}\s*(?:am|pm))\b`, 1 `\b(\d{1,2}\s*(?:am|pm))\b`,
      2 `\b(noon|morning|evening|night)\b`, 3 `\b(\d{1,2}:\d{2})\b`;
      the end of the match. */
  function TimePatternAt(k: nat, l: string, i: nat): (r: Option<nat>)
    requires k < 4
    ensures r.Some? ==> i < r.value <= |l|
  {
    if k == 0 then
      match ClockAt(l, i)
      case Some(e) => MeridiemAt(l, e)
      case None => None
    else if k == 1 then
      var d := RunAt(l, i, IsDigit);
      if Boundary(l, i) && 1 <= d <= 2 then MeridiemAt(l, i + d) else None
    else if k == 2 then
      match FirstBoundedAlt(l, i, TimeWords, 0)
      case Some(a) => Some(i + |TimeWords[a]|)
      case None => None
    else
      match ClockAt(l, i)
      case Some(e) => if Boundary(l, e) then Some(e) else None
      case None => None
  }

  /** `clean.match(timeRegexes[k])?.[1]`: the text of the leftmost match of the
      `k`-th pattern, in the case it was written in. */
  function TimeMatch(clean: string, k: nat): (r: Option<string>)
    requires k < 4
    ensures r.Some? ==> exists i, e | 0 <= i < e <= |clean| ::
      TimePatternAt(k, Lower(clean), i) == Some(e) && r.value == clean[i..e]
      && forall j | 0 <= j < i :: TimePatternAt(k, Lower(clean), j).None?
    ensures r.None? ==> forall i | 0 <= i <= |clean| :: TimePatternAt(k, Lower(clean), i).None?
  {
    var l := Lower(clean);
    var m := (i: nat) => TimePatternAt(k, l, i);
    match Leftmost(|l|, m, 0)
    case Some((i, e)) =>
      assert TimePatternAt(k, l, i) == Some(e) by { assert m(i) == Some(e); }
      forall j | 0 <= j < i ensures TimePatternAt(k, l, j).None? { assert m(j).None?; }
      Some(clean[i..e])
    case None =>
      forall j | 0 <= j <= |clean| ensures TimePatternAt(k, l, j).None? { assert m(j).None?; }
      None
  }

  /** The first pattern, from the `k`-th on, that matches, and what it matched. */
  function TimeFrom(clean: string, k: nat): (r: Option<string>)
    requires k <= 4
    ensures r.Some? ==> exists j | k <= j < 4 ::
      (r == TimeMatch(clean, j) && forall j' | k <= j' < j :: TimeMatch(clean, j').None?)
    ensures r.None? ==> forall j | k <= j < 4 :: TimeMatch(clean, j).None?
    decreases 4 - k
  {
    if k == 4 then None
    else
      var m := TimeMatch(clean, k);
      if m.Some? then m else TimeFrom(clean, k + 1)
  }

  /** The time loop of `extractEntities`: try the patterns in order and stop at the
      first that matches. */
  method FindTime(clean: string) returns (r: Option<string>)
    ensures r == TimeFrom(clean, 0)
  {
    r := None;
    var k := 0;
    while k < 4
      invariant 0 <= k <= 4 && r.None? && TimeFrom(clean, k) == TimeFrom(clean, 0)
      decreases 4 - k
    {
      var m := TimeMatch(clean, k);
      if m.Some? {
        r := m;
        break;
      }
      k := k + 1;
    }
  }

  // ---------------------------------------------------------------- regular-expression pieces

  /** The first `q` in `[q0, n]` with `term(q)`: the end of a lazy capture. */
  function FirstWhere(n: nat, term: nat -> bool, q0: nat): (r: Option<nat>)
    ensures r.Some? ==> q0 <= r.value <= n && term(r.value)
    ensures r.Some? ==> forall j :: q0 <= j < r.value ==> !term(j)
    ensures r.None? ==> forall j :: q0 <= j <= n ==> !term(j)
    decreases n + 1 - q0
  {
    if q0 > n then None
    else if term(q0) then Some(q0)
    else FirstWhere(n, term, q0 + 1)
  }

  /** The last `q` in `[lo, hi]` with `term(q)`: the end of a greedy capture backing off. */
  function LastWhere(lo: nat, hi: nat, term: nat -> bool): (r: Option<nat>)
    ensures r.Some? ==> lo <= r.value <= hi && term(r.value)
    ensures r.Some? ==> forall j :: r.value < j <= hi ==> !term(j)
    ensures r.None? ==> forall j :: lo <= j <= hi ==> !term(j)
    decreases hi
  {
    if hi < lo then None
    else if term(hi) then Some(hi)
    else if hi == lo then None
    else LastWhere(lo, hi - 1, term)
  }

  /** A capture that may start anywhere in `[lo, hi]`, trying the latest start first
      (a greedy `\s+` or `\s*` before it, backing off one character at a time):
      the start and the end of the first capture that succeeds. */
  function BackOff(lo: nat, hi: nat, cap: nat -> Option<nat>): (r: Option<(nat, nat)>)
    ensures r.Some? ==> lo <= r.value.0 <= hi && cap(r.value.0) == Some(r.value.1)
    ensures r.None? ==> forall p :: lo <= p <= hi ==> cap(p).None?
    decreases hi
  {
    if hi < lo then None
    else match cap(hi)
      case Some(q) => Some((hi, q))
      case None => if hi == lo then None else BackOff(lo, hi - 1, cap)
  }

  /** A capture bounded by the text: it starts before it ends, inside `l`. */
  predicate Captures(l: string, c: (nat, nat)) { c.0 < c.1 <= |l| }

  /** `\s{minWs,}(.+?)` followed by `term`, after position `e`. The capture never
      crosses a line terminator. */
  function SpacedLazy(l: string, e: nat, minWs: nat, term: nat -> bool): (r: Option<(nat, nat)>)
    ensures r.Some? ==> e <= r.value.0 && Captures(l, r.value)
  {
    var cap := (p: nat) => FirstWhere(p + RunAt(l, p, NotLineTerminator), term, p + 1);
    var r := BackOff(e + minWs, e + SpaceRun(l, e), cap);
    if r.Some? then
      assert cap(r.value.0) == Some(r.value.1);
      r
    else r
  }

  /** The first literal of `ps` (from `k` on) at `i` after which `rest` succeeds:
      a leading alternation whose alternatives are tried in order. */
  function AltThen(l: string, i: nat, ps: seq<string>, k: nat, rest: nat -> Option<(nat, nat)>)
    : (r: Option<(nat, nat)>)
    requires k <= |ps|
    ensures r.Some? ==> exists a | k <= a < |ps| :: PrefixAt(l, i, ps[a]) && r == rest(i + |ps[a]|)
    decreases |ps| - k
  {
    if k == |ps| then None
    else if PrefixAt(l, i, ps[k]) && rest(i + |ps[k]|).Some? then rest(i + |ps[k]|)
    else AltThen(l, i, ps, k + 1, rest)
  }

  /** `set\s+reminder` at `i`: its end. */
  function SetSpaceReminderAt(l: string, i: nat): (r: Option<nat>)
    ensures r.Some? ==> i < r.value
  {
    var w := SpaceRun(l, i + 3);
    if PrefixAt(l, i, "set") && w >= 1 && PrefixAt(l, i + 3 + w, "reminder") then Some(i + 3 + w + 8)
    else None
  }

  /** `\s+at` at `j` (the white space is taken whole, since a letter follows it). */
  predicate SpaceAt(l: string, j: nat) {
    var w := SpaceRun(l, j);
    w >= 1 && PrefixAt(l, j + w, "at")
  }

  /** `\s+at\s+` at `j`. */
  predicate SpaceAtSpace(l: string, j: nat) {
    var w := SpaceRun(l, j);
    w >= 1 && PrefixAt(l, j + w, "at") && j + w + 2 < |l| && IsSpace(l[j + w + 2])
  }

  predicate IsQuote(c: char) { c == '"' || c == '\'' }

  /** `remind(?: me)?(?: to)?`, its four readings in backtracking order. */
  const RemindLeaders: seq<string> := ["remind me to", "remind me", "remind to", "remind"]

  /** `set(?: a)? reminder(?: to)?(?: for)?`, its eight readings in backtracking order. */
  const SetReminderLeaders: seq<string> := [
    "set a reminder to for", "set a reminder to", "set a reminder for", "set a reminder",
    "set reminder to for", "set reminder to", "set reminder for", "set reminder"]

  // ---------------------------------------------------------------- title heuristics

  /** `\s+["'](.+?)["'](?:\s+at|$)` after position `e`. */
  function QuotedRest(l: string, e: nat): (r: Option<(nat, nat)>)
    ensures r.Some? ==> e < r.value.0 && Captures(l, r.value)
  {
    var w := SpaceRun(l, e);
    var close := (q: nat) => q < |l| && IsQuote(l[q]) && (q + 1 == |l| || SpaceAt(l, q + 1));
    if w >= 1 && e + w < |l| && IsQuote(l[e + w]) then
      match FirstWhere(e + w + 1 + RunAt(l, e + w + 1, NotLineTerminator), close, e + w + 2)
      case Some(q) => Some((e + w + 1, q))
      case None => None
    else None
  }

  /** `(?:set\s+reminder|remind(?: me)?(?: to)?|add reminder)\s+["'](.+?)["'](?:\s+at|$)` at `i`. */
  function QuotedAt(l: string, i: nat): (r: Option<(nat, nat)>)
    ensures r.Some? ==> Captures(l, r.value)
  {
    var rest := (e: nat) => QuotedRest(l, e);
    match SetSpaceReminderAt(l, i)
    case Some(e) =>
      if QuotedRest(l, e).Some? then QuotedRest(l, e)
      else
        var a := AltThen(l, i, RemindLeaders, 0, rest);
        if a.Some? then a else AltThen(l, i, ["add reminder"], 0, rest)
    case None =>
      var a := AltThen(l, i, RemindLeaders, 0, rest);
      if a.Some? then a else AltThen(l, i, ["add reminder"], 0, rest)
  }

  /** `(?:set\s+reminder|add reminder)\s+(.+?)\s+at\s+` at `i`. */
  function SetReminderAt(l: string, i: nat): (r: Option<(nat, nat)>)
    ensures r.Some? ==> Captures(l, r.value)
  {
    var term := (q: nat) => SpaceAtSpace(l, q);
    var rest := (e: nat) => SpacedLazy(l, e, 1, term);
    match SetSpaceReminderAt(l, i)
    case Some(e) =>
      if rest(e).Some? then rest(e) else AltThen(l, i, ["add reminder"], 0, rest)
    case None => AltThen(l, i, ["add reminder"], 0, rest)
  }

  /** `remind(?: me)?(?: to)?\s+(.+?)(?:\s+at\s+|$)` at `i`. */
  function RemindMeToAt(l: string, i: nat): (r: Option<(nat, nat)>)
    ensures r.Some? ==> Captures(l, r.value)
  {
    var term := (q: nat) => SpaceAtSpace(l, q) || q == |l|;
    AltThen(l, i, RemindLeaders, 0, (e: nat) => SpacedLazy(l, e, 1, term))
  }

  /** `(?:title|name)[:]?\s*(.+?)(?:$| at | time )` at `i`: the colon is taken when
      present and given back when nothing matches with it. */
  function TitleMarkerAt(l: string, i: nat): (r: Option<(nat, nat)>)
    ensures r.Some? ==> Captures(l, r.value)
  {
    var term := (q: nat) => q == |l| || PrefixAt(l, q, " at ") || PrefixAt(l, q, " time ");
    var rest := (e: nat) =>
      if e < |l| && l[e] == ':' && SpacedLazy(l, e + 1, 0, term).Some? then SpacedLazy(l, e + 1, 0, term)
      else SpacedLazy(l, e, 0, term);
    AltThen(l, i, ["title", "name"], 0, rest)
  }

  /** `[a-z0-9 ,.'-]`, case-insensitively (so on lower-cased text). */
  predicate ForClass(c: char) {
    'a' <= c <= 'z' || IsDigit(c) || c == ' ' || c == ',' || c == '.' || c == '\'' || c == '-'
  }

  /** `for\s+([a-z0-9 ,.'-]+)(?: at|$)` at `i`: a greedy capture that backs off. */
  function ForClauseAt(l: string, i: nat): (r: Option<(nat, nat)>)
    ensures r.Some? ==> Captures(l, r.value)
  {
    var term := (q: nat) => q == |l| || PrefixAt(l, q, " at");
    var cap := (p: nat) => LastWhere(p + 1, p + RunAt(l, p, ForClass), term);
    if PrefixAt(l, i, "for") then
      var r := BackOff(i + 4, i + 3 + SpaceRun(l, i + 3), cap);
      if r.Some? then
        assert cap(r.value.0) == Some(r.value.1);
        r
      else r
    else None
  }

  /** `set(?: a)? reminder(?: to)?(?: for)?\s+(.+?)(?: at|$)` at `i`. */
  function SetReminderForAt(l: string, i: nat): (r: Option<(nat, nat)>)
    ensures r.Some? ==> Captures(l, r.value)
  {
    var term := (q: nat) => q == |l| || PrefixAt(l, q, " at");
    AltThen(l, i, SetReminderLeaders, 0, (e: nat) => SpacedLazy(l, e, 1, term))
  }

  /** The `k`-th title heuristic matching at `i`, in the order they are tried:
      0 quoted title, 1 "set reminder X at", 2 "remind me to X", 3 "title X",
      4 "for X", 5 "set a reminder for X". */
  function TitlePatternAt(k: nat, l: string, i: nat): (r: Option<(nat, nat)>)
    requires k < 6
    ensures r.Some? ==> Captures(l, r.value)
  {
    if k == 0 then QuotedAt(l, i)
    else if k == 1 then SetReminderAt(l, i)
    else if k == 2 then RemindMeToAt(l, i)
    else if k == 3 then TitleMarkerAt(l, i)
    else if k == 4 then ForClauseAt(l, i)
    else SetReminderForAt(l, i)
  }

  /** The leftmost match of the `k`-th title heuristic: its start and its capture. */
  function TitleMatch(l: string, k: nat): (r: Option<(nat, (nat, nat))>)
    requires k < 6
    ensures r.Some? ==> Captures(l, r.value.1)
  {
    var m := (i: nat) => TitlePatternAt(k, l, i);
    var r := Leftmost(|l|, m, 0);
    if r.Some? then
      assert m(r.value.0) == Some(r.value.1);
      r
    else r
  }

  /** The match found is the leftmost one: no match starts earlier. */
  lemma TitleMatchLeftmost(l: string, k: nat)
    requires k < 6
    ensures TitleMatch(l, k).Some? ==>
      TitlePatternAt(k, l, TitleMatch(l, k).value.0) == Some(TitleMatch(l, k).value.1)
      && forall j | 0 <= j < TitleMatch(l, k).value.0 :: TitlePatternAt(k, l, j).None?
    ensures TitleMatch(l, k).None? ==> forall j | 0 <= j <= |l| :: TitlePatternAt(k, l, j).None?
  {
    var m := (i: nat) => TitlePatternAt(k, l, i);
    var r := Leftmost(|l|, m, 0);
    assert r == TitleMatch(l, k);
    if r.Some? {
      assert m(r.value.0) == Some(r.value.1);
      forall j | 0 <= j < r.value.0 ensures TitlePatternAt(k, l, j).None? { assert m(j).None?; }
    } else {
      forall j | 0 <= j <= |l| ensures TitlePatternAt(k, l, j).None? { assert m(j).None?; }
    }
  }

  /** `t.match(pattern_k)?.[1].trim()`: the trimmed capture of the leftmost match. */
  function TitlePattern(t: string, k: nat): (r: Option<string>)
    requires k < 6
    ensures r.Some? ==> IsTrimmed(r.value)
  {
    match TitleMatch(Lower(t), k)
    case Some((_, c)) => Some(Trim(t[c.0..c.1]))
    case None => None
  }

  /** JavaScript truthiness of the title variable: set and not empty. */
  predicate HasTitle(title: Option<string>) { title.Some? && title.value != "" }

  /** `if (!title) { const m = ...; if (m) title = m[1].trim(); }`. */
  function Try(title: Option<string>, c: Option<string>): Option<string> {
    if HasTitle(title) then title else if c.Some? then c else title
  }

  /** The title after trying the candidates `cs` in order, each only while there is
      no title yet: the first non-empty candidate, else an empty one if any matched. */
  function Cascade(cs: seq<Option<string>>): (r: Option<string>)
    ensures HasTitle(r) ==> exists k | 0 <= k < |cs| ::
      (r == cs[k] && forall j | 0 <= j < k :: !HasTitle(cs[j]))
    ensures r.Some? ==> exists k | 0 <= k < |cs| :: r == cs[k]
    ensures !HasTitle(r) ==> forall k | 0 <= k < |cs| :: !HasTitle(cs[k])
    ensures r.None? <==> forall k | 0 <= k < |cs| :: cs[k].None?
  {
    if |cs| == 0 then None
    else
      var before := Cascade(cs[..|cs| - 1]);
      assert forall k | 0 <= k < |cs| - 1 :: cs[..|cs| - 1][k] == cs[k];
      Try(before, cs[|cs| - 1])
  }

  /** One more candidate tried. */
  lemma CascadeStep(cs: seq<Option<string>>, n: nat)
    requires 0 < n <= |cs|
    ensures Cascade(cs[..n]) == Try(Cascade(cs[..n - 1]), cs[n - 1])
  {
    assert cs[..n][..n - 1] == cs[..n - 1];
  }

  /** Six candidates tried one after the other, as `TitleOf` does. */
  function TrySix(c: seq<Option<string>>): Option<string>
    requires |c| == 6
  {
    Try(Try(Try(Try(Try(Try(None, c[0]), c[1]), c[2]), c[3]), c[4]), c[5])
  }

  lemma TrySixIsCascade(c: seq<Option<string>>)
    requires |c| == 6
    ensures TrySix(c) == Cascade(c)
  {
    CascadeStep(c, 1);
    CascadeStep(c, 2);
    CascadeStep(c, 3);
    CascadeStep(c, 4);
    CascadeStep(c, 5);
    CascadeStep(c, 6);
    assert c[..6] == c;
  }

  /** The title of the cascade: each heuristic is tried while there is no title yet. */
  function TitleOf(t: string): (r: Option<string>)
    ensures r.Some? ==> IsTrimmed(r.value)
  {
    var t0 := Try(None, TitlePattern(t, 0));
    var t1 := Try(t0, TitlePattern(t, 1));
    var t2 := Try(t1, TitlePattern(t, 2));
    var t3 := Try(t2, TitlePattern(t, 3));
    var t4 := Try(t3, TitlePattern(t, 4));
    Try(t4, TitlePattern(t, 5))
  }

  /** The title is that of the first heuristic yielding a non-empty one, and it is
      absent only when no heuristic matches at all. */
  lemma TitleFirstHeuristic(t: string)
    ensures HasTitle(TitleOf(t)) ==> exists k | 0 <= k < 6 ::
      (TitleOf(t) == TitlePattern(t, k) && forall j | 0 <= j < k :: !HasTitle(TitlePattern(t, j)))
    ensures TitleOf(t).None? <==> forall k | 0 <= k < 6 :: TitlePattern(t, k).None?
  {
    var cs := [TitlePattern(t, 0), TitlePattern(t, 1), TitlePattern(t, 2),
               TitlePattern(t, 3), TitlePattern(t, 4), TitlePattern(t, 5)];
    TrySixIsCascade(cs);
    assert TitleOf(t) == TrySix(cs);
    assert forall k | 0 <= k < 6 :: cs[k] == TitlePattern(t, k);
  }

  // ---------------------------------------------------------------- the AM/PM hint

  const HintWords: seq<string> := ["am", "pm", "a.m.", "p.m.", "morning", "night", "evening"]
  const AmWords: seq<string> := ["am", "a.m.", "morning"]
  const PmWords: seq<string> := ["pm", "p.m.", "night", "evening", "tonight", "sleep"]

  /** `(\d{1,2}:\d{2})`, unanchored: two hour digits are tried before one. */
  function NumberColonAt(t: string, i: nat): (r: Option<nat>)
    ensures r.Some? ==> i < r.value <= |t|
  {
    if i + 5 <= |t| && IsDigit(t[i]) && IsDigit(t[i + 1]) && t[i + 2] == ':'
       && IsDigit(t[i + 3]) && IsDigit(t[i + 4]) then Some(i + 5)
    else if i + 4 <= |t| && IsDigit(t[i]) && t[i + 1] == ':' && IsDigit(t[i + 2]) && IsDigit(t[i + 3])
    then Some(i + 4)
    else None
  }

  /** `\b(\d{1,2})\b`. */
  function NumberAt(t: string, i: nat): (r: Option<nat>)
    ensures r.Some? ==> i < r.value <= |t|
  {
    var d := RunAt(t, i, IsDigit);
    if Boundary(t, i) && 1 <= d <= 2 && Boundary(t, i + d) then Some(i + d) else None
  }

  /** The text of the leftmost match of a matcher. */
  function FirstText(t: string, m: nat -> Option<nat>): (r: Option<string>)
    requires forall i: nat :: m(i).Some? ==> i < m(i).value <= |t|
    ensures r.None? ==> forall i | 0 <= i <= |t| :: m(i).None?
  {
    match Leftmost(|t|, m, 0)
    case Some((i, e)) =>
      assert m(i) == Some(e);
      Some(t[i..e])
    case None => None
  }

  /** `(t.match(/(\d{1,2}:\d{2})/) || t.match(/\b(\d{1,2})\b/))?.[1]`. */
  function HintNumber(t: string): Option<string> {
    var a := FirstText(t, (i: nat) => NumberColonAt(t, i));
    if a.Some? then a else FirstText(t, (i: nat) => NumberAt(t, i))
  }

  /** The meridiem a hint word suggests, AM words first. */
  function Hint(t: string): (r: Option<string>)
    ensures r.Some? <==> HasBounded(Lower(t), AmWords) || HasBounded(Lower(t), PmWords)
    ensures r.Some? ==> r.value == (if HasBounded(Lower(t), AmWords) then "AM" else "PM")
  {
    if HasBounded(Lower(t), AmWords) then Some("AM")
    else if HasBounded(Lower(t), PmWords) then Some("PM")
    else None
  }

  /** The coercion tried when the matched time does not normalise: a number from the
      trimmed text with the hinted meridiem, when a hint word is present. */
  function Coerced(t: string): (r: Option<string>)
    ensures r.Some? ==> HasBounded(Lower(t), HintWords)
    ensures r.Some? ==> TimeNormalizer.IsClockString(r.value)
  {
    if !HasBounded(Lower(t), HintWords) then None
    else match HintNumber(t)
      case None => None
      case Some(num) =>
        match Hint(t)
        case None => None
        case Some(h) => TimeNormalizer.NormalizeTime(num + " " + h)
  }

  /** What the phrase of the first matching time pattern normalises to, if anything. */
  function MatchedTime(t: string): Option<string> {
    var m := TimeFrom(RemoveAll(t, '.'), 0);
    if m.Some? then TimeNormalizer.NormalizeTime(m.value) else None
  }

  /** The normalised time: the matched phrase when it normalises; otherwise a time
      appears only through the coercion, so only when a hint word is present. */
  function TimeOf(t: string): (r: Option<string>)
    ensures r.Some? ==> TimeNormalizer.IsClockString(r.value)
    ensures MatchedTime(t).Some? ==> r == MatchedTime(t)
    ensures MatchedTime(t).None? && r.Some? ==> HasBounded(Lower(t), HintWords)
  {
    var n := MatchedTime(t);
    if n.Some? then n else Coerced(t)
  }

  // ---------------------------------------------------------------- the trailing-phrase strip

  /** `\s+\bin the morning\b|\s+\bat night\b` at `i`: the end of the match. */
  function DaypartAt(l: string, i: nat): (r: Option<nat>)
    ensures r.Some? ==> i < r.value <= |l|
  {
    var w := SpaceRun(l, i);
    if w >= 1 && BoundedAt(l, i + w, "in the morning") then Some(i + w + 14)
    else if w >= 1 && BoundedAt(l, i + w, "at night") then Some(i + w + 8)
    else None
  }

  /** `title.replace(/\s+\bin the morning\b|\s+\bat night\b/i, "").trim()`: the first
      such phrase is cut out, then the ends are trimmed. */
  function StripDaypart(title: string): (r: string)
    ensures IsTrimmed(r) && |r| <= |title|
  {
    var l := Lower(title);
    var m := (i: nat) => DaypartAt(l, i);
    match Leftmost(|l|, m, 0)
    case Some((i, e)) =>
      assert m(i) == Some(e);
      Trim(title[..i] + title[e..])
    case None => Trim(title)
  }

  /** `if (title) title = strip(title); ... task: title?.trim()`. */
  function TaskOf(title: Option<string>): (r: Option<string>)
    ensures r.Some? <==> title.Some?
    ensures r.Some? ==> IsTrimmed(r.value)
  {
    if HasTitle(title) then Some(Trim(StripDaypart(title.value)))
    else if title.Some? then Some(Trim(title.value))
    else None
  }

  // ---------------------------------------------------------------- extractEntities

  datatype Entities = Entities(time: Option<string>, task: Option<string>)

  /** `extractEntities(text)`. */
  function EntitiesOf(text: string): (r: Entities)
    ensures r.task.Some? ==> IsTrimmed(r.task.value)
    ensures r.time.Some? ==> TimeNormalizer.IsClockString(r.time.value)
    ensures r.task.Some? <==> TitleOf(Trim(text)).Some?
  {
    var t := Trim(text);
    Entities(TimeOf(t), TaskOf(TitleOf(t)))
  }

  /** The title cascade of `extractEntities`: each heuristic is tried only while no
      title has been found. */
  method FindTitle(t: string) returns (title: Option<string>)
    ensures title == TitleOf(t)
  {
    title := None;
    var quoted := TitlePattern(t, 0);
    if quoted.Some? { title := quoted; }
    assert title == Try(None, quoted);
    ghost var t0 := title;
    if !HasTitle(title) {
      var setRem := TitlePattern(t, 1);
      if setRem.Some? { title := setRem; }
    }
    assert title == Try(t0, TitlePattern(t, 1));
    ghost var t1 := title;
    if !HasTitle(title) {
      var rmt := TitlePattern(t, 2);
      if rmt.Some? { title := rmt; }
    }
    assert title == Try(t1, TitlePattern(t, 2));
    ghost var t2 := title;
    if !HasTitle(title) {
      var marker := TitlePattern(t, 3);
      if marker.Some? { title := marker; }
    }
    assert title == Try(t2, TitlePattern(t, 3));
    ghost var t3 := title;
    if !HasTitle(title) {
      var forMatch := TitlePattern(t, 4);
      if forMatch.Some? { title := forMatch; }
    }
    assert title == Try(t3, TitlePattern(t, 4));
    if !HasTitle(title) {
      var fallback := TitlePattern(t, 5);
      if fallback.Some? { title := fallback; }
    }
  }

  /** `extractEntities(text)`, step by step as the source does it. */
  method ExtractEntities(text: string) returns (r: Entities)
    ensures r == EntitiesOf(text)
  {
    var t := Trim(text);
    var clean := RemoveAll(t, '.');
    var timeMatch := FindTime(clean);

    var title := FindTitle(t);

    var normalized := if timeMatch.Some? then TimeNormalizer.NormalizeTime(timeMatch.value) else None;
    assert normalized == MatchedTime(t);
    if normalized.None? && HasBounded(Lower(t), HintWords) {
      normalized := Coerced(t);
    }
    assert normalized == (if MatchedTime(t).Some? then MatchedTime(t) else Coerced(t));
    assert normalized == TimeOf(t);

    if HasTitle(title) {
      title := Some(StripDaypart(title.value));
    }
    var task := if title.Some? then Some(Trim(title.value)) else None;
    assert task == TaskOf(TitleOf(t));
    r := Entities(normalized, task);
    assert r == Entities(TimeOf(t), TaskOf(TitleOf(t)));
  }

  // ---------------------------------------------------------------- properties of the strip

  /** The characters of the lower-cased `x + p + rest` around the joint, for a
      daypart phrase `p`. */
  lemma JoinChars(x: string, p: string, rest: string)
    requires p == " in the morning" || p == " at night"
    ensures Lower(x + p + rest)[..|x|] == Lower(x)
    ensures Lower(x + p + rest)[|x|] == ' ' && Lower(x + p + rest)[|x| + 1] == p[1]
    ensures Lower(x + p + rest)[|x| + 1..|x| + |p|] == p[1..]
    ensures |rest| > 0 ==> Lower(x + p + rest)[|x| + |p|] == LowerChar(rest[0])
  {
    assert Lower(p) == p;
    LowerConcat(x + p, rest);
    LowerConcat(x, p);
  }

  /** Where a daypart phrase may follow white space: never before an `i` or an `a`. */
  lemma PhraseSpaces(q: string)
    requires q == "in the morning" || q == "at night"
    ensures forall o | 0 <= o < |q| && q[o] == ' ' :: o + 1 < |q| && q[o + 1] != 'i' && q[o + 1] != 'a'
  {
    if q == "in the morning" {
      assert q == "in" + " " + "the" + " " + "morning";
    }
  }

  /** After `x`, the phrase `p` that follows it matches the strip pattern. */
  lemma DaypartAtEnd(x: string, p: string, rest: string)
    requires p == " in the morning" || p == " at night"
    requires |rest| == 0 || !IsWordChar(LowerChar(rest[0]))
    ensures DaypartAt(Lower(x + p + rest), |x|) == Some(|x| + |p|)
  {
    JoinChars(x, p, rest);
    var l := Lower(x + p + rest);
    assert SpaceRun(l, |x|) == 1;
    assert l[|x| + |p| - 1] == p[|p| - 1];
    assert Boundary(l, |x| + 1) && Boundary(l, |x| + |p|);
    if p == " in the morning" {
      assert BoundedAt(l, |x| + 1, "in the morning");
    } else {
      assert !PrefixAt(l, |x| + 1, "in the morning");
      assert BoundedAt(l, |x| + 1, "at night");
    }
  }

  /** A phrase `q` of the strip pattern cannot start inside `x` when `x` does not
      contain it: it would either lie in `x` or run into the white space and first
      letter of `p`, which no such phrase has. */
  lemma NoPhraseInside(x: string, p: string, rest: string, j: nat, q: string)
    requires p == " in the morning" || p == " at night"
    requires q == "in the morning" || q == "at night"
    requires j < |x| && !Contains(Lower(x), q)
    ensures !PrefixAt(Lower(x + p + rest), j, q)
  {
    JoinChars(x, p, rest);
    var l := Lower(x + p + rest);
    assert j + |q| <= |x| ==> l[j..j + |q|] == Lower(x)[j..j + |q|];
    assert j + |q| > |x| && PrefixAt(l, j, q) ==> q[|x| - j] == ' ' && (|x| - j + 1 < |q| ==> q[|x| - j + 1] == p[1]);
    assert !PrefixAt(Lower(x), j, q);
    PhraseSpaces(q);
  }

  /** No strip match starts inside `x`. */
  lemma NoDaypartBefore(x: string, p: string, rest: string, i: nat)
    requires p == " in the morning" || p == " at night"
    requires IsTrimmed(x) && |x| > 0 && i < |x|
    requires !Contains(Lower(x), "in the morning") && !Contains(Lower(x), "at night")
    ensures DaypartAt(Lower(x + p + rest), i).None?
  {
    var l := Lower(x + p + rest);
    var w := SpaceRun(l, i);
    assert l[|x| - 1] == LowerChar(x[|x| - 1]);
    assert i + w >= |x| ==> IsSpace(l[|x| - 1]);
    if w >= 1 {
      NoPhraseInside(x, p, rest, i + w, "in the morning");
      NoPhraseInside(x, p, rest, i + w, "at night");
    }
  }

  /** The strip cuts the first "in the morning" or "at night" (with the white space
      before it) and nothing else: after a title that has neither phrase, the one
      that follows is removed, whatever comes after it. */
  lemma {:induction false} DaypartCut(x: string, p: string, rest: string)
    requires p == " in the morning" || p == " at night"
    requires IsTrimmed(x) && |x| > 0
    requires !Contains(Lower(x), "in the morning") && !Contains(Lower(x), "at night")
    requires |rest| == 0 || !IsWordChar(LowerChar(rest[0]))
    ensures StripDaypart(x + p + rest) == Trim(x + rest)
  {
    var s := x + p + rest;
    var l := Lower(s);
    var m := (i: nat) => DaypartAt(l, i);
    DaypartAtEnd(x, p, rest);
    assert m(|x|) == Some(|x| + |p|);
    forall i | 0 <= i < |x| ensures m(i).None? {
      NoDaypartBefore(x, p, rest, i);
    }
    var hit := Leftmost(|l|, m, 0);
    assert hit.Some?;
    assert hit.value.0 == |x|;
    CutJoin(x, p, rest);
  }

  lemma CutJoin(x: string, p: string, rest: string)
    ensures (x + p + rest)[..|x|] + (x + p + rest)[|x| + |p|..] == x + rest
  {
    assert (x + p + rest)[..|x|] == x;
    assert (x + p + rest)[|x| + |p|..] == rest;
  }

  /** A task ending in one daypart phrase loses it: "take pills in the morning" is
      "take pills". */
  lemma TrailingDaypartRemoved(x: string, p: string)
    requires p == " in the morning" || p == " at night"
    requires IsTrimmed(x) && |x| > 0
    requires !Contains(Lower(x), "in the morning") && !Contains(Lower(x), "at night")
    ensures StripDaypart(x + p) == x
  {
    DaypartCut(x, p, "");
    assert x + p + "" == x + p;
    assert x + "" == x;
    TrimOfTrimmed(x);
  }

  /** Only the first phrase goes: a title ending in "at night at night" keeps one. */
  lemma OnlyFirstDaypartRemoved(x: string)
    requires IsTrimmed(x) && |x| > 0
    requires !Contains(Lower(x), "in the morning") && !Contains(Lower(x), "at night")
    ensures StripDaypart(x + " at night" + " at night") == x + " at night"
  {
    DaypartCut(x, " at night", " at night");
    assert IsTrimmed(x + " at night");
    TrimOfTrimmed(x + " at night");
  }
}
