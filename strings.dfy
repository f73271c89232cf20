/** Character classes, case mapping, trimming, searching and splitting, as the
    JavaScript and Python sources use them. Only ASCII letters are case-mapped and
    only ASCII white space counts as white space. */
module Strings {

  // ---------------------------------------------------------------- characters

  predicate IsDigit(c: char) { '0' <= c <= '9' }

  predicate IsAsciiLetter(c: char) { 'a' <= c <= 'z' || 'A' <= c <= 'Z' }

  /** `\w` of a regular expression. */
  predicate IsWordChar(c: char) { IsDigit(c) || IsAsciiLetter(c) || c == '_' }

  /** `\s` of a regular expression, and what `trim()`, `strip()` and `split()` remove. */
  predicate IsSpace(c: char) {
    c == ' ' || c == '\t' || c == '\n' || c == '\r' || c == '\U{B}' || c == '\U{C}'
  }

  /** A line terminator: what `.` in a JavaScript regular expression does not match. */
  predicate IsLineTerminator(c: char) { c == '\n' || c == '\r' || c == '\U{2028}' || c == '\U{2029}' }

  /** What `.` in a JavaScript regular expression matches. */
  predicate NotLineTerminator(c: char) { !IsLineTerminator(c) }

  function LowerChar(c: char): char {
    if 'A' <= c <= 'Z' then (c as int + 32) as char else c
  }

  function UpperChar(c: char): char {
    if 'a' <= c <= 'z' then (c as int - 32) as char else c
  }

  /** `toLowerCase()` / `lower()`. */
  function Lower(s: string): (r: string)
    ensures |r| == |s| && forall i :: 0 <= i < |s| ==> r[i] == LowerChar(s[i])
  {
    seq(|s|, i requires 0 <= i < |s| => LowerChar(s[i]))
  }

  /** `toUpperCase()`. */
  function Upper(s: string): (r: string)
    ensures |r| == |s| && forall i :: 0 <= i < |s| ==> r[i] == UpperChar(s[i])
  {
    seq(|s|, i requires 0 <= i < |s| => UpperChar(s[i]))
  }

  lemma LowerConcat(a: string, b: string)
    ensures Lower(a + b) == Lower(a) + Lower(b)
  {
  }

  lemma LowerSlice(s: string, i: nat, j: nat)
    requires i <= j <= |s|
    ensures Lower(s)[i..j] == Lower(s[i..j])
  {
  }

  predicate IsLowerCase(s: string) { forall i :: 0 <= i < |s| ==> LowerChar(s[i]) == s[i] }

  lemma LowerOfLower(s: string)
    requires IsLowerCase(s)
    ensures Lower(s) == s
  {
  }

  predicate IsUpperCase(s: string) { forall i :: 0 <= i < |s| ==> UpperChar(s[i]) == s[i] }

  lemma UpperOfUpper(s: string)
    requires IsUpperCase(s)
    ensures Upper(s) == s
  {
  }

  // ---------------------------------------------------------------- searching

  /** `p` occurs in `s` at index `i`. */
  predicate PrefixAt(s: string, i: nat, p: string) {
    i + |p| <= |s| && s[i..i + |p|] == p
  }

  /** Substring test: JavaScript `includes`, Python `in`, an unanchored literal regex. */
  predicate Contains(s: string, p: string) {
    exists i | 0 <= i <= |s| :: PrefixAt(s, i, p)
  }

  lemma ContainsConcat(a: string, p: string, b: string)
    ensures Contains(a + p + b, p)
  {
    assert PrefixAt(a + p + b, |a|, p);
  }

  /** Some phrase of `ps` occurs in `s`: an unanchored alternation of literals. */
  predicate ContainsAny(s: string, ps: seq<string>) {
    exists k | 0 <= k < |ps| :: Contains(s, ps[k])
  }

  /** Index of the first phrase of `ps` (from `k` on) that occurs in `s`: a
      first-match loop over substring tests. */
  function FirstContainedFrom(s: string, ps: seq<string>, k: nat): (r: Option<nat>)
    requires k <= |ps|
    ensures r.Some? ==> k <= r.value < |ps| && Contains(s, ps[r.value])
    ensures r.Some? ==> forall j :: k <= j < r.value ==> !Contains(s, ps[j])
    ensures r.None? ==> forall j :: k <= j < |ps| ==> !Contains(s, ps[j])
    decreases |ps| - k
  {
    if k == |ps| then None
    else if Contains(s, ps[k]) then Some(k)
    else FirstContainedFrom(s, ps, k + 1)
  }

  function FirstContained(s: string, ps: seq<string>): (r: Option<nat>)
    ensures r.Some? ==> r.value < |ps| && Contains(s, ps[r.value])
    ensures r.Some? ==> forall j :: 0 <= j < r.value ==> !Contains(s, ps[j])
    ensures r.None? <==> !ContainsAny(s, ps)
  {
    FirstContainedFrom(s, ps, 0)
  }

  /** Index of the first group of phrases (from `k` on) one of which occurs in `s`:
      a chain of `any(word in s for word in group)` tests with ordered returns. */
  function FirstGroupFrom(s: string, gs: seq<seq<string>>, k: nat): (r: Option<nat>)
    requires k <= |gs|
    ensures r.Some? ==> k <= r.value < |gs| && ContainsAny(s, gs[r.value])
    ensures r.Some? ==> forall j :: k <= j < r.value ==> !ContainsAny(s, gs[j])
    ensures r.None? ==> forall j :: k <= j < |gs| ==> !ContainsAny(s, gs[j])
    decreases |gs| - k
  {
    if k == |gs| then None
    else if ContainsAny(s, gs[k]) then Some(k)
    else FirstGroupFrom(s, gs, k + 1)
  }

  function FirstGroup(s: string, gs: seq<seq<string>>): (r: Option<nat>)
    ensures r.Some? ==> r.value < |gs| && ContainsAny(s, gs[r.value])
    ensures r.Some? ==> forall j :: 0 <= j < r.value ==> !ContainsAny(s, gs[j])
    ensures r.None? <==> forall j :: 0 <= j < |gs| ==> !ContainsAny(s, gs[j])
  {
    FirstGroupFrom(s, gs, 0)
  }

  /** An occurrence inside an occurrence. */
  lemma PrefixAtWithin(s: string, i: nat, p: string, j: nat, q: string)
    requires PrefixAt(s, i, p) && PrefixAt(p, j, q)
    ensures PrefixAt(s, i + j, q)
  {
    forall k | 0 <= k < |q| ensures s[i + j + k] == q[k] {
      assert s[i + j + k] == s[i..i + |p|][j + k] == p[j + k];
      assert p[j + k] == p[j..j + |q|][k];
    }
    assert s[i + j..i + j + |q|] == q;
  }

  lemma ContainsWidens(s: string, p: string, q: string)
    requires Contains(p, q) && Contains(s, p)
    ensures Contains(s, q)
  {
    var i :| 0 <= i <= |s| && PrefixAt(s, i, p);
    var j :| 0 <= j <= |p| && PrefixAt(p, j, q);
    PrefixAtWithin(s, i, p, j, q);
  }

  /** A phrase does not occur in `s` when one of its characters occurs nowhere in `s`. */
  lemma AbsentChar(s: string, p: string, k: nat)
    requires k < |p| && forall i :: 0 <= i < |s| ==> s[i] != p[k]
    ensures !Contains(s, p)
  {
    forall i | 0 <= i <= |s| ensures !PrefixAt(s, i, p) {
      if i + |p| <= |s| {
        assert s[i..i + |p|][k] == s[i + k];
      }
    }
  }

  /** A phrase does not occur in `s` when two of its adjacent characters never occur
      side by side in `s`. */
  lemma AbsentPair(s: string, p: string, k: nat)
    requires k + 1 < |p| && forall i :: 0 <= i < |s| - 1 ==> !(s[i] == p[k] && s[i + 1] == p[k + 1])
    ensures !Contains(s, p)
  {
    forall i | 0 <= i <= |s| ensures !PrefixAt(s, i, p) {
      if i + |p| <= |s| {
        assert s[i..i + |p|][k] == s[i + k] && s[i..i + |p|][k + 1] == s[i + k + 1];
      }
    }
  }

  /** Python's `<` on strings: lexicographic by code point, a proper prefix first. */
  predicate StrLess(a: string, b: string)
    decreases |a|
  {
    if |a| == 0 then |b| > 0
    else |b| > 0 && (a[0] < b[0] || (a[0] == b[0] && StrLess(a[1..], b[1..])))
  }

  lemma {:induction false} StrLessIrreflexive(a: string)
    ensures !StrLess(a, a)
    decreases |a|
  {
    if |a| > 0 {
      StrLessIrreflexive(a[1..]);
    }
  }

  lemma {:induction false} StrLessTotal(a: string, b: string)
    ensures a == b || StrLess(a, b) || StrLess(b, a)
    decreases |a|
  {
    if |a| > 0 && |b| > 0 && a[0] == b[0] {
      StrLessTotal(a[1..], b[1..]);
      if a[1..] == b[1..] {
        assert a == [a[0]] + a[1..] && b == [b[0]] + b[1..];
      }
    }
  }

  predicate WordCharAt(s: string, i: int) { 0 <= i < |s| && IsWordChar(s[i]) }

  /** `\b` at position `i`: a word character on exactly one side. */
  predicate Boundary(s: string, i: int) { WordCharAt(s, i - 1) != WordCharAt(s, i) }

  /** `\bp\b` matches at `i`. */
  predicate BoundedAt(s: string, i: nat, p: string) {
    PrefixAt(s, i, p) && Boundary(s, i) && Boundary(s, i + |p|)
  }

  /** `/\b(p0|p1|...)\b/.test(s)`: some alternative occurs between word boundaries. */
  predicate HasBounded(s: string, ps: seq<string>) {
    exists k, i | 0 <= k < |ps| && 0 <= i <= |s| :: BoundedAt(s, i, ps[k])
  }

  /** Index of the first alternative of `ps` (from `k` on) that matches at `i`
      between word boundaries: the alternation order of a regular expression. */
  function FirstBoundedAlt(s: string, i: nat, ps: seq<string>, k: nat): (r: Option<nat>)
    requires k <= |ps|
    ensures r.Some? ==> k <= r.value < |ps| && BoundedAt(s, i, ps[r.value])
    ensures r.Some? ==> forall j :: k <= j < r.value ==> !BoundedAt(s, i, ps[j])
    ensures r.None? ==> forall j :: k <= j < |ps| ==> !BoundedAt(s, i, ps[j])
    decreases |ps| - k
  {
    if k == |ps| then None
    else if BoundedAt(s, i, ps[k]) then Some(k)
    else FirstBoundedAlt(s, i, ps, k + 1)
  }

  /** Leftmost position from `i` on where `m` matches, with what it matched: the
      scan of `String.prototype.match` and `re.search` over start positions. */
  function Leftmost<T>(n: nat, m: nat -> Option<T>, i: nat): (r: Option<(nat, T)>)
    ensures r.Some? ==> i <= r.value.0 <= n && m(r.value.0) == Some(r.value.1)
    ensures r.Some? ==> forall j :: i <= j < r.value.0 ==> m(j).None?
    ensures r.None? ==> forall j :: i <= j <= n ==> m(j).None?
    decreases n + 1 - i
  {
    if i > n then None
    else match m(i)
      case Some(v) => Some((i, v))
      case None => Leftmost(n, m, i + 1)
  }

  /** `s.match(/\b(p0|p1|...)\b/)`: leftmost position, then first alternative there;
      yields the index of the alternative. */
  function FirstBounded(s: string, ps: seq<string>): (r: Option<nat>)
    ensures r.Some? ==> r.value < |ps|
    ensures r.Some? ==> exists i :: 0 <= i <= |s| && BoundedAt(s, i, ps[r.value])
    ensures r.Some? <==> HasBounded(s, ps)
  {
    var m := (i: nat) => FirstBoundedAlt(s, i, ps, 0);
    var hit := Leftmost(|s|, m, 0);
    if hit.None? then
      assert forall k, i | 0 <= k < |ps| && 0 <= i <= |s| :: !BoundedAt(s, i, ps[k]) by {
        forall k, i | 0 <= k < |ps| && 0 <= i <= |s| ensures !BoundedAt(s, i, ps[k]) {
          assert m(i).None?;
        }
      }
      None
    else
      assert m(hit.value.0) == Some(hit.value.1);
      assert BoundedAt(s, hit.value.0, ps[hit.value.1]);
      Some(hit.value.1)
  }

  lemma BoundedWitness(s: string, ps: seq<string>, k: nat, i: nat)
    requires k < |ps| && BoundedAt(s, i, ps[k])
    ensures HasBounded(s, ps)
  {
  }

  // ---------------------------------------------------------------- white space

  /** No white space at either end: what `trim()` / `strip()` leave. */
  predicate IsTrimmed(s: string) { |s| == 0 || (!IsSpace(s[0]) && !IsSpace(s[|s| - 1])) }

  function TrimStart(s: string): (r: string)
    ensures |r| <= |s| && r == s[|s| - |r|..]
    ensures |r| > 0 ==> !IsSpace(r[0])
    ensures forall j :: 0 <= j < |s| - |r| ==> IsSpace(s[j])
  {
    if |s| > 0 && IsSpace(s[0]) then TrimStart(s[1..]) else s
  }

  function TrimEnd(s: string): (r: string)
    ensures |r| <= |s| && r == s[..|r|]
    ensures |r| > 0 ==> !IsSpace(r[|r| - 1])
    ensures forall j :: |r| <= j < |s| ==> IsSpace(s[j])
  {
    if |s| > 0 && IsSpace(s[|s| - 1]) then TrimEnd(s[..|s| - 1]) else s
  }

  /** `trim()` / `strip()`. */
  function Trim(s: string): (r: string)
    ensures IsTrimmed(r) && |r| <= |s|
  {
    var a := TrimStart(s);
    var r := TrimEnd(a);
    assert |r| > 0 ==> r[0] == a[0];
    r
  }

  lemma TrimOfTrimmed(s: string)
    requires IsTrimmed(s)
    ensures Trim(s) == s
  {
  }

  /** Every character of `s` is white space. */
  predicate AllSpace(s: string) { forall i :: 0 <= i < |s| ==> IsSpace(s[i]) }

  lemma TrimEmptyIffAllSpace(s: string)
    ensures Trim(s) == [] <==> AllSpace(s)
  {
  }

  // ---------------------------------------------------------------- editing

  /** `s.replace(/c/g, "")`. */
  function RemoveAll(s: string, c: char): (r: string)
    ensures c !in r && |r| <= |s|
  {
    if |s| == 0 then [] else (if s[0] == c then [] else [s[0]]) + RemoveAll(s[1..], c)
  }

  lemma RemoveAllAbsent(s: string, c: char)
    requires c !in s
    ensures RemoveAll(s, c) == s
  {
    if |s| > 0 { RemoveAllAbsent(s[1..], c); }
  }

  /** `parts.join(sep)` / `sep.join(parts)`. */
  function Join(parts: seq<string>, sep: string): string {
    if |parts| == 0 then []
    else if |parts| == 1 then parts[0]
    else parts[0] + sep + Join(parts[1..], sep)
  }

  // ---------------------------------------------------------------- splitting

  /** Length of the longest prefix of `s` whose characters all satisfy `keep`. */
  function RunLength(s: string, keep: char -> bool): (n: nat)
    ensures n <= |s| && (forall j :: 0 <= j < n ==> keep(s[j])) && (n < |s| ==> !keep(s[n]))
  {
    if |s| > 0 && keep(s[0]) then 1 + RunLength(s[1..], keep) else 0
  }

  /** Length of the run of `keep` characters starting at position `p` (none past the end). */
  function RunAt(s: string, p: nat, keep: char -> bool): (n: nat)
    ensures p <= |s| ==> p + n <= |s|
    ensures p > |s| ==> n == 0
    ensures forall j :: p <= j < p + n ==> j < |s| && keep(s[j])
    ensures p + n < |s| ==> !keep(s[p + n])
  {
    if p <= |s| then RunLength(s[p..], keep) else 0
  }

  /** Number of white-space characters at position `p`: what a greedy `\s*` takes. */
  function SpaceRun(s: string, p: nat): (n: nat)
    ensures p <= |s| ==> p + n <= |s|
    ensures forall j :: p <= j < p + n ==> j < |s| && IsSpace(s[j])
    ensures p + n < |s| ==> !IsSpace(s[p + n])
  {
    RunAt(s, p, IsSpace)
  }

  /** The maximal non-empty runs of characters satisfying `keep`, in order: Python's
      `str.split()` (keep = not white space) and JavaScript's
      `split(/[^a-z0-9]+/).filter(Boolean)` (keep = lower-case letter or digit). */
  function Runs(s: string, keep: char -> bool): (r: seq<string>)
    ensures forall k :: 0 <= k < |r| ==> |r[k]| > 0
    ensures forall k, j :: 0 <= k < |r| && 0 <= j < |r[k]| ==> keep(r[k][j])
    decreases |s|
  {
    if |s| == 0 then []
    else if !keep(s[0]) then Runs(s[1..], keep)
    else
      var n := RunLength(s, keep);
      [s[..n]] + Runs(s[n..], keep)
  }

  // ---------------------------------------------------------------- numbers

  function DigitValue(c: char): nat requires IsDigit(c) { c as int - '0' as int }

  function DigitChar(d: nat): (c: char)
    requires d < 10
    ensures IsDigit(c) && DigitValue(c) == d
  {
    ('0' as int + d) as char
  }

  predicate AllDigits(s: string) { forall i :: 0 <= i < |s| ==> IsDigit(s[i]) }

  /** Decimal value of a digit string: `parseInt(s, 10)` / `Number(s)` on digits. */
  function DigitsValue(s: string): nat
    requires AllDigits(s)
  {
    if |s| == 0 then 0 else DigitsValue(s[..|s| - 1]) * 10 + DigitValue(s[|s| - 1])
  }

  /** Decimal rendering of a natural number, as template strings render numbers. */
  function NatToString(n: nat): (r: string)
    ensures |r| > 0 && AllDigits(r)
    ensures DigitsValue(r) == n
    ensures n < 10 ==> |r| == 1
    ensures 10 <= n < 100 ==> |r| == 2
  {
    if n < 10 then [DigitChar(n)]
    else
      var r := NatToString(n / 10) + [DigitChar(n % 10)];
      assert r[..|r| - 1] == NatToString(n / 10);
      r
  }

  /** Decimal rendering of an integer, with a leading `-` when negative. */
  function IntToString(n: int): string {
    if n < 0 then "-" + NatToString(-n) else NatToString(n)
  }

  /** Number of leading decimal digits of `s`. */
  function DigitRun(s: string): (n: nat)
    ensures n <= |s| && AllDigits(s[..n]) && (n < |s| ==> !IsDigit(s[n]))
  {
    RunLength(s, IsDigit)
  }

  lemma DigitRunOf(d: string, rest: string)
    requires AllDigits(d) && (|rest| > 0 ==> !IsDigit(rest[0]))
    ensures DigitRun(d + rest) == |d|
  {
    assert (d + rest)[..|d|] == d;
  }

  import opened Wrappers
}
