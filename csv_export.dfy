/** The caregiver activity log's CSV export (`src/components/caregiver/ActivityLog.jsx`):
    field escaping after section 2 (rules 6-7) of RFC 4180, and assembly of the header
    and one line per activity. A field is a JavaScript value: `null`/`undefined`, a
    string, or a number given by its `String(...)` rendering and its truthiness. */
module ActivityExport {
  import opened Strings

  datatype Value = Nullish | Text(s: string) | Number(shown: string, falsy: bool)

  /** `String(v)` for a non-nullish value. */
  function Shown(v: Value): string
    requires !v.Nullish?
  {
    if v.Text? then v.s else v.shown
  }

  /** `v || ""`: every falsy value becomes the empty string. */
  function OrEmpty(v: Value): (r: Value)
    ensures v.Nullish? || v == Text("") || (v.Number? && v.falsy) ==> r == Text("")
    ensures v.Text? || (v.Number? && !v.falsy) ==> r == v
  {
    if v.Nullish? || (v.Number? && v.falsy) then Text("") else v
  }

  /** `/[",\n]/.test(s)`. */
  predicate NeedsQuotes(s: string) {
    exists i :: 0 <= i < |s| && (s[i] == '"' || s[i] == ',' || s[i] == '\n')
  }

  /** `s.replace(/"/g, '""')`. */
  function Double(s: string): (r: string)
    ensures |r| >= |s|
    ensures (forall i :: 0 <= i < |s| ==> s[i] != '"') ==> r == s
  {
    if |s| == 0 then []
    else (if s[0] == '"' then "\"\"" else [s[0]]) + Double(s[1..])
  }

  /** The inverse of `Double`: every `""` collapses to `"`. */
  function Undouble(t: string): string
  {
    if |t| >= 2 && t[0] == '"' && t[1] == '"' then "\"" + Undouble(t[2..])
    else if |t| > 0 then [t[0]] + Undouble(t[1..])
    else []
  }

  lemma {:induction false} UndoubleDouble(s: string)
    ensures Undouble(Double(s)) == s
  {
    if |s| > 0 {
      UndoubleDouble(s[1..]);
      var rest := Double(s[1..]);
      if s[0] == '"' {
        assert Double(s) == "\"\"" + rest;
        assert (Double(s))[2..] == rest;
      } else {
        assert Double(s) == [s[0]] + rest;
        assert (Double(s))[1..] == rest;
      }
      assert s == [s[0]] + s[1..];
    }
  }

  /** The export's `escape`. */
  function Escape(v: Value): string {
    if v.Nullish? then ""
    else
      var s := Shown(v);
      if NeedsQuotes(s) then "\"" + Double(s) + "\"" else s
  }

  /** What `escape` yields: nothing for a nullish value, the string enclosed in quotes
      with its quotes doubled when it holds a quote, comma or newline, and the string
      itself otherwise. */
  lemma EscapeCases(v: Value)
    ensures v.Nullish? ==> Escape(v) == ""
    ensures !v.Nullish? && NeedsQuotes(Shown(v)) ==> Escape(v) == "\"" + Double(Shown(v)) + "\""
    ensures !v.Nullish? && !NeedsQuotes(Shown(v)) ==> Escape(v) == Shown(v)
  {
  }

  /** Reading a field back: strip the enclosing quotes of a quoted field and collapse
      its doubled quotes. */
  function Unescape(e: string): string {
    if |e| >= 2 && e[0] == '"' && e[|e| - 1] == '"' then Undouble(e[1..|e| - 1]) else e
  }

  /** Escaping is reversible: every non-nullish value reads back as its string. */
  lemma {:induction false} EscapeRoundTrip(v: Value)
    requires !v.Nullish?
    ensures Unescape(Escape(v)) == Shown(v)
  {
    var s := Shown(v);
    if NeedsQuotes(s) {
      var e := "\"" + Double(s) + "\"";
      assert e[1..|e| - 1] == Double(s);
      UndoubleDouble(s);
    } else {
      assert |s| > 0 ==> s[0] != '"';
    }
  }

  /** A field with a quote, comma or newline is always enclosed in quotes, so it never
      splits a line. */
  lemma QuotedWhenSpecial(v: Value)
    requires !v.Nullish? && NeedsQuotes(Shown(v))
    ensures var e := Escape(v); |e| >= 2 && e[0] == '"' && e[|e| - 1] == '"'
  {
  }

  /** An activity record with the seven exported fields. */
  datatype Activity = Activity(
    id: Value, time: Value, title: Value, description: Value, kind: Value, icon: Value, confidence: Value)

  /** The header line: the seven column names joined with commas. */
  const Header := "id,time,title,description,type,icon,confidence"

  /** The escaped cells of an activity, in column order; the confidence goes through
      `|| ""` first. */
  function Cells(a: Activity): seq<string> {
    [Escape(a.id), Escape(a.time), Escape(a.title), Escape(a.description), Escape(a.kind), Escape(a.icon),
     Escape(OrEmpty(a.confidence))]
  }

  /** The cells joined with commas. */
  function Line(a: Activity): string {
    var c := Cells(a);
    c[0] + "," + c[1] + "," + c[2] + "," + c[3] + "," + c[4] + "," + c[5] + "," + c[6]
  }

  /** A confidence of 0 is falsy and exports as an empty cell, like a missing one. */
  lemma ZeroConfidenceIsBlank(a: Activity, shown: string)
    requires a.confidence == Number(shown, true)
    ensures Cells(a)[6] == "" && Cells(a)[6] == Cells(a.(confidence := Nullish))[6]
  {
    assert !NeedsQuotes("");
  }

  /** The lines of the export: the header, then one line per activity in order. */
  function Lines(acts: seq<Activity>): (r: seq<string>)
    ensures |r| == |acts| + 1 && r[0] == Header
    ensures forall i :: 0 <= i < |acts| ==> r[i + 1] == Line(acts[i])
  {
    if |acts| == 0 then [Header]
    else Lines(acts[..|acts| - 1]) + [Line(acts[|acts| - 1])]
  }

  /** The export handler's loop: push the header, push one line per activity, and join
      the lines with "\n". */
  method ExportCsv(acts: seq<Activity>) returns (csv: string)
    ensures csv == Join(Lines(acts), "\n")
  {
    var rows := [Header];
    var i := 0;
    while i < |acts|
      invariant 0 <= i <= |acts|
      invariant rows == Lines(acts[..i])
    {
      assert acts[..i + 1][..i] == acts[..i];
      rows := rows + [Line(acts[i])];
      i := i + 1;
    }
    assert acts[..i] == acts;
    csv := Join(rows, "\n");
  }
}
