/** The Python backend's relationship cueing (`backend/actions/relationship_cueing.py`):
    the cue message for a recognised person, and the choice of the best-matching family
    member. The face distances, the whole-day age of each member's last interaction and
    the family query itself are collaborator inputs. */
module PyRelationshipCueing {
  import opened Wrappers
  import opened Strings
  import opened BackendStore

  /** A `family_members` row as the cue message reads it. */
  datatype Person = Person(id: string, name: Slot, relationship: Slot, notes: Slot)

  const NotYet := "I don't recognize this person yet."
  const NoMatch := "I don't recognize this person. Would you like to add them?"
  const Trouble := "I'm having trouble recognizing faces right now."

  // ---------------------------------------------------------------- cue message

  function NameOf(p: Person): string { PyStr(SlotOr(p.name, "someone")) }

  function RelationshipOf(p: Person): string { PyStr(SlotOr(p.relationship, "a person you know")) }

  function Introduction(p: Person): string {
    "This is " + NameOf(p) + ", your " + RelationshipOf(p) + "."
  }

  /** The recency sentence for a last interaction `days` whole days ago. */
  function SeenClause(name: string, days: int): (r: string)
    ensures days == 0 ==> r == " You saw " + name + " earlier today."
    ensures days == 1 ==> r == " You saw " + name + " yesterday."
    ensures days != 0 && days != 1 && days < 7 ==> r == " You last saw " + name + " " + IntToString(days) + " days ago."
    ensures days >= 7 ==> r == ""
  {
    if days == 0 then " You saw " + name + " earlier today."
    else if days == 1 then " You saw " + name + " yesterday."
    else if days < 7 then " You last saw " + name + " " + IntToString(days) + " days ago."
    else ""
  }

  /** `build_cue_message`. `daysAgo` is `None` when `last_interaction` is falsy or does
      not parse, both of which add no recency sentence. */
  function BuildCueMessage(p: Person, daysAgo: Option<int>): (r: string)
    ensures Introduction(p) <= r
    ensures daysAgo.None? || daysAgo.value >= 7 ==>
      r == Introduction(p) + (if Truthy(SlotValue(p.notes)) then " " + p.notes.s else "")
    ensures daysAgo.Some? ==>
      r == Introduction(p) + SeenClause(NameOf(p), daysAgo.value) + (if Truthy(SlotValue(p.notes)) then " " + p.notes.s else "")
    ensures !Truthy(SlotValue(p.notes)) ==>
      r == Introduction(p) + (if daysAgo.Some? then SeenClause(NameOf(p), daysAgo.value) else "")
  {
    var seen := if daysAgo.Some? then SeenClause(NameOf(p), daysAgo.value) else "";
    var notes := if Truthy(SlotValue(p.notes)) then " " + p.notes.s else "";
    assert Introduction(p) <= Introduction(p) + seen + notes;
    Introduction(p) + seen + notes
  }

  /** Missing name and relationship fall back to "someone" and "a person you know". */
  lemma MissingFieldsUseDefaults(id: string, daysAgo: Option<int>)
    ensures "This is someone, your a person you know." <= BuildCueMessage(Person(id, Missing, Missing, Missing), daysAgo)
  {
    var p := Person(id, Missing, Missing, Missing);
    assert NameOf(p) == "someone" && RelationshipOf(p) == "a person you know";
    assert Introduction(p) == "This is someone, your a person you know.";
  }

  /** The defaults apply only to a missing key: a name stored as `None` is read out. */
  lemma NullNameIsReadOut(id: string)
    ensures BuildCueMessage(Person(id, Null, Str("son"), Null), None) == "This is None, your son."
  {
  }

  /** A last interaction in the future gives a negative age, which passes `days < 7`
      and is read out with its minus sign. */
  lemma FutureVisitIsNegative(p: Person, d: int)
    requires d < 0 && !Truthy(SlotValue(p.notes))
    ensures BuildCueMessage(p, Some(d))
      == Introduction(p) + " You last saw " + NameOf(p) + " -" + NatToString(-d) + " days ago."
  {
    var name := NameOf(p);
    var digits := NatToString(-d);
    assert IntToString(d) == "-" + digits;
    var seen := " You last saw " + name + " " + IntToString(d) + " days ago.";
    assert SeenClause(name, d) == seen;
    assert seen == " You last saw " + name + " -" + digits + " days ago.";
    assert BuildCueMessage(p, Some(d)) == Introduction(p) + seen;
  }

  // ---------------------------------------------------------------- best match

  /** A family row with its face distance (`None`: no stored encoding, so skipped) and
      the age in days of its last interaction. */
  datatype FamilyRow = FamilyRow(person: Person, distance: Option<real>, daysAgo: Option<int>)

  const Threshold: real := 0.6

  predicate Candidate(r: FamilyRow) {
    r.distance.Some? && r.distance.value < Threshold
  }

  /** Row `i` is the closest candidate, and no earlier candidate is as close. */
  predicate IsBest(rows: seq<FamilyRow>, n: nat, i: nat)
    requires n <= |rows|
  {
    i < n && Candidate(rows[i])
    && (forall j :: 0 <= j < i && Candidate(rows[j]) ==> rows[j].distance.value > rows[i].distance.value)
    && (forall j :: i < j < n && Candidate(rows[j]) ==> rows[j].distance.value >= rows[i].distance.value)
  }

  /** The loop's state (`best_match`, `best_distance`) after the first `n` rows. */
  function Scan(rows: seq<FamilyRow>, n: nat): (r: (Option<nat>, real))
    requires n <= |rows|
    ensures r.0.None? ==> r.1 == 1.0 && forall j :: 0 <= j < n ==> !Candidate(rows[j])
    ensures r.0.Some? ==> IsBest(rows, n, r.0.value) && r.1 == rows[r.0.value].distance.value
  {
    if n == 0 then (None, 1.0)
    else
      var prev := Scan(rows, n - 1);
      var d := rows[n - 1].distance;
      if d.Some? && d.value < prev.1 && d.value < Threshold then (Some(n - 1), d.value) else prev
  }

  /** The best match over all rows, if any row is a candidate. */
  function BestMatch(rows: seq<FamilyRow>): (r: Option<nat>)
    ensures r.Some? ==> IsBest(rows, |rows|, r.value)
    ensures r.None? <==> forall j :: 0 <= j < |rows| ==> !Candidate(rows[j])
  {
    Scan(rows, |rows|).0
  }

  /** The interaction `log_interaction` records. */
  function Sighting(patientId: string, p: Person, now: string): InteractionRow {
    InteractionRow(patientId, p.id, now, "face_recognition")
  }

  /** `identify_person` on the tables. `rows` is `None` when the family query raises;
      `logOk` says whether the interaction insert succeeds (its failure is swallowed). */
  function Identified(t: Tables, rows: Option<seq<FamilyRow>>, patientId: string, now: string, logOk: bool)
    : (r: (Option<Person>, string, Tables))
    ensures rows.None? ==> r == (None, Trouble, t)
    ensures rows == Some([]) ==> r == (None, NotYet, t)
    ensures rows.Some? && |rows.value| > 0 && BestMatch(rows.value).None? ==> r == (None, NoMatch, t)
    ensures r.0.Some? ==>
      (rows.Some? && BestMatch(rows.value).Some?
       && var row := rows.value[BestMatch(rows.value).value];
          r.0.value == row.person && r.1 == BuildCueMessage(row.person, row.daysAgo)
          && r.2 == (if logOk then t.(interactions := t.interactions + [Sighting(patientId, row.person, now)]) else t))
    ensures r.0.None? ==> r.2 == t
  {
    if rows.None? then (None, Trouble, t)
    else if |rows.value| == 0 then (None, NotYet, t)
    else match BestMatch(rows.value)
      case None => (None, NoMatch, t)
      case Some(i) =>
        var row := rows.value[i];
        (Some(row.person), BuildCueMessage(row.person, row.daysAgo),
         if logOk then t.(interactions := t.interactions + [Sighting(patientId, row.person, now)]) else t)
  }

  /** `identify_person`: scan for the closest member under the threshold, log the
      sighting and build the cue. */
  method IdentifyPerson(db: Store, rows: Option<seq<FamilyRow>>, patientId: string, now: string, logOk: bool)
    returns (person: Option<Person>, message: string)
    modifies db
    ensures (person, message, db.View()) == Identified(old(db.View()), rows, patientId, now, logOk)
  {
    if rows.None? {
      return None, Trouble;
    }
    var family := rows.value;
    if |family| == 0 {
      return None, NotYet;
    }
    var best: Option<nat> := None;
    var bestDistance: real := 1.0;
    var i := 0;
    while i < |family|
      invariant 0 <= i <= |family|
      invariant (best, bestDistance) == Scan(family, i)
    {
      var d := family[i].distance;
      if d.Some? && d.value < bestDistance && d.value < Threshold {
        best, bestDistance := Some(i), d.value;
      }
      i := i + 1;
    }
    assert best == BestMatch(family);
    if best.None? {
      return None, NoMatch;
    }
    var row := family[best.value];
    if logOk {
      db.interactions := db.interactions + [Sighting(patientId, row.person, now)];
    }
    return Some(row.person), BuildCueMessage(row.person, row.daysAgo);
  }
}
