/** The Python backend's emergency handler (`backend/actions/emergency_handler.py`):
    keyword-tier detection, and raising an alert that is stored and mailed to every
    caregiver. The store insert's success and the caregiver query's result are inputs;
    SMTP failures are swallowed by the source, so every mail is recorded as attempted. */
module PyEmergencyHandler {
  import opened Wrappers
  import opened Strings
  import opened BackendStore

  datatype Severity = Critical | High | Medium

  function SeverityName(s: Severity): (r: string)
    ensures r == "critical" <==> s == Critical
    ensures r == "high" <==> s == High
    ensures r == "medium" <==> s == Medium
  {
    match s
    case Critical => "critical"
    case High => "high"
    case Medium => "medium"
  }

  const CriticalWords: seq<string> :=
    ["help", "emergency", "urgent", "ambulance", "hospital", "pain", "hurt", "fallen", "fall"]
  const HighWords: seq<string> := ["scared", "afraid", "confused", "lost", "dizzy", "cant breathe", "chest"]
  const MediumWords: seq<string> := ["worried", "nervous", "uncomfortable", "unwell", "sick"]

  /** The tiers in the dictionary's insertion order. */
  const TierWords: seq<seq<string>> := [CriticalWords, HighWords, MediumWords]
  const TierSeverities: seq<Severity> := [Critical, High, Medium]

  /** The emotions that count as an emergency on their own. */
  predicate Distressed(emotion: string) {
    emotion == "stressed" || emotion == "distressed"
  }

  /** `detect_emergency`: the first tier with a keyword in the lower-cased transcript;
      failing that, a medium emergency when the emotion is stressed or distressed. */
  function DetectEmergency(transcript: string, emotion: string): (r: (bool, Option<Severity>))
    ensures r.0 <==> r.1.Some?
    ensures ContainsAny(Lower(transcript), CriticalWords) ==> r == (true, Some(Critical))
    ensures !ContainsAny(Lower(transcript), CriticalWords) && ContainsAny(Lower(transcript), HighWords) ==>
      r == (true, Some(High))
    ensures (!ContainsAny(Lower(transcript), CriticalWords) && !ContainsAny(Lower(transcript), HighWords)
             && ContainsAny(Lower(transcript), MediumWords)) ==> r == (true, Some(Medium))
    ensures (!ContainsAny(Lower(transcript), CriticalWords) && !ContainsAny(Lower(transcript), HighWords)
             && !ContainsAny(Lower(transcript), MediumWords)) ==>
      r == if Distressed(emotion) then (true, Some(Medium)) else (false, None)
  {
    assert TierWords[0] == CriticalWords && TierWords[1] == HighWords && TierWords[2] == MediumWords;
    match FirstGroup(Lower(transcript), TierWords)
    case Some(k) => (true, Some(TierSeverities[k]))
    case None => if Distressed(emotion) then (true, Some(Medium)) else (false, None)
  }

  /** A stressed or distressed speaker is always an emergency, whatever they say. */
  lemma DistressAlwaysEmergency(transcript: string, emotion: string)
    requires Distressed(emotion)
    ensures DetectEmergency(transcript, emotion).0
  {
  }

  /** The keyword is "cant breathe": with the apostrophe, a calm "I can't breathe"
      raises nothing. */
  lemma {:induction false} CantBreatheNeedsNoApostrophe()
    ensures DetectEmergency("I can't breathe", "neutral") == (false, None)
  {
    var s := "i can't breathe";
    assert Lower("I can't breathe") == s;
    forall k | 0 <= k < |CriticalWords| ensures !Contains(s, CriticalWords[k]) {
      CriticalNotInCantBreathe(CriticalWords[k]);
    }
    forall k | 0 <= k < |HighWords| ensures !Contains(s, HighWords[k]) {
      HighNotInCantBreathe(HighWords[k]);
    }
    forall k | 0 <= k < |MediumWords| ensures !Contains(s, MediumWords[k]) {
      MediumNotInCantBreathe(MediumWords[k]);
    }
  }

  lemma CriticalNotInCantBreathe(w: string)
    requires w in CriticalWords
    ensures !Contains("i can't breathe", w)
  {
    if w == "help" {
      AbsentChar("i can't breathe", "help", 2);
    } else if w == "emergency" {
      AbsentChar("i can't breathe", "emergency", 1);
    } else if w == "urgent" {
      AbsentChar("i can't breathe", "urgent", 0);
    } else if w == "ambulance" {
      AbsentChar("i can't breathe", "ambulance", 1);
    } else if w == "hospital" {
      AbsentChar("i can't breathe", "hospital", 1);
    } else if w == "pain" {
      AbsentChar("i can't breathe", "pain", 0);
    } else if w == "hurt" {
      AbsentChar("i can't breathe", "hurt", 1);
    } else if w == "fallen" {
      AbsentChar("i can't breathe", "fallen", 0);
    } else if w == "fall" {
      AbsentChar("i can't breathe", "fall", 0);
    }
  }

  lemma HighNotInCantBreathe(w: string)
    requires w in HighWords
    ensures !Contains("i can't breathe", w)
  {
    if w == "scared" {
      AbsentChar("i can't breathe", "scared", 0);
    } else if w == "afraid" {
      AbsentChar("i can't breathe", "afraid", 1);
    } else if w == "confused" {
      AbsentChar("i can't breathe", "confused", 1);
    } else if w == "lost" {
      AbsentChar("i can't breathe", "lost", 0);
    } else if w == "dizzy" {
      AbsentChar("i can't breathe", "dizzy", 0);
    } else if w == "cant breathe" {
      AbsentPair("i can't breathe", "cant breathe", 2);
    } else if w == "chest" {
      AbsentChar("i can't breathe", "chest", 3);
    }
  }

  lemma MediumNotInCantBreathe(w: string)
    requires w in MediumWords
    ensures !Contains("i can't breathe", w)
  {
    if w == "worried" {
      AbsentChar("i can't breathe", "worried", 0);
    } else if w == "nervous" {
      AbsentChar("i can't breathe", "nervous", 3);
    } else if w == "uncomfortable" {
      AbsentChar("i can't breathe", "uncomfortable", 0);
    } else if w == "unwell" {
      AbsentChar("i can't breathe", "unwell", 0);
    } else if w == "sick" {
      AbsentChar("i can't breathe", "sick", 0);
    }
  }

  /** "lost" is a high-severity keyword: "I lost my keys" is a high emergency. */
  lemma LostKeysIsHigh(emotion: string)
    ensures DetectEmergency("I lost my keys", emotion) == (true, Some(High))
  {
    var s := "i lost my keys";
    assert Lower("I lost my keys") == s;
    assert HighWords[3] == "lost" && s[2..6] == "lost";
    assert PrefixAt(s, 2, HighWords[3]);
    forall k | 0 <= k < |CriticalWords| ensures !Contains(s, CriticalWords[k]) {
      NotInLostKeys(CriticalWords[k]);
    }
  }

  lemma NotInLostKeys(w: string)
    requires w in CriticalWords
    ensures !Contains("i lost my keys", w)
  {
    if w == "help" {
      AbsentChar("i lost my keys", "help", 0);
    } else if w == "emergency" {
      AbsentChar("i lost my keys", "emergency", 3);
    } else if w == "urgent" {
      AbsentChar("i lost my keys", "urgent", 0);
    } else if w == "ambulance" {
      AbsentChar("i lost my keys", "ambulance", 0);
    } else if w == "hospital" {
      AbsentChar("i lost my keys", "hospital", 0);
    } else if w == "pain" {
      AbsentChar("i lost my keys", "pain", 0);
    } else if w == "hurt" {
      AbsentChar("i lost my keys", "hurt", 0);
    } else if w == "fallen" {
      AbsentChar("i lost my keys", "fallen", 0);
    } else if w == "fall" {
      AbsentChar("i lost my keys", "fall", 0);
    }
  }

  const AlertSent := "I've notified your caregiver. Help is on the way."
  const AlertFailed := "I'm having trouble sending the alert. Please call for help."

  function AlertSubject(severity: string): string {
    "ALERT: " + Upper(severity) + " - Memory Aid Emergency"
  }

  /** The row `trigger_alert` inserts: active and unresolved. */
  function NewAlert(patientId: string, severity: string, context: string, transcript: Option<string>,
                    now: string): (a: AlertRow)
    ensures a.status == "active" && !a.resolved
    ensures a.patientId == patientId && a.severity == severity && a.context == context
    ensures a.transcript == transcript && a.timestamp == now
  {
    AlertRow(patientId, severity, context, transcript, now, "active", false)
  }

  /** One mail per caregiver, in the order `get_caregivers` returned them. */
  function Mails(caregivers: seq<Caregiver>, alert: AlertRow): (r: seq<Mail>)
    ensures |r| == |caregivers|
    ensures forall i :: 0 <= i < |r| ==>
      r[i].to == caregivers[i].email && r[i].subject == AlertSubject(alert.severity) && r[i].alert == alert
  {
    if |caregivers| == 0 then []
    else Mails(caregivers[..|caregivers| - 1], alert) + [Mail(caregivers[|caregivers| - 1].email, AlertSubject(alert.severity), alert)]
  }

  /** The tables after `trigger_alert`: on success one new alert and one mail per
      caregiver; when the insert raises, nothing changes. */
  function Alerted(t: Tables, patientId: string, severity: string, context: string,
                   transcript: Option<string>, now: string, insertOk: bool, caregivers: seq<Caregiver>): (r: Tables)
    ensures insertOk ==> r.alerts == t.alerts + [NewAlert(patientId, severity, context, transcript, now)]
    ensures insertOk ==> r.outbox == t.outbox + Mails(caregivers, NewAlert(patientId, severity, context, transcript, now))
    ensures !insertOk ==> r == t
    ensures r.reminders == t.reminders && r.interactions == t.interactions
  {
    if insertOk then
      var a := NewAlert(patientId, severity, context, transcript, now);
      t.(alerts := t.alerts + [a], outbox := t.outbox + Mails(caregivers, a))
    else t
  }

  /** `trigger_alert`: insert the alert, then mail each caregiver in turn. */
  method TriggerAlert(db: Store, patientId: string, severity: string, context: string,
                      transcript: Option<string>, now: string, insertOk: bool, caregivers: seq<Caregiver>)
    returns (ok: bool, response: string)
    modifies db
    ensures ok == insertOk && response == (if insertOk then AlertSent else AlertFailed)
    ensures db.View() == Alerted(old(db.View()), patientId, severity, context, transcript, now, insertOk, caregivers)
  {
    if !insertOk {
      return false, AlertFailed;
    }
    var a := NewAlert(patientId, severity, context, transcript, now);
    db.alerts := db.alerts + [a];
    var i := 0;
    while i < |caregivers|
      invariant 0 <= i <= |caregivers|
      invariant db.View() == old(db.View()).(alerts := old(db.alerts) + [a], outbox := old(db.outbox) + Mails(caregivers[..i], a))
    {
      assert caregivers[..i + 1][..i] == caregivers[..i];
      db.outbox := db.outbox + [Mail(caregivers[i].email, AlertSubject(a.severity), a)];
      i := i + 1;
    }
    assert caregivers[..i] == caregivers;
    return true, AlertSent;
  }
}
