/** The Python backend's action router (`backend/actions/action_router.py`): dispatch of
    an intent label to its handler, the canned handler replies, and the extra alert
    raised when the speaker sounds stressed. What the router's collaborators return
    (uuid, clock, store failures, caregivers, the family query, recent interactions) is
    an `Env`; an exception inside a handler is the `Raised` outcome. */
module PyActionRouter {
  import opened Wrappers
  import opened Strings
  import opened BackendStore
  import opened PyEntityExtractor
  import opened PyIntentClassifier
  import opened PyEmergencyHandler
  import opened PyReminderManager
  import opened PyRelationshipCueing

  /** A handler's `(success, response)`, or the exception it raised. */
  datatype Handled = Handled(success: bool, response: string) | Raised

  /** The `family_members` entry of a recent-interaction row: absent, `None`, or a
      joined record whose `name` may itself be missing or `None`. */
  datatype Joined = Absent | NullMember | Member(name: Slot)

  datatype Interaction = Interaction(member: Joined)

  datatype Env = Env(
    reminderId: string, today: string, now: string,
    reminderInsertOk: bool, alertInsertOk: bool, caregivers: seq<Caregiver>,
    family: Option<seq<FamilyRow>>, logOk: bool, recent: seq<Interaction>, remindersReadOk: bool)

  const NeedFace := "I need to see someone's face to identify them. Please look at the person."
  const WhatObject := "What are you looking for?"
  const NothingRecorded := "You haven't had any recorded interactions today yet."
  const SummaryHead := "Here's what happened today. "
  const WellReply := "I'm doing well, thank you for asking. How are you feeling?"
  const WelcomeReply := "You're very welcome!"
  const HelloReply := "Hello! How can I help you today?"
  const GoodbyeReply := "Goodbye! I'll be here if you need me."
  const SmallTalkResponses: seq<string> := [
    "I'm here to help you. What do you need?", "How are you feeling today?",
    "Is there anything I can help you with?", "I'm always here if you need me."]
  const TrainingReply := "Let's practice together. I'll show you some familiar faces and you can tell me who they are."
  const UnknownReply := "I'm not sure I understood that. Could you say it again?"
  const RouteError := "I'm having trouble with that request. Could you try again?"

  /** `action_map.get(intent)`: the intent whose label is `intent`, if any. */
  function ParseIntent(intent: string): (r: Option<PyIntent>)
    ensures r.Some? ==> Label(r.value) == intent
    ensures r.None? ==> forall i: PyIntent :: Label(i) != intent
  {
    if intent == "set_reminder" then Some(SetReminder)
    else if intent == "who_is_this" then Some(WhoIsThis)
    else if intent == "emergency_alert" then Some(EmergencyAlert)
    else if intent == "where_is_object" then Some(WhereIsObject)
    else if intent == "daily_summary" then Some(DailySummary)
    else if intent == "small_talk" then Some(SmallTalk)
    else if intent == "memory_training" then Some(MemoryTraining)
    else None
  }

  /** Every intent's label names that intent again: the action map covers each
      label the classifier can give. */
  lemma ParseLabel(i: PyIntent)
    ensures ParseIntent(Label(i)) == Some(i)
  {
    var r := ParseIntent(Label(i));
    if r.None? || r.value != i {
      if r.Some? { LabelsDistinct(r.value, i); }
    }
  }

  // ---------------------------------------------------------------- canned handlers

  /** `_handle_object_location`. */
  function ObjectReply(item: Slot): (r: Handled)
    ensures !Truthy(SlotValue(item)) ==> r == Handled(false, WhatObject)
    ensures Truthy(SlotValue(item)) ==>
      r.Handled? && r.success && Contains(r.response, item.s)
  {
    if !Truthy(SlotValue(item)) then Handled(false, WhatObject)
    else
      var msg := "Let me help you find your " + item.s + ". Check the usual places like the table or your room.";
      ContainsConcat("Let me help you find your ", item.s, ". Check the usual places like the table or your room.");
      Handled(true, msg)
  }

  const SmallTalkWords: seq<string> := ["how are you", "thank", "hello", "hi", "goodbye", "bye"]

  /** `_handle_small_talk`: the first phrase group found in the lower-cased text picks
      the reply; a `None` text raises on `.lower()`. */
  function SmallTalkReply(rawText: Slot): (r: Handled)
    ensures rawText.Null? <==> r.Raised?
    ensures r.Handled? ==> r.success
    ensures r.Handled? && Contains(Lower(SlotOr(rawText, "").value), "how are you") ==> r.response == WellReply
    ensures r.Handled? && !Contains(Lower(SlotOr(rawText, "").value), "how are you")
      && Contains(Lower(SlotOr(rawText, "").value), "thank")
      ==> r.response == WelcomeReply
    ensures r.Handled? && !Contains(Lower(SlotOr(rawText, "").value), "how are you")
      && !Contains(Lower(SlotOr(rawText, "").value), "thank")
      && (Contains(Lower(SlotOr(rawText, "").value), "hello") || Contains(Lower(SlotOr(rawText, "").value), "hi"))
      ==> r.response == HelloReply
    ensures r.Handled? && !Contains(Lower(SlotOr(rawText, "").value), "how are you")
      && !Contains(Lower(SlotOr(rawText, "").value), "thank")
      && !Contains(Lower(SlotOr(rawText, "").value), "hello") && !Contains(Lower(SlotOr(rawText, "").value), "hi")
      && (Contains(Lower(SlotOr(rawText, "").value), "goodbye") || Contains(Lower(SlotOr(rawText, "").value), "bye"))
      ==> r.response == GoodbyeReply
    ensures r.Handled? && !ContainsAny(Lower(SlotOr(rawText, "").value), SmallTalkWords) ==>
      r.response == SmallTalkResponses[0]
  {
    match SlotOr(rawText, "")
    case None => Raised
    case Some(raw) =>
      var text := Lower(raw);
      if Contains(text, "how are you") then
        assert Contains(text, SmallTalkWords[0]);
        Handled(true, WellReply)
      else if Contains(text, "thank") then
        assert Contains(text, SmallTalkWords[1]);
        Handled(true, WelcomeReply)
      else if Contains(text, "hello") || Contains(text, "hi") then
        assert Contains(text, SmallTalkWords[2]) || Contains(text, SmallTalkWords[3]);
        Handled(true, HelloReply)
      else if Contains(text, "goodbye") || Contains(text, "bye") then
        assert Contains(text, SmallTalkWords[4]) || Contains(text, SmallTalkWords[5]);
        Handled(true, GoodbyeReply)
      else Handled(true, SmallTalkResponses[0])
  }

  /** "hi" is a substring test, so any text containing "hi" ("this", "which") is a greeting. */
  lemma ThisIsAGreeting()
    ensures SmallTalkReply(Str("Is this it")) == Handled(true, HelloReply)
  {
    var text := "is this it";
    assert Lower("Is this it") == text;
    assert text[4..6] == "hi";
    assert PrefixAt(text, 4, "hi");
    AbsentChar(text, "how are you", 1);
    AbsentChar(text, "thank", 2);
  }

  // ---------------------------------------------------------------- daily summary

  predicate Unreadable(j: Joined) {
    j.NullMember? || (j.Member? && j.name.Missing?)
  }

  /** "You saw {name}. " for each interaction with a joined family member; `None` when
      a joined entry cannot be read. */
  function Sightings(rs: seq<Interaction>): (r: Option<string>)
    ensures r.None? <==> exists i :: 0 <= i < |rs| && Unreadable(rs[i].member)
    ensures (forall i :: 0 <= i < |rs| ==> rs[i].member.Absent?) ==> r == Some("")
  {
    if |rs| == 0 then Some("")
    else
      var last := rs[|rs| - 1];
      match Sightings(rs[..|rs| - 1])
      case None => None
      case Some(prev) =>
        match last.member
        case Absent => Some(prev)
        case NullMember => None
        case Member(name) => if name.Missing? then None else Some(prev + "You saw " + PyStr(SlotValue(name)) + ". ")
  }

  function FirstThree(rs: seq<Interaction>): (r: seq<Interaction>)
    ensures |r| <= 3 && r <= rs && (|rs| >= 3 ==> |r| == 3)
  {
    if |rs| <= 3 then rs else rs[..3]
  }

  /** The number of reminders marked completed. */
  function CountCompleted(reminders: seq<ReminderRow>): (n: nat)
    ensures n <= |reminders|
    ensures n == 0 <==> forall i :: 0 <= i < |reminders| ==> !reminders[i].completed
  {
    var done := Select(reminders, (x: ReminderRow) => x.completed);
    assert forall i :: 0 <= i < |reminders| && reminders[i].completed ==> reminders[i] in done;
    assert |done| > 0 ==> done[0] in done && done[0].completed;
    |done|
  }

  /** "You met with N people. ", said only when there were interactions. */
  function MetClause(n: nat): string {
    if n > 0 then "You met with " + NatToString(n) + " people. " else ""
  }

  /** "You completed N reminders. ", said only when some reminder was completed. */
  function DoneClause(n: nat): string {
    if n > 0 then "You completed " + NatToString(n) + " reminders. " else ""
  }

  /** The summary: the head, then the people met, the sightings and the completed
      reminders, each clause possibly empty. */
  function SummaryText(met: string, seen: string, done: string): (r: string)
    ensures SummaryHead <= r
  {
    SummaryHead + met + seen + done
  }

  /** `_handle_daily_summary` over the recent interactions and the active reminders. */
  function SummaryReply(recent: seq<Interaction>, reminders: seq<ReminderRow>): (r: Handled)
    ensures |recent| == 0 && |reminders| == 0 ==> r == Handled(true, NothingRecorded)
    ensures r.Raised? <==> exists i :: 0 <= i < |recent| && i < 3 && Unreadable(recent[i].member)
    ensures r.Handled? ==> r.success
    ensures r.Handled? && (|recent| > 0 || |reminders| > 0) ==> SummaryHead <= r.response
    ensures r.Handled? && (|recent| > 0 || |reminders| > 0) ==>
      r.response == SummaryText(MetClause(|recent|), Sightings(FirstThree(recent)).value,
                                DoneClause(CountCompleted(reminders)))
  {
    SummaryOf(|recent|, FirstThree(recent), reminders)
  }

  /** The summary from what it depends on: the number of interactions, the first three
      of them and the reminders. */
  function SummaryOf(met: nat, first: seq<Interaction>, reminders: seq<ReminderRow>): Handled {
    if met == 0 && |reminders| == 0 then Handled(true, NothingRecorded)
    else
      match Sightings(first)
      case None => Raised
      case Some(seen) => Handled(true, SummaryText(MetClause(met), seen, DoneClause(CountCompleted(reminders))))
  }

  /** The reminders enter the summary only through whether there are any and how many
      of them are completed: which ones, and the pending ones, make no difference. */
  lemma SummaryCountsOnlyCompleted(recent: seq<Interaction>, a: seq<ReminderRow>, b: seq<ReminderRow>)
    requires (|a| == 0 <==> |b| == 0) && CountCompleted(a) == CountCompleted(b)
    ensures SummaryReply(recent, a) == SummaryReply(recent, b)
  {
  }

  /** With at least one completed reminder the summary ends with their count. */
  lemma {:induction false} SummaryEndsWithCount(recent: seq<Interaction>, reminders: seq<ReminderRow>, i: nat)
    requires i < |reminders| && reminders[i].completed
    requires SummaryReply(recent, reminders).Handled?
    ensures var msg := SummaryReply(recent, reminders).response;
      var clause := "You completed " + NatToString(CountCompleted(reminders)) + " reminders. ";
      |clause| <= |msg| && msg[|msg| - |clause|..] == clause
  {
    var n := CountCompleted(reminders);
    assert n > 0;
    var clause := "You completed " + NatToString(n) + " reminders. ";
    var msg := SummaryReply(recent, reminders).response;
    var front := SummaryHead + MetClause(|recent|) + Sightings(FirstThree(recent)).value;
    assert msg == front + clause;
  }

  /** Only the first three interactions are named: what follows them changes nothing
      but the count. */
  lemma SummaryNamesAtMostThree(a: seq<Interaction>, b: seq<Interaction>, reminders: seq<ReminderRow>)
    requires |a| == |b| && |a| >= 3 && a[..3] == b[..3]
    ensures SummaryReply(a, reminders) == SummaryReply(b, reminders)
  {
    assert FirstThree(a) == a[..3] && FirstThree(b) == b[..3];
    assert SummaryReply(a, reminders) == SummaryOf(|a|, a[..3], reminders);
    assert SummaryReply(b, reminders) == SummaryOf(|b|, b[..3], reminders);
  }

  /** An active reminder that is not yet done makes the summary non-empty but adds no
      sentence to it. */
  lemma PendingReminderGivesBareSummary(x: ReminderRow)
    requires !x.completed
    ensures SummaryReply([], [x]) == Handled(true, SummaryHead)
  {
    assert Select([x], (y: ReminderRow) => y.completed) == [];
  }

  /** One more interaction extends the sighting sentences of the ones before it. */
  lemma SightingsStep(rs: seq<Interaction>, i: nat)
    requires i < |rs| && Sightings(rs[..i]).Some?
    ensures Sightings(rs[..i + 1]) ==
      match rs[i].member
      case Absent => Sightings(rs[..i])
      case NullMember => None
      case Member(name) =>
        if name.Missing? then None else Some(Sightings(rs[..i]).value + "You saw " + PyStr(SlotValue(name)) + ". ")
  {
    var q := rs[..i + 1];
    assert q[..|q| - 1] == rs[..i];
    assert q[|q| - 1] == rs[i];
  }

  /** The sighting sentences of the first three interactions, in a loop. */
  method SightingsOf(recent: seq<Interaction>) returns (r: Option<string>)
    ensures r == Sightings(FirstThree(recent))
  {
    var first := FirstThree(recent);
    var seen := "";
    var i := 0;
    while i < |first|
      invariant 0 <= i <= |first|
      invariant Sightings(first[..i]) == Some(seen)
    {
      SightingsStep(first, i);
      match first[i].member {
        case Absent =>
        case NullMember =>
          assert Unreadable(first[i].member);
          return None;
        case Member(name) =>
          if name.Missing? {
            assert Unreadable(first[i].member);
            return None;
          }
          seen := seen + "You saw " + PyStr(SlotValue(name)) + ". ";
      }
      i := i + 1;
    }
    assert first[..i] == first;
    return Some(seen);
  }

  method DailySummaryOf(recent: seq<Interaction>, reminders: seq<ReminderRow>) returns (h: Handled)
    ensures h == SummaryReply(recent, reminders)
  {
    if |recent| == 0 && |reminders| == 0 {
      return Handled(true, NothingRecorded);
    }
    var met := "";
    if |recent| > 0 {
      met := "You met with " + NatToString(|recent|) + " people. ";
    }
    var seen := SightingsOf(recent);
    if seen.None? {
      return Raised;
    }
    var done := CountCompleted(reminders);
    var completed := "";
    if done > 0 {
      completed := "You completed " + NatToString(done) + " reminders. ";
    }
    assert met == MetClause(|recent|) && completed == DoneClause(done);
    return Handled(true, SummaryText(met, seen.value, completed));
  }

  // ---------------------------------------------------------------- dispatch

  /** The handler for `intent` (none: `_handle_unknown`), on the tables. */
  function Handle(t: Tables, intent: Option<PyIntent>, entities: EntityDict, patientId: string, face: bool,
                  env: Env): (r: (Handled, Tables))
    ensures intent.None? ==> r == (Handled(false, UnknownReply), t)
    ensures r.0.Raised? ==> intent == Some(DailySummary) || intent == Some(SmallTalk)
    ensures intent != Some(SetReminder) && intent != Some(WhoIsThis) && intent != Some(EmergencyAlert) ==> r.1 == t
  {
    match intent
    case None => (Handled(false, UnknownReply), t)
    case Some(SetReminder) =>
      var c := Created(t, entities, patientId, env.reminderId, env.today, env.now, env.reminderInsertOk);
      (Handled(c.0.Some?, c.1), c.2)
    case Some(WhoIsThis) =>
      if !face then (Handled(false, NeedFace), t)
      else
        var id := Identified(t, env.family, patientId, env.now, env.logOk);
        (Handled(id.0.Some?, id.1), id.2)
    case Some(EmergencyAlert) =>
      var transcript := SlotValue(entities.rawText);
      (Handled(env.alertInsertOk, if env.alertInsertOk then AlertSent else AlertFailed),
       Alerted(t, patientId, "critical", "User-initiated emergency alert", transcript, env.now, env.alertInsertOk, env.caregivers))
    case Some(WhereIsObject) => (ObjectReply(entities.item), t)
    case Some(DailySummary) => (SummaryReply(env.recent, GetReminders(t, patientId, None, env.remindersReadOk)), t)
    case Some(SmallTalk) => (SmallTalkReply(entities.rawText), t)
    case Some(MemoryTraining) => (Handled(true, TrainingReply), t)
  }

  function StressContext(emotion: string, intent: string): string {
    "Detected " + emotion + " emotion during " + intent
  }

  /** `route_action`: run the handler; then, for a stressed or distressed speaker, raise
      a second alert unless the intent was already an emergency. The result is
      `(success, response, action_taken)` and the tables afterwards. */
  function Route(t: Tables, intent: string, entities: EntityDict, emotion: string, patientId: string, face: bool,
                 env: Env): (r: (bool, string, string, Tables))
    ensures r.2 == "error" || r.2 == intent
    ensures r.2 == "error" && intent != "error" ==> !r.0 && r.1 == RouteError
    ensures !Distressed(emotion) ==>
      var h := Handle(t, ParseIntent(intent), entities, patientId, face, env);
      r.3 == h.1 && (h.0.Handled? ==> r == (h.0.success, h.0.response, intent, h.1))
    ensures ParseIntent(intent).None? && !Distressed(emotion) ==> r == (false, UnknownReply, intent, t)
    ensures var h := Handle(t, ParseIntent(intent), entities, patientId, face, env);
      h.0.Raised? ==> r == (false, RouteError, "error", h.1)
    ensures var h := Handle(t, ParseIntent(intent), entities, patientId, face, env);
      h.0.Handled? && Distressed(emotion) && entities.rawText.Null? ==> r == (false, RouteError, "error", h.1)
    ensures var h := Handle(t, ParseIntent(intent), entities, patientId, face, env);
      h.0.Handled? && Distressed(emotion) && !entities.rawText.Null? ==>
        var raw := SlotOr(entities.rawText, "").value;
        var d := DetectEmergency(raw, emotion);
        r.0 == h.0.success && r.1 == h.0.response && r.2 == intent
        && r.3 == (if d.0 && intent != "emergency_alert"
                   then Alerted(h.1, patientId, SeverityName(d.1.value), StressContext(emotion, intent),
                                SlotValue(entities.rawText), env.now, env.alertInsertOk, env.caregivers)
                   else h.1)
  {
    var h := Handle(t, ParseIntent(intent), entities, patientId, face, env);
    if h.0.Raised? then (false, RouteError, "error", h.1)
    else if !Distressed(emotion) then (h.0.success, h.0.response, intent, h.1)
    else match SlotOr(entities.rawText, "")
      case None => (false, RouteError, "error", h.1)
      case Some(raw) =>
        var d := DetectEmergency(raw, emotion);
        if d.0 && intent != "emergency_alert" then
          (h.0.success, h.0.response, intent,
           Alerted(h.1, patientId, SeverityName(d.1.value), StressContext(emotion, intent), SlotValue(entities.rawText),
                   env.now, env.alertInsertOk, env.caregivers))
        else (h.0.success, h.0.response, intent, h.1)
  }

  /** A stressed speaker always gets one extra alert, at the severity their words carry,
      whatever the intent, unless it was an emergency already. */
  lemma StressAddsOneAlert(t: Tables, intent: string, entities: EntityDict, emotion: string, patientId: string,
                           face: bool, env: Env)
    requires Distressed(emotion) && intent != "emergency_alert" && entities.rawText.Str? && env.alertInsertOk
    requires Handle(t, ParseIntent(intent), entities, patientId, face, env).0.Handled?
    ensures var before := Handle(t, ParseIntent(intent), entities, patientId, face, env).1;
      var sev := DetectEmergency(entities.rawText.s, emotion).1;
      sev.Some? && Route(t, intent, entities, emotion, patientId, face, env).3.alerts
        == before.alerts + [NewAlert(patientId, SeverityName(sev.value), StressContext(emotion, intent),
                                     Some(entities.rawText.s), env.now)]
  {
    DistressAlwaysEmergency(entities.rawText.s, emotion);
  }

  /** An emergency intent raises exactly one (critical) alert, however the speaker sounds. */
  lemma EmergencyAlertsOnce(t: Tables, entities: EntityDict, emotion: string, patientId: string, face: bool, env: Env)
    requires env.alertInsertOk
    ensures Route(t, "emergency_alert", entities, emotion, patientId, face, env).3.alerts
      == t.alerts + [NewAlert(patientId, "critical", "User-initiated emergency alert", SlotValue(entities.rawText), env.now)]
  {
  }

  /** "I lost my keys", said in a stressed voice, is classified as an object query, yet
      raises a high-severity alert. */
  lemma LostKeysUnderStress(t: Tables, patientId: string, face: bool, env: Env)
    requires env.alertInsertOk
    ensures var e := EntityDict(Null, Null, Str("I lost my keys"), Null, Str("I lost my keys"));
      Route(t, "where_is_object", e, "stressed", patientId, face, env).3.alerts
        == t.alerts + [NewAlert(patientId, "high", StressContext("stressed", "where_is_object"), Some("I lost my keys"), env.now)]
  {
    LostKeysIsHigh("stressed");
  }

  method HandleIntent(db: Store, intent: Option<PyIntent>, entities: EntityDict, patientId: string, face: bool,
                      env: Env) returns (h: Handled)
    modifies db
    ensures (h, db.View()) == Handle(old(db.View()), intent, entities, patientId, face, env)
  {
    match intent {
      case None =>
        h := Handled(false, UnknownReply);
      case Some(SetReminder) =>
        var row, msg := CreateReminder(db, entities, patientId, env.reminderId, env.today, env.now, env.reminderInsertOk);
        h := Handled(row.Some?, msg);
      case Some(WhoIsThis) =>
        if !face {
          h := Handled(false, NeedFace);
        } else {
          var person, msg := IdentifyPerson(db, env.family, patientId, env.now, env.logOk);
          h := Handled(person.Some?, msg);
        }
      case Some(EmergencyAlert) =>
        var ok, msg := TriggerAlert(db, patientId, "critical", "User-initiated emergency alert",
                                    SlotValue(entities.rawText), env.now, env.alertInsertOk, env.caregivers);
        h := Handled(ok, msg);
      case Some(WhereIsObject) =>
        h := ObjectReply(entities.item);
      case Some(DailySummary) =>
        h := DailySummaryOf(env.recent, GetReminders(db.View(), patientId, None, env.remindersReadOk));
      case Some(SmallTalk) =>
        h := SmallTalkReply(entities.rawText);
      case Some(MemoryTraining) =>
        h := Handled(true, TrainingReply);
    }
  }

  method RouteAction(db: Store, intent: string, entities: EntityDict, emotion: string, patientId: string,
                     face: bool, env: Env) returns (success: bool, response: string, action: string)
    modifies db
    ensures (success, response, action, db.View()) == Route(old(db.View()), intent, entities, emotion, patientId, face, env)
  {
    var h := HandleIntent(db, ParseIntent(intent), entities, patientId, face, env);
    if h.Raised? {
      return false, RouteError, "error";
    }
    if Distressed(emotion) {
      var raw := SlotOr(entities.rawText, "");
      if raw.None? {
        return false, RouteError, "error";
      }
      var d := DetectEmergency(raw.value, emotion);
      if d.0 && intent != "emergency_alert" {
        var _, _ := TriggerAlert(db, patientId, SeverityName(d.1.value), StressContext(emotion, intent),
                                 SlotValue(entities.rawText), env.now, env.alertInsertOk, env.caregivers);
      }
    }
    return h.success, h.response, intent;
  }
}
