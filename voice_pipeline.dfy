/** The `/api/voice/pipeline` branch of the fake server: the utterance is analysed
    (emotion, entities, intent), a pending reminder may take a frequency follow-up,
    and otherwise the intent is acted on against the store. Like every request it
    starts by regenerating the schedule; the nested requests it makes (completion,
    family email) regenerate it again. Clock readings arrive as a `Clock` value. */
module VoicePipeline {
  import opened Wrappers
  import opened Strings
  import TimeNormalizer
  import Emotion
  import Intents
  import Entities
  import opened FakeServer

  /** The clock readings the branch uses: `toLocaleString()`, the two-digit
      hour and minute reading and `toLocaleDateString()`. */
  datatype Clock = Clock(stamp: string, hourMinute: string, date: string)

  /** A recognised member as the client shows it. */
  datatype Identity = Identity(name: string, relation: string, imageUrl: string)

  datatype Reply = Reply(
    transcript: string, emotion: string, emotionConfidence: real,
    intent: Intents.Intent, entities: Entities.Entities,
    response: string, uiAction: Option<string>, created: Option<Reminder>,
    identities: seq<Identity>)

  // ------------------------------------------------------------- spoken replies

  const HelpReply := "How can I help?"
  const BreathReply := "I'm here with you right now. Let's take a deep breath together."
  const CallFamilyReply := "I'm here with you right now. Would you like to call your family?"
  const UpsetReply := "I detected you sounded upset. I've notified your caregiver so they can check in."
  const EmergencyReply := "I have notified your caregiver and initiated emergency protocol."
  const FamilyReply := "I have emailed your family."
  const WhichReminder := "Which reminder should I mark complete?"
  const PhotosReply := "Opening photos."
  const GameReply := "Starting brain game."
  const UpcomingReply := "Showing your upcoming schedule."
  const UnknownPart := "Sorry I do not know this person"
  const LeftToRight := "Starting from the left this is "
  const RepeatReply := "Okay \U{2014} I'll repeat that "
  const ClockReply := "It's currently "

  /** The alert and caregiver email of an anger escalation; the transcript follows the
      note and the body. */
  const AngerTitle := "Anger/Frustration detected"
  const AngerNote := "Voice emotion analyzer detected anger: "
  const AgitationSubject := "Caregiver Alert: Agitation detected"
  const AgitationBody := "The system detected signs of anger/frustration in the user's voice: "

  /** The alert and caregiver email of `emergency_alert`. */
  const EmergencyTitle := "Emergency Phrase Detected"
  const EmergencyNote := "User requested immediate help"
  const EmergencySubject := "Emergency Alert"
  const EmergencyBody := "Emergency phrase detected by system."

  /** The family email of `family_alert`. */
  const FamilySubject := "Family Alert"
  const FamilyBody := "The patient requested to alert the family."

  // ------------------------------------------------------------------ analysis

  /** `(body.transcript || "").trim()`. */
  function TranscriptOf(raw: Option<string>): (t: string)
    ensures IsTrimmed(t)
    ensures !Truthy(raw) ==> t == ""
  {
    Trim(OrElse(raw, ""))
  }

  /** The supplied voice emotion wins whenever it is given; otherwise the text
      estimate's label is used. */
  function FusedEmotion(voice: Option<string>, predicted: Emotion.Estimate): (r: string)
    ensures Truthy(voice) ==> r == voice.value
    ensures !Truthy(voice) ==> r == Emotion.Label(predicted.emotion)
  {
    OrElse(voice, Emotion.Label(predicted.emotion))
  }

  /** A positive supplied confidence wins; otherwise the text estimate's. */
  function FusedConfidence(supplied: real, predicted: Emotion.Estimate): (r: real)
    ensures supplied > 0.0 ==> r == supplied
    ensures supplied <= 0.0 ==> r == predicted.confidence
  {
    if supplied > 0.0 then supplied else predicted.confidence
  }

  /** With a supplied confidence of at most 1 the fused confidence lies in [0, 1],
      and without one it is the text estimate's, which is at least 0.35. */
  lemma FusedConfidenceBounds(text: string, supplied: real)
    requires supplied <= 1.0
    ensures 0.0 <= FusedConfidence(supplied, Emotion.EstimateOf(text)) <= 1.0
    ensures supplied <= 0.0 ==> FusedConfidence(supplied, Emotion.EstimateOf(text)) >= 0.35
  {
  }

  // ------------------------------------------------------ frequency follow-up

  /** `\b(daily|weekly|one[- ]time|one time|only today|only for today)\b`. */
  const FollowUpWords: seq<string> := ["daily", "weekly", "one-time", "one time", "only today", "only for today"]

  /** The frequency a follow-up asks for: the leftmost follow-up word decides;
      daily and weekly name themselves, the others mean one-time. */
  function FollowUpFrequency(t: string): (r: Option<string>)
    ensures r.Some? <==> HasBounded(Lower(t), FollowUpWords)
    ensures r.Some? ==> r.value == "Daily" || r.value == "Weekly" || r.value == "One-time"
  {
    match FirstBounded(Lower(t), FollowUpWords)
    case None => None
    case Some(k) => Some(if k == 0 then "Daily" else if k == 1 then "Weekly" else "One-time")
  }

  /** The store after the follow-up: the pending reminder (at `idx`) and the first
      schedule entry with its id or title take the new frequency, and the pending
      slot is emptied. Nothing else changes. */
  function WithFrequency(st: Store, idx: nat, freq: string): (r: Store)
    requires idx < |st.reminders|
    ensures r == st.(reminders := r.reminders, scheduleToday := r.scheduleToday, pendingReminder := None)
    ensures |r.reminders| == |st.reminders|
    ensures r.reminders[idx] == st.reminders[idx].(frequency := freq)
    ensures forall i :: 0 <= i < |st.reminders| && i != idx ==> r.reminders[i] == st.reminders[i]
    ensures |r.scheduleToday| == |st.scheduleToday|
    ensures forall i :: 0 <= i < |st.scheduleToday| ==>
      r.scheduleToday[i] == st.scheduleToday[i]
      || (r.scheduleToday[i] == st.scheduleToday[i].(frequency := freq)
          && Some(i) == FindIndex(st.scheduleToday, ForReminder(st.reminders[idx])))
    ensures var j := FindIndex(st.scheduleToday, ForReminder(st.reminders[idx]));
      j.Some? ==> r.scheduleToday[j.value] == st.scheduleToday[j.value].(frequency := freq)
  {
    var s := FindIndex(st.scheduleToday, ForReminder(st.reminders[idx]));
    st.(reminders := st.reminders[idx := st.reminders[idx].(frequency := freq)],
        scheduleToday := if s.Some? then st.scheduleToday[s.value := st.scheduleToday[s.value].(frequency := freq)]
                         else st.scheduleToday,
        pendingReminder := None)
  }

  /** The store every request starts from. */
  function Regenerated(st: Store): Store
  {
    st.(scheduleToday := ScheduleOf(st.reminders))
  }

  /** Where the follow-up applies: a follow-up word, a pending reminder, and that
      reminder still in the store. */
  function FollowUpTarget(st: Store, t: string): (r: Option<nat>)
    ensures r.Some? ==> r.value < |st.reminders| && FollowUpFrequency(t).Some? && st.pendingReminder.Some?
                        && st.reminders[r.value].id == st.pendingReminder.value
    ensures r.None? && FollowUpFrequency(t).Some? && st.pendingReminder.Some? ==>
      forall i :: 0 <= i < |st.reminders| ==> st.reminders[i].id != st.pendingReminder.value
  {
    if FollowUpFrequency(t).Some? && st.pendingReminder.Some? then FindIndex(st.reminders, HasId(st.pendingReminder.value))
    else None
  }

  // ------------------------------------------------------------- set_reminder

  /** `\b(am|a\.m\.|in the morning|morning)\b`. */
  const MorningWords: seq<string> := ["am", "a.m.", "in the morning", "morning"]

  /** `\b(pm|p\.m\.|in the evening|night|tonight|sleep)\b`. */
  const EveningWords: seq<string> := ["pm", "p.m.", "in the evening", "night", "tonight", "sleep"]

  /** The time of a reminder whose utterance named none. */
  function DefaultTime(t: string): (r: string)
    ensures r == "10:00 AM" <==> HasBounded(Lower(t), MorningWords)
    ensures r == "10:00 PM" <==> !HasBounded(Lower(t), MorningWords) && HasBounded(Lower(t), EveningWords)
    ensures r == "6:00 PM" <==> !HasBounded(Lower(t), MorningWords) && !HasBounded(Lower(t), EveningWords)
  {
    if HasBounded(Lower(t), MorningWords) then "10:00 AM"
    else if HasBounded(Lower(t), EveningWords) then "10:00 PM"
    else "6:00 PM"
  }

  lemma DefaultsAreClocks()
    ensures TimeNormalizer.IsClockString("10:00 AM")
    ensures TimeNormalizer.IsClockString("10:00 PM")
    ensures TimeNormalizer.IsClockString("6:00 PM")
  {
    DigitRunOf("10", ":00 AM");
    DigitRunOf("10", ":00 PM");
    DigitRunOf("6", ":00 PM");
  }

  /** The time a voice-created reminder gets: the extracted time, else the default. */
  function ReminderTime(e: Entities.Entities, t: string): (r: string)
    ensures Truthy(e.time) ==> r == e.time.value
    ensures !Truthy(e.time) ==> r == DefaultTime(t)
  {
    if Truthy(e.time) then e.time.value else DefaultTime(t)
  }

  lemma ClockHasMeridiem(o: string)
    requires TimeNormalizer.IsClockString(o)
    ensures HasMeridiem(o)
  {
    var k := DigitRun(o);
    if o[k + 4..] == "AM" { assert PrefixAt(o, k + 4, "AM"); } else { assert PrefixAt(o, k + 4, "PM"); }
  }

  /** A voice-created reminder always gets a well-formed clock time, so its mirrored
      schedule entry shows that same time. */
  lemma CreatedTimeIsClock(t: string)
    ensures TimeNormalizer.IsClockString(ReminderTime(Entities.EntitiesOf(t), t))
    ensures MirrorTime(ReminderTime(Entities.EntitiesOf(t), t)) == Some(ReminderTime(Entities.EntitiesOf(t), t))
  {
    ReminderTimeIsClock(Entities.EntitiesOf(t), t);
  }

  /** With a clock-string time or none, the reminder time is a clock string. */
  lemma ReminderTimeIsClock(e: Entities.Entities, t: string)
    requires e.time.Some? ==> TimeNormalizer.IsClockString(e.time.value)
    ensures TimeNormalizer.IsClockString(ReminderTime(e, t))
    ensures MirrorTime(ReminderTime(e, t)) == Some(ReminderTime(e, t))
  {
    DefaultsAreClocks();
    ClockHasMeridiem(ReminderTime(e, t));
  }

  // ----------------------------------------------------------------- small talk

  /** `!!voiceEmotion && emotionConfidence >= 0.75`. */
  predicate Reliable(voice: Option<string>, confidence: real) { Truthy(voice) && confidence >= 0.75 }

  /** `fallbackResponse`. */
  function FallbackResponse(t: string, clock: Clock): (r: string)
    ensures t == "" ==> r == ""
    ensures t != "" && Contains(Lower(t), "time") ==> r == ClockReply + clock.hourMinute + " on " + clock.date + "."
    ensures t != "" && !Contains(Lower(t), "time") ==> r == HelpReply
  {
    if t == "" then ""
    else if Contains(Lower(t), "time") then ClockReply + clock.hourMinute + " on " + clock.date + "."
    else HelpReply
  }

  /** `/scared|panic|worried/i`. */
  const DistressWords: seq<string> := ["scared", "panic", "worried"]

  /** A stressed voice or a word of fear. */
  predicate Frightened(t: string, emotion: string) {
    emotion == "stressed" || ContainsAny(Lower(t), DistressWords)
  }

  /** The answer to small talk that does not escalate. */
  function SoothingResponse(t: string, voice: Option<string>, emotion: string, confidence: real, clock: Clock): (r: string)
    ensures Reliable(voice, confidence) && Frightened(t, emotion) ==>
      r == BreathReply
    ensures Reliable(voice, confidence) && !Frightened(t, emotion) ==>
      r == (if emotion == "sad" then CallFamilyReply
            else FallbackResponse(t, clock))
    ensures !Reliable(voice, confidence) ==> r == FallbackResponse(t, clock)
  {
    if Reliable(voice, confidence) && Frightened(t, emotion) then
      BreathReply
    else if Reliable(voice, confidence) && emotion == "sad" then
      CallFamilyReply
    else FallbackResponse(t, clock)
  }

  /** Only a supplied voice emotion can make small talk escalate or soothe: the
      text estimate alone never does, however angry the words. */
  lemma TextAloneNeverEscalates(t: string, voice: Option<string>, supplied: real, clock: Clock)
    requires !Truthy(voice)
    ensures !Reliable(voice, FusedConfidence(supplied, Emotion.EstimateOf(t)))
    ensures SoothingResponse(t, voice, FusedEmotion(voice, Emotion.EstimateOf(t)),
                             FusedConfidence(supplied, Emotion.EstimateOf(t)), clock) == FallbackResponse(t, clock)
  {
  }

  // ------------------------------------------------------------- who is this

  /** The picture shown for a member: the first training image, else the photo
      URL, else a placeholder. */
  function ImageUrl(m: Member): string {
    if |m.trainingImages| > 0 && m.trainingImages[0] != "" then m.trainingImages[0]
    else OrElse(m.photoUrl, "/placeholder.svg")
  }

  function IdentityOf(m: Member): Identity { Identity(m.name, m.relation, ImageUrl(m)) }

  function Part(m: Option<Member>): string {
    if m.Some? then m.value.name + ", your " + m.value.relation else UnknownPart
  }

  /** One spoken part per face, left to right. */
  function Parts(rs: seq<(Face, Option<Member>)>): (p: seq<string>)
    ensures |p| == |rs|
    ensures forall i :: 0 <= i < |rs| ==> p[i] == Part(rs[i].1)
  {
    if |rs| == 0 then [] else Parts(rs[..|rs| - 1]) + [Part(rs[|rs| - 1].1)]
  }

  /** The recognised members, left to right; unknown faces are skipped. */
  function Identities(rs: seq<(Face, Option<Member>)>): (ids: seq<Identity>)
    ensures |ids| <= |rs|
    ensures forall k :: 0 <= k < |ids| ==> ids[k] in KnownIdentities(rs)
    ensures (forall i :: 0 <= i < |rs| ==> rs[i].1.Some?) ==> |ids| == |rs|
  {
    if |rs| == 0 then []
    else
      var front := rs[..|rs| - 1];
      var init := Identities(front);
      assert KnownIdentities(front) <= KnownIdentities(rs) by {
        forall x | x in KnownIdentities(front) ensures x in KnownIdentities(rs) {
          var i :| 0 <= i < |front| && front[i].1.Some? && x == IdentityOf(front[i].1.value);
          assert rs[i] == front[i];
        }
      }
      if rs[|rs| - 1].1.Some? then init + [IdentityOf(rs[|rs| - 1].1.value)] else init
  }

  function KnownIdentities(rs: seq<(Face, Option<Member>)>): set<Identity> {
    set i | 0 <= i < |rs| && rs[i].1.Some? :: IdentityOf(rs[i].1.value)
  }

  const CueTitle := "Relationship cueing"
  const UnknownTitle := "Unknown person"
  const UnknownNote := "Saved screenshot for caregiver review"
  const FaceKind := "Face Recognition"

  /** The ids one face of a multi-face answer uses up: one drawn and dropped before its
      event, the event's own, and one more for the record of an unknown face with a crop. */
  function FaceIds(face: Face, member: Option<Member>): (n: nat)
    ensures n == 2 || (n == 3 && member.None? && Truthy(face.imageData))
  {
    if member.None? && Truthy(face.imageData) then 3 else 2
  }

  /** The feed event a face of a multi-face answer adds, under id `id`. */
  function FaceEvent(member: Option<Member>, id: string): (a: Activity)
  {
    if member.Some? then
      Activity(id, CueTitle, "Recognized " + member.value.name, FaceKind, "#ECFDF5", "#10B981")
    else
      Activity(id, UnknownTitle, UnknownNote, FaceKind, "#FFF7ED", "#FB923C")
  }

  /** The id counter after describing the faces `rs`, starting from `serial`. */
  function SerialAfter(rs: seq<(Face, Option<Member>)>, serial: nat): (n: nat)
    ensures serial + 2 * |rs| <= n <= serial + 3 * |rs|
  {
    if |rs| == 0 then serial
    else SerialAfter(rs[..|rs| - 1], serial) + FaceIds(rs[|rs| - 1].0, rs[|rs| - 1].1)
  }

  /** The events describing the faces `rs` put in front of the feed: one per face, the
      last face's first, since each is put in front of the one before. */
  function FeedOf(rs: seq<(Face, Option<Member>)>, serial: nat): (feed: seq<Activity>)
    ensures |feed| == |rs|
  {
    if |rs| == 0 then []
    else
      var last := rs[|rs| - 1];
      [FaceEvent(last.1, FreshId("e", SerialAfter(rs, serial) - 1))] + FeedOf(rs[..|rs| - 1], serial)
  }

  /** Face `i` of the answer is told by the event `i` places from the far end of the
      new events: a "Relationship cueing" event for a known face, an "Unknown person"
      event otherwise, every one of them of kind "Face Recognition". */
  lemma {:induction false} FeedTitles(rs: seq<(Face, Option<Member>)>, serial: nat, i: nat)
    requires i < |rs|
    ensures var e := FeedOf(rs, serial)[|rs| - 1 - i];
      e.kind == FaceKind
      && e.title == (if rs[i].1.Some? then CueTitle else UnknownTitle)
  {
    var front := rs[..|rs| - 1];
    var head := FaceEvent(rs[|rs| - 1].1, FreshId("e", SerialAfter(rs, serial) - 1));
    assert FeedOf(rs, serial) == [head] + FeedOf(front, serial);
    if i < |rs| - 1 {
      FeedTitles(front, serial, i);
      assert front[i] == rs[i];
      assert FeedOf(rs, serial)[|rs| - 1 - i] == FeedOf(front, serial)[|front| - 1 - i];
    } else {
      assert FeedOf(rs, serial)[|rs| - 1 - i] == head;
    }
  }

  /** The unknown-face records describing the faces `rs` adds: one per unknown face
      with a crop, newest first. */
  function UnknownsOf(rs: seq<(Face, Option<Member>)>, serial: nat): (us: seq<UnknownFace>)
    ensures |us| <= |rs|
    ensures (forall i :: 0 <= i < |rs| ==> rs[i].1.Some?) ==> us == []
  {
    if |rs| == 0 then []
    else
      var last := rs[|rs| - 1];
      var front := UnknownsOf(rs[..|rs| - 1], serial);
      if last.1.None? && Truthy(last.0.imageData) then
        [UnknownFace(FreshId("u", SerialAfter(rs[..|rs| - 1], serial)), last.0.imageData)] + front
      else front
  }

  /** Describing one more face adds its event and record on top of the ones before. */
  lemma DescribedStep(rs: seq<(Face, Option<Member>)>, i: nat, serial: nat)
    requires i < |rs|
    ensures var s := SerialAfter(rs[..i], serial);
      SerialAfter(rs[..i + 1], serial) == s + FaceIds(rs[i].0, rs[i].1)
      && FeedOf(rs[..i + 1], serial) == [FaceEvent(rs[i].1, FreshId("e", s + FaceIds(rs[i].0, rs[i].1) - 1))] + FeedOf(rs[..i], serial)
      && UnknownsOf(rs[..i + 1], serial)
         == (if rs[i].1.None? && Truthy(rs[i].0.imageData) then [UnknownFace(FreshId("u", s), rs[i].0.imageData)] else [])
            + UnknownsOf(rs[..i], serial)
  {
    var q := rs[..i + 1];
    assert q[..|q| - 1] == rs[..i];
    assert q[|q| - 1] == rs[i];
  }

  /** The events one face of a multi-face answer adds. */
  method DescribeOne(db: Db, face: Face, member: Option<Member>)
    modifies db
    ensures |db.activity| == |old(db.activity)| + 1
    ensures db.activity == [FaceEvent(member, FreshId("e", old(db.serial) + FaceIds(face, member) - 1))] + old(db.activity)
    ensures db.serial == old(db.serial) + FaceIds(face, member)
    ensures member.Some? || !Truthy(face.imageData) ==> db.unknownFaces == old(db.unknownFaces)
    ensures member.None? && Truthy(face.imageData) ==>
      db.unknownFaces == [UnknownFace(FreshId("u", old(db.serial)), face.imageData)] + old(db.unknownFaces)
    ensures db.Snapshot() == old(db.Snapshot()).(activity := db.activity, unknownFaces := db.unknownFaces, serial := db.serial)
  {
    if member.Some? {
      var unused := db.NextId("e");
      db.AddActivityEvent(CueTitle, "Recognized " + member.value.name, FaceKind,
                          Some("#ECFDF5"), Some("#10B981"));
    } else {
      if Truthy(face.imageData) {
        var uid := db.NextId("u");
        db.unknownFaces := [UnknownFace(uid, face.imageData)] + db.unknownFaces;
      }
      var unused := db.NextId("e");
      db.AddActivityEvent(UnknownTitle, UnknownNote, FaceKind,
                          Some("#FFF7ED"), Some("#FB923C"));
    }
  }

  /** What the multi-face answer does, as a relation between the store before and after:
      the faces, ordered left to right, are recognised in turn from the current rotation;
      each is named or declared unknown and adds its feed event and, when unknown with a
      crop, its unknown-face record. */
  predicate FacesDescribed(before: Store, after: Store, faces: seq<Face>, response: string, ids: seq<Identity>)
  {
    var results := Recognized(SortByX(faces), before.family, before.recogIndex);
    response == LeftToRight + Join(Parts(results), ", ") + "."
    && ids == Identities(results)
    && after == before.(activity := FeedOf(results, before.serial) + before.activity,
                        unknownFaces := UnknownsOf(results, before.serial) + before.unknownFaces,
                        serial := SerialAfter(results, before.serial),
                        recogIndex := RotationAfter(SortByX(faces), before.family, before.recogIndex))
  }

  /** The multi-face answer: every face, ordered left to right, is named by what
      `recognizeFace` says about its crop or declared unknown; known faces add a
      "Relationship cueing" event, unknown ones an "Unknown person" event and, when
      they carry a crop, an unknown-face record. */
  method DescribeFaces(db: Db, faces: seq<Face>) returns (results: seq<(Face, Option<Member>)>, response: string, ids: seq<Identity>)
    modifies db
    ensures results == Recognized(SortByX(faces), old(db.family), old(db.recogIndex))
    ensures FacesDescribed(old(db.Snapshot()), db.Snapshot(), faces, response, ids)
    ensures db.family == old(db.family) && db.pendingReminder == old(db.pendingReminder)
  {
    results := db.RecognizeFaces(faces);
    var parts;
    parts, ids := DescribeEach(db, results);
    response := LeftToRight + Join(parts, ", ") + ".";
  }

  /** The per-face loop of the multi-face answer: the spoken parts and the recognised
      identities, in order, with one event per face. */
  method DescribeEach(db: Db, results: seq<(Face, Option<Member>)>) returns (parts: seq<string>, ids: seq<Identity>)
    modifies db
    ensures parts == Parts(results) && ids == Identities(results)
    ensures |db.activity| == |old(db.activity)| + |results|
    ensures db.activity == FeedOf(results, old(db.serial)) + old(db.activity)
    ensures db.unknownFaces == UnknownsOf(results, old(db.serial)) + old(db.unknownFaces)
    ensures db.serial == SerialAfter(results, old(db.serial))
    ensures db.Snapshot() == old(db.Snapshot()).(activity := db.activity, unknownFaces := db.unknownFaces, serial := db.serial)
  {
    parts := [];
    ids := [];
    for i := 0 to |results|
      invariant parts == Parts(results[..i])
      invariant ids == Identities(results[..i])
      invariant db.activity == FeedOf(results[..i], old(db.serial)) + old(db.activity)
      invariant db.unknownFaces == UnknownsOf(results[..i], old(db.serial)) + old(db.unknownFaces)
      invariant db.serial == SerialAfter(results[..i], old(db.serial))
      invariant db.Snapshot() == old(db.Snapshot()).(activity := db.activity, unknownFaces := db.unknownFaces, serial := db.serial)
    {
      PartsStep(results, i);
      var member := results[i].1;
      if member.Some? {
        ids := ids + [IdentityOf(member.value)];
      }
      parts := parts + [Part(member)];
      DescribeNext(db, results, i, old(db.serial), old(db.activity), old(db.unknownFaces));
    }
    assert results[..|results|] == results;
  }

  /** One more face adds its spoken part and, when recognised, its identity. */
  lemma PartsStep(rs: seq<(Face, Option<Member>)>, i: nat)
    requires i < |rs|
    ensures Parts(rs[..i + 1]) == Parts(rs[..i]) + [Part(rs[i].1)]
    ensures Identities(rs[..i + 1]) == Identities(rs[..i]) + (if rs[i].1.Some? then [IdentityOf(rs[i].1.value)] else [])
  {
    assert rs[..i + 1][..i] == rs[..i];
  }

  /** One round of the per-face loop: the next face's event and record go on top of
      the ones the earlier faces added. */
  method DescribeNext(db: Db, results: seq<(Face, Option<Member>)>, i: nat, ghost serial: nat,
                      ghost feed: seq<Activity>, ghost unknowns: seq<UnknownFace>)
    requires i < |results|
    requires db.activity == FeedOf(results[..i], serial) + feed
    requires db.unknownFaces == UnknownsOf(results[..i], serial) + unknowns
    requires db.serial == SerialAfter(results[..i], serial)
    modifies db
    ensures db.activity == FeedOf(results[..i + 1], serial) + feed
    ensures db.unknownFaces == UnknownsOf(results[..i + 1], serial) + unknowns
    ensures db.serial == SerialAfter(results[..i + 1], serial)
    ensures db.Snapshot() == old(db.Snapshot()).(activity := db.activity, unknownFaces := db.unknownFaces, serial := db.serial)
  {
    ghost var activity, unknownFaces, before := db.activity, db.unknownFaces, db.serial;
    DescribeOne(db, results[i].0, results[i].1);
    DescribedStep(results, i, serial);
    NextFeed(results, i, serial, feed, activity, db.activity, before);
    NextUnknowns(results, i, serial, unknowns, unknownFaces, db.unknownFaces, before);
  }

  lemma NextFeed(rs: seq<(Face, Option<Member>)>, i: nat, serial: nat, feed: seq<Activity>,
                 a0: seq<Activity>, a1: seq<Activity>, s0: nat)
    requires i < |rs| && s0 == SerialAfter(rs[..i], serial) && a0 == FeedOf(rs[..i], serial) + feed
    requires a1 == [FaceEvent(rs[i].1, FreshId("e", s0 + FaceIds(rs[i].0, rs[i].1) - 1))] + a0
    requires FeedOf(rs[..i + 1], serial) == [FaceEvent(rs[i].1, FreshId("e", s0 + FaceIds(rs[i].0, rs[i].1) - 1))] + FeedOf(rs[..i], serial)
    ensures a1 == FeedOf(rs[..i + 1], serial) + feed
  {
  }

  lemma NextUnknowns(rs: seq<(Face, Option<Member>)>, i: nat, serial: nat, unknowns: seq<UnknownFace>,
                     u0: seq<UnknownFace>, u1: seq<UnknownFace>, s0: nat)
    requires i < |rs| && s0 == SerialAfter(rs[..i], serial) && u0 == UnknownsOf(rs[..i], serial) + unknowns
    requires rs[i].1.Some? || !Truthy(rs[i].0.imageData) ==> u1 == u0
    requires rs[i].1.None? && Truthy(rs[i].0.imageData) ==> u1 == [UnknownFace(FreshId("u", s0), rs[i].0.imageData)] + u0
    requires UnknownsOf(rs[..i + 1], serial)
         == (if rs[i].1.None? && Truthy(rs[i].0.imageData) then [UnknownFace(FreshId("u", s0), rs[i].0.imageData)] else [])
            + UnknownsOf(rs[..i], serial)
    ensures u1 == UnknownsOf(rs[..i + 1], serial) + unknowns
  {
  }

  /** What the single-face answer does, as a relation between the store before and
      after: the crop is recognised; a known person is named with a "Relationship
      cueing" event holding the reply, an unknown one gets an "Unknown person" event
      and, when the request carries a crop, an unknown-face record. */
  predicate FaceDescribed(before: Store, after: Store, imageData: Option<string>, response: string,
                          uiAction: Option<string>, ids: seq<Identity>)
  {
    var k := FaceIndex(before.family, imageData, before.recogIndex);
    after.recogIndex == (if Rotates(before.family, imageData) then before.recogIndex + 1 else before.recogIndex)
    && if k.Some? then
      var m := before.family[k.value];
      response == "This is " + m.name + ", your " + m.relation + "."
      && uiAction == Some("show_identity") && ids == [IdentityOf(m)]
      && after == before.(
           activity := [Activity(FreshId("e", before.serial + 1), CueTitle, response, FaceKind,
                                 "#ECFDF5", "#10B981")] + before.activity,
           serial := before.serial + 2, recogIndex := after.recogIndex)
    else
      var crop := Truthy(imageData);
      response == UnknownPart && uiAction.None? && ids == []
      && after == before.(
           unknownFaces := if crop then [UnknownFace(FreshId("u", before.serial), imageData)] + before.unknownFaces
                           else before.unknownFaces,
           activity := [Activity(FreshId("e", before.serial + (if crop then 2 else 1)), UnknownTitle,
                                 UnknownNote, FaceKind, "#FFF7ED", "#FB923C")]
                       + before.activity,
           serial := before.serial + (if crop then 3 else 2), recogIndex := after.recogIndex)
  }

  /** The single-face answer from the crop in the request. */
  method DescribeFace(db: Db, imageData: Option<string>) returns (response: string, uiAction: Option<string>, ids: seq<Identity>)
    modifies db
    ensures FaceDescribed(old(db.Snapshot()), db.Snapshot(), imageData, response, uiAction, ids)
    ensures db.Snapshot() == old(db.Snapshot()).(activity := db.activity, unknownFaces := db.unknownFaces,
                                                 serial := db.serial, recogIndex := db.recogIndex)
  {
    ghost var before := db.Snapshot();
    var known := db.RecognizeFace(imageData);
    if known.Some? {
      var m := known.value;
      response := "This is " + m.name + ", your " + m.relation + ".";
      var unused := db.NextId("e");
      db.AddActivityEvent(CueTitle, response, FaceKind, Some("#ECFDF5"), Some("#10B981"));
      uiAction := Some("show_identity");
      ids := [IdentityOf(m)];
      assert db.Snapshot() == before.(
        activity := [Activity(FreshId("e", before.serial + 1), CueTitle, response, FaceKind, "#ECFDF5", "#10B981")]
                    + before.activity,
        serial := before.serial + 2, recogIndex := db.recogIndex);
    } else {
      response := UnknownPart;
      if Truthy(imageData) {
        var uid := db.NextId("u");
        db.unknownFaces := [UnknownFace(uid, imageData)] + db.unknownFaces;
      }
      var unused := db.NextId("e");
      db.AddActivityEvent(UnknownTitle, UnknownNote, FaceKind,
                          Some("#FFF7ED"), Some("#FB923C"));
      uiAction := None;
      ids := [];
    }
  }

  // ------------------------------------------------------------ the branches

  /** `set_reminder` as a relation between the store before and after: one one-time
      reminder titled by the task (else "Reminder"), at the extracted or default time,
      goes in front of the reminders with its mirror in front of the schedule and a
      "Reminder created" event in front of the feed, and becomes the pending reminder. */
  predicate ReminderSet(before: Store, after: Store, t: string, entities: Entities.Entities,
                        response: string, created: Reminder)
  {
    var time := ReminderTime(entities, t);
    var title := OrElse(entities.task, "Reminder");
    created == Reminder(FreshId("r", before.serial), title,
                        if Truthy(entities.task) then "Remember to " + entities.task.value else "",
                        time, "One-time", "active", "Today, " + time, None)
    && after == before.(
         reminders := [created] + before.reminders,
         scheduleToday := [ScheduleItem(Some(created.id), MirrorTime(time), title, "One-time", "pending")]
                          + before.scheduleToday,
         activity := [Activity(FreshId("e", before.serial + 1), "Reminder created: " + title,
                               "Scheduled at " + time + " (" + created.frequency + ")", "Reminder", "#FEF3C7", "#F59E0B")]
                     + before.activity,
         serial := before.serial + 2,
         pendingReminder := Some(created.id))
    && response == "Okay. I set a reminder \"" + title + "\" at " + time + "."
  }

  /** `set_reminder`. */
  method SetReminder(db: Db, t: string, entities: Entities.Entities) returns (response: string, created: Reminder)
    modifies db
    ensures ReminderSet(old(db.Snapshot()), db.Snapshot(), t, entities, response, created)
    ensures db.family == old(db.family)
  {
    var title := OrElse(entities.task, "Reminder");
    var time := ReminderTime(entities, t);
    var description := if Truthy(entities.task) then "Remember to " + entities.task.value else "";
    created := db.CreateReminder(title, Some(description), time, Some("One-time"), Some("Today, " + time));
    db.pendingReminder := Some(created.id);
    response := "Okay. I set a reminder \"" + created.title + "\" at " + created.time + ".";
  }

  /** `complete_reminder` as a relation between the store before and after: without a
      task it only asks which reminder and changes nothing; otherwise the nested
      completion request regenerates the schedule and, when a reminder has the task as
      its title, marks it and its first schedule entry completed and adds the "Reminder
      completed" event. */
  predicate CompletedByVoice(before: Store, after: Store, entities: Entities.Entities, clock: Clock,
                             response: string, uiAction: Option<string>)
  {
    if !Truthy(entities.task) then
      response == WhichReminder && uiAction.None? && after == before
    else
      var title := entities.task.value;
      var st := Regenerated(before);
      var target := CompletionTarget(before.reminders, None, entities.task);
      if target.Some? then
        var done := before.reminders[target.value].(status := "completed", completedAt := Some(clock.stamp));
        response == "Marked \"" + title + "\" as complete." && uiAction == Some("refresh_schedule")
        && after == st.(
             reminders := before.reminders[target.value := done],
             scheduleToday := MarkCompleted(st.scheduleToday, FindIndex(st.scheduleToday, ForReminder(done))),
             activity := [Activity(FreshId("e", before.serial + 1), "Reminder completed: " + done.title, clock.stamp,
                                   "Reminder", "#ECFDF5", "#10B981")] + before.activity,
             serial := before.serial + 2)
      else
        response == "I couldn't find \"" + title + "\"" + (if Truthy(entities.time) then " at " + entities.time.value else "") + "."
        && uiAction.None? && after == st
  }

  /** `complete_reminder`: the nested request completes by title (the time is sent but
      the completion handler does not use it). */
  method CompleteByVoice(db: Db, entities: Entities.Entities, clock: Clock) returns (response: string, uiAction: Option<string>)
    modifies db
    ensures CompletedByVoice(old(db.Snapshot()), db.Snapshot(), entities, clock, response, uiAction)
    ensures db.family == old(db.family) && db.pendingReminder == old(db.pendingReminder)
  {
    uiAction := None;
    if !Truthy(entities.task) {
      response := WhichReminder;
      return;
    }
    var title := entities.task.value;
    db.Regenerate();
    var target := db.CompleteReminder(None, Some(title), clock.stamp);
    if target.Some? {
      response := "Marked \"" + title + "\" as complete.";
      uiAction := Some("refresh_schedule");
    } else {
      response := "I couldn't find \"" + title + "\"" + (if Truthy(entities.time) then " at " + entities.time.value else "") + ".";
    }
  }

  /** `family_alert` as a relation: the nested email request regenerates the schedule
      and sends the family alert to the primary family address. */
  predicate FamilyAlerted(before: Store, after: Store, response: string)
  {
    response == FamilyReply
    && after == Regenerated(before).(
         emailOutbox := [Email(FreshId("m", before.serial), before.primaryFamilyEmail, FamilySubject,
                               FamilyBody)] + before.emailOutbox,
         activity := [Activity(FreshId("e", before.serial + 1), "Email sent to " + before.primaryFamilyEmail,
                               FamilySubject, "Notification", "#F0F9FF", "#38BDF8")] + before.activity,
         serial := before.serial + 2)
  }

  /** `family_alert`. */
  method AlertFamily(db: Db) returns (response: string)
    modifies db
    ensures FamilyAlerted(old(db.Snapshot()), db.Snapshot(), response)
    ensures db.family == old(db.family) && db.pendingReminder == old(db.pendingReminder)
  {
    db.Regenerate();
    var sent := db.SendEmail(db.primaryFamilyEmail, Some(FamilySubject), Some(FamilyBody));
    response := FamilyReply;
  }

  /** An alert plus an email to the caregiver, as `emergency_alert` and the anger
      escalation both do: a high alert and its "Emergency" event, then the email. */
  predicate CaregiverAlerted(before: Store, after: Store, title: string, description: string, subject: string, body: string)
  {
    after == before.(
      alerts := [Alert(FreshId("a", before.serial), title, "high", description, "active", "high")] + before.alerts,
      activity := [Activity(FreshId("e", before.serial + 1), title, description, "Emergency", "#FEF3C7", "#F59E0B")]
                  + before.activity,
      emailOutbox := [Email(FreshId("m", before.serial + 2), before.caregiverEmail, subject, body)] + before.emailOutbox,
      serial := before.serial + 3)
  }

  method AlertCaregiver(db: Db, title: string, description: string, subject: string, body: string)
    modifies db
    ensures CaregiverAlerted(old(db.Snapshot()), db.Snapshot(), title, description, subject, body)
    ensures db.family == old(db.family) && db.pendingReminder == old(db.pendingReminder)
  {
    var a := db.AddAlert(title, "high", description, "active");
    var mid := db.NextId("m");
    db.emailOutbox := [Email(mid, db.caregiverEmail, subject, body)] + db.emailOutbox;
  }

  /** Small talk as a relation: a reliable angry voice escalates to the caregiver; a
      reliable stressed voice or a scared/panic/worried word soothes; a reliable sad
      voice offers to call the family; anything else gets the fallback answer. Only
      the escalation changes the store. */
  predicate SmallTalked(before: Store, after: Store, t: string, voice: Option<string>, emotion: string,
                        confidence: real, clock: Clock, response: string)
  {
    if Escalates(voice, emotion, confidence) then
      response == UpsetReply
      && CaregiverAlerted(before, after, AngerTitle, AngerNote + t,
                          AgitationSubject,
                          AgitationBody + t)
    else
      response == SoothingResponse(t, voice, emotion, confidence, clock) && after == before
  }

  /** A reliable angry voice escalates small talk to the caregiver. */
  predicate Escalates(voice: Option<string>, emotion: string, confidence: real) {
    Reliable(voice, confidence) && emotion == "angry"
  }

  method SmallTalk(db: Db, t: string, voice: Option<string>, emotion: string, confidence: real, clock: Clock)
    returns (response: string)
    modifies db
    ensures SmallTalked(old(db.Snapshot()), db.Snapshot(), t, voice, emotion, confidence, clock, response)
    ensures db.family == old(db.family) && db.pendingReminder == old(db.pendingReminder)
  {
    if Escalates(voice, emotion, confidence) {
      AlertCaregiver(db, AngerTitle, AngerNote + t,
                     AgitationSubject,
                     AgitationBody + t);
      response := UpsetReply;
    } else {
      response := SoothingResponse(t, voice, emotion, confidence, clock);
    }
  }

  /** `who_is_this` as a relation: several faces get the multi-face answer, otherwise
      the crop in the request gets the single-face one. */
  predicate WhoAnswered(before: Store, after: Store, imageData: Option<string>, faces: Option<seq<Face>>,
                        response: string, uiAction: Option<string>, ids: seq<Identity>)
  {
    if faces.Some? && |faces.value| > 1 then
      uiAction == Some("show_identities") && FacesDescribed(before, after, faces.value, response, ids)
    else
      FaceDescribed(before, after, imageData, response, uiAction, ids)
  }

  /** What the branches act on: the transcript, its intent and entities, the fused
      emotion, the crop or crops in the request and the clock readings. */
  datatype Heard = Heard(t: string, intent: Intents.Intent, entities: Entities.Entities, voice: Option<string>,
                         emotion: string, confidence: real, imageData: Option<string>, faces: Option<seq<Face>>,
                         clock: Clock)

  /** What a branch answers besides the analysis. */
  datatype Answer = Answer(response: string, uiAction: Option<string>, created: Option<Reminder>, ids: seq<Identity>)

  /** Acting on the intent once no follow-up applied, as a relation between the store
      before and after: the branch of the intent, and no other, runs. Only
      `set_reminder` creates a reminder, and only `who_is_this` recognises anyone. */
  predicate Acted(before: Store, after: Store, h: Heard, a: Answer)
  {
    if h.intent == Intents.SetReminder then
      a.created.Some? && ReminderSet(before, after, h.t, h.entities, a.response, a.created.value)
      && a.uiAction == Some("ask_repeat") && a.ids == []
    else if h.intent == Intents.OpenPhotos then
      a == Answer(PhotosReply, Some("open_photos"), None, []) && after == before
    else if h.intent == Intents.PlayBrainGame then
      a == Answer(GameReply, Some("play_brain_game"), None, []) && after == before
    else if h.intent == Intents.OpenUpcoming then
      a == Answer(UpcomingReply, Some("open_upcoming"), None, []) && after == before
    else if h.intent == Intents.CompleteReminder then
      CompletedByVoice(before, after, h.entities, h.clock, a.response, a.uiAction) && a.created.None? && a.ids == []
    else if h.intent == Intents.WhoIsThis then
      WhoAnswered(before, after, h.imageData, h.faces, a.response, a.uiAction, a.ids) && a.created.None?
    else if h.intent == Intents.FamilyAlert then
      FamilyAlerted(before, after, a.response) && a.uiAction.None? && a.created.None? && a.ids == []
    else if h.intent == Intents.EmergencyAlert then
      a == Answer(EmergencyReply, None, None, [])
      && CaregiverAlerted(before, after, EmergencyTitle, EmergencyNote,
                          EmergencySubject, EmergencyBody)
    else
      SmallTalked(before, after, h.t, h.voice, h.emotion, h.confidence, h.clock, a.response)
      && a.uiAction.None? && a.created.None? && a.ids == []
  }

  /** Acting on the intent once no follow-up applied. */
  method Route(db: Db, h: Heard) returns (a: Answer)
    modifies db
    ensures Acted(old(db.Snapshot()), db.Snapshot(), h, a)
    ensures db.family == old(db.family)
  {
    if h.intent == Intents.SetReminder {
      var response, c := SetReminder(db, h.t, h.entities);
      a := Answer(response, Some("ask_repeat"), Some(c), []);
    } else {
      a := RouteOther(db, h);
    }
  }

  /** The intents other than `set_reminder`. */
  method RouteOther(db: Db, h: Heard) returns (a: Answer)
    requires h.intent != Intents.SetReminder
    modifies db
    ensures Acted(old(db.Snapshot()), db.Snapshot(), h, a)
    ensures db.family == old(db.family)
  {
    if h.intent == Intents.OpenPhotos {
      a := Answer(PhotosReply, Some("open_photos"), None, []);
    } else if h.intent == Intents.PlayBrainGame {
      a := Answer(GameReply, Some("play_brain_game"), None, []);
    } else if h.intent == Intents.OpenUpcoming {
      a := Answer(UpcomingReply, Some("open_upcoming"), None, []);
    } else {
      a := RouteAction(db, h);
    }
  }

  /** The intents that act on the store: completion, recognition, alerts and small talk. */
  method RouteAction(db: Db, h: Heard) returns (a: Answer)
    requires h.intent in {Intents.CompleteReminder, Intents.WhoIsThis, Intents.FamilyAlert, Intents.EmergencyAlert,
                          Intents.SmallTalk}
    modifies db
    ensures Acted(old(db.Snapshot()), db.Snapshot(), h, a)
    ensures db.family == old(db.family)
  {
    ghost var before := db.Snapshot();
    if h.intent == Intents.CompleteReminder {
      var response, uiAction := CompleteByVoice(db, h.entities, h.clock);
      a := Answer(response, uiAction, None, []);
    } else if h.intent == Intents.WhoIsThis {
      var response, uiAction, ids := WhoIsThis(db, h.imageData, h.faces);
      a := Answer(response, uiAction, None, ids);
    } else if h.intent == Intents.FamilyAlert {
      var response := AlertFamily(db);
      a := Answer(response, None, None, []);
    } else {
      a := RouteAlert(db, h);
      return;
    }
    ActionActed(before, db.Snapshot(), h, a);
  }

  /** The completion, recognition and family-alert branches are the ones `Acted` names
      for their intents. */
  lemma ActionActed(before: Store, after: Store, h: Heard, a: Answer)
    requires h.intent in {Intents.CompleteReminder, Intents.WhoIsThis, Intents.FamilyAlert}
    requires h.intent == Intents.CompleteReminder ==>
      CompletedByVoice(before, after, h.entities, h.clock, a.response, a.uiAction) && a.created.None? && a.ids == []
    requires h.intent == Intents.WhoIsThis ==>
      WhoAnswered(before, after, h.imageData, h.faces, a.response, a.uiAction, a.ids) && a.created.None?
    requires h.intent == Intents.FamilyAlert ==>
      FamilyAlerted(before, after, a.response) && a == Answer(a.response, None, None, [])
    ensures Acted(before, after, h, a)
  {
  }

  /** The intents that alert the caregiver or may: the emergency alert and small talk. */
  method RouteAlert(db: Db, h: Heard) returns (a: Answer)
    requires h.intent in {Intents.EmergencyAlert, Intents.SmallTalk}
    modifies db
    ensures Acted(old(db.Snapshot()), db.Snapshot(), h, a)
    ensures db.family == old(db.family)
  {
    ghost var before := db.Snapshot();
    if h.intent == Intents.EmergencyAlert {
      AlertCaregiver(db, EmergencyTitle, EmergencyNote,
                     EmergencySubject, EmergencyBody);
      a := Answer(EmergencyReply, None, None, []);
    } else {
      var response := SmallTalk(db, h.t, h.voice, h.emotion, h.confidence, h.clock);
      a := Answer(response, None, None, []);
    }
    AlertActed(before, db.Snapshot(), h, a);
  }

  /** The emergency and small-talk branches are the ones `Acted` names for their intents. */
  lemma AlertActed(before: Store, after: Store, h: Heard, a: Answer)
    requires h.intent in {Intents.EmergencyAlert, Intents.SmallTalk}
    requires h.intent == Intents.EmergencyAlert ==>
      CaregiverAlerted(before, after, EmergencyTitle, EmergencyNote,
                       EmergencySubject, EmergencyBody)
      && a == Answer(EmergencyReply, None, None, [])
    requires h.intent == Intents.SmallTalk ==>
      SmallTalked(before, after, h.t, h.voice, h.emotion, h.confidence, h.clock, a.response)
      && a == Answer(a.response, None, None, [])
    ensures Acted(before, after, h, a)
  {
  }

  /** `who_is_this`. */
  method WhoIsThis(db: Db, imageData: Option<string>, faces: Option<seq<Face>>)
    returns (response: string, uiAction: Option<string>, ids: seq<Identity>)
    modifies db
    ensures WhoAnswered(old(db.Snapshot()), db.Snapshot(), imageData, faces, response, uiAction, ids)
    ensures db.family == old(db.family) && db.pendingReminder == old(db.pendingReminder)
  {
    if faces.Some? && |faces.value| > 1 {
      var results;
      results, response, ids := DescribeFaces(db, faces.value);
      uiAction := Some("show_identities");
    } else {
      response, uiAction, ids := DescribeFace(db, imageData);
    }
  }

  /** The follow-up's writes. */
  method ApplyFollowUp(db: Db, idx: nat, freq: string)
    requires idx < |db.reminders|
    modifies db
    ensures db.Snapshot() == WithFrequency(old(db.Snapshot()), idx, freq)
  {
    var sIdx := FindIndex(db.scheduleToday, ForReminder(db.reminders[idx]));
    db.reminders := db.reminders[idx := db.reminders[idx].(frequency := freq)];
    if sIdx.Some? {
      db.scheduleToday := db.scheduleToday[sIdx.value := db.scheduleToday[sIdx.value].(frequency := freq)];
    }
    db.pendingReminder := None;
  }

  /** What answering the transcript does, as a relation between the store before and
      after: a follow-up with a target only sets that reminder's frequency and says so;
      otherwise the intent's branch runs. */
  predicate Answered(before: Store, after: Store, h: Heard, a: Answer)
  {
    var k := FollowUpTarget(before, h.t);
    if k.Some? then
      after == WithFrequency(before, k.value, FollowUpFrequency(h.t).value)
      && a == Answer(RepeatReply + Lower(FollowUpFrequency(h.t).value) + ".",
                     Some("refresh_schedule"), None, [])
    else
      Acted(before, after, h, a)
  }

  /** The whole `/api/voice/pipeline` POST. */
  method Pipeline(db: Db, rawTranscript: Option<string>, voice: Option<string>, supplied: real,
                  imageData: Option<string>, faces: Option<seq<Face>>, clock: Clock) returns (reply: Reply)
    modifies db
    ensures reply.transcript == TranscriptOf(rawTranscript)
    ensures reply.emotion == FusedEmotion(voice, Emotion.EstimateOf(reply.transcript))
    ensures reply.emotionConfidence == FusedConfidence(supplied, Emotion.EstimateOf(reply.transcript))
    ensures reply.intent == Intents.PredictIntent(reply.transcript)
    ensures reply.entities == Entities.EntitiesOf(reply.transcript)
    ensures Answered(Regenerated(old(db.Snapshot())), db.Snapshot(),
                     Heard(reply.transcript, reply.intent, reply.entities, voice, reply.emotion, reply.emotionConfidence,
                           imageData, faces, clock),
                     Answer(reply.response, reply.uiAction, reply.created, reply.identities))
  {
    db.Regenerate();
    ghost var st := db.Snapshot();
    assert st == Regenerated(old(db.Snapshot()));
    var t := TranscriptOf(rawTranscript);
    var predicted := Emotion.PredictEmotion(t);
    var emotion := FusedEmotion(voice, predicted);
    var confidence := FusedConfidence(supplied, predicted);
    var entities := Entities.ExtractEntities(t);
    var intent := Intents.PredictIntent(t);
    var h := Heard(t, intent, entities, voice, emotion, confidence, imageData, faces, clock);
    var a := Respond(db, h);
    reply := Reply(t, emotion, confidence, intent, entities, a.response, a.uiAction, a.created, a.ids);
  }

  /** The pipeline's answer on the regenerated store: the follow-up when it applies,
      otherwise the intent's branch. */
  method Respond(db: Db, h: Heard) returns (a: Answer)
    modifies db
    ensures Answered(old(db.Snapshot()), db.Snapshot(), h, a)
  {
    ghost var st := db.Snapshot();
    var freq := FollowUpFrequency(h.t);
    if freq.Some? && db.pendingReminder.Some? {
      var idx := FindIndex(db.reminders, HasId(db.pendingReminder.value));
      if idx.Some? {
        ApplyFollowUp(db, idx.value, freq.value);
        a := Answer(RepeatReply + Lower(freq.value) + ".", Some("refresh_schedule"), None, []);
        return;
      }
    }
    assert FollowUpTarget(st, h.t).None?;
    a := Route(db, h);
  }

  /** Whatever the intent, only `set_reminder` creates a reminder (one-time, titled by
      the task, at the reminder time, in front of the reminders, and pending), every
      other intent leaves the pending reminder alone, and no intent changes the family. */
  lemma ActedFrame(before: Store, after: Store, h: Heard, a: Answer)
    requires Acted(before, after, h, a)
    ensures a.created.Some? <==> h.intent == Intents.SetReminder
    ensures a.created.Some? ==>
      after.reminders == [a.created.value] + before.reminders && a.created.value.frequency == "One-time"
      && a.created.value.title == OrElse(h.entities.task, "Reminder") && a.created.value.time == ReminderTime(h.entities, h.t)
      && after.pendingReminder == Some(a.created.value.id)
    ensures h.intent != Intents.SetReminder ==> after.pendingReminder == before.pendingReminder
    ensures after.family == before.family
  {
    if h.intent == Intents.SetReminder {
      SetFrame(before, after, h.t, h.entities, a.response, a.created.value);
    } else if h.intent == Intents.CompleteReminder {
      CompletedFrame(before, after, h.entities, h.clock, a.response, a.uiAction);
    } else if h.intent == Intents.WhoIsThis {
      WhoFrame(before, after, h.imageData, h.faces, a.response, a.uiAction, a.ids);
    } else if h.intent == Intents.FamilyAlert {
      FamilyFrame(before, after, a.response);
    } else if h.intent == Intents.EmergencyAlert {
      CaregiverFrame(before, after, EmergencyTitle, EmergencyNote,
                     EmergencySubject, EmergencyBody);
    } else if h.intent in {Intents.OpenPhotos, Intents.PlayBrainGame, Intents.OpenUpcoming} {
    } else {
      SmallTalkFrame(before, after, h.t, h.voice, h.emotion, h.confidence, h.clock, a.response);
    }
  }

  lemma SetFrame(before: Store, after: Store, t: string, entities: Entities.Entities, response: string, created: Reminder)
    requires ReminderSet(before, after, t, entities, response, created)
    ensures after.reminders == [created] + before.reminders && created.frequency == "One-time"
      && created.title == OrElse(entities.task, "Reminder") && created.time == ReminderTime(entities, t)
      && after.pendingReminder == Some(created.id) && after.family == before.family
  {
  }

  lemma FamilyFrame(before: Store, after: Store, response: string)
    requires FamilyAlerted(before, after, response)
    ensures after.family == before.family && after.pendingReminder == before.pendingReminder
  {
  }

  lemma CaregiverFrame(before: Store, after: Store, title: string, description: string, subject: string, body: string)
    requires CaregiverAlerted(before, after, title, description, subject, body)
    ensures after.family == before.family && after.pendingReminder == before.pendingReminder
  {
  }

  lemma SmallTalkFrame(before: Store, after: Store, t: string, voice: Option<string>, emotion: string,
                       confidence: real, clock: Clock, response: string)
    requires SmallTalked(before, after, t, voice, emotion, confidence, clock, response)
    ensures after.family == before.family && after.pendingReminder == before.pendingReminder
  {
    if Escalates(voice, emotion, confidence) {
      CaregiverFrame(before, after, AngerTitle, AngerNote + t,
                     AgitationSubject,
                     AgitationBody + t);
    }
  }

  lemma CompletedFrame(before: Store, after: Store, entities: Entities.Entities, clock: Clock,
                       response: string, uiAction: Option<string>)
    requires CompletedByVoice(before, after, entities, clock, response, uiAction)
    ensures after.family == before.family && after.pendingReminder == before.pendingReminder
  {
  }

  lemma WhoFrame(before: Store, after: Store, imageData: Option<string>, faces: Option<seq<Face>>,
                 response: string, uiAction: Option<string>, ids: seq<Identity>)
    requires WhoAnswered(before, after, imageData, faces, response, uiAction, ids)
    ensures after.family == before.family && after.pendingReminder == before.pendingReminder
  {
  }

  /** For the whole answer: no request changes the family, and a reminder is created
      only for `set_reminder` when no follow-up applied, and then it is the pending one. */
  lemma AnsweredFrame(before: Store, after: Store, h: Heard, a: Answer)
    requires Answered(before, after, h, a)
    ensures after.family == before.family
    ensures a.created.Some? <==> FollowUpTarget(before, h.t).None? && h.intent == Intents.SetReminder
    ensures a.created.Some? ==> after.pendingReminder == Some(a.created.value.id)
  {
    if FollowUpTarget(before, h.t).None? {
      ActedFrame(before, after, h, a);
    }
  }

  /** Every request regenerates the schedule, and doing so twice changes nothing more. */
  lemma RegenerateIdempotent(st: Store)
    ensures Regenerated(Regenerated(st)) == Regenerated(st)
  {
  }
}
