/** The fake server's intent classifier: an ordered list of regular-expression
    rules over the lower-cased utterance; the first rule that matches names the
    intent, and `small_talk` is the default. */
module Intents {
  import opened Strings

  datatype Intent =
    | SetReminder | WhoIsThis | FamilyAlert | CompleteReminder | EmergencyAlert
    | OpenPhotos | PlayBrainGame | OpenUpcoming | SmallTalk

  /** The label the server answers with. */
  function Label(i: Intent): string {
    match i
    case SetReminder => "set_reminder"
    case WhoIsThis => "who_is_this"
    case FamilyAlert => "family_alert"
    case CompleteReminder => "complete_reminder"
    case EmergencyAlert => "emergency_alert"
    case OpenPhotos => "open_photos"
    case PlayBrainGame => "play_brain_game"
    case OpenUpcoming => "open_upcoming"
    case SmallTalk => "small_talk"
  }

  /** Position of an intent's rule in the rule list; small talk comes last. */
  function Rank(i: Intent): nat {
    match i
    case SetReminder => 0
    case WhoIsThis => 1
    case FamilyAlert => 2
    case CompleteReminder => 3
    case EmergencyAlert => 4
    case OpenPhotos => 5
    case PlayBrainGame => 6
    case OpenUpcoming => 7
    case SmallTalk => 8
  }

  /** `set .* reminder`: "set " and, later on the same line, " reminder". */
  predicate SetAnythingReminder(t: string) {
    exists i, j | 0 <= i && i + 4 <= j <= |t| ::
      PrefixAt(t, i, "set ") && j <= i + 4 + RunAt(t, i + 4, NotLineTerminator) && PrefixAt(t, j, " reminder")
  }

  /** `(remind|reminder|remember|set .* reminder)`. */
  predicate ReminderRule(t: string) {
    ContainsAny(t, ["remind", "reminder", "remember"]) || SetAnythingReminder(t)
  }

  predicate WhoRule(t: string) {
    ContainsAny(t, ["who is this", "who is that", "who am i with", "who are you"])
  }

  /** `\b(alert (?:my )?family|email my family|tell my family)\b`. */
  predicate FamilyRule(t: string) {
    HasBounded(t, ["alert my family", "alert family", "email my family", "tell my family"])
  }

  /** `\bmark .* (done|complete)\b`: a bounded "mark ", then later on the same line
      " done" or " complete" ending at a word boundary. */
  predicate MarkAnythingDone(t: string) {
    exists i, j | 0 <= i && i + 5 <= j <= |t| ::
      PrefixAt(t, i, "mark ") && Boundary(t, i) && j <= i + 5 + RunAt(t, i + 5, NotLineTerminator)
      && ((PrefixAt(t, j, " done") && Boundary(t, j + 5))
          || (PrefixAt(t, j, " complete") && Boundary(t, j + 9)))
  }

  /** `\b(mark .* (done|complete)|mark (?:it|this) (done|complete)|i (finished|completed)|yes,? mark it)\b`. */
  predicate CompleteRule(t: string) {
    MarkAnythingDone(t)
    || HasBounded(t, ["mark it done", "mark it complete", "mark this done", "mark this complete",
                      "i finished", "i completed", "yes, mark it", "yes mark it"])
  }

  /** `\b(i need help|help me|alert (?:my )?caregiver|alert caregiver|emergency|sos)\b`. */
  predicate EmergencyRule(t: string) {
    HasBounded(t, ["i need help", "help me", "alert my caregiver", "alert caregiver", "emergency", "sos"])
  }

  predicate PhotosRule(t: string) {
    ContainsAny(t, ["open photos", "show photos", "view photos", "photos"])
  }

  predicate BrainGameRule(t: string) {
    ContainsAny(t, ["play brain game", "start brain game", "brain game", "play game"])
  }

  predicate UpcomingRule(t: string) {
    ContainsAny(t, ["open upcoming", "show schedule", "open schedule", "upcoming"])
  }

  /** The rule of each intent, applied to lower-cased text; small talk has none. */
  predicate Fires(i: Intent, t: string) {
    match i
    case SetReminder => ReminderRule(t)
    case WhoIsThis => WhoRule(t)
    case FamilyAlert => FamilyRule(t)
    case CompleteReminder => CompleteRule(t)
    case EmergencyAlert => EmergencyRule(t)
    case OpenPhotos => PhotosRule(t)
    case PlayBrainGame => BrainGameRule(t)
    case OpenUpcoming => UpcomingRule(t)
    case SmallTalk => false
  }

  /** `predictIntent(text)`. The answer's rule matches and no earlier rule does;
      small talk exactly when no rule matches. */
  function PredictIntent(text: string): (r: Intent)
    ensures r != SmallTalk ==> Fires(r, Lower(text))
    ensures forall j: Intent :: Rank(j) < Rank(r) ==> !Fires(j, Lower(text))
  {
    var t := Lower(text);
    if ReminderRule(t) then SetReminder
    else if WhoRule(t) then WhoIsThis
    else if FamilyRule(t) then FamilyAlert
    else if CompleteRule(t) then CompleteReminder
    else if EmergencyRule(t) then EmergencyAlert
    else if PhotosRule(t) then OpenPhotos
    else if BrainGameRule(t) then PlayBrainGame
    else if UpcomingRule(t) then OpenUpcoming
    else SmallTalk
  }

  // ---------------------------------------------------------------- properties

  /** Distinct intents have distinct labels, so the label names the intent. */
  lemma LabelsDistinct(a: Intent, b: Intent)
    requires Label(a) == Label(b)
    ensures a == b
  {
  }

  /** The answer is determined by the rules: it is the first intent, in rule order,
      whose rule matches, and small talk when none does. */
  lemma FirstMatchUnique(text: string, i: Intent)
    requires i == SmallTalk || Fires(i, Lower(text))
    requires forall j: Intent :: Rank(j) < Rank(i) ==> !Fires(j, Lower(text))
    ensures PredictIntent(text) == i
  {
    var r := PredictIntent(text);
    assert Rank(r) < Rank(i) ==> !Fires(r, Lower(text));
    assert Rank(i) < Rank(r) ==> !Fires(i, Lower(text));
  }

  /** The reminder rule is the same as looking for "remind" or "remember". */
  lemma ReminderRuleIsRemindOrRemember(t: string)
    ensures ReminderRule(t) <==> Contains(t, "remind") || Contains(t, "remember")
  {
    var ps := ["remind", "reminder", "remember"];
    if ContainsAny(t, ps) {
      var k :| 0 <= k < |ps| && Contains(t, ps[k]);
      if k == 1 { ContainsConcat("", "remind", "er"); assert "" + "remind" + "er" == "reminder"; ContainsWidens(t, "reminder", "remind"); }
    }
    if SetAnythingReminder(t) {
      var i, j :| 0 <= i && i + 4 <= j <= |t| && PrefixAt(t, i, "set ") && PrefixAt(t, j, " reminder");
      assert PrefixAt(" reminder", 1, "remind");
      PrefixAtWithin(t, j, " reminder", 1, "remind");
    }
    if Contains(t, "remind") { assert Contains(t, ps[0]); }
    if Contains(t, "remember") { assert Contains(t, ps[2]); }
  }

  /** Whatever else an utterance says, mentioning "remind" (in any case) makes it a
      reminder request: "mark the Grocery reminder as done" is `set_reminder`. */
  lemma RemindWins(a: string, b: string)
    ensures PredictIntent(a + "remind" + b) == SetReminder
  {
    LowerConcat(a + "remind", b);
    LowerConcat(a, "remind");
    assert Lower("remind") == "remind";
    ContainsConcat(Lower(a), "remind", Lower(b));
    ReminderRuleIsRemindOrRemember(Lower(a + "remind" + b));
  }

  /** And the converse: an utterance is classified `set_reminder` only when it
      mentions "remind" or "remember". */
  lemma ReminderOnlyByKeyword(text: string)
    requires PredictIntent(text) == SetReminder
    ensures Contains(Lower(text), "remind") || Contains(Lower(text), "remember")
  {
    ReminderRuleIsRemindOrRemember(Lower(text));
  }

  /** The reminder rule outranks the emergency rule: "help me set a reminder" is a
      reminder request here. */
  lemma ReminderBeatsHelp()
    ensures PredictIntent("help me set a " + "remind" + "er") == SetReminder
  {
    RemindWins("help me set a ", "er");
  }
}
