/** The Python backend's rule-based intent classifier
    (`backend/nlp/intent_classifier.py`): an ordered chain of substring tests on the
    lower-cased text. Its labels and precedence differ from the fake server's. The
    transformer model is an abstract collaborator whose answer, or failure, is an input. */
module PyIntentClassifier {
  import opened Wrappers
  import opened Strings

  datatype PyIntent =
    | SetReminder | WhoIsThis | EmergencyAlert | WhereIsObject | DailySummary | SmallTalk | MemoryTraining

  /** `intent_labels`. */
  const Labels: seq<string> :=
    ["set_reminder", "who_is_this", "emergency_alert", "where_is_object", "daily_summary", "small_talk", "memory_training"]

  function Label(i: PyIntent): (r: string)
    ensures r in Labels
  {
    match i
    case SetReminder => Labels[0]
    case WhoIsThis => Labels[1]
    case EmergencyAlert => Labels[2]
    case WhereIsObject => Labels[3]
    case DailySummary => Labels[4]
    case SmallTalk => Labels[5]
    case MemoryTraining => Labels[6]
  }

  lemma LabelsDistinct(a: PyIntent, b: PyIntent)
    requires a != b
    ensures Label(a) != Label(b)
  {
  }

  const EmergencyWords: seq<string> := ["help", "emergency", "urgent", "problem", "scared"]
  const WhoWords: seq<string> := ["who is", "who are", "who's", "recognize"]
  const ReminderWords: seq<string> := ["remind", "reminder", "schedule", "appointment", "medication"]
  const WhereWords: seq<string> := ["where is", "find", "looking for", "lost"]
  const SummaryWords: seq<string> := ["summary", "what did i do", "today", "recap"]
  const TrainingWords: seq<string> := ["quiz", "practice", "train", "remember"]

  /** The rule chain, in the order it is tested, and the intent each rule returns. */
  const RuleWords: seq<seq<string>> :=
    [EmergencyWords, WhoWords, ReminderWords, WhereWords, SummaryWords, TrainingWords]
  const RuleIntents: seq<PyIntent> :=
    [EmergencyAlert, WhoIsThis, SetReminder, WhereIsObject, DailySummary, MemoryTraining]

  /** The intent of the first rule with a word in `lower`; small talk when none has. */
  function RuleIntent(lower: string): (r: PyIntent)
    ensures r != SmallTalk ==>
      exists k :: 0 <= k < |RuleWords| && RuleIntents[k] == r && ContainsAny(lower, RuleWords[k])
        && forall j :: 0 <= j < k ==> !ContainsAny(lower, RuleWords[j])
    ensures r == SmallTalk <==> forall j :: 0 <= j < |RuleWords| ==> !ContainsAny(lower, RuleWords[j])
  {
    match FirstGroup(lower, RuleWords)
    case None => SmallTalk
    case Some(k) =>
      assert SmallTalk !in RuleIntents && RuleIntents[k] in RuleIntents;
      RuleIntents[k]
  }

  /** `predict_intent`: blank text is small talk; otherwise the first rule whose word
      occurs in the lower-cased text, and small talk when none does. */
  function PredictIntent(text: string): (r: PyIntent)
    ensures Trim(text) == "" ==> r == SmallTalk
    ensures Trim(text) != "" && r != SmallTalk ==>
      exists k :: 0 <= k < |RuleWords| && RuleIntents[k] == r && ContainsAny(Lower(text), RuleWords[k])
        && forall j :: 0 <= j < k ==> !ContainsAny(Lower(text), RuleWords[j])
    ensures Trim(text) != "" ==>
      (r == SmallTalk <==> forall j :: 0 <= j < |RuleWords| ==> !ContainsAny(Lower(text), RuleWords[j]))
  {
    if Trim(text) == "" then SmallTalk else RuleIntent(Lower(text))
  }

  /** An emergency word wins over every other rule: "help me set a reminder" is an alert. */
  lemma {:induction false} HelpMeSetAReminder()
    ensures PredictIntent("help me set a reminder") == EmergencyAlert
  {
    var t := "help me set a reminder";
    assert Lower(t) == t;
    assert PrefixAt(t, 0, EmergencyWords[0]);
    assert ContainsAny(Lower(t), RuleWords[0]);
    assert t[0] == 'h' && !IsSpace(t[0]);
    assert Trim(t) != "" by {
      TrimEmptyIffAllSpace(t);
    }
  }

  /** Upper and lower case give the same intent. */
  lemma {:induction false} CaseInsensitive(text: string)
    ensures PredictIntent(Lower(text)) == PredictIntent(text)
  {
    LowerIdempotent(text);
    BlankIgnoresCase(text);
  }

  lemma LowerIdempotent(s: string)
    ensures Lower(Lower(s)) == Lower(s)
  {
    assert forall i :: 0 <= i < |s| ==> Lower(Lower(s))[i] == Lower(s)[i];
  }

  lemma BlankIgnoresCase(s: string)
    ensures Trim(Lower(s)) == "" <==> Trim(s) == ""
  {
    TrimEmptyIffAllSpace(s);
    TrimEmptyIffAllSpace(Lower(s));
    AllSpaceIgnoresCase(s);
  }

  lemma AllSpaceIgnoresCase(s: string)
    ensures AllSpace(Lower(s)) <==> AllSpace(s)
  {
    forall i | 0 <= i < |s| ensures IsSpace(Lower(s)[i]) <==> IsSpace(s[i]) {
      SpaceIgnoresCase(s[i]);
    }
  }

  lemma SpaceIgnoresCase(c: char)
    ensures IsSpace(LowerChar(c)) <==> IsSpace(c)
  {
  }

  /** `predict_with_confidence`: the model's label and confidence, or, when the model
      fails, the rule-based intent with confidence 0.5. */
  function PredictWithConfidence(text: string, model: Option<(PyIntent, real)>): (r: (PyIntent, real))
    ensures model.None? ==> r == (PredictIntent(text), 0.5)
    ensures model.Some? ==> r == model.value
  {
    if model.Some? then model.value else (PredictIntent(text), 0.5)
  }
}
