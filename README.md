# Memory-aid voice command engine, modelled in Dafny

This project models the rule-based voice command engine of a memory-aid assistant
for people living with dementia, and proves properties of it. The engine reads a
transcript, classifies its intent, extracts a time and a task, estimates the
speaker's emotion, and then acts: it sets and completes reminders, recognises
family members, raises alerts to caregivers and answers small talk. The model has
five parts.

- **The in-browser fake server** (`src/fakeServer/handlers.js`). Its text
  understanding is modelled as pure functions:
  - `TimeNormalizer`: `normalizeTime`;
  - `Entities`: `extractEntities`;
  - `Intents`: `predictIntent`;
  - `Emotion`: `predictEmotion`.

  Its in-memory database is the class `FakeServer.Db`, whose methods are the
  store's writers and the request branches that change it. The
  `/api/voice/pipeline` branch is `VoicePipeline`.
- **The patient screen's confirmation state machine**
  (`src/components/PatientView.jsx`). This is the class `PatientSession.Session`.
  Timers are explicit events that carry what they captured.
- **The Python backend's rule layer**:
  - `PyIntentClassifier`;
  - `PyEntityExtractor`;
  - `PyEmergencyHandler`;
  - `PyActionRouter`;
  - `PyRelationshipCueing`;
  - `PyReminderManager`.

  These run over an abstract store (`BackendStore.Store`). The database,
  mailer and face-distance results are inputs.
- **The caregiver activity log's CSV export**
  (`src/components/caregiver/ActivityLog.jsx`). This is `ActivityExport`.
- **Shared helpers**: `Wrappers` (options and JavaScript/Python truthiness) and
  `Strings` (ASCII case mapping, trimming, substring and whole-word search,
  decimal rendering).

Regular expressions are modelled as explicit matchers: an ordered list of patterns
tried in order, each searched leftmost-first, with the backtracking order the
pattern implies. Identifiers that the source draws at random are modelled as fresh
identifiers from a counter. Clock readings are parameters.

## Model

| member | source | states |
|---|---|---|
| TimeNormalizer.Canon | src/fakeServer/handlers.js:174-177 | the phrase every branch reads (trimmed and upper-cased) has no dot left |
| TimeNormalizer.NormalizeTime | src/fakeServer/handlers.js:173-209 | every answer is a clock string, and there is an answer exactly when the canonical phrase `Parses`; anything else gives undefined |
| TimeNormalizer.NormalizeCanon | src/fakeServer/handlers.js:178-208 | the branches in source order only ever produce clock strings, and produce one exactly when the phrase `Parses` |
| TimeNormalizer.Parses | src/fakeServer/handlers.js:178-208 | the phrases `normalizeTime` reads (a definition; `NormalizeCanon` and `NormalizeTime` state its use) |
| TimeNormalizer.KeywordTimes | src/fakeServer/handlers.js:178-181 | NOON, MORNING, EVENING and NIGHT, in any case, padding or dotting, give 12:00 PM, 9:00 AM, 6:00 PM and 10:00 PM, which stand for the minutes 720, 540, 1080 and 1320 of the day |
| TimeNormalizer.KeywordCanon | src/fakeServer/handlers.js:178-181 | the same four answers on the canonical phrase |
| TimeNormalizer.KeywordTime | src/fakeServer/handlers.js:178-181 | a keyword answer is a clock string, and there is one exactly for NOON, MORNING, EVENING and NIGHT |
| TimeNormalizer.MatchMeridiem | src/fakeServer/handlers.js:183 | a match of `^(\d{1,2})(?::(\d{2}))?\s*(AM|PM)$` has one or two hour digits, two minute digits and AM or PM |
| TimeNormalizer.MeridiemTime | src/fakeServer/handlers.js:183-188 | the 12-hour branch yields a clock string exactly when the 12-hour pattern matches |
| TimeNormalizer.MeridiemKeepsHour | src/fakeServer/handlers.js:183-188 | "H AM", "H:MM PM", "H:MMAM" and the like keep the hour digits as written, the minutes default to "00" and the meridiem is kept |
| TimeNormalizer.MeridiemCanon | src/fakeServer/handlers.js:183-188 | the same on the canonical phrase |
| TimeNormalizer.MatchMeridiemOf | src/fakeServer/handlers.js:183-187 | the pattern reads back exactly the hour, minutes (or "00") and meridiem it was written with |
| TimeNormalizer.MatchWithMinutes | src/fakeServer/handlers.js:183-186 | with minutes present, the pattern returns those minutes |
| TimeNormalizer.MatchWithoutMinutes | src/fakeServer/handlers.js:183-186 | with no minutes, the minutes default to "00" |
| TimeNormalizer.Match24 | src/fakeServer/handlers.js:190 | a match of `^(\d{1,2}):(\d{2})$` has one or two hour digits and two minute digits |
| TimeNormalizer.TwentyFourTime | src/fakeServer/handlers.js:190-198 | the 24-hour branch yields a clock string exactly when the 24-hour pattern matches |
| TimeNormalizer.TwentyFourHourClock | src/fakeServer/handlers.js:190-198 | "H:MM" with H in 0..23 reads as the same minute of the day, with an hour in 1..12, the minutes kept, and PM exactly when H is 12 or more |
| TimeNormalizer.TwentyFourCanon | src/fakeServer/handlers.js:190-198 | the same on the canonical phrase |
| TimeNormalizer.TwelveHourFold | src/fakeServer/handlers.js:194-196 | folding hour 0..23 onto the 12-hour dial gives 1..12 and loses nothing once the meridiem is added back |
| TimeNormalizer.TwentyFourTimeOf | src/fakeServer/handlers.js:190-198 | "H:MM" only reaches the 24-hour branch, which answers the folded hour, the minutes and the meridiem |
| TimeNormalizer.TwentyFourHourOutOfRange | src/fakeServer/handlers.js:190-198 | hours 24..99 are not rejected: "25:00" reads as "13:00 PM", an hour of 12 or more |
| TimeNormalizer.OutOfRangeCanon | src/fakeServer/handlers.js:190-198 | the same on the canonical phrase |
| TimeNormalizer.MatchHour | src/fakeServer/handlers.js:200 | a match of `^(\d{1,2})$` is one or two digits |
| TimeNormalizer.HourTime | src/fakeServer/handlers.js:200-206 | the bare-hour branch yields a clock string exactly when the bare-hour pattern matches an hour from 1 to 23 |
| TimeNormalizer.BareHour | src/fakeServer/handlers.js:200-208 | a bare hour 1..23 reads as that hour of the day on the hour, with an hour in 1..12; 0 and 24..99 are not times |
| TimeNormalizer.BareHourCanon | src/fakeServer/handlers.js:200-208 | the same on the canonical phrase |
| TimeNormalizer.HourOfDay | src/fakeServer/handlers.js:201-205 | the bare-hour answer for 1..23 stands for that hour, with AM below 12 and PM from 12 |
| TimeNormalizer.HourTimeIs | src/fakeServer/handlers.js:203-205 | the three bare-hour cases are the folded hour with ":00" and the meridiem |
| TimeNormalizer.OnlyHourBranch | src/fakeServer/handlers.js:178-206 | one or two digits fall through the keyword, 12-hour and 24-hour branches to the bare-hour one |
| TimeNormalizer.LongDigitRunRejected | src/fakeServer/handlers.js:183-208 | a leading run of three or more digits is never a time, so "10.52 a.m." (read as "1052 AM") gives undefined |
| TimeNormalizer.LongRunCanon | src/fakeServer/handlers.js:183-208 | the same on the canonical phrase |
| TimeNormalizer.Idempotent | src/fakeServer/handlers.js:173-209 | normalising an answer again gives the same answer |
| TimeNormalizer.FixedPoint | src/fakeServer/handlers.js:173-209 | every clock string normalises to itself |
| TimeNormalizer.CanonOfClock | src/fakeServer/handlers.js:174-177 | a clock string is already canonical |
| TimeNormalizer.ClockShape | src/fakeServer/handlers.js:187 | an answer built from one or two hour digits, two minute digits and a meridiem is a clock string whose parts read back as those three |
| TimeNormalizer.ClockMinutesOf | src/fakeServer/handlers.js:187 | the minute of the day of such an answer is the hour modulo 12, plus 12 for PM, times 60, plus the minutes |
| TimeNormalizer.HourWidth | src/fakeServer/handlers.js:187 | a clock string has one or two hour digits |
| TimeNormalizer.ClockMeridiemIs | src/fakeServer/handlers.js:187 | a clock string ends in AM or PM |
| TimeNormalizer.ClockDigitRun | src/fakeServer/handlers.js:187 | the hour digits of a clock string are its leading digit run |
| Entities.TimePatternAt | src/fakeServer/handlers.js:95-100 | a match of any of the four time patterns at a position ends after that position and inside the text |
| Entities.TimeMatch | src/fakeServer/handlers.js:103-105 | the text found is that of the leftmost match of the pattern, in the case it was written in; no match means the pattern matches nowhere |
| Entities.TimeFrom | src/fakeServer/handlers.js:101-108 | the time phrase comes from the first pattern, in list order, that matches; none when no pattern matches |
| Entities.FindTime | src/fakeServer/handlers.js:101-108 | the loop that stops at the first matching pattern finds the phrase `TimeFrom` describes |
| Entities.TitlePatternAt | src/fakeServer/handlers.js:113-148 | a match of any title heuristic at a position captures a non-empty stretch inside the text |
| Entities.TitleMatch | src/fakeServer/handlers.js:113-148 | the match found captures a non-empty stretch inside the text |
| Entities.TitleMatchLeftmost | src/fakeServer/handlers.js:113-148 | the match found is the leftmost one, and no match means the heuristic matches nowhere |
| Entities.TitlePattern | src/fakeServer/handlers.js:116-147 | a heuristic's title is its trimmed capture |
| Entities.Cascade | src/fakeServer/handlers.js:111-148 | trying candidates while no title is set gives the first non-empty one, else an empty one that matched, and nothing exactly when no candidate matched |
| Entities.CascadeStep | src/fakeServer/handlers.js:119-148 | each `if (!title)` block tries one more candidate |
| Entities.TrySixIsCascade | src/fakeServer/handlers.js:111-148 | six blocks one after the other are the cascade over the six candidates |
| Entities.TrySix | src/fakeServer/handlers.js:111-148 | the six `if (!title)` blocks one after the other (a definition; `TrySixIsCascade` states its meaning) |
| Entities.TitleOf | src/fakeServer/handlers.js:111-148 | the title is trimmed |
| Entities.TitleFirstHeuristic | src/fakeServer/handlers.js:111-148 | the title is that of the first heuristic yielding a non-empty one, and it is absent exactly when no heuristic matches |
| Entities.FindTitle | src/fakeServer/handlers.js:111-148 | the step-by-step title cascade computes `TitleOf` |
| Entities.NumberColonAt | src/fakeServer/handlers.js:157 | a match of `(\d{1,2}:\d{2})` ends after its start and inside the text |
| Entities.NumberAt | src/fakeServer/handlers.js:157 | a match of `\b(\d{1,2})\b` ends after its start and inside the text |
| Entities.FirstText | src/fakeServer/handlers.js:157 | the text of the leftmost match is a match |
| Entities.Hint | src/fakeServer/handlers.js:159-163 | the hint is AM when an AM word occurs, PM when only a PM word does, and absent otherwise |
| Entities.Coerced | src/fakeServer/handlers.js:152-166 | a coerced time needs an am/pm/morning/night/evening word in the text and is a clock string |
| Entities.TimeOf | src/fakeServer/handlers.js:150-166 | the normalised matched phrase wins; otherwise a time appears only through the coercion, so only when a hint word is present; every time is a clock string |
| Entities.DaypartAt | src/fakeServer/handlers.js:169 | a match of the strip pattern ends inside the text |
| Entities.StripDaypart | src/fakeServer/handlers.js:169 | the stripped title is trimmed and no longer than before |
| Entities.TaskOf | src/fakeServer/handlers.js:168-170 | the task is present exactly when a title is, and it is trimmed |
| Entities.EntitiesOf | src/fakeServer/handlers.js:89-171 | the task is trimmed and present exactly when the title cascade finds one; the time is a clock string; either may be absent |
| Entities.ExtractEntities | src/fakeServer/handlers.js:89-171 | the step-by-step extractor computes `EntitiesOf` |
| Entities.DaypartCut | src/fakeServer/handlers.js:169 | the strip cuts the first "in the morning" or "at night", with the white space before it, and nothing else |
| Entities.TrailingDaypartRemoved | src/fakeServer/handlers.js:168-169 | a task ending in one daypart phrase loses it: "take pills in the morning" gives "take pills" |
| Entities.OnlyFirstDaypartRemoved | src/fakeServer/handlers.js:169 | only the first phrase goes: a title ending in "at night at night" keeps one |
| Entities.DaypartAtEnd | src/fakeServer/handlers.js:169 | a daypart phrase after a title matches the strip pattern there |
| Entities.NoDaypartBefore | src/fakeServer/handlers.js:169 | no strip match starts inside a title that contains neither phrase |
| Intents.PredictIntent | src/fakeServer/handlers.js:60-87 | the answer is one of the nine labels; its rule matches the lower-cased text and no earlier rule does; small talk only when no rule matches |
| Intents.FirstMatchUnique | src/fakeServer/handlers.js:60-87 | an intent whose rule matches while no earlier one does is the answer, so the answer is determined by first-match order |
| Intents.LabelsDistinct | src/fakeServer/handlers.js:60-87 | the nine labels are distinct strings |
| Intents.ReminderRuleIsRemindOrRemember | src/fakeServer/handlers.js:62 | the reminder rule fires exactly when the text contains "remind" or "remember" |
| Intents.RemindWins | src/fakeServer/handlers.js:62-63 | any text containing "remind" is `set_reminder`, whatever else it says |
| Intents.ReminderOnlyByKeyword | src/fakeServer/handlers.js:62-63 | `set_reminder` is chosen only for a text containing "remind" or "remember" |
| Intents.ReminderBeatsHelp | src/fakeServer/handlers.js:62-79 | "help me set a reminder" is `set_reminder`, not an emergency |
| Emotion.Tokens | src/fakeServer/handlers.js:311 | every token is made only of lower-case letters and digits |
| Emotion.LexCount | src/fakeServer/handlers.js:323-338 | no more tokens are matched than there are tokens |
| Emotion.ScoreTokens | src/fakeServer/handlers.js:323-338 | the scoring loop accumulates the weighted sum and the matched count that `LexSum` and `LexCount` define |
| Emotion.TokenWeight | src/fakeServer/handlers.js:327-335 | the weight of one lexicon token after negation and emphasis (a definition; `TokenWeightClosedForm` states its closed form) |
| Emotion.LexSum | src/fakeServer/handlers.js:323-338 | the weighted sum of the lexicon tokens (a definition; `ScoreTokens` computes it) |
| Emotion.LexScore | src/fakeServer/handlers.js:339-341 | the mean weight of the lexicon tokens, or the sum over all tokens when none matches (a definition; `ScoreDecides` uses it) |
| Emotion.TokenWeightClosedForm | src/fakeServer/handlers.js:327-335 | a lexicon token's weight is flipped once per negator among the two tokens before it, times 1.5 after an emphasis word and 1.3 after one two tokens back |
| Emotion.ApostropheNegatorsInert | src/fakeServer/handlers.js:311-321 | "don't", "didn't" and "can't" can never be tokens, so they never negate |
| Emotion.UnderscoreEntryInert | src/fakeServer/handlers.js:278 | "thank_you" can never be a token, so that lexicon entry never counts |
| Emotion.Boost | src/fakeServer/handlers.js:302-350 | the categories are tested in the order angry, stressed, sad, happy, and the first whose keyword occurs wins |
| Emotion.AdjectiveAt | src/fakeServer/handlers.js:354 | a matched adjective is one of the nine |
| Emotion.WithAdverb | src/fakeServer/handlers.js:354 | a match with an adverb names one of the three adverbs and one of the nine adjectives |
| Emotion.FeelAt | src/fakeServer/handlers.js:353-355 | a "feel" match at a position names an optional adverb and one adjective |
| Emotion.FeelMatch | src/fakeServer/handlers.js:353-358 | a "feel" match reports one of the nine adjectives |
| Emotion.AdjectiveFloor | src/fakeServer/handlers.js:373-381 | the score floor for an adjective: 0.6 for happy, -0.6 for scared, -0.7 for sad, 0.6 otherwise (a definition; `FeelOverrides` uses it) |
| Emotion.Decide | src/fakeServer/handlers.js:389-412 | confidence before rounding is in [0.35, 0.95]; a category is kept as the emotion; angry gives at least 0.75, stressed at least 0.65; with no category, neutral exactly when the score is in (-0.5, 0.5), and sad or happy then has confidence 0.85 |
| Emotion.RoundKeepsBounds | src/fakeServer/handlers.js:415 | clamping and rounding to two decimals keeps the bounds 0.35, 0.65, 0.75, 0.95 and the value 0.85 |
| Emotion.Round2 | src/fakeServer/handlers.js:415 | the rounded value is a whole number of hundredths within half a hundredth of the value, halves going up |
| Emotion.Clamp | src/fakeServer/handlers.js:415 | the result is in [0, 1], and it is the rounded value whenever that is in [0, 1] |
| Emotion.EstimateOf | src/fakeServer/handlers.js:266-417 | the confidence is in [0.35, 0.95], so in [0, 1]; angry has at least 0.75 and stressed at least 0.65 |
| Emotion.PredictEmotion | src/fakeServer/handlers.js:266-417 | the step-by-step estimator computes `EstimateOf` |
| Emotion.FeelOverrides | src/fakeServer/handlers.js:356-387 | an "I feel [very/so/really] ADJ" match decides the emotion, overriding the category |
| Emotion.CategoryDecides | src/fakeServer/handlers.js:343-399 | with no "feel" match the first category decides, and an angry keyword always gives angry |
| Emotion.ScoreDecides | src/fakeServer/handlers.js:400-411 | with no category and no "feel" match: neutral exactly when the score is in (-0.5, 0.5), sad exactly when it is at most -0.5, and any non-neutral answer has confidence 0.85 |
| FakeServer.FreshIdsDistinct | src/fakeServer/db.js:212-214 | ids are a prefix and a serial number, and two different serials under one prefix never give the same id |
| FakeServer.Hash | src/fakeServer/handlers.js:6-10 | the hash is an unsigned 32-bit value |
| FakeServer.HashIsPolynomial | src/fakeServer/handlers.js:6-10 | the step-by-step hash with `>>> 0` after each step equals the base-31 polynomial of the character codes taken modulo 2^32 once |
| FakeServer.MirrorTime | src/fakeServer/handlers.js:474-483 | a time naming AM or PM is mirrored unchanged, any other is normalised (and may be missing); a mirrored time is the reminder's own or a clock string |
| FakeServer.ScheduleTime | src/fakeServer/handlers.js:218-222 | AM/PM times are kept, others normalised when that succeeds; the result is the reminder's own time or a clock string |
| FakeServer.ScheduleStatus | src/fakeServer/handlers.js:229-234 | the schedule status is one of completed, missed or pending, and it is completed (missed) exactly when the reminder's is |
| FakeServer.ScheduleOf | src/fakeServer/handlers.js:215-236 | one schedule entry per reminder, in order, with the reminder's id and title, its normalised time, a non-empty frequency (its own when it has one) and its mapped status |
| FakeServer.MarkCompleted | src/fakeServer/handlers.js:896-904 | only the chosen schedule entry changes, and only its status, to completed |
| FakeServer.CompletionTarget | src/fakeServer/handlers.js:886-893 | a truthy id that some reminder has picks the first such reminder; otherwise the pick is a not-completed reminder whose lower-cased title equals the lower-cased trimmed given title; there is no pick exactly when neither search finds one |
| FakeServer.WithPrimary | src/fakeServer/handlers.js:606-608 | the members keep every field but the flag, and a member is flagged exactly when it is the first one with the given email |
| FakeServer.PrimaryCount | src/fakeServer/handlers.js:603-614 | the number of primary members, at most the family size |
| FakeServer.NoPrimary | src/fakeServer/handlers.js:606 | a family with no flagged member counts none |
| FakeServer.OnePrimary | src/fakeServer/handlers.js:606-608 | a family with exactly one flagged member counts one |
| FakeServer.AtMostOnePrimary | src/fakeServer/handlers.js:603-614 | after the primary POST there is exactly one primary member when some member has the email, and none otherwise |
| FakeServer.LabelledPrimaryAdds | src/fakeServer/handlers.js:687-701 | labelling a new primary person while another member is primary leaves two primary members |
| FakeServer.FaceIndex | src/fakeServer/handlers.js:11-33 | no family, or a data URL whose hash lands on the extra slot, gives no one; a data URL picks the member at its hash modulo family size plus one; a family path picks the first member whose photos or photo URL it contains; every other image takes the rotating pick |
| FakeServer.MissingPhotoMatchesEveryPath | src/fakeServer/handlers.js:21-28 | a member without a photo URL matches every family image path (the empty string is contained in every path), so the path search always succeeds at or before that member |
| FakeServer.PathMatches | src/fakeServer/handlers.js:21-28 | the recognition test on a family image path: a training image or the photo URL (empty when missing) occurs in it (a definition; `FaceIndex` and `MissingPhotoMatchesEveryPath` state its use) |
| FakeServer.FindIndex | src/fakeServer/handlers.js:953-958 | `findIndex`: the first index whose element passes the test, and none exactly when no element does |
| FakeServer.SortByX | src/fakeServer/handlers.js:36 | the faces sorted by x (a missing x counts as 0) and a permutation of the input; `SortByXStable` states that faces with equal x keep their input order |
| FakeServer.WithKey | src/fakeServer/handlers.js:36 | the faces with one key, in order (a definition; `SortByXStable` states its use) |
| FakeServer.WithKeyConcat | src/fakeServer/handlers.js:36 | the faces with one key of a concatenation are those of each part, in order |
| FakeServer.InsertKeepsTies | src/fakeServer/handlers.js:36 | inserting a face into sorted faces puts it after every face with the same key |
| FakeServer.TieStep | src/fakeServer/handlers.js:36 | appending a face with a larger key than the inserted one keeps the inserted one after its ties |
| FakeServer.SortByXStable | src/fakeServer/handlers.js:36 | the sort is stable: for every key, the faces with that key come out in their input order |
| FakeServer.Db.constructor | src/fakeServer/db.js:1-214 | the store starts from the seed collections with an empty outbox, no unknown faces, no pending reminder and both counters at zero |
| FakeServer.Db.NextId | src/fakeServer/db.js:212-214 | hands out the id for the current serial and changes nothing but the serial |
| FakeServer.Db.AddActivityEvent | src/fakeServer/handlers.js:40-58 | puts one event with a fresh id and the default colours in front of the feed and changes nothing else |
| FakeServer.Db.CreateReminder | src/fakeServer/handlers.js:1288-1329 | applies the defaults, and the new reminder, its schedule mirror and a "Reminder created" event each go in front of their collection |
| FakeServer.Db.PostReminder | src/fakeServer/handlers.js:457-495 | the same with the POST's defaults (time 09:00, next due Today) |
| FakeServer.Db.AddAlert | src/fakeServer/handlers.js:1330-1352 | the alert, badged with its severity, goes in front of the alerts, and an Emergency event with its title and description in front of the feed |
| FakeServer.Db.SendEmail | src/fakeServer/handlers.js:568-587 | the email with its defaults goes in front of the outbox and a Notification event in front of the feed |
| FakeServer.Db.Regenerate | src/fakeServer/handlers.js:211-256 | the schedule becomes `ScheduleOf` the reminders and nothing else changes |
| FakeServer.Db.MarkTargetCompleted | src/fakeServer/handlers.js:895-904 | the target reminder and the first schedule entry with its title or id are marked completed |
| FakeServer.Db.CompleteReminder | src/fakeServer/handlers.js:884-915 | nothing changes exactly when there is no completion target; otherwise the target and its schedule entry are completed and a "Reminder completed" event is added |
| FakeServer.Db.SetPrimary | src/fakeServer/handlers.js:603-614 | the family becomes `WithPrimary`, a truthy email becomes the primary address, and at most one member is primary afterwards |
| FakeServer.Db.TakeUnknownFace | src/fakeServer/handlers.js:681-686 | the first unknown face with the id is removed, and its image is used when none is given |
| FakeServer.Db.LabelFace | src/fakeServer/handlers.js:679-712 | the unknown face is consumed, the new member goes in front of the family without clearing other flags, a primary member's email becomes the primary address, and a Face Recognition event is added |
| FakeServer.Db.HashStr | src/fakeServer/handlers.js:6-10 | the loop computes `Hash` |
| FakeServer.Db.RecognizeFace | src/fakeServer/handlers.js:11-33 | answers the member `FaceIndex` picks, and only the rotating pick advances the rotation counter |
| FakeServer.Db.RecognizeFaces | src/fakeServer/handlers.js:34-38 | the answers are exactly `Recognized` of the faces sorted by x from the current rotation, each face paired with what `recognizeFace` answers for it in turn, and the only change to the store is that the rotation counter moves to `RotationAfter` |
| FakeServer.Picked | src/fakeServer/handlers.js:11-33 | what `recognizeFace` answers for a crop at rotation `rot`, always a family member when there is one |
| FakeServer.RotationAfter | src/fakeServer/handlers.js:30-32 | the rotation after recognising faces in turn grows by at most one per face |
| FakeServer.Recognized | src/fakeServer/handlers.js:34-38 | one answer per face |
| FakeServer.RecognizedAt | src/fakeServer/handlers.js:37 | face `i` is paired with what `recognizeFace` picks for it at the rotation the faces before it reached |
| FakeServer.RecognizedStep | src/fakeServer/handlers.js:37 | one more face appends its pick and moves the rotation on exactly when that pick rotated |
| FakeServer.AllRotating | src/fakeServer/handlers.js:30-32 | when every crop falls through to the rotation, face `i` is the member at `rot + i` modulo the family size and the rotation moves on by one per face |
| FakeServer.Db.AddReminder | src/fakeServer/handlers.js:1300-1328 | the new reminder is active with a fresh id, and the store after is the one before with it in front of the reminders, its schedule mirror in front of the schedule, its "Reminder created" event in front of the feed, and the id counter moved by two |
| VoicePipeline.TranscriptOf | src/fakeServer/handlers.js:920 | the transcript is trimmed, and empty when none (or an empty one) is sent |
| VoicePipeline.FusedEmotion | src/fakeServer/handlers.js:929 | a sent voice emotion wins over the text estimate |
| VoicePipeline.FusedConfidence | src/fakeServer/handlers.js:930-931 | a positive sent confidence wins, otherwise the text estimate's confidence is used |
| VoicePipeline.FusedConfidenceBounds | src/fakeServer/handlers.js:922-931 | the fused confidence is in [0, 1] for any sent confidence up to 1, and at least 0.35 when none is sent |
| VoicePipeline.FollowUpFrequency | src/fakeServer/handlers.js:943-951 | a follow-up frequency is found exactly when a follow-up word occurs on word boundaries, and it is Daily, Weekly or One-time |
| VoicePipeline.WithFrequency | src/fakeServer/handlers.js:954-961 | only the pending reminder's frequency changes, the first schedule entry with its id or title, when there is one, takes the same frequency and every other entry is unchanged, and the pending reminder is cleared |
| VoicePipeline.FollowUpTarget | src/fakeServer/handlers.js:946-954 | a follow-up target exists only for a follow-up utterance with a pending reminder, and it is that reminder; a follow-up with a pending id no reminder has finds none and falls through |
| VoicePipeline.DefaultTime | src/fakeServer/handlers.js:980-989 | 10:00 AM exactly when a morning word occurs, else 10:00 PM exactly when an evening word occurs, else 6:00 PM |
| VoicePipeline.DefaultsAreClocks | src/fakeServer/handlers.js:983-988 | the three default times are clock strings |
| VoicePipeline.ReminderTime | src/fakeServer/handlers.js:979-989 | an extracted time wins over the default |
| VoicePipeline.ClockHasMeridiem | src/fakeServer/handlers.js:474-479 | every clock string names AM or PM, so it is mirrored unchanged |
| VoicePipeline.CreatedTimeIsClock | src/fakeServer/handlers.js:977-997 | the time of a voice-created reminder is always a clock string and is mirrored into the schedule unchanged |
| VoicePipeline.ReminderTimeIsClock | src/fakeServer/handlers.js:979-997 | when the extracted time, if any, is a clock string, so is the reminder time, and it is mirrored unchanged |
| VoicePipeline.FallbackResponse | src/fakeServer/handlers.js:1353-1363 | empty for no transcript, the clock reading when the transcript mentions time, "How can I help?" otherwise |
| VoicePipeline.SoothingResponse | src/fakeServer/handlers.js:1221-1232 | a reliable reading that is `Frightened` (a stressed voice or a scared, panic or worried word) gets the breathing reply; a reliable sad one otherwise the offer to call the family; every other reading the fallback |
| VoicePipeline.Reliable | src/fakeServer/handlers.js:1202 | a voice emotion was sent and the confidence is at least 0.75 (a definition; `SoothingResponse` and `SmallTalked` state its use) |
| VoicePipeline.Frightened | src/fakeServer/handlers.js:1223-1224 | a stressed voice or a scared, panic or worried word (a definition; `SoothingResponse` states its use) |
| VoicePipeline.Escalates | src/fakeServer/handlers.js:1204 | a reliable angry reading (a definition; `SmallTalked` states its use) |
| VoicePipeline.Part | src/fakeServer/handlers.js:1064-1075 | the spoken part for one face: the member's name and relation, or the apology (a definition; `Parts` states its use) |
| VoicePipeline.TextAloneNeverEscalates | src/fakeServer/handlers.js:1202 | without a sent voice emotion the reading is never reliable, so the answer is the fallback reply |
| VoicePipeline.Parts | src/fakeServer/handlers.js:1052-1093 | one spoken part per face, in order |
| VoicePipeline.Identities | src/fakeServer/handlers.js:1052-1064 | one identity per recognised face, each one of a recognised member, and one per face when all are recognised |
| VoicePipeline.DescribeOne | src/fakeServer/handlers.js:1053-1092 | one face adds the `FaceEvent` for it in front of the feed under the id after the one drawn and dropped; an unrecognised face with an image first takes an id for its unknown-face record; the counter advances by `FaceIds`, and nothing else changes |
| VoicePipeline.DescribeEach | src/fakeServer/handlers.js:1052-1093 | the loop yields the parts and identities of all faces in order, puts `FeedOf` the faces in front of the feed and `UnknownsOf` them in front of the review queue, advances the counter to `SerialAfter`, and changes nothing else |
| VoicePipeline.DescribeFaces | src/fakeServer/handlers.js:1048-1105 | the results are `Recognized` of the faces sorted by x, and `FacesDescribed` holds: one part per face joined after "Starting from the left this is", and the store after is the one before with exactly those events, unknown-face records, id counter and rotation; family and pending reminder unchanged |
| VoicePipeline.DescribeFace | src/fakeServer/handlers.js:1107-1164 | `FaceDescribed`: a recognised member is named with its relation, shown, and a "Relationship cueing" event holding the reply is added; otherwise the apology is given, a crop is queued for review and an "Unknown person" event is added; the ids used and the store after are given exactly |
| VoicePipeline.WhoIsThis | src/fakeServer/handlers.js:1047-1164 | `WhoAnswered`: several faces give the multi-face answer with `show_identities` (`FacesDescribed`), otherwise the single-face answer (`FaceDescribed`); family and pending reminder unchanged |
| VoicePipeline.FaceIds | src/fakeServer/handlers.js:1065-1091 | a face of the multi-face answer uses two ids, or three when it is unknown and carries a crop |
| VoicePipeline.FaceEvent | src/fakeServer/handlers.js:1065-1091 | the event for one face (a definition; `FeedTitles` and `DescribeOne` state its use) |
| VoicePipeline.FacesDescribed | src/fakeServer/handlers.js:1048-1105 | the multi-face answer as a relation: the faces sorted by x are recognised in turn, the reply joins their parts, and the store after has exactly `FeedOf`, `UnknownsOf`, `SerialAfter` and `RotationAfter` of them (a definition; `DescribeFaces` states it) |
| VoicePipeline.FaceDescribed | src/fakeServer/handlers.js:1107-1164 | the single-face answer as a relation (a definition; `DescribeFace` states it) |
| VoicePipeline.WhoAnswered | src/fakeServer/handlers.js:1047-1164 | the recognition branch as a relation (a definition; `WhoIsThis` states it) |
| VoicePipeline.SerialAfter | src/fakeServer/handlers.js:1052-1093 | describing the faces uses between two and three ids per face |
| VoicePipeline.FeedOf | src/fakeServer/handlers.js:1052-1093 | one new event per face |
| VoicePipeline.FeedTitles | src/fakeServer/handlers.js:1065-1091 | face `i` is told by the event `i` places from the far end of the new events, "Relationship cueing" when known and "Unknown person" otherwise, every one of kind "Face Recognition" |
| VoicePipeline.UnknownsOf | src/fakeServer/handlers.js:1075-1081 | at most one unknown-face record per face, and none when every face is recognised |
| VoicePipeline.PartsStep | src/fakeServer/handlers.js:1052-1093 | one more face adds its spoken part and, when recognised, its identity, on top of the earlier faces' |
| VoicePipeline.DescribedStep | src/fakeServer/handlers.js:1052-1093 | one more face adds its ids, its event and (when unknown with a crop) its record on top of the earlier faces' |
| VoicePipeline.DescribeNext | src/fakeServer/handlers.js:1053-1092 | one round of the loop extends the feed, the queue and the counter from the earlier faces' to one more face's |
| VoicePipeline.NextFeed | src/fakeServer/handlers.js:1065-1091 | the new event on top of the earlier feed is the feed of one more face |
| VoicePipeline.NextUnknowns | src/fakeServer/handlers.js:1075-1081 | the new record, if any, on top of the earlier queue is the queue of one more face |
| VoicePipeline.IdentityOf | src/fakeServer/handlers.js:1053-1063 | the identity of a member: name, relation and its first training image, photo or placeholder (a definition; `Identities` states its use) |
| VoicePipeline.Regenerated | src/fakeServer/handlers.js:211-256 | the store with the schedule rebuilt from the reminders (a definition; `RegenerateIdempotent` and `Db.Regenerate` state its properties) |
| VoicePipeline.SetReminder | src/fakeServer/handlers.js:977-1003 | `ReminderSet`: the one reminder created, the whole store after (reminder, schedule mirror, "Reminder created" event and counter, as `createReminder` does, and the pending reminder) and the reply naming its title and time |
| VoicePipeline.CompleteByVoice | src/fakeServer/handlers.js:1015-1046 | `CompletedByVoice`: no task asks which reminder and changes nothing; a found reminder gives the regenerated store with that reminder and its first schedule entry completed, the "Reminder completed" event and the counter moved by two; a missing one gives the regenerated store and the not-found reply |
| VoicePipeline.AlertFamily | src/fakeServer/handlers.js:1165-1175 | `FamilyAlerted`: the regenerated store plus an email to the primary family address and its Notification event, with the family-alert reply |
| VoicePipeline.AlertCaregiver | src/fakeServer/handlers.js:1176-1191 | `CaregiverAlerted`: exactly a high-severity alert, its Emergency event and an email to the caregiver are added, under the next three ids |
| VoicePipeline.SmallTalk | src/fakeServer/handlers.js:1201-1233 | `SmallTalked`: a reliable angry reading alerts the caregiver with the anger title and the transcript, emails the agitation mail, and answers that the caregiver was notified; any other reading answers `SoothingResponse` and leaves the store as it was |
| VoicePipeline.ReminderSet | src/fakeServer/handlers.js:977-1003 | the set_reminder branch as a relation (a definition; `SetReminder` states it, `SetFrame` its frame) |
| VoicePipeline.CompletedByVoice | src/fakeServer/handlers.js:1015-1046 | the complete_reminder branch as a relation (a definition; `CompleteByVoice` states it, `CompletedFrame` its frame) |
| VoicePipeline.FamilyAlerted | src/fakeServer/handlers.js:1165-1175 | the family_alert branch as a relation (a definition; `AlertFamily` states it) |
| VoicePipeline.CaregiverAlerted | src/fakeServer/handlers.js:1176-1191 | an alert plus an email to the caregiver as a relation (a definition; `AlertCaregiver` states it) |
| VoicePipeline.SmallTalked | src/fakeServer/handlers.js:1201-1233 | the small-talk branch as a relation (a definition; `SmallTalk` states it) |
| VoicePipeline.Acted | src/fakeServer/handlers.js:977-1233 | the intent dispatch as a relation: exactly one branch per intent (a definition; `Route` states it, `ActedFrame` its frame) |
| VoicePipeline.Answered | src/fakeServer/handlers.js:941-1233 | the follow-up, else the dispatch, as a relation (a definition; `Respond` and `Pipeline` state it, `AnsweredFrame` its frame) |
| VoicePipeline.Route | src/fakeServer/handlers.js:977-1233 | `Acted`: the branch of the intent, and no other, runs, with its exact answer and store after; the family never changes |
| VoicePipeline.RouteOther | src/fakeServer/handlers.js:1015-1233 | `Acted` for every intent but set_reminder: the navigation intents answer their fixed reply and name themselves as the UI action, changing nothing |
| VoicePipeline.RouteAction | src/fakeServer/handlers.js:1015-1233 | `Acted` for completion, recognition, the family alert, the emergency alert and small talk |
| VoicePipeline.RouteAlert | src/fakeServer/handlers.js:1176-1233 | `Acted` for the emergency alert and small talk |
| VoicePipeline.ActionActed | src/fakeServer/handlers.js:1015-1175 | the completion, recognition and family-alert relations are what `Acted` names for their intents |
| VoicePipeline.AlertActed | src/fakeServer/handlers.js:1176-1233 | the emergency and small-talk relations are what `Acted` names for their intents |
| VoicePipeline.ActedFrame | src/fakeServer/handlers.js:977-1233 | a reminder is created exactly for set_reminder (one-time, titled by the task or "Reminder", at the reminder time, in front of the reminders, and pending); every other intent leaves the pending reminder alone; no intent changes the family |
| VoicePipeline.AnsweredFrame | src/fakeServer/handlers.js:941-1233 | no answer changes the family, and a reminder is created exactly when no follow-up applied and the intent is set_reminder, and then it is the pending one |
| VoicePipeline.SetFrame | src/fakeServer/handlers.js:977-1003 | set_reminder puts the one-time reminder in front, makes it pending and leaves the family alone |
| VoicePipeline.CompletedFrame | src/fakeServer/handlers.js:1015-1046 | completion leaves the family and the pending reminder alone |
| VoicePipeline.WhoFrame | src/fakeServer/handlers.js:1047-1164 | recognition leaves the family and the pending reminder alone |
| VoicePipeline.FamilyFrame | src/fakeServer/handlers.js:1165-1175 | the family alert leaves the family and the pending reminder alone |
| VoicePipeline.CaregiverFrame | src/fakeServer/handlers.js:1176-1191 | the caregiver alert leaves the family and the pending reminder alone |
| VoicePipeline.SmallTalkFrame | src/fakeServer/handlers.js:1201-1233 | small talk leaves the family and the pending reminder alone |
| VoicePipeline.ApplyFollowUp | src/fakeServer/handlers.js:954-961 | the store becomes `WithFrequency` |
| VoicePipeline.Respond | src/fakeServer/handlers.js:941-1233 | `Answered` holds between the store before and after: a follow-up with a target only sets its frequency and answers with it and `refresh_schedule`; otherwise `Acted` |
| VoicePipeline.Pipeline | src/fakeServer/handlers.js:918-1244 | the reply carries the trimmed transcript, the fused emotion and confidence, the predicted intent and the entities; `Answered` holds from the regenerated store to the store after, so each intent's reply, UI action, created reminder, identities and store after are given exactly |
| VoicePipeline.RegenerateIdempotent | src/fakeServer/handlers.js:211-256 | rebuilding the schedule twice gives what rebuilding once gives |
| PatientSession.FrequencyOf | src/components/PatientView.jsx:62-71 | a frequency is named exactly when a frequency phrase occurs on word boundaries; Daily and Weekly need their own phrases, and anything else named is One-time |
| PatientSession.ConfirmCall | src/components/PatientView.jsx:108-113 | the completion goes by id exactly when the pending reminder has a truthy id, and by title otherwise |
| PatientSession.YesIsConfirmation | src/components/PatientView.jsx:102-108 | every reply the strict yes pattern accepts is also accepted by the broad confirmation pattern |
| PatientSession.DenialCanConfirm | src/components/PatientView.jsx:102-103 | the broad confirmation pattern accepts "no, i have not done it", because "done" occurs on word boundaries |
| PatientSession.PromiseCompletes | src/components/PatientView.jsx:952-956 | the quick-complete pattern accepts "i'll do it", a promise rather than a report |
| PatientSession.HearCancelsTimer | src/components/PatientView.jsx:43-56 | an empty utterance is ignored with no change; any other cancels the pending follow-up timer |
| PatientSession.FrequencyTargetClearedOnlyOnSuccess | src/components/PatientView.jsx:66-98 | a frequency reply with a pending voice reminder first asks to update it; only a successful update handles the reply and clears the pending id, and a failed one keeps it |
| PatientSession.YesBeforeNo | src/components/PatientView.jsx:105-129 | while awaiting the follow-up, a reply matching both yes and no completes the pending reminder |
| PatientSession.NoKeepsPendingConfirm | src/components/PatientView.jsx:130-139 | a no while awaiting ends the wait and clears the ref and the timer but keeps the pending confirmation itself |
| PatientSession.AwaitingIgnoresOtherReplies | src/components/PatientView.jsx:105-141 | while awaiting, a reply that is neither yes nor no is not handled and changes nothing |
| PatientSession.OpenModeConfirms | src/components/PatientView.jsx:143-171 | outside the wait, a confirmation completes the pending reminder; it is handled and cleared only when the completion succeeds |
| PatientSession.DueEntries | src/components/PatientView.jsx:261-267 | the due entries are exactly the today entries at the current time, not yet announced and not completed |
| PatientSession.Announcements | src/components/PatientView.jsx:271 | one announcement per due entry, naming its time and task |
| PatientSession.TickAnnouncesOnce | src/components/PatientView.jsx:262-268 | once a tick's due entries are recorded as announced, the same schedule at the same time announces nothing more |
| PatientSession.NothingDue | src/components/PatientView.jsx:261-267 | a schedule with nothing due announces nothing |
| PatientSession.AfterTickStep | src/components/PatientView.jsx:261-296 | announcing the due entries one at a time reaches the state after a whole tick |
| PatientSession.TickedStep | src/components/PatientView.jsx:261-296 | the same step relation with the empty tick included |
| PatientSession.AnnouncementsStep | src/components/PatientView.jsx:271 | announcements of a longer run extend those of the shorter run |
| PatientSession.Due | src/components/PatientView.jsx:261-267 | the test for a due entry: at the current time, not announced and not completed (a definition; `DueEntries` states its use) |
| PatientSession.Announcement | src/components/PatientView.jsx:271 | the spoken sentence naming the time and task (a definition; `Announcements` states its use) |
| PatientSession.AfterTick | src/components/PatientView.jsx:268-296 | the state after announcing a non-empty run (a definition; `AfterTickStep` and `Session.Tick` state its properties) |
| PatientSession.Hear | src/components/PatientView.jsx:43-176 | the speech handler as a function (a definition; `HearCancelsTimer`, `FrequencyTargetClearedOnlyOnSuccess` and `Session.HandleUserSpeech` state its properties) |
| PatientSession.Answer | src/components/PatientView.jsx:101-171 | the confirmation step as a function (a definition; `YesBeforeNo`, `NoKeepsPendingConfirm`, `AwaitingIgnoresOtherReplies` and `OpenModeConfirms` state its properties) |
| PatientSession.Without | src/components/PatientView.jsx:423 | the in-flight keys lose exactly the given key |
| PatientSession.Remaining | src/components/PatientView.jsx:402-404 | the optimistic list keeps exactly the items with another time or another title |
| PatientSession.Upcoming | src/components/PatientView.jsx:426-437 | every item comes from a not-completed schedule entry (its id, time and task, coloured blue) and every such entry gives one; with `UpcomingConcat` and `UpcomingOne` the list is fixed in order and one to one |
| PatientSession.UpcomingConcat | src/components/PatientView.jsx:428-436 | the list is built entry by entry in schedule order: the items of a concatenation are the items of its parts |
| PatientSession.UpcomingOne | src/components/PatientView.jsx:429-435 | an open entry gives exactly its blue item and a completed one nothing |
| PatientSession.BranchOf | src/components/PatientView.jsx:992-1171 | the repeat question runs exactly for ask_repeat without the form phrase; the form opens exactly on the form phrase unless a navigation or refresh action came first; the refresh and unhandled branches are the ones that answer nothing |
| PatientSession.Session.constructor | src/components/PatientView.jsx:35-41 | the screen starts with nothing pending, not awaiting, no timer, nothing announced and an empty schedule |
| PatientSession.Session.ReplaceTimer | src/components/PatientView.jsx:282-296 | the follow-up timer is replaced by a new one for the given reminder |
| PatientSession.Session.HandleUserSpeech | src/components/PatientView.jsx:43-176 | the speech handler computes `Hear` |
| PatientSession.Session.AnswerPending | src/components/PatientView.jsx:101-171 | the confirmation part of the handler computes `Answer` |
| PatientSession.Session.Tick | src/components/PatientView.jsx:251-341 | a tick speaks one announcement per due entry and, when any are due, reaches `AfterTick`; otherwise nothing changes |
| PatientSession.Session.Announce | src/components/PatientView.jsx:268-296 | one announcement records the key, makes the entry pending and replaces the timer |
| PatientSession.AnnounceOne | src/components/PatientView.jsx:268-296 | one announcement as a state change (a definition; `AfterTickStep` and `Session.Announce` state its use) |
| PatientSession.AfterAskRepeat | src/components/PatientView.jsx:1072-1129 | the state after ask_repeat with a created reminder (a definition; `Session.Dispatch` and `YesToRepeatQuestionCompletes` state its use) |
| PatientSession.Session.TimerFires | src/components/PatientView.jsx:296-335 | a timer whose reminder is no longer pending does nothing; otherwise the wait starts and the yes-or-no question is asked |
| PatientSession.Session.QuickComplete | src/components/PatientView.jsx:946-991 | with a pending reminder and a complete_reminder action or a quick phrase, the completion is requested and the timer cancelled; it counts as done only if the call succeeds |
| PatientSession.Session.Dispatch | src/components/PatientView.jsx:992-1171 | the branch chosen by `BranchOf` runs, and only ask_repeat with a created reminder changes the state and asks the repeat question |
| PatientSession.Session.OnResponse | src/components/PatientView.jsx:942-1172 | the quick-complete check runs first and a successful one ends the handling; otherwise the response is dispatched on the state after the quick-complete step |
| PatientSession.Session.CompleteScheduleItem | src/components/PatientView.jsx:394-445 | the completion goes by id or title, the in-flight key is cleared afterwards, and the list is refreshed on success or has the item put back on failure |
| PatientSession.WithoutAppended | src/components/PatientView.jsx:400-423 | adding a key and then removing it leaves the in-flight keys as removing alone would |
| PatientSession.YesToRepeatQuestionCompletes | src/components/PatientView.jsx:1072-1129 | after the repeat question, a plain "yes" completes the created reminder right away while its pending id stays set |
| PyIntentClassifier.Label | backend/nlp/intent_classifier.py:26-34 | every intent's label is one of the seven labels |
| PyIntentClassifier.LabelsDistinct | backend/nlp/intent_classifier.py:26-34 | different intents have different labels |
| PyIntentClassifier.RuleIntent | backend/nlp/intent_classifier.py:44-64 | a rule intent comes from the first keyword group that occurs in the text, and small talk exactly when no group occurs |
| PyIntentClassifier.PredictIntent | backend/nlp/intent_classifier.py:36-64 | blank text is small talk; otherwise the first matching keyword group decides, and small talk is answered exactly when no group matches |
| PyIntentClassifier.HelpMeSetAReminder | backend/nlp/intent_classifier.py:46-47 | "help me set a reminder" is classed as an emergency, since the help group is checked first |
| PyIntentClassifier.CaseInsensitive | backend/nlp/intent_classifier.py:41-44 | lower-casing the text first does not change the intent |
| PyIntentClassifier.PredictWithConfidence | backend/nlp/intent_classifier.py:66-89 | the model's answer is used when there is one; when prediction fails the rule intent comes with confidence 0.5 |
| PyEntityExtractor.TwoDigits | backend/nlp/entity_extractor.py:26-29 | `\d{1,2}` takes at most two characters, all digits |
| PyEntityExtractor.ClockAt | backend/nlp/entity_extractor.py:26 | a clock match starts where it is tried and its group starts with a digit |
| PyEntityExtractor.HourAt | backend/nlp/entity_extractor.py:27 | an hour match starts where it is tried and its group starts with a digit |
| PyEntityExtractor.AtAt | backend/nlp/entity_extractor.py:28 | an "at" match captures a group that starts with a digit |
| PyEntityExtractor.OclockAt | backend/nlp/entity_extractor.py:29 | an o'clock match starts where it is tried and its group starts with a digit |
| PyEntityExtractor.TimePatternAt | backend/nlp/entity_extractor.py:25-30 | a match of any of the four patterns captures a group that starts with a digit |
| PyEntityExtractor.SearchTime | backend/nlp/entity_extractor.py:32-35 | a search result is a piece of the text starting with a digit |
| PyEntityExtractor.SearchTimeMisses | backend/nlp/entity_extractor.py:33 | a pattern's search finds nothing exactly when the pattern matches at no position |
| PyEntityExtractor.PatternTime | backend/nlp/entity_extractor.py:32-35 | the first pattern that matches gives a piece of the text starting with a digit |
| PyEntityExtractor.PatternTimeMisses | backend/nlp/entity_extractor.py:32-35 | no pattern time exactly when each of the four searches fails |
| PyEntityExtractor.NoDigitNoPattern | backend/nlp/entity_extractor.py:25-35 | text without digits matches none of the time patterns |
| PyEntityExtractor.RelativeTime | backend/nlp/entity_extractor.py:37-48 | a relative time is given exactly when a daypart word occurs, and it is the value of the first daypart in table order |
| PyEntityExtractor.ExtractTime | backend/nlp/entity_extractor.py:20-50 | a pattern match wins and is a piece of the text, the first pattern first; otherwise the relative time; nothing exactly when neither finds one |
| PyEntityExtractor.MidnightMeansNight | backend/nlp/entity_extractor.py:37-48 | "midnight" yields 08:00 PM, because "night" is checked before "midnight" |
| PyEntityExtractor.DateAt | backend/nlp/entity_extractor.py:66 | a date match ends after where it starts, inside the text |
| PyEntityExtractor.SearchDate | backend/nlp/entity_extractor.py:66-69 | a found date is a piece of the text, and none is found exactly when the pattern matches nowhere |
| PyEntityExtractor.ExtractDate | backend/nlp/entity_extractor.py:52-76 | today, tomorrow and yesterday win in that order; then a written date; then the first weekday of the list that occurs (earlier weekdays do not), none exactly when no weekday occurs |
| PyEntityExtractor.WordWith | backend/nlp/entity_extractor.py:90-91 | the word found is the first one whose lower-cased form contains the keyword, and none is found exactly when no word does |
| PyEntityExtractor.TaskFrom | backend/nlp/entity_extractor.py:87-95 | the task is the whole text or a window of at most five words around one holding a task keyword |
| PyEntityExtractor.ExtractTask | backend/nlp/entity_extractor.py:78-95 | text without a task keyword is its own task; otherwise the task is `Around` the first word holding the first keyword of the list that occurs |
| PyEntityExtractor.NoKeywordWholeText | backend/nlp/entity_extractor.py:95 | without a keyword the loop falls through to the whole text |
| PyEntityExtractor.Around | backend/nlp/entity_extractor.py:92-93 | the words from two before to two after the keyword word, clipped to the text and joined with spaces, form a task window |
| PyEntityExtractor.SkipToFirstKeyword | backend/nlp/entity_extractor.py:87-89 | keywords of the list that do not occur in the text are passed over |
| PyEntityExtractor.KeywordFindsWord | backend/nlp/entity_extractor.py:87-91 | a task keyword that occurs in the lower-cased text is found in some word, so the word search never comes up empty |
| PyEntityExtractor.InsideOneWord | backend/nlp/entity_extractor.py:84-91 | a string without white space that occurs in the lower-cased text occurs in the lower-cased form of one of its words |
| PyEntityExtractor.ExtractObject | backend/nlp/entity_extractor.py:109-122 | an object is found exactly when one of the common objects occurs, and it is the first one in list order |
| PyEntityExtractor.ExtractAll | backend/nlp/entity_extractor.py:124-138 | the dictionary carries each extractor's answer, the raw text and no persons |
| PyEntityExtractor.Present | backend/nlp/entity_extractor.py:129-136 | a key the dictionary always has holds the extractor's value, `None` included |
| PyEntityExtractor.AsDict | backend/nlp/entity_extractor.py:129-136 | the time, date and object keys are always present, holding the extractors' values, and task and raw text are strings |
| PyEmergencyHandler.SeverityName | backend/actions/emergency_handler.py:20-24 | the three tiers have the three distinct names |
| PyEmergencyHandler.DetectEmergency | backend/actions/emergency_handler.py:15-36 | an emergency is reported exactly when a severity is; the first tier with a keyword in the lower-cased text decides; with no keyword a stressed or distressed emotion gives medium, and anything else no emergency |
| PyEmergencyHandler.DistressAlwaysEmergency | backend/actions/emergency_handler.py:33-34 | a stressed or distressed speaker always counts as an emergency |
| PyEmergencyHandler.CantBreatheNeedsNoApostrophe | backend/actions/emergency_handler.py:22 | "I can't breathe" matches no keyword, since the keyword is spelled "cant breathe" |
| PyEmergencyHandler.CriticalNotInCantBreathe | backend/actions/emergency_handler.py:21 | no critical keyword occurs in "i can't breathe" |
| PyEmergencyHandler.HighNotInCantBreathe | backend/actions/emergency_handler.py:22 | no high keyword occurs in "i can't breathe" |
| PyEmergencyHandler.MediumNotInCantBreathe | backend/actions/emergency_handler.py:23 | no medium keyword occurs in "i can't breathe" |
| PyEmergencyHandler.LostKeysIsHigh | backend/actions/emergency_handler.py:22 | "I lost my keys" is a high-severity emergency whatever the emotion |
| PyEmergencyHandler.NotInLostKeys | backend/actions/emergency_handler.py:21 | no critical keyword occurs in "i lost my keys" |
| PyEmergencyHandler.NewAlert | backend/actions/emergency_handler.py:44-52 | the inserted alert is active and unresolved and carries the given patient, severity, context, transcript and time |
| PyEmergencyHandler.Mails | backend/actions/emergency_handler.py:57-59 | one mail per caregiver, in order, to its address, with the severity subject |
| PyEmergencyHandler.AlertSubject | backend/actions/emergency_handler.py:76 | the mail subject with the upper-cased severity (a definition; `Mails` states its use) |
| PyEmergencyHandler.Alerted | backend/actions/emergency_handler.py:38-66 | a successful insert adds the alert and one mail per caregiver; a failed one changes nothing; reminders and interactions never change |
| PyEmergencyHandler.TriggerAlert | backend/actions/emergency_handler.py:38-66 | the answer says whether the insert succeeded, and the tables become `Alerted` |
| PyActionRouter.ParseIntent | backend/actions/action_router.py:22-32 | a known label gives its intent, and an unknown one no intent |
| PyActionRouter.ParseLabel | backend/actions/action_router.py:22-32 | every intent's label parses back to that intent |
| PyActionRouter.ObjectReply | backend/actions/action_router.py:79-86 | no object asks what is looked for and fails; otherwise the reply names the object |
| PyActionRouter.SmallTalkReply | backend/actions/action_router.py:111-131 | a raw text stored as `None` raises; otherwise the reply succeeds and the checks go in source order: "how are you", then "thank", then "hello" or "hi", then "goodbye" or "bye", each reply only when no earlier word occurs, and text with none of them gets the first stock response |
| PyActionRouter.ThisIsAGreeting | backend/actions/action_router.py:126-127 | "Is this it" is greeted, since "hi" occurs inside "this" |
| PyActionRouter.Sightings | backend/actions/action_router.py:100-103 | the sighting text cannot be built exactly when a joined member is unreadable, and is empty when no interaction has a joined member |
| PyActionRouter.FirstThree | backend/actions/action_router.py:100 | at most the first three interactions, and exactly three when there are that many |
| PyActionRouter.SummaryReply | backend/actions/action_router.py:88-109 | nothing recorded gives the empty-day reply; the summary raises exactly when one of the first three interactions has an unreadable member; otherwise it is the head, the count of people met, the sightings of the first three and the clause for the number of completed reminders |
| PyActionRouter.SummaryText | backend/actions/action_router.py:96-109 | the summary always starts with "Here's what happened today. " |
| PyActionRouter.CountCompleted | backend/actions/action_router.py:105-107 | at most as many as there are reminders, and zero exactly when none is completed |
| PyActionRouter.MetClause | backend/actions/action_router.py:98-99 | "You met with N people. ", said only when there were interactions (a definition; `SummaryReply` states its use) |
| PyActionRouter.DoneClause | backend/actions/action_router.py:106-107 | "You completed N reminders. ", said only when some reminder was completed (a definition; `SummaryReply` states its use) |
| PyActionRouter.SummaryCountsOnlyCompleted | backend/actions/action_router.py:92-107 | the reminders enter the summary only through whether there are any and how many are completed |
| PyActionRouter.SummaryEndsWithCount | backend/actions/action_router.py:105-109 | with a completed reminder the summary ends with "You completed N reminders. ", N the number completed |
| PyActionRouter.SummaryNamesAtMostThree | backend/actions/action_router.py:98-103 | interactions beyond the third do not change the summary once the count is the same |
| PyActionRouter.PendingReminderGivesBareSummary | backend/actions/action_router.py:105-109 | a day with only an uncompleted reminder gives the head alone |
| PyActionRouter.SightingsOf | backend/actions/action_router.py:100-103 | the loop builds `Sightings` of the first three interactions |
| PyActionRouter.SightingsStep | backend/actions/action_router.py:101-103 | one more interaction adds its "You saw NAME. " sentence, nothing, or makes the text unreadable, on top of the earlier ones |
| PyActionRouter.DailySummaryOf | backend/actions/action_router.py:88-109 | the handler computes `SummaryReply` |
| PyActionRouter.Handle | backend/actions/action_router.py:32-35 | an unknown intent gets the unknown reply and changes nothing; only the summary and small-talk handlers can raise; only the reminder, identity and emergency handlers touch the tables |
| PyActionRouter.Route | backend/actions/action_router.py:17-54 | the action taken is the intent or "error"; a handler that raises, or a stress alert whose raw text is `None`, gives the error reply with the handler's tables; with a calm speaker the handler's answer and tables are returned as they are; a stressed one outside the emergency intent has its alert added after the handler's tables |
| PyActionRouter.StressAddsOneAlert | backend/actions/action_router.py:37-48 | a stressed or distressed speaker outside the emergency intent adds exactly one alert after the handler's, with the detected severity and the stress context |
| PyActionRouter.StressContext | backend/actions/action_router.py:46 | the alert context naming the emotion and the intent (a definition; `Route` states its use) |
| PyActionRouter.EmergencyAlertsOnce | backend/actions/action_router.py:69-77 | the emergency intent adds exactly one critical alert, whatever the emotion |
| PyActionRouter.LostKeysUnderStress | backend/actions/action_router.py:37-48 | "I lost my keys" said under stress raises a high-severity alert although the intent is only an object search |
| PyActionRouter.HandleIntent | backend/actions/action_router.py:56-139 | the handlers compute `Handle` |
| PyActionRouter.RouteAction | backend/actions/action_router.py:17-54 | the router computes `Route` |
| PyRelationshipCueing.SeenClause | backend/actions/relationship_cueing.py:66-71 | today, yesterday and fewer than seven days each have their sentence, and a week or more adds nothing |
| PyRelationshipCueing.Introduction | backend/actions/relationship_cueing.py:59 | "This is NAME, your RELATIONSHIP." (a definition; `BuildCueMessage` and `MissingFieldsUseDefaults` state its properties) |
| PyRelationshipCueing.BuildCueMessage | backend/actions/relationship_cueing.py:50-79 | the cue always starts with the introduction; the recency sentence comes only with a readable age under seven days, and notes are appended only when truthy |
| PyRelationshipCueing.MissingFieldsUseDefaults | backend/actions/relationship_cueing.py:55-56 | a missing name and relationship are read as "someone" and "a person you know" |
| PyRelationshipCueing.NullNameIsReadOut | backend/actions/relationship_cueing.py:55-59 | a name stored as `None` is read out as "None", since the default applies only to a missing key |
| PyRelationshipCueing.FutureVisitIsNegative | backend/actions/relationship_cueing.py:64-71 | a last interaction in the future is read out as a negative number of days |
| PyRelationshipCueing.Scan | backend/actions/relationship_cueing.py:24-36 | after each prefix the loop holds the closest candidate under the threshold (the earliest among ties) with its distance, or none and 1.0 |
| PyRelationshipCueing.BestMatch | backend/actions/relationship_cueing.py:24-39 | the best match is the closest candidate, and there is none exactly when no member has an encoding closer than 0.6 |
| PyRelationshipCueing.Identified | backend/actions/relationship_cueing.py:13-48 | a failing query gives the trouble reply and an empty family the not-yet reply; no candidate gives the add-them reply; a match returns the member with its cue and logs the sighting when the insert succeeds; nothing else changes the tables |
| PyRelationshipCueing.IdentifyPerson | backend/actions/relationship_cueing.py:13-48 | the method computes `Identified` |
| PyReminderManager.NewReminder | backend/actions/reminder_manager.py:17-35 | the row carries the patient, the task (default Task), the time, the date (default today) and the creation time, and is active and not completed |
| PyReminderManager.Created | backend/actions/reminder_manager.py:12-43 | no time asks for one; a failed insert gives the trouble reply; otherwise the row is inserted and the reply names task, time and date; nothing else changes |
| PyReminderManager.SetMessage | backend/actions/reminder_manager.py:39 | the confirmation, with `None` rendered as Python does (a definition; `Created` and `UndatedReminderIsOnNone` state its properties) |
| PyReminderManager.CreateReminder | backend/actions/reminder_manager.py:12-43 | the method computes `Created` |
| PyReminderManager.UndatedReminderIsOnNone | backend/actions/reminder_manager.py:19 | a reminder from an utterance without a date is set "on None", because the extractor's dictionary always has a date key |
| PyReminderManager.Select | backend/actions/reminder_manager.py:51-56 | the filter keeps exactly the rows the test accepts |
| PyReminderManager.SelectConcat | backend/actions/reminder_manager.py:51-56 | filtering distributes over concatenation |
| PyReminderManager.GetReminders | backend/actions/reminder_manager.py:45-60 | when the read succeeds, exactly the patient's active rows, restricted to the date when one is given; a failing read gives the empty list |
| PyReminderManager.Take | backend/actions/reminder_manager.py:73 | a prefix no longer than the limit, and the whole list when it fits |
| PyReminderManager.Upcoming | backend/actions/reminder_manager.py:62-73 | at most the limit, each one of today's active rows for the patient, due at or after now and not completed; a failing read gives the empty list |
| PyReminderManager.UpcomingIsWholeFilter | backend/actions/reminder_manager.py:71-73 | when the limit is not reached, the upcoming rows are exactly those rows |
| PyReminderManager.Missed | backend/actions/reminder_manager.py:106-121 | when the read succeeds, exactly today's uncompleted rows of the patient due before now, whatever their status; a failing read gives the empty list |
| PyReminderManager.MissedNotUpcoming | backend/actions/reminder_manager.py:71-117 | no row is both missed and upcoming |
| PyReminderManager.DeletedReminderIsMissed | backend/actions/reminder_manager.py:115-117 | a deleted reminder still counts as missed, although no status query returns it |
| PyReminderManager.EveningReminderMissedInAfternoon | backend/actions/reminder_manager.py:117 | "08:00 PM" sorts before "14:05" as a string, so an evening reminder counts as missed in the afternoon |
| PyReminderManager.UpdateWhere | backend/actions/reminder_manager.py:81-84 | only rows with the id change, each by the update |
| PyReminderManager.MarkCompleted | backend/actions/reminder_manager.py:75-89 | a successful update completes the rows with the id and says so; a failed one changes nothing |
| PyReminderManager.DeleteReminder | backend/actions/reminder_manager.py:91-104 | a successful update marks the rows deleted and says so; a failed one changes nothing |
| PyReminderManager.DeleteIsSoft | backend/actions/reminder_manager.py:97-99 | deletion keeps every row and changes only its status, and a deleted row no longer comes back from the status query |
| PyReminderManager.CompletedNotUpcoming | backend/actions/reminder_manager.py:81-84 | a completed reminder is never upcoming |
| ActivityExport.OrEmpty | src/components/caregiver/ActivityLog.jsx:81 | every falsy value becomes the empty string and every truthy one stays as it is |
| ActivityExport.Escape | src/components/caregiver/ActivityLog.jsx:66-72 | the export's `escape` (a definition; `EscapeCases`, `EscapeRoundTrip` and `QuotedWhenSpecial` state its properties) |
| ActivityExport.Cells | src/components/caregiver/ActivityLog.jsx:74-82 | the seven escaped cells in column order, a falsy confidence replaced by the empty string first (a definition; `ZeroConfidenceIsBlank` states a property) |
| ActivityExport.Line | src/components/caregiver/ActivityLog.jsx:73-83 | the cells joined with commas (a definition; `Lines` states its use) |
| ActivityExport.Double | src/components/caregiver/ActivityLog.jsx:70 | doubling never shortens a string and leaves a string without quotes alone |
| ActivityExport.UndoubleDouble | src/components/caregiver/ActivityLog.jsx:70 | collapsing doubled quotes undoes the doubling |
| ActivityExport.EscapeCases | src/components/caregiver/ActivityLog.jsx:66-72 | a nullish value is empty, a string with a quote, comma or newline is quoted with its quotes doubled, and any other string is kept |
| ActivityExport.EscapeRoundTrip | src/components/caregiver/ActivityLog.jsx:66-72 | reading an escaped field back gives the value's string |
| ActivityExport.QuotedWhenSpecial | src/components/caregiver/ActivityLog.jsx:69-71 | a field with a quote, comma or newline is enclosed in quotes |
| ActivityExport.ZeroConfidenceIsBlank | src/components/caregiver/ActivityLog.jsx:81 | a confidence of 0 is exported as an empty cell, like a missing one |
| ActivityExport.Lines | src/components/caregiver/ActivityLog.jsx:54-84 | the header, then one line per activity in order |
| ActivityExport.ExportCsv | src/components/caregiver/ActivityLog.jsx:53-85 | the export is the lines joined with newlines |

## Left out

- Rendering: the JSX markup, the panels the screen opens and closes, the brain game (which draws at random), webcam and canvas capture, toasts and speech synthesis are display effects with no state the engine reads back.
- The activity entries the patient screen posts through `api.logActivity` go to the server's feed over HTTP; they are display logging and are not modelled.
- The HTTP envelope of `handleRequest` (URL matching, `Response` objects, `readJson`, the artificial delay) is transport. The request branches outside the core (GET endpoints, reminder PUT and DELETE, unknown-face POST and DELETE, family add, mood logging, email configuration, the debug endpoint) are not part of this model.
- Random identifiers: `nextId` draws a random suffix; the model hands out `prefix_<serial>` from a counter, so ids are always fresh, where random ids could in principle collide.
- Timestamps from `Date.now` and `toLocale*` (`createdAt`, `capturedAt`, the event and email `time` fields) are not stored; completion and clock readings are parameters.
- Icons are not stored; the background and border colours of activity events are.
- FakeServer.Db.Regenerate: the final sort by `Date`-parsed time is not modelled, so the rebuilt schedule keeps reminder order (parsing locale date strings has no model here). Its mapping of time, frequency and status is.
- FakeServer.Face: `x` is a real number or absent; the JSON values the comparator would turn into `NaN` (strings, objects) are not modelled, and neither is floating-point rounding in the subtraction.
- BackendStore.Store.constructor: the empty tables are the starting point of the model; the Supabase client the managers are handed is created outside the code modelled here.
- FakeServer.Hash: a character is hashed by its Unicode scalar value, and `Db.HashStr` takes the first 500 characters; the source uses UTF-16 code units (`charCodeAt`, `slice(0, 500)`), so characters outside the Basic Multilingual Plane hash and slice differently. Data URLs are ASCII, where the two agree.
- FakeServer.FaceIndex: an image is a string or absent; the `typeof` checks against other JSON values are not modelled. `recognizeFaces` takes a sequence, so the `Array.isArray` check is not modelled either.
- Emotion.EstimateOf: the confidence is computed over exact reals, where the source computes in IEEE doubles and rounds with `toFixed(2)`; at a value a double holds just below a hundredth-halfway point the source rounds down where the model rounds up ("ok" scores 0.3, and 0.35 + 0.3 * 0.35 gives 0.45 there and 0.46 here). The stated bounds are whole hundredths and hold either way.
- Emotion.PredictEmotion: the same exact-real arithmetic and rounding as `EstimateOf`, which it computes.
- Emotion.Round2: rounds the exact real, not the nearest double, so a halfway case the double misses rounds up here.
- Emotion: the `tok in lex` lookup, which also sees `Object.prototype` names, is modelled as lookup in a finite map.
- Case mapping and whitespace are ASCII-only throughout (`toLowerCase`, `toUpperCase`, `trim`, `\s`, Python's `lower`, `strip` and `split`).
- VoicePipeline.Pipeline: the voice emotion and its confidence come from the client's signal analysis and are inputs, the confidence already a number. `predictEmotion` always returns an estimate object, so the string case is not modelled. The pending reminder's `createdAt` is not stored. The `recognized` and `recognizedList` reply fields are the identities the reply carries.
- PatientSession: the schedule refreshes that fetch `getScheduleToday` after a frequency update, a confirmation, a quick-complete, `refresh_schedule` and `ask_repeat`, and the `reminders:updated` reload, read the server; the model leaves the displayed list unchanged there, and changes it only in `completeScheduleItem`, where the refreshed list is an input. The reminder form fields that `ask_repeat` fills are not modelled.
- PatientSession: real timers and React scheduling are replaced by explicit, serialised events; a timer event carries the id and title it captured. The 30-second tick and the 60-second delay are not modelled as time, and state updates take effect at once, where React applies them at the next render.
- PyIntentClassifier.PredictWithConfidence: the transformer's answer is an input (`None` when the model raises); tokenising and inference are not modelled.
- PyEntityExtractor.ExtractAll: named-entity recognition with spaCy is not modelled; persons are always empty, as when spaCy is unavailable.
- PyEntityExtractor.ExtractDate: the dates for today, tomorrow and yesterday are parameters in place of `datetime.now()`.
- PyEmergencyHandler.Alerted: caregivers are an input in place of `get_caregivers`; an email is recorded per caregiver, and neither its body text nor SMTP failures (which the source only prints) are modelled.
- PyEmergencyHandler: `send_email_alert`'s message text, `log_alert`, `resolve_alert` and `get_active_alerts` are not part of this model.
- PyActionRouter.Handle: the face encoding is a flag saying whether one was given; numpy's truth test of an array (which raises for arrays of more than one element) is not modelled.
- PyActionRouter.Handle: the family distances, the recent interactions, the insert outcomes, whether the reminders read succeeds, the new reminder's id and today's date are inputs in `Env`.
- PyRelationshipCueing.Identified: the update of the member's `last_interaction` after a sighting is not modelled (the family table is an input); the face distances are inputs, and `days_ago` is an input in place of parsing `last_interaction`.
- PyRelationshipCueing: `add_family_member`, `get_family_members` and `get_recent_interactions` are database queries and are not part of this model.
- PyReminderManager.GetReminders: the `order('time')` of the query is not modelled; the result keeps table order; whether the query raises is the input `readOk`.
- PyReminderManager.Upcoming: it keeps table order for the same reason, and states membership rather than the exact list.
- PyReminderManager.CreateReminder: the id is a parameter in place of `uuid.uuid4()`, and the creation time a parameter in place of `datetime.now()`.
- ActivityExport: `String(v)` of a number is given with the number (its rendering and whether it is falsy), not computed; the `Blob`, file name and download are I/O.
