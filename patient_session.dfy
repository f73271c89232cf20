/** The patient screen's confirmation state machine (`src/components/PatientView.jsx`):
    the spoken-reply handler, the reminder announcement tick, the guarded follow-up
    timer, the quick-complete and ask-repeat branches of the assistant-response handler,
    and the optimistic completion of an "Upcoming" item. Every handler is one event
    on a `Session`; the server calls a handler makes are returned as `Call` values and
    whether each call resolves or throws is a parameter. Speech, toasts and the panels
    the handlers open are left out. */
module PatientSession {
  import opened Wrappers
  import opened Strings

  // ------------------------------------------------------------------ records

  /** What a reply may complete: `pendingConfirm` and `pendingConfirmRef.current`. */
  datatype Pending = Pending(id: Option<string>, title: string)

  /** A scheduled follow-up: its handle and the id and title it captured. */
  datatype Timer = Timer(handle: nat, id: Option<string>, title: string)

  /** A request to the server. */
  datatype Call =
    | UpdateFrequency(reminder: string, frequency: string)
    | CompleteById(id: string)
    | CompleteByTitle(title: string)

  /** A row of `GET /api/schedule/today`. */
  datatype Entry = Entry(id: Option<string>, time: string, task: string, status: string)

  /** A row of the "Upcoming" list. */
  datatype Item = Item(id: Option<string>, time: string, title: string, color: string)

  /** The reminder a `set_reminder` reply created. */
  datatype Created = Created(id: string, title: Option<string>)

  /** The assistant's reply as the response handler sees it. */
  datatype Response = Response(
    transcript: Option<string>, intent: Option<string>, uiAction: Option<string>,
    created: Option<Created>, recognized: bool, recognizedList: bool)

  /** Every field of a `Session`. */
  datatype State = State(
    pendingConfirm: Option<Pending>, pendingRef: Option<Pending>, awaiting: bool,
    timer: Option<Timer>, nextHandle: nat, pendingReminderId: Option<string>,
    announced: set<string>, completingKeys: seq<string>, scheduleItems: seq<Item>)

  // --------------------------------------------------------------- phrase lists

  /** `/\b(daily|every day|weekly|once a week|one[- ]?time|one time|once)\b/`, alternatives expanded in order. */
  const FrequencyWords: seq<string> :=
    ["daily", "every day", "weekly", "once a week", "one-time", "one time", "onetime", "one time", "once"]
  const DailyWords: seq<string> := ["daily", "every day"]
  const WeeklyWords: seq<string> := ["weekly", "once a week"]
  const OneTimeWords: seq<string> := ["one-time", "one time", "onetime", "once"]

  /** The follow-up mode's `yesRegex` and `noRegex`. */
  const YesWords: seq<string> := ["yes", "yep", "yeah", "ok", "okay"]
  const NoWords: seq<string> := ["no", "nope", "nah"]

  /** The open mode's broad `confirmRegex`, expanded. */
  const ConfirmWords: seq<string> := [
    "yes", "yep", "yeah", "done", "finished", "completed", "complete",
    "mark it", "mark this", "mark",
    "i have completed", "i have finished", "i have done", "i completed", "i finished", "i done",
    "i just did it", "i did it",
    "okay, mark it", "okay mark it", "okay", "ok, mark it", "ok mark it", "ok",
    "sure", "affirmative"]

  /** The response handler's quick-complete `confirmRegex`, expanded. */
  const QuickWords: seq<string> := [
    "mark it", "mark this",
    "i have completed", "i have finished", "i completed", "i finished",
    "i just did it", "i did it",
    "i'll do it", "i ll do it", "ill do it", "i will do it", "iwill do it",
    "yes", "done",
    "okay, mark it", "okay mark it", "okay", "ok, mark it", "ok mark it", "ok"]

  /** `/\bopen (?:the )?reminder(?: form)?\b/`, expanded. */
  const FormWords: seq<string> :=
    ["open the reminder form", "open the reminder", "open reminder form", "open reminder"]

  const RepeatPrompt := "Should this repeat daily, weekly, or be one-time?"

  /** The yes/no question a follow-up timer asks. */
  function FollowUpPrompt(title: string): string {
    "Would you like me to mark " + title + " as complete? Please say yes or no."
  }

  /** The frequency a reply names: the leftmost frequency phrase, mapped to the
      server's frequency names. */
  function FrequencyOf(lower: string): (r: Option<string>)
    ensures r.Some? <==> HasBounded(lower, FrequencyWords)
    ensures r == Some("Daily") ==> HasBounded(lower, DailyWords)
    ensures r == Some("Weekly") ==> HasBounded(lower, WeeklyWords)
    ensures r.Some? && r != Some("Daily") && r != Some("Weekly") ==>
      r == Some("One-time") && HasBounded(lower, OneTimeWords)
  {
    match FirstBounded(lower, FrequencyWords)
    case None => None
    case Some(k) =>
      if k < 2 then
        assert HasBounded(lower, DailyWords) by {
          var i :| 0 <= i <= |lower| && BoundedAt(lower, i, FrequencyWords[k]);
          BoundedWitness(lower, DailyWords, k, i);
        }
        Some("Daily")
      else if k < 4 then
        assert HasBounded(lower, WeeklyWords) by {
          var i :| 0 <= i <= |lower| && BoundedAt(lower, i, FrequencyWords[k]);
          BoundedWitness(lower, WeeklyWords, k - 2, i);
        }
        Some("Weekly")
      else
        assert HasBounded(lower, OneTimeWords) by {
          var i :| 0 <= i <= |lower| && BoundedAt(lower, i, FrequencyWords[k]);
          var j := if k == 8 then 3 else if k == 7 then 1 else k - 4;
          BoundedWitness(lower, OneTimeWords, j, i);
        }
        Some("One-time")
  }

  /** The completion request for a pending item: by id when it has one, else by title. */
  function ConfirmCall(p: Pending): (r: Call)
    ensures r.CompleteById? <==> Truthy(p.id)
    ensures r.CompleteById? ==> r.id == p.id.value
    ensures r.CompleteByTitle? ==> r.title == p.title
  {
    if Truthy(p.id) then CompleteById(p.id.value) else CompleteByTitle(p.title)
  }

  /** Every yes word of the follow-up mode is also a confirmation of the open mode. */
  lemma {:induction false} YesIsConfirmation(s: string)
    requires HasBounded(s, YesWords)
    ensures HasBounded(s, ConfirmWords)
  {
    var k, i :| 0 <= k < |YesWords| && 0 <= i <= |s| && BoundedAt(s, i, YesWords[k]);
    var j := if k < 3 then k else if k == 3 then 23 else 20;
    assert ConfirmWords[j] == YesWords[k];
    BoundedWitness(s, ConfirmWords, j, i);
  }

  /** A denial that mentions the chore ("no, I have not done it") confirms it in the open mode. */
  lemma {:induction false} DenialCanConfirm()
    ensures HasBounded("no, i have not done it", ConfirmWords)
  {
    assert ConfirmWords[3] == "done";
    assert "no, i have not done it"[15..19] == "done";
    BoundedWitness("no, i have not done it", ConfirmWords, 3, 15);
  }

  /** A promise ("I'll do it") counts as having done it in the quick-complete check. */
  lemma {:induction false} PromiseCompletes()
    ensures HasBounded("i'll do it", QuickWords)
  {
    assert QuickWords[8] == "i'll do it";
    BoundedWitness("i'll do it", QuickWords, 8, 0);
  }

  // ------------------------------------------------------------ a spoken reply

  /** What a handler reports, the calls it made and the session afterwards. */
  datatype Outcome = Outcome(handled: bool, calls: seq<Call>, next: State)

  /** After the frequency step: in yes/no mode only yes (checked first, and only with
      a pending item) and no count; otherwise a broad confirmation completes the
      pending item. A completion that throws ends the handler with `false`. */
  function Answer(st: State, lower: string, completeOk: bool): Outcome {
    if st.awaiting then
      if HasBounded(lower, YesWords) && st.pendingConfirm.Some? then
        var c := [ConfirmCall(st.pendingConfirm.value)];
        if completeOk then Outcome(true, c, st.(pendingConfirm := None, pendingRef := None, timer := None, awaiting := false))
        else Outcome(false, c, st)
      else if HasBounded(lower, NoWords) then Outcome(true, [], st.(awaiting := false, pendingRef := None, timer := None))
      else Outcome(false, [], st)
    else if st.pendingConfirm.Some? && HasBounded(lower, ConfirmWords) then
      var c := [ConfirmCall(st.pendingConfirm.value)];
      if completeOk then Outcome(true, c, st.(pendingConfirm := None)) else Outcome(false, c, st)
    else Outcome(false, [], st)
  }

  /** `handleUserSpeech(text)`: nothing for an empty reply; otherwise cancel the
      follow-up timer, try the frequency of a voice-created reminder (whose id is
      cleared only when the update resolves), then answer the pending item. */
  function Hear(st: State, text: string, updateOk: bool, completeOk: bool): Outcome {
    if text == "" then Outcome(false, [], st)
    else
      var st1 := st.(timer := None);
      var freq := FrequencyOf(Lower(text));
      if freq.Some? && Truthy(st.pendingReminderId) then
        var u := [UpdateFrequency(st.pendingReminderId.value, freq.value)];
        if updateOk then Outcome(true, u, st1.(pendingReminderId := None))
        else var a := Answer(st1, Lower(text), completeOk); a.(calls := u + a.calls)
      else Answer(st1, Lower(text), completeOk)
  }

  /** Every non-empty reply cancels the follow-up timer; an empty one changes nothing. */
  lemma HearCancelsTimer(st: State, text: string, updateOk: bool, completeOk: bool)
    ensures text != "" ==> Hear(st, text, updateOk, completeOk).next.timer.None?
    ensures text == "" ==> Hear(st, text, updateOk, completeOk) == Outcome(false, [], st)
  {
  }

  /** The frequency target survives a failed update and is cleared by a successful one. */
  lemma FrequencyTargetClearedOnlyOnSuccess(st: State, text: string, updateOk: bool, completeOk: bool)
    requires text != "" && Truthy(st.pendingReminderId) && HasBounded(Lower(text), FrequencyWords)
    ensures var o := Hear(st, text, updateOk, completeOk);
      o.calls[0] == UpdateFrequency(st.pendingReminderId.value, FrequencyOf(Lower(text)).value)
      && (updateOk ==> o.handled && o.next == st.(timer := None, pendingReminderId := None))
      && (!updateOk ==> o.next.pendingReminderId == st.pendingReminderId)
  {
  }

  /** In yes/no mode, a reply with both a yes and a no word completes the pending item. */
  lemma YesBeforeNo(st: State, lower: string)
    requires st.awaiting && st.pendingConfirm.Some?
    requires HasBounded(lower, YesWords) && HasBounded(lower, NoWords)
    ensures Answer(st, lower, true) ==
      Outcome(true, [ConfirmCall(st.pendingConfirm.value)],
              st.(pendingConfirm := None, pendingRef := None, timer := None, awaiting := false))
  {
  }

  /** In yes/no mode, "no" drops the pending ref, the timer and the mode, but keeps
      `pendingConfirm`, and completes nothing. */
  lemma NoKeepsPendingConfirm(st: State, lower: string, completeOk: bool)
    requires st.awaiting && HasBounded(lower, NoWords)
    requires !(HasBounded(lower, YesWords) && st.pendingConfirm.Some?)
    ensures Answer(st, lower, completeOk) == Outcome(true, [], st.(awaiting := false, pendingRef := None, timer := None))
  {
  }

  /** In yes/no mode, any other reply completes nothing and changes nothing. */
  lemma AwaitingIgnoresOtherReplies(st: State, lower: string, completeOk: bool)
    requires st.awaiting && !HasBounded(lower, YesWords) && !HasBounded(lower, NoWords)
    ensures Answer(st, lower, completeOk) == Outcome(false, [], st)
  {
  }

  /** Only the broad confirmation phrases of the open mode complete, and only a
      pending item; the ref and the timer are left as they were. */
  lemma OpenModeConfirms(st: State, lower: string)
    requires !st.awaiting && st.pendingConfirm.Some? && HasBounded(lower, ConfirmWords)
    ensures Answer(st, lower, true) == Outcome(true, [ConfirmCall(st.pendingConfirm.value)], st.(pendingConfirm := None))
    ensures Answer(st, lower, false) == Outcome(false, [ConfirmCall(st.pendingConfirm.value)], st)
  {
  }

  // ------------------------------------------------------------ the tick's plan

  /** The de-duplication key of a schedule row: `${id || task}@${time}`. */
  function Key(e: Entry): string { OrElse(e.id, e.task) + "@" + e.time }

  /** A row is announced when its time is now, its key was not announced before the
      tick started and it is not completed. */
  predicate Due(e: Entry, now: string, seen: set<string>) {
    e.time == now && Key(e) !in seen && e.status != "completed"
  }

  /** The rows one tick announces, in schedule order. */
  function DueEntries(today: seq<Entry>, now: string, seen: set<string>): (r: seq<Entry>)
    ensures |r| <= |today|
    ensures forall k :: 0 <= k < |r| ==> Due(r[k], now, seen) && r[k] in today
    ensures forall e :: e in today && Due(e, now, seen) ==> e in r
  {
    if today == [] then []
    else
      var last := today[|today| - 1];
      var before := DueEntries(today[..|today| - 1], now, seen);
      assert today == today[..|today| - 1] + [last];
      if Due(last, now, seen) then before + [last] else before
  }

  function KeySet(d: seq<Entry>): set<string> { set e | e in d :: Key(e) }

  function Announcement(e: Entry): string { "It's " + e.time + ". " + e.task + "." }

  function Announcements(d: seq<Entry>): (r: seq<string>)
    ensures |r| == |d| && forall k :: 0 <= k < |d| ==> r[k] == Announcement(d[k])
  {
    seq(|d|, k requires 0 <= k < |d| => Announcement(d[k]))
  }

  /** A second tick over the same rows, after the first tick's keys were recorded,
      announces nothing: each key is announced at most once. */
  lemma {:induction false} TickAnnouncesOnce(today: seq<Entry>, now: string, seen: set<string>)
    ensures DueEntries(today, now, seen + KeySet(DueEntries(today, now, seen))) == []
  {
    var d := DueEntries(today, now, seen);
    forall e | e in today ensures !Due(e, now, seen + KeySet(d)) {
      if Due(e, now, seen) {
        assert Key(e) in KeySet(d);
      }
    }
    NothingDue(today, now, seen + KeySet(d));
  }

  lemma {:induction false} NothingDue(today: seq<Entry>, now: string, seen: set<string>)
    requires forall e :: e in today ==> !Due(e, now, seen)
    ensures DueEntries(today, now, seen) == []
  {
    if today != [] {
      NothingDue(today[..|today| - 1], now, seen);
    }
  }

  /** The state after a tick that announced `d` (non-empty): every key of `d` is
      recorded, the last announced row is pending and owns the newest timer. */
  function AfterTick(st: State, d: seq<Entry>): State
    requires d != []
  {
    var last := d[|d| - 1];
    var p := Pending(last.id, last.task);
    st.(announced := st.announced + KeySet(d), pendingConfirm := Some(p), pendingRef := Some(p),
        timer := Some(Timer(st.nextHandle + |d| - 1, last.id, last.task)),
        nextHandle := st.nextHandle + |d|)
  }

  /** One announcement: record the key, make the row pending, replace the timer. */
  function AnnounceOne(st: State, e: Entry): State {
    var p := Pending(e.id, e.task);
    st.(announced := st.announced + {Key(e)}, pendingConfirm := Some(p), pendingRef := Some(p),
        timer := Some(Timer(st.nextHandle, e.id, e.task)), nextHandle := st.nextHandle + 1)
  }

  /** Announcing rows one at a time reaches the state `AfterTick` describes. */
  lemma {:induction false} AfterTickStep(st: State, d: seq<Entry>, e: Entry)
    ensures d == [] ==> AfterTick(st, [e]) == AnnounceOne(st, e)
    ensures d != [] ==> AfterTick(st, d + [e]) == AnnounceOne(AfterTick(st, d), e)
  {
    assert KeySet([e]) == {Key(e)};
    assert KeySet(d + [e]) == KeySet(d) + {Key(e)} by {
      forall x | x in KeySet(d + [e]) ensures x in KeySet(d) + {Key(e)} {
        var y :| y in d + [e] && x == Key(y);
      }
    }
  }

  /** The state after announcing the rows `d`, none when `d` is empty. */
  function Ticked(st: State, d: seq<Entry>): State {
    if d == [] then st else AfterTick(st, d)
  }

  lemma TickedStep(st: State, d: seq<Entry>, e: Entry)
    ensures Ticked(st, d + [e]) == AnnounceOne(Ticked(st, d), e)
  {
    AfterTickStep(st, d, e);
    assert d + [e] != [];
  }

  lemma AnnouncementsStep(d: seq<Entry>, e: Entry)
    ensures Announcements(d + [e]) == Announcements(d) + [Announcement(e)]
  {
    assert forall k :: 0 <= k < |d| ==> (d + [e])[k] == d[k];
  }

  // ---------------------------------------------------------- the Upcoming list

  /** `keys.filter(x => x !== key)`. */
  function Without(keys: seq<string>, key: string): (r: seq<string>)
    ensures key !in r
    ensures forall x :: x in r <==> x in keys && x != key
    ensures |r| <= |keys|
  {
    if keys == [] then []
    else (if keys[0] == key then [] else [keys[0]]) + Without(keys[1..], key)
  }

  /** `items.filter(i => !(i.time === t.time && i.title === t.title))`. */
  function Remaining(items: seq<Item>, t: Item): (r: seq<Item>)
    ensures forall x :: x in r <==> x in items && !(x.time == t.time && x.title == t.title)
    ensures |r| <= |items|
  {
    if items == [] then []
    else
      (if items[0].time == t.time && items[0].title == t.title then [] else [items[0]])
      + Remaining(items[1..], t)
  }

  /** The "Upcoming" list built from today's schedule: open rows only, blue. */
  function Upcoming(today: seq<Entry>): (r: seq<Item>)
    ensures |r| <= |today|
    ensures forall x :: x in r ==>
      exists e :: e in today && e.status != "completed" && x == Item(e.id, e.time, e.task, "#3B82F6")
    ensures forall e :: e in today && e.status != "completed" ==> Item(e.id, e.time, e.task, "#3B82F6") in r
  {
    if today == [] then []
    else
      (if today[0].status != "completed" then [Item(today[0].id, today[0].time, today[0].task, "#3B82F6")] else [])
      + Upcoming(today[1..])
  }

  /** The list is built entry by entry in schedule order: the items of a concatenation
      are the items of its parts. */
  lemma {:induction false} UpcomingConcat(a: seq<Entry>, b: seq<Entry>)
    ensures Upcoming(a + b) == Upcoming(a) + Upcoming(b)
    decreases |a|
  {
    if a == [] {
      assert a + b == b;
    } else {
      assert (a + b)[1..] == a[1..] + b;
      assert (a + b)[0] == a[0];
      UpcomingConcat(a[1..], b);
    }
  }

  /** One item per open entry and none per completed one. */
  lemma UpcomingOne(e: Entry)
    ensures e.status != "completed" ==> Upcoming([e]) == [Item(e.id, e.time, e.task, "#3B82F6")]
    ensures e.status == "completed" ==> Upcoming([e]) == []
  {
    assert [e][1..] == [];
  }

  /** The in-flight key of an item: its id, else `${time}@${title}`. */
  function ItemKey(t: Item): string {
    if Truthy(t.id) then t.id.value else t.time + "@" + t.title
  }

  // ------------------------------------------------------- the response handler

  /** Which branch of the response handler runs after the quick-complete check. */
  datatype Branch = Panel | Refresh | ReminderForm | AskRepeat | Identity | Unhandled

  /** `res.uiAction || res.intent`. */
  function Action(res: Response): Option<string> { OrElseOpt(res.uiAction, res.intent) }

  /** The lower-cased transcript. */
  function HeardText(res: Response): string { Lower(OrElse(res.transcript, "")) }

  function BranchOf(res: Response): (r: Branch)
    ensures r == AskRepeat <==>
      Action(res) == Some("ask_repeat") && !HasBounded(HeardText(res), FormWords)
    ensures r == ReminderForm <==>
      HasBounded(HeardText(res), FormWords)
      && Action(res) !in {Some("open_photos"), Some("play_brain_game"), Some("open_upcoming"), Some("refresh_schedule")}
    ensures r in {Refresh, Unhandled} <==>
      Action(res) == Some("refresh_schedule")
      || (Action(res) !in {Some("open_photos"), Some("play_brain_game"), Some("open_upcoming"),
                           Some("ask_repeat"), Some("show_identity"), Some("show_identities")}
          && !HasBounded(HeardText(res), FormWords) && !res.recognized && !res.recognizedList)
  {
    var a := Action(res);
    if a in {Some("open_photos"), Some("play_brain_game"), Some("open_upcoming")} then Panel
    else if a == Some("refresh_schedule") then Refresh
    else if HasBounded(HeardText(res), FormWords) then ReminderForm
    else if a == Some("ask_repeat") then AskRepeat
    else if a == Some("show_identity") || res.recognized || a == Some("show_identities") || res.recognizedList then Identity
    else Unhandled
  }

  /** The state after `ask_repeat` with a created reminder: its id is the frequency
      target, it is pending, and a fresh timer captured it. */
  function AfterAskRepeat(st: State, c: Created): State {
    var p := Pending(Some(c.id), OrElse(c.title, ""));
    st.(pendingReminderId := Some(c.id), pendingConfirm := Some(p), pendingRef := Some(p),
        timer := Some(Timer(st.nextHandle, Some(c.id), OrElse(c.title, ""))),
        nextHandle := st.nextHandle + 1)
  }

  // ------------------------------------------------------------------ session

  class Session {
    var pendingConfirm: Option<Pending>
    var pendingRef: Option<Pending>
    var awaiting: bool
    var timer: Option<Timer>
    var nextHandle: nat
    var pendingReminderId: Option<string>
    var announced: set<string>
    var completingKeys: seq<string>
    var scheduleItems: seq<Item>

    function View(): State reads this {
      State(pendingConfirm, pendingRef, awaiting, timer, nextHandle, pendingReminderId,
            announced, completingKeys, scheduleItems)
    }

    constructor()
      ensures View() == State(None, None, false, None, 0, None, {}, [], [])
    {
      pendingConfirm, pendingRef, awaiting, timer, nextHandle := None, None, false, None, 0;
      pendingReminderId, announced, completingKeys, scheduleItems := None, {}, [], [];
    }

    /** Clear any follow-up timer and start a new one that captured `id` and `title`. */
    method ReplaceTimer(id: Option<string>, title: string)
      modifies this
      ensures View() == old(View()).(timer := Some(Timer(old(nextHandle), id, title)),
                                     nextHandle := old(nextHandle) + 1)
    {
      timer := None;
      timer := Some(Timer(nextHandle, id, title));
      nextHandle := nextHandle + 1;
    }

    /** `handleUserSpeech`: a reply heard while a reminder may be pending; `updateOk`
        and `completeOk` say whether the frequency update and the completion resolve. */
    method HandleUserSpeech(text: string, updateOk: bool, completeOk: bool) returns (handled: bool, calls: seq<Call>)
      modifies this
      ensures Outcome(handled, calls, View()) == Hear(old(View()), text, updateOk, completeOk)
    {
      if text == "" {
        return false, [];
      }
      timer := None;
      var lower := Lower(text);
      var freq := FrequencyOf(lower);
      var update: seq<Call> := [];
      if freq.Some? && Truthy(pendingReminderId) {
        update := [UpdateFrequency(pendingReminderId.value, freq.value)];
        if updateOk {
          pendingReminderId := None;
          return true, update;
        }
      }
      handled, calls := AnswerPending(lower, completeOk);
      calls := update + calls;
    }

    /** The rest of `handleUserSpeech`: the yes/no mode, then the open mode. */
    method AnswerPending(lower: string, completeOk: bool) returns (handled: bool, calls: seq<Call>)
      modifies this
      ensures Outcome(handled, calls, View()) == Answer(old(View()), lower, completeOk)
    {
      handled, calls := false, [];
      if awaiting {
        if HasBounded(lower, YesWords) && pendingConfirm.Some? {
          calls := [ConfirmCall(pendingConfirm.value)];
          if !completeOk {
            return;
          }
          pendingConfirm := None;
          pendingRef := None;
          timer := None;
          awaiting := false;
          handled := true;
          return;
        }
        if HasBounded(lower, NoWords) {
          awaiting := false;
          pendingRef := None;
          timer := None;
          handled := true;
        }
        return;
      }
      if pendingConfirm.Some? && HasBounded(lower, ConfirmWords) {
        calls := [ConfirmCall(pendingConfirm.value)];
        if completeOk {
          pendingConfirm := None;
          handled := true;
        }
      }
    }

    /** The 30-second tick: announce every open row of today's schedule whose time is
        `now` and whose key this session had not announced when the tick began. */
    method Tick(today: seq<Entry>, now: string) returns (spoken: seq<string>)
      modifies this
      ensures var d := DueEntries(today, now, old(announced));
        spoken == Announcements(d)
        && (d == [] ==> View() == old(View()))
        && (d != [] ==> View() == AfterTick(old(View()), d))
    {
      var seen := announced;
      ghost var before := View();
      spoken := [];
      var i := 0;
      while i < |today|
        invariant 0 <= i <= |today|
        invariant seen == before.announced
        invariant spoken == Announcements(DueEntries(today[..i], now, seen))
        invariant View() == Ticked(before, DueEntries(today[..i], now, seen))
      {
        var s := today[i];
        ghost var d := DueEntries(today[..i], now, seen);
        assert today[..i + 1][..i] == today[..i];
        assert DueEntries(today[..i + 1], now, seen) == if Due(s, now, seen) then d + [s] else d;
        if s.time == now && Key(s) !in seen && s.status != "completed" {
          Announce(s);
          spoken := spoken + [Announcement(s)];
          TickedStep(before, d, s);
          AnnouncementsStep(d, s);
        }
        i := i + 1;
      }
      assert today[..|today|] == today;
    }

    method Announce(e: Entry)
      modifies this
      ensures View() == AnnounceOne(old(View()), e)
    {
      announced := announced + {Key(e)};
      var pc := Pending(e.id, e.task);
      pendingConfirm := Some(pc);
      pendingRef := Some(pc);
      ReplaceTimer(e.id, e.task);
    }

    /** A follow-up timer firing with what it captured. The screen clears a timer when
        it replaces or cancels it, so only the current one fires; the model deliberately
        lets any captured timer fire, which over-approximates the source. It does
        nothing unless the tracked pending item has its id, and otherwise switches to
        yes/no mode and asks once. */
    method TimerFires(fired: Timer) returns (prompt: Option<string>)
      modifies this
      ensures old(pendingRef).None? || old(pendingRef).value.id != fired.id ==>
        prompt.None? && View() == old(View())
      ensures old(pendingRef).Some? && old(pendingRef).value.id == fired.id ==>
        prompt == Some(FollowUpPrompt(fired.title)) && View() == old(View()).(awaiting := true)
    {
      if pendingRef.None? || pendingRef.value.id != fired.id {
        return None;
      }
      awaiting := true;
      prompt := Some(FollowUpPrompt(fired.title));
    }

    /** The response handler's quick-complete check: with a pending item, a
        `complete_reminder` action or a short confirmation completes it. A failed
        completion is logged and handling goes on. */
    method QuickComplete(res: Response, completeOk: bool) returns (done: bool, calls: seq<Call>)
      modifies this
      ensures var quick := old(pendingConfirm).Some?
        && (Action(res) == Some("complete_reminder") || HasBounded(HeardText(res), QuickWords));
        (quick ==> calls == [ConfirmCall(old(pendingConfirm).value)])
        && (!quick ==> calls == [] && !done && View() == old(View()))
        && (quick && completeOk ==> done && View() == old(View()).(timer := None, pendingConfirm := None))
        && (quick && !completeOk ==> !done && View() == old(View()).(timer := None))
    {
      done, calls := false, [];
      if pendingConfirm.Some? && (Action(res) == Some("complete_reminder") || HasBounded(HeardText(res), QuickWords)) {
        timer := None;
        calls := [ConfirmCall(pendingConfirm.value)];
        if completeOk {
          pendingConfirm := None;
          done := true;
        }
      }
    }

    /** The rest of the response handler: panels, refresh and the identity views
        change only the screen; `ask_repeat` makes the created reminder the frequency
        target and the pending item and replaces the timer. `None` is the handler's
        `undefined`. */
    method Dispatch(res: Response) returns (handled: Option<bool>, prompt: Option<string>)
      modifies this
      ensures handled == (if BranchOf(res) in {Refresh, Unhandled} then None else Some(true))
      ensures BranchOf(res) == AskRepeat && res.created.Some? ==>
        prompt == Some(RepeatPrompt) && View() == AfterAskRepeat(old(View()), res.created.value)
      ensures !(BranchOf(res) == AskRepeat && res.created.Some?) ==> prompt.None? && View() == old(View())
    {
      prompt := None;
      var b := BranchOf(res);
      if b == AskRepeat && res.created.Some? {
        var c := res.created.value;
        pendingReminderId := Some(c.id);
        var pc2 := Pending(Some(c.id), OrElse(c.title, ""));
        pendingConfirm := Some(pc2);
        pendingRef := Some(pc2);
        prompt := Some(RepeatPrompt);
        ReplaceTimer(Some(c.id), OrElse(c.title, ""));
      }
      handled := if b in {Refresh, Unhandled} then None else Some(true);
    }

    /** `onResponse`: the quick-complete check, then, unless it completed, the branches. */
    method OnResponse(res: Response, completeOk: bool) returns (handled: Option<bool>, calls: seq<Call>, prompt: Option<string>)
      modifies this
      ensures var quick := old(pendingConfirm).Some?
        && (Action(res) == Some("complete_reminder") || HasBounded(HeardText(res), QuickWords));
        var st := if quick then old(View()).(timer := None) else old(View());
        (calls == if quick then [ConfirmCall(old(pendingConfirm).value)] else [])
        && (quick && completeOk ==>
              handled == Some(true) && prompt.None? && View() == st.(pendingConfirm := None))
        && (!(quick && completeOk) ==>
              handled == (if BranchOf(res) in {Refresh, Unhandled} then None else Some(true))
              && (BranchOf(res) == AskRepeat && res.created.Some? ==>
                    prompt == Some(RepeatPrompt) && View() == AfterAskRepeat(st, res.created.value))
              && (!(BranchOf(res) == AskRepeat && res.created.Some?) ==> prompt.None? && View() == st))
    {
      var done;
      done, calls := QuickComplete(res, completeOk);
      if done {
        return Some(true), calls, None;
      }
      handled, prompt := Dispatch(res);
    }

    /** Completing an "Upcoming" item by hand: mark it in flight, drop it (and every
        item with its time and title) at once, call the server; on failure put it back
        in front, green and without its id; always clear its in-flight key; on
        success rebuild the list from `today`, the schedule the server then returns. */
    method CompleteScheduleItem(item: Item, apiOk: bool, today: seq<Entry>) returns (calls: seq<Call>)
      modifies this
      ensures calls == [if Truthy(item.id) then CompleteById(item.id.value) else CompleteByTitle(item.title)]
      ensures ItemKey(item) !in completingKeys
      ensures completingKeys == Without(old(completingKeys), ItemKey(item))
      ensures apiOk ==> scheduleItems == Upcoming(today)
      ensures !apiOk ==> scheduleItems == [Item(None, item.time, item.title, "#10B981")] + Remaining(old(scheduleItems), item)
      ensures View() == old(View()).(completingKeys := completingKeys, scheduleItems := scheduleItems)
    {
      calls := [if Truthy(item.id) then CompleteById(item.id.value) else CompleteByTitle(item.title)];
      var key := ItemKey(item);
      completingKeys := completingKeys + [key];
      WithoutAppended(old(completingKeys), key);
      scheduleItems := Remaining(scheduleItems, item);
      if !apiOk {
        scheduleItems := [Item(None, item.time, item.title, "#10B981")] + scheduleItems;
        completingKeys := Without(completingKeys, key);
        return;
      }
      completingKeys := Without(completingKeys, key);
      scheduleItems := Upcoming(today);
    }
  }

  /** Filtering a key out after appending it is filtering it out of the original list. */
  lemma {:induction false} WithoutAppended(keys: seq<string>, key: string)
    ensures Without(keys + [key], key) == Without(keys, key)
  {
    if keys == [] {
      assert Without([key], key) == [] + Without([], key);
    } else {
      assert (keys + [key])[1..] == keys[1..] + [key];
      WithoutAppended(keys[1..], key);
    }
  }

  /** After `ask_repeat`, answering the repeat question with "yes" (rather than a
      frequency) completes the reminder just created. */
  lemma {:induction false} YesToRepeatQuestionCompletes(st: State, c: Created, updateOk: bool)
    requires !st.awaiting && c.id != ""
    ensures var o := Hear(AfterAskRepeat(st, c), "yes", updateOk, true);
      o.handled && o.calls == [CompleteById(c.id)]
      && o.next.pendingConfirm.None? && o.next.pendingReminderId == Some(c.id)
  {
    assert Lower("yes") == "yes";
    assert !HasBounded("yes", FrequencyWords);
    BoundedWitness("yes", ConfirmWords, 0, 0);
  }
}
