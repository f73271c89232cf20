/** The Python backend's reminder manager (`backend/actions/reminder_manager.py`):
    creating a reminder from extracted entities, the active, upcoming and missed
    queries, and the completion and soft-delete updates of the `reminders` table.
    The uuid, the clock ("today" as `%Y-%m-%d`, "now" as `%H:%M` or an ISO stamp) and
    whether a store call raises are inputs. */
module PyReminderManager {
  import opened Wrappers
  import opened Strings
  import opened BackendStore
  import opened PyEntityExtractor

  const NeedTime := "I need a time for the reminder. When should I remind you?"
  const CreateFailed := "I had trouble creating that reminder. Please try again."
  const MarkedMessage := "Reminder marked as completed."
  const MarkFailed := "Could not mark reminder as completed."
  const DeletedMessage := "Reminder deleted."
  const DeleteFailed := "Could not delete reminder."

  // ---------------------------------------------------------------- creating

  /** The record `create_reminder` inserts: `task` defaults to "Task" and `date` to
      today only when the key is missing; a present `None` is stored as `None`. */
  function NewReminder(id: string, patientId: string, entities: EntityDict, today: string, now: string): (r: ReminderRow)
    requires Truthy(SlotValue(entities.time))
    ensures r.id == id && r.patientId == patientId && r.createdAt == now
    ensures r.task == SlotOr(entities.task, "Task") && r.date == SlotOr(entities.date, today)
    ensures Some(r.time) == SlotValue(entities.time) && r.time != ""
    ensures !r.completed && r.status == "active" && r.completedAt.None?
  {
    ReminderRow(id, patientId, SlotOr(entities.task, "Task"), entities.time.s, SlotOr(entities.date, today),
                false, now, "active", None)
  }

  /** "Reminder set for {task} at {time} on {date}.", with Python's rendering of `None`. */
  function SetMessage(r: ReminderRow): string {
    "Reminder set for " + PyStr(r.task) + " at " + r.time + " on " + PyStr(r.date) + "."
  }

  /** `create_reminder` on the tables: the created row (if any), the response, and the
      tables afterwards. */
  function Created(t: Tables, entities: EntityDict, patientId: string, id: string, today: string, now: string,
                   insertOk: bool): (r: (Option<ReminderRow>, string, Tables))
    ensures !Truthy(SlotValue(entities.time)) ==> r == (None, NeedTime, t)
    ensures Truthy(SlotValue(entities.time)) && !insertOk ==> r == (None, CreateFailed, t)
    ensures Truthy(SlotValue(entities.time)) && insertOk ==>
      r.0.Some? && r.0.value == NewReminder(id, patientId, entities, today, now)
        && r.1 == SetMessage(r.0.value) && r.2 == t.(reminders := t.reminders + [r.0.value])
  {
    if !Truthy(SlotValue(entities.time)) then (None, NeedTime, t)
    else if !insertOk then (None, CreateFailed, t)
    else
      var row := NewReminder(id, patientId, entities, today, now);
      (Some(row), SetMessage(row), t.(reminders := t.reminders + [row]))
  }

  method CreateReminder(db: Store, entities: EntityDict, patientId: string, id: string, today: string,
                        now: string, insertOk: bool) returns (row: Option<ReminderRow>, response: string)
    modifies db
    ensures (row, response, db.View()) == Created(old(db.View()), entities, patientId, id, today, now, insertOk)
  {
    if !Truthy(SlotValue(entities.time)) {
      return None, NeedTime;
    }
    if !insertOk {
      return None, CreateFailed;
    }
    var r := NewReminder(id, patientId, entities, today, now);
    db.reminders := db.reminders + [r];
    return Some(r), SetMessage(r);
  }

  /** `extract_all` always fills the `date` key, so the "today" default never applies:
      a reminder whose text names no date is set "on None". */
  lemma UndatedReminderIsOnNone(t: Tables, e: Extracted, patientId: string, id: string, today: string,
                                now: string)
    requires Truthy(e.time) && e.date.None?
    ensures Created(t, AsDict(e), patientId, id, today, now, true).1
      == "Reminder set for " + e.task + " at " + e.time.value + " on None."
  {
  }

  // ---------------------------------------------------------------- queries

  /** Order-preserving filter: a list comprehension `[r for r in rows if keep(r)]`. */
  function Select(rows: seq<ReminderRow>, keep: ReminderRow -> bool): (r: seq<ReminderRow>)
    ensures |r| <= |rows|
    ensures forall x :: x in r <==> x in rows && keep(x)
  {
    if |rows| == 0 then []
    else Select(rows[..|rows| - 1], keep) + (if keep(rows[|rows| - 1]) then [rows[|rows| - 1]] else [])
  }

  lemma {:induction false} SelectConcat(a: seq<ReminderRow>, b: seq<ReminderRow>, keep: ReminderRow -> bool)
    ensures Select(a + b, keep) == Select(a, keep) + Select(b, keep)
    decreases |b|
  {
    if |b| == 0 {
      assert a + b == a;
    } else {
      assert (a + b)[..|a + b| - 1] == a + b[..|b| - 1];
      SelectConcat(a, b[..|b| - 1], keep);
    }
  }

  /** The filter of `get_reminders`: the patient's active rows, of `date` when it is given. */
  predicate ActiveFor(r: ReminderRow, patientId: string, date: Option<string>) {
    r.patientId == patientId && (Truthy(date) ==> r.date == date) && r.status == "active"
  }

  /** `get_reminders`; `readOk` is whether the query succeeds, and a failing query
      answers with the empty list. */
  function GetReminders(t: Tables, patientId: string, date: Option<string>, readOk: bool): (r: seq<ReminderRow>)
    ensures readOk ==> forall x :: x in r <==> x in t.reminders && ActiveFor(x, patientId, date)
    ensures !readOk ==> r == []
    ensures forall x :: x in r ==> x in t.reminders && x.status == "active"
  {
    if readOk then Select(t.reminders, x => ActiveFor(x, patientId, date)) else []
  }

  function Take(rows: seq<ReminderRow>, limit: nat): (r: seq<ReminderRow>)
    ensures |r| <= limit && r <= rows
    ensures |rows| <= limit ==> r == rows
  {
    if |rows| <= limit then rows else rows[..limit]
  }

  /** Not yet due by `now` (Python string order) and not completed. */
  predicate StillDue(r: ReminderRow, now: string) {
    !StrLess(r.time, now) && !r.completed
  }

  /** `get_upcoming_reminders`: today's active rows due at or after `now` (compared as
      strings) and not completed, at most `limit` of them; nothing when the read fails. */
  function Upcoming(t: Tables, patientId: string, today: string, now: string, limit: nat, readOk: bool): (r: seq<ReminderRow>)
    ensures |r| <= limit
    ensures forall x :: x in r ==> x in t.reminders && ActiveFor(x, patientId, Some(today))
    ensures forall x :: x in r ==> StillDue(x, now)
    ensures !readOk ==> r == []
  {
    Take(Select(GetReminders(t, patientId, Some(today), readOk), x => StillDue(x, now)), limit)
  }

  /** When fewer than `limit` qualify, the upcoming list is exactly those, in table order. */
  lemma UpcomingIsWholeFilter(t: Tables, patientId: string, today: string, now: string, limit: nat)
    requires |Select(GetReminders(t, patientId, Some(today), true), x => StillDue(x, now))| <= limit
    ensures forall x :: x in Upcoming(t, patientId, today, now, limit, true) <==>
      x in t.reminders && ActiveFor(x, patientId, Some(today)) && StillDue(x, now)
  {
  }

  predicate MissedBy(r: ReminderRow, patientId: string, today: string, now: string) {
    r.patientId == patientId && r.date == Some(today) && !r.completed && StrLess(r.time, now)
  }

  /** `get_missed_reminders`: today's uncompleted rows due before `now`, nothing when
      the read fails. Unlike the other queries it does not filter on status. */
  function Missed(t: Tables, patientId: string, today: string, now: string, readOk: bool): (r: seq<ReminderRow>)
    ensures readOk ==> forall x :: x in r <==> x in t.reminders && MissedBy(x, patientId, today, now)
    ensures !readOk ==> r == []
  {
    if readOk then Select(t.reminders, x => MissedBy(x, patientId, today, now)) else []
  }

  /** Missed means strictly before `now` and upcoming at or after it: no row is both. */
  lemma MissedNotUpcoming(t: Tables, patientId: string, today: string, now: string, limit: nat, x: ReminderRow,
                          missedOk: bool, upcomingOk: bool)
    requires x in Missed(t, patientId, today, now, missedOk)
    ensures x !in Upcoming(t, patientId, today, now, limit, upcomingOk)
  {
  }

  /** A soft-deleted reminder still counts as missed. */
  lemma DeletedReminderIsMissed()
    ensures var x := ReminderRow("r1", "p1", Some("pills"), "08:00", Some("2024-05-01"), false, "", "deleted", None);
      var t := Tables([], [], [x], []);
      x in Missed(t, "p1", "2024-05-01", "09:00", true) && GetReminders(t, "p1", None, true) == []
  {
    var x := ReminderRow("r1", "p1", Some("pills"), "08:00", Some("2024-05-01"), false, "", "deleted", None);
    assert StrLess("08:00", "09:00");
  }

  /** The extractor stores times as "HH:MM AM/PM" while "now" is "%H:%M": at 14:05 an
      "08:00 PM" reminder compares as already past. */
  lemma EveningReminderMissedInAfternoon()
    ensures var x := ReminderRow("r1", "p1", Some("call"), "08:00 PM", Some("2024-05-01"), false, "", "active", None);
      var t := Tables([], [], [x], []);
      x in Missed(t, "p1", "2024-05-01", "14:05", true) && Upcoming(t, "p1", "2024-05-01", "14:05", 5, true) == []
  {
    assert StrLess("08:00 PM", "14:05");
  }

  // ---------------------------------------------------------------- updates

  /** `update(...).eq('id', id)`: `f` applied to every row with that id, in place. */
  function UpdateWhere(rows: seq<ReminderRow>, id: string, f: ReminderRow -> ReminderRow): (r: seq<ReminderRow>)
    ensures |r| == |rows|
    ensures forall i :: 0 <= i < |rows| ==> r[i] == if rows[i].id == id then f(rows[i]) else rows[i]
  {
    if |rows| == 0 then []
    else UpdateWhere(rows[..|rows| - 1], id, f) + [if rows[|rows| - 1].id == id then f(rows[|rows| - 1]) else rows[|rows| - 1]]
  }

  function Complete(now: string): ReminderRow -> ReminderRow {
    (x: ReminderRow) => x.(completed := true, completedAt := Some(now))
  }

  function SoftDelete(x: ReminderRow): ReminderRow {
    x.(status := "deleted")
  }

  method MarkCompleted(db: Store, id: string, now: string, updateOk: bool) returns (ok: bool, message: string)
    modifies db
    ensures ok == updateOk && message == (if updateOk then MarkedMessage else MarkFailed)
    ensures updateOk ==> db.View() == old(db.View()).(reminders := UpdateWhere(old(db.reminders), id, Complete(now)))
    ensures !updateOk ==> db.View() == old(db.View())
  {
    if !updateOk {
      return false, MarkFailed;
    }
    db.reminders := UpdateWhere(db.reminders, id, Complete(now));
    return true, MarkedMessage;
  }

  method DeleteReminder(db: Store, id: string, updateOk: bool) returns (ok: bool, message: string)
    modifies db
    ensures ok == updateOk && message == (if updateOk then DeletedMessage else DeleteFailed)
    ensures updateOk ==> db.View() == old(db.View()).(reminders := UpdateWhere(old(db.reminders), id, SoftDelete))
    ensures !updateOk ==> db.View() == old(db.View())
  {
    if !updateOk {
      return false, DeleteFailed;
    }
    db.reminders := UpdateWhere(db.reminders, id, SoftDelete);
    return true, DeletedMessage;
  }

  /** Deleting keeps every row and changes only the status of the deleted one, which
      then drops out of every `get_reminders` result. */
  lemma DeleteIsSoft(t: Tables, id: string, patientId: string, date: Option<string>, readOk: bool)
    ensures var after := UpdateWhere(t.reminders, id, SoftDelete);
      |after| == |t.reminders|
      && (forall i :: 0 <= i < |after| ==> after[i].(status := t.reminders[i].status) == t.reminders[i])
      && forall x :: x in GetReminders(t.(reminders := after), patientId, date, readOk) ==> x.id != id
  {
    var after := UpdateWhere(t.reminders, id, SoftDelete);
    forall x | x in GetReminders(t.(reminders := after), patientId, date, readOk) ensures x.id != id {
      var i :| 0 <= i < |after| && after[i] == x;
    }
  }

  /** A completed reminder leaves the upcoming list. */
  lemma CompletedNotUpcoming(t: Tables, id: string, now: string, patientId: string, today: string,
                             clock: string, limit: nat, readOk: bool)
    ensures forall x :: x in Upcoming(t.(reminders := UpdateWhere(t.reminders, id, Complete(now))), patientId, today, clock, limit, readOk) ==>
      x.id != id
  {
    var after := UpdateWhere(t.reminders, id, Complete(now));
    forall x | x in Upcoming(t.(reminders := after), patientId, today, clock, limit, readOk) ensures x.id != id {
      var i :| 0 <= i < |after| && after[i] == x;
    }
  }
}
