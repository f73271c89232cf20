/** The Supabase tables the Python backend writes, as the rule layer sees them: the
    `alerts`, `reminders` and `interactions` tables, and an outbox of the caregiver
    mails it attempts. Queries the backend only reads (family members, caregivers,
    recent interactions) are collaborator inputs of the operations that issue them. */
module BackendStore {
  import opened Wrappers

  /** A row of `alerts` (emergency_handler.py:44-52). */
  datatype AlertRow = AlertRow(
    patientId: string, severity: string, context: string, transcript: Option<string>,
    timestamp: string, status: string, resolved: bool)

  /** An attempted caregiver mail: its recipient and subject, and the alert it reports. */
  datatype Mail = Mail(to: string, subject: string, alert: AlertRow)

  /** A caregiver returned by `get_caregivers`. */
  datatype Caregiver = Caregiver(email: string)

  /** A row of `reminders` (reminder_manager.py:26-35, 81-84). */
  datatype ReminderRow = ReminderRow(
    id: string, patientId: string, task: Option<string>, time: string, date: Option<string>,
    completed: bool, createdAt: string, status: string, completedAt: Option<string>)

  /** A row of `interactions` (relationship_cueing.py:86-91). */
  datatype InteractionRow = InteractionRow(
    patientId: string, familyMemberId: string, timestamp: string, kind: string)

  datatype Tables = Tables(
    alerts: seq<AlertRow>, outbox: seq<Mail>, reminders: seq<ReminderRow>,
    interactions: seq<InteractionRow>)

  class Store {
    var alerts: seq<AlertRow>
    var outbox: seq<Mail>
    var reminders: seq<ReminderRow>
    var interactions: seq<InteractionRow>

    function View(): Tables
      reads this
    {
      Tables(alerts, outbox, reminders, interactions)
    }

    constructor()
      ensures View() == Tables([], [], [], [])
    {
      alerts := [];
      outbox := [];
      reminders := [];
      interactions := [];
    }
  }
}
