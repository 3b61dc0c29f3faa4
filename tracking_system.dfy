/** The work-log ledger (components/TrackingSystem.tsx): students submit
    daily logs, whose task text is first offered to a text-enhancement
    service; businesses approve or reject pending logs. */
module TrackingSystem {
  import opened Types

  /** The two logs every ledger starts with. */
  const SeedLogs: seq<DailyLog> := [
    DailyLog("l1", "std-1", "Alex Rivera", "bus-1", "2026-01-08", 8.0,
      "Designed the main dashboard high-fidelity prototypes in Figma and conducted basic user testing.",
      Approved),
    DailyLog("l2", "std-1", "Alex Rivera", "bus-1", "2026-01-09", 7.5,
      "Refined the component library and started implementation on the map discovery feature.",
      Pending)
  ]

  /** What the hosted language model does with one request: answers with
      some text (possibly empty or missing, both written "") or fails. */
  datatype ServiceReply = Answered(text: string) | Failed

  /** `checkLogQuality`: the service's text, or the input unchanged when the
      call fails. */
  function CheckLogQuality(tasks: string, reply: ServiceReply): (r: string)
    ensures reply.Failed? ==> r == tasks
    ensures reply.Answered? ==> r == reply.text
  {
    match reply
    case Answered(t) => t
    case Failed => tasks
  }

  /** `enhancedTasks || formData.tasks`: a non-empty enhancement replaces
      the typed text, and an empty one falls back to it. */
  function StoredTasks(typed: string, enhanced: string): (r: string)
    ensures enhanced != [] ==> r == enhanced
    ensures enhanced == [] ==> r == typed
    ensures r == [] <==> enhanced == [] && typed == []
  {
    if enhanced != [] then enhanced else typed
  }

  /** Whatever the service does, the stored text is never lost: a non-empty
      answer is stored in place of the typed text, and a failure or an empty
      answer stores what the student typed. */
  lemma StoredTasksFallback(typed: string, reply: ServiceReply)
    ensures reply.Answered? && reply.text != [] ==> StoredTasks(typed, CheckLogQuality(typed, reply)) == reply.text
    ensures reply.Failed? ==> StoredTasks(typed, CheckLogQuality(typed, reply)) == typed
    ensures reply == Answered([]) ==> StoredTasks(typed, CheckLogQuality(typed, reply)) == typed
    ensures typed != [] ==> StoredTasks(typed, CheckLogQuality(typed, reply)) != []
  {
  }

  /** The create-log form. */
  datatype LogForm = LogForm(date: string, hours: real, tasks: string)

  /** The log `handleSubmit` builds; `id` stands for the clock-based id. The
      student name and the business are fixed in the source. */
  function NewLog(studentId: string, form: LogForm, enhanced: string, id: string): (log: DailyLog)
    ensures log.id == id && log.studentId == studentId && log.status == Pending
    ensures log.date == form.date && log.hours == form.hours
    ensures log.tasks == StoredTasks(form.tasks, enhanced)
    ensures log.studentName == "Alex Rivera" && log.businessId == "bus-1"
  {
    DailyLog(id, studentId, "Alex Rivera", "bus-1", form.date, form.hours,
             StoredTasks(form.tasks, enhanced), Pending)
  }

  /** `handleStatusChange`: sets the decision on the logs carrying that id.
      The source does not look at the current status. */
  function ReviewLogs(logs: seq<DailyLog>, logId: string, decision: LogStatus): (r: seq<DailyLog>)
    requires decision != Pending
    ensures |r| == |logs|
    ensures forall k :: 0 <= k < |r| && logs[k].id != logId ==> r[k] == logs[k]
    ensures forall k :: 0 <= k < |r| && logs[k].id == logId ==> r[k] == logs[k].(status := decision)
  {
    seq(|logs|, (k: int) requires 0 <= k < |logs| =>
      if logs[k].id == logId then logs[k].(status := decision) else logs[k])
  }

  /** Reviewing twice with the same decision is reviewing once; an unknown
      id changes nothing. */
  lemma ReviewIdempotent(logs: seq<DailyLog>, logId: string, decision: LogStatus)
    requires decision != Pending
    ensures ReviewLogs(ReviewLogs(logs, logId, decision), logId, decision) == ReviewLogs(logs, logId, decision)
    ensures (forall k :: 0 <= k < |logs| ==> logs[k].id != logId) ==> ReviewLogs(logs, logId, decision) == logs
  {
  }

  /** Nothing in the handler stops a decided log from being decided again. */
  lemma ReviewHasNoPendingGuard(log: DailyLog)
    requires log.status == Approved
    ensures ReviewLogs([log], log.id, Rejected)[0].status == Rejected
  {
  }

  /** The Verify and Dispute buttons: for businesses, on pending logs only. */
  predicate ReviewOffered(role: UserRole, log: DailyLog)
  {
    role == Business && log.status == Pending
  }

  /** The create-log card: for students only. */
  predicate CreateFormShown(role: UserRole)
  {
    role == Student
  }

  predicate UniqueIds(logs: seq<DailyLog>)
  {
    forall i, j :: 0 <= i < j < |logs| ==> logs[i].id != logs[j].id
  }

  /** Through the buttons, a decided log stays decided: a click reviews a
      pending log, and when ids are unique no other log changes. (The source
      does not make ids unique; they come from the clock.) */
  lemma DecidedLogsStayDecided(logs: seq<DailyLog>, role: UserRole, clicked: nat, decision: LogStatus)
    requires clicked < |logs| && ReviewOffered(role, logs[clicked]) && decision != Pending
    requires UniqueIds(logs)
    ensures var r := ReviewLogs(logs, logs[clicked].id, decision);
            r[clicked].status == decision
            && (forall k :: 0 <= k < |logs| && logs[k].status != Pending ==> r[k] == logs[k])
            && !ReviewOffered(role, r[clicked])
  {
    var r := ReviewLogs(logs, logs[clicked].id, decision);
    forall k | 0 <= k < |logs| && logs[k].status != Pending
      ensures r[k] == logs[k]
    {
      assert k != clicked;
      if k < clicked {
        assert logs[k].id != logs[clicked].id;
      } else {
        assert logs[clicked].id != logs[k].id;
      }
    }
  }

  /** What `handleSubmit`'s closure captured when the button was pressed:
      the form and the list as they were then. */
  datatype Snapshot = Snapshot(form: LogForm, logs: seq<DailyLog>)

  /** The component, with the submission in flight (if any). */
  class LogLedger {
    const role: UserRole
    const studentId: string
    var logs: seq<DailyLog>
    var isSubmitting: bool
    var form: LogForm
    var inFlight: Option<Snapshot>

    /** A submission is in flight exactly while the button shows it, and it
        carries the non-empty task text the browser insisted on. */
    predicate Valid()
      reads this
    {
      (isSubmitting <==> inFlight.Some?)
      && (inFlight.Some? ==> inFlight.value.form.tasks != [])
    }

    /** `today` stands for the date part of the current time. */
    constructor (role: UserRole, studentId: string, today: string)
      ensures Valid() && this.role == role && this.studentId == studentId
      ensures logs == SeedLogs && !isSubmitting && inFlight == None && form == LogForm(today, 8.0, "")
    {
      this.role := role;
      this.studentId := studentId;
      logs := SeedLogs;
      isSubmitting := false;
      form := LogForm(today, 8.0, "");
      inFlight := None;
    }

    /** The form's field handlers; the fields stay editable while a
        submission is in flight. */
    method SetForm(f: LogForm)
      requires Valid()
      modifies this`form
      ensures Valid() && form == f
    {
      form := f;
    }

    /** First half of `handleSubmit`: mark the submission as running and
        send the typed text to the service. Only students see the form; the
        browser submits it only with a date and a task text, and its button
        is disabled while a submission runs. */
    method BeginSubmit() returns (request: string)
      requires Valid() && CreateFormShown(role) && !isSubmitting
      requires form.date != [] && form.tasks != []
      modifies this`isSubmitting, this`inFlight
      ensures Valid() && isSubmitting && request == form.tasks
      ensures inFlight == Some(Snapshot(form, logs))
    {
      isSubmitting := true;
      inFlight := Some(Snapshot(form, logs));
      request := form.tasks;
    }

    /** Second half, once the service has answered with `enhanced`: the new
        pending log goes in front of the captured list, the form becomes the
        captured form with its task text cleared, and the submission ends. */
    method CompleteSubmit(enhanced: string, id: string)
      requires Valid() && isSubmitting
      modifies this`logs, this`form, this`isSubmitting, this`inFlight
      ensures Valid() && !isSubmitting && inFlight == None
      ensures var snap := old(inFlight).value;
              logs == [NewLog(studentId, snap.form, enhanced, id)] + snap.logs
              && form == snap.form.(tasks := [])
      ensures logs[0].status == Pending && logs[0].tasks != []
    {
      var snap := inFlight.value;
      logs := [NewLog(studentId, snap.form, enhanced, id)] + snap.logs;
      form := snap.form.(tasks := []);
      isSubmitting := false;
      inFlight := None;
    }

    method HandleStatusChange(logId: string, decision: LogStatus)
      requires Valid() && decision != Pending
      modifies this`logs
      ensures Valid() && logs == ReviewLogs(old(logs), logId, decision)
    {
      logs := ReviewLogs(logs, logId, decision);
    }
  }

  /** A student's submission from a fresh ledger: the new log lands in front
      of the seed logs with the typed (or rewritten) text, and a date or hours
      typed while the service was working are reset to those of the press. */
  method SubmitSequence(studentId: string, today: string, typed: LogForm, late: LogForm,
                        reply: ServiceReply, id: string) returns (logs: seq<DailyLog>, form: LogForm)
    requires typed.date != [] && typed.tasks != []
    ensures logs == [NewLog(studentId, typed, CheckLogQuality(typed.tasks, reply), id)] + SeedLogs
    ensures logs[0].tasks != [] && logs[1..] == SeedLogs
    ensures form == typed.(tasks := [])
  {
    var ledger := new LogLedger(Student, studentId, today);
    ledger.SetForm(typed);
    var request := ledger.BeginSubmit();
    ledger.SetForm(late);
    ledger.CompleteSubmit(CheckLogQuality(request, reply), id);
    logs, form := ledger.logs, ledger.form;
  }
}
