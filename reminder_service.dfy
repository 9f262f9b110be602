/**
 * The reminder job table of `services/reminder_service.py`: one pending
 * single-shot reminder per task, fired 30 minutes before the deadline and
 * dispatched to e-mail and WhatsApp independently.
 *
 * The process-wide `_scheduler` is the `ReminderService` object: `started`
 * says whether a running scheduler has been created, `jobs` is its memory
 * job store keyed by job id.  Time is whole minutes (`Clock.Minutes`);
 * `now` is a parameter.
 */
module ReminderService {
  import opened Wrappers
  import opened Text
  import opened Clock
  import WhatsApp

  /** Minutes between the reminder and the deadline. */
  const LeadMinutes := 30

  // ---------- pure helpers ----------

  /** `_job_id`: `remind_task_<id>`. */
  function JobId(taskId: int): (id: string)
    ensures StartsWith(id, "remind_task_")
  {
    "remind_task_" + IntToDec(taskId)
  }

  /** Distinct tasks never share a job. */
  lemma JobIdInjective(a: int, b: int)
    requires JobId(a) == JobId(b)
    ensures a == b
  {
    PrefixedIntInjective("remind_task_", a, b);
  }

  /** `_format_dt`: "No deadline", or the deadline as `dd-mm-yyyy hh:mm AM/PM`, which reads back to it. */
  function FormatDt(dt: Option<Instant>): (r: string)
    ensures dt.None? ==> r == "No deadline"
    ensures dt.Some? ==> |r| == 19 && Parse12(r) == Some(dt.value)
  {
    if dt.None? then "No deadline"
    else
      Format12RoundTrip(dt.value);
      Format12(dt.value)
  }

  /** A raw `deadline` value as it reaches `_parse_deadline`. */
  datatype RawDeadline = NoValue | DateValue(dt: Instant) | TextValue(text: string)

  /**
   * `_parse_deadline`: falsy values give `None`, a datetime is kept, a string
   * is handed to the date parser, whose answer (already converted to naive
   * server-local time, `None` when it raises) is `parsed`.
   */
  function ParseDeadline(raw: RawDeadline, parsed: Option<Instant>): (r: Option<Instant>)
    ensures raw.NoValue? ==> r.None?
    ensures raw.TextValue? && raw.text == "" ==> r.None?
    ensures raw.DateValue? ==> r == Some(raw.dt)
    ensures raw.TextValue? && raw.text != "" ==> r == parsed
  {
    match raw
    case NoValue => None
    case DateValue(dt) => Some(dt)
    case TextValue(text) => if text == "" then None else parsed
  }

  /** The fire time: the deadline less `LeadMinutes`. */
  function FireTime(deadline: Instant): int {
    Minutes(deadline) - LeadMinutes
  }

  /** A scheduled `_reminder_job` call: when it runs and its four arguments. */
  datatype Job = Job(fireAt: int, email: Option<string>, whatsapp: Option<string>,
                     title: string, deadlineText: string)

  /** What `_schedule_common` does with one request. */
  datatype Outcome =
    | MissingTaskId            // falsy task id: warning, nothing else
    | InvalidDeadline          // no parseable deadline: warning, nothing else
    | AlreadyPassed            // fire time not after now: warning, nothing else
    | SchedulerMissing         // `_scheduler` is None: `add_job` raises AttributeError
    | Scheduled(jobId: string, job: Job)

  /** The decision `_schedule_common` takes, in its order of checks. */
  function Plan(taskId: Option<int>, title: string, deadline: Option<Instant>,
                email: Option<string>, whatsapp: Option<string>, now: int, started: bool): (o: Outcome)
    ensures o.Scheduled? <==>
      taskId.Some? && taskId.value != 0 && deadline.Some? && FireTime(deadline.value) > now && started
    ensures (taskId.None? || taskId.value == 0) ==> o == MissingTaskId
    ensures o.Scheduled? ==> && o.jobId == JobId(taskId.value)
                             && o.job.fireAt == Minutes(deadline.value) - 30
                             && o.job.fireAt > now
                             && o.job == Job(o.job.fireAt, email, whatsapp, title, FormatDt(deadline))
  {
    if taskId.None? || taskId.value == 0 then MissingTaskId
    else if deadline.None? then InvalidDeadline
    else if FireTime(deadline.value) <= now then AlreadyPassed
    else if !started then SchedulerMissing
    else Scheduled(JobId(taskId.value), Job(FireTime(deadline.value), email, whatsapp, title, FormatDt(deadline)))
  }

  /** The job table after an outcome: remove-then-add of the job, or unchanged. */
  function Apply(jobs: map<string, Job>, o: Outcome): map<string, Job> {
    if o.Scheduled? then (jobs - {o.jobId})[o.jobId := o.job] else jobs
  }

  /** The due jobs: those whose fire time has come. */
  function Due(jobs: map<string, Job>, now: int): (due: map<string, Job>)
    ensures due.Keys <= jobs.Keys
    ensures forall k :: k in due ==> due[k] == jobs[k] && jobs[k].fireAt <= now
    ensures forall k :: k in jobs && jobs[k].fireAt <= now ==> k in due
  {
    map k | k in jobs && jobs[k].fireAt <= now :: jobs[k]
  }

  // ---------- the job table ----------

  class ReminderService {
    /** `_scheduler` exists and is running. */
    var started: bool
    /** The scheduler's memory job store. */
    var jobs: map<string, Job>

    /** No scheduler, no jobs. */
    ghost predicate Valid()
      reads this
    {
      !started ==> jobs == map[]
    }

    /** Module load: `_scheduler = None`. */
    constructor ()
      ensures Valid() && !started && jobs == map[]
    {
      started := false;
      jobs := map[];
    }

    /** `start_scheduler`: creates a scheduler with an empty store unless one is already running. */
    method StartScheduler()
      requires Valid()
      modifies this
      ensures Valid() && started
      ensures old(started) ==> jobs == old(jobs)
      ensures !old(started) ==> jobs == map[]
    {
      if started {
        return;
      }
      started := true;
      jobs := map[];
    }

    /** `_schedule_common`: validates, then replaces any job of the task with the new one. */
    method ScheduleCommon(taskId: Option<int>, title: string, deadline: Option<Instant>,
                          email: Option<string>, whatsapp: Option<string>, now: int)
      returns (o: Outcome)
      requires Valid()
      modifies this
      ensures Valid() && started == old(started)
      ensures o == Plan(taskId, title, deadline, email, whatsapp, now, old(started))
      ensures jobs == Apply(old(jobs), o)
    {
      if taskId.None? || taskId.value == 0 {
        return MissingTaskId;
      }
      if deadline.None? {
        return InvalidDeadline;
      }
      var reminderTime := Minutes(deadline.value) - LeadMinutes;
      if reminderTime <= now {
        return AlreadyPassed;
      }
      var id := JobId(taskId.value);
      if !started {
        // remove_job on None raises and is swallowed; add_job on None raises.
        return SchedulerMissing;
      }
      var job := Job(reminderTime, email, whatsapp, title, FormatDt(deadline));
      o := Scheduled(id, job);
      assert o == Plan(taskId, title, deadline, email, whatsapp, now, started);
      ReplaceJob(id, job);
    }

    /** `remove_job` then `add_job` under one id: the old job of that id goes, the new one takes its place. */
    method ReplaceJob(id: string, job: Job)
      requires Valid() && started
      modifies this
      ensures Valid() && started
      ensures jobs == (old(jobs) - {id})[id := job]
    {
      jobs := jobs - {id};
      jobs := jobs[id := job];
    }

    /**
     * `schedule_task_reminder`: reads the task dictionary (`title` defaults to
     * "Untitled Task" when the key is absent) and schedules.
     */
    method ScheduleTaskReminder(taskId: Option<int>, title: Option<string>, deadline: RawDeadline,
                                parsed: Option<Instant>, email: Option<string>, whatsapp: Option<string>,
                                now: int)
      returns (o: Outcome)
      requires Valid()
      modifies this
      ensures Valid() && started == old(started)
      ensures o == Plan(taskId, title.GetOr("Untitled Task"), ParseDeadline(deadline, parsed),
                        email, whatsapp, now, old(started))
      ensures jobs == Apply(old(jobs), o)
    {
      o := ScheduleCommon(taskId, title.GetOr("Untitled Task"), ParseDeadline(deadline, parsed),
                          email, whatsapp, now);
    }

    /**
     * `schedule_task_reminder_from_model`: reads the task and user objects'
     * attributes; the title has no default and the deadline is already a
     * datetime or `None`.
     */
    method ScheduleTaskReminderFromModel(taskId: Option<int>, title: string, deadline: Option<Instant>,
                                         email: Option<string>, whatsapp: Option<string>, now: int)
      returns (o: Outcome)
      requires Valid()
      modifies this
      ensures Valid() && started == old(started)
      ensures o == Plan(taskId, title, deadline, email, whatsapp, now, old(started))
      ensures jobs == Apply(old(jobs), o)
    {
      var raw := if deadline.None? then NoValue else DateValue(deadline.value);
      assert ParseDeadline(raw, None) == deadline;
      o := ScheduleCommon(taskId, title, ParseDeadline(raw, None), email, whatsapp, now);
    }

    /** `remove_task_reminder`: drops the task's job; silent when absent or when no scheduler exists. */
    method RemoveTaskReminder(taskId: int)
      requires Valid()
      modifies this
      ensures Valid() && started == old(started)
      ensures jobs == old(jobs) - {JobId(taskId)}
    {
      if !started {
        return;
      }
      jobs := jobs - {JobId(taskId)};
    }

    /** A scheduler tick at `now`: every due date-job runs once and leaves the store. */
    method FireDue(now: int) returns (fired: map<string, Job>)
      requires Valid()
      modifies this
      ensures Valid() && started == old(started)
      ensures fired == Due(old(jobs), now)
      ensures jobs == old(jobs) - fired.Keys
    {
      fired := Due(jobs, now);
      jobs := jobs - fired.Keys;
    }
  }

  // ---------- properties of the job table ----------

  /** Scheduling one task leaves every other task's job exactly as it was. */
  lemma ScheduleKeepsOtherTasks(jobs: map<string, Job>, taskId: Option<int>, title: string,
                                deadline: Option<Instant>, email: Option<string>, whatsapp: Option<string>,
                                now: int, started: bool, other: int)
    requires taskId.Some? ==> other != taskId.value
    ensures var after := Apply(jobs, Plan(taskId, title, deadline, email, whatsapp, now, started));
      (JobId(other) in after <==> JobId(other) in jobs)
      && (JobId(other) in jobs ==> after[JobId(other)] == jobs[JobId(other)])
  {
    var o := Plan(taskId, title, deadline, email, whatsapp, now, started);
    if o.Scheduled? && o.jobId == JobId(other) {
      JobIdInjective(taskId.value, other);
    }
  }

  /** After a schedulable request the task has its job, at the new fire time, with the new payload. */
  lemma ScheduleInstallsJob(jobs: map<string, Job>, taskId: int, title: string, deadline: Instant,
                            email: Option<string>, whatsapp: Option<string>, now: int)
    requires taskId != 0 && FireTime(deadline) > now
    ensures var after := Apply(jobs, Plan(Some(taskId), title, Some(deadline), email, whatsapp, now, true));
      && JobId(taskId) in after
      && after[JobId(taskId)] == Job(Minutes(deadline) - 30, email, whatsapp, title, Format12(deadline))
      && after.Keys == jobs.Keys + {JobId(taskId)}
  {
  }

  /** A request the checks drop leaves the table exactly as it was, including the task's own job. */
  lemma DroppedRequestChangesNothing(jobs: map<string, Job>, taskId: Option<int>, title: string,
                                     deadline: Option<Instant>, email: Option<string>,
                                     whatsapp: Option<string>, now: int, started: bool)
    requires taskId.None? || taskId.value == 0 || deadline.None? || FireTime(deadline.value) <= now
    ensures Apply(jobs, Plan(taskId, title, deadline, email, whatsapp, now, started)) == jobs
  {
  }

  /** Rescheduling replaces: two schedules leave one job for the task, from the second deadline. */
  lemma RescheduleReplaces(jobs: map<string, Job>, taskId: int, title: string, d1: Instant, d2: Instant,
                           email: Option<string>, whatsapp: Option<string>, now: int)
    requires taskId != 0 && FireTime(d1) > now && FireTime(d2) > now
    ensures var once := Apply(jobs, Plan(Some(taskId), title, Some(d1), email, whatsapp, now, true));
            var twice := Apply(once, Plan(Some(taskId), title, Some(d2), email, whatsapp, now, true));
      && twice == Apply(jobs, Plan(Some(taskId), title, Some(d2), email, whatsapp, now, true))
      && twice[JobId(taskId)].fireAt == FireTime(d2)
  {
    var o1 := Plan(Some(taskId), title, Some(d1), email, whatsapp, now, true);
    var o2 := Plan(Some(taskId), title, Some(d2), email, whatsapp, now, true);
    assert o1.Scheduled? && o2.Scheduled? && o1.jobId == o2.jobId;
    SecondApplyWins(jobs, o1, o2);
  }

  /** Two installs under one id: the second replaces the first. */
  lemma SecondApplyWins(jobs: map<string, Job>, o1: Outcome, o2: Outcome)
    requires o1.Scheduled? && o2.Scheduled? && o1.jobId == o2.jobId
    ensures Apply(Apply(jobs, o1), o2) == Apply(jobs, o2)
  {
    var id := o1.jobId;
    var once := (jobs - {id})[id := o1.job];
    assert once - {id} == jobs - {id};
  }

  /** Cancelling removes only the named task's job. */
  lemma CancelKeepsOtherTasks(jobs: map<string, Job>, taskId: int, other: int)
    requires other != taskId
    ensures JobId(taskId) !in jobs - {JobId(taskId)}
    ensures JobId(other) in jobs ==>
      (JobId(other) in jobs - {JobId(taskId)} && (jobs - {JobId(taskId)})[JobId(other)] == jobs[JobId(other)])
  {
    if JobId(other) == JobId(taskId) {
      JobIdInjective(other, taskId);
    }
  }

  /** After a tick nothing due is left, and every job either fired or is still pending. */
  lemma FireLeavesNothingDue(jobs: map<string, Job>, now: int)
    ensures forall k :: k in jobs - Due(jobs, now).Keys ==> jobs[k].fireAt > now
    ensures (jobs - Due(jobs, now).Keys).Keys + Due(jobs, now).Keys == jobs.Keys
    ensures |jobs - Due(jobs, now).Keys| + |Due(jobs, now)| == |jobs|
  {
    var rest := jobs - Due(jobs, now).Keys;
    assert rest.Keys !! Due(jobs, now).Keys;
    assert rest.Keys + Due(jobs, now).Keys == jobs.Keys;
  }

  /** The worked example: deadline 10-01-2025 21:00 scheduled at 10:00 fires at 20:30. */
  lemma ExampleEveningDeadline(jobs: map<string, Job>, taskId: int)
    requires taskId != 0
    ensures var dl := DateTime(2025, 1, 10, 21, 0);
            var now := Minutes(DateTime(2025, 1, 10, 10, 0));
            var o := Plan(Some(taskId), "T1", Some(dl), None, None, now, true);
      && o.Scheduled?
      && o.job.fireAt == Minutes(DateTime(2025, 1, 10, 20, 30))
      && o.job.deadlineText == "10-01-2025 09:00 PM"
  {
    var dl := DateTime(2025, 1, 10, 21, 0);
    assert Minutes(dl) - 30 == Minutes(DateTime(2025, 1, 10, 20, 30));
    assert Format12(dl) == "10-01-2025 09:00 PM";
  }

  // ---------- dispatch ----------

  /** What the collaborators do when a job fires. */
  datatype Collaborators = Collaborators(
    appContext: bool,          // a Flask application context is active (never on the scheduler's worker thread)
    suppress: bool,            // MAIL_SUPPRESS_SEND
    mailRaises: bool,          // mail.send raises
    whatsappLoaded: bool,      // the WhatsAppService import succeeded
    whatsappEnv: WhatsApp.Env,
    clientRaises: bool,        // constructing WhatsAppService raises
    reply: Option<string>)     // the SID Twilio returns, None when it raises

  datatype EmailMessage = EmailMessage(to: string, subject: string, body: string)

  datatype EmailResult =
    | EmailSkipped                   // falsy recipient
    | EmailOutsideContext            // `current_app.app_context()` raised before the `try`
    | EmailSuppressed(msg: EmailMessage)
    | EmailSent(msg: EmailMessage)
    | EmailFailed(msg: EmailMessage)  // the error was caught and logged

  datatype WhatsAppResult =
    | WhatsAppSkipped                                              // no number or no service
    | WhatsAppInitFailed                                           // the constructor raised
    | WhatsAppSent(request: Option<map<string, string>>, sid: Option<string>)

  /** A job's run: the e-mail outcome, and the WhatsApp outcome unless the e-mail step raised out of the job. */
  datatype Dispatch = Dispatch(email: EmailResult, whatsapp: Option<WhatsAppResult>)

  /**
   * `_send_email`: skipped for a falsy recipient.  The application context
   * is entered before the `try`, so without an active context the
   * `RuntimeError` escapes; inside the `try` every failure is caught.
   */
  function SendEmail(to: Option<string>, subject: string, body: string, c: Collaborators): (r: EmailResult)
    ensures r.EmailSkipped? <==> !Truthy(to)
    ensures r.EmailOutsideContext? <==> Truthy(to) && !c.appContext
    ensures r.EmailSuppressed? || r.EmailSent? || r.EmailFailed? ==> r.msg == EmailMessage(to.value, subject, body)
    ensures r.EmailSent? <==> Truthy(to) && c.appContext && !c.suppress && !c.mailRaises
  {
    if !Truthy(to) then EmailSkipped
    else if !c.appContext then EmailOutsideContext
    else
      var msg := EmailMessage(to.value, subject, body);
      if c.suppress then EmailSuppressed(msg)
      else if c.mailRaises then EmailFailed(msg)
      else EmailSent(msg)
  }

  /** `_send_whatsapp`: skipped without a number or service; otherwise `send_message` on a fresh sender. */
  function SendWhatsApp(to: Option<string>, text: string, c: Collaborators): (r: WhatsAppResult)
    ensures r.WhatsAppSkipped? <==> !Truthy(to) || !c.whatsappLoaded
    ensures r.WhatsAppSent? ==> (r.request.Some? <==> WhatsApp.AsE164(to) != "")
    ensures r.WhatsAppSent? ==> r.sid == if r.request.None? then None else c.reply
  {
    if !Truthy(to) || !c.whatsappLoaded then WhatsAppSkipped
    else if c.clientRaises then WhatsAppInitFailed
    else
      var msid := Strip(OrElse(c.whatsappEnv.messagingServiceSid, ""));
      var request := WhatsApp.SendRequest(to, text, msid, WhatsApp.FromNumber(c.whatsappEnv.whatsappFrom));
      WhatsAppSent(request, if request.None? then None else c.reply)
  }

  function Subject(title: string): string {
    "⏰ Task Reminder: " + title
  }

  function EmailBody(title: string, deadlineText: string): string {
    "Reminder: '" + title + "' is due at " + deadlineText + "."
  }

  function WhatsAppText(title: string, deadlineText: string): string {
    "⏰ *Task Reminder*\n\n*Title:* " + title + "\n*Due:* " + deadlineText
  }

  /**
   * `_reminder_job` as written: e-mail first, then WhatsApp.  An e-mail
   * step that raises ends the job, so WhatsApp is not attempted.
   */
  function ReminderJob(job: Job, c: Collaborators): (d: Dispatch)
    ensures d.email.EmailSkipped? <==> !Truthy(job.email)
    ensures d.whatsapp.None? <==> Truthy(job.email) && !c.appContext
    ensures d.whatsapp.Some? ==> (d.whatsapp.value.WhatsAppSkipped? <==> !Truthy(job.whatsapp) || !c.whatsappLoaded)
  {
    var email := SendEmail(job.email, Subject(job.title), EmailBody(job.title, job.deadlineText), c);
    if email.EmailOutsideContext? then Dispatch(email, None)
    else Dispatch(email, Some(SendWhatsApp(job.whatsapp, WhatsAppText(job.title, job.deadlineText), c)))
  }

  /**
   * A job the scheduler runs has no application context, so any job with
   * an e-mail address sends neither the e-mail nor the WhatsApp message.
   */
  lemma ContextErrorStopsWhatsApp(job: Job, c: Collaborators)
    requires Truthy(job.email) && !c.appContext
    ensures !ReminderJob(job, c).email.EmailSent?
    ensures ReminderJob(job, c).whatsapp.None?
  {
  }

  /**
   * The channels are not independent as written: the same job with the same
   * WhatsApp collaborators sends the WhatsApp message with a context and
   * not without one.
   */
  lemma ChannelsCoupledAsWritten(job: Job, c: Collaborators)
    requires Truthy(job.email) && c.appContext
    ensures ReminderJob(job, c).whatsapp.Some?
    ensures ReminderJob(job, c.(appContext := false)).whatsapp.None?
  {
  }

  /**
   * `_reminder_job` as evidently intended: each sender catches its own
   * failures, which holds once the e-mail step runs inside the
   * application's context.
   */
  function ReminderJobIntended(job: Job, c: Collaborators): (d: Dispatch)
    ensures d.whatsapp.Some? && !d.email.EmailOutsideContext?
    ensures d.email.EmailSkipped? <==> !Truthy(job.email)
    ensures d.email.EmailSent? <==> Truthy(job.email) && !c.suppress && !c.mailRaises
    ensures d.whatsapp.value.WhatsAppSkipped? <==> !Truthy(job.whatsapp) || !c.whatsappLoaded
  {
    ReminderJob(job, c.(appContext := true))
  }

  /** Where a context is active, the job as written already behaves as intended. */
  lemma IntendedAgreesInContext(job: Job, c: Collaborators)
    requires c.appContext
    ensures ReminderJob(job, c) == ReminderJobIntended(job, c)
  {
    assert c.(appContext := true) == c;
  }

  /**
   * Channel independence of the intended job: the e-mail collaborators do
   * not change the WhatsApp attempt, and the WhatsApp collaborators do not
   * change the e-mail.
   */
  lemma ChannelsIndependent(job: Job, c1: Collaborators, c2: Collaborators)
    ensures c1.whatsappLoaded == c2.whatsappLoaded && c1.whatsappEnv == c2.whatsappEnv
            && c1.clientRaises == c2.clientRaises && c1.reply == c2.reply
            ==> ReminderJobIntended(job, c1).whatsapp == ReminderJobIntended(job, c2).whatsapp
    ensures c1.suppress == c2.suppress && c1.mailRaises == c2.mailRaises
            ==> ReminderJobIntended(job, c1).email == ReminderJobIntended(job, c2).email
  {
  }
}
