/**
 * `services/email_service.py`: whether mail is configured, the order in
 * which the task-created notifier and the test mail decide what to do, the
 * priority badge colour, the deadline rendering and its fallbacks, and the
 * subject and subtask lines of the notification.  The mail transport is an
 * input saying whether `mail.send` raises.
 */
module Email {
  import opened Wrappers
  import opened Text
  import opened Clock
  import MongoModels

  /** The three variables `is_email_configured` reads; `None` is unset. */
  datatype MailEnv = MailEnv(username: Option<string>, password: Option<string>, defaultSender: Option<string>)

  /** `is_email_configured`: every required variable is set and non-empty. */
  function IsEmailConfigured(env: MailEnv): (r: bool)
    ensures r <==> env.username.Some? && env.username.value != ""
                   && env.password.Some? && env.password.value != ""
                   && env.defaultSender.Some? && env.defaultSender.value != ""
  {
    Truthy(env.username) && Truthy(env.password) && Truthy(env.defaultSender)
  }

  // ---------- init_mail ----------

  /** The environment `init_mail` reads; `None` is unset. */
  datatype InitEnv = InitEnv(server: Option<string>, port: Option<string>, useTls: Option<string>,
                             useSsl: Option<string>, username: Option<string>, password: Option<string>,
                             defaultSender: Option<string>, suppress: Option<string>, debug: Option<string>)

  /** The `MAIL_*` entries `init_mail` writes into the application configuration. */
  datatype MailConfig = MailConfig(server: string, port: int, useTls: bool, useSsl: bool,
                                   username: Option<string>, password: Option<string>,
                                   defaultSender: Option<string>, suppress: bool, debug: bool)

  /** `os.getenv(name, default).lower() == 'true'`: a set variable, even an empty one, hides the default. */
  predicate Flag(value: Option<string>, default: string) {
    Lower(value.GetOr(default)) == "true"
  }

  /** `init_mail`: the configuration, or an error when `int(MAIL_PORT)` raises. */
  function InitMail(env: InitEnv): (r: Result<MailConfig, string>)
    ensures r.Ok? <==> env.port.None? || MongoModels.PyInt(env.port.value).Some?
    ensures r.Ok? ==> r.value.port == (if env.port.None? then 587 else MongoModels.PyInt(env.port.value).value)
    ensures r.Ok? ==> r.value.server == env.server.GetOr("smtp.gmail.com")
    ensures r.Ok? ==> && r.value.username == env.username && r.value.password == env.password
                      && r.value.defaultSender == env.defaultSender
    ensures r.Ok? ==> && (r.value.useTls <==> Flag(env.useTls, "True"))
                      && (r.value.useSsl <==> Flag(env.useSsl, "False"))
                      && (r.value.suppress <==> Flag(env.suppress, "False"))
                      && (r.value.debug <==> Flag(env.debug, "False"))
  {
    var port := if env.port.None? then Some(587) else MongoModels.PyInt(env.port.value);
    if port.None? then Err("invalid literal for int() with base 10")
    else Ok(MailConfig(env.server.GetOr("smtp.gmail.com"), port.value,
                       Flag(env.useTls, "True"), Flag(env.useSsl, "False"),
                       env.username, env.password, env.defaultSender,
                       Flag(env.suppress, "False"), Flag(env.debug, "False")))
  }

  /** A port written as a decimal number is read back as that number; unset, TLS is on and SSL, suppression and debug are off. */
  lemma InitMailDefaults(env: InitEnv, n: int)
    requires env.port == Some(IntToDec(n))
    requires env.useTls.None? && env.useSsl.None? && env.suppress.None? && env.debug.None?
    ensures InitMail(env).Ok? && InitMail(env).value.port == n
    ensures InitMail(env).value.useTls && !InitMail(env).value.useSsl
    ensures !InitMail(env).value.suppress && !InitMail(env).value.debug
  {
    MongoModels.PyIntOfDecimal(n);
    assert Flag(None, "True") by { LowerLiterals(); }
    assert !Flag(None, "False") by { LowerLiterals(); }
  }

  lemma LowerLiterals()
    ensures Lower("True") == "true" && Lower("False") == "false"
  {
  }

  /** Only a case variant of "true" switches a flag on: "1" does not. */
  lemma FlagNeedsTrue()
    ensures Flag(Some("TRUE"), "False")
    ensures !Flag(Some("1"), "False")
    ensures !Flag(Some(""), "True")
  {
    assert Lower("TRUE") == "true";
    assert Lower("1") == "1";
  }

  // ---------- _get_priority_color ----------

  const DefaultColor := "#6b7280"

  /** The badge colour of a lower-case priority. */
  function ColorOf(p: string): Option<string> {
    if p == "urgent" then Some("#dc2626")
    else if p == "high" then Some("#ea580c")
    else if p == "medium" then Some("#2563eb")
    else if p == "low" then Some("#16a34a")
    else None
  }

  /** `_get_priority_color`: a case-insensitive lookup, grey for anything else including `None`. */
  function PriorityColor(priority: Option<string>): (r: string)
    ensures r == DefaultColor <==> Lower(OrElse(priority, "")) !in {"urgent", "high", "medium", "low"}
  {
    ColorOf(Lower(OrElse(priority, ""))).GetOr(DefaultColor)
  }

  /** The colour does not depend on letter case. */
  lemma PriorityColorIgnoresCase(p: string)
    ensures PriorityColor(Some(p)) == PriorityColor(Some(Lower(p)))
  {
    LowerIsLower(p);
    if p == "" {
      assert Lower(p) == "";
    }
  }

  /** The four levels get four different colours. */
  lemma PriorityColorsDistinct(a: string, b: string)
    requires a in {"urgent", "high", "medium", "low"} && b in {"urgent", "high", "medium", "low"}
    requires PriorityColor(Some(a)) == PriorityColor(Some(b))
    ensures a == b
  {
    LevelColor(a);
    LevelColor(b);
  }

  /** A level written in lower case gets its own badge colour. */
  lemma LevelColor(p: string)
    requires p in {"urgent", "high", "medium", "low"}
    ensures ColorOf(p).Some? && PriorityColor(Some(p)) == ColorOf(p).value
  {
    LevelIsLower(p);
    LowerOfLower(p);
  }

  lemma LevelIsLower(p: string)
    requires p in {"urgent", "high", "medium", "low"}
    ensures IsLower(p)
  {
    if p == "urgent" {
      assert IsLower("urgent");
    } else if p == "high" {
      assert IsLower("high");
    } else if p == "medium" {
      assert IsLower("medium");
    } else {
      assert IsLower("low");
    }
  }

  // ---------- _format_deadline ----------

  /** The `deadline` entry of the task dictionary. */
  datatype DeadlineValue = NoDeadline | AtTime(dt: Instant) | AsText(text: string)

  /** The parsers `_format_deadline` may call; `None` where they raise. */
  datatype Parsers = Parsers(
    fromIso: string -> Option<Instant>,                // datetime.fromisoformat, after 'Z' -> '+00:00'
    dateutil: Option<(string -> Option<Instant>, string -> Option<Instant>)>)  // (parse, parse with dayfirst) when installed

  /** `'T' in s or s.endswith('Z')`. */
  predicate LooksIso(s: string) {
    Contains(s, "T") || (|s| > 0 && s[|s| - 1] == 'Z')
  }

  /** `_format_deadline`: empty for a falsy deadline, the long rendering when a parser succeeds, else the text as given. */
  function FormatDeadline(deadline: DeadlineValue, parsers: Parsers): (r: string)
    ensures deadline.NoDeadline? || deadline == AsText("") ==> r == ""
    ensures deadline.AtTime? ==> r == LongFormat(deadline.dt)
    ensures deadline.AsText? ==> r == deadline.text || exists dt: Instant :: r == LongFormat(dt)
  {
    match deadline
    case NoDeadline => ""
    case AtTime(dt) => LongFormat(dt)
    case AsText(s) =>
      if s == "" then ""
      else if LooksIso(s) then
        match parsers.fromIso(s)
        case Some(dt) => LongFormat(dt)
        case None =>
          if parsers.dateutil.None? then s
          else (match parsers.dateutil.value.0(s) case Some(dt) => LongFormat(dt) case None => s)
      else if parsers.dateutil.None? then s
      else (match parsers.dateutil.value.1(s) case Some(dt) => LongFormat(dt) case None => s)
  }

  /** Text no parser understands is shown as it was given. */
  lemma UnparseableShownAsIs(s: string, parsers: Parsers)
    requires forall t :: parsers.fromIso(t).None?
    requires parsers.dateutil.Some? ==> forall t :: parsers.dateutil.value.0(t).None? && parsers.dateutil.value.1(t).None?
    ensures FormatDeadline(AsText(s), parsers) == s
  {
  }

  // ---------- subject and plain-text parts ----------

  /** A dictionary entry as an f-string shows it: a missing key gives the default, `None` prints as "None". */
  function Shown(e: Field, default: string): string {
    match e
    case Absent => default
    case Null => "None"
    case Value(s) => s
  }

  const SubjectPrefix := "New Task Created: "

  /** The notification subject. */
  function Subject(title: Field): (r: string)
    ensures StartsWith(r, SubjectPrefix)
    ensures r[|SubjectPrefix|..] == Shown(title, "Untitled Task")
  {
    SubjectPrefix + Shown(title, "Untitled Task")
  }

  /** The subject names the title: different titles give different subjects. */
  lemma SubjectInjective(a: string, b: string)
    requires Subject(Value(a)) == Subject(Value(b))
    ensures a == b
  {
    assert a == Subject(Value(a))[|SubjectPrefix|..];
    assert b == Subject(Value(b))[|SubjectPrefix|..];
  }

  /** One `- s` line per subtask, in order. */
  function SubtaskLines(subtasks: seq<string>): (r: seq<string>)
    ensures |r| == |subtasks|
    ensures forall i :: 0 <= i < |r| ==> r[i] == "- " + subtasks[i]
  {
    seq(|subtasks|, i requires 0 <= i < |subtasks| => "- " + subtasks[i])
  }

  /** The plain-text subtask block: empty without subtasks, else a heading and the joined lines. */
  function SubtasksText(subtasks: seq<string>): string {
    if subtasks == [] then "" else "Subtasks:\n" + Join("\n", SubtaskLines(subtasks))
  }

  predicate NotNewline(c: char) {
    c != '\n'
  }

  /** Splits text at every newline, the inverse of joining with newlines. */
  function SplitLines(s: string): (r: seq<string>)
    ensures |r| >= 1
    decreases |s|
  {
    var n := LeadCount(s, NotNewline);
    if n == |s| then [s] else [s[..n]] + SplitLines(s[n + 1..])
  }

  predicate NoNewline(s: string) {
    forall k :: 0 <= k < |s| ==> s[k] != '\n'
  }

  lemma SplitAtFirst(a: string, b: string)
    requires NoNewline(a)
    ensures SplitLines(a + "\n" + b) == [a] + SplitLines(b)
  {
    var s := a + "\n" + b;
    assert s == a + ("\n" + b);
    LeadCountConcat(a, "\n" + b, NotNewline);
    assert s[..|a|] == a && s[|a| + 1..] == b;
  }

  lemma SplitNone(a: string)
    requires NoNewline(a)
    ensures SplitLines(a) == [a]
  {
    assert LeadCount(a, NotNewline) == |a|;
  }

  /** Lines without newlines joined by newlines split back into the same lines. */
  lemma {:induction false} SplitJoin(lines: seq<string>)
    requires |lines| >= 1
    requires forall i :: 0 <= i < |lines| ==> NoNewline(lines[i])
    ensures SplitLines(Join("\n", lines)) == lines
  {
    if |lines| == 1 {
      SplitNone(lines[0]);
    } else {
      SplitJoin(lines[1..]);
      SplitAtFirst(lines[0], Join("\n", lines[1..]));
    }
  }

  /** The subtasks can be read back from the block, one per line, when none of them spans lines. */
  lemma SubtasksTextReadsBack(subtasks: seq<string>)
    requires subtasks != []
    requires forall i :: 0 <= i < |subtasks| ==> NoNewline(subtasks[i])
    ensures SubtasksText(subtasks) == "Subtasks:\n" + Join("\n", SubtaskLines(subtasks))
    ensures SplitLines(Join("\n", SubtaskLines(subtasks))) == SubtaskLines(subtasks)
  {
    var lines := SubtaskLines(subtasks);
    forall i | 0 <= i < |lines| ensures NoNewline(lines[i]) {
      assert lines[i] == "- " + subtasks[i];
      forall k | 0 <= k < |lines[i]| ensures lines[i][k] != '\n' {
        if k >= 2 {
          assert lines[i][k] == subtasks[i][k - 2];
        }
      }
    }
    SplitJoin(lines);
  }

  // ---------- send_task_created_notification ----------

  /** The task dictionary fields the notification reads. */
  datatype TaskData = TaskData(title: Field, deadline: DeadlineValue, subtasks: seq<string>, aiGenerated: bool)

  /**
   * The dictionary `Task.to_dict` writes, as the notifier reads it: every
   * key is present, so a missing title shows as "None", not as the default.
   */
  function TaskDataOf(title: Option<string>, deadline: Option<string>, subtasks: seq<string>,
                      aiGenerated: bool): (r: TaskData)
    ensures Subject(r.title) == SubjectPrefix + (if title.Some? then title.value else "None")
    ensures HasDeadline(r.deadline) <==> Truthy(deadline)
    ensures r.subtasks == subtasks && r.aiGenerated == aiGenerated
  {
    TaskData(if title.Some? then Value(title.value) else Null,
             if deadline.Some? then AsText(deadline.value) else NoDeadline,
             subtasks, aiGenerated)
  }

  /** What a route hands the notifier besides the task: suppression, configuration, whether `mail.send` raises, the parsers. */
  datatype Mailer = Mailer(suppress: bool, env: MailEnv, sendRaises: bool, parsers: Parsers)

  /** The plain-text parts of the message handed to `mail.send`. */
  datatype Message = Message(subject: string, recipients: seq<string>, deadlineText: string,
                             subtasksText: string, aiText: string)

  /** What the notifier returns, and the message it tried to send, if any. */
  datatype Notified = Notified(result: bool, attempted: Option<Message>)

  /** Whether the deadline entry is truthy. */
  predicate HasDeadline(d: DeadlineValue) {
    d.AtTime? || (d.AsText? && d.text != "")
  }

  function BuildMessage(userEmail: string, task: TaskData, parsers: Parsers): Message {
    Message(Subject(task.title), [userEmail],
            if HasDeadline(task.deadline) then "Deadline: " + FormatDeadline(task.deadline, parsers) else "",
            SubtasksText(task.subtasks),
            if task.aiGenerated then " | Generated with AI" else " | Created manually")
  }

  /**
   * `send_task_created_notification`: suppressed sending counts as sent and
   * is decided first; an unconfigured mailer gives `False`; otherwise the
   * message is handed over and a failing send gives `False`.
   */
  function SendTaskCreatedNotification(suppress: bool, env: MailEnv, sendRaises: bool,
                                       userEmail: string, task: TaskData, parsers: Parsers): (r: Notified)
    ensures suppress ==> r == Notified(true, None)
    ensures !suppress && !IsEmailConfigured(env) ==> r == Notified(false, None)
    ensures r.attempted.Some? <==> !suppress && IsEmailConfigured(env)
    ensures r.attempted.Some? ==> r.result == !sendRaises && r.attempted.value.recipients == [userEmail]
    ensures r.attempted.Some? ==> r.attempted.value.subject == Subject(task.title)
  {
    if suppress then Notified(true, None)
    else if !IsEmailConfigured(env) then Notified(false, None)
    else Notified(!sendRaises, Some(BuildMessage(userEmail, task, parsers)))
  }

  /** Without suppression, the notifier reports success exactly when the mailer is configured and the send went through. */
  lemma NotificationResult(env: MailEnv, sendRaises: bool, userEmail: string, task: TaskData, parsers: Parsers)
    ensures SendTaskCreatedNotification(false, env, sendRaises, userEmail, task, parsers).result
            <==> IsEmailConfigured(env) && !sendRaises
  {
  }

  // ---------- send_test_email ----------

  /** `send_test_email`, with the transport's error text when `mail.send` raises. */
  function SendTestEmail(suppress: bool, env: MailEnv, sendError: Option<string>): (r: (bool, string))
    ensures suppress ==> r.0
    ensures !suppress && !IsEmailConfigured(env) ==> !r.0
    ensures !suppress && IsEmailConfigured(env) ==> (r.0 <==> sendError.None?)
    ensures sendError.Some? && !suppress && IsEmailConfigured(env) ==> r.1 == "Failed to send test email: " + sendError.value
  {
    if suppress then (true, "MAIL_SUPPRESS_SEND is True – test considered sent (no email dispatched).")
    else if !IsEmailConfigured(env) then
      (false, "Email not configured. Please set MAIL_USERNAME, MAIL_PASSWORD, MAIL_DEFAULT_SENDER.")
    else if sendError.None? then (true, "Test email sent successfully")
    else (false, "Failed to send test email: " + sendError.value)
  }

  /** The test mail and the notifier decide in the same order and agree on success. */
  lemma TestAgreesWithNotifier(suppress: bool, env: MailEnv, sendError: Option<string>,
                               userEmail: string, task: TaskData, parsers: Parsers)
    ensures SendTestEmail(suppress, env, sendError).0
            == SendTaskCreatedNotification(suppress, env, sendError.Some?, userEmail, task, parsers).result
  {
  }
}
