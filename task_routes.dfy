/**
 * `routes/task_routes.py`: the listing order, the create and update
 * handlers with their field normalisation and reminder (re)scheduling,
 * the delete handler's access check and the statistics counts.
 *
 * Handlers take the parsed request and the looked-up records as inputs and
 * return the HTTP status; the reminder table is the `ReminderService`
 * object, which nothing in the application starts.
 */
module TaskRoutes {
  import opened Wrappers
  import opened Text
  import opened Clock
  import opened StableSort
  import MongoModels
  import ReminderService
  import Email

  // ---------- listing order ----------

  /** The fields of a task that the listing order and the statistics read. */
  datatype TaskRow = TaskRow(id: int, status: string, priority: string,
                             deadline: Option<Instant>, createdAt: Option<Instant>)

  /**
   * `_sort_deadline_first` as an integer tuple: completed flag; then the
   * deadline, where `datetime.max` (later than any whole-minute deadline) is
   * written as a flag that puts missing deadlines after all others; then
   * minus the creation time, or 0 when it is missing.
   */
  function DeadlineFirstKey(t: TaskRow): (k: Key)
    ensures |k| == 4
  {
    [ if t.status == "completed" then 1 else 0,
      if t.deadline.None? then 1 else 0,
      if t.deadline.None? then 0 else Minutes(t.deadline.value),
      if t.createdAt.None? then 0 else -Minutes(t.createdAt.value) ]
  }

  /** Python's tuple `<=` on two 4-tuples, spelled out. */
  lemma LexLe4(a: Key, b: Key)
    requires |a| == 4 && |b| == 4
    ensures LexLe(a, b) <==>
      a[0] < b[0] || (a[0] == b[0] && (a[1] < b[1] || (a[1] == b[1] && (a[2] < b[2] || (a[2] == b[2] && a[3] <= b[3])))))
  {
    assert a[1..][1..] == a[2..] && b[1..][1..] == b[2..];
    assert a[2..][1..] == a[3..] && b[2..][1..] == b[3..];
    assert a[3..][1..] == a[4..] && b[3..][1..] == b[4..];
    assert LexLe(a[4..], b[4..]);
    assert LexLe(a[3..], b[3..]) <==> a[3] < b[3] || (a[3] == b[3] && LexLe(a[4..], b[4..]));
    assert LexLe(a[2..], b[2..]) <==> a[2] < b[2] || (a[2] == b[2] && LexLe(a[3..], b[3..]));
    assert LexLe(a[1..], b[1..]) <==> a[1] < b[1] || (a[1] == b[1] && LexLe(a[2..], b[2..]));
  }

  /** `tasks.sort(key=_sort_deadline_first)` on the task snapshots. */
  function SortForListing(rows: seq<TaskRow>): (r: seq<TaskRow>)
    ensures multiset(r) == multiset(rows) && |r| == |rows|
    ensures forall i, j :: 0 <= i < j < |r| ==> LexLe(DeadlineFirstKey(r[i]), DeadlineFirstKey(r[j]))
    ensures forall k :: Select(r, DeadlineFirstKey, k) == Select(rows, DeadlineFirstKey, k)
  {
    SortProperties(rows, DeadlineFirstKey);
    forall k ensures Select(Sort(rows, DeadlineFirstKey), DeadlineFirstKey, k) == Select(rows, DeadlineFirstKey, k) {
      SortStable(rows, DeadlineFirstKey, k);
    }
    Sort(rows, DeadlineFirstKey)
  }

  /** Every unfinished task is listed before every completed one. */
  lemma CompletedListedLast(rows: seq<TaskRow>, i: nat, j: nat)
    requires i < j < |SortForListing(rows)|
    requires SortForListing(rows)[i].status == "completed"
    ensures SortForListing(rows)[j].status == "completed"
  {
    var r := SortForListing(rows);
    LexLe4(DeadlineFirstKey(r[i]), DeadlineFirstKey(r[j]));
  }

  /** Within a completion class, deadlines come in order and tasks without one come last. */
  lemma DeadlinesInOrder(rows: seq<TaskRow>, i: nat, j: nat)
    requires i < j < |SortForListing(rows)|
    requires (SortForListing(rows)[i].status == "completed") == (SortForListing(rows)[j].status == "completed")
    ensures SortForListing(rows)[j].deadline.Some? ==> SortForListing(rows)[i].deadline.Some?
    ensures SortForListing(rows)[i].deadline.Some? && SortForListing(rows)[j].deadline.Some? ==>
      Minutes(SortForListing(rows)[i].deadline.value) <= Minutes(SortForListing(rows)[j].deadline.value)
  {
    var r := SortForListing(rows);
    LexLe4(DeadlineFirstKey(r[i]), DeadlineFirstKey(r[j]));
  }

  /** Tasks alike in completion and deadline are listed newest first; a missing creation time counts as 0. */
  lemma NewestFirstOnTies(rows: seq<TaskRow>, i: nat, j: nat)
    requires i < j < |SortForListing(rows)|
    requires (SortForListing(rows)[i].status == "completed") == (SortForListing(rows)[j].status == "completed")
    requires SortForListing(rows)[i].deadline == SortForListing(rows)[j].deadline
    ensures DeadlineFirstKey(SortForListing(rows)[i])[3] <= DeadlineFirstKey(SortForListing(rows)[j])[3]
    ensures SortForListing(rows)[i].createdAt.Some? && SortForListing(rows)[j].createdAt.Some? ==>
      Minutes(SortForListing(rows)[i].createdAt.value) >= Minutes(SortForListing(rows)[j].createdAt.value)
  {
    var r := SortForListing(rows);
    LexLe4(DeadlineFirstKey(r[i]), DeadlineFirstKey(r[j]));
  }

  // ---------- create ----------

  /** The JSON body of a create request, with the deadline already parsed by `_parse_deadline`. */
  datatype CreateRequest = CreateRequest(
    title: Option<string>, description: Option<string>, deadline: Option<Instant>,
    priority: Option<string>, category: Option<string>, aiGenerated: bool,
    subtasks: MongoModels.SubtaskArg)

  /** The user's contact fields, when `User.find_by_id` found the user. */
  datatype Contact = Contact(email: Option<string>, whatsapp: Option<string>)

  /** Python truthiness of the `subtasks` value. */
  predicate SubtasksGiven(arg: MongoModels.SubtaskArg) {
    match arg
    case ListArg(items) => items != []
    case TextArg(text) => text != ""
    case FalsyArg => false
  }

  lemma UngivenSubtasksAreEmpty(arg: MongoModels.SubtaskArg)
    requires !SubtasksGiven(arg)
    ensures MongoModels.CleanSubtasks(MongoModels.ArgItems(arg)) == []
  {
  }

  /** The title a create request keeps: the stripped input, empty when missing. */
  function CreateTitle(req: CreateRequest): string {
    Strip(OrElse(req.title, ""))
  }

  /** The priority a new task stores: lower-cased, "medium" by default. */
  function CreatePriority(req: CreateRequest): (p: string)
    ensures IsLower(p)
    ensures !Truthy(req.priority) ==> p == "medium"
  {
    LowerIsLower(OrElse(req.priority, "medium"));
    Lower(OrElse(req.priority, "medium"))
  }

  lemma PendingIsLower()
    ensures Lower("pending") == "pending"
  {
    var p := "pending";
    assert forall i :: 0 <= i < |p| ==> 'a' <= p[i] <= 'z';
    LowerOfLower(p);
  }

  /** `Task.__init__` lower-cases the priority again, which changes nothing. */
  lemma CreatePriorityStable(req: CreateRequest)
    ensures Lower(OrElse(Some(CreatePriority(req)), "medium")) == CreatePriority(req)
  {
    var p := CreatePriority(req);
    assert |p| == |OrElse(req.priority, "medium")| > 0;
    LowerOfLower(p);
  }

  /** The category a new task stores: stripped then lower-cased; missing or blank gives "general". */
  function CreateCategory(req: CreateRequest): (c: string)
    ensures IsLower(c)
    ensures Strip(OrElse(req.category, "general")) == "" ==> c == "general"
    ensures Strip(OrElse(req.category, "general")) != "" ==> c == Lower(Strip(OrElse(req.category, "general")))
  {
    var stripped := Strip(OrElse(req.category, "general"));
    LowerIsLower(OrElse(Some(stripped), "general"));
    Lower(OrElse(Some(stripped), "general"))
  }

  /** The reminder's contact fields: only the user's non-empty e-mail and WhatsApp number are added. */
  function ContactEmail(user: Option<Contact>): Option<string> {
    if user.Some? && Truthy(user.value.email) then user.value.email else None
  }

  function ContactWhatsApp(user: Option<Contact>): Option<string> {
    if user.Some? && Truthy(user.value.whatsapp) then user.value.whatsapp else None
  }

  /** The deadline as the task dictionary carries it to the reminder service: `isoformat()` text, or `None`. */
  function DictDeadline(deadline: Option<Instant>): (raw: ReminderService.RawDeadline)
    ensures deadline.None? ==> raw == ReminderService.NoValue
    ensures deadline.Some? ==> raw.TextValue? && ParseIso(raw.text) == Some(deadline.value)
  {
    if deadline.None? then ReminderService.NoValue
    else
      IsoRoundTrip(deadline.value);
      ReminderService.TextValue(IsoFormat(deadline.value))
  }

  /**
   * The date parser's reading of a dictionary deadline.  The text always has
   * the `isoformat()` shape, on which `dateutil` and `fromisoformat` agree,
   * so the reading is `ParseIso`'s.
   */
  function ReadDictDeadline(raw: ReminderService.RawDeadline): Option<Instant> {
    if raw.TextValue? && ParseIso(raw.text).Some? && Valid(ParseIso(raw.text).value)
    then Some(ParseIso(raw.text).value)
    else None
  }

  /** The reminder service reads the dictionary deadline back to the task's own deadline. */
  lemma DictDeadlineReadsBack(deadline: Option<Instant>)
    ensures ReminderService.ParseDeadline(DictDeadline(deadline), ReadDictDeadline(DictDeadline(deadline))) == deadline
  {
  }

  /** How a title prints in the reminder text. */
  function TitleText(title: Option<string>): string {
    if title.None? then "None" else title.value
  }

  /** The creation-time WhatsApp message goes only to a number starting with "+" of at least 10 characters. */
  predicate CreationWhatsAppAllowed(user: Option<Contact>) {
    user.Some? && Truthy(user.value.whatsapp) && StartsWith(user.value.whatsapp.value, "+")
      && |user.value.whatsapp.value| >= 10
  }

  /** The task `create_task` builds from a request with a non-blank title, subtasks included. */
  method NewTask(req: CreateRequest, userId: int, utcNow: Instant) returns (t: MongoModels.Task)
    requires CreateTitle(req) != ""
    ensures fresh(t)
    ensures t.id.None? && t.title == Some(CreateTitle(req))
    ensures t.description == (if Strip(OrElse(req.description, "")) == "" then None
                              else Some(Strip(OrElse(req.description, ""))))
    ensures t.deadline == req.deadline
    ensures t.priority == CreatePriority(req) && t.category == CreateCategory(req) && t.status == "pending"
    ensures t.userId == userId
    ensures t.subtasks == MongoModels.CleanSubtasks(MongoModels.ArgItems(req.subtasks))
  {
    var description := Strip(OrElse(req.description, ""));
    var priority := Lower(OrElse(req.priority, "medium"));
    var category := Strip(OrElse(req.category, "general"));
    var deadline := if req.deadline.None? then MongoModels.DtNone else MongoModels.DtValue(req.deadline.value);
    t := new MongoModels.Task(None, Some(CreateTitle(req)), Some(description), deadline,
                              Some(priority), Some(category), Some("pending"), userId, Some(req.aiGenerated), [],
                              MongoModels.DtNone, MongoModels.DtNone, MongoModels.IsoParse, utcNow);
    CreatePriorityStable(req);
    assert t.category == CreateCategory(req);
    PendingIsLower();
    if SubtasksGiven(req.subtasks) {
      t.SetSubtasks(req.subtasks);
    } else {
      UngivenSubtasksAreEmpty(req.subtasks);
    }
  }

  /**
   * `create_task`: 400 for a blank title; otherwise the task is built,
   * saved with the next id, a reminder is requested, and the owner is
   * notified by e-mail when they have an address.  A failure to schedule
   * or to send does not change the answer.
   */
  method CreateTask(svc: ReminderService.ReminderService, req: CreateRequest, userId: int, nextId: int,
                    user: Option<Contact>, utcNow: Instant, localNow: int, mailer: Email.Mailer)
    returns (code: int, task: MongoModels.Task?, reminder: Option<ReminderService.Outcome>,
             mail: Option<Email.Notified>, whatsappSent: bool)
    requires svc.Valid() && nextId > 0
    modifies svc
    ensures svc.Valid() && svc.started == old(svc.started)
    ensures code == 400 <==> CreateTitle(req) == ""
    ensures code == 400 ==> task == null && reminder.None? && svc.jobs == old(svc.jobs) && mail.None? && !whatsappSent
    ensures code != 400 ==> code == 201 && task != null && fresh(task)
    ensures code == 201 ==> && task.id == Some(nextId)
                            && task.title == Some(CreateTitle(req))
                            && task.description == (if Strip(OrElse(req.description, "")) == "" then None
                                                    else Some(Strip(OrElse(req.description, ""))))
                            && task.deadline == req.deadline
                            && task.priority == CreatePriority(req)
                            && task.category == CreateCategory(req)
                            && task.status == "pending"
                            && task.userId == userId
                            && task.subtasks == MongoModels.CleanSubtasks(MongoModels.ArgItems(req.subtasks))
    ensures code == 201 ==> reminder == Some(ReminderService.Plan(Some(nextId), CreateTitle(req), req.deadline,
                                                ContactEmail(user), ContactWhatsApp(user), localNow, old(svc.started)))
    ensures reminder.Some? ==> svc.jobs == ReminderService.Apply(old(svc.jobs), reminder.value)
    ensures code == 201 ==> (mail.Some? <==> Truthy(ContactEmail(user)))
    ensures code == 201 && mail.Some? ==>
      var d := task.ToDict();
      mail.value == Email.SendTaskCreatedNotification(mailer.suppress, mailer.env, mailer.sendRaises,
                                                      ContactEmail(user).value,
                                                      Email.TaskDataOf(d.title, d.deadline, d.subtasks, d.aiGenerated),
                                                      mailer.parsers)
    ensures code == 201 ==> whatsappSent == CreationWhatsAppAllowed(user)
  {
    var title := Strip(OrElse(req.title, ""));
    if title == "" {
      return 400, null, None, None, false;
    }
    var t := NewTask(req, userId, utcNow);
    var op := t.Save(nextId);
    DictDeadlineReadsBack(t.deadline);
    var o := svc.ScheduleTaskReminder(t.id, Some(TitleText(t.title)), DictDeadline(t.deadline),
                                      ReadDictDeadline(DictDeadline(t.deadline)),
                                      ContactEmail(user), ContactWhatsApp(user), localNow);
    mail := None;
    if Truthy(ContactEmail(user)) {
      var d := t.ToDict();
      mail := Some(Email.SendTaskCreatedNotification(mailer.suppress, mailer.env, mailer.sendRaises,
                                                     ContactEmail(user).value,
                                                     Email.TaskDataOf(d.title, d.deadline, d.subtasks, d.aiGenerated),
                                                     mailer.parsers));
    }
    whatsappSent := CreationWhatsAppAllowed(user);
    return 201, t, Some(o), mail, whatsappSent;
  }

  /** The wiring gap: with the reminder scheduler never started, creating a task never adds a reminder. */
  lemma CreateNeverSchedulesWhenNotStarted(req: CreateRequest, nextId: int, user: Option<Contact>, localNow: int)
    requires CreateTitle(req) != "" && nextId > 0
    ensures ReminderService.Plan(Some(nextId), CreateTitle(req), req.deadline,
                                 ContactEmail(user), ContactWhatsApp(user), localNow, false).Scheduled? == false
    ensures req.deadline.Some? && ReminderService.FireTime(req.deadline.value) > localNow ==>
      ReminderService.Plan(Some(nextId), CreateTitle(req), req.deadline,
                           ContactEmail(user), ContactWhatsApp(user), localNow, false) == ReminderService.SchedulerMissing
  {
  }

  // ---------- get / update / delete ----------

  /** The handlers' access check: 404 unless the task exists and belongs to the caller. */
  function AccessCode(found: bool, owner: int, userId: int): (code: int)
    ensures code == 404 <==> !found || owner != userId
    ensures code == 200 <==> found && owner == userId
  {
    if !found || owner != userId then 404 else 200
  }

  /** `delete_task`: the access check, then the document is deleted; the reminder table is not touched. */
  function DeleteTask(task: Option<TaskRow>, owner: int, userId: int): (code: int)
    ensures code == 200 <==> task.Some? && owner == userId
    ensures code != 200 ==> code == 404
  {
    AccessCode(task.Some?, owner, userId)
  }

  /**
   * The update condition: at least one of the two deadlines is set and they
   * differ.  A datetime is always truthy, so this is plain inequality.
   */
  function ShouldReschedule(before: Option<Instant>, after: Option<Instant>): (r: bool)
    ensures r <==> before != after
  {
    (before.Some? || after.Some?) && before != after
  }

  /** A present `update_task` text field: stripped, with `null` read as "". */
  function UpdatedText(fields: map<string, Option<string>>, key: string): string
    requires key in fields
  {
    Strip(OrElse(fields[key], ""))
  }

  /** The JSON body of an update: present text fields, and the deadline and subtasks when present. */
  datatype UpdateRequest = UpdateRequest(
    fields: map<string, Option<string>>,
    deadline: Option<Option<Instant>>,
    subtasks: Option<MongoModels.SubtaskArg>)

  const UpdatableFields: seq<string> := ["title", "description", "priority", "category", "status"]

  /** The five text fields `update_task` may set. */
  datatype TextFields = TextFields(title: Option<string>, description: Option<string>,
                                   priority: string, category: string, status: string)

  function TextOf(task: MongoModels.Task): TextFields
    reads task
  {
    TextFields(task.title, task.description, task.priority, task.category, task.status)
  }

  /** `setattr` on the text fields: the named one takes `value`, the others keep theirs. */
  function SetField(t: TextFields, key: string, value: string): TextFields
    requires key in UpdatableFields
  {
    if key == "title" then t.(title := Some(value))
    else if key == "description" then t.(description := Some(value))
    else if key == "priority" then t.(priority := value)
    else if key == "category" then t.(category := value)
    else t.(status := value)
  }

  /** `setattr(task, key, value)` for one of the updatable text fields. */
  method SetTextField(task: MongoModels.Task, key: string, value: string)
    requires key in UpdatableFields
    modifies task
    ensures TextOf(task) == SetField(old(TextOf(task)), key, value)
    ensures task.Untouched() == old(task.Untouched())
  {
    if key == "title" {
      task.title := Some(value);
    } else if key == "description" {
      task.description := Some(value);
    } else if key == "priority" {
      task.priority := value;
    } else if key == "category" {
      task.category := value;
    } else {
      task.status := value;
    }
  }

  /** The text fields after the loop has visited the first `i` names. */
  function UpdatedUpTo(fields: map<string, Option<string>>, before: TextFields, i: nat): TextFields {
    TextFields(
      if i > 0 && "title" in fields then Some(UpdatedText(fields, "title")) else before.title,
      if i > 1 && "description" in fields then Some(UpdatedText(fields, "description")) else before.description,
      if i > 2 && "priority" in fields then UpdatedText(fields, "priority") else before.priority,
      if i > 3 && "category" in fields then UpdatedText(fields, "category") else before.category,
      if i > 4 && "status" in fields then UpdatedText(fields, "status") else before.status)
  }

  /** One step of the loop: visiting name `i` sets it when present. */
  lemma UpdatedStep(fields: map<string, Option<string>>, before: TextFields, i: nat)
    requires i < |UpdatableFields|
    ensures var key := UpdatableFields[i];
      UpdatedUpTo(fields, before, i + 1)
      == if key in fields then SetField(UpdatedUpTo(fields, before, i), key, UpdatedText(fields, key))
         else UpdatedUpTo(fields, before, i)
  {
    FieldAt(i);
  }

  /** The `setattr` loop of `update_task` over the five text fields. */
  method ApplyTextFields(task: MongoModels.Task, fields: map<string, Option<string>>)
    modifies task
    ensures task.title == (if "title" in fields then Some(UpdatedText(fields, "title")) else old(task.title))
    ensures task.description == (if "description" in fields then Some(UpdatedText(fields, "description")) else old(task.description))
    ensures task.priority == (if "priority" in fields then UpdatedText(fields, "priority") else old(task.priority))
    ensures task.category == (if "category" in fields then UpdatedText(fields, "category") else old(task.category))
    ensures task.status == (if "status" in fields then UpdatedText(fields, "status") else old(task.status))
    ensures task.id == old(task.id) && task.deadline == old(task.deadline) && task.userId == old(task.userId)
    ensures task.subtasks == old(task.subtasks) && task.aiGenerated == old(task.aiGenerated)
    ensures task.createdAt == old(task.createdAt) && task.updatedAt == old(task.updatedAt)
  {
    ghost var before := TextOf(task);
    var i := 0;
    while i < |UpdatableFields|
      invariant 0 <= i <= |UpdatableFields|
      invariant TextOf(task) == UpdatedUpTo(fields, before, i)
      invariant task.Untouched() == old(task.Untouched())
    {
      var key := UpdatableFields[i];
      UpdatedStep(fields, before, i);
      if key in fields {
        SetTextField(task, key, Strip(OrElse(fields[key], "")));
      }
      i := i + 1;
    }
  }

  /** Which field the loop visits at step `i`. */
  lemma FieldAt(i: int)
    requires 0 <= i < |UpdatableFields|
    ensures (UpdatableFields[i] == "title") == (i == 0)
    ensures (UpdatableFields[i] == "description") == (i == 1)
    ensures (UpdatableFields[i] == "priority") == (i == 2)
    ensures (UpdatableFields[i] == "category") == (i == 3)
    ensures (UpdatableFields[i] == "status") == (i == 4)
  {
    assert "priority"[0] != "category"[0];
  }

  /** The body of `update_task` between the access check and rescheduling: apply the fields, then save. */
  method ApplyUpdate(task: MongoModels.Task, req: UpdateRequest, nextId: int, utcNow: Instant)
    modifies task
    ensures task.title == (if "title" in req.fields then Some(UpdatedText(req.fields, "title")) else old(task.title))
    ensures task.description == (if "description" in req.fields then Some(UpdatedText(req.fields, "description")) else old(task.description))
    ensures task.priority == (if "priority" in req.fields then UpdatedText(req.fields, "priority") else old(task.priority))
    ensures task.category == (if "category" in req.fields then UpdatedText(req.fields, "category") else old(task.category))
    ensures task.status == (if "status" in req.fields then UpdatedText(req.fields, "status") else old(task.status))
    ensures task.deadline == (if req.deadline.Some? then req.deadline.value else old(task.deadline))
    ensures task.subtasks == (if req.subtasks.Some? then MongoModels.CleanSubtasks(MongoModels.ArgItems(req.subtasks.value))
                              else old(task.subtasks))
    ensures task.id == (if old(task.id).Some? && old(task.id).value != 0 then old(task.id) else Some(nextId))
    ensures task.userId == old(task.userId) && task.updatedAt == utcNow
    ensures task.aiGenerated == old(task.aiGenerated) && task.createdAt == old(task.createdAt)
  {
    ApplyTextFields(task, req.fields);
    if req.deadline.Some? {
      task.deadline := req.deadline.value;
    }
    if req.subtasks.Some? {
      task.SetSubtasks(req.subtasks.value);
    }
    task.updatedAt := utcNow;
    var op := task.Save(nextId);
  }

  /**
   * `update_task`: 404 unless the caller owns the task; otherwise each
   * present field is replaced (text stripped, not lower-cased), the task is
   * saved, and a reminder is requested again when the deadline changed.
   */
  method UpdateTask(svc: ReminderService.ReminderService, task: MongoModels.Task?, userId: int,
                    req: UpdateRequest, user: Option<Contact>, nextId: int, utcNow: Instant, localNow: int)
    returns (code: int, reminder: Option<ReminderService.Outcome>)
    requires svc.Valid()
    modifies svc, task
    ensures svc.Valid() && svc.started == old(svc.started)
    ensures code == 404 <==> task == null || old(task.userId) != userId
    ensures code == 404 ==> reminder.None? && svc.jobs == old(svc.jobs)
    ensures code == 404 && task != null ==> unchanged(task)
    ensures code != 404 ==> code == 200
    ensures code == 200 ==>
      && task.title == (if "title" in req.fields then Some(UpdatedText(req.fields, "title")) else old(task.title))
      && task.description == (if "description" in req.fields then Some(UpdatedText(req.fields, "description")) else old(task.description))
      && task.priority == (if "priority" in req.fields then UpdatedText(req.fields, "priority") else old(task.priority))
      && task.category == (if "category" in req.fields then UpdatedText(req.fields, "category") else old(task.category))
      && task.status == (if "status" in req.fields then UpdatedText(req.fields, "status") else old(task.status))
      && task.deadline == (if req.deadline.Some? then req.deadline.value else old(task.deadline))
      && task.subtasks == (if req.subtasks.Some? then MongoModels.CleanSubtasks(MongoModels.ArgItems(req.subtasks.value))
                           else old(task.subtasks))
      && task.id == (if old(task.id).Some? && old(task.id).value != 0 then old(task.id) else Some(nextId))
      && task.userId == old(task.userId) && task.updatedAt == utcNow
      && task.aiGenerated == old(task.aiGenerated) && task.createdAt == old(task.createdAt)
    ensures code == 200 ==> (reminder.Some? <==> ShouldReschedule(old(task.deadline), task.deadline))
    ensures reminder.Some? ==> reminder.value == ReminderService.Plan(task.id, TitleText(task.title), task.deadline,
                                 ContactEmail(user), ContactWhatsApp(user), localNow, old(svc.started))
    ensures reminder.Some? ==> svc.jobs == ReminderService.Apply(old(svc.jobs), reminder.value)
    ensures reminder.None? ==> svc.jobs == old(svc.jobs)
  {
    if task == null || task.userId != userId {
      return 404, None;
    }
    var originalDeadline := task.deadline;
    ApplyUpdate(task, req, nextId, utcNow);
    if ShouldReschedule(originalDeadline, task.deadline) {
      DictDeadlineReadsBack(task.deadline);
      var o := svc.ScheduleTaskReminder(task.id, Some(TitleText(task.title)), DictDeadline(task.deadline),
                                        ReadDictDeadline(DictDeadline(task.deadline)),
                                        ContactEmail(user), ContactWhatsApp(user), localNow);
      return 200, Some(o);
    }
    return 200, None;
  }

  /** Clearing a deadline requests a reminder that the checks drop, so an existing reminder stays. */
  lemma ClearingDeadlineKeepsReminder(jobs: map<string, ReminderService.Job>, taskId: Option<int>, title: string,
                                      email: Option<string>, whatsapp: Option<string>, now: int, started: bool)
    ensures ReminderService.Apply(jobs, ReminderService.Plan(taskId, title, None, email, whatsapp, now, started)) == jobs
  {
    ReminderService.DroppedRequestChangesNothing(jobs, taskId, title, None, email, whatsapp, now, started);
  }

  // ---------- statistics ----------

  predicate IsOverdue(t: TaskRow, now: int) {
    t.deadline.Some? && Minutes(t.deadline.value) < now && t.status != "completed"
  }

  function OverdueCount(rows: seq<TaskRow>, now: int): nat {
    if rows == [] then 0 else OverdueCount(rows[..|rows| - 1], now) + (if IsOverdue(rows[|rows| - 1], now) then 1 else 0)
  }

  /** `sum(1 for t in all_tasks if t.priority == p)`. */
  function PriorityCount(rows: seq<TaskRow>, p: string): (n: nat)
    ensures n <= |rows|
  {
    if rows == [] then 0 else (if rows[0].priority == p then 1 else 0) + PriorityCount(rows[1..], p)
  }

  function CompletedCount(rows: seq<TaskRow>): nat {
    if rows == [] then 0 else CompletedCount(rows[..|rows| - 1]) + (if rows[|rows| - 1].status == "completed" then 1 else 0)
  }

  datatype TaskCounts = TaskCounts(overdue: nat, urgent: nat, high: nat)

  /** The counting part of `get_task_stats`. */
  method CountTasks(rows: seq<TaskRow>, now: int) returns (c: TaskCounts)
    ensures c.overdue == OverdueCount(rows, now)
    ensures c.urgent == PriorityCount(rows, "urgent") && c.high == PriorityCount(rows, "high")
  {
    var overdue := 0;
    var i := 0;
    while i < |rows|
      invariant 0 <= i <= |rows|
      invariant overdue == OverdueCount(rows[..i], now)
    {
      assert rows[..i + 1][..i] == rows[..i];
      var t := rows[i];
      if t.deadline.Some? && Minutes(t.deadline.value) < now && t.status != "completed" {
        overdue := overdue + 1;
      }
      i := i + 1;
    }
    assert rows[..i] == rows;
    c := TaskCounts(overdue, PriorityCount(rows, "urgent"), PriorityCount(rows, "high"));
  }

  /** Overdue and completed tasks are disjoint, so together they never exceed the list. */
  lemma {:induction false} OverdueBound(rows: seq<TaskRow>, now: int)
    ensures OverdueCount(rows, now) + CompletedCount(rows) <= |rows|
  {
    if rows != [] {
      OverdueBound(rows[..|rows| - 1], now);
    }
  }

  /** Time only adds overdue tasks. */
  lemma {:induction false} OverdueMonotone(rows: seq<TaskRow>, now1: int, now2: int)
    requires now1 <= now2
    ensures OverdueCount(rows, now1) <= OverdueCount(rows, now2)
  {
    if rows != [] {
      OverdueMonotone(rows[..|rows| - 1], now1, now2);
    }
  }

  /** A task counts as overdue exactly when it is in the list and matches the rule. */
  lemma {:induction false} OverdueCountPositive(rows: seq<TaskRow>, now: int)
    ensures OverdueCount(rows, now) > 0 <==> exists i :: 0 <= i < |rows| && IsOverdue(rows[i], now)
  {
    if rows != [] {
      var init := rows[..|rows| - 1];
      OverdueCountPositive(init, now);
      if exists i :: 0 <= i < |init| && IsOverdue(init[i], now) {
        var i :| 0 <= i < |init| && IsOverdue(init[i], now);
        assert rows[i] == init[i];
      }
      if exists i :: 0 <= i < |rows| && IsOverdue(rows[i], now) {
        var i :| 0 <= i < |rows| && IsOverdue(rows[i], now);
        if i < |init| {
          assert init[i] == rows[i];
        }
      }
    }
  }
}
