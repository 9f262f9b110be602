# GenAI Task Manager — reminder core and request rules, in Dafny

This project models the back end of the GenAI Task Manager, a Flask service that stores
tasks in MongoDB, parses free text into tasks, sends e-mail and WhatsApp notifications,
and reminds users before deadlines.

The centre of the model is the **reminder job table**. It is a map from job id to a
pending reminder. Schedule, replace, cancel and fire steps change it. There are two copies:
- `ReminderService.ReminderService` models `services/reminder_service.py`, the copy the task routes call.
- `TaskScheduler.TaskScheduler` models `services/scheduler.py`, the copy the application wires in.

Time is integer minutes since the epoch (`Clock.Minutes`), and "now" is always a parameter.
Around the table sit the pure rules the handlers and services apply:
- the listing sort key and the statistics counts of the task routes;
- field normalisation on create and update, and the reschedule condition;
- the Mongo query builders, subtask cleaning, id assignment and serialisation;
- WhatsApp E.164 normalisation and the Twilio request;
- the AI title cleaning, category detection, priority sort and summary;
- keyword feature extraction and the translation shortcuts;
- the e-mail decision order and renderings;
- signup and login;
- the AI routes' input checks, candidate filter, summary and suggestions.

External services are inputs:
- date parsers, the translator and the language detector;
- the language model's reply (`AIService.ModelOutcome`);
- whether a mail send raises;
- Twilio's reply;
- the next database sequence value.

Each module corresponds to one source file:

| file | module | source |
|---|---|---|
| wrappers.dfy | Wrappers | Python `None`, exceptions, JSON entries |
| text.dfy | Text | `str.lower`, `str.strip`, `in`, `str(int)` on ASCII and Latin-1 |
| clock.dfy | Clock | `datetime` fields, `strftime` and `isoformat` renderings |
| stable_sort.dfy | StableSort | Python's stable `sorted` by a tuple key |
| reminder_service.dfy | ReminderService | backend/services/reminder_service.py |
| task_scheduler.dfy | TaskScheduler | backend/services/scheduler.py |
| task_routes.dfy | TaskRoutes | backend/routes/task_routes.py |
| models_mongo.dfy | MongoModels | backend/models_mongo.py |
| whatsapp_service.dfy | WhatsApp | backend/services/whatsapp_service.py |
| ai_service.dfy | AIService | backend/services/ai_service.py |
| translation_service.dfy | Translation | backend/services/translation_service.py |
| email_service.dfy | Email | backend/services/email_service.py |
| auth_routes.dfy | AuthRoutes | backend/routes/auth_routes.py |
| ai_routes.dfy | AiRoutes | backend/routes/ai_routes.py |

Where the design description and the code disagree, the model follows the code:
- Deleting a task, completing it, or clearing its deadline never cancels its reminder.
  - `TaskRoutes.DeleteTask` does not touch the table.
  - `TaskRoutes.ClearingDeadlineKeepsReminder` proves the clearing case.
- Nothing in the application calls `start_scheduler`, so `_scheduler` stays `None`.
  - Every schedulable request then ends in `SchedulerMissing`: `add_job` on `None` raises, and the route swallows the error.
  - `TaskRoutes.CreateNeverSchedulesWhenNotStarted` states this.
- The older `TaskScheduler` reads the SQLAlchemy `Task` and `User` models, but the application binds only MongoDB (backend/app.py:17). The scheduler's worker thread has no application context either. Every query therefore raises, and the error is swallowed.
  - `TaskScheduler.TaskScheduler.CheckUpcomingDeadlines` takes a `bound` flag; without it, the scan sends nothing.
  - `TaskScheduler.SendTaskReminder` takes the same flag; `TaskScheduler.UnboundRemindsNobody` states that it then prints nothing.
- `update_task` strips the text fields but does not lower-case them. Create does lower-case the priority.
- A reminder job that fires with an e-mail address raises before either message goes out, so the two channels are not independent (see "## Findings").
  - `ReminderService.ReminderJob` models the job as written.
  - `ReminderService.ReminderJobIntended` is the corrected job.
- Login strips the identifier but does not lower-case it, while signup stores e-mails lower-cased. A mixed-case e-mail login therefore fails (`AuthRoutes.LoginEmailCaseMatters`).

## Model

| member | source | states |
|---|---|---|
| ReminderService.JobId | backend/services/reminder_service.py:62-63 | the job id starts with `remind_task_` |
| ReminderService.JobIdInjective | backend/services/reminder_service.py:62-63 | distinct task ids give distinct job ids |
| ReminderService.FormatDt | backend/services/reminder_service.py:56-59 | `None` renders as "No deadline"; a deadline renders as 19 characters that read back to it |
| Clock.Hour12 | backend/services/reminder_service.py:59 | the 12-hour clock hour is 1..12, and hour 0 shows as 12 |
| Clock.Format12RoundTrip | backend/services/reminder_service.py:56-59 | `%d-%m-%Y %I:%M %p` loses nothing: parsing it back gives the datetime |
| ReminderService.ParseDeadline | backend/services/reminder_service.py:42-53 | falsy values and "" give no deadline; a datetime is kept; other text goes to the parser |
| ReminderService.Plan | backend/services/reminder_service.py:105-137 | a job is planned iff the id is truthy, the deadline is known, deadline − 30 min is after now, and the scheduler exists; a falsy id is reported first; the job carries both contacts, the title and the formatted deadline |
| ReminderService.Due | backend/services/reminder_service.py:96-101 | the due jobs are exactly the jobs whose fire time has come, unchanged |
| ReminderService.ReminderService.constructor | backend/services/reminder_service.py:28 | no scheduler and no jobs at module load |
| ReminderService.ReminderService.StartScheduler | backend/services/reminder_service.py:172-190 | an already running scheduler and its jobs are kept; otherwise one starts with an empty store |
| ReminderService.ReminderService.ScheduleCommon | backend/services/reminder_service.py:105-137 | the outcome is `Plan`'s; the table becomes the old one with the task's job removed and then re-added, or stays unchanged |
| ReminderService.ReminderService.ReplaceJob | backend/services/reminder_service.py:122-135 | the job under that id is removed, then the new one is added; every other job is kept |
| ReminderService.ReminderService.ScheduleTaskReminder | backend/services/reminder_service.py:140-148 | schedules from the task dictionary, with the title defaulting to "Untitled Task" |
| ReminderService.ReminderService.ScheduleTaskReminderFromModel | backend/services/reminder_service.py:151-159 | schedules from the task and user objects: no title default, and the deadline is taken as is |
| ReminderService.ReminderService.RemoveTaskReminder | backend/services/reminder_service.py:162-169 | the table loses exactly the task's job; absent or not started, nothing changes |
| ReminderService.ReminderService.FireDue | backend/services/reminder_service.py:96-101 | the due jobs run once and leave the table; the rest stay |
| ReminderService.ScheduleKeepsOtherTasks | backend/services/reminder_service.py:120-135 | scheduling one task leaves every other task's job exactly as it was |
| ReminderService.ScheduleInstallsJob | backend/services/reminder_service.py:120-135 | after a schedulable call the task has one job, at deadline − 30, with the new payload; the keys gain only that id |
| ReminderService.DroppedRequestChangesNothing | backend/services/reminder_service.py:106-118 | a falsy id, a missing deadline, or a fire time not after now leaves the table unchanged, including the task's old job |
| ReminderService.RescheduleReplaces | backend/services/reminder_service.py:120-135 | two schedules leave the same table as the second one alone |
| ReminderService.CancelKeepsOtherTasks | backend/services/reminder_service.py:162-169 | cancelling removes the task's job and keeps every other task's job |
| ReminderService.FireLeavesNothingDue | backend/services/reminder_service.py:96-101 | after a tick nothing due remains; fired and pending jobs partition the table |
| ReminderService.ExampleEveningDeadline | backend/services/reminder_service.py:115-135 | a 21:00 deadline scheduled at 10:00 fires at 20:30 and shows "10-01-2025 09:00 PM" |
| ReminderService.SendEmail | backend/services/reminder_service.py:67-81 | skipped iff the recipient is falsy; the context error escapes iff the recipient is truthy and no application context is active; otherwise the message goes to it, and is sent iff not suppressed and the transport does not raise |
| ReminderService.SendWhatsApp | backend/services/reminder_service.py:84-92 | skipped iff there is no number or no service; a request is made iff the number normalises to something |
| ReminderService.ReminderJob | backend/services/reminder_service.py:96-101 | the e-mail is skipped iff its recipient is missing; WhatsApp is not reached iff the e-mail step raised out of the job; when reached, it is skipped iff its number or the service is missing |
| ReminderService.ContextErrorStopsWhatsApp | backend/services/reminder_service.py:67-101 | a scheduled job with an e-mail address sends neither the e-mail nor the WhatsApp message |
| ReminderService.ChannelsCoupledAsWritten | backend/services/reminder_service.py:67-101 | as written, the WhatsApp attempt depends on whether the e-mail step has a context |
| ReminderService.ReminderJobIntended | backend/services/reminder_service.py:96-101 | both channels always run; e-mail sent iff addressed, not suppressed and not failing; WhatsApp skipped iff no number or no service |
| ReminderService.IntendedAgreesInContext | backend/services/reminder_service.py:67-101 | with a context active, the job as written equals the intended job |
| ReminderService.ChannelsIndependent | backend/services/reminder_service.py:96-101 | in the intended job, the e-mail collaborators never change the WhatsApp attempt, and the reverse |
| TaskScheduler.ReminderId | backend/services/scheduler.py:83 | reminder ids start with `task_reminder_` and never clash with the scan job |
| TaskScheduler.ReminderIdInjective | backend/services/scheduler.py:83 | distinct tasks get distinct reminder ids |
| TaskScheduler.NextAfter | backend/services/scheduler.py:23-29 | an interval job's next run is after now, by at most one period |
| TaskScheduler.Advance | backend/services/scheduler.py:23-29 | a due interval job moves past now; a job not yet due is unchanged |
| TaskScheduler.TaskScheduler.constructor | backend/services/scheduler.py:18-32 | a running scheduler holding only the hourly `deadline_checker` job |
| TaskScheduler.TaskScheduler.AddCustomReminder | backend/services/scheduler.py:69-87 | the task's one job is set to a single run at the given time, replacing any earlier one |
| TaskScheduler.TaskScheduler.RemoveTaskReminders | backend/services/scheduler.py:100-107 | exactly the task's job id leaves the table; absence is not an error |
| TaskScheduler.TaskScheduler.FireDue | backend/services/scheduler.py:23-29 | the due jobs run; single-shot jobs leave and the scan job moves on |
| TaskScheduler.TaskScheduler.GetSchedulerStatus | backend/services/scheduler.py:109-124 | running, `jobs_count` equals the number of jobs, and there is one accurate entry per job with no repeats |
| TaskScheduler.ReportsStep | backend/services/scheduler.py:116-123 | adding one job's entry extends an exact report by that job |
| TaskScheduler.AddReplaces | backend/services/scheduler.py:77-85 | two adds for one task leave one job, the second; other jobs are untouched |
| TaskScheduler.RemoveKeepsOthers | backend/services/scheduler.py:100-107 | removal keeps the scan job and every other task's job |
| TaskScheduler.TickProperties | backend/services/scheduler.py:23-29 | after a tick nothing is due, the scan job survives, and jobs that did not run are unchanged |
| TaskScheduler.TaskScheduler.CheckUpcomingDeadlines | backend/services/scheduler.py:34-53 | with the SQL models unbound nothing is sent; with them bound, the reminders sent are those of the selected tasks, in order, up to the first task with an unknown owner |
| TaskScheduler.UpcomingExact | backend/services/scheduler.py:44-47 | each row due within a day and not completed is selected as often as it occurs, and nothing else |
| TaskScheduler.UpcomingFiltered | backend/services/scheduler.py:44-47 | every selected row matches the window and status filter |
| TaskScheduler.NoticesComplete | backend/services/scheduler.py:49-50 | with every owner known, each selected task gets exactly its own reminder |
| TaskScheduler.NoticesStopAtMissingUser | backend/services/scheduler.py:52-61 | an unknown owner raises and ends the scan: nothing from that task on is reminded |
| TaskScheduler.SendTaskReminder | backend/services/scheduler.py:89-98 | a reminder is printed iff the SQL models are bound, the task exists, is not completed and its owner exists |
| TaskScheduler.UnboundRemindsNobody | backend/services/scheduler.py:93-98 | when the query raises, the error is swallowed and no reminder is printed |
| TaskScheduler.NullStatusDisagreement | backend/services/scheduler.py:46 | a NULL status is reminded by the single-task path but never selected by the scan |
| TaskRoutes.DeadlineFirstKey | backend/routes/task_routes.py:42-62 | the sort key is a 4-tuple (completed, missing deadline, deadline, −created) |
| TaskRoutes.SortForListing | backend/routes/task_routes.py:85 | the listing is a permutation of the tasks, ordered by the key, and stable within equal keys |
| StableSort.SortProperties | backend/routes/task_routes.py:85 | Python's `sort` gives a permutation sorted by the key |
| StableSort.SortStable | backend/routes/task_routes.py:85 | tasks with equal keys keep their relative order |
| TaskRoutes.CompletedListedLast | backend/routes/task_routes.py:45 | no unfinished task is listed after a completed one |
| TaskRoutes.DeadlinesInOrder | backend/routes/task_routes.py:47-51 | within a completion class, deadlines ascend and missing ones come last |
| TaskRoutes.NewestFirstOnTies | backend/routes/task_routes.py:53-60 | equal completion and deadline: newest first, and a missing creation time counts as 0 |
| TaskRoutes.UngivenSubtasksAreEmpty | backend/routes/task_routes.py:122-123 | a falsy `subtasks` value leaves the task with no subtasks |
| TaskRoutes.CreatePriority | backend/routes/task_routes.py:115 | the stored priority is lower-case, and "medium" when none is given |
| TaskRoutes.CreatePriorityStable | backend/routes/task_routes.py:115 | lower-casing again in `Task.__init__` changes nothing |
| TaskRoutes.CreateCategory | backend/routes/task_routes.py:116 | the stored category is the stripped input lower-cased, "general" when missing or blank |
| TaskRoutes.DictDeadline | backend/routes/task_routes.py:128 | no deadline gives no value; a deadline gives `isoformat()` text that `fromisoformat` reads back to it |
| TaskRoutes.DictDeadlineReadsBack | backend/routes/task_routes.py:128 | `_parse_deadline`, given the parser's reading of that text, returns the task's own deadline |
| TaskRoutes.NewTask | backend/routes/task_routes.py:105-123 | the new task has the stripped title, a blank description as `None`, the normalised priority and category, status "pending", and cleaned subtasks |
| TaskRoutes.CreateTask | backend/routes/task_routes.py:100-172 | 400 iff the title is blank, with nothing saved or scheduled; otherwise 201 with the next id, the reminder `Plan` for the owner's contacts, an e-mail iff the owner has an address, and WhatsApp iff the number starts with "+" and has at least 10 characters |
| TaskRoutes.CreateNeverSchedulesWhenNotStarted | backend/routes/task_routes.py:138-141 | with the scheduler never started, creating a task never installs a reminder |
| TaskRoutes.AccessCode | backend/routes/task_routes.py:182-183 | 404 iff the task is missing or belongs to someone else |
| TaskRoutes.DeleteTask | backend/routes/task_routes.py:239-249 | 200 iff the caller owns the task, else 404 |
| TaskRoutes.ShouldReschedule | backend/routes/task_routes.py:219 | rescheduling happens iff the deadline changed |
| TaskRoutes.SetTextField | backend/routes/task_routes.py:206 | `setattr` changes exactly the named field; every other field, timestamps and flags included, is unchanged |
| TaskRoutes.ApplyTextFields | backend/routes/task_routes.py:204-206 | each present field becomes its stripped value, with null read as ""; absent fields are unchanged |
| TaskRoutes.ApplyUpdate | backend/routes/task_routes.py:202-216 | fields, deadline and subtasks are replaced when present, the update time is set, the task is saved; `ai_generated` and `created_at` are unchanged |
| TaskRoutes.UpdateTask | backend/routes/task_routes.py:192-234 | 404 iff the caller does not own the task, with the task and the reminders unchanged; otherwise 200, the new fields with `ai_generated` and `created_at` kept, and a reminder request iff the deadline changed |
| TaskRoutes.ClearingDeadlineKeepsReminder | backend/routes/task_routes.py:219-227 | clearing a deadline requests a reminder that is dropped, so the old job stays |
| TaskRoutes.PriorityCount | backend/routes/task_routes.py:270-271 | a priority count never exceeds the number of tasks |
| TaskRoutes.CountTasks | backend/routes/task_routes.py:262-271 | `overdue` counts the unfinished tasks due before now; urgent and high are counted by priority |
| TaskRoutes.OverdueBound | backend/routes/task_routes.py:267 | overdue and completed tasks are disjoint, so together they never exceed the list |
| TaskRoutes.OverdueMonotone | backend/routes/task_routes.py:267 | a later "now" never lowers the overdue count |
| TaskRoutes.OverdueCountPositive | backend/routes/task_routes.py:262-268 | the count is positive iff some listed task is overdue |
| MongoModels.PyInt | backend/models_mongo.py:27 | `int()` succeeds only on text that is not blank once stripped |
| MongoModels.PyIntOfDecimal | backend/models_mongo.py:27 | `int(str(n)) == n` |
| MongoModels.IdQuery | backend/models_mongo.py:24-32 | an `id` alternative iff the value converts to int, an `_id` alternative iff it is an ObjectId, `NoMatch` iff neither; with both, the `id` alternative comes first |
| MongoModels.ParseDt | backend/models_mongo.py:16-22 | a datetime is kept; `None` gives `None`; text gives the parser's wall-clock time with the offset dropped, or `None` |
| MongoModels.ParseDtReadsIsoFormat | backend/models_mongo.py:16-22 | a deadline written by `to_dict` is read back unchanged |
| MongoModels.CleanSubtasks | backend/models_mongo.py:158 | at most as many entries as given; each is non-empty and stripped |
| MongoModels.CleanSubtasksSingle | backend/models_mongo.py:158 | one entry is kept, stripped, iff it is a string that is not blank |
| MongoModels.CleanSubtasksConcat | backend/models_mongo.py:158 | cleaning distributes over concatenation, so kept entries keep their original order and multiplicity |
| MongoModels.CleanSubtasksIdempotent | backend/models_mongo.py:157-158 | cleaning twice is cleaning once |
| MongoModels.KeepsClean | backend/models_mongo.py:157-158 | an already clean list is kept as it is |
| MongoModels.CleanSubtasksFromInput | backend/models_mongo.py:158 | a string is kept iff it is the stripped, non-blank form of some input string |
| MongoModels.UserTaskQuery | backend/models_mongo.py:190-205 | the query always constrains `user_id`; each filter is added iff truthy; search becomes a case-insensitive `$or` on title and description |
| MongoModels.UserTaskQueryUnfiltered | backend/models_mongo.py:190-193 | without truthy filters the query is the owner alone |
| MongoModels.GetUserStats | backend/models_mongo.py:211-236 | total is the sum of all group counts, and each tracked status takes its own row's count |
| MongoModels.NamedCountsBounded | backend/models_mongo.py:226-235 | with one row per status, the named counts never exceed the total |
| MongoModels.StatsBounded | backend/models_mongo.py:226-235 | pending + in_progress + completed ≤ total |
| MongoModels.Task.constructor | backend/models_mongo.py:112-127 | falsy title and description become `None`; priority, category and status are lower-cased with defaults medium/general/pending; missing timestamps take now |
| MongoModels.Task.SetSubtasks | backend/models_mongo.py:157-158 | subtasks become the cleaned list; nothing else changes |
| MongoModels.Task.Save | backend/models_mongo.py:130-152 | a truthy id is kept and the document is updated by that id; otherwise the next sequence value is assigned and inserted |
| MongoModels.Task.ToDict | backend/models_mongo.py:161-175 | the deadline is `None` iff unset, else ISO text that reads back to it; the timestamps read back too |
| Clock.IsoRoundTrip | backend/models_mongo.py:166 | `isoformat` output parses back to the same datetime |
| WhatsApp.KeepDigits | backend/services/whatsapp_service.py:52 | the result is all digits and no longer than the input; all-digit input is kept whole |
| WhatsApp.KeepDigitsCounts | backend/services/whatsapp_service.py:52 | each digit is kept as often as it occurs, and nothing else |
| WhatsApp.KeepDigitsConcat | backend/services/whatsapp_service.py:52 | the digits of a concatenation are the digits of each part in turn, so order is kept |
| WhatsApp.AsE164 | backend/services/whatsapp_service.py:44-53 | the result is "" or starts with `whatsapp:`; blank input gives "" |
| WhatsApp.AsE164Cases | backend/services/whatsapp_service.py:45-53 | a `whatsapp:` prefix is kept, a "+" gets the prefix, and otherwise the digits are prefixed with `whatsapp:+` or the result is "" |
| WhatsApp.AsE164Idempotent | backend/services/whatsapp_service.py:44-53 | normalising twice is normalising once |
| WhatsApp.FromNumber | backend/services/whatsapp_service.py:29-38 | the sender always starts with `whatsapp:`, and is the configured one when that already does |
| WhatsApp.SendRequest | backend/services/whatsapp_service.py:56-65 | no request iff the destination normalises to ""; otherwise `to` and `body` plus exactly one of `messaging_service_sid` and `from_` |
| WhatsApp.SendTemplateRequest | backend/services/whatsapp_service.py:79-93 | no request iff the destination normalises to ""; otherwise it carries the destination, content SID and variables |
| WhatsApp.TemplateMatchesPlainMessage | backend/services/whatsapp_service.py:79-93 | the template call uses the same destination and sender as a plain message |
| WhatsApp.WhatsAppService.constructor | backend/services/whatsapp_service.py:24-41 | every setting is stripped, and the sender always starts with `whatsapp:` |
| WhatsApp.WhatsAppService.SendMessage | backend/services/whatsapp_service.py:55-77 | the request is `SendRequest`'s, and the SID is returned only when a request was made |
| WhatsApp.WhatsAppService.SendTemplateMessage | backend/services/whatsapp_service.py:79-105 | the request is `SendTemplateRequest`'s, and the SID is returned only when a request was made |
| AIService.StripOrdinals | backend/services/ai_service.py:21-22 | the result is never longer than the input |
| AIService.StripOrdinalsKeepsOtherChars | backend/services/ai_service.py:21-22 | only suffix letters are removed: every other character, digits included, survives in order |
| AIService.OrdinalRemoved | backend/services/ai_service.py:22 | digits followed by st/nd/rd/th (any case) at a word end lose the suffix and keep the digits |
| AIService.OrdinalInsideWordKept | backend/services/ai_service.py:22 | a suffix followed by a word character is kept |
| AIService.NoDigitsUnchanged | backend/services/ai_service.py:22 | text without digits is unchanged |
| AIService.ApplyRule | backend/services/ai_service.py:44 | one rule leaves a suffix of its input |
| AIService.ApplyRulesSuffix | backend/services/ai_service.py:43-44 | the rules together leave a suffix of the input |
| AIService.CleanTitlePhrase | backend/services/ai_service.py:24-47 | the loop computes the lower-case, rule-stripped, trimmed title |
| AIService.CleanTitleShape | backend/services/ai_service.py:33-47 | the cleaned title is lower-case with no whitespace at either end |
| AIService.RuleDropsPhrase | backend/services/ai_service.py:35-44 | a rule drops its leading phrase and the whitespace after it, and nothing more |
| AIService.RuleKeepsOther | backend/services/ai_service.py:44 | text not starting with the phrase passes unchanged |
| AIService.Cut | backend/services/ai_service.py:107-109 | the cut is at or before every stop word found |
| AIService.PostCleanTitleEnglish | backend/services/ai_service.py:99-110 | the loop computes the title cut at the earliest stop word and trimmed |
| AIService.PostCleanHasNoStopWord | backend/services/ai_service.py:99-110 | the result contains no stop word in any case |
| AIService.PostCleanIdempotent | backend/services/ai_service.py:99-110 | post-cleaning twice is post-cleaning once |
| AIService.PostCleanKeepsLower | backend/services/ai_service.py:106-110 | a lower-case title stays lower-case |
| AIService.DetectAcademicCategory | backend/services/ai_service.py:113-116 | "education" iff some keyword occurs in the lowered text, else `None` |
| AIService.PriorityRank | backend/services/ai_service.py:210 | a rank exists iff the priority is one of low/medium/high/urgent, and indexes it |
| AIService.PrioritizeTasks | backend/services/ai_service.py:209-210 | an error iff some priority is unknown (missing counts as medium); otherwise a permutation sorted by rank and stable |
| AIService.PrioritizeKeepsTiesInOrder | backend/services/ai_service.py:209-210 | tasks of one priority keep their relative order |
| AIService.CountStatus | backend/services/ai_service.py:214-215 | a status count never exceeds the number of tasks |
| AIService.DisjointCountsBounded | backend/services/ai_service.py:214-215 | disjoint status sets are counted apart |
| AIService.GenerateSummary | backend/services/ai_service.py:212-216 | the sentence carries two counts whose sum is at most the number of tasks |
| AIService.SummaryDeterminesCounts | backend/services/ai_service.py:216 | different counts give different sentences |
| AIService.SummaryReportsCounts | backend/services/ai_service.py:212-216 | the counts read from the sentence are the completed count and the pending-or-in-progress count |
| AIService.Reading | backend/services/ai_service.py:64-71 | the day-first reading when there is one, else the month-first reading |
| AIService.GuessDeadline | backend/services/ai_service.py:59-72 | no deadline iff the text is empty or neither pass reads the ordinal-free text; otherwise 19-character `isoformat()` text |
| AIService.GuessKeepsTimedReading | backend/services/ai_service.py:64-69 | a reading that is not midnight, or whose text names a time, reads back unchanged |
| AIService.GuessMovesUntimedToEndOfDay | backend/services/ai_service.py:64-69 | a midnight reading of text with no `h:mm` and no am/pm reads back as 23:59 of that day |
| AIService.UntimedExample | backend/services/ai_service.py:59-72 | "submit report on 5th March" loses its ordinal, and its midnight reading gives 23:59 |
| AIService.NormalizeDeadline | backend/services/ai_service.py:49-57 | `None` iff the deadline is falsy or the one day-first parse fails; otherwise text that reads back to that parse |
| AIService.NormalizeKeepsMidnight | backend/services/ai_service.py:49-72 | on untimed text read as midnight, the normaliser and the guess give different deadlines |
| AIService.FirstTruthy | backend/services/ai_service.py:131 | Python's `a or b` on optional strings |
| AIService.ParseResult | backend/services/ai_service.py:119-206 | the parsed task's description is the user's input |
| AIService.DescriptionIsOriginal | backend/services/ai_service.py:138-206 | every branch keeps the original text as the description |
| AIService.ParseNaturalLanguageTask | backend/services/ai_service.py:119-206 | the method computes `ParseResult`, with the user's input as description |
| AIService.ParsedTaskShape | backend/services/ai_service.py:130-206 | the title is lower-case and free of stop words; an academic keyword gives "education"; only a model reply sets `ai_generated` and brings subtasks |
| AIService.TitleFacts | backend/services/ai_service.py:135-136 | the title pipeline yields lower-case text with no stop word |
| AIService.OfflineCategoryPrecedence | backend/services/ai_service.py:130-146 | offline, the category falls back from academic to multilingual, and "general" appears only as the multilingual default |
| Translation.Levels | backend/services/translation_service.py:47-148 | table entries keep the level names in order |
| Translation.AnyContained | backend/services/translation_service.py:233 | true iff some keyword is a substring of the text |
| Translation.FirstMatch | backend/services/translation_service.py:230-244 | the first level in table order with a keyword list for the language and a matching keyword |
| Translation.ExtractMultilingualFeatures | backend/services/translation_service.py:221-249 | the loops compute the first matching priority and category of the lowered text, or medium/general |
| Translation.FirstLevel | backend/services/translation_service.py:230-244 | one loop stops at the first matching level, or keeps the default |
| Translation.CategoryNamesNonEmpty | backend/services/translation_service.py:87-148 | a matched category is never empty |
| Translation.UnlistedLanguageNoMatch | backend/services/translation_service.py:229-244 | a table with no lists for the language never matches |
| Translation.UnlistedLevels | backend/services/translation_service.py:229-244 | levels built from maps lacking the language never match |
| Translation.UnlistedLanguageDefaults | backend/services/translation_service.py:229-244 | a language outside the tables always gets medium/general |
| Translation.TranslateToEnglish | backend/services/translation_service.py:177-219 | English is returned unchanged without a translator call; failure returns the original with the code or "unknown"; success returns the translation |
| Translation.UntranslatedKeepsText | backend/services/translation_service.py:188-219 | whenever nothing was translated, the translated text is the original |
| Translation.ExampleUrgentMeeting | backend/services/translation_service.py:47-52 | "urgent meeting" in English is priority urgent |
| Email.InitMail | backend/services/email_service.py:28-44 | the configuration takes each variable or its default; flags are on only for "true" in any case; a non-numeric port raises |
| Email.InitMailDefaults | backend/services/email_service.py:30-40 | a decimal port reads back as that number; unset flags give TLS on and SSL, suppression and debug off |
| Email.FlagNeedsTrue | backend/services/email_service.py:32-40 | "TRUE" enables a flag, "1" does not, and an empty value hides the default |
| Email.IsEmailConfigured | backend/services/email_service.py:47-50 | configured iff username, password and default sender are all set and non-empty |
| Email.PriorityColor | backend/services/email_service.py:205-213 | grey iff the lowered priority is not one of the four levels; `None` is grey |
| Email.PriorityColorIgnoresCase | backend/services/email_service.py:213 | the colour does not depend on letter case |
| Email.PriorityColorsDistinct | backend/services/email_service.py:207-212 | the four levels get four different colours |
| Email.FormatDeadline | backend/services/email_service.py:216-250 | falsy gives ""; a datetime gives the long rendering; text gives the rendering of some datetime or itself |
| Email.UnparseableShownAsIs | backend/services/email_service.py:237-250 | text no parser understands is shown as given |
| Email.Subject | backend/services/email_service.py:79 | "New Task Created: " followed by the title, "Untitled Task" when the key is missing |
| Email.SubjectInjective | backend/services/email_service.py:79 | different titles give different subjects |
| Email.SubtaskLines | backend/services/email_service.py:158-161 | one "- s" line per subtask, in order |
| Email.SplitLines | backend/services/email_service.py:158-161 | splitting at newlines yields at least one line |
| Email.SplitJoin | backend/services/email_service.py:158-161 | joined lines without newlines split back into the same lines |
| Email.SubtasksTextReadsBack | backend/services/email_service.py:158-161 | the subtasks can be read back from the block, one per line |
| Email.TaskDataOf | backend/services/email_service.py:79-163 | a task dictionary with a `None` title gives the subject "New Task Created: None"; the deadline line appears iff the deadline is truthy |
| Email.SendTaskCreatedNotification | backend/services/email_service.py:53-198 | suppression is checked first and counts as sent; unconfigured gives False; otherwise the message goes to the user with the subject, and the result is whether the send did not raise |
| Email.NotificationResult | backend/services/email_service.py:68-198 | without suppression, success iff configured and the send went through |
| Email.SendTestEmail | backend/services/email_service.py:253-270 | suppress gives success, then unconfigured gives failure, then the send's outcome, with its error text |
| Email.TestAgreesWithNotifier | backend/services/email_service.py:255-259 | the test mail and the notifier decide in the same order and agree on success |
| AuthRoutes.FindByUsername | backend/models_mongo.py:89-91 | a found user has that username; none is found iff no user has it |
| AuthRoutes.FindByEmail | backend/models_mongo.py:94-96 | a found user has that e-mail; none is found iff no user has it |
| AuthRoutes.Signup | backend/routes/auth_routes.py:15-69 | any rejection leaves the users unchanged; success carries the token identity `str(id)` |
| AuthRoutes.SignupValidationOrder | backend/routes/auth_routes.py:31-50 | the username length is checked first, then password length, then '@', then the username conflict, then the e-mail conflict |
| AuthRoutes.SignupMissingField | backend/routes/auth_routes.py:28-29 | any missing field gives 400 and stores nothing |
| AuthRoutes.SignupStoresNormalised | backend/routes/auth_routes.py:31-54 | a new user is stored with the stripped username and the stripped, lower-cased e-mail |
| AuthRoutes.Login | backend/routes/auth_routes.py:72-112 | missing fields give 400; success is 200 with the identity of a user matching the stripped name whose password matches |
| AuthRoutes.LoginHidesWhichFailed | backend/routes/auth_routes.py:92-97 | an unknown user and a wrong password get the same 401 reply |
| AuthRoutes.LoginWrongPassword | backend/routes/auth_routes.py:96-97 | a wrong password gives 401 "Invalid credentials" |
| AuthRoutes.LoginPrefersUsername | backend/routes/auth_routes.py:92-94 | a username match wins over an e-mail match |
| AuthRoutes.LoginEmailCaseMatters | backend/routes/auth_routes.py:88 | the identifier is not lower-cased, so an upper-case e-mail login fails |
| AuthRoutes.SignupThenLogin | backend/routes/auth_routes.py:15-112 | after a successful signup, logging in with the same username and password succeeds with the new identity |
| AuthRoutes.FindFirstAfterAppend | backend/models_mongo.py:89-91 | appending a user does not change who an existing username finds |
| AiRoutes.CheckInput | backend/routes/ai_routes.py:31-36 | accepted iff the input is present and not blank, and then stripped; a missing key gives 400, `null` gives 500, and blank gives 400 |
| AiRoutes.ParseTask | backend/routes/ai_routes.py:19-47 | 200 iff the input passes the checks, with the parse of the stripped input, whose description is that input |
| AiRoutes.BlankInputRefused | backend/routes/ai_routes.py:31-69 | whitespace-only input is refused with 400 on both routes |
| AiRoutes.DeadlineOf | backend/routes/ai_routes.py:75-80 | a deadline exists only when the parsed text is truthy and `fromisoformat` reads it, and then it is that reading |
| AiRoutes.IsoDeadlineKept | backend/routes/ai_routes.py:75-80 | an ISO deadline is kept as the same datetime |
| AiRoutes.UnreadableDeadlineDropped | backend/routes/ai_routes.py:79-80 | a non-ISO deadline becomes `None` rather than an error |
| AiRoutes.TaskFromParsed | backend/routes/ai_routes.py:83-96 | the task takes the parsed fields with `Task.__init__`'s normalisation, status pending, and cleaned subtasks |
| AiRoutes.CreateTaskFromText | backend/routes/ai_routes.py:51-120 | 201 iff the input passes the checks, with the saved task at the next id and an e-mail iff the user has an address |
| AiRoutes.Candidates | backend/routes/ai_routes.py:134-142 | a task is a candidate iff it is not completed and, when ids are given, its id is among them |
| AiRoutes.CandidatesInOrder | backend/routes/ai_routes.py:134-142 | the candidates are the tasks at the eligible positions, each once, in the owner's order |
| AiRoutes.PrioritizeUserTasks | backend/routes/ai_routes.py:124-160 | "No tasks to prioritize" iff nothing is eligible; 500 iff an eligible task has an unknown priority; otherwise the candidates sorted by rank with their count |
| AiRoutes.CompletedNeverPrioritized | backend/routes/ai_routes.py:134-142 | a completed task is never a candidate |
| AiRoutes.GenerateTaskSummary | backend/routes/ai_routes.py:164-202 | 400 iff a period is given that is not daily or weekly; otherwise completed + pending ≤ total, and the summary is the sentence of those counts |
| AiRoutes.SummaryAgreesWithStats | backend/routes/ai_routes.py:183-188 | the summary sentence and the stats report the same counts |
| AiRoutes.SuggestInputShape | backend/routes/ai_routes.py:217-221 | the input is "title." when the description is blank, else "title. description", both stripped |
| AiRoutes.SuggestSubtasks | backend/routes/ai_routes.py:206-233 | a missing title gives 400; a null title or description gives 500; otherwise 200 with the subtasks, category and priority parsed from the built input |

## Left out

- Flask routing, JWT issue and verification, CORS and request logging. Each handler is a function or method from parsed inputs to a status and result.
- The `profile` and `verify` endpoints of the auth routes, and the AI `health` endpoint. They only read configuration or look up a user.
- APScheduler internals: threads, coalescing, misfire grace, the Asia/Kolkata zone, `atexit`. Firing is an explicit `FireDue(now)` step.
- Date parsing and time-zone conversion, by `dateutil`, `fromisoformat` and `_parse_deadline`. Each is a parameter returning an optional datetime. `AIService.DateParser` takes the text and the `dayfirst` flag. `Clock.ParseIso` is a concrete parser for the `isoformat` shape, used to prove round trips and as the reading of the task dictionary's deadline text.
- Seconds, microseconds and UTC offsets in what `dateutil` returns. Readings are naive and whole minutes, so `isoformat()` always ends in `:00`.
- The difference between UTC and local "now". Every "now" is a parameter.
- `%B` month names are rendered but nothing is proved about them.
- The MongoDB driver and the id sequence. `save` takes the next sequence value as a parameter. String and ObjectId task ids are modelled in `IdQuery` only; tasks carry integer ids.
- The User model's constructor and `save`. Users are records in a sequence searched in order.
- bcrypt: a stored record keeps the password it was hashed from, and checking is equality.
- Exception text appended to 500 messages (`str(e)`).
- The OpenAI call, googletrans, langdetect and NLTK. Their answers are parameters.
- The Twilio and Flask-Mail transports and the HTML mail body. The model keeps what is handed over and whether the call raised.
- The creation-time WhatsApp message text and `str.capitalize`. `TaskRoutes.CreateTask` records only whether the message is attempted.
- `completion_rate`, which is float division and rounding.
- SQLAlchemy models, the database helpers and the setup scripts.
- `detect_language` is an input: the code it returns, "en" when it fails.
- The `is_email_configured` environment lookup is modelled on the values read. `init_mail` is modelled as the configuration it writes, not as the mutation of the application object or the class field.
- Text.Lower: case mapping covers ASCII and Latin-1 only; other characters are left as they are.
- AIService.IsWordChar: Python's `\w` is modelled on ASCII and Latin-1, and every later character counts as a word character.
- AIService.PostCleanHasNoStopWord: proved for the model's lower-casing, which matches Python's on ASCII and Latin-1 text.
- TaskRoutes.DeadlineFirstKey: creation times are whole minutes, so ties within a minute compare equal.
- WhatsApp.KeepDigits: `str.isdigit` is modelled on ASCII `0`-`9`. Superscripts and other scripts' digits, which Python keeps, are dropped.
- MongoModels.PyInt: only ASCII digits are read. Python's `int()` also accepts every other Unicode decimal digit.
- AIService.StripOrdinals: `\d` in the ordinal pattern matches ASCII `0`-`9` only. Python's also matches other scripts' decimal digits.
- WhatsApp.WhatsAppService.constructor: it always succeeds. Twilio's `Client` raises when the account SID or the auth token is empty. In `ReminderService.Collaborators` whether it raises is an input (`clientRaises`), not derived from the credentials; `TaskRoutes.CreateTask` records only the attempt, whose error the route swallows.
- AIService.GuessDeadline: `\d` in the time pattern matches ASCII `0`-`9` only. Python's also matches other scripts' digits.

## Findings

| source | as written | input that shows it | evidently intended | confidence | as-written member | corrected member |
|---|---|---|---|---|---|---|
| backend/services/reminder_service.py:70 | `_send_email` enters `current_app.app_context()` before its `try`. A job the scheduler runs has no application context, so the `RuntimeError` escapes `_reminder_job` before `_send_whatsapp` runs. | a reminder job with e-mail "a@b.c" and a WhatsApp number, fired by the scheduler (`appContext` false) | each channel catches its own failure, so the WhatsApp message goes out whatever happens to the e-mail | not executed | ReminderService.ContextErrorStopsWhatsApp | ReminderService.ReminderJobIntended |
