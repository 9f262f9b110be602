/**
 * `routes/ai_routes.py`: the handlers around the AI service.  Each handler
 * is a function from the parsed request to a status and a body; the
 * create-from-text handler, which builds and saves a task, is a method.
 * The translator, detector, date parser and language model the AI service
 * consults are bundled as `AiCall`.
 */
module AiRoutes {
  import opened Wrappers
  import opened Text
  import opened Clock
  import AIService
  import MongoModels
  import Email

  /** The outside services `parse_natural_language_task` consults for one input. */
  datatype AiCall = AiCall(detected: string, translator: Option<string>,
                           parse: AIService.DateParser, model: AIService.ModelOutcome)

  function Parse(userInput: string, ai: AiCall): AIService.ParsedTask {
    AIService.ParseResult(userInput, ai.detected, ai.translator, ai.parse, ai.model)
  }

  /** A handler's answer: an error status and message, or a status and a body. */
  datatype Reply<T> = Fail(code: int, error: string) | Done(code: int, body: T)

  /** Whether a string has a character `strip` keeps. */
  predicate NotBlank(s: string) {
    exists k :: 0 <= k < |s| && !IsSpace(s[k])
  }

  // ---------- parse-task and create-from-text: the input check ----------

  /**
   * The `input` check both handlers share: missing gives 400, `null`
   * raises on `strip` (500, with the handler's own message), blank gives
   * 400; otherwise the stripped text.
   */
  function CheckInput(input: Field, failure: string): (r: Result<string, (int, string)>)
    ensures r.Ok? <==> input.Value? && NotBlank(input.s)
    ensures r.Ok? ==> r.value == Strip(input.s) && r.value != []
    ensures input.Absent? ==> r == Err((400, "Input text is required"))
    ensures input.Null? ==> r == Err((500, failure))
    ensures input.Value? && !NotBlank(input.s) ==> r == Err((400, "Input cannot be empty"))
  {
    match input
    case Absent => Err((400, "Input text is required"))
    case Null => Err((500, failure))
    case Value(s) =>
      StripEmptyIff(s, IsSpace);
      if Strip(s) == [] then Err((400, "Input cannot be empty")) else Ok(Strip(s))
  }

  /** `parse_natural_language_task` (the route): the check, then the service on the stripped input. */
  function ParseTask(input: Field, ai: AiCall): (r: Reply<AIService.ParsedTask>)
    ensures r.Done? <==> input.Value? && NotBlank(input.s)
    ensures r.Done? ==> r.code == 200 && r.body == Parse(Strip(input.s), ai) && r.body.description == Strip(input.s)
    ensures r.Fail? ==> r.code == 400 || r.code == 500
  {
    match CheckInput(input, "Failed to parse task")
    case Err(e) => Fail(e.0, e.1)
    case Ok(userInput) => Done(200, Parse(userInput, ai))
  }

  /** Whitespace-only input is refused with 400 by both handlers. */
  lemma BlankInputRefused(s: string, ai: AiCall)
    requires forall k :: 0 <= k < |s| ==> IsSpace(s[k])
    ensures ParseTask(Value(s), ai) == Fail(400, "Input cannot be empty")
    ensures CheckInput(Value(s), "Failed to create task from text") == Err((400, "Input cannot be empty"))
  {
  }

  // ---------- create-from-text ----------

  /** The deadline handed to `Task`: `fromisoformat` of a truthy parsed deadline, and `None` where it raises. */
  function DeadlineOf(deadline: Option<string>, fromIso: string -> Option<Instant>): (r: Option<Instant>)
    ensures r.Some? ==> Truthy(deadline) && fromIso(deadline.value) == r
    ensures Truthy(deadline) && fromIso(deadline.value).Some? ==> r.Some?
  {
    if Truthy(deadline) then fromIso(deadline.value) else None
  }

  /** `datetime.fromisoformat` on the shape `isoformat()` writes. */
  function FromIsoFormat(s: string): Option<Instant> {
    match MongoModels.IsoParse(s)
    case Some(p) => Some(p.wall)
    case None => None
  }

  /** A deadline the service wrote with `isoformat()` reaches the task unchanged. */
  lemma IsoDeadlineKept(dt: Instant)
    ensures DeadlineOf(Some(IsoFormat(dt)), FromIsoFormat) == Some(dt)
  {
    IsoRoundTrip(dt);
  }

  /** A deadline `fromisoformat` cannot read leaves the task without one instead of failing. */
  lemma UnreadableDeadlineDropped(s: string)
    requires ParseIso(s).None?
    ensures DeadlineOf(Some(s), FromIsoFormat).None?
  {
  }

  /** The task `create_task_from_text` builds from the service's result, before it is saved. */
  method TaskFromParsed(parsed: AIService.ParsedTask, fromIso: string -> Option<Instant>, userId: int, now: Instant)
    returns (task: MongoModels.Task)
    ensures fresh(task)
    ensures task.id.None?
    ensures task.title == (if parsed.title == "" then None else Some(parsed.title))
    ensures task.description == (if parsed.description == "" then None else Some(parsed.description))
    ensures task.deadline == DeadlineOf(parsed.deadline, fromIso)
    ensures task.priority == Lower(OrElse(Some(parsed.priority), "medium"))
    ensures task.category == Lower(OrElse(Some(parsed.category), "general"))
    ensures task.status == "pending" && task.userId == userId && task.aiGenerated == parsed.aiGenerated
    ensures task.subtasks == (if parsed.subtasks == [] then []
                              else MongoModels.CleanSubtasks(MongoModels.AsItems(parsed.subtasks)))
  {
    var deadline := DeadlineOf(parsed.deadline, fromIso);
    var raw := if deadline.Some? then MongoModels.DtValue(deadline.value) else MongoModels.DtNone;
    task := new MongoModels.Task(None, Some(parsed.title), Some(parsed.description), raw,
                                 Some(parsed.priority), Some(parsed.category), Some("pending"), userId,
                                 Some(parsed.aiGenerated), [], MongoModels.DtNone, MongoModels.DtNone,
                                 MongoModels.IsoParse, now);
    assert Lower("pending") == "pending";
    if parsed.subtasks != [] {
      task.SetSubtasks(MongoModels.ListArg(MongoModels.AsItems(parsed.subtasks)));
    }
  }

  /**
   * `create_task_from_text`: the input check, the service, a pending task
   * saved with the next id, then a notification to the owner's e-mail if
   * there is one.  The notification's outcome never changes the answer.
   */
  method CreateTaskFromText(input: Field, ai: AiCall, fromIso: string -> Option<Instant>, userId: int,
                            nextId: int, now: Instant, userEmail: Option<string>, mailer: Email.Mailer)
    returns (code: int, task: MongoModels.Task?, mail: Option<Email.Notified>)
    ensures code == 201 <==> input.Value? && NotBlank(input.s)
    ensures code != 201 ==> task == null && mail.None? && (code == 400 || code == 500)
    ensures code == 201 ==> task != null && fresh(task)
    ensures code == 201 ==>
      var p := Parse(Strip(input.s), ai);
      && task.id == Some(nextId)
      && task.title == (if p.title == "" then None else Some(p.title))
      && task.description == Some(Strip(input.s))
      && task.deadline == DeadlineOf(p.deadline, fromIso)
      && task.priority == Lower(OrElse(Some(p.priority), "medium"))
      && task.category == Lower(OrElse(Some(p.category), "general"))
      && task.status == "pending" && task.userId == userId && task.aiGenerated == p.aiGenerated
      && task.subtasks == (if p.subtasks == [] then [] else MongoModels.CleanSubtasks(MongoModels.AsItems(p.subtasks)))
    ensures code == 201 ==> (mail.Some? <==> Truthy(userEmail))
    ensures code == 201 && mail.Some? ==>
      var d := task.ToDict();
      mail.value == Email.SendTaskCreatedNotification(mailer.suppress, mailer.env, mailer.sendRaises, userEmail.value,
                                                      Email.TaskDataOf(d.title, d.deadline, d.subtasks, d.aiGenerated),
                                                      mailer.parsers)
  {
    var checked := CheckInput(input, "Failed to create task from text");
    if checked.Err? {
      return checked.error.0, null, None;
    }
    var userInput := checked.value;
    var parsed := AIService.ParseNaturalLanguageTask(userInput, ai.detected, ai.translator, ai.parse, ai.model);
    assert parsed == Parse(Strip(input.s), ai);
    task := TaskFromParsed(parsed, fromIso, userId, now);
    var op := task.Save(nextId);
    mail := None;
    if Truthy(userEmail) {
      var d := task.ToDict();
      mail := Some(Email.SendTaskCreatedNotification(mailer.suppress, mailer.env, mailer.sendRaises, userEmail.value,
                                                     Email.TaskDataOf(d.title, d.deadline, d.subtasks, d.aiGenerated),
                                                     mailer.parsers));
    }
    code := 201;
  }

  // ---------- prioritize-tasks ----------

  /** A task the handler passes on: not completed, and among `task_ids` when that list is non-empty. */
  predicate Eligible(t: AIService.TaskInfo, taskIds: seq<int>) {
    t.status != Some("completed") && (taskIds == [] || t.id in taskIds)
  }

  /** The two list comprehensions that choose the tasks to prioritise, in the owner's order. */
  function Candidates(tasks: seq<AIService.TaskInfo>, taskIds: seq<int>): (r: seq<AIService.TaskInfo>)
    ensures |r| <= |tasks|
    ensures forall t :: t in r <==> t in tasks && Eligible(t, taskIds)
  {
    if tasks == [] then []
    else
      var rest := Candidates(tasks[1..], taskIds);
      assert forall t :: t in tasks <==> t == tasks[0] || t in tasks[1..];
      if Eligible(tasks[0], taskIds) then [tasks[0]] + rest else rest
  }

  /** Every position moved one place on: the positions of `s` seen from `[x] + s`. */
  ghost function Shift(idx: seq<nat>): (r: seq<nat>)
    ensures |r| == |idx| && forall k :: 0 <= k < |idx| ==> r[k] == idx[k] + 1
  {
    seq(|idx|, k requires 0 <= k < |idx| => idx[k] + 1)
  }

  /** The positions of the eligible tasks, ascending. */
  ghost function EligibleIndices(tasks: seq<AIService.TaskInfo>, taskIds: seq<int>): seq<nat> {
    if tasks == [] then []
    else
      var rest := Shift(EligibleIndices(tasks[1..], taskIds));
      if Eligible(tasks[0], taskIds) then [0] + rest else rest
  }

  /**
   * The candidates are the eligible tasks in the owner's order, each as
   * often as it occurs: the tasks at a strictly increasing run of positions
   * that are exactly the eligible ones.
   */
  lemma CandidatesInOrder(tasks: seq<AIService.TaskInfo>, taskIds: seq<int>)
    ensures var idx := EligibleIndices(tasks, taskIds);
            var r := Candidates(tasks, taskIds);
      && |idx| == |r|
      && (forall k :: 0 <= k < |idx| ==> idx[k] < |tasks| && r[k] == tasks[idx[k]])
      && Ascending(idx)
      && (forall j :: 0 <= j < |tasks| ==> (j in idx <==> Eligible(tasks[j], taskIds)))
  {
    CandidatesAt(tasks, taskIds);
    IndicesAscending(tasks, taskIds);
    IndicesExact(tasks, taskIds);
  }

  lemma {:induction false} CandidatesAt(tasks: seq<AIService.TaskInfo>, taskIds: seq<int>)
    ensures var idx := EligibleIndices(tasks, taskIds);
            var r := Candidates(tasks, taskIds);
      && |idx| == |r|
      && forall k :: 0 <= k < |idx| ==> idx[k] < |tasks| && r[k] == tasks[idx[k]]
  {
    if tasks != [] {
      var rest := tasks[1..];
      CandidatesAt(rest, taskIds);
      var rc := Candidates(rest, taskIds);
      var sh := Shift(EligibleIndices(rest, taskIds));
      ShiftedAt(tasks, EligibleIndices(rest, taskIds), rc);
      if Eligible(tasks[0], taskIds) {
        var idx := [0] + sh;
        var r := [tasks[0]] + rc;
        assert EligibleIndices(tasks, taskIds) == idx;
        assert Candidates(tasks, taskIds) == r;
        forall k | 0 < k < |idx|
          ensures idx[k] < |tasks| && r[k] == tasks[idx[k]]
        {
          assert idx[k] == sh[k - 1] && r[k] == rc[k - 1];
        }
      } else {
        assert EligibleIndices(tasks, taskIds) == sh;
        assert Candidates(tasks, taskIds) == rc;
      }
    }
  }

  /** Positions of `rc` in `tasks[1..]`, moved one place on, are its positions in `tasks`. */
  lemma ShiftedAt(tasks: seq<AIService.TaskInfo>, ir: seq<nat>, rc: seq<AIService.TaskInfo>)
    requires tasks != [] && |ir| == |rc|
    requires forall k :: 0 <= k < |ir| ==> ir[k] < |tasks[1..]| && rc[k] == tasks[1..][ir[k]]
    ensures var sh := Shift(ir);
      forall k :: 0 <= k < |sh| ==> sh[k] < |tasks| && rc[k] == tasks[sh[k]]
  {
  }

  /** Strictly increasing positions. */
  predicate Ascending(idx: seq<nat>) {
    forall k, l :: 0 <= k < l < |idx| ==> idx[k] < idx[l]
  }

  lemma {:induction false} IndicesAscending(tasks: seq<AIService.TaskInfo>, taskIds: seq<int>)
    ensures Ascending(EligibleIndices(tasks, taskIds))
  {
    if tasks != [] {
      var rest := tasks[1..];
      IndicesAscending(rest, taskIds);
      var ir := EligibleIndices(rest, taskIds);
      var sh := Shift(ir);
      forall k, l | 0 <= k < l < |sh|
        ensures sh[k] < sh[l]
      {
        assert ir[k] < ir[l];
      }
      assert forall k :: 0 <= k < |sh| ==> 0 < sh[k];
    }
  }

  lemma {:induction false} IndicesExact(tasks: seq<AIService.TaskInfo>, taskIds: seq<int>)
    ensures var idx := EligibleIndices(tasks, taskIds);
      forall j :: 0 <= j < |tasks| ==> (j in idx <==> Eligible(tasks[j], taskIds))
  {
    if tasks != [] {
      var rest := tasks[1..];
      IndicesExact(rest, taskIds);
      var ir := EligibleIndices(rest, taskIds);
      var sh := Shift(ir);
      forall j | 0 <= j < |tasks|
        ensures j in EligibleIndices(tasks, taskIds) <==> Eligible(tasks[j], taskIds)
      {
        if j == 0 {
          assert forall k :: 0 <= k < |sh| ==> sh[k] != 0;
        } else {
          assert tasks[j] == rest[j - 1];
          if j in sh {
            var k :| 0 <= k < |sh| && sh[k] == j;
            assert ir[k] == j - 1;
          }
          if j - 1 in ir {
            var k :| 0 <= k < |ir| && ir[k] == j - 1;
            assert sh[k] == j;
          }
        }
      }
    }
  }

  datatype Prioritized = NothingToPrioritize | Prioritized(tasks: seq<AIService.TaskInfo>, count: nat)

  /**
   * `prioritize_user_tasks`: "No tasks to prioritize" when nothing is
   * eligible; otherwise the service's ordering and its length.  The
   * service raises on an unknown priority, which the handler answers with
   * 500.
   */
  function PrioritizeUserTasks(tasks: seq<AIService.TaskInfo>, taskIds: seq<int>): (r: Reply<Prioritized>)
    ensures r.Done? ==> r.code == 200
    ensures r.Done? && r.body.NothingToPrioritize? <==> forall i :: 0 <= i < |tasks| ==> !Eligible(tasks[i], taskIds)
    ensures r.Fail? <==> exists i :: 0 <= i < |tasks| && Eligible(tasks[i], taskIds)
                                    && tasks[i].priority.GetOr("medium") !in AIService.PriorityOrder
    ensures r.Done? && r.body.Prioritized? ==>
      && r.body.count == |r.body.tasks|
      && multiset(r.body.tasks) == multiset(Candidates(tasks, taskIds))
      && (forall t :: t in r.body.tasks ==> t in tasks && Eligible(t, taskIds))
      && (forall i, j :: 0 <= i < j < |r.body.tasks| ==> AIService.Rank(r.body.tasks[i]) <= AIService.Rank(r.body.tasks[j]))
  {
    var candidates := Candidates(tasks, taskIds);
    if candidates == [] then
      assert forall i :: 0 <= i < |tasks| ==> tasks[i] in tasks;
      Done(200, NothingToPrioritize)
    else
      assert candidates[0] in candidates;
      match AIService.PrioritizeTasks(candidates)
      case Err(_) =>
        assert exists i :: 0 <= i < |tasks| && Eligible(tasks[i], taskIds)
                           && tasks[i].priority.GetOr("medium") !in AIService.PriorityOrder by {
          var j :| 0 <= j < |candidates| && candidates[j].priority.GetOr("medium") !in AIService.PriorityOrder;
          assert candidates[j] in candidates;
          var i :| 0 <= i < |tasks| && tasks[i] == candidates[j];
        }
        Fail(500, "Failed to prioritize tasks")
      case Ok(ordered) =>
        assert forall t :: t in ordered ==> t in candidates by {
          forall t | t in ordered ensures t in candidates {
            assert t in multiset(ordered);
          }
        }
        assert forall i :: 0 <= i < |tasks| && Eligible(tasks[i], taskIds)
                           ==> tasks[i].priority.GetOr("medium") in AIService.PriorityOrder by {
          forall i | 0 <= i < |tasks| && Eligible(tasks[i], taskIds)
            ensures tasks[i].priority.GetOr("medium") in AIService.PriorityOrder
          {
            assert tasks[i] in candidates;
          }
        }
        Done(200, Prioritized(ordered, |ordered|))
  }

  /** A completed task is never handed to the service, whatever its priority. */
  lemma CompletedNeverPrioritized(tasks: seq<AIService.TaskInfo>, taskIds: seq<int>, t: AIService.TaskInfo)
    requires t.status == Some("completed")
    ensures t !in Candidates(tasks, taskIds)
  {
  }

  // ---------- generate-summary ----------

  datatype Summary = Summary(summary: string, period: string, total: nat, completed: nat, pending: nat)

  /**
   * `generate_task_summary`: the period defaults to "daily" only when the
   * parameter is absent; the stats count completed tasks, and pending and
   * in-progress tasks together.
   */
  function GenerateTaskSummary(period: Option<string>, tasks: seq<AIService.TaskInfo>): (r: Reply<Summary>)
    ensures r.Fail? <==> period.Some? && period.value != "daily" && period.value != "weekly"
    ensures r.Fail? ==> r == Fail(400, "Period must be daily or weekly")
    ensures r.Done? ==> r.code == 200 && r.body.period == period.GetOr("daily") && r.body.total == |tasks|
    ensures r.Done? ==> r.body.completed + r.body.pending <= r.body.total
    ensures r.Done? ==> r.body.summary == AIService.SummaryText(r.body.completed, r.body.pending)
  {
    var p := period.GetOr("daily");
    if p != "daily" && p != "weekly" then Fail(400, "Period must be daily or weekly")
    else
      var completed := AIService.CountStatus(tasks, {"completed"});
      var pending := AIService.CountStatus(tasks, {"pending", "in_progress"});
      AIService.DisjointCountsBounded(tasks, {"completed"}, {"pending", "in_progress"});
      Done(200, Summary(AIService.GenerateSummary(tasks), p, |tasks|, completed, pending))
  }

  /** The stats beside the summary are the counts the sentence reports. */
  lemma SummaryAgreesWithStats(period: Option<string>, tasks: seq<AIService.TaskInfo>)
    requires GenerateTaskSummary(period, tasks).Done?
    ensures var b := GenerateTaskSummary(period, tasks).body;
      b.completed == AIService.CountStatus(tasks, {"completed"})
      && b.pending == AIService.CountStatus(tasks, {"pending", "in_progress"})
  {
    var b := GenerateTaskSummary(period, tasks).body;
    AIService.SummaryReportsCounts(tasks, b.completed, b.pending);
  }

  // ---------- suggest-subtasks ----------

  /** `f"{title}. {description}".strip()` over the stripped title and description. */
  function SuggestInput(title: string, description: string): string {
    Strip(Strip(title) + ". " + Strip(description))
  }

  /** The text the service is given: the title and a full stop, then the description if there is one. */
  lemma SuggestInputShape(title: string, description: string)
    ensures SuggestInput(title, description)
            == if Strip(description) == [] then Strip(title) + "." else Strip(title) + ". " + Strip(description)
  {
    var t := Strip(title);
    var d := Strip(description);
    if d == [] {
      assert t + ". " + d == t + ". ";
      StripDropsFinalSpace(t);
    } else {
      StripKeepsJoined(t, d);
    }
  }

  /** A stripped title followed by ". " strips to the title and the full stop. */
  lemma StripDropsFinalSpace(t: string)
    requires Trimmed(t, IsSpace)
    ensures Strip(t + ". ") == t + "."
  {
    var s := t + ". ";
    assert LeadCount(s, IsSpace) == 0 by {
      assert s[0] == (if t == [] then '.' else t[0]);
    }
    assert s[|s| - 1] == ' ';
    assert s[..|s| - 1] == t + ".";
    assert TrailCount(s[..|s| - 1], IsSpace) == 0;
    assert TrailCount(s, IsSpace) == 1;
    assert s[0..|s| - 1] == t + ".";
  }

  /** Joining a stripped title and a non-empty stripped description leaves nothing to strip. */
  lemma StripKeepsJoined(t: string, d: string)
    requires Trimmed(t, IsSpace) && d != [] && Trimmed(d, IsSpace)
    ensures Strip(t + ". " + d) == t + ". " + d
  {
    var s := t + ". " + d;
    assert s[0] == (if t == [] then '.' else t[0]);
    assert s[|s| - 1] == d[|d| - 1];
    StripTrimmed(s, IsSpace);
  }

  datatype Suggestion = Suggestion(subtasks: seq<string>, category: string, priority: string)

  /**
   * `suggest_subtasks`: a missing title gives 400; a `null` title or
   * description raises on `strip` (500); a missing description counts as
   * empty.  The title is not required to be non-blank.
   */
  function SuggestSubtasks(title: Field, description: Field, ai: AiCall): (r: Reply<Suggestion>)
    ensures r.Fail? <==> title.Absent? || title.Null? || description.Null?
    ensures title.Absent? ==> r == Fail(400, "Task title is required")
    ensures r.Fail? && !title.Absent? ==> r.code == 500
    ensures r.Done? ==> r.code == 200
    ensures r.Done? ==>
      var p := Parse(SuggestInput(title.s, if description.Value? then description.s else ""), ai);
      r.body == Suggestion(p.subtasks, p.category, p.priority)
  {
    if title.Absent? then Fail(400, "Task title is required")
    else if title.Null? || description.Null? then Fail(500, "Failed to suggest subtasks")
    else
      var p := Parse(SuggestInput(title.s, if description.Value? then description.s else ""), ai);
      Done(200, Suggestion(p.subtasks, p.category, p.priority))
  }
}
