/**
 * `services/scheduler.py`: the `TaskScheduler` the application wires in.  It
 * owns a running scheduler whose job table holds the hourly deadline scan
 * and one single-shot `task_reminder_<id>` job per task.  Time is whole
 * minutes; `now` is a parameter.  The SQL task and user tables are inputs.
 */
module TaskScheduler {
  import opened Wrappers
  import opened Text

  const CheckerId := "deadline_checker"
  const CheckerName := "Check upcoming task deadlines"
  /** The scan interval, one hour. */
  const CheckerPeriod := 60
  /** The scan window, one day. */
  const Window := 1440

  datatype Trigger = Interval(period: nat) | Once(taskId: int)

  /** A scheduled job: its name, its next run time and its trigger. */
  datatype Job = Job(name: string, nextRun: int, trigger: Trigger)

  predicate WellFormed(j: Job) {
    j.trigger.Interval? ==> j.trigger.period > 0
  }

  /** `f'task_reminder_{task_id}'`. */
  function ReminderId(taskId: int): (id: string)
    ensures StartsWith(id, "task_reminder_") && id != CheckerId
  {
    var id := "task_reminder_" + IntToDec(taskId);
    assert id[0] != CheckerId[0];
    id
  }

  lemma ReminderIdInjective(a: int, b: int)
    requires ReminderId(a) == ReminderId(b)
    ensures a == b
  {
    PrefixedIntInjective("task_reminder_", a, b);
  }

  /** The first run of an interval job strictly after `now`, the missed runs coalesced into one. */
  function NextAfter(start: int, period: nat, now: int): (next: int)
    requires period > 0 && start <= now
    ensures now < next <= now + period
    decreases now - start
  {
    if start + period > now then start + period else NextAfter(start + period, period, now)
  }

  /** A job after a tick at `now`: a due interval job moves to its next run; others are unchanged. */
  function Advance(j: Job, now: int): (r: Job)
    requires WellFormed(j)
    ensures WellFormed(r) && r.name == j.name && r.trigger == j.trigger
    ensures j.trigger.Interval? ==> r.nextRun > now
    ensures j.nextRun > now ==> r == j
  {
    if j.nextRun <= now && j.trigger.Interval? then j.(nextRun := NextAfter(j.nextRun, j.trigger.period, now))
    else j
  }

  /** The job table after a tick at `now`: due single-shot jobs leave, due interval jobs move on. */
  function AfterTick(jobs: map<string, Job>, now: int): map<string, Job>
    requires forall k :: k in jobs ==> WellFormed(jobs[k])
  {
    map k | k in jobs && (jobs[k].nextRun > now || jobs[k].trigger.Interval?) :: Advance(jobs[k], now)
  }

  /** One `get_scheduler_status` job entry. */
  datatype Entry = Entry(id: string, name: string, nextRun: int)

  datatype Status = Status(running: bool, jobsCount: nat, jobs: seq<Entry>)

  /** The entry that reports job `k`. */
  function EntryOf(jobs: map<string, Job>, k: string): Entry
    requires k in jobs
  {
    Entry(k, jobs[k].name, jobs[k].nextRun)
  }

  class TaskScheduler {
    var running: bool
    var jobs: map<string, Job>

    ghost predicate Valid()
      reads this
    {
      && running
      && (forall k :: k in jobs ==> WellFormed(jobs[k]))
      && CheckerId in jobs && jobs[CheckerId].trigger == Interval(CheckerPeriod)
    }

    /** `__init__`: starts the scheduler and adds the hourly scan, first due one period from now. */
    constructor (now: int)
      ensures Valid()
      ensures jobs == map[CheckerId := Job(CheckerName, now + CheckerPeriod, Interval(CheckerPeriod))]
    {
      running := true;
      jobs := map[CheckerId := Job(CheckerName, now + CheckerPeriod, Interval(CheckerPeriod))];
    }

    /** `add_custom_reminder`: adds or replaces the single job of the task. */
    method AddCustomReminder(taskId: int, reminderTime: int)
      requires Valid()
      modifies this
      ensures Valid() && running
      ensures jobs == old(jobs)[ReminderId(taskId) := Job("TaskScheduler.send_task_reminder", reminderTime, Once(taskId))]
    {
      jobs := jobs[ReminderId(taskId) := Job("TaskScheduler.send_task_reminder", reminderTime, Once(taskId))];
    }

    /** `remove_task_reminders`: removes the task's job; an absent job is not an error. */
    method RemoveTaskReminders(taskId: int)
      requires Valid()
      modifies this
      ensures Valid() && running
      ensures jobs == old(jobs) - {ReminderId(taskId)}
    {
      jobs := jobs - {ReminderId(taskId)};
    }

    /** A scheduler tick: returns the ids of the jobs that ran. */
    method FireDue(now: int) returns (fired: set<string>)
      requires Valid()
      modifies this
      ensures Valid()
      ensures fired == set k | k in old(jobs) && old(jobs)[k].nextRun <= now
      ensures jobs == AfterTick(old(jobs), now)
    {
      fired := set k | k in jobs && jobs[k].nextRun <= now;
      jobs := AfterTick(jobs, now);
    }

    /** `get_scheduler_status`: the running flag, the job count and one entry per job. */
    method GetSchedulerStatus() returns (s: Status)
      requires Valid()
      ensures s.running && s.jobsCount == |jobs| == |s.jobs|
      ensures Reports(jobs, s.jobs, jobs.Keys)
    {
      var entries: seq<Entry> := [];
      var seen: set<string> := {};
      var remaining := jobs.Keys;
      while remaining != {}
        invariant Listing(jobs, entries, seen, remaining)
        decreases |remaining|
      {
        var k :| k in remaining;
        ListingStep(jobs, entries, seen, remaining, k);
        entries := entries + [EntryOf(jobs, k)];
        seen := seen + {k};
        remaining := remaining - {k};
      }
      ListingDone(jobs, entries, seen, remaining);
      s := Status(running, |jobs|, entries);
    }
  }

  /** `entries` reports exactly the jobs named in `ids`: one accurate entry each, no repeats. */
  predicate Reports(jobs: map<string, Job>, entries: seq<Entry>, ids: set<string>) {
    && (forall i :: 0 <= i < |entries| ==> entries[i].id in ids && entries[i].id in jobs && entries[i] == EntryOf(jobs, entries[i].id))
    && (forall i, j :: 0 <= i < j < |entries| ==> entries[i].id != entries[j].id)
    && (forall k :: k in ids ==> exists i :: 0 <= i < |entries| && entries[i].id == k)
  }

  /** The listing loop's state: `seen` and `remaining` split the ids, and `entries` reports `seen`. */
  predicate Listing(jobs: map<string, Job>, entries: seq<Entry>, seen: set<string>, remaining: set<string>) {
    && seen !! remaining && seen + remaining == jobs.Keys
    && |entries| == |seen|
    && Reports(jobs, entries, seen)
  }

  lemma ListingStep(jobs: map<string, Job>, entries: seq<Entry>, seen: set<string>, remaining: set<string>, k: string)
    requires Listing(jobs, entries, seen, remaining) && k in remaining
    ensures Listing(jobs, entries + [EntryOf(jobs, k)], seen + {k}, remaining - {k})
    ensures |remaining - {k}| < |remaining|
  {
    ReportsStep(jobs, entries, seen, k);
    assert |seen + {k}| == |seen| + 1;
  }

  lemma ListingDone(jobs: map<string, Job>, entries: seq<Entry>, seen: set<string>, remaining: set<string>)
    requires Listing(jobs, entries, seen, {})
    ensures |entries| == |jobs| && Reports(jobs, entries, jobs.Keys)
  {
    assert seen == jobs.Keys;
    assert |jobs| == |jobs.Keys|;
  }

  lemma ReportsStep(jobs: map<string, Job>, entries: seq<Entry>, ids: set<string>, k: string)
    requires Reports(jobs, entries, ids) && k in jobs && k !in ids
    ensures Reports(jobs, entries + [EntryOf(jobs, k)], ids + {k})
  {
    var entries' := entries + [EntryOf(jobs, k)];
    forall x | x in ids + {k} ensures exists i :: 0 <= i < |entries'| && entries'[i].id == x {
      if x == k {
        assert entries'[|entries|].id == k;
      } else {
        var i :| 0 <= i < |entries| && entries[i].id == x;
        assert entries'[i].id == x;
      }
    }
  }

  // ---------- properties of the job table ----------

  /** Adding twice for one task leaves one job, the second; other jobs are untouched. */
  lemma AddReplaces(jobs: map<string, Job>, taskId: int, t1: int, t2: int, other: string)
    requires other != ReminderId(taskId)
    ensures var j2 := Job("TaskScheduler.send_task_reminder", t2, Once(taskId));
            var twice := jobs[ReminderId(taskId) := Job("TaskScheduler.send_task_reminder", t1, Once(taskId))]
                             [ReminderId(taskId) := j2];
      && twice == jobs[ReminderId(taskId) := j2]
      && (other in twice <==> other in jobs)
      && (other in jobs ==> twice[other] == jobs[other])
  {
  }

  /** Removing one task's reminders keeps the scan job and every other task's job. */
  lemma RemoveKeepsOthers(jobs: map<string, Job>, taskId: int, other: int)
    requires other != taskId
    ensures CheckerId in jobs ==> CheckerId in jobs - {ReminderId(taskId)}
    ensures ReminderId(other) in jobs ==> ReminderId(other) in jobs - {ReminderId(taskId)}
  {
    if ReminderId(other) == ReminderId(taskId) {
      ReminderIdInjective(other, taskId);
    }
  }

  /** After a tick nothing is due, the scan job survives, and each job that did not run is unchanged. */
  lemma TickProperties(jobs: map<string, Job>, now: int)
    requires forall k :: k in jobs ==> WellFormed(jobs[k])
    ensures forall k :: k in AfterTick(jobs, now) ==> AfterTick(jobs, now)[k].nextRun > now
    ensures forall k :: k in jobs && jobs[k].trigger.Interval? ==> k in AfterTick(jobs, now)
    ensures forall k :: k in jobs && jobs[k].nextRun <= now && jobs[k].trigger.Once? ==> k !in AfterTick(jobs, now)
    ensures forall k :: k in jobs && jobs[k].nextRun > now ==> k in AfterTick(jobs, now) && AfterTick(jobs, now)[k] == jobs[k]
  {
  }

  // ---------- the deadline scan ----------

  /** A row of the SQL task table, as the scan reads it. */
  datatype SqlTask = SqlTask(id: int, title: string, userId: int, deadline: Option<int>, status: Option<string>)

  /**
   * The scan's SQL filter: `deadline BETWEEN now AND now + 1 day` and
   * `status != 'completed'`; a NULL deadline or status satisfies neither.
   */
  predicate IsUpcoming(t: SqlTask, now: int) {
    && t.deadline.Some? && now <= t.deadline.value <= now + Window
    && t.status.Some? && t.status.value != "completed"
  }

  /** The query result, in table order. */
  function Upcoming(tasks: seq<SqlTask>, now: int): seq<SqlTask> {
    if tasks == [] then []
    else (if IsUpcoming(tasks[0], now) then [tasks[0]] else []) + Upcoming(tasks[1..], now)
  }

  /** `send_reminder`'s line. */
  function Notice(t: SqlTask, username: string): string {
    "REMINDER: Task '" + t.title + "' is due soon for user " + username
  }

  /**
   * The reminders the loop sends: one per selected task, until a task whose
   * user is missing makes `send_reminder` raise, which ends the whole scan.
   */
  function Notices(selected: seq<SqlTask>, users: map<int, string>): seq<string> {
    if selected == [] || selected[0].userId !in users then []
    else [Notice(selected[0], users[selected[0].userId])] + Notices(selected[1..], users)
  }

  /**
   * `check_upcoming_deadlines`. `bound` says whether `Task.query` and
   * `User.query` reach a database from the scheduler's thread. As the
   * application is wired they do not: it binds only MongoDB, and the worker
   * thread has no application context. The query then raises, the outer
   * `except` swallows it, and nobody is reminded.
   */
  method CheckUpcomingDeadlines(tasks: seq<SqlTask>, users: map<int, string>, now: int, bound: bool)
    returns (sent: seq<string>)
    ensures !bound ==> sent == []
    ensures bound ==> sent == Notices(Upcoming(tasks, now), users)
  {
    sent := [];
    if !bound {
      return;
    }
    var upcoming := Upcoming(tasks, now);
    var i := 0;
    while i < |upcoming|
      invariant 0 <= i <= |upcoming|
      invariant Notices(upcoming, users) == sent + Notices(upcoming[i..], users)
    {
      var task := upcoming[i];
      NoticesStep(upcoming[i..], users);
      if task.userId !in users {
        break;
      }
      assert upcoming[i..][1..] == upcoming[i + 1..];
      var line := Notice(task, users[task.userId]);
      AppendAssoc(sent, line, Notices(upcoming[i + 1..], users));
      sent := sent + [line];
      i := i + 1;
    }
  }

  /** One step of `Notices`: the head's line, or nothing when its owner is unknown. */
  lemma NoticesStep(selected: seq<SqlTask>, users: map<int, string>)
    requires selected != []
    ensures selected[0].userId !in users ==> Notices(selected, users) == []
    ensures selected[0].userId in users ==>
      Notices(selected, users) == [Notice(selected[0], users[selected[0].userId])] + Notices(selected[1..], users)
  {
  }

  lemma AppendAssoc(a: seq<string>, x: string, b: seq<string>)
    ensures a + ([x] + b) == (a + [x]) + b
  {
  }

  /** The scan selects each row matching the filter as often as it occurs, and nothing else. */
  lemma {:induction false} UpcomingExact(tasks: seq<SqlTask>, now: int, t: SqlTask)
    ensures multiset(Upcoming(tasks, now))[t] == if IsUpcoming(t, now) then multiset(tasks)[t] else 0
  {
    if tasks != [] {
      UpcomingExact(tasks[1..], now, t);
      assert tasks == [tasks[0]] + tasks[1..];
    }
  }

  /** Every selected row matches the filter. */
  lemma {:induction false} UpcomingFiltered(tasks: seq<SqlTask>, now: int)
    ensures forall i :: 0 <= i < |Upcoming(tasks, now)| ==> IsUpcoming(Upcoming(tasks, now)[i], now)
  {
    if tasks != [] {
      UpcomingFiltered(tasks[1..], now);
    }
  }

  /** With every owner known, each selected task gets exactly its own reminder, in order. */
  lemma {:induction false} NoticesComplete(selected: seq<SqlTask>, users: map<int, string>)
    requires forall i :: 0 <= i < |selected| ==> selected[i].userId in users
    ensures |Notices(selected, users)| == |selected|
    ensures forall i :: 0 <= i < |selected| ==>
      Notices(selected, users)[i] == Notice(selected[i], users[selected[i].userId])
  {
    if selected != [] {
      NoticesComplete(selected[1..], users);
    }
  }

  /** A task with an unknown owner ends the scan: nothing from it on is reminded. */
  lemma {:induction false} NoticesStopAtMissingUser(selected: seq<SqlTask>, users: map<int, string>, m: nat)
    requires m < |selected| && selected[m].userId !in users
    ensures |Notices(selected, users)| <= m
  {
    if selected[0].userId in users {
      NoticesStopAtMissingUser(selected[1..], users, m - 1);
    }
  }

  /**
   * `send_task_reminder`: the line printed, or `None` when the query raises
   * (`bound` false, as in `CheckUpcomingDeadlines`), or for a missing or
   * completed task or an unknown owner.
   */
  function SendTaskReminder(taskId: int, tasks: map<int, SqlTask>, users: map<int, string>, bound: bool): (r: Option<string>)
    ensures r.Some? <==> bound && taskId in tasks && tasks[taskId].status != Some("completed")
                         && tasks[taskId].userId in users
    ensures r.Some? ==> r.value == Notice(tasks[taskId], users[tasks[taskId].userId])
  {
    if !bound then None
    else if taskId !in tasks then None
    else
      var task := tasks[taskId];
      // Python's `None != 'completed'` holds, unlike SQL's: a NULL status is reminded here.
      if task.status == Some("completed") then None
      else if task.userId !in users then None
      else Some(Notice(task, users[task.userId]))
  }

  /** As the application is wired the SQL query raises, so no single-task reminder is ever printed. */
  lemma UnboundRemindsNobody(taskId: int, tasks: map<int, SqlTask>, users: map<int, string>)
    ensures SendTaskReminder(taskId, tasks, users, false).None?
  {
  }

  /** The single-task path and the scan disagree on a NULL status: only the former reminds it. */
  lemma NullStatusDisagreement(t: SqlTask, users: map<int, string>, now: int)
    requires t.status.None? && t.userId in users
    ensures SendTaskReminder(t.id, map[t.id := t], users, true).Some?
    ensures !IsUpcoming(t, now)
  {
  }
}
