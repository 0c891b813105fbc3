/**
 * The in-page report scheduler: which tasks go into the daily and the weekly
 * report, when a report is due, and the guards in front of sending one.
 * Calendar dates reduced to "date only" are day numbers.
 */
module ReportScheduler {
  import opened Wrappers
  import opened Clock
  import opened JsText
  import opened Seqs
  import opened Records
  import opened TelegramService

  /** `loadTasks()`: an empty list when nothing is stored or the text does not
      parse. A parsed value that is not a task list is returned as it is and
      makes the caller's `.filter` throw: None. */
  function LoadTasks(items: map<string, Entry>): (tasks: Option<seq<Task>>)
    ensures TasksKey !in items ==> tasks == Some([])
    ensures tasks.None? <==> TasksKey in items && !(items[TasksKey].Blank? || items[TasksKey].Malformed? || items[TasksKey].TasksJson?)
    ensures TasksKey in items && (items[TasksKey].Blank? || items[TasksKey].Malformed?) ==> tasks == Some([])
    ensures TasksKey in items && items[TasksKey].TasksJson? ==> tasks == Some(items[TasksKey].tasks)
  {
    if TasksKey !in items then Some([])
    else match items[TasksKey]
      case Blank => Some([])
      case Malformed => Some([])
      case TasksJson(ts) => Some(ts)
      case _ => None
  }

  /** `safeParseDate(dateStr)`: null for an Invalid Date. */
  function SafeParseDate(d: DateValue): (r: Option<Moment>)
    ensures r.Some? <==> d.ValidDate?
    ensures r.Some? ==> r.value == d.at
  {
    match d
    case InvalidDate => None
    case ValidDate(m) => Some(m)
  }

  /** The day number of a parseable due date lies in `[startDay, endDay]`. */
  function DueWithin(startDay: int, endDay: int): Task -> bool {
    (t: Task) => SafeParseDate(t.dueDate).Some? && startDay <= EpochDay(t.dueDate.at) <= endDay
  }

  /** `filterTasksByDateRange(tasks, startDate, endDate)`, the two bounds
      already reduced to their dates. */
  function FilterTasksByDateRange(tasks: seq<Task>, startDay: int, endDay: int): (r: seq<Task>)
    ensures IsSubsequence(r, tasks)
    ensures forall t :: t in r <==> t in tasks && t.dueDate.ValidDate? && startDay <= EpochDay(t.dueDate.at) <= endDay
  {
    FilterIsSubsequence(tasks, DueWithin(startDay, endDay));
    Filter(tasks, DueWithin(startDay, endDay))
  }

  /** The date filter keeps every copy of a task in range and drops every copy
      of one out of range. */
  lemma FilterKeepsCopies(tasks: seq<Task>, startDay: int, endDay: int)
    ensures forall t :: multiset(FilterTasksByDateRange(tasks, startDay, endDay))[t]
                        == if t.dueDate.ValidDate? && startDay <= EpochDay(t.dueDate.at) <= endDay then multiset(tasks)[t] else 0
  {
    FilterMultiplicities(tasks, DueWithin(startDay, endDay));
  }

  /** `list.some(t => t.id === id)`. */
  predicate HasId(list: seq<Task>, id: string) {
    exists i :: 0 <= i < |list| && list[i].id == id
  }

  /** The overdue test of both selections: a parseable due date strictly before
      `start`, and no task of `listed` with the same id. */
  function OverdueBefore(start: Moment, listed: seq<Task>): Task -> bool {
    (t: Task) => SafeParseDate(t.dueDate).Some? && Earlier(t.dueDate.at, start) && !HasId(listed, t.id)
  }

  /** The two parts a selection is made of: the tasks of the period, then the
      uncompleted tasks due before it. */
  datatype Selection = Selection(inPeriod: seq<Task>, overdue: seq<Task>) {
    function All(): seq<Task> {
      inPeriod + overdue
    }
  }

  /** `setHours(0, 0, 0, 0)` and `setHours(23, 59, 59, 999)`. */
  function StartOfDay(m: Moment): Moment {
    m.(hour := 0, minute := 0, second := 0, milli := 0)
  }

  function EndOfDay(m: Moment): Moment {
    m.(hour := 23, minute := 59, second := 59, milli := 999)
  }

  function SelectForDay(tasks: seq<Task>, date: Moment): Selection {
    var start := StartOfDay(date);
    var today := FilterTasksByDateRange(tasks, EpochDay(start), EpochDay(EndOfDay(date)));
    Selection(today, Filter(Filter(tasks, IsActive), OverdueBefore(start, today)))
  }

  /** `getTasksForDay(date)` on the loaded task list. */
  function GetTasksForDay(tasks: seq<Task>, date: Moment): (r: seq<Task>)
    ensures forall t :: t in r ==> t in tasks && t.dueDate.ValidDate? && EpochDay(t.dueDate.at) <= EpochDay(date)
    ensures forall t :: t in tasks && t.dueDate.ValidDate? && EpochDay(t.dueDate.at) == EpochDay(date) ==> t in r
  {
    SelectForDayFacts(tasks, date);
    SelectForDay(tasks, date).All()
  }

  /** The day number of the Monday the scheduler's week starts on:
      `getDate() - day + (day === 0 ? -6 : 1)`. */
  function WeekStart(date: Moment): (start: int)
    ensures EpochDay(date) - 6 <= start <= EpochDay(date)
  {
    var day := Weekday(date);
    EpochDay(date) - day + (if day == 0 then -6 else 1)
  }

  /** The result of `getTasksForWeek(date)`: the tasks, and the first and last
      day of the week. */
  datatype WeekTasks = WeekTasks(selection: Selection, startDay: int, endDay: int)

  function GetTasksForWeek(tasks: seq<Task>, date: Moment): (w: WeekTasks)
    ensures w.startDay <= EpochDay(date) && w.endDay == w.startDay + 6
    ensures forall t :: t in w.selection.All() ==> t in tasks && t.dueDate.ValidDate? && EpochDay(t.dueDate.at) <= w.endDay
  {
    var startDay := WeekStart(date);
    var endDay := startDay + 6;
    var week := FilterTasksByDateRange(tasks, startDay, endDay);
    WeekTasks(Selection(week, Filter(Filter(tasks, IsActive), DueBeforeDay(startDay, week))), startDay, endDay)
  }

  /** `taskDate < startDate` for a start at midnight of day `startDay`. */
  function DueBeforeDay(startDay: int, listed: seq<Task>): Task -> bool {
    (t: Task) => SafeParseDate(t.dueDate).Some? && EpochDay(t.dueDate.at) < startDay && !HasId(listed, t.id)
  }

  /** `shouldSendDailyReport(settings)`: the exact configured minute. */
  function ShouldSendDailyReport(settings: TelegramSettings, now: Moment): (due: bool)
    ensures !settings.enabled || !settings.reportSchedule.daily ==> !due
  {
    if !settings.enabled || !settings.reportSchedule.daily then false
    else
      var (hours, minutes) := ParseClock(settings.reportSchedule.dailyTime);
      hours == Some(now.hour) && minutes == Some(now.minute)
  }

  /** `shouldSendWeeklyReport(settings)`: the configured weekday and exact minute. */
  function ShouldSendWeeklyReport(settings: TelegramSettings, now: Moment): (due: bool)
    ensures !settings.enabled || !settings.reportSchedule.weekly ==> !due
    ensures due ==> Weekday(now) == settings.reportSchedule.weeklyDay
  {
    if !settings.enabled || !settings.reportSchedule.weekly then false
    else
      var (hours, minutes) := ParseClock(settings.reportSchedule.weeklyTime);
      Weekday(now) == settings.reportSchedule.weeklyDay && hours == Some(now.hour) && minutes == Some(now.minute)
  }

  /** What a `send…Report()` call comes to: the promised boolean (None when the
      promise is rejected) and the message handed to the channel, if any. */
  datatype Outcome = Outcome(result: Option<bool>, message: Option<Outgoing>)

  /** `sendDailyReport()`; `delivered` is the answer of `sendTelegramMessage`. */
  function SendDailyReport(items: map<string, Entry>, now: Moment, arrange: seq<Task> -> seq<Task>, delivered: bool)
    : (out: Outcome)
    ensures var s := LoadTelegramSettings(items);
            !s.enabled || !s.reportSchedule.daily ==> out == Outcome(Some(false), None)
    ensures out.message.Some? ==> out.result == Some(delivered)
  {
    var settings := LoadTelegramSettings(items);
    if !settings.enabled || !settings.reportSchedule.daily then Outcome(Some(false), None)
    else match LoadTasks(items)
      case None => Outcome(None, None)
      case Some(tasks) =>
        var report := DailyReport(GetTasksForDay(tasks, now), arrange, EpochDay(now), EpochDay(now));
        Outcome(Some(delivered), Some(Outgoing(settings.botToken, settings.chatId, report)))
  }

  /** `sendWeeklyReport()`; the promise is rejected (None) when the task list
      does not read or the formatter throws. */
  function SendWeeklyReport(items: map<string, Entry>, now: Moment, arrange: seq<Task> -> seq<Task>, delivered: bool)
    : (out: Outcome)
    ensures var s := LoadTelegramSettings(items);
            !s.enabled || !s.reportSchedule.weekly ==> out == Outcome(Some(false), None)
    ensures out.message.Some? ==> out.result == Some(delivered)
  {
    var settings := LoadTelegramSettings(items);
    if !settings.enabled || !settings.reportSchedule.weekly then Outcome(Some(false), None)
    else match LoadTasks(items)
      case None => Outcome(None, None)
      case Some(tasks) =>
        var week := GetTasksForWeek(tasks, now);
        if WeeklyReportThrows(week.selection.All(), arrange) then Outcome(None, None)
        else
          var report := WeeklyReport(week.selection.All(), arrange, week.startDay, week.endDay, EpochDay(now));
          Outcome(Some(delivered), Some(Outgoing(settings.botToken, settings.chatId, report)))
  }

  /** `sendTestReport()` of the scheduler: the daily report under a test banner,
      sent whenever the service is enabled; a throw is caught as false. */
  function SendSchedulerTestReport(items: map<string, Entry>, now: Moment, arrange: seq<Task> -> seq<Task>, delivered: bool)
    : (out: Outcome)
    ensures !LoadTelegramSettings(items).enabled ==> out == Outcome(Some(false), None)
    ensures out.result.Some?
  {
    var settings := LoadTelegramSettings(items);
    if !settings.enabled then Outcome(Some(false), None)
    else match LoadTasks(items)
      case None => Outcome(Some(false), None)
      case Some(tasks) =>
        var report := [TestBanner] + DailyReport(GetTasksForDay(tasks, now), arrange, EpochDay(now), EpochDay(now));
        Outcome(Some(delivered), Some(Outgoing(settings.botToken, settings.chatId, report)))
  }

  // ---------------------------------------------------------------- lemmas

  /** Before midnight of a day means on an earlier day. */
  lemma EarlierThanMidnight(m: Moment, date: Moment)
    ensures Earlier(m, StartOfDay(date)) <==> EpochDay(m) < EpochDay(date)
    ensures EpochDay(StartOfDay(date)) == EpochDay(date) == EpochDay(EndOfDay(date))
  {
  }

  /** The day selection: the tasks due that day (completed or not), and the
      uncompleted tasks due on an earlier day whose id is not among them. */
  lemma SelectForDayFacts(tasks: seq<Task>, date: Moment)
    ensures var sel := SelectForDay(tasks, date);
            var d := EpochDay(date);
      && IsSubsequence(sel.inPeriod, tasks)
      && (forall t :: t in sel.inPeriod <==> t in tasks && t.dueDate.ValidDate? && EpochDay(t.dueDate.at) == d)
      && (forall t :: t in sel.overdue <==>
            t in tasks && !t.completed && t.dueDate.ValidDate? && EpochDay(t.dueDate.at) < d && !HasId(sel.inPeriod, t.id))
      && (forall i, j :: 0 <= i < |sel.inPeriod| && 0 <= j < |sel.overdue| ==> sel.inPeriod[i].id != sel.overdue[j].id)
  {
    var sel := SelectForDay(tasks, date);
    forall m: Moment
      ensures Earlier(m, StartOfDay(date)) <==> EpochDay(m) < EpochDay(date)
    {
      EarlierThanMidnight(m, date);
    }
    forall i, j | 0 <= i < |sel.inPeriod| && 0 <= j < |sel.overdue|
      ensures sel.inPeriod[i].id != sel.overdue[j].id
    {
      assert sel.overdue[j] in sel.overdue;
    }
  }

  /** The scheduler's week starts on the Monday on or before the date (six
      days back from a Sunday) and ends six days later, so it contains the date. */
  lemma WeekStartIsMonday(date: Moment)
    ensures WeekdayOf(WeekStart(date)) == 1
    ensures WeekStart(date) <= EpochDay(date) <= WeekStart(date) + 6
    ensures Weekday(date) == 0 ==> WeekStart(date) == EpochDay(date) - 6
  {
    var e: int, w: int := EpochDay(date), Weekday(date);
    WeekdayShift(e, -w + (if w == 0 then -6 else 1));
  }

  /** The week selection: the tasks due within the week, and the uncompleted
      tasks due before its first day whose id is not among them. */
  lemma GetTasksForWeekFacts(tasks: seq<Task>, date: Moment)
    ensures var w := GetTasksForWeek(tasks, date);
      && w.startDay == WeekStart(date) && w.endDay == w.startDay + 6
      && IsSubsequence(w.selection.inPeriod, tasks)
      && (forall t :: t in w.selection.inPeriod <==>
            t in tasks && t.dueDate.ValidDate? && w.startDay <= EpochDay(t.dueDate.at) <= w.endDay)
      && (forall t :: t in w.selection.overdue <==>
            t in tasks && !t.completed && t.dueDate.ValidDate? && EpochDay(t.dueDate.at) < w.startDay
            && !HasId(w.selection.inPeriod, t.id))
  {
  }

  predicate DistinctIds(ts: seq<Task>) {
    forall i, j :: 0 <= i < j < |ts| ==> ts[i].id != ts[j].id
  }

  lemma {:induction false} FilterKeepsDistinctIds(s: seq<Task>, p: Task -> bool)
    requires DistinctIds(s)
    ensures DistinctIds(Filter(s, p))
    decreases |s|
  {
    if s != [] {
      var rest := Filter(s[1..], p);
      FilterKeepsDistinctIds(s[1..], p);
      if p(s[0]) {
        assert Filter(s, p) == [s[0]] + rest;
        forall j | 0 <= j < |rest|
          ensures rest[j].id != s[0].id
        {
          assert rest[j] in rest;
          var k :| 0 <= k < |s[1..]| && s[1..][k] == rest[j];
          assert s[k + 1] == rest[j];
        }
      }
    }
  }

  lemma AppendDistinctIds(a: seq<Task>, b: seq<Task>)
    requires DistinctIds(a) && DistinctIds(b)
    requires forall i, j :: 0 <= i < |a| && 0 <= j < |b| ==> a[i].id != b[j].id
    ensures DistinctIds(a + b)
  {
    var all := a + b;
    forall i, j | 0 <= i < j < |all|
      ensures all[i].id != all[j].id
    {
      if i >= |a| {
        assert all[i] == b[i - |a|] && all[j] == b[j - |a|];
      } else if j >= |a| {
        assert all[j] == b[j - |a|];
      }
    }
  }

  /** With distinct ids in the store, the day report's list has distinct ids
      (so no task is listed twice). */
  lemma GetTasksForDayDistinctIds(tasks: seq<Task>, date: Moment)
    requires DistinctIds(tasks)
    ensures DistinctIds(GetTasksForDay(tasks, date))
  {
    SelectionDistinctIds(tasks, date);
    SelectForDayFacts(tasks, date);
    var sel := SelectForDay(tasks, date);
    AppendDistinctIds(sel.inPeriod, sel.overdue);
  }

  lemma SelectionDistinctIds(tasks: seq<Task>, date: Moment)
    requires DistinctIds(tasks)
    ensures DistinctIds(SelectForDay(tasks, date).inPeriod)
    ensures DistinctIds(SelectForDay(tasks, date).overdue)
  {
    var start := StartOfDay(date);
    var today := FilterTasksByDateRange(tasks, EpochDay(start), EpochDay(EndOfDay(date)));
    FilterKeepsDistinctIds(tasks, DueWithin(EpochDay(start), EpochDay(EndOfDay(date))));
    FilterKeepsDistinctIds(tasks, IsActive);
    FilterKeepsDistinctIds(Filter(tasks, IsActive), OverdueBefore(start, today));
  }

  /** For a time written "HH:MM", the daily report is due exactly in that
      minute (given the switches are on). */
  lemma ShouldSendDailyAt(settings: TelegramSettings, now: Moment, hours: nat, minutes: nat)
    requires hours < 100 && minutes < 100
    requires settings.reportSchedule.dailyTime == ClockString(hours, minutes)
    ensures ShouldSendDailyReport(settings, now)
            <==> settings.enabled && settings.reportSchedule.daily && now.hour == hours && now.minute == minutes
  {
    ClockStringParses(hours, minutes);
  }

  /** For a time written "HH:MM", the weekly report is due exactly in that
      minute of the configured weekday (given the switches are on). */
  lemma ShouldSendWeeklyAt(settings: TelegramSettings, now: Moment, hours: nat, minutes: nat)
    requires hours < 100 && minutes < 100
    requires settings.reportSchedule.weeklyTime == ClockString(hours, minutes)
    ensures ShouldSendWeeklyReport(settings, now)
            <==> && settings.enabled && settings.reportSchedule.weekly
                 && Weekday(now) == settings.reportSchedule.weeklyDay
                 && now.hour == hours && now.minute == minutes
  {
    ClockStringParses(hours, minutes);
  }

  /** Sending the daily report: the message is the daily report of the day's
      selection, exactly when the schedule is on and the task list reads. */
  lemma SendDailyReportSends(items: map<string, Entry>, now: Moment, arrange: seq<Task> -> seq<Task>, delivered: bool)
    ensures var s := LoadTelegramSettings(items);
            var out := SendDailyReport(items, now, arrange, delivered);
            out.message.Some? <==> s.enabled && s.reportSchedule.daily && LoadTasks(items).Some?
    ensures var out := SendDailyReport(items, now, arrange, delivered);
            out.message.Some? ==>
              out.message.value.text
              == DailyReport(GetTasksForDay(LoadTasks(items).value, now), arrange, EpochDay(now), EpochDay(now))
  {
  }

  /** Sending the weekly report: the message is the weekly report of the
      week's selection, exactly when the schedule is on, the task list reads
      and grouping it does not throw; in the two failure cases the promise is
      rejected. */
  lemma SendWeeklyReportSends(items: map<string, Entry>, now: Moment, arrange: seq<Task> -> seq<Task>, delivered: bool)
    ensures var s := LoadTelegramSettings(items);
            var out := SendWeeklyReport(items, now, arrange, delivered);
            out.message.Some? <==>
              && s.enabled && s.reportSchedule.weekly && LoadTasks(items).Some?
              && !WeeklyReportThrows(GetTasksForWeek(LoadTasks(items).value, now).selection.All(), arrange)
    ensures var s := LoadTelegramSettings(items);
            var out := SendWeeklyReport(items, now, arrange, delivered);
            out.result.None? <==> s.enabled && s.reportSchedule.weekly && out.message.None?
    ensures var out := SendWeeklyReport(items, now, arrange, delivered);
            out.message.Some? ==>
              && LoadTasks(items).Some?
              && var week := GetTasksForWeek(LoadTasks(items).value, now);
                 out.message.value.text == WeeklyReport(week.selection.All(), arrange, week.startDay, week.endDay, EpochDay(now))
  {
  }
}
