/**
 * The Telegram side of the reports: the settings record and its defaults,
 * the Ukrainian plural of "task", and the daily, weekly and test report
 * texts. A report is modelled as its sequence of lines; dates inside a line
 * are day numbers standing for their locale rendering.
 */
module TelegramService {
  import opened Wrappers
  import opened Clock
  import opened JsText
  import opened Records
  import opened Seqs
  import opened Arith

  // ---------------------------------------------------------------- settings

  /** `DEFAULT_TELEGRAM_SETTINGS`: everything off, daily at 20:00, weekly Friday 18:00. */
  const DefaultTelegramSettings: TelegramSettings :=
    TelegramSettings("", "", false, ReportSchedule(false, false, "20:00", 5, "18:00"))

  /** `loadTelegramSettings()`: the stored settings, or the defaults when the
      key is missing, empty or corrupt. */
  function LoadTelegramSettings(items: map<string, Entry>): (settings: TelegramSettings)
    ensures SettingsKey !in items ==> settings == DefaultTelegramSettings
    ensures SettingsKey in items && !items[SettingsKey].SettingsJson? ==> settings == DefaultTelegramSettings
  {
    if SettingsKey in items && items[SettingsKey].SettingsJson? then items[SettingsKey].settings
    else DefaultTelegramSettings
  }

  /** `saveTelegramSettings(settings)`. */
  method SaveTelegramSettings(st: LocalStorage, settings: TelegramSettings)
    modifies st
    ensures st.items == old(st.items)[SettingsKey := SettingsJson(settings)]
    ensures LoadTelegramSettings(st.items) == settings
  {
    st.SetItem(SettingsKey, SettingsJson(settings));
  }

  /** A message handed to `sendTelegramMessage(botToken, chatId, text)`. */
  datatype Outgoing = Outgoing(botToken: string, chatId: string, text: seq<Line>)

  /** `JSON.parse(localStorage.getItem('tasks') || '[]')` where a parse error
      (or a value that is not a task array) throws: None. */
  function ReadTaskList(items: map<string, Entry>): (tasks: Option<seq<Task>>)
    ensures TasksKey !in items ==> tasks == Some([])
    ensures TasksKey in items && items[TasksKey].Blank? ==> tasks == Some([])
    ensures tasks.None? <==> TasksKey in items && !(items[TasksKey].Blank? || items[TasksKey].TasksJson?)
    ensures TasksKey in items && items[TasksKey].TasksJson? ==> tasks == Some(items[TasksKey].tasks)
  {
    if TasksKey !in items then Some([])
    else match items[TasksKey]
      case Blank => Some([])
      case TasksJson(ts) => Some(ts)
      case _ => None
  }

  // ---------------------------------------------------------------- plurals

  const Singular: string := "задача"
  const Few: string := "задачі"
  const Many: string := "задач"

  /** `getTaskWordForm(count)`. */
  function GetTaskWordForm(count: nat): (word: string)
    ensures word == Singular || word == Few || word == Many
    ensures 11 <= count % 100 <= 14 ==> word == Many
  {
    if count % 10 == 1 && count % 100 != 11 then Singular
    else if count % 10 in [2, 3, 4] && count % 100 !in [12, 13, 14] then Few
    else Many
  }

  // ---------------------------------------------------------------- report lines

  /** `safeFormatDate(task.dueDate, …)`: the placeholder for an Invalid Date. */
  datatype DateLabel = NoDateGiven | OnDay(day: int)

  function DueLabel(d: DateValue): DateLabel {
    match d
    case InvalidDate => NoDateGiven
    case ValidDate(m) => OnDay(EpochDay(m))
  }

  datatype Line =
    // daily report
    | DailyTitle(date: int)
    | NoTasksForDay
    | CompletedSummary(completed: nat, total: nat, word: string)
    | NoCompletedTasks
    | TodaySummary(count: nat, word: string)
    | NoTasksForToday
    | OverdueSummary(count: nat, word: string)
    | Progress(percent: nat)
    // list items
    | Numbered(index: nat, title: string)
    | NumberedDated(index: nat, title: string, due: DateLabel)
    | ActiveEntry(title: string, due: DateLabel)
    | OverdueEntry(title: string, due: DateLabel)
    | CompletedEntry(title: string)
    // weekly report
    | WeeklyTitle
    | WeekRange(startDay: int, endDay: int)
    | NoTasksForPeriod
    | OverallProgress(percent: nat)
    | CompletedCount(count: nat, word: string)
    | ActiveCount(count: nat, word: string)
    | OverdueCount(count: nat, word: string)
    | BlankLine
    | CategoriesTitle
    | CategoryHeader(name: string, completed: nat, total: nat, word: string)
    // test report
    | TestTitle
    | TestIntro
    | DateLine(day: int)
    | TimeLine(hour: nat, minute: nat, second: nat)
    | AllTasksSummary(count: nat, word: string)
    | NoTasksAtAll
    | ActiveListSummary(count: nat, word: string)
    | NoActiveTasks
    | CompletedListSummary(count: nat, word: string)
    | MoreCompleted(count: nat, word: string)
    | Closing
    // banner the scheduler's test report puts before a daily report
    | TestBanner

  /** The shape of the line a `forEach` writes for each task of a list. */
  datatype EntryKind = NumberedKind | NumberedDatedKind | ActiveKind | OverdueKind | CompletedKind

  function EntryLine(kind: EntryKind, index: nat, t: Task): Line {
    match kind
    case NumberedKind => Numbered(index, t.title)
    case NumberedDatedKind => NumberedDated(index, t.title, DueLabel(t.dueDate))
    case ActiveKind => ActiveEntry(t.title, DueLabel(t.dueDate))
    case OverdueKind => OverdueEntry(t.title, DueLabel(t.dueDate))
    case CompletedKind => CompletedEntry(t.title)
  }

  /** One line per task, numbered from 1 in list order. */
  function Entries(ts: seq<Task>, kind: EntryKind): (lines: seq<Line>)
    ensures |lines| == |ts|
  {
    seq(|ts|, i requires 0 <= i < |ts| => EntryLine(kind, i + 1, ts[i]))
  }

  /** `tasks.forEach((task, index) => report += …)`. */
  method AppendEntries(report: seq<Line>, ts: seq<Task>, kind: EntryKind) returns (r: seq<Line>)
    ensures r == report + Entries(ts, kind)
  {
    r := report;
    var i := 0;
    while i < |ts|
      invariant 0 <= i <= |ts|
      invariant r == report + Entries(ts[..i], kind)
    {
      assert Entries(ts[..i + 1], kind) == Entries(ts[..i], kind) + [EntryLine(kind, i + 1, ts[i])];
      r := r + [EntryLine(kind, i + 1, ts[i])];
      i := i + 1;
    }
    assert ts[..i] == ts;
  }

  // ---------------------------------------------------------------- partition

  predicate IsCompleted(t: Task) {
    t.completed
  }

  predicate IsActive(t: Task) {
    !t.completed
  }

  /** The overdue test: a parseable due date whose calendar day precedes today's. */
  function DueBefore(today: int): Task -> bool {
    (t: Task) => t.dueDate.ValidDate? && EpochDay(t.dueDate.at) < today
  }

  /** `task => !list.includes(task)`. */
  function NotAmong(list: seq<Task>): Task -> bool {
    (t: Task) => t !in list
  }

  /** `task => list.includes(task)`. */
  function Among(list: seq<Task>): Task -> bool {
    (t: Task) => t in list
  }

  /** `task => !task.completed && !list.includes(task)`. */
  function ActiveNotAmong(list: seq<Task>): Task -> bool {
    (t: Task) => !t.completed && t !in list
  }

  /** The lists both formatters derive from the sorted tasks: completed, active
      (not completed), overdue (active with an earlier due date) and current
      (active and not overdue). */
  datatype Partition = Partition(completed: seq<Task>, active: seq<Task>, overdue: seq<Task>, current: seq<Task>)

  function Classify(sorted: seq<Task>, today: int): Partition {
    var active := Filter(sorted, IsActive);
    var overdue := Filter(active, DueBefore(today));
    Partition(Filter(sorted, IsCompleted), active, overdue, Filter(active, NotAmong(overdue)))
  }

  /** `Math.round(completed / total * 100)`, 0 for an empty list. */
  function CompletionRate(completed: nat, total: nat): nat {
    if total > 0 then (200 * completed + total) / (2 * total) else 0
  }

  // ---------------------------------------------------------------- daily report

  /** A list of tasks, or the one line that stands for an empty list. */
  function ListOrElse(ts: seq<Task>, kind: EntryKind, otherwise: Line): seq<Line> {
    if |ts| > 0 then Entries(ts, kind) else [otherwise]
  }

  method AppendListOrElse(report: seq<Line>, ts: seq<Task>, kind: EntryKind, otherwise: Line)
    returns (r: seq<Line>)
    ensures r == report + ListOrElse(ts, kind, otherwise)
  {
    if |ts| > 0 {
      r := AppendEntries(report, ts, kind);
    } else {
      r := report + [otherwise];
    }
  }

  /** The overdue block, written only when there are overdue tasks. */
  function OverdueSection(overdue: seq<Task>): seq<Line> {
    if |overdue| > 0 then [OverdueSummary(|overdue|, GetTaskWordForm(|overdue|))] + Entries(overdue, NumberedDatedKind)
    else []
  }

  method AppendOverdueSection(report: seq<Line>, overdue: seq<Task>) returns (r: seq<Line>)
    ensures r == report + OverdueSection(overdue)
  {
    r := report;
    if |overdue| > 0 {
      r := r + [OverdueSummary(|overdue|, GetTaskWordForm(|overdue|))];
      r := AppendEntries(r, overdue, NumberedDatedKind);
    }
  }

  /** The daily report of a non-empty list, given its partition. */
  function DailyBody(total: nat, p: Partition): seq<Line> {
    var c, n := |p.completed|, |p.current|;
    [CompletedSummary(c, total, GetTaskWordForm(c))]
    + ListOrElse(p.completed, NumberedKind, NoCompletedTasks)
    + [TodaySummary(n, GetTaskWordForm(n))]
    + ListOrElse(p.current, NumberedKind, NoTasksForToday)
    + OverdueSection(p.overdue)
    + [Progress(CompletionRate(c, total))]
  }

  /** The text of `formatDailyReport(tasks, date)`. `arrange` is the order the
      createdAt sort leaves the tasks in; `today` is the clock's day. */
  function DailyReport(tasks: seq<Task>, arrange: seq<Task> -> seq<Task>, date: int, today: int): (r: seq<Line>)
    ensures |r| >= 2 && r[0] == DailyTitle(date)
    ensures |tasks| == 0 <==> r[1] == NoTasksForDay
  {
    if |tasks| == 0 then [DailyTitle(date), NoTasksForDay]
    else [DailyTitle(date)] + DailyBody(|tasks|, Classify(arrange(tasks), today))
  }

  /** `formatDailyReport`: builds the report by appending, as the source does. */
  method FormatDailyReport(tasks: seq<Task>, arrange: seq<Task> -> seq<Task>, date: int, today: int)
    returns (report: seq<Line>)
    ensures report == DailyReport(tasks, arrange, date, today)
  {
    report := [DailyTitle(date)];
    if |tasks| == 0 {
      report := report + [NoTasksForDay];
      return;
    }
    report := AppendDailyBody(report, |tasks|, Classify(arrange(tasks), today));
  }

  /** The summary and list lines of a non-empty daily report, appended. */
  method AppendDailyBody(report: seq<Line>, total: nat, p: Partition) returns (r: seq<Line>)
    ensures r == report + DailyBody(total, p)
  {
    var c, n := |p.completed|, |p.current|;
    r := report + [CompletedSummary(c, total, GetTaskWordForm(c))];
    r := AppendListOrElse(r, p.completed, NumberedKind, NoCompletedTasks);
    r := r + [TodaySummary(n, GetTaskWordForm(n))];
    r := AppendListOrElse(r, p.current, NumberedKind, NoTasksForToday);
    r := AppendOverdueSection(r, p.overdue);
    r := r + [Progress(CompletionRate(c, total))];
  }

  // ---------------------------------------------------------------- weekly report

  const Uncategorized: string := "Без категорії"

  /** `task.category || 'Без категорії'`: a missing or empty category. */
  function CategoryOf(t: Task): (name: string)
    ensures (t.category.None? || t.category == Some("")) ==> name == Uncategorized
    ensures name != ""
  {
    if t.category.None? || t.category.value == "" then Uncategorized else t.category.value
  }

  function InCategory(name: string): Task -> bool {
    (t: Task) => CategoryOf(t) == name
  }

  /** The keys of `tasksByCategory` in the order they were first inserted. */
  function Categories(s: seq<Task>): seq<string>
    decreases |s|
  {
    if s == [] then []
    else
      var names := Categories(s[..|s| - 1]);
      var name := CategoryOf(s[|s| - 1]);
      if name in names then names else names + [name]
  }

  /** One category block: its header with completed/total, then its active,
      its overdue and its completed tasks. */
  function CategorySection(name: string, group: seq<Task>, overdue: seq<Task>): seq<Line> {
    var done := Filter(group, IsCompleted);
    [CategoryHeader(name, |done|, |group|, GetTaskWordForm(|group|))]
    + Entries(Filter(group, ActiveNotAmong(overdue)), ActiveKind)
    + Entries(Filter(group, Among(overdue)), OverdueKind)
    + Entries(done, CompletedKind)
  }

  function CategorySections(sorted: seq<Task>, names: seq<string>, overdue: seq<Task>): seq<Line>
    decreases |names|
  {
    if names == [] then []
    else
      var name := names[|names| - 1];
      CategorySections(sorted, names[..|names| - 1], overdue)
      + CategorySection(name, Filter(sorted, InCategory(name)), overdue)
  }

  /** The lines before the category blocks. */
  function WeeklySummary(tasks: seq<Task>, p: Partition): seq<Line> {
    var c, n, o := |p.completed|, |p.current|, |p.overdue|;
    [OverallProgress(CompletionRate(c, |tasks|)),
     CompletedCount(c, GetTaskWordForm(c)),
     ActiveCount(n, GetTaskWordForm(n))]
    + (if o > 0 then [OverdueCount(o, GetTaskWordForm(o))] else [])
    + [BlankLine, CategoriesTitle]
  }

  /** The text of `formatWeeklyReport(tasks, startDate, endDate)`. */
  function WeeklyReport(tasks: seq<Task>, arrange: seq<Task> -> seq<Task>, startDay: int, endDay: int, today: int)
    : (r: seq<Line>)
    ensures |r| >= 3 && r[0] == WeeklyTitle && r[1] == WeekRange(startDay, endDay)
    ensures |tasks| > 0 ==> r[2].OverallProgress?
  {
    if |tasks| == 0 then [WeeklyTitle, WeekRange(startDay, endDay), NoTasksForPeriod]
    else
      var sorted := arrange(tasks);
      var p := Classify(sorted, today);
      [WeeklyTitle, WeekRange(startDay, endDay)]
      + WeeklySummary(tasks, p)
      + CategorySections(sorted, Categories(sorted), p.overdue)
  }

  /** The names every plain object `{}` inherits from `Object.prototype`.
      Looking one up in `tasksByCategory` gives a function (or the prototype
      itself for `__proto__`), which is truthy and has no `push`. */
  const InheritedKeys: set<string> := {
    "constructor", "hasOwnProperty", "isPrototypeOf", "propertyIsEnumerable",
    "toLocaleString", "toString", "valueOf", "__proto__",
    "__defineGetter__", "__defineSetter__", "__lookupGetter__", "__lookupSetter__"
  }

  predicate Inherited(t: Task) {
    CategoryOf(t) in InheritedKeys
  }

  /** Some task's category is an inherited key, so grouping throws a TypeError. */
  predicate HitsInheritedKey(sorted: seq<Task>) {
    exists i :: 0 <= i < |sorted| && Inherited(sorted[i])
  }

  /** `formatWeeklyReport` throws: the list is non-empty (the empty list
      returns before grouping) and some category is an inherited key. */
  predicate WeeklyReportThrows(tasks: seq<Task>, arrange: seq<Task> -> seq<Task>) {
    |tasks| > 0 && HitsInheritedKey(arrange(tasks))
  }

  /** Fills `tasksByCategory` in place, one task at a time; `threw` when a
      category is an inherited key and `.push` is not a function. */
  method GroupByCategory(sorted: seq<Task>) returns (buckets: map<string, seq<Task>>, names: seq<string>, threw: bool)
    ensures threw <==> HitsInheritedKey(sorted)
    ensures !threw ==> Grouped(sorted, buckets, names)
  {
    buckets, names, threw := map[], [], false;
    var i := 0;
    while i < |sorted|
      invariant 0 <= i <= |sorted|
      invariant Grouped(sorted[..i], buckets, names)
      invariant forall j :: 0 <= j < i ==> !Inherited(sorted[j])
    {
      var t := sorted[i];
      var name := CategoryOf(t);
      if Inherited(t) {
        assert HitsInheritedKey(sorted);
        return buckets, names, true;
      }
      assert sorted[..i + 1] == sorted[..i] + [t];
      if name in buckets {
        GroupStepPresent(sorted[..i], t, buckets, names);
        buckets := buckets[name := buckets[name] + [t]];
      } else {
        GroupStepNew(sorted[..i], t, buckets, names);
        buckets, names := buckets[name := [t]], names + [name];
      }
      i := i + 1;
    }
    assert sorted[..i] == sorted;
    assert !HitsInheritedKey(sorted);
  }

  /** `buckets` maps each category of `s` (listed in `names` in first-seen
      order) to the tasks of `s` in that category. */
  ghost predicate Grouped(s: seq<Task>, buckets: map<string, seq<Task>>, names: seq<string>) {
    && names == Categories(s)
    && (forall name :: name in buckets <==> name in names)
    && (forall name :: name in buckets ==> buckets[name] == Filter(s, InCategory(name)))
  }

  /** A task whose category already has a bucket goes to the end of it. */
  lemma GroupStepPresent(s: seq<Task>, t: Task, buckets: map<string, seq<Task>>, names: seq<string>)
    requires Grouped(s, buckets, names)
    requires CategoryOf(t) in buckets
    ensures Grouped(s + [t], buckets[CategoryOf(t) := buckets[CategoryOf(t)] + [t]], names)
  {
    CategoriesSnoc(s, t);
    GroupExtend(s, t, buckets, names);
  }

  /** A task whose category has no bucket yet opens one, listed last. */
  lemma GroupStepNew(s: seq<Task>, t: Task, buckets: map<string, seq<Task>>, names: seq<string>)
    requires Grouped(s, buckets, names)
    requires CategoryOf(t) !in buckets
    ensures Grouped(s + [t], buckets[CategoryOf(t) := [t]], names + [CategoryOf(t)])
  {
    CategoriesSnoc(s, t);
    NewBucketKeys(buckets, names, CategoryOf(t), [t]);
    NewBucketValues(s, t, buckets, names);
  }

  lemma NewBucketKeys(buckets: map<string, seq<Task>>, names: seq<string>, name: string, v: seq<Task>)
    requires forall n :: n in buckets <==> n in names
    ensures forall n :: n in buckets[name := v] <==> n in names + [name]
  {
  }

  lemma NewBucketValues(s: seq<Task>, t: Task, buckets: map<string, seq<Task>>, names: seq<string>)
    requires Grouped(s, buckets, names)
    requires CategoryOf(t) !in buckets
    ensures forall n :: n in buckets[CategoryOf(t) := [t]] ==> buckets[CategoryOf(t) := [t]][n] == Filter(s + [t], InCategory(n))
  {
    CategoriesCover(s);
    NoneInCategory(s, CategoryOf(t));
    forall n | n in buckets[CategoryOf(t) := [t]]
      ensures buckets[CategoryOf(t) := [t]][n] == Filter(s + [t], InCategory(n))
    {
      FilterSnoc(s, t, InCategory(n));
    }
  }

  /** A task whose category is new adds it at the end of the names. */
  lemma CategoriesSnoc(s: seq<Task>, t: Task)
    ensures Categories(s + [t])
            == if CategoryOf(t) in Categories(s) then Categories(s) else Categories(s) + [CategoryOf(t)]
  {
    assert (s + [t])[..|s + [t]| - 1] == s;
  }

  /** The bucket of `t`'s category, already present, takes `t` at its end. */
  lemma GroupExtend(s: seq<Task>, t: Task, buckets: map<string, seq<Task>>, names: seq<string>)
    requires CategoryOf(t) in buckets
    requires forall name :: name in buckets ==> buckets[name] == Filter(s, InCategory(name))
    ensures var b := buckets[CategoryOf(t) := buckets[CategoryOf(t)] + [t]];
            forall name :: name in b ==> b[name] == Filter(s + [t], InCategory(name))
  {
    forall name | name in buckets
      ensures Filter(s + [t], InCategory(name)) == Filter(s, InCategory(name)) + (if CategoryOf(t) == name then [t] else [])
    {
      FilterSnoc(s, t, InCategory(name));
    }
  }

  /** `report += …` for one category block. */
  method AppendCategorySection(report: seq<Line>, name: string, group: seq<Task>, overdue: seq<Task>)
    returns (r: seq<Line>)
    ensures r == report + CategorySection(name, group, overdue)
  {
    var done := Filter(group, IsCompleted);
    r := report + [CategoryHeader(name, |done|, |group|, GetTaskWordForm(|group|))];
    r := AppendEntries(r, Filter(group, ActiveNotAmong(overdue)), ActiveKind);
    r := AppendEntries(r, Filter(group, Among(overdue)), OverdueKind);
    r := AppendEntries(r, done, CompletedKind);
  }

  /** The category blocks, one per bucket in insertion order; `threw` when
      the grouping throws. */
  method AppendCategorySections(report: seq<Line>, sorted: seq<Task>, overdue: seq<Task>)
    returns (r: seq<Line>, threw: bool)
    ensures threw <==> HitsInheritedKey(sorted)
    ensures !threw ==> r == report + CategorySections(sorted, Categories(sorted), overdue)
  {
    var buckets, names;
    buckets, names, threw := GroupByCategory(sorted);
    if threw {
      return report, true;
    }
    r := AppendBuckets(report, sorted, buckets, names, overdue);
  }

  /** `Object.entries(tasksByCategory).forEach(…)` over filled buckets. */
  method AppendBuckets(report: seq<Line>, sorted: seq<Task>, buckets: map<string, seq<Task>>, names: seq<string>,
                       overdue: seq<Task>)
    returns (r: seq<Line>)
    requires forall name :: name in buckets <==> name in names
    requires forall name :: name in buckets ==> buckets[name] == Filter(sorted, InCategory(name))
    ensures r == report + CategorySections(sorted, names, overdue)
  {
    r := report;
    var k := 0;
    assert r == report + CategorySections(sorted, names[..0], overdue);
    while k < |names|
      invariant 0 <= k <= |names|
      invariant r == report + CategorySections(sorted, names[..k], overdue)
    {
      var name := names[k];
      assert name in buckets;
      var group := buckets[name];
      assert group == Filter(sorted, InCategory(name));
      SectionsSnoc(sorted, names, k, overdue);
      AppendAssociative(report, CategorySections(sorted, names[..k], overdue), CategorySection(name, group, overdue));
      r := AppendCategorySection(r, name, group, overdue);
      k := k + 1;
    }
    assert names[..k] == names;
  }

  lemma SectionsSnoc(sorted: seq<Task>, names: seq<string>, k: nat, overdue: seq<Task>)
    requires k < |names|
    ensures CategorySections(sorted, names[..k + 1], overdue)
            == CategorySections(sorted, names[..k], overdue)
               + CategorySection(names[k], Filter(sorted, InCategory(names[k])), overdue)
  {
    assert names[..k + 1][..k] == names[..k];
  }

  /** `formatWeeklyReport`: summary lines, then one block per category bucket;
      None when it throws. */
  method FormatWeeklyReport(tasks: seq<Task>, arrange: seq<Task> -> seq<Task>, startDay: int, endDay: int, today: int)
    returns (report: Option<seq<Line>>)
    ensures report.None? <==> WeeklyReportThrows(tasks, arrange)
    ensures report.Some? ==> report.value == WeeklyReport(tasks, arrange, startDay, endDay, today)
  {
    var text := [WeeklyTitle, WeekRange(startDay, endDay)];
    if |tasks| == 0 {
      return Some(text + [NoTasksForPeriod]);
    }
    var sorted := arrange(tasks);
    var p := Classify(sorted, today);
    text := text + WeeklySummary(tasks, p);
    var threw;
    text, threw := AppendCategorySections(text, sorted, p.overdue);
    report := if threw then None else Some(text);
  }

  // ---------------------------------------------------------------- test report

  /** The completed-task block of the test report: at most five numbered
      titles, then the number of the others. */
  function CompletedListing(done: seq<Task>): seq<Line> {
    if |done| == 0 then [NoCompletedTasks]
    else if |done| <= 5 then Entries(done, NumberedKind)
    else Entries(done[..5], NumberedKind) + [MoreCompleted(|done| - 5, GetTaskWordForm(|done| - 5))]
  }

  method AppendCompletedListing(report: seq<Line>, done: seq<Task>) returns (r: seq<Line>)
    ensures r == report + CompletedListing(done)
  {
    if |done| == 0 {
      r := report + [NoCompletedTasks];
    } else if |done| <= 5 {
      r := AppendEntries(report, done, NumberedKind);
    } else {
      r := AppendEntries(report, done[..5], NumberedKind);
      r := r + [MoreCompleted(|done| - 5, GetTaskWordForm(|done| - 5))];
    }
  }

  /** The task part of the test message for a non-empty list. */
  function TestListing(all: seq<Task>): seq<Line> {
    var active := Filter(all, IsActive);
    var done := Filter(all, IsCompleted);
    [ActiveListSummary(|active|, GetTaskWordForm(|active|))]
    + ListOrElse(active, NumberedDatedKind, NoActiveTasks)
    + [CompletedListSummary(|done|, GetTaskWordForm(|done|))]
    + CompletedListing(done)
  }

  /** The text of the test message of `sendTestReport()` for the stored tasks. */
  function TestReport(all: seq<Task>, now: Moment): seq<Line> {
    [TestTitle, TestIntro, DateLine(EpochDay(now)), TimeLine(now.hour, now.minute, now.second),
     AllTasksSummary(|all|, GetTaskWordForm(|all|))]
    + (if |all| == 0 then [NoTasksAtAll] else TestListing(all))
    + [Closing]
  }

  method AppendTestListing(report: seq<Line>, all: seq<Task>) returns (r: seq<Line>)
    ensures r == report + TestListing(all)
  {
    var active := Filter(all, IsActive);
    var done := Filter(all, IsCompleted);
    r := report + [ActiveListSummary(|active|, GetTaskWordForm(|active|))];
    r := AppendListOrElse(r, active, NumberedDatedKind, NoActiveTasks);
    r := r + [CompletedListSummary(|done|, GetTaskWordForm(|done|))];
    r := AppendCompletedListing(r, done);
  }

  /** `sendTestReport()` of the Telegram service: nothing is sent unless the
      service is enabled with a token and a chat; a task list that cannot be
      read makes it return false; otherwise the message goes out and the
      result is the channel's answer `delivered`. */
  method SendTestReport(st: LocalStorage, now: Moment, delivered: bool)
    returns (ok: bool, sent: Option<Outgoing>)
    ensures var s := LoadTelegramSettings(st.items);
            !s.enabled || s.botToken == "" || s.chatId == "" ==> !ok && sent == None
    ensures ReadTaskList(st.items).None? ==> !ok && sent == None
    ensures var s := LoadTelegramSettings(st.items);
            s.enabled && s.botToken != "" && s.chatId != "" && ReadTaskList(st.items).Some? ==>
              sent == Some(Outgoing(s.botToken, s.chatId, TestReport(ReadTaskList(st.items).value, now)))
              && ok == delivered
  {
    var settings := LoadTelegramSettings(st.items);
    if !settings.enabled || settings.botToken == "" || settings.chatId == "" {
      return false, None;
    }
    var read := ReadTaskList(st.items);
    if read.None? {
      return false, None;
    }
    var all := read.value;
    var message := [TestTitle, TestIntro, DateLine(EpochDay(now)), TimeLine(now.hour, now.minute, now.second),
                    AllTasksSummary(|all|, GetTaskWordForm(|all|))];
    if |all| == 0 {
      message := message + [NoTasksAtAll];
    } else {
      message := AppendTestListing(message, all);
    }
    message := message + [Closing];
    return delivered, Some(Outgoing(settings.botToken, settings.chatId, message));
  }

  // ---------------------------------------------------------------- lemmas

  /** Every category of a task is listed, and only categories of tasks are. */
  lemma {:induction false} CategoriesCover(s: seq<Task>)
    ensures forall t :: t in s ==> CategoryOf(t) in Categories(s)
    ensures forall name :: name in Categories(s) ==> exists t :: t in s && CategoryOf(t) == name
    decreases |s|
  {
    if s != [] {
      var init := s[..|s| - 1];
      CategoriesCover(init);
      assert s == init + [s[|s| - 1]];
      forall name | name in Categories(s)
        ensures exists t :: t in s && CategoryOf(t) == name
      {
        if name in Categories(init) {
          var t :| t in init && CategoryOf(t) == name;
          assert t in s;
        } else {
          assert s[|s| - 1] in s;
        }
      }
    }
  }

  /** No category is listed twice. */
  lemma {:induction false} CategoriesDistinct(s: seq<Task>)
    ensures forall i, j :: 0 <= i < j < |Categories(s)| ==> Categories(s)[i] != Categories(s)[j]
    decreases |s|
  {
    if s != [] {
      CategoriesDistinct(s[..|s| - 1]);
    }
  }

  lemma NoneInCategory(s: seq<Task>, name: string)
    requires forall t :: t in s ==> CategoryOf(t) in Categories(s)
    requires name !in Categories(s)
    ensures Filter(s, InCategory(name)) == []
  {
    forall i | 0 <= i < |s|
      ensures !InCategory(name)(s[i])
    {
      assert s[i] in s;
    }
    FilterNone(s, InCategory(name));
  }

  /** The default settings send nothing; their schedule reads as 20:00 for the
      daily report and Friday (day 5, Sunday being 0) 18:00 for the weekly one. */
  lemma DefaultSchedule()
    ensures var d := DefaultTelegramSettings;
            !d.enabled && !d.reportSchedule.daily && !d.reportSchedule.weekly && d.botToken == "" && d.chatId == ""
    ensures ParseClock(DefaultTelegramSettings.reportSchedule.dailyTime) == (Some(20), Some(0))
    ensures DefaultTelegramSettings.reportSchedule.weeklyDay == 5
    ensures ParseClock(DefaultTelegramSettings.reportSchedule.weeklyTime) == (Some(18), Some(0))
  {
    assert "20:00" == ClockString(20, 0);
    ClockStringParses(20, 0);
    assert "18:00" == ClockString(18, 0);
    ClockStringParses(18, 0);
  }

  /** The three Ukrainian forms of "task" and exactly when each is chosen;
      the choice depends only on the last two digits. */
  lemma TaskWordForms(n: nat)
    ensures GetTaskWordForm(n) == Singular <==> n % 10 == 1 && n % 100 != 11
    ensures GetTaskWordForm(n) == Few <==> 2 <= n % 10 <= 4 && !(12 <= n % 100 <= 14)
    ensures GetTaskWordForm(n) == Many <==> n % 10 == 0 || 5 <= n % 10 || 11 <= n % 100 <= 14
    ensures GetTaskWordForm(n + 100) == GetTaskWordForm(n)
  {
    assert Singular != Few && Singular != Many && Few != Many by {
      assert Singular[5] != Few[5];
      assert |Many| != |Singular| && |Many| != |Few|;
    }
    assert (n + 100) % 10 == n % 10 && (n + 100) % 100 == n % 100;
  }

  /** The completion rate is the percentage rounded to the nearest integer,
      halves up: `2t*r <= 200c + t < 2t*r + 2t`; it runs from 0 to 100. */
  lemma CompletionRateBounds(c: nat, t: nat)
    requires c <= t
    ensures CompletionRate(c, t) <= 100
    ensures t == 0 || c == 0 ==> CompletionRate(c, t) == 0
    ensures 0 < t && c == t ==> CompletionRate(c, t) == 100
    ensures 0 < t ==> 2 * t * CompletionRate(c, t) <= 200 * c + t < 2 * t * CompletionRate(c, t) + 2 * t
  {
    if t > 0 {
      var x, d := 200 * c + t, 2 * t;
      var r := x / d;
      assert x == d * r + x % d && 0 <= x % d < d;
      if r > 100 {
        MulMonotone(d, 101, r);
        assert false;
      }
      if c == t {
        DivBetween(x, d, 100);
      }
      if c == 0 {
        DivBetween(x, d, 0);
      }
    }
  }

  /** What each list of the partition holds, and that completed/active and
      overdue/current each split their list exactly. A task without a valid
      date is never overdue. */
  lemma {:induction false} ClassifyFacts(sorted: seq<Task>, today: int)
    ensures var p := Classify(sorted, today);
      && (forall t :: t in p.completed <==> t in sorted && t.completed)
      && (forall t :: t in p.active <==> t in sorted && !t.completed)
      && (forall t :: t in p.overdue <==> t in p.active && t.dueDate.ValidDate? && EpochDay(t.dueDate.at) < today)
      && (forall t :: t in p.current <==> t in p.active && !(t.dueDate.ValidDate? && EpochDay(t.dueDate.at) < today))
      && |p.completed| + |p.active| == |sorted|
      && |p.overdue| + |p.current| == |p.active|
  {
    var p := Classify(sorted, today);
    FilterSplitCount(sorted, IsCompleted);
    FilterCongruent(sorted, Not(IsCompleted), IsActive);
    FilterSplitCount(p.active, DueBefore(today));
    FilterCongruent(p.active, Not(DueBefore(today)), NotAmong(p.overdue));
  }

  /** The partition sizes do not depend on the order of the tasks. */
  lemma {:induction false} ClassifyIgnoresOrder(s: seq<Task>, u: seq<Task>, today: int)
    requires multiset(s) == multiset(u)
    ensures var p, q := Classify(s, today), Classify(u, today);
      && multiset(p.completed) == multiset(q.completed)
      && multiset(p.active) == multiset(q.active)
      && multiset(p.overdue) == multiset(q.overdue)
      && multiset(p.current) == multiset(q.current)
      && |p.completed| == |q.completed| && |p.active| == |q.active|
      && |p.overdue| == |q.overdue| && |p.current| == |q.current|
  {
    var p, q := Classify(s, today), Classify(u, today);
    FilterPermutation(s, u, IsCompleted);
    FilterPermutation(s, u, IsActive);
    FilterPermutation(p.active, q.active, DueBefore(today));
    FilterCongruent(p.active, Not(DueBefore(today)), NotAmong(p.overdue));
    FilterCongruent(q.active, Not(DueBefore(today)), NotAmong(q.overdue));
    FilterPermutation(p.active, q.active, Not(DueBefore(today)));
  }

  /** Every task of a non-empty day is listed exactly once: the report has the
      fixed lines plus one line per task (and a placeholder for each empty
      list); the counts are those of the unsorted list, and the last line is
      the rounded completion percentage. */
  lemma DailyReportListsEveryTask(tasks: seq<Task>, arrange: seq<Task> -> seq<Task>, date: int, today: int)
    requires |tasks| > 0
    requires multiset(arrange(tasks)) == multiset(tasks)
    ensures var r := DailyReport(tasks, arrange, date, today);
            var p := Classify(tasks, today);
            var c, n, o := |p.completed|, |p.current|, |p.overdue|;
      && |r| == 4 + |tasks| + (if c == 0 then 1 else 0) + (if n == 0 then 1 else 0) + (if o > 0 then 1 else 0)
      && r[1] == CompletedSummary(c, |tasks|, GetTaskWordForm(c))
      && r[|r| - 1] == Progress(CompletionRate(c, |tasks|))
      && CompletionRate(c, |tasks|) <= 100
  {
    var p := Classify(tasks, today);
    ClassifyIgnoresOrder(arrange(tasks), tasks, today);
    ClassifyFacts(tasks, today);
    CompletionRateBounds(|p.completed|, |tasks|);
  }

  /** The number of tasks over the buckets named in `names`. */
  function BucketTotal(s: seq<Task>, names: seq<string>): nat
    decreases |names|
  {
    if names == [] then 0
    else BucketTotal(s, names[..|names| - 1]) + |Filter(s, InCategory(names[|names| - 1]))|
  }

  lemma {:induction false} BucketTotalSnoc(s: seq<Task>, t: Task, names: seq<string>)
    requires forall i, j :: 0 <= i < j < |names| ==> names[i] != names[j]
    ensures BucketTotal(s + [t], names) == BucketTotal(s, names) + (if CategoryOf(t) in names then 1 else 0)
    decreases |names|
  {
    if names != [] {
      var init, last := names[..|names| - 1], names[|names| - 1];
      BucketTotalSnoc(s, t, init);
      FilterSnoc(s, t, InCategory(last));
      assert names == init + [last];
      assert CategoryOf(t) in names <==> CategoryOf(t) in init || CategoryOf(t) == last;
      assert !(last in init);
    }
  }

  /** The category buckets share out the tasks: their sizes add up to the
      number of tasks. */
  lemma {:induction false} BucketsShareOut(s: seq<Task>)
    ensures BucketTotal(s, Categories(s)) == |s|
    decreases |s|
  {
    if s != [] {
      var init, t := s[..|s| - 1], s[|s| - 1];
      assert s == init + [t];
      BucketsShareOut(init);
      CategoriesDistinct(init);
      BucketTotalSnoc(init, t, Categories(init));
      if CategoryOf(t) !in Categories(init) {
        CategoriesCover(init);
        NoneInCategory(init, CategoryOf(t));
        FilterSnoc(init, t, InCategory(CategoryOf(t)));
        assert Categories(s)[..|Categories(s)| - 1] == Categories(init);
      }
    }
  }

  /** A category block lists each task of its bucket once, given that no
      overdue task is completed. */
  lemma CategorySectionLength(name: string, group: seq<Task>, overdue: seq<Task>)
    requires forall t :: t in overdue ==> !t.completed
    ensures |CategorySection(name, group, overdue)| == 1 + |group|
    ensures CategorySection(name, group, overdue)[0].completed <= CategorySection(name, group, overdue)[0].total
  {
    FilterThreeWay(group, ActiveNotAmong(overdue), Among(overdue), IsCompleted);
  }

  lemma {:induction false} SectionsLength(sorted: seq<Task>, names: seq<string>, overdue: seq<Task>)
    requires forall t :: t in overdue ==> !t.completed
    ensures |CategorySections(sorted, names, overdue)| == |names| + BucketTotal(sorted, names)
    decreases |names|
  {
    if names != [] {
      var init, last := names[..|names| - 1], names[|names| - 1];
      SectionsLength(sorted, init, overdue);
      CategorySectionLength(last, Filter(sorted, InCategory(last)), overdue);
    }
  }

  /** Every task of a non-empty week is listed exactly once under its category:
      after the fixed lines come one header per category and one line per task. */
  lemma WeeklyReportListsEveryTask(tasks: seq<Task>, arrange: seq<Task> -> seq<Task>, startDay: int, endDay: int, today: int)
    requires |tasks| > 0
    requires multiset(arrange(tasks)) == multiset(tasks)
    ensures var sorted := arrange(tasks);
            var p := Classify(sorted, today);
            |WeeklyReport(tasks, arrange, startDay, endDay, today)|
            == 2 + |WeeklySummary(tasks, p)| + |Categories(sorted)| + |tasks|
  {
    var sorted := arrange(tasks);
    var p := Classify(sorted, today);
    assert |sorted| == |tasks| by {
      assert |multiset(sorted)| == |multiset(tasks)|;
    }
    ClassifyFacts(sorted, today);
    SectionsLength(sorted, Categories(sorted), p.overdue);
    BucketsShareOut(sorted);
  }

  /** The test report names at most five completed tasks, in order, and then
      says how many others there are. */
  lemma CompletedListingShape(done: seq<Task>)
    ensures |done| == 0 ==> CompletedListing(done) == [NoCompletedTasks]
    ensures 0 < |done| <= 5 ==>
              |CompletedListing(done)| == |done|
              && forall j :: 0 <= j < |done| ==> CompletedListing(done)[j] == Numbered(j + 1, done[j].title)
    ensures 5 < |done| ==>
              |CompletedListing(done)| == 6
              && (forall j :: 0 <= j < 5 ==> CompletedListing(done)[j] == Numbered(j + 1, done[j].title))
              && CompletedListing(done)[5] == MoreCompleted(|done| - 5, GetTaskWordForm(|done| - 5))
  {
  }

  /** With no tasks each report is its header and the "no tasks" line. */
  lemma EmptyReports(arrange: seq<Task> -> seq<Task>, date: int, startDay: int, endDay: int, today: int)
    ensures DailyReport([], arrange, date, today) == [DailyTitle(date), NoTasksForDay]
    ensures WeeklyReport([], arrange, startDay, endDay, today) == [WeeklyTitle, WeekRange(startDay, endDay), NoTasksForPeriod]
  {
  }

  /** Each task lies in the bucket of exactly one listed category. */
  lemma EachTaskInOneBucket(s: seq<Task>, t: Task)
    requires t in s
    ensures exists i :: 0 <= i < |Categories(s)| && t in Filter(s, InCategory(Categories(s)[i]))
    ensures forall i, j ::
              (0 <= i < |Categories(s)| && 0 <= j < |Categories(s)|
               && t in Filter(s, InCategory(Categories(s)[i])) && t in Filter(s, InCategory(Categories(s)[j])))
              ==> i == j
  {
    CategoriesCover(s);
    CategoriesDistinct(s);
    var names := Categories(s);
    var i :| 0 <= i < |names| && names[i] == CategoryOf(t);
    assert t in Filter(s, InCategory(names[i]));
  }

  /** For any sort that permutes the tasks, the weekly formatter throws
      exactly when the list holds a task whose category is an inherited key. */
  lemma WeeklyReportThrowsIff(tasks: seq<Task>, arrange: seq<Task> -> seq<Task>)
    requires multiset(arrange(tasks)) == multiset(tasks)
    ensures WeeklyReportThrows(tasks, arrange) <==> exists t :: t in tasks && CategoryOf(t) in InheritedKeys
  {
    var sorted := arrange(tasks);
    if t :| t in tasks && CategoryOf(t) in InheritedKeys {
      assert t in multiset(sorted);
      var i :| 0 <= i < |sorted| && sorted[i] == t;
      assert Inherited(sorted[i]);
    }
    if HitsInheritedKey(sorted) {
      var i :| 0 <= i < |sorted| && Inherited(sorted[i]);
      assert sorted[i] in multiset(tasks);
    }
  }
}
