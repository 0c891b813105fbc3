/**
 * The data the report subsystem reads and writes: task records, the report
 * history record, the Telegram settings record, and the browser's
 * localStorage that holds all three as JSON text under fixed keys.
 */
module Records {
  import opened Wrappers
  import opened Clock

  /** `new Date(task.dueDate)`: either an Invalid Date or a moment. */
  datatype DateValue = InvalidDate | ValidDate(at: Moment)

  /** A task as stored by the task manager (fields the reports read). */
  datatype Task = Task(
    id: string,
    title: string,
    dueDate: DateValue,
    completed: bool,
    category: Option<string>)

  /** `lastDailyReport`: the ISO date (a day number) and the unpadded "H:M" time. */
  datatype DailyRecord = DailyRecord(date: int, time: string)

  /** `lastWeeklyReport`: the ISO date, the week number and the year. */
  datatype WeeklyRecord = WeeklyRecord(date: int, weekNumber: int, year: int)

  /** `ReportHistory`: both members optional; `{}` has neither. */
  datatype ReportHistory = ReportHistory(
    lastWeeklyReport: Option<WeeklyRecord>,
    lastDailyReport: Option<DailyRecord>)

  const EmptyHistory: ReportHistory := ReportHistory(None, None)

  datatype ReportSchedule = ReportSchedule(
    daily: bool,
    weekly: bool,
    dailyTime: string,
    weeklyDay: int,
    weeklyTime: string)

  datatype TelegramSettings = TelegramSettings(
    botToken: string,
    chatId: string,
    enabled: bool,
    reportSchedule: ReportSchedule)

  /** The text stored under a localStorage key, classified by what `JSON.parse`
      makes of it: the empty string, text that does not parse, or the JSON of
      one of the records above. */
  datatype Entry =
    | Blank
    | Malformed
    | HistoryJson(history: ReportHistory)
    | SettingsJson(settings: TelegramSettings)
    | TasksJson(tasks: seq<Task>)

  const HistoryKey: string := "report_history"
  const SettingsKey: string := "telegram_settings"
  const TasksKey: string := "tasks"

  /** The browser's localStorage: a mutable map from key to stored text. */
  class LocalStorage {
    var items: map<string, Entry>

    constructor ()
      ensures items == map[]
    {
      items := map[];
    }

    /** `localStorage.setItem(key, text)`. */
    method SetItem(key: string, e: Entry)
      modifies this
      ensures items == old(items)[key := e]
    {
      items := items[key := e];
    }

    /** `localStorage.removeItem(key)`. */
    method RemoveItem(key: string)
      modifies this
      ensures items == old(items) - {key}
      ensures key !in items
    {
      items := items - {key};
    }
  }
}
