# Task-manager report scheduling, modelled in Dafny

The task manager can send its task list to Telegram as a daily report, a
weekly report and an on-demand test report. This project models the part of
the code that decides *what* those reports say and *when* they are sent:

- the report history kept in `localStorage` (`report_history`), with its week
  number and its "already sent today / this week" checks and marks;
- the in-page scheduler: what goes into the daily and the weekly report (the
  period's tasks plus uncompleted overdue ones) and its exact-minute triggers;
- the Telegram service's settings with their defaults, the Ukrainian plural
  of "задача", the completion percentage, and the daily, weekly and test
  report texts built line by line;
- the missed-weekly-report check;
- the service worker's periodic `checkAndSendReports`, the one place where
  the schedule meets the history.

Dates are a `Clock.Moment` (year, day of year, hour, minute, second,
millisecond) with day numbers counted from 1970-01-01. `localStorage` is a
`Records.LocalStorage` object whose `items` map holds, per key, what
`JSON.parse` makes of the stored text: blank, malformed, or one of the
records. A report is a sequence of `TelegramService.Line` values. Each line
stands for one line of the HTML message, and a locale-formatted date inside
a line is its day number. The Telegram call is a parameter (`delivered`,
`dailyOk`, `weeklyOk`) that gives the channel's answer. The `createdAt`
sort is a parameter `arrange`, which the lemmas require to be a
permutation.

Modules (one file each):

- `Wrappers`, `Seqs` (`Array.prototype.filter`), `Arith`: general support.
- `JsText`: the JavaScript string and number conversions the code relies on:
  `${n}`, `Number`, `parseInt`, `split(':')`, and "HH:MM".
- `Clock`, `Records`.
- `ReportHistory`, `ReportScheduler`, `TelegramService`, `MissedReports` and
  `ServiceWorker`: one module per core source file.

## Model

| member | source | states |
|---|---|---|
| ReportHistory.LoadReportHistory | src/lib/report-history.ts:21-29 | a missing key, blank or unparseable text, or JSON of another shape (a task list, say) all behave as the empty record `{}` when read; the load never fails |
| ReportHistory.SaveReportHistory | src/lib/report-history.ts:34-40 | only the history key is overwritten, and the next load returns the saved record |
| ReportHistory.ResetReportHistory | src/lib/report-history.ts:113-119 | only the history key is removed, and the next load returns `{}` |
| ReportHistory.WeekNumberAsWritten | src/lib/report-history.ts:45-49 | the week number computed as the source writes it, counting the time of day as a fraction of a day, is at least 1 |
| ReportHistory.WeekNumber | src/lib/report-history.ts:45-49 | the whole-day week number is at least 1 |
| ReportHistory.WeekNumberBounds | src/lib/report-history.ts:45-49 | the whole-day week number is 1 on January 1 and lies in 1..54 for every valid date |
| ReportHistory.SameWeekNumber | src/lib/report-history.ts:45-49 | within one year two dates have the same week number exactly when they share the Sunday that starts their week |
| ReportHistory.WeekNumberAsWrittenShift | src/lib/report-history.ts:47-48 | the formula as written, on fractional days, gives one more than the whole-day week number exactly on a Saturday after 00:00:00.000, and the same number otherwise |
| ReportHistory.WeekNumberAsWrittenNewYearNoon | src/lib/report-history.ts:45-49 | 2022-01-01 12:00 is a valid Saturday; as written its week number is 2, while the whole-day one is 1 |
| ReportHistory.WeekNumberAsWrittenSplitsWeek | src/lib/report-history.ts:45-49 | Friday 2022-01-07 18:00 and Saturday 2022-01-08 12:00 are valid and share their Sunday; as written they get weeks 2 and 3, while the whole-day number is 2 for both |
| ReportHistory.WasDailyReportSentToday | src/lib/report-history.ts:54-66 | false when there is no daily record; true only when the stored date is today |
| ReportHistory.WasWeeklyReportSentThisWeek | src/lib/report-history.ts:71-81 | false when there is no weekly record |
| ReportHistory.MarkDaily | src/lib/report-history.ts:86-94 | when the history key holds a JSON array the store is unchanged, since `JSON.stringify` drops the new property; otherwise the next load returns the old history with `lastDailyReport` set to today's date and the unpadded "H:M", and the key no longer holds an array |
| ReportHistory.MarkWeekly | src/lib/report-history.ts:99-108 | when the history key holds a JSON array the store is unchanged; otherwise the next load returns the old history with `lastWeeklyReport` set to today's date, the week number and the year |
| ReportHistory.MarkDailyReportSent | src/lib/report-history.ts:86-94 | the load-assign-save steps leave exactly the store `MarkDaily` describes, the array case included; `lastWeeklyReport` is unchanged |
| ReportHistory.MarkWeeklyReportSent | src/lib/report-history.ts:99-108 | the load-assign-save steps leave exactly the store `MarkWeekly` describes, the array case included; `lastDailyReport` is unchanged |
| ReportHistory.MarkedDailySentIff | src/lib/report-history.ts:62-65 | after a daily mark at t, the daily check at now is true exactly when now has t's date and t's hour (the check is hour-granular) |
| ReportHistory.MarkedWeeklySentIff | src/lib/report-history.ts:79-80 | after a weekly mark at t, the weekly check at now is true exactly when now is in t's year and in t's Sunday-to-Saturday week, with the whole-day week number |
| ReportHistory.MarksAreIndependent | src/lib/report-history.ts:86-108 | marking one kind of report never changes the answer of the other kind's check |
| ReportHistory.MarksAreIdempotent | src/lib/report-history.ts:86-108 | marking twice at the same instant gives the same history as marking once |
| ReportScheduler.LoadTasks | src/lib/report-scheduler.ts:32-40 | a missing, blank or unparseable list reads as `[]` and a stored task list as itself; it fails (a later `.filter` throws) exactly when the stored JSON is not a task list |
| ReportScheduler.SafeParseDate | src/lib/report-scheduler.ts:45-53 | null exactly for an Invalid Date, and otherwise the date itself |
| ReportScheduler.FilterTasksByDateRange | src/lib/report-scheduler.ts:58-70 | the result is a subsequence of the input and holds exactly the tasks with a parseable due date whose date lies in [start, end] inclusive |
| ReportScheduler.FilterKeepsCopies | src/lib/report-scheduler.ts:58-70 | every copy of a task in range is kept and every copy of one out of range is dropped: the result's multiplicity of t is t's multiplicity in the input or 0 |
| ReportScheduler.EarlierThanMidnight | src/lib/report-scheduler.ts:82-86 | a moment is before a day's 00:00:00.000 exactly when its date is earlier; `setHours` leaves the date alone |
| ReportScheduler.GetTasksForDay | src/lib/report-scheduler.ts:75-98 | every listed task is a stored task with a valid due date on or before the day, and every stored task due that day is listed |
| ReportScheduler.SelectForDayFacts | src/lib/report-scheduler.ts:75-98 | the day list is the tasks due that day, completed or not, then the uncompleted tasks due on an earlier day whose id is not in the first part; no id is in both parts |
| ReportScheduler.GetTasksForDayDistinctIds | src/lib/report-scheduler.ts:88-97 | when the stored ids are distinct, the day list has distinct ids |
| ReportScheduler.WeekStart | src/lib/report-scheduler.ts:107-116 | the week's first day is at most six days before the date and not after it |
| ReportScheduler.WeekStartIsMonday | src/lib/report-scheduler.ts:107-116 | the week starts on a Monday, on or before the date (6 days back from a Sunday), and the date is within start..start+6 |
| ReportScheduler.GetTasksForWeek | src/lib/report-scheduler.ts:103-134 | the week starts on or before the date and ends six days after its start; every listed task is a stored task with a valid due date on or before the last day |
| ReportScheduler.GetTasksForWeekFacts | src/lib/report-scheduler.ts:103-134 | the end is start+6; the week list is exactly the tasks dated within it; the appended ones are exactly the uncompleted tasks dated before the start whose id is not in the week list |
| ReportScheduler.ShouldSendDailyReport | src/lib/report-scheduler.ts:139-148 | false whenever the master switch or the daily flag is off |
| ReportScheduler.ShouldSendDailyAt | src/lib/report-scheduler.ts:145-147 | for a time written "HH:MM", true exactly when both switches are on and now's hour and minute are HH and MM |
| ReportScheduler.ShouldSendWeeklyReport | src/lib/report-scheduler.ts:153-164 | false whenever the master switch or the weekly flag is off, and false on any other weekday |
| ReportScheduler.ShouldSendWeeklyAt | src/lib/report-scheduler.ts:159-163 | for a time written "HH:MM", true exactly when both switches are on, it is the configured weekday and now's hour and minute are HH and MM |
| ReportScheduler.SendDailyReport | src/lib/report-scheduler.ts:169-181 | with the service or the daily schedule off, it returns false and sends nothing; when a message goes out, the result is the channel's answer |
| ReportScheduler.SendDailyReportSends | src/lib/report-scheduler.ts:176-180 | a message goes out exactly when the schedule is on and the task list reads, and it is the daily report of the day list |
| ReportScheduler.SendWeeklyReport | src/lib/report-scheduler.ts:186-198 | with the service or the weekly schedule off, it returns false and sends nothing; when a message goes out, the result is the channel's answer |
| ReportScheduler.SendWeeklyReportSends | src/lib/report-scheduler.ts:186-198 | a message goes out exactly when the schedule is on, the task list reads and no selected task's category is an inherited name; the promise is rejected exactly when the schedule is on and nothing goes out; the message is the weekly report of the week's selection |
| ReportScheduler.SendSchedulerTestReport | src/lib/report-scheduler.ts:235-258 | with the service off it returns false and sends nothing; every failure is caught, so the promise always resolves to a boolean |
| TelegramService.LoadTelegramSettings | src/lib/telegram-service.ts:39-49 | the defaults when the key is missing or its text is blank, corrupt or not a settings record |
| TelegramService.SaveTelegramSettings | src/lib/telegram-service.ts:54-60 | only the settings key is overwritten, and the next load returns the saved settings |
| TelegramService.DefaultSchedule | src/lib/telegram-service.ts:23-34 | the defaults are all off with no token or chat, and read as daily 20:00 and weekly day 5 (Friday) 18:00 |
| TelegramService.ReadTaskList | src/service-worker.ts:64 | a missing or blank task list reads as `[]`, a stored task list as itself, and anything else throws |
| TelegramService.GetTaskWordForm | src/lib/telegram-service.ts:113-121 | the word is one of the three forms, and 11..14 modulo 100 always take 'задач' |
| TelegramService.TaskWordForms | src/lib/telegram-service.ts:113-121 | 'задача' iff n%10 is 1 and n%100 is not 11; 'задачі' iff n%10 is 2..4 and n%100 is not 12..14; 'задач' in all other cases; the form repeats with period 100 |
| TelegramService.CompletionRateBounds | src/lib/telegram-service.ts:221 | the rate is 100·c/t rounded to the nearest integer, halves up (2t·r ≤ 200c+t < 2t·r+2t); it lies in 0..100, is 0 with no tasks or none completed, and is 100 when all are completed |
| TelegramService.ClassifyFacts | src/lib/telegram-service.ts:165-184 | completed and active split the tasks and their counts add up; overdue is the active tasks with a valid date on an earlier day, so an unparseable date is never overdue; today's tasks are the active tasks minus the overdue ones |
| TelegramService.ClassifyIgnoresOrder | src/lib/telegram-service.ts:157-184 | the four lists of the partition have the same contents and sizes however the sort arranges the tasks |
| TelegramService.DailyReport | src/lib/telegram-service.ts:142-225 | the report opens with the title for the date, and its second line is "no tasks for this day" exactly when there are no tasks |
| TelegramService.FormatDailyReport | src/lib/telegram-service.ts:142-225 | the report the appending loops build is the daily report of the tasks |
| TelegramService.DailyReportListsEveryTask | src/lib/telegram-service.ts:156-224 | for a non-empty day every task is listed once: the report has the fixed lines plus one line per task plus one placeholder per empty list; its counts are those of the input, and its last line is the rate, at most 100 |
| TelegramService.EmptyReports | src/lib/telegram-service.ts:151-154 | with no tasks, the daily report is its header and "no tasks for this day", and the weekly one is its header, the range and "no tasks for this period" |
| TelegramService.CategoryOf | src/lib/telegram-service.ts:296 | a missing or empty category becomes 'Без категорії', so no bucket has an empty name |
| TelegramService.GroupByCategory | src/lib/telegram-service.ts:294-301 | filling `tasksByCategory` task by task throws exactly when some category is a name inherited from `Object.prototype`; otherwise it gives one bucket per category, first-seen order, where each bucket holds exactly its category's tasks in list order |
| TelegramService.WeeklyReportThrowsIff | src/lib/telegram-service.ts:294-301 | for a sort that permutes the tasks, the weekly formatter throws exactly when some task's category is an inherited name |
| TelegramService.CategoriesCover | src/lib/telegram-service.ts:294-301 | every task's category is a bucket, and every bucket is some task's category |
| TelegramService.CategoriesDistinct | src/lib/telegram-service.ts:294-301 | no category gets two buckets |
| TelegramService.EachTaskInOneBucket | src/lib/telegram-service.ts:294-301 | every task lies in the bucket of exactly one category |
| TelegramService.BucketsShareOut | src/lib/telegram-service.ts:294-301 | the bucket sizes add up to the number of tasks |
| TelegramService.CategorySectionLength | src/lib/telegram-service.ts:305-343 | when no overdue task is completed, a category block lists each of its tasks once (active, overdue or completed), and its header's completed count is at most its total |
| TelegramService.WeeklyReport | src/lib/telegram-service.ts:230-346 | the report opens with the title and the week's range; for a non-empty list the next line is the overall progress |
| TelegramService.FormatWeeklyReport | src/lib/telegram-service.ts:230-346 | the formatter throws exactly when the list is non-empty and a category is an inherited name; otherwise the report the appending loops build is the weekly report of the tasks |
| TelegramService.WeeklyReportListsEveryTask | src/lib/telegram-service.ts:279-343 | for a non-empty week every task is listed once under its category: after the fixed lines come one header per category and one line per task |
| TelegramService.AppendEntries | src/lib/telegram-service.ts:191-193 | a `forEach` appends one line per task, numbered from 1 in list order |
| TelegramService.SendTestReport | src/lib/telegram-service.ts:351-422 | nothing is sent unless the service is on with a token and a chat; a task list that cannot be read gives false; otherwise the test report of the stored tasks goes out and the result is the channel's answer |
| TelegramService.CompletedListingShape | src/lib/telegram-service.ts:400-413 | at most five completed tasks are listed, numbered in order; with more than five, one further line gives the other count, completed − 5 |
| MissedReports.CheckMissedDailyReport | src/lib/missed-reports.ts:9-11 | always false |
| MissedReports.CheckMissedWeeklyReport | src/lib/missed-reports.ts:16-37 | false when the master switch or the weekly flag is off, when a weekly report was already sent this week, and on any other weekday |
| MissedReports.MissedWeeklyIff | src/lib/missed-reports.ts:30-33 | for a time "HH:MM" within the day, missed exactly when both switches are on, nothing was sent this week, it is the scheduled weekday and now is strictly after HH:MM:00.000 today |
| MissedReports.LateHourNeverMissed | src/lib/missed-reports.ts:31-33 | a configured hour of 24 or more rolls `setHours` into the next day, so the report is never missed |
| MissedReports.NotMissedAfterMark | src/lib/missed-reports.ts:20-22 | unless the history key holds a JSON array, once the weekly report is marked it is not missed again in that Sunday-to-Saturday week, with the whole-day week number; with an array the mark changes nothing, so the answer stays what it was |
| ServiceWorker.Tick | src/service-worker.ts:51-95 | every message a run sends goes to the stored bot and chat |
| ServiceWorker.DailyBranch | src/service-worker.ts:60-71 | the branch throws exactly when it is due and the task list does not read; otherwise it sends at most one message, to the stored bot and chat, and writes nothing or, when delivered, exactly the daily mark |
| ServiceWorker.WeeklyBranch | src/service-worker.ts:74-91 | the branch keeps what the daily branch left, or appends one message after it; it writes nothing or, when delivered, exactly the weekly mark |
| ServiceWorker.CheckAndSendReports | src/service-worker.ts:51-95 | the step-by-step run sends and writes exactly what `Tick` prescribes |
| ServiceWorker.RunDailyBranch | src/service-worker.ts:60-71 | the daily branch sends the daily report of all stored tasks when due and marks it only on success; when the task list cannot be read, nothing is sent or written |
| ServiceWorker.RunWeeklyBranch | src/service-worker.ts:74-91 | the weekly branch sends the report for the Sunday-to-Saturday week when due and marks it only on success; when the task list does not read or grouping throws, it sends and writes nothing |
| ServiceWorker.DisabledDoesNothing | src/service-worker.ts:54 | with the service off, nothing is sent and nothing is written |
| ServiceWorker.OnlyHistoryChanges | src/service-worker.ts:51-95 | a run writes no key but the report history; with both sends failing it writes nothing; at most two messages go out |
| ServiceWorker.DailySentIff | src/service-worker.ts:60-67 | the daily report goes out exactly when the service is on, the daily flag is on, the unpadded "H:M" equals `dailyTime`, it was not sent this hour and the task list reads; its text is the daily report of all stored tasks |
| ServiceWorker.DailyBranchKeeps | src/service-worker.ts:60-71 | the daily branch leaves the task list, the settings, the weekly record and the weekly condition as they were, and sends only daily reports |
| ServiceWorker.WeeklyBranchSends | src/service-worker.ts:74-91 | after daily messages only, the last message is a weekly report exactly when the branch is due, the task list reads and grouping does not throw; it is then the report of the Sunday-to-Saturday week |
| ServiceWorker.WeeklySentIff | src/service-worker.ts:74-91 | a run's last message is a weekly report exactly when the service is on, the weekly conditions hold, the task list reads and grouping does not throw; that message is the report of the Sunday-to-Saturday week of all stored tasks |
| ServiceWorker.UnconfirmedDailyKeepsRecord | src/service-worker.ts:67-70 | when the channel does not confirm the daily report, the daily record is left as it was |
| ServiceWorker.UnconfirmedWeeklyKeepsRecord | src/service-worker.ts:87-90 | when the channel does not confirm the weekly report, the weekly record is left as it was |
| ServiceWorker.ConfirmedSendsAreRecorded | src/service-worker.ts:67-90 | unless the history key holds a JSON array, a confirmed daily report records today and the unpadded "H:M", and a confirmed weekly report records today, the whole-day week number and the year |
| ServiceWorker.PaddedTimeNeverDue | src/service-worker.ts:57-61 | a configured "HH:MM" whose hour or minute is below 10 never equals the unpadded clock key, so that branch never runs; with two-digit hour and minute it runs exactly in that minute |
| ServiceWorker.DefaultTimesNeverDue | src/lib/telegram-service.ts:30-32 | with the default times 20:00 and 18:00 neither branch of the worker can ever run |
| ServiceWorker.DailyNotRepeated | src/service-worker.ts:67-70 | unless the history key holds a JSON array, after a confirmed daily report a later run on the same date and in the same hour does not send it again |
| ServiceWorker.WeeklyNotRepeated | src/service-worker.ts:87-90 | unless the history key holds a JSON array, after a confirmed weekly report a later run in the same year and Sunday-to-Saturday week does not send it again |
| ServiceWorker.ArrayHistoryForgetsMarks | src/lib/report-history.ts:24-36 | with a JSON array under the history key a run leaves the store unchanged, so a report that was due is due again, confirmed or not |
| ServiceWorker.WeekStartsDiffer | src/service-worker.ts:80-83 | the worker's week starts on the Sunday on or before now and contains now; the scheduler's starts one day later, or six days earlier on a Sunday |
| JsText.NatToStringRoundTrip | src/lib/report-history.ts:64 | `parseInt` and `Number` read back `${n}` as n |
| JsText.TimeKeyHour | src/lib/report-history.ts:64 | the hour read back from a stored unpadded "H:M" is H |
| JsText.ClockStringParses | src/lib/report-scheduler.ts:145 | splitting "HH:MM" at ':' and applying `Number` gives HH and MM |
| JsText.TimeKeyMatchesClockString | src/service-worker.ts:57 | the unpadded "h:m" equals the padded "HH:MM" exactly when HH and MM have two digits and equal h and m |
| Clock.WeekdayFromJanuaryFirst | src/lib/report-history.ts:46-48 | a date's weekday is January 1's weekday shifted by the day of the year |

## Left out

- Sending itself: `sendTelegramMessage` and `validateBotToken` make HTTP calls. The channel's answer is an input to the model.
- Timers and events: `setInterval` in `initReportScheduler`, the service worker's `periodicsync` listener, `install`/`activate` caching, and the React UI, speech and registration code. These are plumbing with no stated behaviour. `initReportScheduler`'s fire-and-forget `.then` gives no order to model.
- The clock is read once per run. Every `new Date()` inside one run is the same `now`.
- Time zones: the ISO date (UTC) in the history and the local `getHours` are taken as the same calendar day. Daylight-saving jumps and the 1-hour-off days they cause are not modelled.
- Floating point: the week number is modelled on integers (whole days, or milliseconds for the formula as written).
- TelegramService.CompletionRateBounds: the model rounds the exact ratio 100·c/t, halves up. The source rounds the float `(c / t) * 100`, which shows one less where float error pushes an exact x.5 below the half: c=23, t=40 gives 57 in the source and 58 in the model, and 29 of 200 gives 14 and 15.
- ReportHistory.WasWeeklyReportSentThisWeek, ReportHistory.MarkWeeklyReportSent, ReportHistory.MarkedWeeklySentIff and MissedReports.NotMissedAfterMark, and the members built on them (ReportHistory.MarkWeekly, MissedReports.CheckMissedWeeklyReport, MissedReports.MissedWeeklyIff, ServiceWorker.ConfirmedSendsAreRecorded, ServiceWorker.WeeklyNotRepeated, ServiceWorker.WeeklySentIff), use the whole-day week number. As written, the stored number and the checked one differ from Saturday 00:00:00.001 on (WeekNumberAsWrittenSplitsWeek): after a mark on Friday 2022-01-07 18:00 (week 2), a check on Saturday 2022-01-08 12:00 computes week 3, so the source reports the weekly report as missed.
- Inherited names: the names a plain object inherits are the ones `Object.prototype` defines (`constructor`, `toString`, `__proto__` and the others listed in `InheritedKeys`). Names added to the prototype by other code are not modelled.
- Text rendering: `toLocaleDateString`/`toLocaleTimeString`, `toUpperCase` and the HTML markup are left out. A line keeps the numbers and titles it shows, and a date is its day number.
- Function parsing: `Number` and `parseInt` are modelled on digit strings only. Whitespace, signs, exponents and "0x" prefixes are not modelled; such text reads as not a number.
- Sort: the `createdAt` sort (`arrange`) is only assumed to be a permutation. Its comparator returns 0 when a date is missing and is not transitive, so no order is claimed.
- Category order: buckets are emitted in first-seen order. JavaScript lists integer-like keys first, and that is not modelled.
- TelegramService.LoadTelegramSettings: JSON of another shape under the settings key returns that object in the source. The model gives the defaults instead. Both are disabled, since `enabled` is undefined, so every guard decides the same.
- Storage failures: `localStorage.setItem`/`removeItem` throwing (quota, private mode) is not modelled. The source only logs them.
- JSON shapes: stored JSON is one of the records or the task list. Partial records (a history with only some fields, a task without a title) are not modelled.
- ReportHistory.MarkDaily, ReportHistory.MarkWeekly: when the history key holds an object of another shape (the settings record, say), the source saves that object with the mark added, keeping its other fields. The model saves the history record alone. Nothing reads those other fields from this key, so every check decides the same.

## Findings

| source | as written | input that shows it | evidently intended | confidence | as-written member | corrected member |
|---|---|---|---|---|---|---|
| src/lib/report-history.ts:47-48 | `pastDaysOfYear` is a fractional day count including the time of day, so `Math.ceil` moves every Saturday after 00:00:00.000 into the next week | 2022-01-01 12:00 (a Saturday): as written week 2; whole days give week 1, the week of January 1. Friday 2022-01-07 18:00 and Saturday 2022-01-08 12:00: weeks 2 and 3 as written, both 2 on whole days (ReportHistory.WeekNumberAsWrittenSplitsWeek) | weeks of whole days from Sunday to Saturday, January 1 in week 1 | not executed | ReportHistory.WeekNumberAsWrittenNewYearNoon | ReportHistory.WeekNumberBounds |
