/**
 * The missed-report checks: the daily one is retired and always answers no;
 * the weekly one says whether today's scheduled weekly report time has passed
 * without a weekly report this week.
 */
module MissedReports {
  import opened Clock
  import opened JsText
  import opened Records
  import opened ReportHistory

  /** `checkMissedDailyReport(settings)`: deprecated, constantly false. */
  function CheckMissedDailyReport(settings: TelegramSettings): (missed: bool)
    ensures !missed
  {
    false
  }

  /** `checkMissedWeeklyReport(settings)`. The scheduled moment is today's
      midnight moved on by the configured hours and minutes (`setHours` carries
      hours past 23 and minutes past 59 into the following day and hour), and
      an unreadable hour or minute makes it an Invalid Date, which nothing is
      later than. */
  function CheckMissedWeeklyReport(settings: TelegramSettings, items: map<string, Entry>, now: Moment): (missed: bool)
    ensures !settings.enabled || !settings.reportSchedule.weekly ==> !missed
    ensures WasWeeklyReportSentThisWeek(LoadReportHistory(items), now) ==> !missed
    ensures Weekday(now) != settings.reportSchedule.weeklyDay ==> !missed
  {
    if !settings.enabled || !settings.reportSchedule.weekly then false
    else if WasWeeklyReportSentThisWeek(LoadReportHistory(items), now) then false
    else if Weekday(now) == settings.reportSchedule.weeklyDay then
      var (hours, minutes) := ParseClock(settings.reportSchedule.weeklyTime);
      hours.Some? && minutes.Some? && MsOfDay(now) > hours.value * MsPerHour + minutes.value * MsPerMinute
    else false
  }

  /** The moment `setHours(hours, minutes, 0, 0)` gives on the day of `now`. */
  function ScheduledOn(now: Moment, hours: nat, minutes: nat): Moment {
    now.(hour := hours, minute := minutes, second := 0, milli := 0)
  }

  /** For a weekly time written "HH:MM" within the day, the report counts as
      missed exactly when the service and the weekly report are on, none was
      sent this week, today is the scheduled weekday and now is strictly later
      than HH:MM:00.000 today. */
  lemma MissedWeeklyIff(settings: TelegramSettings, items: map<string, Entry>, now: Moment, hours: nat, minutes: nat)
    requires hours < 24 && minutes < 60
    requires settings.reportSchedule.weeklyTime == ClockString(hours, minutes)
    ensures CheckMissedWeeklyReport(settings, items, now)
            <==> && settings.enabled && settings.reportSchedule.weekly
                 && !WasWeeklyReportSentThisWeek(LoadReportHistory(items), now)
                 && Weekday(now) == settings.reportSchedule.weeklyDay
                 && Earlier(ScheduledOn(now, hours, minutes), now)
  {
    ClockStringParses(hours, minutes);
  }

  /** A weekly time whose hour is 24 or more rolls over to a later day, so on a
      valid clock the report never counts as missed. */
  lemma LateHourNeverMissed(settings: TelegramSettings, items: map<string, Entry>, now: Moment, hours: nat, minutes: nat)
    requires now.Valid()
    requires 24 <= hours < 100 && minutes < 100
    requires settings.reportSchedule.weeklyTime == ClockString(hours, minutes)
    ensures !CheckMissedWeeklyReport(settings, items, now)
  {
    ClockStringParses(hours, minutes);
    MsOfDayBound(now);
  }

  /** Once the weekly report has been marked as sent, it is not missed for the
      rest of that week, unless the history key holds a JSON array: then the
      mark is not stored and the answer is what it was before. */
  lemma NotMissedAfterMark(settings: TelegramSettings, items: map<string, Entry>, sentAt: Moment, now: Moment)
    requires now.year == sentAt.year && SundayOf(now) == SundayOf(sentAt)
    ensures !HoldsArray(items) ==> !CheckMissedWeeklyReport(settings, MarkWeekly(items, sentAt), now)
    ensures HoldsArray(items) ==>
              CheckMissedWeeklyReport(settings, MarkWeekly(items, sentAt), now) == CheckMissedWeeklyReport(settings, items, now)
  {
    if !HoldsArray(items) {
      MarkedWeeklySentIff(LoadReportHistory(items), sentAt, now);
    }
  }
}
