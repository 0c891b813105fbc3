/**
 * The report history store: one record for the last daily report and one for
 * the last weekly report, kept as JSON under the "report_history" key of
 * localStorage, and the checks that decide whether a report was already sent.
 */
module ReportHistory {
  import opened Wrappers
  import opened Clock
  import opened JsText
  import opened Records
  import opened Arith

  /** `loadReportHistory()`: never fails; a missing key, an empty string, text
      that does not parse, or JSON without the history fields all read as `{}`. */
  function LoadReportHistory(items: map<string, Entry>): (h: ReportHistory)
    ensures HistoryKey !in items ==> h == EmptyHistory
    ensures HistoryKey in items && !items[HistoryKey].HistoryJson? ==> h == EmptyHistory
  {
    if HistoryKey in items && items[HistoryKey].HistoryJson? then items[HistoryKey].history
    else EmptyHistory
  }

  /** `saveReportHistory(history)`: overwrites the stored record. */
  method SaveReportHistory(st: LocalStorage, history: ReportHistory)
    modifies st
    ensures st.items == old(st.items)[HistoryKey := HistoryJson(history)]
    ensures LoadReportHistory(st.items) == history
  {
    st.SetItem(HistoryKey, HistoryJson(history));
  }

  /** `resetReportHistory()`: removes the key, so the next load is `{}`. */
  method ResetReportHistory(st: LocalStorage)
    modifies st
    ensures st.items == old(st.items) - {HistoryKey}
    ensures LoadReportHistory(st.items) == EmptyHistory
  {
    st.RemoveItem(HistoryKey);
  }

  /** `Math.ceil(x / d)` for a positive divisor. */
  function CeilDiv(x: int, d: int): int
    requires d > 0
  {
    (x + d - 1) / d
  }

  /** `getWeekNumber(date)` as written: the days past January 1 are a fraction
      that includes the time of day, `(date - firstDayOfYear) / 86400000`. */
  function WeekNumberAsWritten(m: Moment): (n: int)
    ensures n >= 1
  {
    var pastMs := m.yearDay * MsPerDay + MsOfDay(m);
    CeilDiv(pastMs + (WeekdayOf(DaysBeforeYear(m.year)) + 1) * MsPerDay, 7 * MsPerDay)
  }

  /** The week number on whole days, `ceil((pastDays + firstDay.getDay() + 1) / 7)`:
      weeks run Sunday to Saturday and January 1 is in week 1. */
  function WeekNumber(m: Moment): (n: int)
    ensures n >= 1
  {
    CeilDiv(m.yearDay + WeekdayOf(DaysBeforeYear(m.year)) + 1, 7)
  }

  /** The day number of the Sunday on or before the moment's date. */
  function SundayOf(m: Moment): int {
    EpochDay(m) - Weekday(m)
  }

  /** `wasDailyReportSentToday()`: the stored date is today and the hour read
      back from the stored "H:M" time is the current hour. */
  function WasDailyReportSentToday(history: ReportHistory, now: Moment): (sent: bool)
    ensures history.lastDailyReport.None? ==> !sent
    ensures sent ==> history.lastDailyReport.value.date == EpochDay(now)
  {
    match history.lastDailyReport
    case None => false
    case Some(r) =>
      r.date == EpochDay(now) && ParseInt(Split(r.time, ':')[0]) == Some(now.hour)
  }

  /** `wasWeeklyReportSentThisWeek()`: stored week number and year are the current ones. */
  function WasWeeklyReportSentThisWeek(history: ReportHistory, now: Moment): (sent: bool)
    ensures history.lastWeeklyReport.None? ==> !sent
  {
    match history.lastWeeklyReport
    case None => false
    case Some(r) => r.weekNumber == WeekNumber(now) && r.year == now.year
  }

  /** The history after `markDailyReportSent()` at `now`: only `lastDailyReport` is replaced. */
  function MarkedDaily(history: ReportHistory, now: Moment): ReportHistory {
    history.(lastDailyReport := Some(DailyRecord(EpochDay(now), TimeKey(now.hour, now.minute))))
  }

  /** The history after `markWeeklyReportSent()` at `now`: only `lastWeeklyReport` is replaced. */
  function MarkedWeekly(history: ReportHistory, now: Moment): ReportHistory {
    history.(lastWeeklyReport := Some(WeeklyRecord(EpochDay(now), WeekNumber(now), now.year)))
  }

  /** The history key holds a JSON array. `loadReportHistory` returns that
      array, a mark becomes a named property of it, and `JSON.stringify`
      writes only the array's elements, so the mark is not stored. */
  predicate HoldsArray(items: map<string, Entry>) {
    HistoryKey in items && items[HistoryKey].TasksJson?
  }

  /** The store after `markDailyReportSent()` at `now`. */
  function MarkDaily(items: map<string, Entry>, now: Moment): (r: map<string, Entry>)
    ensures HoldsArray(items) ==> r == items
    ensures !HoldsArray(items) ==> !HoldsArray(r) && LoadReportHistory(r) == MarkedDaily(LoadReportHistory(items), now)
  {
    if HoldsArray(items) then items
    else items[HistoryKey := HistoryJson(MarkedDaily(LoadReportHistory(items), now))]
  }

  /** The store after `markWeeklyReportSent()` at `now`. */
  function MarkWeekly(items: map<string, Entry>, now: Moment): (r: map<string, Entry>)
    ensures HoldsArray(items) ==> r == items
    ensures !HoldsArray(items) ==> !HoldsArray(r) && LoadReportHistory(r) == MarkedWeekly(LoadReportHistory(items), now)
  {
    if HoldsArray(items) then items
    else items[HistoryKey := HistoryJson(MarkedWeekly(LoadReportHistory(items), now))]
  }

  /** `markDailyReportSent()`: load, replace the daily record in place, save. */
  method MarkDailyReportSent(st: LocalStorage, now: Moment)
    modifies st
    ensures st.items == MarkDaily(old(st.items), now)
    ensures LoadReportHistory(st.items).lastWeeklyReport == LoadReportHistory(old(st.items)).lastWeeklyReport
  {
    if HoldsArray(st.items) {
      // The array is written back with its elements only.
      st.SetItem(HistoryKey, st.items[HistoryKey]);
      return;
    }
    var history := LoadReportHistory(st.items);
    history := history.(lastDailyReport := Some(DailyRecord(EpochDay(now), TimeKey(now.hour, now.minute))));
    SaveReportHistory(st, history);
  }

  /** `markWeeklyReportSent()`: load, replace the weekly record in place, save. */
  method MarkWeeklyReportSent(st: LocalStorage, now: Moment)
    modifies st
    ensures st.items == MarkWeekly(old(st.items), now)
    ensures LoadReportHistory(st.items).lastDailyReport == LoadReportHistory(old(st.items)).lastDailyReport
  {
    if HoldsArray(st.items) {
      // The array is written back with its elements only.
      st.SetItem(HistoryKey, st.items[HistoryKey]);
      return;
    }
    var history := LoadReportHistory(st.items);
    history := history.(lastWeeklyReport := Some(WeeklyRecord(EpochDay(now), WeekNumber(now), now.year)));
    SaveReportHistory(st, history);
  }

  // ---------------------------------------------------------------- lemmas

  /** January 1 is in week 1, and every valid date is in weeks 1 to 54. */
  lemma WeekNumberBounds(m: Moment)
    requires m.Valid()
    ensures 1 <= WeekNumber(m) <= 54
    ensures m.yearDay == 0 ==> WeekNumber(m) == 1
  {
    var w := WeekdayOf(DaysBeforeYear(m.year));
    assert m.yearDay <= 365 && w <= 6;
    assert WeekNumber(m) == (m.yearDay + w + 7) / 7;
  }

  /** Within one year, two dates share a week number exactly when they share
      the Sunday that starts their week. */
  lemma SameWeekNumber(a: Moment, b: Moment)
    requires a.year == b.year
    ensures WeekNumber(a) == WeekNumber(b) <==> SundayOf(a) == SundayOf(b)
  {
    var j := DaysBeforeYear(a.year);
    var w := WeekdayOf(j);
    WeekdayFromJanuaryFirst(a);
    WeekdayFromJanuaryFirst(b);
    var na, nb := a.yearDay + w, b.yearDay + w;
    assert WeekNumber(a) == na / 7 + 1 by { DivBetween(na + 7, 7, na / 7 + 1); }
    assert WeekNumber(b) == nb / 7 + 1 by { DivBetween(nb + 7, 7, nb / 7 + 1); }
    assert SundayOf(a) == j - w + 7 * (na / 7);
    assert SundayOf(b) == j - w + 7 * (nb / 7);
  }

  /** The week number as written exceeds the whole-day one by one exactly on a
      Saturday after midnight; everywhere else the two agree. */
  lemma WeekNumberAsWrittenShift(m: Moment)
    requires m.Valid()
    ensures WeekNumberAsWritten(m) == WeekNumber(m) + (if Weekday(m) == 6 && MsOfDay(m) > 0 then 1 else 0)
  {
    MsOfDayBound(m);
    WeekdayFromJanuaryFirst(m);
    var w := WeekdayOf(DaysBeforeYear(m.year));
    var n := m.yearDay + w + 1;
    var ms := MsOfDay(m);
    var q, r := n / 7, n % 7;
    assert n == 7 * q + r;
    assert Weekday(m) == 6 <==> r == 0;
    var x := n * MsPerDay + ms + 7 * MsPerDay - 1;
    assert WeekNumberAsWritten(m) == x / (7 * MsPerDay);
    assert WeekNumber(m) == (n + 6) / 7;
    if r == 0 && ms == 0 {
      DivBetween(x, 7 * MsPerDay, q);
      DivBetween(n + 6, 7, q);
    } else if r == 0 {
      DivBetween(x, 7 * MsPerDay, q + 1);
      DivBetween(n + 6, 7, q);
    } else {
      DivBetween(x, 7 * MsPerDay, q + 1);
      DivBetween(n + 6, 7, q + 1);
    }
  }

  /** 2022-01-01 was a Saturday; at noon the week number as written is 2. */
  lemma WeekNumberAsWrittenNewYearNoon()
    ensures var m := Moment(2022, 0, 12, 0, 0, 0);
            m.Valid() && Weekday(m) == 6 && WeekNumberAsWritten(m) == 2 && WeekNumber(m) == 1
  {
    var m := Moment(2022, 0, 12, 0, 0, 0);
    assert DaysBeforeYear(2022) == 18993;
    WeekNumberAsWrittenShift(m);
  }

  /** After marking the daily report at `t`, it counts as sent at `now` exactly
      when `now` is the same date and the same hour: the check is hour-granular. */
  lemma MarkedDailySentIff(history: ReportHistory, t: Moment, now: Moment)
    ensures WasDailyReportSentToday(MarkedDaily(history, t), now)
            <==> EpochDay(now) == EpochDay(t) && now.hour == t.hour
  {
    TimeKeyHour(t.hour, t.minute);
  }

  /** After marking the weekly report at `t`, it counts as sent exactly in the
      same year and the same Sunday-to-Saturday week. */
  lemma MarkedWeeklySentIff(history: ReportHistory, t: Moment, now: Moment)
    ensures WasWeeklyReportSentThisWeek(MarkedWeekly(history, t), now)
            <==> now.year == t.year && SundayOf(now) == SundayOf(t)
  {
    if now.year == t.year {
      SameWeekNumber(now, t);
    }
  }

  /** Marking one kind leaves the other kind's answer alone. */
  lemma MarksAreIndependent(history: ReportHistory, t: Moment, now: Moment)
    ensures WasWeeklyReportSentThisWeek(MarkedDaily(history, t), now) == WasWeeklyReportSentThisWeek(history, now)
    ensures WasDailyReportSentToday(MarkedWeekly(history, t), now) == WasDailyReportSentToday(history, now)
  {
  }

  /** Marking twice at the same instant gives the same history as marking once. */
  lemma MarksAreIdempotent(history: ReportHistory, t: Moment)
    ensures MarkedDaily(MarkedDaily(history, t), t) == MarkedDaily(history, t)
    ensures MarkedWeekly(MarkedWeekly(history, t), t) == MarkedWeekly(history, t)
  {
  }

  /** As written, the week of Sunday 2022-01-02 gets two numbers: Friday
      2022-01-07 18:00 is week 2 and Saturday 2022-01-08 12:00 is week 3,
      while the whole-day number is 2 for both. */
  lemma WeekNumberAsWrittenSplitsWeek()
    ensures var fri, sat := Moment(2022, 6, 18, 0, 0, 0), Moment(2022, 7, 12, 0, 0, 0);
            && fri.Valid() && sat.Valid() && Weekday(fri) == 5 && Weekday(sat) == 6
            && SundayOf(fri) == SundayOf(sat)
            && WeekNumberAsWritten(fri) == 2 && WeekNumberAsWritten(sat) == 3
            && WeekNumber(fri) == 2 && WeekNumber(sat) == 2
  {
    var fri, sat := Moment(2022, 6, 18, 0, 0, 0), Moment(2022, 7, 12, 0, 0, 0);
    assert DaysBeforeYear(2022) == 18993;
    WeekNumberAsWrittenShift(fri);
    WeekNumberAsWrittenShift(sat);
  }
}
