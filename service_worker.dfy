/**
 * The service worker's periodic report check: the one place where the
 * schedule meets the report history. It compares the unpadded "H:M" of the
 * clock with the configured times, sends a report that is due and not yet
 * recorded, and records it only when the channel confirms delivery.
 */
module ServiceWorker {
  import opened Wrappers
  import opened Clock
  import opened JsText
  import opened Records
  import opened ReportHistory
  import opened TelegramService
  import ReportScheduler

  /** `${now.getHours()}:${now.getMinutes()}`. */
  function CurrentTimeKey(now: Moment): string {
    TimeKey(now.hour, now.minute)
  }

  /** The daily branch's condition. */
  predicate DailyDue(s: TelegramSettings, items: map<string, Entry>, now: Moment) {
    && s.reportSchedule.daily
    && CurrentTimeKey(now) == s.reportSchedule.dailyTime
    && !WasDailyReportSentToday(LoadReportHistory(items), now)
  }

  /** The weekly branch's condition. */
  predicate WeeklyDue(s: TelegramSettings, items: map<string, Entry>, now: Moment) {
    && s.reportSchedule.weekly
    && Weekday(now) == s.reportSchedule.weeklyDay
    && CurrentTimeKey(now) == s.reportSchedule.weeklyTime
    && !WasWeeklyReportSentThisWeek(LoadReportHistory(items), now)
  }

  /** What one run leaves behind: the messages handed to the channel, in
      order, and the store. */
  datatype TickResult = TickResult(outbox: seq<Outgoing>, items: map<string, Entry>)

  /** Every message goes to the bot and chat of `s`. */
  predicate AddressedTo(outbox: seq<Outgoing>, s: TelegramSettings) {
    forall i :: 0 <= i < |outbox| ==> outbox[i].botToken == s.botToken && outbox[i].chatId == s.chatId
  }

  /** The daily branch: None when reading the task list throws (which ends the
      whole run in the `catch`). It sends at most one message and writes at
      most the daily mark. */
  function DailyBranch(s: TelegramSettings, items: map<string, Entry>, now: Moment,
                       arrange: seq<Task> -> seq<Task>, delivered: bool): (r: Option<TickResult>)
    ensures r.None? <==> DailyDue(s, items, now) && ReadTaskList(items).None?
    ensures r.Some? ==> |r.value.outbox| <= 1 && AddressedTo(r.value.outbox, s)
    ensures r.Some? ==> r.value.items == items || (delivered && r.value.items == MarkDaily(items, now))
  {
    if !DailyDue(s, items, now) then Some(TickResult([], items))
    else match ReadTaskList(items)
      case None => None
      case Some(tasks) =>
        var report := DailyReport(tasks, arrange, EpochDay(now), EpochDay(now));
        Some(TickResult([Outgoing(s.botToken, s.chatId, report)], if delivered then MarkDaily(items, now) else items))
  }

  /** The weekly branch, run on what the daily branch left; a throw here
      (reading the task list, or grouping it) keeps the daily branch's
      effects. The week runs from the Sunday on or before now to the Saturday
      after. It appends at most one message and writes at most the weekly mark. */
  function WeeklyBranch(s: TelegramSettings, after: TickResult, now: Moment,
                        arrange: seq<Task> -> seq<Task>, delivered: bool): (r: TickResult)
    ensures r == after || (|r.outbox| == |after.outbox| + 1 && r.outbox[..|after.outbox|] == after.outbox)
    ensures r.items == after.items || (delivered && r.items == MarkWeekly(after.items, now))
    ensures AddressedTo(after.outbox, s) ==> AddressedTo(r.outbox, s)
  {
    if !WeeklyDue(s, after.items, now) then after
    else match ReadTaskList(after.items)
      case None => after
      case Some(tasks) =>
        if WeeklyReportThrows(tasks, arrange) then after
        else
          var report := WeeklyReport(tasks, arrange, SundayOf(now), SundayOf(now) + 6, EpochDay(now));
          TickResult(after.outbox + [Outgoing(s.botToken, s.chatId, report)],
                     if delivered then MarkWeekly(after.items, now) else after.items)
  }

  /** `checkAndSendReports()`; `dailyOk`/`weeklyOk` are the channel's answers.
      Every message goes to the stored bot and chat. */
  function Tick(items: map<string, Entry>, now: Moment, arrange: seq<Task> -> seq<Task>,
                dailyOk: bool, weeklyOk: bool): (r: TickResult)
    ensures AddressedTo(r.outbox, LoadTelegramSettings(items))
  {
    var s := LoadTelegramSettings(items);
    if !s.enabled then TickResult([], items)
    else match DailyBranch(s, items, now, arrange, dailyOk)
      case None => TickResult([], items)
      case Some(after) => WeeklyBranch(s, after, now, arrange, weeklyOk)
  }

  /** Lines 60-71 of the worker on the browser store: `threw` when reading the
      task list throws, in which case nothing was sent or written. */
  method RunDailyBranch(st: LocalStorage, settings: TelegramSettings, now: Moment,
                        arrange: seq<Task> -> seq<Task>, delivered: bool)
    returns (outbox: seq<Outgoing>, threw: bool)
    modifies st
    ensures var b := DailyBranch(settings, old(st.items), now, arrange, delivered);
            && threw == b.None?
            && (b.Some? ==> outbox == b.value.outbox && st.items == b.value.items)
            && (b.None? ==> outbox == [] && st.items == old(st.items))
  {
    outbox, threw := [], false;
    if DailyDue(settings, st.items, now) {
      var read := ReadTaskList(st.items);
      if read.None? {
        return [], true;
      }
      var report := FormatDailyReport(read.value, arrange, EpochDay(now), EpochDay(now));
      outbox := [Outgoing(settings.botToken, settings.chatId, report)];
      if delivered {
        MarkDailyReportSent(st, now);
      }
    }
  }

  /** Lines 74-91 of the worker, after the daily branch left `outbox`. */
  method RunWeeklyBranch(st: LocalStorage, settings: TelegramSettings, outbox: seq<Outgoing>, now: Moment,
                         arrange: seq<Task> -> seq<Task>, delivered: bool)
    returns (sent: seq<Outgoing>)
    modifies st
    ensures var r := WeeklyBranch(settings, TickResult(outbox, old(st.items)), now, arrange, delivered);
            sent == r.outbox && st.items == r.items
  {
    sent := outbox;
    if WeeklyDue(settings, st.items, now) {
      var read := ReadTaskList(st.items);
      if read.None? {
        return;
      }
      var startDay := SundayOf(now);
      var report := FormatWeeklyReport(read.value, arrange, startDay, startDay + 6, EpochDay(now));
      if report.None? {
        return;
      }
      sent := sent + [Outgoing(settings.botToken, settings.chatId, report.value)];
      if delivered {
        MarkWeeklyReportSent(st, now);
      }
    }
  }

  /** `checkAndSendReports()` on the browser store, step by step. */
  method CheckAndSendReports(st: LocalStorage, now: Moment, arrange: seq<Task> -> seq<Task>,
                             dailyOk: bool, weeklyOk: bool)
    returns (outbox: seq<Outgoing>)
    modifies st
    ensures outbox == Tick(old(st.items), now, arrange, dailyOk, weeklyOk).outbox
    ensures st.items == Tick(old(st.items), now, arrange, dailyOk, weeklyOk).items
  {
    outbox := [];
    var settings := LoadTelegramSettings(st.items);
    if !settings.enabled {
      return;
    }
    var threw;
    outbox, threw := RunDailyBranch(st, settings, now, arrange, dailyOk);
    if threw {
      return;
    }
    outbox := RunWeeklyBranch(st, settings, outbox, now, arrange, weeklyOk);
  }

  // ---------------------------------------------------------------- lemmas

  /** With the service disabled nothing is sent and nothing is written. */
  lemma DisabledDoesNothing(items: map<string, Entry>, now: Moment, arrange: seq<Task> -> seq<Task>,
                            dailyOk: bool, weeklyOk: bool)
    requires !LoadTelegramSettings(items).enabled
    ensures Tick(items, now, arrange, dailyOk, weeklyOk) == TickResult([], items)
  {
  }

  /** A run writes nothing but the report history, and writes it only after a
      delivery was confirmed. */
  lemma OnlyHistoryChanges(items: map<string, Entry>, now: Moment, arrange: seq<Task> -> seq<Task>,
                           dailyOk: bool, weeklyOk: bool)
    ensures var r := Tick(items, now, arrange, dailyOk, weeklyOk);
            && r.items.Keys - {HistoryKey} == items.Keys - {HistoryKey}
            && (forall k :: k in items && k != HistoryKey ==> r.items[k] == items[k])
    ensures !dailyOk && !weeklyOk ==> Tick(items, now, arrange, dailyOk, weeklyOk).items == items
    ensures |Tick(items, now, arrange, dailyOk, weeklyOk).outbox| <= 2
  {
  }

  /** The daily report goes out exactly when the service is on, the branch's
      three conditions hold and the task list reads; its text is the daily
      report of all stored tasks. */
  lemma DailySentIff(items: map<string, Entry>, now: Moment, arrange: seq<Task> -> seq<Task>,
                     dailyOk: bool, weeklyOk: bool)
    ensures var s := LoadTelegramSettings(items);
            var r := Tick(items, now, arrange, dailyOk, weeklyOk);
            (|r.outbox| > 0 && r.outbox[0].text[0].DailyTitle?)
            <==> s.enabled && DailyDue(s, items, now) && ReadTaskList(items).Some?
    ensures var s := LoadTelegramSettings(items);
            var r := Tick(items, now, arrange, dailyOk, weeklyOk);
            s.enabled && DailyDue(s, items, now) && ReadTaskList(items).Some? ==>
              r.outbox[0] == Outgoing(s.botToken, s.chatId,
                                      DailyReport(ReadTaskList(items).value, arrange, EpochDay(now), EpochDay(now)))
  {
    var s := LoadTelegramSettings(items);
    var r := Tick(items, now, arrange, dailyOk, weeklyOk);
    if s.enabled {
      match DailyBranch(s, items, now, arrange, dailyOk)
      case None =>
      case Some(after) =>
        if |after.outbox| == 0 && |r.outbox| > 0 {
          assert r.outbox[0].text[0] == WeeklyTitle;
        }
    }
  }

  /** A padded configured time ("20:00", "09:30": an hour or a minute below 10)
      never equals the unpadded clock key, so that branch never runs. A time
      with two-digit hour and minute runs it exactly in that minute. */
  lemma PaddedTimeNeverDue(s: TelegramSettings, items: map<string, Entry>, now: Moment, hours: nat, minutes: nat)
    requires hours < 100 && minutes < 100
    ensures s.reportSchedule.dailyTime == ClockString(hours, minutes) && (hours < 10 || minutes < 10)
            ==> !DailyDue(s, items, now)
    ensures s.reportSchedule.weeklyTime == ClockString(hours, minutes) && (hours < 10 || minutes < 10)
            ==> !WeeklyDue(s, items, now)
    ensures s.reportSchedule.dailyTime == ClockString(hours, minutes) && hours >= 10 && minutes >= 10
            ==> (DailyDue(s, items, now) <==>
                   s.reportSchedule.daily && now.hour == hours && now.minute == minutes
                   && !WasDailyReportSentToday(LoadReportHistory(items), now))
  {
    TimeKeyMatchesClockString(now.hour, now.minute, hours, minutes);
  }

  /** With the default times (20:00 daily, 18:00 weekly) neither branch can run. */
  lemma DefaultTimesNeverDue(s: TelegramSettings, items: map<string, Entry>, now: Moment)
    requires s.reportSchedule.dailyTime == DefaultTelegramSettings.reportSchedule.dailyTime
    requires s.reportSchedule.weeklyTime == DefaultTelegramSettings.reportSchedule.weeklyTime
    ensures !DailyDue(s, items, now) && !WeeklyDue(s, items, now)
  {
    assert "20:00" == ClockString(20, 0);
    assert "18:00" == ClockString(18, 0);
    PaddedTimeNeverDue(s, items, now, 20, 0);
    PaddedTimeNeverDue(s, items, now, 18, 0);
  }

  /** After a confirmed daily report, a later run in the same day and hour
      does not send it again. */
  lemma DailyNotRepeated(items: map<string, Entry>, now: Moment, arrange: seq<Task> -> seq<Task>,
                         weeklyOk: bool, later: Moment)
    requires var s := LoadTelegramSettings(items);
             s.enabled && DailyDue(s, items, now) && ReadTaskList(items).Some?
    requires EpochDay(later) == EpochDay(now) && later.hour == now.hour
    ensures var r := Tick(items, now, arrange, true, weeklyOk);
            !HoldsArray(items) ==> !DailyDue(LoadTelegramSettings(r.items), r.items, later)
  {
    if !HoldsArray(items) {
      var s := LoadTelegramSettings(items);
      var d := DailyBranch(s, items, now, arrange, true);
      assert d.Some? && d.value.items == MarkDaily(items, now);
      var r := Tick(items, now, arrange, true, weeklyOk);
      assert r == WeeklyBranch(s, d.value, now, arrange, weeklyOk);
      DailyMarkHolds(items, now, later);
    }
  }

  /** The daily mark, with or without a weekly mark after it, keeps the
      settings and counts as sent for the rest of that hour. */
  lemma DailyMarkHolds(items: map<string, Entry>, now: Moment, later: Moment)
    requires !HoldsArray(items)
    requires EpochDay(later) == EpochDay(now) && later.hour == now.hour
    ensures var after := MarkDaily(items, now);
            && LoadTelegramSettings(after) == LoadTelegramSettings(items)
            && WasDailyReportSentToday(LoadReportHistory(after), later)
    ensures var after := MarkWeekly(MarkDaily(items, now), now);
            && LoadTelegramSettings(after) == LoadTelegramSettings(items)
            && WasDailyReportSentToday(LoadReportHistory(after), later)
  {
    var after := MarkDaily(items, now);
    assert HistoryKey != SettingsKey;
    MarkedDailySentIff(LoadReportHistory(items), now, later);
    MarksAreIndependent(LoadReportHistory(after), now, later);
  }

  /** After a confirmed weekly report, no later run in the same Sunday-to-
      Saturday week of the same year sends it again. */
  lemma WeeklyNotRepeated(items: map<string, Entry>, now: Moment, arrange: seq<Task> -> seq<Task>,
                          dailyOk: bool, later: Moment)
    requires var s := LoadTelegramSettings(items);
             && s.enabled && DailyBranch(s, items, now, arrange, dailyOk).Some?
             && var after := DailyBranch(s, items, now, arrange, dailyOk).value;
                WeeklyDue(s, after.items, now) && ReadTaskList(after.items).Some?
                && !WeeklyReportThrows(ReadTaskList(after.items).value, arrange)
    requires later.year == now.year && SundayOf(later) == SundayOf(now)
    ensures var r := Tick(items, now, arrange, dailyOk, true);
            !HoldsArray(items) ==> !WeeklyDue(LoadTelegramSettings(r.items), r.items, later)
  {
    if !HoldsArray(items) {
      var s := LoadTelegramSettings(items);
      var after := DailyBranch(s, items, now, arrange, dailyOk).value;
      var r := Tick(items, now, arrange, dailyOk, true);
      assert !HoldsArray(after.items);
      assert r.items == MarkWeekly(after.items, now);
      MarkedWeeklySentIff(LoadReportHistory(after.items), now, later);
      OnlyHistoryChanges(items, now, arrange, dailyOk, true);
      assert LoadTelegramSettings(r.items) == s;
    }
  }

  /** With a JSON array under the history key no mark is stored: a run leaves
      the store as it was, so a report that was due is due again at once,
      confirmed or not. */
  lemma ArrayHistoryForgetsMarks(items: map<string, Entry>, now: Moment, arrange: seq<Task> -> seq<Task>,
                                 dailyOk: bool, weeklyOk: bool)
    requires HoldsArray(items)
    ensures var r := Tick(items, now, arrange, dailyOk, weeklyOk);
            && r.items == items
            && LoadReportHistory(r.items) == EmptyHistory
            && (DailyDue(LoadTelegramSettings(items), items, now) ==> DailyDue(LoadTelegramSettings(r.items), r.items, now))
            && (WeeklyDue(LoadTelegramSettings(items), items, now) ==> WeeklyDue(LoadTelegramSettings(r.items), r.items, now))
  {
    var s := LoadTelegramSettings(items);
    var d := DailyBranch(s, items, now, arrange, dailyOk);
    if s.enabled && d.Some? {
      assert d.value.items == items;
    }
  }

  /** A message whose text opens with the daily or the weekly report title. */
  predicate IsDailyMessage(m: Outgoing) {
    |m.text| > 0 && m.text[0].DailyTitle?
  }

  predicate IsWeeklyMessage(m: Outgoing) {
    |m.text| > 0 && m.text[0] == WeeklyTitle
  }

  /** What the daily branch leaves for the weekly one: the same settings and
      task list, the same weekly record, and only daily messages. */
  lemma DailyBranchKeeps(s: TelegramSettings, items: map<string, Entry>, now: Moment,
                         arrange: seq<Task> -> seq<Task>, delivered: bool)
    requires DailyBranch(s, items, now, arrange, delivered).Some?
    ensures var a := DailyBranch(s, items, now, arrange, delivered).value;
            && ReadTaskList(a.items) == ReadTaskList(items)
            && LoadTelegramSettings(a.items) == LoadTelegramSettings(items)
            && LoadReportHistory(a.items).lastWeeklyReport == LoadReportHistory(items).lastWeeklyReport
            && WeeklyDue(s, a.items, now) == WeeklyDue(s, items, now)
            && (forall i :: 0 <= i < |a.outbox| ==> IsDailyMessage(a.outbox[i]))
  {
    var a := DailyBranch(s, items, now, arrange, delivered).value;
    assert HistoryKey != TasksKey && HistoryKey != SettingsKey;
    if a.items != items {
      assert LoadReportHistory(a.items) == MarkedDaily(LoadReportHistory(items), now);
      MarksAreIndependent(LoadReportHistory(items), now, now);
    }
  }

  /** On top of daily messages only, the weekly branch's last message is a
      weekly report exactly when the branch sends one. */
  lemma WeeklyBranchSends(s: TelegramSettings, a: TickResult, now: Moment,
                          arrange: seq<Task> -> seq<Task>, delivered: bool)
    requires forall i :: 0 <= i < |a.outbox| ==> IsDailyMessage(a.outbox[i])
    ensures var r := WeeklyBranch(s, a, now, arrange, delivered);
            (|r.outbox| > 0 && IsWeeklyMessage(r.outbox[|r.outbox| - 1]))
            <==> && WeeklyDue(s, a.items, now) && ReadTaskList(a.items).Some?
                 && !WeeklyReportThrows(ReadTaskList(a.items).value, arrange)
    ensures var r := WeeklyBranch(s, a, now, arrange, delivered);
            && WeeklyDue(s, a.items, now) && ReadTaskList(a.items).Some?
            && !WeeklyReportThrows(ReadTaskList(a.items).value, arrange)
            ==> r.outbox[|r.outbox| - 1]
                == Outgoing(s.botToken, s.chatId,
                            WeeklyReport(ReadTaskList(a.items).value, arrange, SundayOf(now), SundayOf(now) + 6, EpochDay(now)))
  {
    var r := WeeklyBranch(s, a, now, arrange, delivered);
    if r == a && |r.outbox| > 0 {
      assert IsDailyMessage(r.outbox[|r.outbox| - 1]);
    }
  }

  /** The weekly report goes out exactly when the service is on, the weekly
      branch's conditions hold, the task list reads and grouping it does not
      throw; it is then the last message, the report of the Sunday-to-Saturday
      week of all stored tasks. */
  lemma WeeklySentIff(items: map<string, Entry>, now: Moment, arrange: seq<Task> -> seq<Task>,
                      dailyOk: bool, weeklyOk: bool)
    ensures var s := LoadTelegramSettings(items);
            var r := Tick(items, now, arrange, dailyOk, weeklyOk);
            (|r.outbox| > 0 && IsWeeklyMessage(r.outbox[|r.outbox| - 1]))
            <==> && s.enabled && WeeklyDue(s, items, now) && ReadTaskList(items).Some?
                 && !WeeklyReportThrows(ReadTaskList(items).value, arrange)
    ensures var s := LoadTelegramSettings(items);
            var r := Tick(items, now, arrange, dailyOk, weeklyOk);
            && s.enabled && WeeklyDue(s, items, now) && ReadTaskList(items).Some?
            && !WeeklyReportThrows(ReadTaskList(items).value, arrange)
            ==> r.outbox[|r.outbox| - 1]
                == Outgoing(s.botToken, s.chatId,
                            WeeklyReport(ReadTaskList(items).value, arrange, SundayOf(now), SundayOf(now) + 6, EpochDay(now)))
  {
    var s := LoadTelegramSettings(items);
    var r := Tick(items, now, arrange, dailyOk, weeklyOk);
    var d := DailyBranch(s, items, now, arrange, dailyOk);
    if s.enabled && d.Some? {
      assert r == WeeklyBranch(s, d.value, now, arrange, weeklyOk);
      DailyBranchKeeps(s, items, now, arrange, dailyOk);
      WeeklyBranchSends(s, d.value, now, arrange, weeklyOk);
    } else {
      assert r.outbox == [];
    }
  }

  /** A daily send the channel did not confirm leaves the daily record as it
      was, whatever happens to the weekly report. */
  lemma UnconfirmedDailyKeepsRecord(items: map<string, Entry>, now: Moment, arrange: seq<Task> -> seq<Task>,
                                    weeklyOk: bool)
    ensures var r := Tick(items, now, arrange, false, weeklyOk);
            LoadReportHistory(r.items).lastDailyReport == LoadReportHistory(items).lastDailyReport
  {
    var s := LoadTelegramSettings(items);
    var d := DailyBranch(s, items, now, arrange, false);
    if s.enabled && d.Some? {
      assert d.value.items == items;
      var r := WeeklyBranch(s, d.value, now, arrange, weeklyOk);
      if r.items != items {
        assert LoadReportHistory(r.items) == MarkedWeekly(LoadReportHistory(items), now);
      }
    }
  }

  /** A weekly send the channel did not confirm leaves the weekly record as it
      was, whatever happened to the daily report. */
  lemma UnconfirmedWeeklyKeepsRecord(items: map<string, Entry>, now: Moment, arrange: seq<Task> -> seq<Task>,
                                     dailyOk: bool)
    ensures var r := Tick(items, now, arrange, dailyOk, false);
            LoadReportHistory(r.items).lastWeeklyReport == LoadReportHistory(items).lastWeeklyReport
  {
    var s := LoadTelegramSettings(items);
    var d := DailyBranch(s, items, now, arrange, dailyOk);
    if s.enabled && d.Some? {
      DailyBranchKeeps(s, items, now, arrange, dailyOk);
      assert WeeklyBranch(s, d.value, now, arrange, false).items == d.value.items;
    }
  }

  /** A confirmed send is recorded, unless the history key holds an array: the
      daily record gets today's date and the unpadded "H:M", the weekly record
      today's date, week number and year. */
  lemma ConfirmedSendsAreRecorded(items: map<string, Entry>, now: Moment, arrange: seq<Task> -> seq<Task>,
                                  dailyOk: bool, weeklyOk: bool)
    ensures var s := LoadTelegramSettings(items);
            var r := Tick(items, now, arrange, dailyOk, weeklyOk);
            !HoldsArray(items) && s.enabled && DailyDue(s, items, now) && ReadTaskList(items).Some? && dailyOk ==>
              LoadReportHistory(r.items).lastDailyReport == Some(DailyRecord(EpochDay(now), TimeKey(now.hour, now.minute)))
    ensures var s := LoadTelegramSettings(items);
            var r := Tick(items, now, arrange, dailyOk, weeklyOk);
            && !HoldsArray(items) && s.enabled && WeeklyDue(s, items, now) && ReadTaskList(items).Some?
            && !WeeklyReportThrows(ReadTaskList(items).value, arrange) && weeklyOk ==>
              LoadReportHistory(r.items).lastWeeklyReport == Some(WeeklyRecord(EpochDay(now), WeekNumber(now), now.year))
  {
    var s := LoadTelegramSettings(items);
    if s.enabled {
      var d := DailyBranch(s, items, now, arrange, dailyOk);
      if d.Some? {
        DailyBranchKeeps(s, items, now, arrange, dailyOk);
        var r := WeeklyBranch(s, d.value, now, arrange, weeklyOk);
        if r.items != d.value.items {
          assert LoadReportHistory(r.items) == MarkedWeekly(LoadReportHistory(d.value.items), now);
        }
        if d.value.items != items {
          assert LoadReportHistory(d.value.items) == MarkedDaily(LoadReportHistory(items), now);
        }
      }
    }
  }

  /** The service worker's week starts on Sunday, the scheduler's on Monday:
      one day later, or six days earlier on a Sunday. */
  lemma WeekStartsDiffer(now: Moment)
    ensures WeekdayOf(SundayOf(now)) == 0
    ensures SundayOf(now) <= EpochDay(now) <= SundayOf(now) + 6
    ensures ReportScheduler.WeekStart(now) == if Weekday(now) == 0 then SundayOf(now) - 6 else SundayOf(now) + 1
  {
    var e: int, w: int := EpochDay(now), Weekday(now);
    WeekdayShift(e, -w);
  }
}
