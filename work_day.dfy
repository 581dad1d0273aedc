/**
 * TimeTrackerViewModel: the work-day clock. A day is started by appending an open time entry for
 * the employee and ended by closing the first open entry of today with the whole minutes elapsed;
 * a one-second timer refreshes the elapsed-time text while the day is started, and the summary
 * sums the durations of today's closed entries.
 *
 * `now` is DateTime.Now in seconds and today is its day number; the timer is a flag.
 */
module WorkDay {
  import opened Wrappers
  import opened Seqs
  import opened Models

  // The three WorkStatus texts.
  const NotStartedText: string := "Рабочий день не начат"
  const StartedText: string := "Рабочий день начат"
  const EndedText: string := "Рабочий день завершен"

  /** The task a work-day entry is booked on. */
  const WorkDayTaskId: int := 1

  /** The hours, minutes and seconds shown by TimeSpan.ToString(@"hh\:mm\:ss"). */
  datatype Clock = Clock(hours: int, minutes: int, seconds: int)

  function Abs(x: int): int {
    if x < 0 then -x else x
  }

  /**
   * The text of a time span of `span` seconds: the Hours, Minutes and Seconds components, which
   * truncate toward zero, printed without a sign (custom TimeSpan formats show no sign).
   */
  function ClockText(span: int): (c: Clock)
    ensures 0 <= c.hours < 24 && 0 <= c.minutes < 60 && 0 <= c.seconds < 60
  {
    var a := Abs(span);
    Clock((a / 3600) % 24, (a / 60) % 60, a % 60)
  }

  /** The text is the time of day of the span's length: whole days are dropped, the rest is exact. */
  lemma ClockTextIsTimeOfDay(span: int)
    ensures var c := ClockText(span);
      c.hours * 3600 + c.minutes * 60 + c.seconds == Abs(span) % 86400
  {
    var a := Abs(span);
    var q, r := a / 86400, a % 86400;
    assert a == 86400 * q + r;
    assert a / 60 == 1440 * q + r / 60;
    assert r / 60 == 60 * (r / 3600) + (r / 60) % 60;
    assert a / 3600 == 24 * q + r / 3600;
    assert (a / 3600) % 24 == r / 3600;
    assert (a / 60) % 60 == (r / 60) % 60;
    assert a % 60 == r % 60;
  }

  /** The predicate of CheckIfWorkDayStarted and EndWorkDay: this employee's open entry started today. */
  predicate OpenToday(e: TimeEntry, employeeId: int, today: int) {
    e.employeeId == employeeId && DayOf(e.startTime) == today && e.endTime.None?
  }

  /** The predicate of LoadTodaySummary: this employee's closed entry started today. */
  predicate ClosedToday(e: TimeEntry, employeeId: int, today: int) {
    e.employeeId == employeeId && DayOf(e.startTime) == today && e.endTime.Some?
  }

  /** The position of the first open entry of today, FirstOrDefault's choice. */
  function OpenEntryIndex(entries: seq<TimeEntry>, employeeId: int, today: int): (r: Option<nat>)
    ensures r.None? <==> forall i :: 0 <= i < |entries| ==> !OpenToday(entries[i], employeeId, today)
    ensures r.Some? ==> r.value < |entries| && OpenToday(entries[r.value], employeeId, today)
    ensures r.Some? ==> forall i :: 0 <= i < r.value ==> !OpenToday(entries[i], employeeId, today)
  {
    FirstIndex(entries, (e: TimeEntry) => OpenToday(e, employeeId, today))
  }

  /** Today's closed entries of the employee, in table order. */
  function TodayClosed(entries: seq<TimeEntry>, employeeId: int, today: int): (r: seq<TimeEntry>)
    ensures forall e :: e in r <==> e in entries && ClosedToday(e, employeeId, today)
  {
    Filter(entries, (e: TimeEntry) => ClosedToday(e, employeeId, today))
  }

  /** `todayEntries.Sum(te => te.Duration ?? 0)`. */
  function TodayMinutes(entries: seq<TimeEntry>, employeeId: int, today: int): int {
    SumOf(TodayClosed(entries, employeeId, today), EntryMinutes)
  }

  /** The TodaySummary text: not loaded yet (""), the time worked today, or no sessions today. */
  datatype Summary = NotLoaded | Worked(time: HoursMinutes) | NoSessions

  /** LoadTodaySummary's text for the given entries. */
  function SummaryOf(entries: seq<TimeEntry>, employeeId: int, today: int): Summary {
    if TodayClosed(entries, employeeId, today) != [] then
      Worked(SplitMinutes(TodayMinutes(entries, employeeId, today)))
    else
      NoSessions
  }

  /**
   * The summary reads "no sessions" exactly when the employee has no closed entry today; otherwise
   * it is today's worked minutes split into hours and minutes under 60.
   */
  lemma SummaryOfToday(entries: seq<TimeEntry>, employeeId: int, today: int)
    ensures var r := SummaryOf(entries, employeeId, today);
      && r != NotLoaded
      && (r.NoSessions? <==> forall e :: e in entries ==> !ClosedToday(e, employeeId, today))
      && (r.Worked? ==> r.time.hours * 60 + r.time.minutes == TodayMinutes(entries, employeeId, today))
      && (r.Worked? && TodayMinutes(entries, employeeId, today) >= 0 ==> 0 <= r.time.minutes < 60)
  {
    var closed := TodayClosed(entries, employeeId, today);
    if closed != [] {
      assert closed[0] in entries;
    }
  }

  /** The entry StartWorkDay adds. */
  function OpenEntry(id: int, employeeId: int, start: int): (e: TimeEntry)
    ensures OpenToday(e, employeeId, DayOf(start))
    ensures e.startTime == start && e.taskId == WorkDayTaskId && e.duration.None?
  {
    TimeEntry(id, start, None, None, employeeId, WorkDayTaskId)
  }

  /** The entry EndWorkDay closes, with its end time and duration set. */
  function Closed(e: TimeEntry, end: int, minutes: int): (r: TimeEntry)
    ensures r.endTime == Some(end) && r.duration == Some(minutes)
    ensures r.id == e.id && r.startTime == e.startTime && r.employeeId == e.employeeId && r.taskId == e.taskId
  {
    e.(endTime := Some(end), duration := Some(minutes))
  }

  /** The table after EndWorkDay: the first open entry of today, if any, closed at `now` with `minutes`. */
  function EndedEntries(entries: seq<TimeEntry>, employeeId: int, today: int, now: int, minutes: int): seq<TimeEntry> {
    match OpenEntryIndex(entries, employeeId, today)
    case None => entries
    case Some(k) => entries[k := Closed(entries[k], now, minutes)]
  }

  /**
   * Ending a day changes only the entry found open: it gets its end time and duration, every other
   * entry is kept, and today's worked total grows by exactly the minutes booked.
   */
  lemma EndedEntriesEffect(entries: seq<TimeEntry>, employeeId: int, today: int, now: int, minutes: int)
    ensures var r := EndedEntries(entries, employeeId, today, now, minutes);
      && |r| == |entries|
      && match OpenEntryIndex(entries, employeeId, today)
         case None => r == entries
         case Some(k) =>
           && r[k] == Closed(entries[k], now, minutes)
           && (forall i :: 0 <= i < |r| && i != k ==> r[i] == entries[i])
           && TodayMinutes(r, employeeId, today) == TodayMinutes(entries, employeeId, today) + minutes
  {
    var found := OpenEntryIndex(entries, employeeId, today);
    if found.Some? {
      ClosingAddsMinutes(entries, found.value, now, minutes, employeeId, today);
    }
  }

  /** Starting a day makes a day found as started: the appended entry is an open entry of today. */
  lemma StartedDayIsFound(entries: seq<TimeEntry>, id: int, employeeId: int, now: int)
    ensures OpenEntryIndex(entries + [OpenEntry(id, employeeId, now)], employeeId, DayOf(now)).Some?
  {
    var s := entries + [OpenEntry(id, employeeId, now)];
    assert OpenToday(s[|s| - 1], employeeId, DayOf(now));
  }

  /** Closing today's open entry with `minutes` adds exactly `minutes` to today's worked total. */
  lemma {:induction false} ClosingAddsMinutes(s: seq<TimeEntry>, k: nat, end: int, minutes: int, employeeId: int, today: int)
    requires k < |s| && OpenToday(s[k], employeeId, today)
    ensures TodayMinutes(s[k := Closed(s[k], end, minutes)], employeeId, today) ==
            TodayMinutes(s, employeeId, today) + minutes
  {
    var x := Closed(s[k], end, minutes);
    var t := s[k := x];
    var p := (e: TimeEntry) => ClosedToday(e, employeeId, today);
    assert s == [s[0]] + s[1..];
    assert t == [t[0]] + t[1..];
    if k == 0 {
      assert t[1..] == s[1..];
      assert Filter(t, p) == [x] + Filter(s[1..], p);
      assert Filter(s, p) == Filter(s[1..], p);
    } else {
      assert t[1..] == s[1..][k - 1 := x];
      ClosingAddsMinutes(s[1..], k - 1, end, minutes, employeeId, today);
      if p(s[0]) {
        assert Filter(t, p) == [s[0]] + Filter(t[1..], p);
        assert Filter(s, p) == [s[0]] + Filter(s[1..], p);
      } else {
        assert Filter(t, p) == Filter(t[1..], p);
        assert Filter(s, p) == Filter(s[1..], p);
      }
    }
  }

  /**
   * What the context holds between saves: every stored row keeps its id, start, employee and task;
   * a row whose tracked value differs from the stored one is still open in the database (only
   * EndWorkDay changes a tracked row, and only an open one).
   */
  predicate TrackedRows(saved: seq<TimeEntry>, tracked: seq<TimeEntry>) {
    && |tracked| == |saved|
    && forall i :: 0 <= i < |saved| && tracked[i] != saved[i] ==>
         && saved[i].endTime.None?
         && tracked[i].id == saved[i].id && tracked[i].startTime == saved[i].startTime
         && tracked[i].employeeId == saved[i].employeeId && tracked[i].taskId == saved[i].taskId
  }

  /**
   * The rows LoadTodaySummary's query selects are closed in the database, so the tracked instances
   * it returns hold the stored values: the summary of the stored rows is the one shown.
   */
  lemma ClosedRowsAreStored(saved: seq<TimeEntry>, tracked: seq<TimeEntry>, employeeId: int, today: int)
    requires TrackedRows(saved, tracked)
    ensures forall i :: 0 <= i < |saved| && ClosedToday(saved[i], employeeId, today) ==> tracked[i] == saved[i]
  {
  }

  /** Closing a tracked row that is open in the database keeps the context consistent. */
  lemma CloseKeepsTracked(saved: seq<TimeEntry>, tracked: seq<TimeEntry>, k: nat, end: int, minutes: int)
    requires TrackedRows(saved, tracked) && k < |saved| && saved[k].endTime.None?
    ensures Closed(tracked[k], end, minutes) == Closed(saved[k], end, minutes)
    ensures TrackedRows(saved, tracked[k := Closed(saved[k], end, minutes)])
  {
    if tracked[k] != saved[k] {
      assert tracked[k].(endTime := Some(end), duration := Some(minutes))
          == saved[k].(endTime := Some(end), duration := Some(minutes));
    }
  }

  class WorkDayViewModel {
    /** The rows of the TimeEntries table as stored in the database. */
    var saved: seq<TimeEntry>
    /** The values the context returns for those rows: the stored values plus unsaved changes. */
    var entries: seq<TimeEntry>
    /** Entries added to the context and not yet inserted: a failed SaveChanges keeps them pending. */
    var added: seq<TimeEntry>
    /** The current employee's Id. */
    const employeeId: int

    var workStartTime: int
    /** _elapsedTimeToday, in seconds. */
    var elapsed: int
    var workStatus: string
    var elapsedText: Clock
    var isWorkDayStarted: bool
    var todaySummary: Summary
    /** The DispatcherTimer is running. */
    var timerRunning: bool

    /** The timer only runs while the day is started, so a tick never meets a stopped day. */
    predicate TimerOnlyWhenStarted()
      reads this
    {
      timerRunning ==> isWorkDayStarted
    }

    /** The object invariant: the timer rule and a consistent context. */
    predicate Valid()
      reads this
    {
      TimerOnlyWhenStarted() && TrackedRows(saved, entries)
    }

    /** Nothing is waiting to be saved. */
    predicate Clean()
      reads this
    {
      entries == saved && added == []
    }

    /** CanStartWorkDay. */
    predicate CanStartWorkDay()
      reads this
    {
      !isWorkDayStarted
    }

    /** CanEndWorkDay. */
    predicate CanEndWorkDay()
      reads this
    {
      isWorkDayStarted
    }

    /** Before any day is found or started: the initial state of the fields. */
    predicate Idle()
      reads this
    {
      !isWorkDayStarted && !timerRunning && workStatus == NotStartedText
      && elapsedText == Clock(0, 0, 0) && workStartTime == 0
    }

    /** A day started at `start` and running, with the elapsed time refreshed at `now`. */
    predicate Running(start: int, now: int)
      reads this
    {
      isWorkDayStarted && timerRunning && workStatus == StartedText && workStartTime == start
      && elapsed == now - start && elapsedText == ClockText(now - start)
    }

    /** A day that was ended: timer stopped, ended text, clock reset to 00:00:00. */
    predicate Ended()
      reads this
    {
      !isWorkDayStarted && !timerRunning && workStatus == EndedText && elapsedText == Clock(0, 0, 0)
    }

    /** The constructor: timer created stopped, today's summary loaded, then a started day looked for. */
    constructor (table: seq<TimeEntry>, currentEmployeeId: int, now: int)
      ensures saved == table && Clean() && employeeId == currentEmployeeId
      ensures todaySummary == SummaryOf(table, currentEmployeeId, DayOf(now))
      ensures Valid()
      ensures var found := OpenEntryIndex(table, currentEmployeeId, DayOf(now));
        && (found.None? ==> Idle())
        && (found.Some? ==> Running(table[found.value].startTime, now))
    {
      saved := table;
      entries := table;
      added := [];
      employeeId := currentEmployeeId;
      workStartTime := 0;
      elapsed := 0;
      workStatus := NotStartedText;
      elapsedText := Clock(0, 0, 0);
      isWorkDayStarted := false;
      todaySummary := NotLoaded;
      timerRunning := false;
      new;
      LoadTodaySummary(now);
      CheckIfWorkDayStarted(now);
    }

    /**
     * SaveChanges: on success the changed rows and the pending entries are written (new rows go
     * after the existing ones) and nothing is pending any more; on failure (`ok` false) neither
     * the database nor the context changes.
     */
    method SaveChanges(ok: bool)
      modifies this`saved, this`entries, this`added
      ensures ok ==> saved == old(entries) + old(added) && entries == saved && added == []
      ensures !ok ==> saved == old(saved) && entries == old(entries) && added == old(added)
    {
      if ok {
        saved := entries + added;
        entries := saved;
        added := [];
      }
    }

    /**
     * CheckIfWorkDayStarted: an open entry of today resumes the day from its start time. The query
     * runs on the stored rows; the entry's start is never changed in the context.
     */
    method CheckIfWorkDayStarted(now: int)
      requires TrackedRows(saved, entries)
      modifies this`workStartTime, this`isWorkDayStarted, this`workStatus, this`timerRunning
      modifies this`elapsed, this`elapsedText
      ensures var found := OpenEntryIndex(saved, employeeId, DayOf(now));
        && (found.None? ==> unchanged(this))
        && (found.Some? ==> Running(saved[found.value].startTime, now))
    {
      var found := OpenEntryIndex(saved, employeeId, DayOf(now));
      if found.Some? {
        workStartTime := entries[found.value].startTime;
        isWorkDayStarted := true;
        workStatus := StartedText;
        timerRunning := true;
        UpdateElapsedTime(now);
      }
    }

    /** UpdateElapsedTime: while the day is started the elapsed time is `now` minus the start. */
    method UpdateElapsedTime(now: int)
      modifies this`elapsed, this`elapsedText
      ensures !isWorkDayStarted ==> unchanged(this)
      ensures isWorkDayStarted ==>
        elapsed == now - workStartTime && elapsedText == ClockText(now - workStartTime)
    {
      if isWorkDayStarted {
        elapsed := now - workStartTime;
        elapsedText := ClockText(elapsed);
      }
    }

    /** Timer_Tick: the same refresh, once a second while the timer runs. */
    method TimerTick(now: int)
      modifies this`elapsed, this`elapsedText
      ensures !isWorkDayStarted ==> unchanged(this)
      ensures isWorkDayStarted ==>
        elapsed == now - workStartTime && elapsedText == ClockText(now - workStartTime)
    {
      UpdateElapsedTime(now);
    }

    /**
     * LoadTodaySummary: the time worked today, or the no-sessions text. The query selects stored
     * rows; by ClosedRowsAreStored their tracked values are the stored ones.
     */
    method LoadTodaySummary(now: int)
      modifies this`todaySummary
      ensures todaySummary == SummaryOf(saved, employeeId, DayOf(now))
    {
      var todayEntries := TodayClosed(saved, employeeId, DayOf(now));
      if todayEntries != [] {
        var totalMinutes := SumOf(todayEntries, EntryMinutes);
        todaySummary := Worked(SplitMinutes(totalMinutes));
      } else {
        todaySummary := NoSessions;
      }
    }

    /**
     * StartWorkDay: the day is marked started at `now`, then an open entry with key `newId` is
     * added and saved; `saveOk` is false when SaveChanges throws. A successful save writes the
     * new entry together with whatever earlier failed saves left pending, and starts the timer.
     * After a failed save the day still reads as started, the entry stays pending and the timer
     * is not started.
     */
    method StartWorkDay(now: int, newId: int, saveOk: bool)
      requires Valid()
      modifies this`workStartTime, this`isWorkDayStarted, this`workStatus, this`saved, this`entries
      modifies this`added, this`timerRunning, this`elapsed, this`elapsedText
      ensures Valid()
      ensures workStartTime == now && isWorkDayStarted && workStatus == StartedText
      ensures saveOk ==>
        && saved == old(entries) + old(added) + [OpenEntry(newId, employeeId, now)] && Clean()
        && timerRunning && elapsed == 0 && elapsedText == Clock(0, 0, 0)
      ensures !saveOk ==>
        && saved == old(saved) && entries == old(entries) && added == old(added) + [OpenEntry(newId, employeeId, now)]
        && timerRunning == old(timerRunning) && elapsed == old(elapsed) && elapsedText == old(elapsedText)
    {
      workStartTime := now;
      isWorkDayStarted := true;
      workStatus := StartedText;
      added := added + [OpenEntry(newId, employeeId, now)];
      SaveChanges(saveOk);
      if saveOk {
        timerRunning := true;
        UpdateElapsedTime(now);
      }
    }

    /**
     * EndWorkDay: when the day is started, the first entry of today that is open in the database
     * gets end time `now` and the whole minutes since the work start as its duration, and is saved
     * with everything else pending. When that save fails (`saveOk` false) the change stays in the
     * context and the day stays started, so a later attempt finds the same row and overwrites the
     * change. With no open entry nothing is saved and the day ends all the same.
     */
    method EndWorkDay(now: int, saveOk: bool)
      requires Valid()
      modifies this`saved, this`entries, this`added, this`timerRunning, this`isWorkDayStarted
      modifies this`workStatus, this`todaySummary, this`elapsedText
      ensures Valid()
      ensures !old(isWorkDayStarted) ==> unchanged(this)
      ensures old(isWorkDayStarted) ==>
        match OpenEntryIndex(old(saved), employeeId, DayOf(now))
        case None =>
          && saved == old(saved) && entries == old(entries) && added == old(added)
          && Ended() && todaySummary == SummaryOf(saved, employeeId, DayOf(now))
        case Some(k) =>
          var closed := old(entries)[k := Closed(old(saved)[k], now, ElapsedMinutes(workStartTime, now))];
          && (saveOk ==>
                && saved == closed + old(added) && Clean()
                && Ended() && todaySummary == SummaryOf(saved, employeeId, DayOf(now)))
          && (!saveOk ==>
                && saved == old(saved) && entries == closed && added == old(added)
                && isWorkDayStarted && timerRunning == old(timerRunning) && workStatus == old(workStatus)
                && todaySummary == old(todaySummary) && elapsedText == old(elapsedText))
      ensures old(isWorkDayStarted) && old(Clean()) && saveOk ==>
        saved == EndedEntries(old(saved), employeeId, DayOf(now), now, ElapsedMinutes(workStartTime, now))
    {
      if !isWorkDayStarted {
        return;
      }
      var totalMinutes := ElapsedMinutes(workStartTime, now);
      var found := CloseOpenEntry(now, totalMinutes);
      if found.Some? {
        SaveChanges(saveOk);
        if !saveOk {
          return;
        }
      }
      FinishDay(now);
    }

    /**
     * The todayEntry branch of EndWorkDay: the first entry of today open in the database, if any,
     * is closed in the context.
     */
    method CloseOpenEntry(now: int, minutes: int) returns (found: Option<nat>)
      requires TrackedRows(saved, entries)
      modifies this`entries
      ensures found == OpenEntryIndex(saved, employeeId, DayOf(now))
      ensures TrackedRows(saved, entries)
      ensures found.None? ==> entries == old(entries)
      ensures found.Some? ==> entries == old(entries)[found.value := Closed(saved[found.value], now, minutes)]
    {
      found := OpenEntryIndex(saved, employeeId, DayOf(now));
      if found.Some? {
        var k := found.value;
        CloseKeepsTracked(saved, entries, k, now, minutes);
        entries := entries[k := Closed(entries[k], now, minutes)];
      }
    }

    /** The rest of EndWorkDay: the timer stops, the day reads as ended and the summary is reloaded. */
    method FinishDay(now: int)
      modifies this`timerRunning, this`isWorkDayStarted, this`workStatus, this`todaySummary, this`elapsedText
      ensures Ended() && todaySummary == SummaryOf(saved, employeeId, DayOf(now))
    {
      timerRunning := false;
      isWorkDayStarted := false;
      workStatus := EndedText;
      LoadTodaySummary(now);
      elapsedText := Clock(0, 0, 0);
    }
  }

  /** The two command guards exclude each other: exactly one command is enabled at any time. */
  lemma GuardsExclusive(vm: WorkDayViewModel)
    ensures vm.CanStartWorkDay() <==> !vm.CanEndWorkDay()
  {
  }

  /**
   * Ending a day whose save fails and then ending it again later the same day: the second attempt
   * closes the same row, now with the later end time and minutes, stores it and ends the day.
   */
  method EndAgainAfterFailedSave(vm: WorkDayViewModel, first: int, second: int)
    requires vm.Valid() && vm.Clean() && vm.isWorkDayStarted
    requires DayOf(first) == DayOf(second)
    modifies vm
    ensures vm.Valid() && vm.Clean() && vm.Ended()
    ensures vm.saved == EndedEntries(old(vm.saved), vm.employeeId, DayOf(second), second,
                                     ElapsedMinutes(old(vm.workStartTime), second))
  {
    vm.EndWorkDay(first, false);
    vm.EndWorkDay(second, true);
  }

  /**
   * Starting a day whose save fails, ending it, and starting it again: the second successful save
   * inserts both open entries.
   */
  method StartAgainAfterFailedSave(vm: WorkDayViewModel, first: int, firstId: int, end: int, second: int, secondId: int)
    requires vm.Valid() && vm.Clean() && !vm.isWorkDayStarted
    requires OpenEntryIndex(vm.saved, vm.employeeId, DayOf(end)).None?
    modifies vm
    ensures vm.Valid() && vm.Clean() && vm.isWorkDayStarted
    ensures vm.saved == old(vm.saved) + [OpenEntry(firstId, vm.employeeId, first), OpenEntry(secondId, vm.employeeId, second)]
  {
    vm.StartWorkDay(first, firstId, false);
    vm.EndWorkDay(end, true);
    vm.StartWorkDay(second, secondId, true);
  }
}
