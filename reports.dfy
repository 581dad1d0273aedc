/**
 * ReportsViewModel: the report of an employee's closed time entries over an inclusive range of
 * days. The total is split into hours and minutes; the day sections follow in ascending date
 * order, each with its entries in ascending start-time order; the completed-tasks section lists
 * the employee's finished tasks.
 *
 * Dates are day numbers (the date pickers give midnights); the report text is the sequence of its
 * lines, each line a `ReportPiece` carrying the values the source formats into it.
 */
module Reports {
  import opened Wrappers
  import opened Seqs
  import opened Models

  /** One line (or blank line) of ReportText. */
  datatype ReportPiece =
    | ReportTitle                                   // "ОТЧЕТ ПО РАБОЧЕМУ ВРЕМЕНИ" and a blank line
    | EmployeeLine(firstName: string, lastName: string)
    | PeriodLine(startDay: int, endDay: int)
    | TotalLine(time: HoursMinutes, totalMinutes: int) // and a blank line
    | DaysHeading                                   // "ДЕТАЛИ ПО ДНЯМ" and a blank line
    | DayLine(day: int, time: HoursMinutes)
    | EntryLine(start: int, end: Option<int>, taskName: string, duration: Option<int>)
    | DayEnd                                        // the blank line after a day
    | CompletedHeading                              // "ВЫПОЛНЕННЫЕ ЗАДАЧИ" and a blank line
    | CompletedTitle(title: string)                 // "• <title>"
    | CompletedDescription(text: string)            // "  <description>"
    | CompletedEnd                                  // the blank line after a task
    | NoCompletedTasks                              // "Нет завершенных задач"

  /** The query of GenerateReport: this employee's closed entries whose start day is in [startDay, endDay]. */
  predicate InReport(e: TimeEntry, employeeId: int, startDay: int, endDay: int) {
    e.employeeId == employeeId && startDay <= DayOf(e.startTime) <= endDay && e.endTime.Some?
  }

  function Selected(entries: seq<TimeEntry>, employeeId: int, startDay: int, endDay: int): (r: seq<TimeEntry>)
    ensures forall e :: e in r <==> e in entries && InReport(e, employeeId, startDay, endDay)
  {
    Filter(entries, (e: TimeEntry) => InReport(e, employeeId, startDay, endDay))
  }

  /** The selection keeps the table order of the entries it selects. */
  lemma SelectedIsSubsequence(entries: seq<TimeEntry>, employeeId: int, startDay: int, endDay: int)
    ensures IsSubsequence(Selected(entries, employeeId, startDay, endDay), entries)
  {
    FilterIsSubsequence(entries, (e: TimeEntry) => InReport(e, employeeId, startDay, endDay));
  }

  /** The GroupBy key selector's condition for one key. */
  function OnDay(day: int): TimeEntry -> bool {
    (e: TimeEntry) => DayOf(e.startTime) == day
  }

  /** Membership of an entry's day in a list of days. */
  function OnDays(days: seq<int>): TimeEntry -> bool {
    (e: TimeEntry) => DayOf(e.startTime) in days
  }

  const IntLe: (int, int) -> bool := (a: int, b: int) => a <= b
  const StartTimeLe: (TimeEntry, TimeEntry) -> bool := (a: TimeEntry, b: TimeEntry) => a.startTime <= b.startTime

  lemma OrderingsAreOrderings()
    ensures Total(IntLe) && Transitive(IntLe)
    ensures Total(StartTimeLe) && Transitive(StartTimeLe)
  {
  }

  /** Drops repeated values from an ascending list. */
  function Dedup(s: seq<int>): (r: seq<int>)
    requires SortedBy(s, IntLe)
    ensures forall x :: x in r <==> x in s
    ensures forall i, j :: 0 <= i < j < |r| ==> r[i] < r[j]
  {
    if |s| <= 1 then s
    else if s[0] == s[1] then Dedup(s[1..])
    else
      var rest := Dedup(s[1..]);
      assert forall x :: x in rest ==> s[0] < x by {
        forall x | x in rest ensures s[0] < x {
          var k :| 0 <= k < |s[1..]| && s[1..][k] == x;
          assert IntLe(s[0], s[1]);
          assert IntLe(s[1], s[k + 1]) || k == 0;
        }
      }
      assert forall j :: 0 <= j < |rest| ==> s[0] < rest[j] by {
        forall j | 0 <= j < |rest| ensures s[0] < rest[j] {
          assert rest[j] in rest;
        }
      }
      [s[0]] + rest
  }

  /** The group keys of the selected entries, in order: GroupBy's keys, then OrderBy(g => g.Key). */
  function Days(sel: seq<TimeEntry>): (r: seq<int>)
    ensures forall d :: d in r <==> exists e :: e in sel && DayOf(e.startTime) == d
    ensures forall i, j :: 0 <= i < j < |r| ==> r[i] < r[j]
  {
    var keys := seq(|sel|, i requires 0 <= i < |sel| => DayOf(sel[i].startTime));
    OrderingsAreOrderings();
    var sorted := SortBy(keys, IntLe);
    assert forall x :: x in sorted <==> x in keys by {
      forall x ensures x in sorted <==> x in keys {
        assert x in sorted <==> x in multiset(sorted);
        assert x in keys <==> x in multiset(keys);
      }
    }
    assert forall d :: d in keys <==> exists e :: e in sel && DayOf(e.startTime) == d by {
      forall d ensures d in keys <==> exists e :: e in sel && DayOf(e.startTime) == d {
        if d in keys {
          var k :| 0 <= k < |keys| && keys[k] == d;
          assert sel[k] in sel;
        }
        if e :| e in sel && DayOf(e.startTime) == d {
          var k :| 0 <= k < |sel| && sel[k] == e;
          assert keys[k] == d;
        }
      }
    }
    Dedup(sorted)
  }

  /** One day group in ascending start-time order: dayGroup.OrderBy(e => e.StartTime). */
  function OrderedDayGroup(sel: seq<TimeEntry>, day: int): (r: seq<TimeEntry>)
    ensures SortedBy(r, StartTimeLe)
    ensures multiset(r) == multiset(Filter(sel, OnDay(day)))
    ensures forall e :: e in r <==> e in sel && DayOf(e.startTime) == day
  {
    OrderingsAreOrderings();
    var g := Filter(sel, OnDay(day));
    var r := SortBy(g, StartTimeLe);
    assert forall e :: e in r <==> e in g by {
      forall e ensures e in r <==> e in g {
        assert e in r <==> e in multiset(r);
        assert e in g <==> e in multiset(g);
      }
    }
    r
  }

  /** The minutes of one day: dayGroup.Sum(te => te.Duration ?? 0). */
  function DayMinutes(sel: seq<TimeEntry>, day: int): int {
    SumOf(Filter(sel, OnDay(day)), EntryMinutes)
  }

  /** `task?.Title ?? "Рабочий день"` for the first task with the entry's TaskId. */
  function TaskName(tasks: seq<Task>, taskId: int): (r: string)
    ensures (forall i :: 0 <= i < |tasks| ==> tasks[i].id != taskId) ==> r == WorkDayTaskName
    ensures (exists i :: 0 <= i < |tasks| && tasks[i].id == taskId) ==>
      exists k :: 0 <= k < |tasks| && tasks[k].id == taskId && r == tasks[k].title &&
        forall i :: 0 <= i < k ==> tasks[i].id != taskId
  {
    match FirstWhere(tasks, (t: Task) => t.id == taskId)
    case None => WorkDayTaskName
    case Some(t) => t.title
  }

  function EntryLineOf(tasks: seq<Task>, e: TimeEntry): ReportPiece {
    EntryLine(e.startTime, e.endTime, TaskName(tasks, e.taskId), e.duration)
  }

  /** The entry lines of a day, in the given order. */
  function EntryLines(tasks: seq<Task>, group: seq<TimeEntry>): (r: seq<ReportPiece>)
    ensures |r| == |group|
    ensures forall i :: 0 <= i < |r| ==> r[i] == EntryLineOf(tasks, group[i])
  {
    if group == [] then [] else EntryLines(tasks, group[..|group| - 1]) + [EntryLineOf(tasks, group[|group| - 1])]
  }

  /** One more entry adds one more line. */
  lemma EntryLinesStep(tasks: seq<Task>, group: seq<TimeEntry>, j: nat)
    requires j < |group|
    ensures EntryLines(tasks, group[..j + 1]) == EntryLines(tasks, group[..j]) + [EntryLineOf(tasks, group[j])]
  {
    assert group[..j + 1][..j] == group[..j];
  }

  /** A day section: the day's total, its entries by start time, a blank line. */
  function DayPieces(sel: seq<TimeEntry>, tasks: seq<Task>, day: int): seq<ReportPiece> {
    [DayLine(day, SplitMinutes(DayMinutes(sel, day)))] + EntryLines(tasks, OrderedDayGroup(sel, day)) + [DayEnd]
  }

  /** The day sections for the given days, in that order. */
  function DaysPieces(sel: seq<TimeEntry>, tasks: seq<Task>, days: seq<int>): seq<ReportPiece> {
    if days == [] then [] else DaysPieces(sel, tasks, days[..|days| - 1]) + DayPieces(sel, tasks, days[|days| - 1])
  }

  /** One more day adds its section. */
  lemma DaysPiecesStep(sel: seq<TimeEntry>, tasks: seq<Task>, days: seq<int>, i: nat)
    requires i < |days|
    ensures DaysPieces(sel, tasks, days[..i + 1]) == DaysPieces(sel, tasks, days[..i]) + DayPieces(sel, tasks, days[i])
  {
    assert days[..i + 1][..i] == days[..i];
  }

  /** `!string.IsNullOrEmpty(task.Description)`. */
  predicate HasDescription(t: Task) {
    t.description.Some? && t.description.value != ""
  }

  /** The lines of one completed task: its title, its description when it has one, a blank line. */
  function TaskPieces(t: Task): seq<ReportPiece> {
    [CompletedTitle(t.title)] + (if HasDescription(t) then [CompletedDescription(t.description.value)] else []) + [CompletedEnd]
  }

  /** The lines of the completed tasks, in table order. */
  function CompletedLines(completed: seq<Task>): seq<ReportPiece> {
    if completed == [] then []
    else CompletedLines(completed[..|completed| - 1]) + TaskPieces(completed[|completed| - 1])
  }

  /** The employee's finished tasks. */
  function Completed(tasks: seq<Task>, employeeId: int): (r: seq<Task>)
    ensures forall t :: t in r <==> t in tasks && t.assignedTo == employeeId && t.status == StatusDone
  {
    Filter(tasks, (t: Task) => t.assignedTo == employeeId && t.status == StatusDone)
  }

  function CompletedSection(completed: seq<Task>): seq<ReportPiece> {
    if completed == [] then [NoCompletedTasks] else CompletedLines(completed)
  }

  /** The report lines before the day sections. */
  function HeaderPieces(employee: Employee, startDay: int, endDay: int, total: int): seq<ReportPiece> {
    [ReportTitle, EmployeeLine(employee.firstName, employee.lastName), PeriodLine(startDay, endDay),
     TotalLine(SplitMinutes(total), total), DaysHeading]
  }

  /** The whole ReportText of GenerateReport for a valid range. */
  function ReportOf(entries: seq<TimeEntry>, tasks: seq<Task>, employee: Employee, startDay: int, endDay: int): seq<ReportPiece> {
    var sel := Selected(entries, employee.id, startDay, endDay);
    HeaderPieces(employee, startDay, endDay, SumOf(sel, EntryMinutes))
    + DaysPieces(sel, tasks, Days(sel))
    + [CompletedHeading]
    + CompletedSection(Completed(tasks, employee.id))
  }

  /** The day lines of the sections for `days` carry exactly those days. */
  lemma {:induction false} DayLinesAreDays(sel: seq<TimeEntry>, tasks: seq<Task>, days: seq<int>)
    ensures forall p :: p in DaysPieces(sel, tasks, days) && p.DayLine? ==> p.day in days
  {
    if days != [] {
      var init := days[..|days| - 1];
      DayLinesAreDays(sel, tasks, init);
      var last := DayPieces(sel, tasks, days[|days| - 1]);
      DayPiecesShape(sel, tasks, days[|days| - 1]);
      forall p | p in last && p.DayLine? ensures p.day == days[|days| - 1] {
        var m :| 0 <= m < |last| && last[m] == p;
      }
    }
  }

  /** A day section starts with its one day line. */
  lemma DayPiecesShape(sel: seq<TimeEntry>, tasks: seq<Task>, day: int)
    ensures var b := DayPieces(sel, tasks, day);
      && b[0] == DayLine(day, SplitMinutes(DayMinutes(sel, day)))
      && forall m :: 0 < m < |b| ==> !b[m].DayLine?
  {
    var es := EntryLines(tasks, OrderedDayGroup(sel, day));
    assert forall k :: 0 <= k < |es| ==> es[k].EntryLine?;
    SectionShape(DayLine(day, SplitMinutes(DayMinutes(sel, day))), es);
  }

  /** A line followed by entry lines and a blank line has no day line after its first. */
  lemma SectionShape(first: ReportPiece, es: seq<ReportPiece>)
    requires forall k :: 0 <= k < |es| ==> es[k].EntryLine?
    ensures var b := [first] + es + [DayEnd];
      b[0] == first && forall m :: 0 < m < |b| ==> !b[m].DayLine?
  {
    var b := [first] + es + [DayEnd];
    forall m | 0 < m < |b| ensures !b[m].DayLine? {
      if m < |b| - 1 {
        assert b[m] == es[m - 1];
      }
    }
  }

  /** Day lines in a list of pieces appear in strictly ascending date order. */
  predicate DayLinesIncrease(r: seq<ReportPiece>) {
    forall i, j :: 0 <= i < j < |r| && r[i].DayLine? && r[j].DayLine? ==> r[i].day < r[j].day
  }

  /** Appending a section that starts with the one day line of a later day keeps day lines ascending. */
  lemma AppendLaterDay(a: seq<ReportPiece>, b: seq<ReportPiece>, d: int)
    requires DayLinesIncrease(a)
    requires forall p :: p in a && p.DayLine? ==> p.day < d
    requires |b| > 0 && b[0].DayLine? && b[0].day == d
    requires forall m :: 0 < m < |b| ==> !b[m].DayLine?
    ensures DayLinesIncrease(a + b)
  {
    var r := a + b;
    forall m | |a| < m < |r| ensures !r[m].DayLine? {
      assert r[m] == b[m - |a|];
    }
    forall m | 0 <= m < |a| && r[m].DayLine? ensures r[m].day < d {
      assert r[m] == a[m] && a[m] in a;
    }
    assert r[|a|] == b[0];
    forall i, j | 0 <= i < j < |r| && r[i].DayLine? && r[j].DayLine? ensures r[i].day < r[j].day {
      if j < |a| {
        assert r[i] == a[i] && r[j] == a[j];
      }
    }
  }

  /** Day sections appear in strictly ascending date order when the days are ascending. */
  lemma {:induction false} DayLinesAscending(sel: seq<TimeEntry>, tasks: seq<Task>, days: seq<int>)
    requires forall i, j :: 0 <= i < j < |days| ==> days[i] < days[j]
    ensures DayLinesIncrease(DaysPieces(sel, tasks, days))
  {
    if days != [] {
      var init := days[..|days| - 1];
      var d := days[|days| - 1];
      DayLinesAscending(sel, tasks, init);
      DayLinesAreDays(sel, tasks, init);
      DayPiecesShape(sel, tasks, d);
      assert forall x :: x in init ==> x < d by {
        forall x | x in init ensures x < d {
          var k :| 0 <= k < |init| && init[k] == x;
          assert days[k] == x;
        }
      }
      AppendLaterDay(DaysPieces(sel, tasks, init), DayPieces(sel, tasks, d), d);
    }
  }

  /** The sum of the day totals over the given days. */
  function DaysTotal(sel: seq<TimeEntry>, days: seq<int>): int {
    if days == [] then 0 else DayMinutes(sel, days[0]) + DaysTotal(sel, days[1..])
  }

  /** Distinct days split the entries on those days into disjoint groups, whose sums add up. */
  lemma {:induction false} DaysTotalIsSum(sel: seq<TimeEntry>, days: seq<int>)
    requires forall i, j :: 0 <= i < j < |days| ==> days[i] < days[j]
    ensures DaysTotal(sel, days) == SumOf(Filter(sel, OnDays(days)), EntryMinutes)
  {
    if days == [] {
      FilterNone(sel, OnDays(days));
    } else {
      DaysTotalIsSum(sel, days[1..]);
      forall x ensures OnDays(days)(x) == (OnDay(days[0])(x) || OnDays(days[1..])(x)) {
        assert days == [days[0]] + days[1..];
      }
      forall x ensures !(OnDay(days[0])(x) && OnDays(days[1..])(x)) {
        if OnDays(days[1..])(x) {
          var k :| 0 <= k < |days[1..]| && days[1..][k] == DayOf(x.startTime);
          assert days[0] < days[k + 1];
        }
      }
      SumFilterDisjoint(sel, EntryMinutes, OnDay(days[0]), OnDays(days[1..]), OnDays(days));
    }
  }

  /** Where with a predicate that holds of nothing gives the empty list. */
  lemma {:induction false} FilterNone<T(!new)>(s: seq<T>, p: T -> bool)
    requires forall x :: !p(x)
    ensures Filter(s, p) == []
  {
    if s != [] {
      FilterNone(s[1..], p);
    }
  }

  /** The per-day minutes of the report add up to its total: the day groups partition the selection. */
  lemma DaySumsAddUpToTotal(entries: seq<TimeEntry>, employeeId: int, startDay: int, endDay: int)
    ensures var sel := Selected(entries, employeeId, startDay, endDay);
      DaysTotal(sel, Days(sel)) == SumOf(sel, EntryMinutes)
  {
    var sel := Selected(entries, employeeId, startDay, endDay);
    var days := Days(sel);
    DaysTotalIsSum(sel, days);
    forall i | 0 <= i < |sel| ensures OnDays(days)(sel[i]) {
      assert sel[i] in sel;
    }
    FilterAll(sel, OnDays(days));
  }

  /** The completed lines mention exactly the completed tasks' titles and only non-empty descriptions. */
  lemma {:induction false} CompletedLinesContents(completed: seq<Task>)
    ensures var r := CompletedLines(completed);
      && (forall x :: CompletedTitle(x) in r <==> exists t :: t in completed && t.title == x)
      && (forall x :: CompletedDescription(x) in r <==> exists t :: t in completed && HasDescription(t) && t.description.value == x)
      && NoCompletedTasks !in r
  {
    if completed != [] {
      var init := completed[..|completed| - 1];
      var t := completed[|completed| - 1];
      CompletedLinesContents(init);
      assert completed == init + [t];
      forall u ensures u in completed <==> u in init || u == t {
      }
    }
  }

  /**
   * The day lines of `r` are strictly ascending by date and are exactly the days of the entries of
   * `sel`, each with that day's total.
   */
  ghost predicate DayLinesOf(sel: seq<TimeEntry>, r: seq<ReportPiece>) {
    && DayLinesIncrease(r)
    && (forall p :: p in r && p.DayLine? ==> exists e :: e in sel && DayOf(e.startTime) == p.day)
    && (forall e :: e in sel ==> DayLine(DayOf(e.startTime), SplitMinutes(DayMinutes(sel, DayOf(e.startTime)))) in r)
  }

  /**
   * `r` says "no completed tasks" exactly when the employee has no completed task, and shows a
   * title exactly when a completed task of the employee has it.
   */
  ghost predicate CompletedOf(tasks: seq<Task>, employeeId: int, r: seq<ReportPiece>) {
    && (NoCompletedTasks in r <==> forall t :: t in tasks ==> !(t.assignedTo == employeeId && t.status == StatusDone))
    && (forall x :: CompletedTitle(x) in r <==>
          exists t :: t in tasks && t.assignedTo == employeeId && t.status == StatusDone && t.title == x)
  }

  /**
   * The completed section: "Нет завершенных задач" exactly when the employee has no completed task,
   * and the titles of exactly the completed tasks.
   */
  lemma CompletedSectionContents(tasks: seq<Task>, employeeId: int)
    ensures CompletedOf(tasks, employeeId, CompletedSection(Completed(tasks, employeeId)))
  {
    var c := Completed(tasks, employeeId);
    CompletedLinesContents(c);
    if c != [] {
      assert c[0] in c;
    }
  }

  /** The minutes a report line shows as a day total: hours * 60 + minutes of a day line, 0 otherwise. */
  function PieceMinutes(p: ReportPiece): int {
    if p.DayLine? then p.time.hours * 60 + p.time.minutes else 0
  }

  /** DaysTotal taken from the last day back, the order in which the sections are appended. */
  lemma {:induction false} DaysTotalSnoc(sel: seq<TimeEntry>, days: seq<int>)
    requires days != []
    ensures DaysTotal(sel, days) == DaysTotal(sel, days[..|days| - 1]) + DayMinutes(sel, days[|days| - 1])
  {
    if |days| > 1 {
      DaysTotalSnoc(sel, days[1..]);
      assert days[1..][..|days[1..]| - 1] == days[..|days| - 1][1..];
    } else {
      assert days[..0] == [];
    }
  }

  /** A day section shows its day's minutes on its day line and nowhere else. */
  lemma DayPiecesMinutes(sel: seq<TimeEntry>, tasks: seq<Task>, day: int)
    ensures SumOf(DayPieces(sel, tasks, day), PieceMinutes) == DayMinutes(sel, day)
  {
    var head := [DayLine(day, SplitMinutes(DayMinutes(sel, day)))];
    var es := EntryLines(tasks, OrderedDayGroup(sel, day));
    SumOfAppend(head, es, PieceMinutes);
    SumOfAppend(head + es, [DayEnd], PieceMinutes);
    SumOfZero(es, PieceMinutes);
  }

  /** The day lines of the sections for `days` add up to the days' total. */
  lemma {:induction false} DaysPiecesMinutes(sel: seq<TimeEntry>, tasks: seq<Task>, days: seq<int>)
    ensures SumOf(DaysPieces(sel, tasks, days), PieceMinutes) == DaysTotal(sel, days)
  {
    if days != [] {
      var init := days[..|days| - 1];
      var d := days[|days| - 1];
      DaysPiecesMinutes(sel, tasks, init);
      DaysTotalSnoc(sel, days);
      SumOfAppend(DaysPieces(sel, tasks, init), DayPieces(sel, tasks, d), PieceMinutes);
      DayPiecesMinutes(sel, tasks, d);
    }
  }

  /** The day sections hold only day lines, entry lines and blank day ends. */
  lemma {:induction false} DaysPiecesKinds(sel: seq<TimeEntry>, tasks: seq<Task>, days: seq<int>)
    ensures forall p :: p in DaysPieces(sel, tasks, days) ==> p.DayLine? || p.EntryLine? || p.DayEnd?
  {
    if days != [] {
      DaysPiecesKinds(sel, tasks, days[..|days| - 1]);
      var es := EntryLines(tasks, OrderedDayGroup(sel, days[|days| - 1]));
      assert forall p :: p in es ==> p.EntryLine? by {
        forall p | p in es ensures p.EntryLine? {
          var k :| 0 <= k < |es| && es[k] == p;
        }
      }
    }
  }

  /** Each listed day has its day line, carrying that day's total. */
  lemma {:induction false} DaysPiecesHaveDayLines(sel: seq<TimeEntry>, tasks: seq<Task>, days: seq<int>)
    ensures forall d :: d in days ==> DayLine(d, SplitMinutes(DayMinutes(sel, d))) in DaysPieces(sel, tasks, days)
  {
    if days != [] {
      var init := days[..|days| - 1];
      var d := days[|days| - 1];
      DaysPiecesHaveDayLines(sel, tasks, init);
      assert DayPieces(sel, tasks, d)[0] == DayLine(d, SplitMinutes(DayMinutes(sel, d)));
      forall x | x in days ensures x in init || x == d {
        var k :| 0 <= k < |days| && days[k] == x;
        if k < |days| - 1 {
          assert init[k] == x;
        }
      }
    }
  }

  /** The completed lines hold only titles, descriptions and blank task ends. */
  lemma {:induction false} CompletedLinesKinds(completed: seq<Task>)
    ensures forall p :: p in CompletedLines(completed) ==> p.CompletedTitle? || p.CompletedDescription? || p.CompletedEnd?
  {
    if completed != [] {
      CompletedLinesKinds(completed[..|completed| - 1]);
    }
  }

  /** Surrounding ascending day lines with pieces that hold none keeps them ascending. */
  lemma Framed(a: seq<ReportPiece>, b: seq<ReportPiece>, c: seq<ReportPiece>)
    requires forall p :: p in a ==> !p.DayLine?
    requires forall p :: p in c ==> !p.DayLine?
    requires DayLinesIncrease(b)
    ensures DayLinesIncrease(a + b + c)
  {
    var r := a + b + c;
    forall i, j | 0 <= i < j < |r| && r[i].DayLine? && r[j].DayLine? ensures r[i].day < r[j].day {
      if |a| <= i && j < |a| + |b| {
        assert r[i] == b[i - |a|] && r[j] == b[j - |a|];
      }
    }
  }

  /** The header holds no day line and no completed-task line. */
  lemma HeaderKinds(employee: Employee, startDay: int, endDay: int, total: int)
    ensures forall p :: p in HeaderPieces(employee, startDay, endDay, total) ==>
      !p.DayLine? && !p.CompletedTitle? && !p.NoCompletedTasks?
  {
  }

  /** Day lines occur only in the day sections, completed-task lines only in the completed section. */
  lemma SectionKinds(sel: seq<TimeEntry>, tasks: seq<Task>, days: seq<int>, completed: seq<Task>)
    ensures forall p :: p in DaysPieces(sel, tasks, days) ==> !p.CompletedTitle? && !p.NoCompletedTasks?
    ensures forall p :: p in [CompletedHeading] + CompletedSection(completed) ==> !p.DayLine?
  {
    DaysPiecesKinds(sel, tasks, days);
    CompletedLinesKinds(completed);
  }

  /** Lines that hold no completed-task line leave what a completed section reports unchanged. */
  lemma CompletedOfPrefix(tasks: seq<Task>, employeeId: int, a: seq<ReportPiece>, c: seq<ReportPiece>)
    requires forall p :: p in a ==> !p.CompletedTitle? && !p.NoCompletedTasks?
    requires CompletedOf(tasks, employeeId, c)
    ensures CompletedOf(tasks, employeeId, a + c)
  {
    assert forall x :: CompletedTitle(x) in a + c <==> CompletedTitle(x) in c;
  }

  /** The report's day lines are exactly the days of the selected entries, each with that day's total, ascending. */
  lemma ReportDayLines(entries: seq<TimeEntry>, tasks: seq<Task>, employee: Employee, startDay: int, endDay: int)
    ensures DayLinesOf(Selected(entries, employee.id, startDay, endDay), ReportOf(entries, tasks, employee, startDay, endDay))
  {
    var sel := Selected(entries, employee.id, startDay, endDay);
    var days := Days(sel);
    var head := HeaderPieces(employee, startDay, endDay, SumOf(sel, EntryMinutes));
    var section := CompletedSection(Completed(tasks, employee.id));
    AppendAssociative(head + DaysPieces(sel, tasks, days), [CompletedHeading], section);
    HeaderKinds(employee, startDay, endDay, SumOf(sel, EntryMinutes));
    SectionKinds(sel, tasks, days, Completed(tasks, employee.id));
    DayLinesAscending(sel, tasks, days);
    Framed(head, DaysPieces(sel, tasks, days), [CompletedHeading] + section);
    DayLinesAreDays(sel, tasks, days);
    DaysPiecesHaveDayLines(sel, tasks, days);
  }

  /** The day totals shown in the report add up to the total on its header. */
  lemma ReportMinutes(entries: seq<TimeEntry>, tasks: seq<Task>, employee: Employee, startDay: int, endDay: int)
    ensures SumOf(ReportOf(entries, tasks, employee, startDay, endDay), PieceMinutes)
         == SumOf(Selected(entries, employee.id, startDay, endDay), EntryMinutes)
  {
    var sel := Selected(entries, employee.id, startDay, endDay);
    var head := HeaderPieces(employee, startDay, endDay, SumOf(sel, EntryMinutes));
    var body := DaysPieces(sel, tasks, Days(sel));
    var tail := [CompletedHeading] + CompletedSection(Completed(tasks, employee.id));
    AppendAssociative(head + body, [CompletedHeading], CompletedSection(Completed(tasks, employee.id)));
    HeaderKinds(employee, startDay, endDay, SumOf(sel, EntryMinutes));
    SectionKinds(sel, tasks, Days(sel), Completed(tasks, employee.id));
    SumOfAppend(head + body, tail, PieceMinutes);
    SumOfAppend(head, body, PieceMinutes);
    SumOfZero(head, PieceMinutes);
    assert forall i :: 0 <= i < |tail| ==> PieceMinutes(tail[i]) == 0 by {
      forall i | 0 <= i < |tail| ensures PieceMinutes(tail[i]) == 0 {
        assert tail[i] in tail;
      }
    }
    SumOfZero(tail, PieceMinutes);
    DaysPiecesMinutes(sel, tasks, Days(sel));
    DaySumsAddUpToTotal(entries, employee.id, startDay, endDay);
  }

  /** The report lists the title of exactly the employee's completed tasks, or says there are none. */
  lemma ReportCompleted(entries: seq<TimeEntry>, tasks: seq<Task>, employee: Employee, startDay: int, endDay: int)
    ensures CompletedOf(tasks, employee.id, ReportOf(entries, tasks, employee, startDay, endDay))
  {
    var sel := Selected(entries, employee.id, startDay, endDay);
    var prefix := HeaderPieces(employee, startDay, endDay, SumOf(sel, EntryMinutes)) + DaysPieces(sel, tasks, Days(sel))
      + [CompletedHeading];
    HeaderKinds(employee, startDay, endDay, SumOf(sel, EntryMinutes));
    SectionKinds(sel, tasks, Days(sel), Completed(tasks, employee.id));
    CompletedSectionContents(tasks, employee.id);
    CompletedOfPrefix(tasks, employee.id, prefix, CompletedSection(Completed(tasks, employee.id)));
  }

  /** The report's fourth line is the total line, showing the selected minutes. */
  lemma ReportTotalLine(entries: seq<TimeEntry>, tasks: seq<Task>, employee: Employee, startDay: int, endDay: int)
    ensures var total := SumOf(Selected(entries, employee.id, startDay, endDay), EntryMinutes);
      var r := ReportOf(entries, tasks, employee, startDay, endDay);
      |r| > 3 && r[3] == TotalLine(SplitMinutes(total), total)
  {
  }

  /**
   * The whole report: its total line shows the selected minutes; its day lines are exactly the days
   * of the selected entries, each with that day's total, in strictly ascending order, and their
   * totals add up to the report's total; the completed section lists exactly the employee's
   * completed tasks, or says there are none.
   */
  lemma ReportContents(entries: seq<TimeEntry>, tasks: seq<Task>, employee: Employee, startDay: int, endDay: int)
    ensures var sel := Selected(entries, employee.id, startDay, endDay);
      var total := SumOf(sel, EntryMinutes);
      var r := ReportOf(entries, tasks, employee, startDay, endDay);
      && |r| > 3 && r[3] == TotalLine(SplitMinutes(total), total)
      && DayLinesOf(sel, r)
      && SumOf(r, PieceMinutes) == total
      && CompletedOf(tasks, employee.id, r)
  {
    ReportTotalLine(entries, tasks, employee, startDay, endDay);
    ReportDayLines(entries, tasks, employee, startDay, endDay);
    ReportMinutes(entries, tasks, employee, startDay, endDay);
    ReportCompleted(entries, tasks, employee, startDay, endDay);
  }

  /** The outer foreach over the day groups, in the given order of days. */
  method AppendDaySections(text: seq<ReportPiece>, sel: seq<TimeEntry>, tasks: seq<Task>, days: seq<int>)
    returns (r: seq<ReportPiece>)
    ensures r == text + DaysPieces(sel, tasks, days)
  {
    r := text;
    var i := 0;
    while i < |days|
      invariant 0 <= i <= |days|
      invariant r == text + DaysPieces(sel, tasks, days[..i])
    {
      r := AppendDaySection(r, sel, tasks, days[i]);
      DaysPiecesStep(sel, tasks, days, i);
      AppendAssociative(text, DaysPieces(sel, tasks, days[..i]), DayPieces(sel, tasks, days[i]));
      i := i + 1;
    }
    assert days[..i] == days;
  }

  /** One pass of the outer foreach: the day line, the day's entries by start time, a blank line. */
  method AppendDaySection(text: seq<ReportPiece>, sel: seq<TimeEntry>, tasks: seq<Task>, day: int)
    returns (r: seq<ReportPiece>)
    ensures r == text + DayPieces(sel, tasks, day)
  {
    var dayMinutes := SumOf(Filter(sel, OnDay(day)), EntryMinutes);
    var head := [DayLine(day, SplitMinutes(dayMinutes))];
    var ordered := OrderedDayGroup(sel, day);
    r := text + head;
    r := AppendEntryLines(r, tasks, ordered);
    r := r + [DayEnd];
    AppendAssociative(text, head, EntryLines(tasks, ordered));
    AppendAssociative(text, head + EntryLines(tasks, ordered), [DayEnd]);
  }

  /** The inner foreach: one line per entry of the day, in the given order. */
  method AppendEntryLines(text: seq<ReportPiece>, tasks: seq<Task>, ordered: seq<TimeEntry>)
    returns (r: seq<ReportPiece>)
    ensures r == text + EntryLines(tasks, ordered)
  {
    r := text;
    var j := 0;
    while j < |ordered|
      invariant 0 <= j <= |ordered|
      invariant r == text + EntryLines(tasks, ordered[..j])
    {
      var entry := ordered[j];
      var taskName := TaskName(tasks, entry.taskId);
      r := r + [EntryLine(entry.startTime, entry.endTime, taskName, entry.duration)];
      EntryLinesStep(tasks, ordered, j);
      AppendAssociative(text, EntryLines(tasks, ordered[..j]), [EntryLineOf(tasks, entry)]);
      j := j + 1;
    }
    assert ordered[..j] == ordered;
  }

  /** The completed-tasks section after its heading. */
  method AppendCompletedSection(text: seq<ReportPiece>, completedTasks: seq<Task>)
    returns (r: seq<ReportPiece>)
    ensures r == text + CompletedSection(completedTasks)
  {
    r := text;
    if completedTasks != [] {
      var k := 0;
      while k < |completedTasks|
        invariant 0 <= k <= |completedTasks|
        invariant r == text + CompletedLines(completedTasks[..k])
      {
        var task := completedTasks[k];
        r := r + [CompletedTitle(task.title)];
        if task.description.Some? && task.description.value != "" {
          r := r + [CompletedDescription(task.description.value)];
        }
        r := r + [CompletedEnd];
        assert completedTasks[..k + 1][..k] == completedTasks[..k];
        k := k + 1;
      }
      assert completedTasks[..k] == completedTasks;
    } else {
      r := r + [NoCompletedTasks];
    }
  }

  class ReportsViewModel {
    /** The context's time-entry and task tables. */
    var entries: seq<TimeEntry>
    var tasks: seq<Task>
    const employee: Employee

    var startDate: int
    var endDate: int
    var reportText: seq<ReportPiece>
    var totalMinutes: int
    /** TotalTimeText: "" until a report is generated, then the split total. */
    var totalTimeText: Option<HoursMinutes>

    /** The constructor: the last seven days up to today, then a first report. */
    constructor (entryTable: seq<TimeEntry>, taskTable: seq<Task>, currentEmployee: Employee, today: int)
      ensures entries == entryTable && tasks == taskTable && employee == currentEmployee
      ensures startDate == today - 7 && endDate == today
      ensures totalMinutes == SumOf(Selected(entries, employee.id, startDate, endDate), EntryMinutes)
      ensures totalTimeText == Some(SplitMinutes(totalMinutes))
      ensures reportText == ReportOf(entries, tasks, employee, startDate, endDate)
    {
      entries := entryTable;
      tasks := taskTable;
      employee := currentEmployee;
      startDate := today - 7;
      endDate := today;
      reportText := [];
      totalMinutes := 0;
      totalTimeText := None;
      new;
      assert startDate <= endDate;
      GenerateReport();
      assert reportText == ReportOf(entries, tasks, employee, startDate, endDate);
    }

    /**
     * GenerateReport: an empty range ends with a message and changes nothing; otherwise the
     * total, its text and the report are computed from the selected entries.
     */
    method GenerateReport()
      modifies this`reportText, this`totalMinutes, this`totalTimeText
      ensures startDate > endDate ==> unchanged(this)
      ensures startDate <= endDate ==>
        && totalMinutes == SumOf(Selected(entries, employee.id, startDate, endDate), EntryMinutes)
        && totalTimeText == Some(SplitMinutes(totalMinutes))
        && reportText == ReportOf(entries, tasks, employee, startDate, endDate)
    {
      if startDate > endDate {
        return;
      }
      var timeEntries := Selected(entries, employee.id, startDate, endDate);
      var minutes := SumOf(timeEntries, EntryMinutes);
      var total := SplitMinutes(minutes);
      totalMinutes := minutes;
      totalTimeText := Some(total);

      var text := [ReportTitle];
      text := text + [EmployeeLine(employee.firstName, employee.lastName)];
      text := text + [PeriodLine(startDate, endDate)];
      text := text + [TotalLine(total, minutes)];
      text := text + [DaysHeading];
      assert text == HeaderPieces(employee, startDate, endDate, minutes);
      text := AppendDaySections(text, timeEntries, tasks, Days(timeEntries));
      text := text + [CompletedHeading];
      text := AppendCompletedSection(text, Completed(tasks, employee.id));
      reportText := text;
    }
  }
}
