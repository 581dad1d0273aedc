/**
 * The entities of the time tracker (the records of TimeTracker/Models) and the arithmetic on
 * times and durations that several view-models share.
 *
 * A DateTime is a whole number of seconds since the start of day 0 (local time); its Date is the
 * day number `DayOf(t)`. Sub-second precision is not modelled.
 */
module Models {
  import opened Wrappers
  import opened Text

  /** A task: title, optional description, status text, owning project and assignee. */
  datatype Task = Task(
    id: int,
    title: string,
    description: Option<string>,
    status: string,
    projectId: int,
    assignedTo: int)

  /** A time entry: an open entry has no end time and no duration yet. */
  datatype TimeEntry = TimeEntry(
    id: int,
    startTime: int,
    endTime: Option<int>,
    duration: Option<int>,
    employeeId: int,
    taskId: int)

  /** An employee of a department, with a role. */
  datatype Employee = Employee(
    id: int,
    firstName: string,
    lastName: string,
    email: string,
    password: string,
    position: string,
    createdAt: int,
    updatedAt: Option<int>,
    departmentId: int,
    roleId: int)

  /** A project of a department. */
  datatype Project = Project(
    id: int,
    name: string,
    startDate: int,
    endDate: int,
    status: string,
    managerId: int,
    departmentId: int)

  /** A department. */
  datatype Department = Department(id: int, name: string, createdAt: int)

  // The four task statuses and the "all statuses" filter value.
  const StatusNew: string := "Новая"
  const StatusInProgress: string := "В работе"
  const StatusInReview: string := "На проверке"
  const StatusDone: string := "Завершена"
  const StatusAll: string := "Все"

  /** Task name shown in a report for an entry whose task cannot be found. */
  const WorkDayTaskName: string := "Рабочий день"

  const SecondsPerDay: int := 86400

  /** DateTime.Date, as a day number (DateTime values are never negative). */
  function DayOf(t: int): int {
    t / SecondsPerDay
  }

  /** C#'s integer `/` by a positive divisor: the quotient truncated toward zero. */
  function CsDiv(a: int, b: int): (q: int)
    requires b > 0
    ensures a >= 0 ==> 0 <= a - b * q < b
    ensures a < 0 ==> -b < a - b * q <= 0
  {
    if a >= 0 then a / b else -((-a) / b)
  }

  /** C#'s integer `%` by a positive divisor: the remainder has the sign of `a`. */
  function CsRem(a: int, b: int): int
    requires b > 0
  {
    a - b * CsDiv(a, b)
  }

  /** Whole hours and remaining minutes of a number of minutes, as `total / 60` and `total % 60`. */
  datatype HoursMinutes = HoursMinutes(hours: int, minutes: int)

  /** The split `hours = total / 60, minutes = total % 60` with C#'s truncating operators. */
  function SplitMinutes(total: int): (r: HoursMinutes)
    ensures r.hours * 60 + r.minutes == total
    ensures total >= 0 ==> 0 <= r.minutes < 60 && 0 <= r.hours
    ensures total < 0 ==> -60 < r.minutes <= 0 && r.hours <= 0
  {
    HoursMinutes(CsDiv(total, 60), CsRem(total, 60))
  }

  /** For a non-negative total the split is the only pair with minutes in [0, 60). */
  lemma SplitMinutesUnique(total: int, h: int, m: int)
    requires total >= 0 && h * 60 + m == total && 0 <= m < 60
    ensures SplitMinutes(total) == HoursMinutes(h, m)
  {
    var r := SplitMinutes(total);
    assert (h - r.hours) * 60 == r.minutes - m;
  }

  /** `(int)(end - start).TotalMinutes`: whole minutes elapsed, truncated toward zero. */
  function ElapsedMinutes(start: int, end: int): (m: int)
    ensures end >= start ==> m >= 0 && m * 60 <= end - start < (m + 1) * 60
    ensures end < start ==> m <= 0 && (m - 1) * 60 < end - start <= m * 60
  {
    CsDiv(end - start, 60)
  }

  /** Minutes an entry counts for in a sum: `Duration ?? 0`. */
  function EntryMinutes(e: TimeEntry): int {
    e.duration.GetOr(0)
  }

  /** The tracked task with key `t.id` now reads as `t` in every list that holds it. */
  function ReplaceById(s: seq<Task>, t: Task): (r: seq<Task>)
    ensures |r| == |s|
    ensures forall i :: 0 <= i < |s| ==> r[i] == if s[i].id == t.id then t else s[i]
  {
    seq(|s|, i requires 0 <= i < |s| => if s[i].id == t.id then t else s[i])
  }

  /** Replaces, inside a list that may be null, the tracked task with `t`'s key. */
  function ReplaceInList(list: Option<seq<Task>>, t: Task): Option<seq<Task>> {
    match list
    case None => None
    case Some(s) => Some(ReplaceById(s, t))
  }

  /** The search condition of both task lists: title, or non-null description, contains the text ignoring case. */
  predicate MatchesSearch(t: Task, search: string) {
    ContainsIgnoreCase(t.title, search) ||
    (t.description.Some? && ContainsIgnoreCase(t.description.value, search))
  }
}
