/**
 * TeamManagementViewModel: the other members of the current employee's department, ordered by
 * last name then first name, and the details of the selected member: full name, position, email,
 * initials and task counts.
 *
 * The database's ORDER BY on names is modelled as ordinal (code-point) lexicographic order.
 */
module Team {
  import opened Wrappers
  import opened Seqs
  import opened Text
  import opened Models

  /** Ordinal string order: `a` is a prefix of `b`, or `a` has the smaller character at the first difference. */
  predicate LexLeq(a: string, b: string)
    decreases |a|
  {
    a == [] || (b != [] && (if a[0] == b[0] then LexLeq(a[1..], b[1..]) else a[0] < b[0]))
  }

  lemma {:induction false} LexLeqTotal(a: string, b: string)
    ensures LexLeq(a, b) || LexLeq(b, a)
    decreases |a|
  {
    if a != [] && b != [] && a[0] == b[0] {
      LexLeqTotal(a[1..], b[1..]);
    }
  }

  lemma {:induction false} LexLeqTransitive(a: string, b: string, c: string)
    requires LexLeq(a, b) && LexLeq(b, c)
    ensures LexLeq(a, c)
    decreases |a|
  {
    if a != [] && a[0] == b[0] && b[0] == c[0] {
      LexLeqTransitive(a[1..], b[1..], c[1..]);
    }
  }

  lemma {:induction false} LexLeqAntisymmetric(a: string, b: string)
    requires LexLeq(a, b) && LexLeq(b, a)
    ensures a == b
    decreases |a|
  {
    if a != [] {
      LexLeqAntisymmetric(a[1..], b[1..]);
      assert a == [a[0]] + a[1..] && b == [b[0]] + b[1..];
    }
  }

  /** OrderBy(e => e.LastName).ThenBy(e => e.FirstName), as an ordering. */
  predicate NameLeq(x: Employee, y: Employee) {
    if x.lastName == y.lastName then LexLeq(x.firstName, y.firstName) else LexLeq(x.lastName, y.lastName)
  }

  const NameOrder: (Employee, Employee) -> bool := (x: Employee, y: Employee) => NameLeq(x, y)

  lemma NameOrderIsOrdering()
    ensures Total(NameOrder) && Transitive(NameOrder)
  {
    forall x: Employee, y: Employee ensures NameOrder(x, y) || NameOrder(y, x) {
      LexLeqTotal(x.lastName, y.lastName);
      LexLeqTotal(x.firstName, y.firstName);
    }
    forall x: Employee, y: Employee, z: Employee | NameOrder(x, y) && NameOrder(y, z) ensures NameOrder(x, z) {
      if x.lastName == y.lastName == z.lastName {
        LexLeqTransitive(x.firstName, y.firstName, z.firstName);
      } else if x.lastName == z.lastName {
        if x.lastName != y.lastName && y.lastName != z.lastName {
          LexLeqAntisymmetric(x.lastName, y.lastName);
        }
      } else if x.lastName != y.lastName && y.lastName != z.lastName {
        LexLeqTransitive(x.lastName, y.lastName, z.lastName);
      }
    }
  }

  lemma {:induction false} LexLeqReflexive(a: string)
    ensures LexLeq(a, a)
    decreases |a|
  {
    if a != [] {
      LexLeqReflexive(a[1..]);
    }
  }

  /** Name order sorts by last name first, and by first name among equal last names. */
  lemma NameLeqByLastName(x: Employee, y: Employee)
    requires NameLeq(x, y)
    ensures LexLeq(x.lastName, y.lastName)
    ensures x.lastName == y.lastName ==> LexLeq(x.firstName, y.firstName)
  {
    if x.lastName == y.lastName {
      LexLeqReflexive(x.lastName);
    }
  }

  /** A member of the team: same department, not the current employee. */
  predicate InTeam(e: Employee, current: Employee) {
    e.departmentId == current.departmentId && e.id != current.id
  }

  /** The query of LoadTeamData: the team in name order. */
  function TeamOf(employees: seq<Employee>, current: Employee): seq<Employee> {
    NameOrderIsOrdering();
    SortBy(Filter(employees, (e: Employee) => InTeam(e, current)), NameOrder)
  }

  /**
   * The team is exactly the department's other employees, each as often as in the table, sorted
   * by last name and, among equal last names, by first name.
   */
  lemma TeamOfContents(employees: seq<Employee>, current: Employee)
    ensures var r := TeamOf(employees, current);
      && (forall e :: e in r <==> e in employees && InTeam(e, current))
      && multiset(r) == multiset(Filter(employees, (e: Employee) => InTeam(e, current)))
      && forall i, j :: 0 <= i < j < |r| ==>
           && LexLeq(r[i].lastName, r[j].lastName)
           && (r[i].lastName == r[j].lastName ==> LexLeq(r[i].firstName, r[j].firstName))
  {
    NameOrderIsOrdering();
    var team := Filter(employees, (e: Employee) => InTeam(e, current));
    var r := TeamOf(employees, current);
    forall e ensures e in r <==> e in team {
      assert e in r <==> e in multiset(r);
      assert e in team <==> e in multiset(team);
    }
    forall i, j | 0 <= i < j < |r|
      ensures LexLeq(r[i].lastName, r[j].lastName)
      ensures r[i].lastName == r[j].lastName ==> LexLeq(r[i].firstName, r[j].firstName)
    {
      NameLeqByLastName(r[i], r[j]);
    }
  }

  /** GetInitials: "??" unless both names are non-empty, else their first letters, upper-cased. */
  function GetInitials(firstName: string, lastName: string): (r: string)
    ensures |r| == 2
    ensures firstName == "" || lastName == "" ==> r == "??"
    ensures firstName != "" && lastName != "" ==> r[0] == UpperChar(firstName[0]) && r[1] == UpperChar(lastName[0])
  {
    if firstName == "" || lastName == "" then "??"
    else [UpperChar(firstName[0]), UpperChar(lastName[0])]
  }

  /** Upper-casing a character twice changes nothing. */
  lemma UpperCharIdempotent(c: char)
    ensures UpperChar(UpperChar(c)) == UpperChar(c)
  {
  }

  /** The initials are already upper case: upper-casing them again changes nothing. */
  lemma InitialsOfNames(firstName: string, lastName: string)
    ensures Upper(GetInitials(firstName, lastName)) == GetInitials(firstName, lastName)
  {
    var r := GetInitials(firstName, lastName);
    UpperCharIdempotent(r[0]);
    UpperCharIdempotent(r[1]);
    assert Upper(r) == [UpperChar(r[0]), UpperChar(r[1])];
  }

  /** SelectedEmployeeTasksInfo: "" (cleared) or the three counts it shows. */
  datatype TasksInfo = NoTasksInfo | Counts(total: int, active: int, completed: int)

  /** UpdateEmployeeTasksInfo's counts for one employee. */
  function TaskCounts(tasks: seq<Task>, employeeId: int): (r: TasksInfo)
    ensures r.Counts?
    ensures r.total == |Filter(tasks, (t: Task) => t.assignedTo == employeeId)|
    ensures r.active + r.completed == r.total
    ensures r.completed == |Filter(Filter(tasks, (t: Task) => t.assignedTo == employeeId), (t: Task) => t.status == StatusDone)|
  {
    var employeeTasks := Filter(tasks, (t: Task) => t.assignedTo == employeeId);
    var active := Filter(employeeTasks, (t: Task) => t.status != StatusDone);
    var completed := Filter(employeeTasks, (t: Task) => t.status == StatusDone);
    FilterComplementLength(employeeTasks, (t: Task) => t.status == StatusDone, (t: Task) => t.status != StatusDone);
    Counts(|employeeTasks|, |active|, |completed|)
  }

  // The texts of ClearEmployeeInfo.
  const NoSelectionName: string := "Выберите сотрудника"
  const NoInitials: string := "??"

  class TeamViewModel {
    /** The context's employee and task tables. */
    var employees: seq<Employee>
    var tasks: seq<Task>
    const current: Employee

    var teamEmployees: seq<Employee>
    var selectedEmployee: Option<Employee>
    // The selected member's details; a C# null text reads as "".
    var fullName: string
    var position: string
    var email: string
    var initials: string
    var tasksInfo: TasksInfo

    /** The details shown for the current selection. */
    predicate InfoMatchesSelection()
      reads this
    {
      match selectedEmployee
      case None =>
        fullName == NoSelectionName && position == "" && email == "" && initials == NoInitials && tasksInfo == NoTasksInfo
      case Some(e) =>
        && fullName == e.firstName + " " + e.lastName && position == e.position && email == e.email
        && initials == GetInitials(e.firstName, e.lastName) && tasksInfo == TaskCounts(tasks, e.id)
    }

    /** The constructor loads the team; the first member, if any, becomes selected. */
    constructor (employeeTable: seq<Employee>, taskTable: seq<Task>, currentEmployee: Employee)
      ensures employees == employeeTable && tasks == taskTable && current == currentEmployee
      ensures teamEmployees == TeamOf(employeeTable, currentEmployee)
      ensures teamEmployees == [] ==> selectedEmployee.None?
      ensures teamEmployees != [] ==> selectedEmployee == Some(teamEmployees[0]) && InfoMatchesSelection()
    {
      employees := employeeTable;
      tasks := taskTable;
      current := currentEmployee;
      teamEmployees := [];
      selectedEmployee := None;
      fullName, position, email, initials := "", "", "", "";
      tasksInfo := NoTasksInfo;
      new;
      LoadTeamData();
    }

    /** LoadTeamData: the team, and a first selection when nothing is selected yet. */
    method LoadTeamData()
      modifies this`teamEmployees, this`selectedEmployee
      modifies this`fullName, this`position, this`email, this`initials, this`tasksInfo
      ensures teamEmployees == TeamOf(employees, current)
      ensures old(selectedEmployee).Some? || teamEmployees == [] ==>
        && selectedEmployee == old(selectedEmployee)
        && fullName == old(fullName) && position == old(position) && email == old(email)
        && initials == old(initials) && tasksInfo == old(tasksInfo)
      ensures old(selectedEmployee).None? && teamEmployees != [] ==>
        selectedEmployee == Some(teamEmployees[0]) && InfoMatchesSelection()
    {
      teamEmployees := TeamOf(employees, current);
      if teamEmployees != [] && selectedEmployee.None? {
        SetSelectedEmployee(Some(teamEmployees[0]));
      }
    }

    /** The SelectedEmployee setter: stores the selection and always refreshes the details. */
    method SetSelectedEmployee(value: Option<Employee>)
      modifies this`selectedEmployee, this`fullName, this`position, this`email, this`initials, this`tasksInfo
      ensures selectedEmployee == value
      ensures InfoMatchesSelection()
    {
      selectedEmployee := value;
      UpdateSelectedEmployeeInfo();
    }

    /** UpdateSelectedEmployeeInfo: the details of the selected member, or the cleared details. */
    method UpdateSelectedEmployeeInfo()
      modifies this`fullName, this`position, this`email, this`initials, this`tasksInfo
      ensures InfoMatchesSelection()
    {
      if selectedEmployee.None? {
        ClearEmployeeInfo();
        return;
      }
      var e := selectedEmployee.value;
      fullName := e.firstName + " " + e.lastName;
      position := e.position;
      email := e.email;
      initials := GetInitials(e.firstName, e.lastName);
      UpdateEmployeeTasksInfo();
    }

    /** UpdateEmployeeTasksInfo: the selected member's total, active and completed task counts. */
    method UpdateEmployeeTasksInfo()
      requires selectedEmployee.Some?
      modifies this`tasksInfo
      ensures tasksInfo == TaskCounts(tasks, selectedEmployee.value.id)
      ensures tasksInfo.active + tasksInfo.completed == tasksInfo.total
    {
      tasksInfo := TaskCounts(tasks, selectedEmployee.value.id);
    }

    /** ClearEmployeeInfo: the placeholder name and initials, empty texts. */
    method ClearEmployeeInfo()
      modifies this`fullName, this`position, this`email, this`initials, this`tasksInfo
      ensures fullName == NoSelectionName && position == "" && email == "" && initials == NoInitials
      ensures tasksInfo == NoTasksInfo
    {
      fullName := NoSelectionName;
      position := "";
      email := "";
      initials := NoInitials;
      tasksInfo := NoTasksInfo;
    }
  }
}
