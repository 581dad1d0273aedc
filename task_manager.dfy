/**
 * TaskManagerViewModel: the manager's list of all tasks with three conjunctive filters
 * (search text, project, status), the cyclic status change of the selected task, and the
 * form that creates a task.
 */
module TaskManager {
  import opened Wrappers
  import opened Seqs
  import opened Text
  import opened Models

  /** The statuses in the order ChangeStatus cycles through them. */
  const StatusCycle: seq<string> := [StatusNew, StatusInProgress, StatusInReview, StatusDone]

  /** Array.IndexOf over the cycle: the position of `s`, or -1 when it is not listed. */
  function IndexOfStatus(s: string): (i: int)
    ensures -1 <= i < |StatusCycle|
    ensures i == -1 <==> s !in StatusCycle
    ensures i >= 0 ==> StatusCycle[i] == s
  {
    match FirstIndex(StatusCycle, x => x == s)
    case None => -1
    case Some(k) => k
  }

  /** ChangeStatus's successor: `statuses[(IndexOf(statuses, s) + 1) % 4]`. */
  function NextStatus(s: string): (r: string)
    ensures r in StatusCycle
    ensures s == StatusNew ==> r == StatusInProgress
    ensures s == StatusInProgress ==> r == StatusInReview
    ensures s == StatusInReview ==> r == StatusDone
    ensures s == StatusDone ==> r == StatusNew
    ensures s !in StatusCycle ==> r == StatusNew
  {
    // IndexOf gives -1 for an unlisted status, and (-1 + 1) % 4 is 0 under C#'s and Dafny's `%` alike.
    StatusCycle[(IndexOfStatus(s) + 1) % |StatusCycle|]
  }

  /** Four status changes bring a task back to where it started exactly when its status is listed. */
  lemma NextStatusFourTimes(s: string)
    ensures NextStatus(NextStatus(NextStatus(NextStatus(s)))) == s <==> s in StatusCycle
  {
    var s1 := NextStatus(s);
    var s2 := NextStatus(s1);
    var s3 := NextStatus(s2);
    if s !in StatusCycle {
      // An unlisted status restarts the cycle and ends on the last listed status, not on itself.
      assert s1 == StatusNew && s2 == StatusInProgress && s3 == StatusInReview;
      assert NextStatus(s3) == StatusDone;
    }
  }

  /** All three filters of FilterTasks at once: each one is either switched off or satisfied. */
  predicate MatchesFilters(t: Task, search: string, project: Option<Project>, status: string) {
    && (IsBlank(search) || MatchesSearch(t, search))
    && (project.None? || t.projectId == project.value.id)
    && (status == StatusAll || t.status == status)
  }

  /** The Where chain of FilterTasks over the loaded list of all tasks. */
  function MatchingTasks(all: seq<Task>, search: string, project: Option<Project>, status: string): (r: seq<Task>)
    ensures forall t :: t in r <==> t in all && MatchesFilters(t, search, project, status)
    ensures IsBlank(search) && project.None? && status == StatusAll ==> r == all
  {
    var bySearch := if IsBlank(search) then all else Filter(all, (t: Task) => MatchesSearch(t, search));
    var byProject := if project.None? then bySearch else Filter(bySearch, (t: Task) => t.projectId == project.value.id);
    if status == StatusAll then byProject else Filter(byProject, (t: Task) => t.status == status)
  }

  /** FilterTasks keeps the tasks it selects in the order of the full list: a subsequence of it. */
  lemma MatchingTasksIsSubsequence(all: seq<Task>, search: string, project: Option<Project>, status: string)
    ensures IsSubsequence(MatchingTasks(all, search, project, status), all)
  {
    var bySearch := if IsBlank(search) then all else Filter(all, (t: Task) => MatchesSearch(t, search));
    var byProject := if project.None? then bySearch else Filter(bySearch, (t: Task) => t.projectId == project.value.id);
    var r := if status == StatusAll then byProject else Filter(byProject, (t: Task) => t.status == status);
    SubsequenceReflexive(all);
    SubsequenceReflexive(bySearch);
    SubsequenceReflexive(byProject);
    if !IsBlank(search) {
      FilterIsSubsequence(all, (t: Task) => MatchesSearch(t, search));
    }
    if project.Some? {
      FilterIsSubsequence(bySearch, (t: Task) => t.projectId == project.value.id);
    }
    if status != StatusAll {
      FilterIsSubsequence(byProject, (t: Task) => t.status == status);
    }
    SubsequenceTransitive(byProject, bySearch, all);
    SubsequenceTransitive(r, byProject, all);
  }

  /** The chain of Where clauses selects exactly what the single conjunctive filter selects. */
  lemma FilterTasksIsConjunction(all: seq<Task>, search: string, project: Option<Project>, status: string)
    ensures MatchingTasks(all, search, project, status) == Filter(all, t => MatchesFilters(t, search, project, status))
  {
    var p1 := (t: Task) => IsBlank(search) || MatchesSearch(t, search);
    var q2 := (t: Task) => project.Some? && t.projectId == project.value.id;
    var p12 := (t: Task) => p1(t) && (project.None? || t.projectId == project.value.id);
    var q3 := (t: Task) => t.status == status;
    var p123 := (t: Task) => MatchesFilters(t, search, project, status);

    var bySearch := if IsBlank(search) then all else Filter(all, (t: Task) => MatchesSearch(t, search));
    if IsBlank(search) {
      FilterAll(all, p1);
    } else {
      FilterSamePredicate(all, (t: Task) => MatchesSearch(t, search), p1);
    }
    assert bySearch == Filter(all, p1);

    var byProject := if project.None? then bySearch else Filter(bySearch, (t: Task) => t.projectId == project.value.id);
    if project.None? {
      FilterSamePredicate(all, p1, p12);
    } else {
      FilterSamePredicate(bySearch, (t: Task) => t.projectId == project.value.id, q2);
      FilterFilter(all, p1, q2, p12);
    }
    assert byProject == Filter(all, p12);

    if status == StatusAll {
      FilterSamePredicate(all, p12, p123);
    } else {
      FilterFilter(all, p12, q3, p123);
    }
  }

  /** What CanCreateTask demands of the form: a title, an assignee, a project and a status. */
  predicate CanCreate(title: string, employee: Option<Employee>, project: Option<Project>, status: string) {
    !IsBlank(title) && employee.Some? && project.Some? && !IsBlank(status)
  }

  /** The checks CreateTask makes, in the order it makes them. */
  datatype FormError = MissingTitle | MissingAssignee | MissingProject

  /** CreateTask's validation and the record it inserts (the database assigns `id`). */
  function NewTask(title: string, description: Option<string>, project: Option<Project>,
                   employee: Option<Employee>, status: string, id: int): (r: Result<Task, FormError>)
    ensures r == Err(MissingTitle) <==> IsBlank(title)
    ensures r == Err(MissingAssignee) <==> !IsBlank(title) && employee.None?
    ensures r == Err(MissingProject) <==> !IsBlank(title) && employee.Some? && project.None?
    ensures r.Ok? <==> !IsBlank(title) && employee.Some? && project.Some?
    ensures r.Ok? ==>
      && r.value.id == id
      && r.value.title == Trim(title) && r.value.title != []
      && r.value.description == (if description.Some? then Some(Trim(description.value)) else None)
      && r.value.status == status
      && r.value.projectId == project.value.id
      && r.value.assignedTo == employee.value.id
  {
    if IsBlank(title) then Err(MissingTitle)
    else if employee.None? then Err(MissingAssignee)
    else if project.None? then Err(MissingProject)
    else
      TrimEmptyIffBlank(title);
      var d := match description case None => None case Some(s) => Some(Trim(s));
      Ok(Task(id, Trim(title), d, status, project.value.id, employee.value.id))
  }

  /** Whenever the command is enabled, CreateTask's own checks pass. */
  lemma CanCreateTaskPassesChecks(title: string, description: Option<string>, project: Option<Project>,
                                   employee: Option<Employee>, status: string, id: int)
    requires CanCreate(title, employee, project, status)
    ensures NewTask(title, description, project, employee, status, id).Ok?
  {
  }

  /** The converse fails: CreateTask itself does not check the status, so a blank status gets through. */
  lemma ChecksIgnoreStatus(p: Project, e: Employee, id: int)
    ensures NewTask("x", None, Some(p), Some(e), "", id).Ok?
    ensures !CanCreate("x", Some(e), Some(p), "")
  {
    assert !IsBlank("x") by { assert !IsWhiteSpace("x"[0]); }
  }

  /** The first project with the given Id, as `Projects.FirstOrDefault(p => p.Id == id)`. */
  function ProjectById(projects: seq<Project>, id: int): (r: Option<Project>)
    ensures r.None? <==> forall i :: 0 <= i < |projects| ==> projects[i].id != id
    ensures r.Some? ==> r.value in projects && r.value.id == id
  {
    FirstWhere(projects, (p: Project) => p.id == id)
  }

  /** The first employee with the given Id, as `Employees.FirstOrDefault(e => e.Id == id)`. */
  function EmployeeById(employees: seq<Employee>, id: int): (r: Option<Employee>)
    ensures r.None? <==> forall i :: 0 <= i < |employees| ==> employees[i].id != id
    ensures r.Some? ==> r.value in employees && r.value.id == id
  {
    FirstWhere(employees, (e: Employee) => e.id == id)
  }

  /** The outcome of SetProperty: whether the field changed (and PropertyChanged was raised), and its value. */
  datatype Assigned<T> = Assigned(changed: bool, field: T)

  /** SetProperty: an equal value leaves the field alone and reports false; a different one is stored. */
  function SetProperty<T(==)>(field: T, value: T): (r: Assigned<T>)
    ensures r.field == value
    ensures r.changed <==> field != value
  {
    if field == value then Assigned(false, field) else Assigned(true, value)
  }

  /** Setting the same value twice raises PropertyChanged at most once. */
  lemma SetPropertyTwice<T>(field: T, value: T)
    ensures !SetProperty(SetProperty(field, value).field, value).changed
  {
  }

  class TaskManagerViewModel {
    // The context's tables.
    var taskTable: seq<Task>
    var projectTable: seq<Project>
    var employeeTable: seq<Employee>

    // The view-model's state; a null list is None.
    var allTasks: Option<seq<Task>>
    var filteredTasks: Option<seq<Task>>
    var projects: seq<Project>
    var employees: seq<Employee>
    var selectedTask: Option<Task>
    var searchText: string
    var selectedProjectFilter: Option<Project>
    var selectedStatusFilter: string

    // The task form.
    var newTaskTitle: string
    var newTaskDescription: Option<string>
    var selectedProjectForNewTask: Option<Project>
    var selectedEmployeeForNewTask: Option<Employee>
    var selectedStatusForNewTask: string

    /** The form as ClearForm leaves it. */
    predicate FormCleared()
      reads this
    {
      && newTaskTitle == ""
      && newTaskDescription == Some("")
      && selectedStatusForNewTask == StatusNew
      && selectedProjectForNewTask.None?
      && selectedEmployeeForNewTask.None?
    }

    /** CanCreateTask: the guard of the create command. */
    predicate CanCreateTask()
      reads this
    {
      CanCreate(newTaskTitle, selectedEmployeeForNewTask, selectedProjectForNewTask, selectedStatusForNewTask)
    }

    /** The view-model over the given tables; `loadOk` is false when loading the tasks throws. */
    constructor (tasks: seq<Task>, projectRows: seq<Project>, employeeRows: seq<Employee>, loadOk: bool)
      ensures taskTable == tasks && projectTable == projectRows && employeeTable == employeeRows
      ensures selectedTask.None? && searchText == "" && selectedProjectFilter.None?
      ensures selectedStatusFilter == StatusAll
      ensures loadOk ==> allTasks == Some(tasks) && filteredTasks == Some(tasks)
      ensures loadOk ==> projects == projectRows && employees == employeeRows && FormCleared()
      ensures !loadOk ==> allTasks.None? && filteredTasks.None? && projects == [] && employees == []
    {
      taskTable, projectTable, employeeTable := tasks, projectRows, employeeRows;
      allTasks, filteredTasks := None, None;
      projects, employees := [], [];
      selectedTask := None;
      searchText, selectedProjectFilter, selectedStatusFilter := "", None, StatusAll;
      newTaskTitle, newTaskDescription := "", None;
      selectedProjectForNewTask, selectedEmployeeForNewTask := None, None;
      selectedStatusForNewTask := StatusNew;
      new;
      LoadData(loadOk);
    }

    /** LoadData: reads the three tables and clears the form; `loadOk` is false when the first read throws. */
    method LoadData(loadOk: bool)
      modifies this`allTasks, this`filteredTasks, this`projects, this`employees
      modifies this`newTaskTitle, this`newTaskDescription, this`selectedStatusForNewTask
      modifies this`selectedProjectForNewTask, this`selectedEmployeeForNewTask
      ensures !loadOk ==> unchanged(this)
      ensures loadOk ==> allTasks == Some(taskTable) && filteredTasks == Some(taskTable)
      ensures loadOk ==> projects == projectTable && employees == employeeTable && FormCleared()
    {
      if loadOk {
        allTasks := Some(taskTable);
        filteredTasks := allTasks;
        projects := projectTable;
        employees := employeeTable;
        ClearForm();
      }
    }

    /** FilterTasks: recomputes the visible list from all tasks; does nothing before a successful load. */
    method FilterTasks()
      modifies this`filteredTasks
      ensures allTasks.None? ==> filteredTasks == old(filteredTasks)
      ensures allTasks.Some? ==>
        filteredTasks == Some(MatchingTasks(allTasks.value, searchText, selectedProjectFilter, selectedStatusFilter))
    {
      if allTasks.Some? {
        filteredTasks := Some(MatchingTasks(allTasks.value, searchText, selectedProjectFilter, selectedStatusFilter));
      }
    }

    /** The SearchText setter: stores the text and refilters. */
    method SetSearchText(value: string)
      modifies this`searchText, this`filteredTasks
      ensures searchText == value
      ensures allTasks.None? ==> filteredTasks == old(filteredTasks)
      ensures allTasks.Some? ==>
        filteredTasks == Some(MatchingTasks(allTasks.value, value, selectedProjectFilter, selectedStatusFilter))
    {
      searchText := value;
      FilterTasks();
    }

    /** The SelectedProjectFilter setter: stores the project (null for none) and refilters. */
    method SetProjectFilter(value: Option<Project>)
      modifies this`selectedProjectFilter, this`filteredTasks
      ensures selectedProjectFilter == value
      ensures allTasks.None? ==> filteredTasks == old(filteredTasks)
      ensures allTasks.Some? ==>
        filteredTasks == Some(MatchingTasks(allTasks.value, searchText, value, selectedStatusFilter))
    {
      selectedProjectFilter := value;
      FilterTasks();
    }

    /** The SelectedStatusFilter setter: stores the status ("Все" for all) and refilters. */
    method SetStatusFilter(value: string)
      modifies this`selectedStatusFilter, this`filteredTasks
      ensures selectedStatusFilter == value
      ensures allTasks.None? ==> filteredTasks == old(filteredTasks)
      ensures allTasks.Some? ==>
        filteredTasks == Some(MatchingTasks(allTasks.value, searchText, selectedProjectFilter, value))
    {
      selectedStatusFilter := value;
      FilterTasks();
    }

    /** The SelectedTask setter (the user picks a row). */
    method SelectTask(task: Option<Task>)
      modifies this`selectedTask
      ensures selectedTask == task
    {
      selectedTask := task;
    }

    /**
     * ChangeStatus: advances the selected task along the status cycle. The task is a tracked
     * entity shared by the table and both lists, so every copy with its Id changes; the list is
     * refiltered only when saving succeeds.
     */
    method ChangeStatus(saveOk: bool)
      modifies this`selectedTask, this`taskTable, this`allTasks, this`filteredTasks
      ensures old(selectedTask).None? ==>
        selectedTask == old(selectedTask) && taskTable == old(taskTable) &&
        allTasks == old(allTasks) && filteredTasks == old(filteredTasks)
      ensures old(selectedTask).Some? ==>
        var t := old(selectedTask).value;
        var u := t.(status := NextStatus(t.status));
        && selectedTask == Some(u)
        && taskTable == ReplaceById(old(taskTable), u)
        && allTasks == ReplaceInList(old(allTasks), u)
        && filteredTasks == (
             if saveOk && allTasks.Some?
             then Some(MatchingTasks(allTasks.value, searchText, selectedProjectFilter, selectedStatusFilter))
             else ReplaceInList(old(filteredTasks), u))
    {
      if selectedTask.Some? {
        var t := selectedTask.value;
        var u := t.(status := NextStatus(t.status));
        selectedTask := Some(u);
        taskTable := ReplaceById(taskTable, u);
        allTasks := ReplaceInList(allTasks, u);
        filteredTasks := ReplaceInList(filteredTasks, u);
        if saveOk {
          FilterTasks();
        }
      }
    }

    /** ClearForm: empties the form and resets its status to "Новая". */
    method ClearForm()
      modifies this`newTaskTitle, this`newTaskDescription, this`selectedStatusForNewTask
      modifies this`selectedProjectForNewTask, this`selectedEmployeeForNewTask
      ensures FormCleared()
    {
      newTaskTitle := "";
      newTaskDescription := Some("");
      selectedStatusForNewTask := StatusNew;
      selectedProjectForNewTask := None;
      selectedEmployeeForNewTask := None;
    }

    /** EditTask: copies the selected task, its project and its assignee into the form. */
    method EditTask()
      modifies this`newTaskTitle, this`newTaskDescription, this`selectedStatusForNewTask
      modifies this`selectedProjectForNewTask, this`selectedEmployeeForNewTask
      ensures old(selectedTask).None? ==> unchanged(this)
      ensures selectedTask.Some? ==>
        && newTaskTitle == selectedTask.value.title
        && newTaskDescription == selectedTask.value.description
        && selectedStatusForNewTask == selectedTask.value.status
        && selectedProjectForNewTask == ProjectById(projects, selectedTask.value.projectId)
        && selectedEmployeeForNewTask == EmployeeById(employees, selectedTask.value.assignedTo)
    {
      if selectedTask.Some? {
        var t := selectedTask.value;
        newTaskTitle := t.title;
        newTaskDescription := t.description;
        selectedStatusForNewTask := t.status;
        selectedProjectForNewTask := ProjectById(projects, t.projectId);
        selectedEmployeeForNewTask := EmployeeById(employees, t.assignedTo);
      }
    }

    /**
     * CreateTask: validates the form and inserts the task; after a successful save the tables are
     * reloaded and the form cleared. A failed check or a failed save changes nothing.
     */
    method CreateTask(newId: int, saveOk: bool)
      modifies this`taskTable, this`allTasks, this`filteredTasks, this`projects, this`employees
      modifies this`newTaskTitle, this`newTaskDescription, this`selectedStatusForNewTask
      modifies this`selectedProjectForNewTask, this`selectedEmployeeForNewTask
      ensures
        var v := NewTask(old(newTaskTitle), old(newTaskDescription), old(selectedProjectForNewTask),
                         old(selectedEmployeeForNewTask), old(selectedStatusForNewTask), newId);
        if v.Err? || !saveOk then
          unchanged(this)
        else
          && taskTable == old(taskTable) + [v.value]
          && allTasks == Some(taskTable) && filteredTasks == Some(taskTable)
          && projects == projectTable && employees == employeeTable
          && FormCleared()
    {
      var v := NewTask(newTaskTitle, newTaskDescription, selectedProjectForNewTask,
                       selectedEmployeeForNewTask, selectedStatusForNewTask, newId);
      if v.Ok? && saveOk {
        taskTable := taskTable + [v.value];
        LoadData(true);
        ClearForm();
      }
    }
  }
}
