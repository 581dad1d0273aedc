/**
 * MyTasksViewModel: an employee's own tasks, newest first, filtered by search text and status,
 * and the two workflow steps the employee may take: start a new task, complete a task in
 * progress or in review.
 */
module MyTasks {
  import opened Wrappers
  import opened Seqs
  import opened Text
  import opened Models

  /** The order of OrderByDescending(t => t.Id). */
  const IdDescending: (Task, Task) -> bool := (a: Task, b: Task) => a.id >= b.id

  lemma IdDescendingIsOrdering()
    ensures Total(IdDescending) && Transitive(IdDescending)
  {
  }

  /** The rows of a table are distinct entities: no two share an Id (the primary key). */
  predicate UniqueIds(s: seq<Task>) {
    forall i, j :: 0 <= i < j < |s| ==> s[i].id != s[j].id
  }

  /** The tasks assigned to the employee, sorted by Id descending: the query of LoadMyTasks. */
  function AssignedTasks(table: seq<Task>, employeeId: int): (r: seq<Task>)
    ensures forall t :: t in r <==> t in table && t.assignedTo == employeeId
    ensures multiset(r) == multiset(Filter(table, (t: Task) => t.assignedTo == employeeId))
    ensures forall i, j :: 0 <= i < j < |r| ==> r[i].id >= r[j].id
  {
    IdDescendingIsOrdering();
    var mine := Filter(table, (t: Task) => t.assignedTo == employeeId);
    var r := SortBy(mine, IdDescending);
    SameElements(r, mine);
    r
  }

  /** A task FilterTasks shows: assigned to the employee, matching a non-blank search, with the chosen status unless "Все". */
  predicate Shown(t: Task, employeeId: int, search: string, status: string) {
    && t.assignedTo == employeeId
    && (IsBlank(search) || MatchesSearch(t, search))
    && (status == StatusAll || t.status == status)
  }

  /** FilterTasks' result: re-queried from all assigned tasks, filtered, then sorted by Id descending. */
  function FilteredAssignedTasks(table: seq<Task>, employeeId: int, search: string, status: string): (r: seq<Task>)
    ensures forall t :: t in r <==>
      && t in table && t.assignedTo == employeeId
      && (IsBlank(search) || MatchesSearch(t, search))
      && (status == StatusAll || t.status == status)
    ensures multiset(r) == multiset(Filter(table, t => Shown(t, employeeId, search, status)))
    ensures forall i, j :: 0 <= i < j < |r| ==> r[i].id >= r[j].id
    ensures IsBlank(search) && status == StatusAll ==> r == AssignedTasks(table, employeeId)
  {
    FilterChainIsConjunction(table, employeeId, search, status);
    var all := Filter(table, (t: Task) => t.assignedTo == employeeId);
    var bySearch := if IsBlank(search) then all else Filter(all, (t: Task) => MatchesSearch(t, search));
    var byStatus := if status == StatusAll then bySearch else Filter(bySearch, (t: Task) => t.status == status);
    IdDescendingIsOrdering();
    var r := SortBy(byStatus, IdDescending);
    SameElements(r, byStatus);
    r
  }

  /** The chain of Where clauses in FilterTasks selects exactly what the single conjunctive filter selects. */
  lemma FilterChainIsConjunction(table: seq<Task>, employeeId: int, search: string, status: string)
    ensures var all := Filter(table, (t: Task) => t.assignedTo == employeeId);
      var bySearch := if IsBlank(search) then all else Filter(all, (t: Task) => MatchesSearch(t, search));
      var byStatus := if status == StatusAll then bySearch else Filter(bySearch, (t: Task) => t.status == status);
      byStatus == Filter(table, t => Shown(t, employeeId, search, status))
  {
    var pA := (t: Task) => t.assignedTo == employeeId;
    var pAS := (t: Task) => t.assignedTo == employeeId && (IsBlank(search) || MatchesSearch(t, search));
    var q3 := (t: Task) => t.status == status;
    var pShown := (t: Task) => Shown(t, employeeId, search, status);

    var all := Filter(table, pA);
    var bySearch := if IsBlank(search) then all else Filter(all, (t: Task) => MatchesSearch(t, search));
    if IsBlank(search) {
      FilterSamePredicate(table, pA, pAS);
    } else {
      FilterFilter(table, pA, (t: Task) => MatchesSearch(t, search), pAS);
    }
    assert bySearch == Filter(table, pAS);

    if status == StatusAll {
      FilterSamePredicate(table, pAS, pShown);
    } else {
      FilterFilter(table, pAS, q3, pShown);
    }
  }

  /** With unique primary keys the filtered list has strictly descending Ids, so no task is shown twice. */
  lemma FilteredStrictlyDescending(table: seq<Task>, employeeId: int, search: string, status: string)
    requires UniqueIds(table)
    ensures var r := FilteredAssignedTasks(table, employeeId, search, status);
      forall i, j :: 0 <= i < j < |r| ==> r[i].id > r[j].id
  {
    var r := FilteredAssignedTasks(table, employeeId, search, status);
    FilterMultiset(table, t => Shown(t, employeeId, search, status));
    forall i, j | 0 <= i < j < |r| ensures r[i].id > r[j].id {
      if r[i].id == r[j].id {
        SameIdSameTask(table, r[i], r[j]);
        CountOfRepeated(r, i, j);
        UniqueIdsCountOnce(table, r[i]);
        assert false;
      }
    }
  }

  /** Lists that are permutations of each other hold the same elements. */
  lemma SameElements(a: seq<Task>, b: seq<Task>)
    requires multiset(a) == multiset(b)
    ensures forall t :: t in a <==> t in b
  {
    forall t ensures t in a <==> t in b {
      assert t in a <==> t in multiset(a);
      assert t in b <==> t in multiset(b);
    }
  }

  /** Two equal elements at different positions make an element count of at least two. */
  lemma CountOfRepeated<T>(s: seq<T>, i: int, j: int)
    requires 0 <= i < j < |s| && s[i] == s[j]
    ensures multiset(s)[s[i]] >= 2
  {
    assert s == s[..j] + s[j..];
    assert s[i] in s[..j];
    assert s[j] in s[j..];
  }

  /** With unique keys each task occurs at most once in the table. */
  lemma {:induction false} UniqueIdsCountOnce(s: seq<Task>, t: Task)
    requires UniqueIds(s)
    ensures multiset(s)[t] <= 1
  {
    if s != [] {
      assert s == [s[0]] + s[1..];
      assert UniqueIds(s[1..]);
      UniqueIdsCountOnce(s[1..], t);
      if s[0] == t {
        forall k | 0 <= k < |s[1..]| ensures s[1..][k] != t {
          assert s[1..][k].id == s[k + 1].id != s[0].id;
        }
        assert t !in s[1..];
      }
    }
  }

  /** With unique keys, two rows with the same Id are the same row. */
  lemma SameIdSameTask(table: seq<Task>, x: Task, y: Task)
    requires UniqueIds(table) && x in table && y in table && x.id == y.id
    ensures x == y
  {
    var a :| 0 <= a < |table| && table[a] == x;
    var b :| 0 <= b < |table| && table[b] == y;
  }

  /** With unique keys, "Id descending" is strict: no Id repeats in the employee's list. */
  lemma AssignedTasksStrictlyDescending(table: seq<Task>, employeeId: int)
    requires UniqueIds(table)
    ensures var r := AssignedTasks(table, employeeId);
      forall i, j :: 0 <= i < j < |r| ==> r[i].id > r[j].id
  {
    var r := AssignedTasks(table, employeeId);
    var f := Filter(table, (t: Task) => t.assignedTo == employeeId);
    FilterMultiset(table, (t: Task) => t.assignedTo == employeeId);
    forall i, j | 0 <= i < j < |r| ensures r[i].id > r[j].id {
      if r[i].id == r[j].id {
        SameIdSameTask(table, r[i], r[j]);
        CountOfRepeated(r, i, j);
        UniqueIdsCountOnce(table, r[i]);
        assert false;
      }
    }
  }

  /** CanStartTask: a task is selected and it is new. */
  predicate CanStart(selected: Option<Task>) {
    selected.Some? && selected.value.status == StatusNew
  }

  /** CanCompleteTask: a task is selected and it is in progress or in review. */
  predicate CanComplete(selected: Option<Task>) {
    selected.Some? && (selected.value.status == StatusInProgress || selected.value.status == StatusInReview)
  }

  /** No task can be both started and completed, and a completed task can be neither. */
  lemma WorkflowGuards(selected: Option<Task>)
    ensures !(CanStart(selected) && CanComplete(selected))
    ensures selected.Some? && selected.value.status == StatusDone ==> !CanStart(selected) && !CanComplete(selected)
  {
  }

  /** A task that can be started can be completed once its status is В работе. */
  lemma StartThenComplete(t: Task)
    requires CanStart(Some(t))
    ensures CanComplete(Some(t.(status := StatusInProgress)))
  {
  }

  class MyTasksViewModel {
    /** The context's task table. */
    var table: seq<Task>
    /** The current employee's Id. */
    const employeeId: int

    var myTasks: Option<seq<Task>>
    var selectedTask: Option<Task>
    var searchText: string
    var selectedStatusFilter: string

    /** The view-model for one employee; `loadOk` is false when the first load throws. */
    constructor (tasks: seq<Task>, currentEmployeeId: int, loadOk: bool)
      ensures table == tasks && employeeId == currentEmployeeId
      ensures selectedTask.None? && searchText == "" && selectedStatusFilter == StatusAll
      ensures myTasks == if loadOk then Some(AssignedTasks(tasks, currentEmployeeId)) else None
    {
      table := tasks;
      employeeId := currentEmployeeId;
      myTasks := None;
      selectedTask := None;
      searchText := "";
      selectedStatusFilter := StatusAll;
      new;
      LoadMyTasks(loadOk);
    }

    /** CanStartTask. */
    predicate CanStartTask()
      reads this
    {
      CanStart(selectedTask)
    }

    /** CanCompleteTask. */
    predicate CanCompleteTask()
      reads this
    {
      CanComplete(selectedTask)
    }

    /** LoadMyTasks: the unfiltered assigned list; `loadOk` is false when the query throws. */
    method LoadMyTasks(loadOk: bool)
      modifies this`myTasks
      ensures myTasks == if loadOk then Some(AssignedTasks(table, employeeId)) else old(myTasks)
    {
      if loadOk {
        myTasks := Some(AssignedTasks(table, employeeId));
      }
    }

    /** FilterTasks: recomputed from all assigned tasks, whatever the list shows now; nothing before a load. */
    method FilterTasks()
      modifies this`myTasks
      ensures old(myTasks).None? ==> myTasks.None?
      ensures old(myTasks).Some? ==>
        myTasks == Some(FilteredAssignedTasks(table, employeeId, searchText, selectedStatusFilter))
    {
      if myTasks.Some? {
        myTasks := Some(FilteredAssignedTasks(table, employeeId, searchText, selectedStatusFilter));
      }
    }

    /** The SearchText setter: stores the text and refilters. */
    method SetSearchText(value: string)
      modifies this`searchText, this`myTasks
      ensures searchText == value
      ensures old(myTasks).None? ==> myTasks.None?
      ensures old(myTasks).Some? ==>
        myTasks == Some(FilteredAssignedTasks(table, employeeId, value, selectedStatusFilter))
    {
      searchText := value;
      FilterTasks();
    }

    /** The SelectedStatusFilter setter: stores the status and refilters. */
    method SetStatusFilter(value: string)
      modifies this`selectedStatusFilter, this`myTasks
      ensures selectedStatusFilter == value
      ensures old(myTasks).None? ==> myTasks.None?
      ensures old(myTasks).Some? ==>
        myTasks == Some(FilteredAssignedTasks(table, employeeId, searchText, value))
    {
      selectedStatusFilter := value;
      FilterTasks();
    }

    /** The SelectedTask setter. */
    method SelectTask(task: Option<Task>)
      modifies this`selectedTask
      ensures selectedTask == task
    {
      selectedTask := task;
    }

    /** SaveChanges: after a successful save the list is reloaded, unfiltered. */
    method SaveChanges(saveOk: bool)
      modifies this`myTasks
      ensures myTasks == if saveOk then Some(AssignedTasks(table, employeeId)) else old(myTasks)
    {
      if saveOk {
        LoadMyTasks(true);
      }
    }

    /** Sets the selected tracked task's status in place: every copy with its Id changes. */
    method SetSelectedStatus(status: string)
      requires selectedTask.Some?
      modifies this`selectedTask, this`table, this`myTasks
      ensures selectedTask == Some(old(selectedTask).value.(status := status))
      ensures table == ReplaceById(old(table), selectedTask.value)
      ensures myTasks == ReplaceInList(old(myTasks), selectedTask.value)
    {
      var u := selectedTask.value.(status := status);
      selectedTask := Some(u);
      table := ReplaceById(table, u);
      myTasks := ReplaceInList(myTasks, u);
    }

    /** StartTask: a new task goes to "В работе"; in any other state nothing changes. */
    method StartTask(saveOk: bool)
      modifies this`selectedTask, this`table, this`myTasks
      ensures !old(CanStartTask()) ==> unchanged(this)
      ensures old(CanStartTask()) ==>
        && selectedTask == Some(old(selectedTask).value.(status := StatusInProgress))
        && table == ReplaceById(old(table), selectedTask.value)
        && myTasks == (if saveOk then Some(AssignedTasks(table, employeeId))
                       else ReplaceInList(old(myTasks), selectedTask.value))
    {
      if selectedTask.Some? && selectedTask.value.status == StatusNew {
        SetSelectedStatus(StatusInProgress);
        SaveChanges(saveOk);
      }
    }

    /**
     * CompleteTask: a task in progress or in review goes to "Завершена" when the user confirms;
     * `confirmed` is the answer of the Yes/No dialog. Otherwise nothing changes.
     */
    method CompleteTask(confirmed: bool, saveOk: bool)
      modifies this`selectedTask, this`table, this`myTasks
      ensures !(old(CanCompleteTask()) && confirmed) ==> unchanged(this)
      ensures old(CanCompleteTask()) && confirmed ==>
        && selectedTask == Some(old(selectedTask).value.(status := StatusDone))
        && table == ReplaceById(old(table), selectedTask.value)
        && myTasks == (if saveOk then Some(AssignedTasks(table, employeeId))
                       else ReplaceInList(old(myTasks), selectedTask.value))
    {
      if selectedTask.Some? &&
         (selectedTask.value.status == StatusInProgress || selectedTask.value.status == StatusInReview) {
        if confirmed {
          SetSelectedStatus(StatusDone);
          SaveChanges(saveOk);
        }
      }
    }
  }
}
