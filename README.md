# TimeTracker view-models in Dafny

TimeTracker is a WPF desktop application for a company's employees. They track their working day, work on the tasks assigned to them, and read reports of their time. Managers create and cycle tasks, and view their department's team. New users register themselves. All of this lives in six view-models. Each reads and writes a Postgres database through an Entity Framework context.

This project models the decision logic of those view-models:

- **TaskManager** (`task_manager.dfy`). The manager's task list has three conjunctive filters: search text, project and status. The selected task's status cycles through four values. A form validates and creates a task.
- **MyTasks** (`my_tasks.dfy`). An employee's own tasks are listed newest (highest Id) first. Filtering always starts again from the full assigned list. There are two guarded workflow steps: start a new task, and complete a task that is in progress or in review.
- **WorkDay** (`work_day.dfy`). This models TimeTrackerViewModel, the work-day clock. Starting a day adds an open time entry. Ending it closes the first entry of today that is open in the database, with the whole minutes elapsed. The elapsed-time text and today's summary are also modelled. The class keeps the stored rows apart from the context's tracked values and its pending additions, so retries after a failed save behave as in the source.
- **Reports** (`reports.dfy`). This is the report over an inclusive range of days. It has the total and per-day sums, the day sections in ascending date order with their entries in ascending start order, and the completed-tasks section.
- **Team** (`team.dfy`). TeamManagementViewModel shows the current employee's department without the employee themselves. The team is sorted by last name, then first name. It also shows the selected member's initials and task counts.
- **Register** (`register.dfy`). RegisterViewModel has an eight-condition enable predicate. It rejects an email already stored and maps the form onto the new employee. An employee whose save failed stays pending and is inserted by the next successful save.

The shared modules are:

- `wrappers.dfy`: Option and Result.
- `seqs.dfy`: the LINQ operators used. Where is `Filter`, FirstOrDefault is `FirstWhere`, Sum is `SumOf`, and OrderBy is `SortBy`, an insertion sort.
- `text.dfy`: IsNullOrWhiteSpace, Trim, ToUpper and Contains with OrdinalIgnoreCase.
- `models.dfy`: the entities, and the C# integer arithmetic on minutes.

How the source's environment is represented:

- **Tables.** Each database table is a `seq` field of the view-model's class.
- **Saves.** A save that can throw takes a boolean `saveOk`. A load that can throw takes `loadOk`.
- **Change tracking.** In WorkDay and Register a failed `SaveChanges` keeps its pending changes, as Entity Framework's change tracker does: added entities stay pending (`added`, `pending`), and a changed row keeps its tracked value (`entries`) while the stored row (`saved`) is unchanged. Queries select on the stored rows and return the tracked values. The next successful save writes everything pending.
- **Dialogs.** A confirmation dialog becomes a boolean parameter.
- **Time.** `DateTime.Now` is an integer number of seconds. A date is the day number `t / 86400`.
- **Shared objects.** The source changes a tracked entity in place, and every list holding that object sees the change. The model applies the same change by primary key to every list that holds the entity (`Models.ReplaceById`).
- **Message strings.** Formatted messages are datatypes that carry the values the source formats: `WorkDay.Summary`, `Team.TasksInfo` and `Reports.ReportPiece`.

## Model

| member | source | states |
|---|---|---|
| Models.CsDiv | TimeTracker/ViewModels/TimeTrackerViewModel.cs:131 | C#'s `/` truncates toward zero: the remainder lies in [0, b) for a non-negative dividend and in (-b, 0] for a negative one |
| Models.SplitMinutes | TimeTracker/ViewModels/TimeTrackerViewModel.cs:130-132 | hours*60 + minutes = total; for a non-negative total 0 <= minutes < 60 and hours >= 0; for a negative total both have the total's sign |
| Models.SplitMinutesUnique | TimeTracker/ViewModels/ReportsViewModel.cs:90-91 | for a non-negative total the split is the only (hours, minutes) pair with minutes in [0, 60) |
| Models.ElapsedMinutes | TimeTracker/ViewModels/TimeTrackerViewModel.cs:189-190 | `(int)TotalMinutes` is the whole minutes elapsed, truncated toward zero, so m*60 <= seconds < (m+1)*60 for a forward span |
| Models.ReplaceById | TimeTracker/ViewModels/TaskManagerViewModel.cs:333 | an in-place change of a tracked task shows in every list position holding that Id; every other position is unchanged and the length is kept |
| Models.MatchesSearch | TimeTracker/ViewModels/TaskManagerViewModel.cs:184-186 | the search matches the title, or a description that is not null, ignoring case |
| Seqs.Filter | TimeTracker/ViewModels/TaskManagerViewModel.cs:184-196 | Where: the result is no longer than the input; an element is kept iff it is in the input and satisfies the predicate |
| Seqs.FilterMultiset | TimeTracker/ViewModels/MyTasksViewModel.cs:80-81 | Where keeps every selected element as many times as it occurs and drops every other element |
| Seqs.FilterIsSubsequence | TimeTracker/ViewModels/TaskManagerViewModel.cs:180-199 | Where keeps the selected elements in their original order |
| Seqs.FilterFilter | TimeTracker/ViewModels/TaskManagerViewModel.cs:182-197 | two successive Where clauses equal one Where on the conjunction |
| Seqs.FilterAll | TimeTracker/ViewModels/TaskManagerViewModel.cs:180 | a Where whose predicate holds of every element returns the list unchanged |
| Seqs.FilterSamePredicate | TimeTracker/ViewModels/TaskManagerViewModel.cs:182-197 | Where depends only on what its predicate says of the list's own elements |
| Seqs.FilterComplementLength | TimeTracker/ViewModels/TeamManagementViewModel.cs:146-147 | the counts of a predicate and of its negation add up to the length |
| Seqs.FirstIndex | TimeTracker/ViewModels/TimeTrackerViewModel.cs:89-92 | None iff no element matches; otherwise a matching position with no earlier match |
| Seqs.FirstWhere | TimeTracker/ViewModels/TaskManagerViewModel.cs:294-295 | FirstOrDefault: null iff nothing matches; otherwise the element at the first matching position |
| Seqs.SumFilterDisjoint | TimeTracker/ViewModels/ReportsViewModel.cs:101-105 | the sum over the elements selected by either of two exclusive predicates is the sum of the two parts |
| Seqs.SortBy | TimeTracker/ViewModels/MyTasksViewModel.cs:82 | OrderBy: the result is sorted by the ordering and is a permutation of the input |
| Text.TrimStart | TimeTracker/ViewModels/TaskManagerViewModel.cs:235 | the result is a suffix of the input, only white space was dropped, and it does not start with white space |
| Text.TrimEnd | TimeTracker/ViewModels/TaskManagerViewModel.cs:235 | the result is a prefix of the input, only white space was dropped, and it does not end with white space |
| Text.Trim | TimeTracker/ViewModels/TaskManagerViewModel.cs:235-236 | the result is a slice of the input with only white space around it, and it starts and ends without white space |
| Text.TrimEmptyIffBlank | TimeTracker/ViewModels/TaskManagerViewModel.cs:214-235 | trimming yields "" exactly when IsNullOrWhiteSpace holds, so a title that passes the check stays non-empty after Trim |
| Text.TrimIdempotent | TimeTracker/ViewModels/TaskManagerViewModel.cs:235 | Trim applied twice equals Trim applied once |
| Text.Upper | TimeTracker/ViewModels/TeamManagementViewModel.cs:134 | ToUpper keeps the length and maps each character by the simple upper-case mapping |
| Text.ContainsIgnoreCase | TimeTracker/ViewModels/TaskManagerViewModel.cs:185-186 | Contains with OrdinalIgnoreCase: the upper-cased needle occurs in the upper-cased text (its meaning is stated by ContainsIffOccurrence) |
| Text.ContainsIffOccurrence | TimeTracker/ViewModels/TaskManagerViewModel.cs:185-186 | Contains holds iff the needle occurs at some position of the text |
| TaskManager.IndexOfStatus | TimeTracker/ViewModels/TaskManagerViewModel.cs:331 | Array.IndexOf gives -1 iff the status is not listed, and otherwise a position holding the status |
| TaskManager.NextStatus | TimeTracker/ViewModels/TaskManagerViewModel.cs:330-333 | Новая→В работе→На проверке→Завершена→Новая, and every unlisted status goes to Новая |
| TaskManager.NextStatusFourTimes | TimeTracker/ViewModels/TaskManagerViewModel.cs:330-333 | four status changes return a status to itself iff it is one of the four listed statuses |
| TaskManager.MatchesFilters | TimeTracker/ViewModels/TaskManagerViewModel.cs:182-197 | a task passes each filter that is switched on: a non-blank search text, a selected project and a status other than "Все" (the filter chain equals it, by FilterTasksIsConjunction) |
| TaskManager.MatchingTasks | TimeTracker/ViewModels/TaskManagerViewModel.cs:180-199 | a task is shown iff it is in the full list and passes every filter that is switched on; with every filter off the list is the full list |
| TaskManager.MatchingTasksIsSubsequence | TimeTracker/ViewModels/TaskManagerViewModel.cs:180-199 | the filtered list is a subsequence of the full list, in its original order |
| TaskManager.FilterTasksIsConjunction | TimeTracker/ViewModels/TaskManagerViewModel.cs:182-197 | the chain of three optional Where clauses equals one Where on the conjunction of the three conditions |
| TaskManager.NewTask | TimeTracker/ViewModels/TaskManagerViewModel.cs:214-241 | the checks run in order title, assignee, project, and each error arises exactly in its case; on success the record has the trimmed title (non-empty), the trimmed or null description, the chosen status, the project's Id and the employee's Id |
| TaskManager.CanCreate | TimeTracker/ViewModels/TaskManagerViewModel.cs:202-208 | a non-blank title, an assignee, a project and a non-blank status |
| TaskManager.CanCreateTaskPassesChecks | TimeTracker/ViewModels/TaskManagerViewModel.cs:202-230 | when CanCreateTask holds, CreateTask's own checks all pass |
| TaskManager.ChecksIgnoreStatus | TimeTracker/ViewModels/TaskManagerViewModel.cs:204-241 | the converse fails: CreateTask accepts a blank status that CanCreateTask rejects |
| TaskManager.ProjectById | TimeTracker/ViewModels/TaskManagerViewModel.cs:294 | the project found has the task's project Id, and null means there is no such project |
| TaskManager.EmployeeById | TimeTracker/ViewModels/TaskManagerViewModel.cs:295 | the employee found has the task's assignee Id, and null means there is no such employee |
| TaskManager.SetProperty | TimeTracker/ViewModels/TaskManagerViewModel.cs:362-370 | the field ends up holding the value; it reports a change iff the old value differed |
| TaskManager.SetPropertyTwice | TimeTracker/ViewModels/TaskManagerViewModel.cs:362-370 | assigning the same value a second time reports no change |
| TaskManager.TaskManagerViewModel.constructor | TimeTracker/ViewModels/TaskManagerViewModel.cs:134-158 | the filters start empty with status "Все"; a successful load shows every task, loads projects and employees and clears the form; a failed load leaves the lists null |
| TaskManager.TaskManagerViewModel.LoadData | TimeTracker/ViewModels/TaskManagerViewModel.cs:160-174 | both lists become the whole task table, the projects and employees are read, and the form is cleared; a failed read changes nothing |
| TaskManager.TaskManagerViewModel.FilterTasks | TimeTracker/ViewModels/TaskManagerViewModel.cs:176-200 | with no loaded list nothing changes; otherwise the visible list is MatchingTasks of the full list under the current filters |
| TaskManager.TaskManagerViewModel.SetSearchText | TimeTracker/ViewModels/TaskManagerViewModel.cs:49-58 | stores the text and refilters with it |
| TaskManager.TaskManagerViewModel.SetProjectFilter | TimeTracker/ViewModels/TaskManagerViewModel.cs:60-69 | stores the project and refilters with it |
| TaskManager.TaskManagerViewModel.SetStatusFilter | TimeTracker/ViewModels/TaskManagerViewModel.cs:71-80 | stores the status and refilters with it |
| TaskManager.TaskManagerViewModel.SelectTask | TimeTracker/ViewModels/TaskManagerViewModel.cs:42-47 | the selection becomes the chosen row |
| TaskManager.TaskManagerViewModel.ChangeStatus | TimeTracker/ViewModels/TaskManagerViewModel.cs:326-347 | with no selection nothing changes; otherwise the selected task takes NextStatus in the table and in both lists, and the list is refiltered only after a successful save |
| TaskManager.TaskManagerViewModel.ClearForm | TimeTracker/ViewModels/TaskManagerViewModel.cs:351-358 | title "", description "", status Новая, no project, no employee |
| TaskManager.TaskManagerViewModel.CanCreateTask | TimeTracker/ViewModels/TaskManagerViewModel.cs:202-208 | the create command's guard: CanCreate of the form's fields |
| TaskManager.TaskManagerViewModel.EditTask | TimeTracker/ViewModels/TaskManagerViewModel.cs:287-299 | with no selection nothing changes; otherwise the form takes the task's title, description and status, its project and its assignee |
| TaskManager.TaskManagerViewModel.CreateTask | TimeTracker/ViewModels/TaskManagerViewModel.cs:210-246 | a failed check or a failed save changes nothing; otherwise the table gets exactly NewTask's record appended, both lists are reloaded and the form is cleared |
| MyTasks.IdDescendingIsOrdering | TimeTracker/ViewModels/MyTasksViewModel.cs:82 | "Id descending" is a total, transitive ordering, so OrderByDescending sorts by it |
| MyTasks.AssignedTasks | TimeTracker/ViewModels/MyTasksViewModel.cs:80-83 | exactly the tasks assigned to the employee, each as often as in the table, with Ids descending |
| MyTasks.AssignedTasksStrictlyDescending | TimeTracker/ViewModels/MyTasksViewModel.cs:80-83 | with unique primary keys the Ids are strictly descending |
| MyTasks.FilteredAssignedTasks | TimeTracker/ViewModels/MyTasksViewModel.cs:95-113 | a task is shown iff it is assigned to the employee and passes the search and status filters; each such task is shown as often as it occurs in the table (a permutation of the conjunctive filter); Ids descend; with both filters off it is the unfiltered list |
| MyTasks.Shown | TimeTracker/ViewModels/MyTasksViewModel.cs:94-110 | a task FilterTasks keeps: assigned to the employee, matching a non-blank search in title or non-null description, and with the chosen status unless "Все" |
| MyTasks.FilterChainIsConjunction | TimeTracker/ViewModels/MyTasksViewModel.cs:94-110 | the assignee query followed by the optional search and status Where clauses equals one Where on the conjunction of the three conditions |
| MyTasks.FilteredStrictlyDescending | TimeTracker/ViewModels/MyTasksViewModel.cs:95-113 | with unique primary keys the filtered list's Ids strictly descend, so no task is shown twice |
| MyTasks.CanStart | TimeTracker/ViewModels/MyTasksViewModel.cs:126 | a task is selected and its status is Новая |
| MyTasks.CanComplete | TimeTracker/ViewModels/MyTasksViewModel.cs:143-144 | a task is selected and its status is В работе or На проверке |
| MyTasks.WorkflowGuards | TimeTracker/ViewModels/MyTasksViewModel.cs:126-144 | no task can be both started and completed, and a completed task can be neither |
| MyTasks.StartThenComplete | TimeTracker/ViewModels/MyTasksViewModel.cs:118-131 | a task that can be started can be completed once it is started |
| MyTasks.MyTasksViewModel.constructor | TimeTracker/ViewModels/MyTasksViewModel.cs:64-74 | no selection, empty search, status "Все", and the assigned list after a successful load |
| MyTasks.MyTasksViewModel.LoadMyTasks | TimeTracker/ViewModels/MyTasksViewModel.cs:76-89 | after a successful query the list is AssignedTasks; a failed query keeps the old list |
| MyTasks.MyTasksViewModel.FilterTasks | TimeTracker/ViewModels/MyTasksViewModel.cs:91-114 | nothing before a load; otherwise the list is recomputed from the table whatever it showed before, so only the last filter combination counts |
| MyTasks.MyTasksViewModel.SetSearchText | TimeTracker/ViewModels/MyTasksViewModel.cs:33-42 | stores the text and refilters with it |
| MyTasks.MyTasksViewModel.SetStatusFilter | TimeTracker/ViewModels/MyTasksViewModel.cs:44-53 | stores the status and refilters with it |
| MyTasks.MyTasksViewModel.SelectTask | TimeTracker/ViewModels/MyTasksViewModel.cs:26-31 | the selection becomes the chosen row |
| MyTasks.MyTasksViewModel.CanStartTask | TimeTracker/ViewModels/MyTasksViewModel.cs:126 | the start command's guard: CanStart of the selection |
| MyTasks.MyTasksViewModel.CanCompleteTask | TimeTracker/ViewModels/MyTasksViewModel.cs:143-144 | the complete command's guard: CanComplete of the selection |
| MyTasks.MyTasksViewModel.SaveChanges | TimeTracker/ViewModels/MyTasksViewModel.cs:146-157 | after a successful save the list is reloaded unfiltered; after a failed one it is kept |
| MyTasks.MyTasksViewModel.SetSelectedStatus | TimeTracker/ViewModels/MyTasksViewModel.cs:118-137 | the selected tracked task takes the status in the table and in the list |
| MyTasks.MyTasksViewModel.StartTask | TimeTracker/ViewModels/MyTasksViewModel.cs:116-124 | only a new task changes, to В работе, followed by the save and reload; in every other state nothing changes |
| MyTasks.MyTasksViewModel.CompleteTask | TimeTracker/ViewModels/MyTasksViewModel.cs:128-141 | only a task in progress or in review, with a Yes answer, changes, to Завершена; otherwise nothing changes |
| WorkDay.ClockText | TimeTracker/ViewModels/TimeTrackerViewModel.cs:112-113 | the `hh:mm:ss` fields lie in [0, 24), [0, 60) and [0, 60) |
| WorkDay.ClockTextIsTimeOfDay | TimeTracker/ViewModels/TimeTrackerViewModel.cs:112-113 | the text shows the span's length modulo one day, exactly |
| WorkDay.OpenEntryIndex | TimeTracker/ViewModels/TimeTrackerViewModel.cs:89-92 | FirstOrDefault: none iff no entry of the employee started today and is open; otherwise the first such entry |
| WorkDay.TodayClosed | TimeTracker/ViewModels/TimeTrackerViewModel.cs:122-126 | exactly the employee's closed entries that started today |
| WorkDay.SummaryOf | TimeTracker/ViewModels/TimeTrackerViewModel.cs:117-145 | LoadTodaySummary's text for a table: "no sessions" when the employee has no closed entry today, otherwise the split of today's summed durations (its meaning is stated by SummaryOfToday) |
| WorkDay.SummaryOfToday | TimeTracker/ViewModels/TimeTrackerViewModel.cs:117-145 | "no sessions" iff the employee has no closed entry today; otherwise hours*60 + minutes is the sum of the durations (null as 0), with minutes in [0, 60) for a non-negative sum |
| WorkDay.OpenEntry | TimeTracker/ViewModels/TimeTrackerViewModel.cs:155-162 | the new entry is open, belongs to the employee, started now (so today), has no duration and is booked on task 1 |
| WorkDay.Closed | TimeTracker/ViewModels/TimeTrackerViewModel.cs:203-204 | the closed entry has end time now and the minutes as duration; its other fields are kept |
| WorkDay.EndedEntries | TimeTracker/ViewModels/TimeTrackerViewModel.cs:196-206 | the table after ending a day with nothing pending: the first open entry of today, if any, closed at now with the minutes (its effect is stated by EndedEntriesEffect) |
| WorkDay.EndedEntriesEffect | TimeTracker/ViewModels/TimeTrackerViewModel.cs:196-206 | only the first open entry of today changes: it is closed, every other entry is kept, and today's total grows by exactly the booked minutes |
| WorkDay.StartedDayIsFound | TimeTracker/ViewModels/TimeTrackerViewModel.cs:155-165 | after starting a day, the check for a day already started finds it |
| WorkDay.ClosingAddsMinutes | TimeTracker/ViewModels/TimeTrackerViewModel.cs:203-212 | closing an open entry of today adds its duration to today's summed minutes |
| WorkDay.TrackedRows | TimeTracker/ViewModels/TimeTrackerViewModel.cs:196-205 | the context's consistency: one tracked value per stored row, and a tracked value that differs from its row keeps the row's Id, start, employee and task while the row is still open in the database |
| WorkDay.ClosedRowsAreStored | TimeTracker/ViewModels/TimeTrackerViewModel.cs:122-130 | the rows LoadTodaySummary selects are closed in the database, so the tracked instances returned for them hold the stored values |
| WorkDay.CloseKeepsTracked | TimeTracker/ViewModels/TimeTrackerViewModel.cs:196-204 | closing a tracked row that is open in the database gives the same value whether its earlier unsaved change is kept or not, and keeps the context consistent |
| WorkDay.WorkDayViewModel.constructor | TimeTracker/ViewModels/TimeTrackerViewModel.cs:54-66 | nothing is pending; the summary is loaded; with an open entry of today the day is running from that entry's start, otherwise it is idle; the timer runs only when the day is started |
| WorkDay.WorkDayViewModel.CheckIfWorkDayStarted | TimeTracker/ViewModels/TimeTrackerViewModel.cs:84-106 | an entry of today open in the database resumes the day from its start, with the timer on and the elapsed time refreshed; with none nothing changes |
| WorkDay.WorkDayViewModel.UpdateElapsedTime | TimeTracker/ViewModels/TimeTrackerViewModel.cs:108-115 | while the day is started the elapsed time is now minus the start; otherwise nothing changes |
| WorkDay.WorkDayViewModel.TimerTick | TimeTracker/ViewModels/TimeTrackerViewModel.cs:75-82 | the same refresh as UpdateElapsedTime |
| WorkDay.WorkDayViewModel.SaveChanges | TimeTracker/ViewModels/TimeTrackerViewModel.cs:165 | a good save stores the tracked rows followed by the pending entries and leaves nothing pending; a failed save changes neither the database nor the context |
| WorkDay.WorkDayViewModel.LoadTodaySummary | TimeTracker/ViewModels/TimeTrackerViewModel.cs:117-145 | the summary becomes SummaryOf the stored table for today |
| WorkDay.WorkDayViewModel.StartWorkDay | TimeTracker/ViewModels/TimeTrackerViewModel.cs:147-176 | the day reads as started at now; a successful save stores the tracked rows, everything earlier failed saves left pending and the one new open entry, and the timer runs from 00:00:00; after a failed save the new entry stays pending and the stored table and the timer are kept; the context stays consistent |
| WorkDay.WorkDayViewModel.EndWorkDay | TimeTracker/ViewModels/TimeTrackerViewModel.cs:180-226 | a day not started changes nothing; with no entry of today open in the database nothing is saved and the day ends; otherwise the first such entry is closed in the context with the truncated minutes and saved with everything pending: after a good save the day ends with the timer stopped, the clock at 00:00:00 and the summary reloaded, after a failed save the stored table is kept, the close stays pending and the day stays started; with nothing pending the stored table becomes EndedEntries |
| WorkDay.WorkDayViewModel.CloseOpenEntry | TimeTracker/ViewModels/TimeTrackerViewModel.cs:196-204 | finds the first entry of today open in the database and closes its tracked value, keeping the context consistent |
| WorkDay.WorkDayViewModel.FinishDay | TimeTracker/ViewModels/TimeTrackerViewModel.cs:208-220 | the timer stops, the status reads ended, the summary is reloaded, and the clock shows 00:00:00 |
| WorkDay.WorkDayViewModel.CanStartWorkDay | TimeTracker/ViewModels/TimeTrackerViewModel.cs:178 | the start command is enabled iff the day is not started |
| WorkDay.WorkDayViewModel.CanEndWorkDay | TimeTracker/ViewModels/TimeTrackerViewModel.cs:228 | the end command is enabled iff the day is started |
| WorkDay.GuardsExclusive | TimeTracker/ViewModels/TimeTrackerViewModel.cs:178-228 | CanStartWorkDay holds iff CanEndWorkDay does not |
| WorkDay.EndAgainAfterFailedSave | TimeTracker/ViewModels/TimeTrackerViewModel.cs:180-226 | ending a day whose save fails and ending it again the same day stores the same row, closed with the second end time and minutes, and ends the day |
| WorkDay.StartAgainAfterFailedSave | TimeTracker/ViewModels/TimeTrackerViewModel.cs:147-176 | a start whose save fails, an end, and a second start store both open entries |
| Reports.Selected | TimeTracker/ViewModels/ReportsViewModel.cs:81-86 | an entry is selected iff it belongs to the employee, is closed, and its start date lies in [start, end], both ends inclusive |
| Reports.SelectedIsSubsequence | TimeTracker/ViewModels/ReportsViewModel.cs:81-86 | the selection keeps the table order |
| Reports.OrderingsAreOrderings | TimeTracker/ViewModels/ReportsViewModel.cs:101-111 | the orders by date and by start time are total and transitive |
| Reports.Dedup | TimeTracker/ViewModels/ReportsViewModel.cs:101 | the distinct days of a sorted list, strictly ascending |
| Reports.Days | TimeTracker/ViewModels/ReportsViewModel.cs:101-103 | GroupBy keys ordered: exactly the start dates of the selected entries, strictly ascending |
| Reports.OrderedDayGroup | TimeTracker/ViewModels/ReportsViewModel.cs:111 | one day's entries, sorted by start time, and a permutation of that day's group |
| Reports.TaskName | TimeTracker/ViewModels/ReportsViewModel.cs:113-114 | an entry whose task Id matches no task is labelled "Рабочий день"; otherwise it is the title of the first matching task |
| Reports.EntryLines | TimeTracker/ViewModels/ReportsViewModel.cs:111-117 | one entry line per entry, in the given order |
| Reports.Completed | TimeTracker/ViewModels/ReportsViewModel.cs:123-125 | exactly the tasks assigned to the employee with status Завершена |
| Reports.CompletedSection | TimeTracker/ViewModels/ReportsViewModel.cs:127-142 | the completed lines of the tasks, or the single no-tasks line when there are none (its contents are stated by CompletedSectionContents) |
| Reports.ReportOf | TimeTracker/ViewModels/ReportsViewModel.cs:94-142 | the report lines: header, the day sections of the ordered days, the completed heading and section (its contents are stated by ReportContents) |
| Reports.DayLinesAreDays | TimeTracker/ViewModels/ReportsViewModel.cs:109 | every day line of the sections carries one of the listed days |
| Reports.DayLinesAscending | TimeTracker/ViewModels/ReportsViewModel.cs:103-119 | given strictly ascending days, the day lines of the report appear in strictly ascending date order |
| Reports.DayMinutes | TimeTracker/ViewModels/ReportsViewModel.cs:105 | a day's sum of durations (null as 0) over the selected entries of that day (related to the total by DaysTotalIsSum and DaySumsAddUpToTotal) |
| Reports.DaysTotalIsSum | TimeTracker/ViewModels/ReportsViewModel.cs:101-105 | the sum of the per-day sums over distinct days is the sum over the entries on those days |
| Reports.DaySumsAddUpToTotal | TimeTracker/ViewModels/ReportsViewModel.cs:88-105 | the per-day minute sums add up to TotalMinutes, because the day groups partition the selection |
| Reports.CompletedLinesContents | TimeTracker/ViewModels/ReportsViewModel.cs:129-137 | a title line exists iff a listed task has that title; a description line exists iff a listed task has that non-empty description |
| Reports.CompletedSectionContents | TimeTracker/ViewModels/ReportsViewModel.cs:121-142 | "Нет завершенных задач" appears iff the employee has no completed task; the title lines are exactly the completed tasks' titles |
| Reports.DayPiecesMinutes | TimeTracker/ViewModels/ReportsViewModel.cs:105-118 | a day section shows its day's minutes on its day line and nowhere else |
| Reports.DaysPiecesMinutes | TimeTracker/ViewModels/ReportsViewModel.cs:103-119 | the day lines of the sections add up to the sum of the days' totals |
| Reports.DaysPiecesHaveDayLines | TimeTracker/ViewModels/ReportsViewModel.cs:103-109 | every listed day has its day line in the sections, carrying that day's total |
| Reports.ReportTotalLine | TimeTracker/ViewModels/ReportsViewModel.cs:88-97 | the report's fourth line is the total line, showing the split and the sum of the selected durations |
| Reports.ReportDayLines | TimeTracker/ViewModels/ReportsViewModel.cs:101-119 | the report's day lines are strictly ascending by date, each carries the day of a selected entry, and every selected entry's day has its line with that day's total |
| Reports.ReportMinutes | TimeTracker/ViewModels/ReportsViewModel.cs:88-109 | the day totals shown in the report add up to the total minutes of its header |
| Reports.ReportCompleted | TimeTracker/ViewModels/ReportsViewModel.cs:121-142 | the report says "Нет завершенных задач" iff the employee has no completed task, and lists a title iff a completed task of the employee has it |
| Reports.ReportContents | TimeTracker/ViewModels/ReportsViewModel.cs:88-142 | the whole report: the total line shows the selected minutes; the day lines are exactly the selected entries' days, strictly ascending, with totals adding up to the header's; the completed section lists exactly the employee's completed tasks or says there are none |
| Reports.AppendDaySections | TimeTracker/ViewModels/ReportsViewModel.cs:103-119 | the outer loop appends exactly the day sections for the days, in order |
| Reports.AppendDaySection | TimeTracker/ViewModels/ReportsViewModel.cs:105-118 | one pass appends the day line, the day's entry lines in start-time order, and the blank line |
| Reports.AppendEntryLines | TimeTracker/ViewModels/ReportsViewModel.cs:111-117 | the inner loop appends exactly one line per entry, in order |
| Reports.AppendCompletedSection | TimeTracker/ViewModels/ReportsViewModel.cs:127-142 | appends the completed section: one block per task, or the no-tasks line |
| Reports.ReportsViewModel.constructor | TimeTracker/ViewModels/ReportsViewModel.cs:60-69 | the range is the seven days before today up to today, and a first report is generated |
| Reports.ReportsViewModel.GenerateReport | TimeTracker/ViewModels/ReportsViewModel.cs:71-150 | a start after the end changes nothing; otherwise TotalMinutes is the sum of the selected durations (null as 0), the total text is its split, and the report text is ReportOf |
| Team.LexLeqTotal | TimeTracker/ViewModels/TeamManagementViewModel.cs:90-91 | the string order relates any two names |
| Team.LexLeqTransitive | TimeTracker/ViewModels/TeamManagementViewModel.cs:90-91 | the string order is transitive |
| Team.LexLeqAntisymmetric | TimeTracker/ViewModels/TeamManagementViewModel.cs:90-91 | two names each before the other are equal |
| Team.NameOrderIsOrdering | TimeTracker/ViewModels/TeamManagementViewModel.cs:90-91 | ordering by last name and then first name is total and transitive |
| Team.TeamOf | TimeTracker/ViewModels/TeamManagementViewModel.cs:87-92 | the team query: the department's other employees ordered by last name, then first name (its contents are stated by TeamOfContents) |
| Team.TeamOfContents | TimeTracker/ViewModels/TeamManagementViewModel.cs:87-92 | exactly the employees of the current employee's department other than the employee themselves, each as often as in the table, sorted by last name with ties broken by first name |
| Team.GetInitials | TimeTracker/ViewModels/TeamManagementViewModel.cs:129-135 | two characters: "??" if either name is null or empty, otherwise the upper-cased first letters of the first and last name |
| Team.InitialsOfNames | TimeTracker/ViewModels/TeamManagementViewModel.cs:129-135 | the initials are already upper case |
| Team.TaskCounts | TimeTracker/ViewModels/TeamManagementViewModel.cs:141-149 | total counts the selected employee's tasks, completed counts those with status Завершена, and active + completed = total |
| Team.TeamViewModel.constructor | TimeTracker/ViewModels/TeamManagementViewModel.cs:73-80 | the team is loaded, and its first member, if any, is selected with its details shown |
| Team.TeamViewModel.LoadTeamData | TimeTracker/ViewModels/TeamManagementViewModel.cs:82-104 | the team is TeamOf the table; with no selection and a non-empty team the first member becomes selected; an existing selection, and its details, are kept |
| Team.TeamViewModel.SetSelectedEmployee | TimeTracker/ViewModels/TeamManagementViewModel.cs:29-33 | stores the selection and shows its details |
| Team.TeamViewModel.UpdateSelectedEmployeeInfo | TimeTracker/ViewModels/TeamManagementViewModel.cs:105-127 | the details are the selected member's full name, position, email, initials and task counts, or the cleared details when nothing is selected |
| Team.TeamViewModel.UpdateEmployeeTasksInfo | TimeTracker/ViewModels/TeamManagementViewModel.cs:137-155 | the task info is the selected member's counts, with active + completed = total |
| Team.TeamViewModel.ClearEmployeeInfo | TimeTracker/ViewModels/TeamManagementViewModel.cs:157-164 | name "Выберите сотрудника", initials "??", empty position, email and task info |
| Register.EmailTaken | TimeTracker/ViewModels/RegisterViewModel.cs:135-138 | the query for an existing user: some stored employee has exactly this email |
| Register.RegisterViewModel.CanRegister | TimeTracker/ViewModels/RegisterViewModel.cs:116-126 | six non-blank texts, a selected department and equal passwords (an enabled form with a free email and a good save succeeds, by OnRegister) |
| Register.AppendFreeEmail | TimeTracker/ViewModels/RegisterViewModel.cs:135-157 | appending an employee whose email is unused keeps emails unique and makes the email used |
| Register.RegisterViewModel.constructor | TimeTracker/ViewModels/RegisterViewModel.cs:95-102 | an empty form, and the departments loaded or the load error shown |
| Register.RegisterViewModel.LoadDepartments | TimeTracker/ViewModels/RegisterViewModel.cs:104-114 | the department list, or "Ошибка загрузки отделов" with the list kept |
| Register.RegisterViewModel.NewEmployee | TimeTracker/ViewModels/RegisterViewModel.cs:144-154 | the form's names, email, password and position, the selected department's Id, role 1 and creation time now |
| Register.RegisterViewModel.OnRegister | TimeTracker/ViewModels/RegisterViewModel.cs:128-168 | both messages are cleared first; an email already stored gives the duplicate message and adds nothing; a missing department gives "Ошибка при регистрации" and adds nothing; a failed save gives the same message and leaves NewEmployee pending; a good save stores the employees pending from earlier failures followed by NewEmployee and sets the success message; with nothing pending, unique emails are preserved; an enabled form with a free email and a good save always succeeds |
| Register.RegisterTwice | TimeTracker/ViewModels/RegisterViewModel.cs:135-159 | registering the same email twice adds one employee, and the second attempt ends with the duplicate message |
| Register.RetryAfterFailedSave | TimeTracker/ViewModels/RegisterViewModel.cs:135-157 | a registration whose save failed followed by a good one with the same email stores two employees with that email, so emails are then no longer unique |

## Left out

- Entity Framework and Npgsql are not modelled. Tables are sequences held by the view-model, and `SaveChanges` is a step that succeeds or fails (`saveOk`).
- Database reads never fail in the model. The catch blocks around reads are modelled only where a load failure has a visible effect (`loadOk`). These are the first load of TaskManager and MyTasks, and Register's departments.
- LoadTodaySummary's "Ошибка загрузки данных" text and Team's task-info error texts belong to read failures, which are not modelled.
- TaskManager.TaskManagerViewModel.CreateTask: a failed save leaves the added task in the context's change tracker in the source, and the next successful save of that context inserts it. The model leaves the table unchanged. Tracked status changes (ChangeStatus, and StartTask and CompleteTask in MyTasks) are different: the model applies them to the table whatever the save's outcome, as the tracked entity keeps them and the next successful save writes them.
- The Postgres error-message assembly in CreateTask's catch block is not modelled (TaskManagerViewModel.cs:248-279). It is diagnostic text about a foreign exception.
- DeleteTask is not modelled (TaskManagerViewModel.cs:303-322). It is a confirmation dialog, a database delete and a reload. The window code-behind and MainWindow are not modelled either.
- MessageBox dialogs are not modelled. A Yes/No confirmation is the boolean `confirmed`. Registration's Done event is the result `done`.
- Formatted strings are not built character by character: "{h} ч {m} мин", the "dd.MM.yyyy" and "HH:mm" dates, and `hh\:mm\:ss`. Summaries, task info and report lines are datatypes that carry the formatted values.
- Report export to a file is not modelled (ReportsViewModel.cs:152-170). It is a save dialog and file I/O.
- AuthService and LoginViewModel are not modelled. They are a database lookup and a two-condition guard.
- `async void` in RegisterViewModel is modelled as sequential code.
- PropertyChanged notifications are not modelled, except for the changed-flag that SetProperty reports.
- The DispatcherTimer is a flag (`timerRunning`), and a tick is a call of TimerTick.
- DateTime.Now and DateTime.Today are not modelled as separate reads of the clock: today is the day of the `now` passed in. Time zones and sub-second precision are not modelled.
- Case mapping for OrdinalIgnoreCase and ToUpper covers ASCII and basic Cyrillic (U+0400 to U+045F) only. Other scripts are left unchanged.
- ORDER BY on names is modelled as ordinal comparison of characters. The database collation is not modelled.
- Seqs.SortBy is proved sorted and a permutation, but its stability is not stated. With unique Ids, the MyTasks order does not depend on stability. For equal names in Team and equal start times in Reports the order of ties is not stated.
- Integer overflow is not modelled. Minute sums and Ids are unbounded integers. In the source, `Enumerable.Sum` over `int` is checked: a sum beyond 2^31 - 1 minutes throws OverflowException, which the surrounding catch reports with its error text (LoadTodaySummary's "Ошибка загрузки данных", GenerateReport's error message). The model has no such error path.
- Characters are Unicode scalar values, while C# strings are UTF-16. For a name that starts with a character outside the Basic Multilingual Plane, `firstName[0]` in the source is a lone surrogate, and the model takes the whole character (Team.GetInitials).
- Each window creates its own context, so one window's pending changes are invisible to the others. The model keeps them per view-model (WorkDay, Register), and the other view-models see only stored rows.
- A null task Title is not modelled. Titles are strings, and the search treats only Description as nullable.
- TaskManager.SetProperty compares values, not references. The source's EqualityComparer uses reference equality for entity objects.
- EditTask reads the Projects and Employees lists as loaded. A null list after a failed load reads as empty.
- Reports.ReportsViewModel.GenerateReport builds the text in a local sequence and assigns ReportText once. The source assigns the property after each line, but the final state is the same.
- Team's detail texts start as null in the source. The model starts them as "" before the first update.
