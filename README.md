# Personal task manager: task and subtask bookkeeping

This project models the bookkeeping core of a personal task tracker. Users keep
an ordered list of tasks. Each task owns an ordered list of subtasks. A task's
`progress` (a percentage) and `completed` flag are derived from its subtasks
whenever it has any.

The model has two parts:

- **The server's task store** (`backend/src/index.js`). The six route handlers
  create, update and delete tasks, and add, update and delete subtasks. Each
  handler reads the list, changes at most one task and stores the list back.
  They are methods of the class `TaskStore.Store`, whose field `tasks` is the
  stored list. Each answer is a `Response`: `Ok(body)`, `Invalid` (HTTP 400) or
  `NotFound(which)` (HTTP 404, naming the task or the subtask). The GET-by-id
  route is modelled too. Ids and timestamps are parameters.
- **The client's task list** (`frontend/src/hooks/useTasks.js`). The hook's
  state (`tasks`, `filter`, `error`) is the class `TaskList.TaskListState`.
  The filtered view and the local updaters passed to `setTasks` are pure
  functions. The server's answers are parameters, and `None` stands for a
  request that failed.

Shared by both (module `TaskModel`): the `Task` and `Subtask` records, the
find-by-id lookups, and the derived-field rule. When a task has `n >= 1`
subtasks of which `c` are completed, `progress = Math.round(c / n * 100)` and
`completed = (progress === 100)`. The rounding is computed exactly on integers
as `(200c + n) / (2n)`. The function `RoundedPercent` is proved to be the
integer nearest to `100c/n`, with halves rounding up.

`SeqOps` states the JavaScript array operations the code is built from
(`filter`, `map`, `findIndex`, `splice`).

Request fields follow JavaScript's rules:

- An absent field (`undefined`) is `None`.
- A title counts only when it is truthy, i.e. present and not `""`.
- A task update's `dueDate` is an `Option<Option<string>>`, so an explicit
  `null` (`Some(None)`) clears the date.

What the code does and does not do:

- The code stores no `status` field; only `completed` and `progress` exist.
- No reorder (move) operation exists in the code. The hook never returns
  `reorderTask`, and the list component ignores its reorder callback.
- Subtasks supplied with a create request are ignored: a new task always starts
  with none.
- Subtasks and tasks carry no due time.
- Deleting the last subtask sets `progress` to 0 and `completed` to false.

## Model

| member | source | states |
|---|---|---|
| SeqOps.Filter | frontend/src/hooks/useTasks.js:28-33 | the result holds exactly the elements meeting the predicate; it is the whole input iff all meet it, and empty iff none do |
| SeqOps.Map | frontend/src/hooks/useTasks.js:57 | the result has the input's length and holds the function's value of each element at the same index |
| SeqOps.FilterAppend | frontend/src/hooks/useTasks.js:28-33 | filtering a concatenation is the concatenation of the filtered parts, so the filter keeps the input's order |
| SeqOps.FindIndex | backend/src/index.js:100 | the result is the first index whose element matches, or -1 exactly when none matches |
| SeqOps.RemoveAt | backend/src/index.js:142 | removal at `i` drops exactly that element: entries before `i` stay put, later ones shift down by one, and the multiset loses exactly one copy of it |
| TaskModel.TaskIndexAfterHead | backend/src/index.js:100 | a search past a non-matching first task finds the same task one place later |
| TaskModel.SubtaskIndexAfterHead | backend/src/index.js:235 | a search past a non-matching first subtask finds the same subtask one place later |
| TaskModel.TaskIndex | backend/src/index.js:100 | the result is the index of the first task carrying the id, or -1 exactly when no task carries it |
| TaskModel.SubtaskIndex | backend/src/index.js:200 | the result is the index of the first subtask carrying the id, or -1 exactly when no subtask carries it |
| TaskModel.CompletedCount | backend/src/index.js:117 | the count of completed subtasks is at most their number; it equals the number iff all are completed, and is 0 iff none is |
| TaskModel.CompletedCountAppend | backend/src/index.js:177 | counting completed subtasks adds up over concatenated lists |
| TaskModel.RoundedPercent | backend/src/index.js:118 | the result `r` satisfies `n(2r-1) <= 200c < n(2r+1)`, i.e. it is `100c/n` rounded half up; it lies in [0, 100] when `c <= n` |
| TaskModel.FullProgressIff | backend/src/index.js:119 | progress rounds to 100 exactly when at least 99.5% of the subtasks are completed |
| TaskModel.ZeroProgressIff | backend/src/index.js:118 | progress rounds to 0 exactly when fewer than 0.5% of the subtasks are completed |
| TaskModel.NearlyDoneRoundsToFull | backend/src/index.js:118-119 | 199 completed of 200 gives progress 100; 198 of 200 gives 99; 1 of 3 gives 33 |
| TaskModel.RoundedPercentMonotone | backend/src/index.js:118 | more completed subtasks never give a lower progress |
| TaskModel.WithDerivedProgress | backend/src/index.js:115-120 | the recomputed task obeys the derived-field rule and differs from the input only in `progress` and `completed`; a task without subtasks is returned unchanged |
| TaskModel.DerivedCompletion | backend/src/index.js:176-179 | a task obeying the rule has progress in [0, 100]; below 200 subtasks it is completed iff every subtask is; up to 200 subtasks its progress is 0 iff none is |
| TaskModel.DerivedIdempotent | backend/src/index.js:115-120 | recomputing twice gives the same task as recomputing once |
| TaskStore.Store.constructor | backend/src/index.js:19-21 | the store starts with no tasks |
| TaskStore.Store.GetTask | backend/src/index.js:53-63 | answers with the first task carrying the id, or not-found (task) exactly when no task has it; nothing changes |
| TaskStore.Store.CreateTask | backend/src/index.js:66-92 | a falsy title is refused as invalid with no change; otherwise the new task is appended at the end with the given id and time, no subtasks, `completed` false, progress 0, description defaulting to `""` and due date to null |
| TaskStore.Store.UpdateTask | backend/src/index.js:95-129 | unknown id: not found and no change; otherwise only the first matching task is replaced, by the sparse merge of the update followed by the derived-field rule, and returned; the rule holds for the whole list if it held before |
| TaskStore.Store.DeleteTask | backend/src/index.js:132-149 | unknown id: not found and no change; otherwise exactly the first matching task is removed and the rest keep their order |
| TaskStore.Store.AddSubtask | backend/src/index.js:152-186 | a falsy title is refused before the lookup; unknown task: not found; otherwise an uncompleted subtask with the given id and time is appended to that task only, whose progress is recomputed |
| TaskStore.Store.UpdateSubtask | backend/src/index.js:189-222 | unknown task or subtask: not found naming which, no change; otherwise only the first matching subtask of the first matching task is merged, the task's progress is recomputed, and the merged subtask is returned |
| TaskStore.Store.DeleteSubtask | backend/src/index.js:225-258 | unknown task or subtask: not found naming which, no change; otherwise that subtask alone is removed and the task is recomputed, or reset to 0 and not completed when none remain |
| TaskStore.MergeTaskUpdate | backend/src/index.js:106-113 | only title, description, due date, completed and progress can change; a truthy title replaces the title and a falsy one keeps it; each other field is replaced when supplied and kept when absent |
| TaskStore.MergeSubtaskUpdate | backend/src/index.js:206-210 | only title and completed can change; a truthy title replaces the title and a falsy one keeps it; `completed` is replaced when supplied and kept when absent |
| TaskStore.UpdatedTask | backend/src/index.js:106-120 | the stored task obeys the derived-field rule and agrees with the merged update in every field but `progress` and `completed`; a task without subtasks is stored exactly as merged |
| TaskStore.WithSubtaskAdded | backend/src/index.js:174-179 | the subtask is appended at the end of the task's list, the rule holds afterwards, and only `subtasks`, `progress` and `completed` change |
| TaskStore.WithSubtaskUpdated | backend/src/index.js:206-215 | the subtask at the index becomes the merged subtask, the other subtasks and the length stay, the rule holds afterwards, and only `subtasks`, `progress` and `completed` change |
| TaskStore.WithSubtaskRemoved | backend/src/index.js:241-251 | exactly the subtask at the index is removed, the rule holds afterwards, no subtasks left means progress 0 and not completed, and only `subtasks`, `progress` and `completed` change |
| TaskStore.UpdateIsSparseMerge | backend/src/index.js:106-113 | an update keeps id, creation time and subtasks; an empty title keeps the old one; each absent field keeps its value and each present one replaces it; without subtasks the caller's `completed`/`progress` are stored as given |
| TaskStore.EmptyUpdateChangesNothing | backend/src/index.js:106-120 | an update supplying no field leaves a task that obeys the rule unchanged |
| TaskStore.UpdateOverridesDerivedFields | backend/src/index.js:115-120 | on a task with subtasks the caller's `completed`/`progress` have no effect; the stored progress is in [0, 100] and `completed` is `progress == 100` |
| TaskStore.AddedSubtaskBlocksCompletion | backend/src/index.js:167-179 | after adding a subtask the task's progress is in [0, 100] and can be 100 (or the task completed) only when it has at least 200 subtasks |
| TaskStore.UpdateSubtaskTouchesOnlyIt | backend/src/index.js:206-210 | a subtask update changes only the matched subtask: a truthy title and a supplied `completed` replace its own; other subtasks, their order and the task's other fields stay |
| TaskStore.CompletingSubtaskRaisesProgress | backend/src/index.js:206-215 | on a task that obeys the rule, marking a subtask completed never lowers the task's stored progress, and un-completing one never raises it |
| TaskStore.RemoveSubtaskResetsWhenEmpty | backend/src/index.js:241-251 | deleting a subtask removes exactly that entry and leaves the rule satisfied with progress in [0, 100]; deleting the only subtask gives progress 0 and not completed |
| TaskList.FilteredTasks | frontend/src/hooks/useTasks.js:26-37 | the view is never longer than the list and shows only tasks from it; any filter value other than 'completed', 'pending' and 'partial' shows the list unchanged |
| TaskList.IsCompleted | frontend/src/hooks/useTasks.js:29 | on a task with subtasks that obeys the rule, the completed test holds exactly at progress 100 |
| TaskList.IsPending | frontend/src/hooks/useTasks.js:31 | a pending task is never completed; on a task with subtasks that obeys the rule, the test holds exactly at progress 0 |
| TaskList.IsPartial | frontend/src/hooks/useTasks.js:33 | a partial task is neither completed nor pending; every task with non-negative progress is completed, pending or partial; on a task with subtasks that obeys the rule, the test holds exactly strictly between 0 and 100 |
| TaskList.FilteredTasksExact | frontend/src/hooks/useTasks.js:28-35 | 'completed' shows exactly the completed tasks, 'pending' the uncompleted ones at progress 0, 'partial' the uncompleted ones above 0; 'all' and every other value show the list itself |
| TaskList.FilteredTasksKeepOrder | frontend/src/hooks/useTasks.js:26-37 | every filter value keeps the list's order: the view of a concatenation is the concatenation of the views |
| TaskList.FiltersPartition | frontend/src/hooks/useTasks.js:28-33 | when no progress is negative, the completed, pending and partial views together hold each task exactly once, and their sizes add up to the list's |
| TaskList.FinishedListViews | frontend/src/hooks/useTasks.js:28-33 | when every task is completed, the completed view is the whole list in its order and the pending and partial views are empty |
| TaskList.SpreadLaws | frontend/src/hooks/useTasks.js:57 | spreading a complete task over another yields the complete task; an empty patch changes nothing |
| TaskList.SpreadTask | frontend/src/hooks/useTasks.js:57 | each key the patch carries replaces the task's value, and each key it lacks keeps it |
| TaskList.SpreadSubtask | frontend/src/hooks/useTasks.js:129 | each key the patch carries replaces the subtask's value, and each key it lacks keeps it |
| TaskList.WithTaskMerged | frontend/src/hooks/useTasks.js:56-58 | every task with the id is replaced by the answer spread over it; all others and the order stay |
| TaskList.WithoutTask | frontend/src/hooks/useTasks.js:71 | exactly the tasks without the id remain |
| TaskList.WithoutTaskIsSplice | frontend/src/hooks/useTasks.js:71 | with unique ids, the client's removal of every matching task equals the server's removal of the first match (backend/src/index.js:142) |
| TaskList.WithTaskMergedIsReplace | frontend/src/hooks/useTasks.js:56-58 | with unique ids, merging the server's complete answer replaces exactly the task the server updated |
| TaskList.WithSubtaskAppended | frontend/src/hooks/useTasks.js:94-97 | the matching task gets the new subtask at the end of its list; its progress and completed flag stay as they were |
| TaskList.MergeSubtasks | frontend/src/hooks/useTasks.js:128-130 | only subtasks with the id are merged with the answer; the others and the order stay |
| TaskList.WithSubtaskMerged | frontend/src/hooks/useTasks.js:126-131 | only the matching task's subtasks change, and its progress and completed flag stay |
| TaskList.DropSubtask | frontend/src/hooks/useTasks.js:162 | exactly the subtasks without the id remain; their order is fixed by `DropSubtaskKeepsOrder` and `DropSubtaskIsSplice` |
| TaskList.DropSubtaskKeepsOrder | frontend/src/hooks/useTasks.js:162 | dropping from a concatenation is the concatenation of the drops, so the remaining subtasks keep their order |
| TaskList.DropSubtaskIsSplice | frontend/src/hooks/useTasks.js:162 | with unique subtask ids, the client's removal of every matching subtask equals the server's removal of the first match (backend/src/index.js:241), and an absent id changes nothing |
| TaskList.WithSubtaskDropped | frontend/src/hooks/useTasks.js:160-163 | only the matching task loses the subtask; its progress and completed flag stay |
| TaskList.TaskListState.constructor | frontend/src/hooks/useTasks.js:5-8 | the hook starts with no tasks, filter 'all' and no error |
| TaskList.TaskListState.Visible | frontend/src/hooks/useTasks.js:180-181 | the returned `tasks` holds only tasks of the state and is no longer than it; under 'all' or any other value than the three named filters it is the whole state; the order of the state is kept, by `FilteredTasksKeepOrder` |
| TaskList.TaskListState.SetFilter | frontend/src/hooks/useTasks.js:8 | only the filter changes |
| TaskList.TaskListState.Refresh | frontend/src/hooks/useTasks.js:11-23 | a fetched list replaces the state and clears the error; a failed fetch keeps the list and sets the fetch error |
| TaskList.TaskListState.CreateTask | frontend/src/hooks/useTasks.js:40-50 | the created task is appended at the end; on failure the list is unchanged and the error is set |
| TaskList.TaskListState.UpdateTask | frontend/src/hooks/useTasks.js:53-65 | the answer is merged into the matching tasks; on failure the list is unchanged and the error is set |
| TaskList.TaskListState.DeleteTask | frontend/src/hooks/useTasks.js:68-77 | tasks with the id are dropped once the server confirms; on failure the list is unchanged and the error is set |
| TaskList.TaskListState.AddSubtask | frontend/src/hooks/useTasks.js:80-109 | the created subtask is appended to the matching task; on failure the list is unchanged and the error is set |
| TaskList.TaskListState.UpdateSubtask | frontend/src/hooks/useTasks.js:112-143 | the answer is merged into the matching subtask; on failure the list is unchanged and the error is set |
| TaskList.TaskListState.DeleteSubtask | frontend/src/hooks/useTasks.js:146-173 | the subtask is dropped from the matching task once the server confirms; on failure the list is unchanged and the error is set |

## Left out

- File persistence: reading and writing the data file, creating it on first use, and the 500 answers when a write fails. The store is an in-memory field.
- Express routing, CORS, body parsing and server start. HTTP status codes are folded into `Response`.
- The list-all route (GET /api/tasks): it only returns the stored list.
- uuid generation and the clock: ids and timestamps are parameters.
- Floating point: `Math.round(c / n * 100)` is modelled as exact round-half-up. A binary rounding error in `c / n * 100` at an exact half is not modelled.
- JavaScript falsiness beyond strings. A `null` title is modelled like an absent one. Non-string titles (`0`, `false`) are not modelled.
- An explicit `null` description in a task update is not modelled, because `description` is a string.
- TaskStore.Store.UpdateTask, TaskStore.Store.UpdateSubtask: the update bodies (`TaskUpdate`, `SubtaskUpdate`) type `completed` as `bool` and `progress` as `int`, but the handlers store any value that is not `undefined` as sent (backend/src/index.js:111-112, 209). An explicit `null`, a string or a fractional `progress` is not modelled. Stored on a task without subtasks, such a value would keep the task out of all three named filter views, a case `FiltersPartition` does not cover.
- Keys in a request body beyond the ones the handlers destructure, and unknown keys in a client-side spread.
- In-place mutation and aliasing: a nested `push` or `splice` on a task's subtask array is modelled as storing a new task value at that index.
- The re-fetch of a task that the client's subtask updaters start asynchronously. It races with other updates. Its effect is just another `setTasks`.
- `useEffect`/`useCallback` wiring and the `isLoading` flag.
- Re-throwing an API error: the client's methods return `None` instead.
- The network client, and all UI components (styling, animation, theming, event wiring). That includes the counts shown beside the filter, which read a list the hook never returns.
- A task `status` field and a reorder operation: neither exists in the code.
