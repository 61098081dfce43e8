/** The client's task list (the `useTasks` hook): the state the hook holds,
    the filtered view it hands to the page, and the local updates it applies
    after each successful request. The server's answers are parameters:
    `None` stands for a request that failed. */
module TaskList {
  import opened SeqOps
  import opened TaskModel

  const CreateFailed := "Failed to create task. Please try again."
  const UpdateFailed := "Failed to update task. Please try again."
  const DeleteFailed := "Failed to delete task. Please try again."
  const AddSubtaskFailed := "Failed to add subtask. Please try again."
  const UpdateSubtaskFailed := "Failed to update subtask. Please try again."
  const DeleteSubtaskFailed := "Failed to delete subtask. Please try again."
  const FetchFailed := "Failed to fetch tasks. Please try again later."

  // ---- The filtered view ----

  /** `task.completed`: on a task whose subtasks set its fields, the 100% tasks. */
  function IsCompleted(t: Task): (b: bool)
    ensures DerivedFieldsHold(t) && |t.subtasks| > 0 ==> (b <==> t.progress == 100)
  {
    t.completed
  }

  /** `!task.completed && task.progress === 0`: on a task whose subtasks set
      its fields, the 0% tasks. */
  function IsPending(t: Task): (b: bool)
    ensures b ==> !IsCompleted(t)
    ensures DerivedFieldsHold(t) && |t.subtasks| > 0 ==> (b <==> t.progress == 0)
  {
    !t.completed && t.progress == 0
  }

  /** `!task.completed && task.progress > 0`: every task with a non-negative
      progress that is neither completed nor pending. */
  function IsPartial(t: Task): (b: bool)
    ensures b ==> !IsCompleted(t) && !IsPending(t)
    ensures t.progress >= 0 ==> (b || IsCompleted(t) || IsPending(t))
    ensures DerivedFieldsHold(t) && |t.subtasks| > 0 ==> (b <==> 0 < t.progress < 100)
  {
    !t.completed && t.progress > 0
  }

  /** `filteredTasks()`: the switch on the current filter; any value other
      than the three named ones shows the whole list. */
  function FilteredTasks(tasks: seq<Task>, filter: string): (r: seq<Task>)
    ensures |r| <= |tasks|
    ensures forall t :: t in r ==> t in tasks
    ensures filter != "completed" && filter != "pending" && filter != "partial" ==> r == tasks
  {
    if filter == "completed" then Filter(tasks, IsCompleted)
    else if filter == "pending" then Filter(tasks, IsPending)
    else if filter == "partial" then Filter(tasks, IsPartial)
    else tasks
  }

  /** Each named filter shows exactly the tasks meeting its predicate; every
      other filter value, 'all' among them, shows the list unchanged. */
  lemma FilteredTasksExact(tasks: seq<Task>, t: Task, other: string)
    requires other != "completed" && other != "pending" && other != "partial"
    ensures t in FilteredTasks(tasks, "completed") <==> t in tasks && t.completed
    ensures t in FilteredTasks(tasks, "pending") <==> t in tasks && !t.completed && t.progress == 0
    ensures t in FilteredTasks(tasks, "partial") <==> t in tasks && !t.completed && t.progress > 0
    ensures FilteredTasks(tasks, "all") == tasks && FilteredTasks(tasks, other) == tasks
  {
  }

  /** The view keeps the list's order: filtering a concatenation is the
      concatenation of the filtered parts, and a single task is shown or not. */
  lemma {:induction false} FilteredTasksKeepOrder(a: seq<Task>, b: seq<Task>, filter: string)
    ensures FilteredTasks(a + b, filter) == FilteredTasks(a, filter) + FilteredTasks(b, filter)
  {
    if filter == "completed" {
      FilterAppend(a, b, IsCompleted);
    } else if filter == "pending" {
      FilterAppend(a, b, IsPending);
    } else if filter == "partial" {
      FilterAppend(a, b, IsPartial);
    }
  }

  /** When no progress is negative, the completed, pending and partial views
      split the list: each task lands in exactly one of them. */
  lemma FiltersPartition(tasks: seq<Task>)
    requires forall k :: 0 <= k < |tasks| ==> tasks[k].progress >= 0
    ensures multiset(FilteredTasks(tasks, "completed"))
          + multiset(FilteredTasks(tasks, "pending"))
          + multiset(FilteredTasks(tasks, "partial")) == multiset(tasks)
    ensures |FilteredTasks(tasks, "completed")|
          + |FilteredTasks(tasks, "pending")|
          + |FilteredTasks(tasks, "partial")| == |tasks|
  {
    assert FilteredTasks(tasks, "completed") == Filter(tasks, IsCompleted);
    assert FilteredTasks(tasks, "pending") == Filter(tasks, IsPending);
    assert FilteredTasks(tasks, "partial") == Filter(tasks, IsPartial);
    PredicatesPartition(tasks);
    PredicatesPartitionCount(tasks);
  }

  /** When every task is completed, the completed view is the whole list, in
      its order, and the other two views are empty. */
  lemma FinishedListViews(tasks: seq<Task>)
    requires forall k :: 0 <= k < |tasks| ==> tasks[k].completed
    ensures FilteredTasks(tasks, "completed") == tasks
    ensures FilteredTasks(tasks, "pending") == [] && FilteredTasks(tasks, "partial") == []
  {
    FilterKeepsAll(tasks, IsCompleted);
  }

  lemma {:induction false} PredicatesPartition(tasks: seq<Task>)
    requires forall k :: 0 <= k < |tasks| ==> tasks[k].progress >= 0
    ensures multiset(Filter(tasks, IsCompleted)) + multiset(Filter(tasks, IsPending))
          + multiset(Filter(tasks, IsPartial)) == multiset(tasks)
  {
    if tasks != [] {
      var t, rest := tasks[0], tasks[1..];
      PredicatesPartition(rest);
      assert tasks == [t] + rest;
      assert multiset(tasks) == multiset{t} + multiset(rest);
    }
  }

  lemma {:induction false} PredicatesPartitionCount(tasks: seq<Task>)
    requires forall k :: 0 <= k < |tasks| ==> tasks[k].progress >= 0
    ensures |Filter(tasks, IsCompleted)| + |Filter(tasks, IsPending)| + |Filter(tasks, IsPartial)| == |tasks|
  {
    if tasks != [] {
      PredicatesPartitionCount(tasks[1..]);
    }
  }

  // ---- The local updates applied through `setTasks` ----

  /** A JSON object spread over a task, `{ ...task, ...patch }`: every key the
      patch carries replaces the task's. */
  datatype TaskPatch = TaskPatch(
    id: Option<string>,
    title: Option<string>,
    description: Option<string>,
    dueDate: Option<Option<string>>,
    completed: Option<bool>,
    progress: Option<int>,
    createdAt: Option<string>,
    subtasks: Option<seq<Subtask>>)

  datatype SubtaskPatch = SubtaskPatch(
    id: Option<string>,
    title: Option<string>,
    completed: Option<bool>,
    createdAt: Option<string>)

  function SpreadTask(t: Task, p: TaskPatch): (r: Task)
    ensures (p.id.Some? ==> r.id == p.id.value) && (p.id.None? ==> r.id == t.id)
    ensures (p.title.Some? ==> r.title == p.title.value) && (p.title.None? ==> r.title == t.title)
    ensures (p.description.Some? ==> r.description == p.description.value)
         && (p.description.None? ==> r.description == t.description)
    ensures (p.dueDate.Some? ==> r.dueDate == p.dueDate.value) && (p.dueDate.None? ==> r.dueDate == t.dueDate)
    ensures (p.completed.Some? ==> r.completed == p.completed.value)
         && (p.completed.None? ==> r.completed == t.completed)
    ensures (p.progress.Some? ==> r.progress == p.progress.value)
         && (p.progress.None? ==> r.progress == t.progress)
    ensures (p.createdAt.Some? ==> r.createdAt == p.createdAt.value)
         && (p.createdAt.None? ==> r.createdAt == t.createdAt)
    ensures (p.subtasks.Some? ==> r.subtasks == p.subtasks.value)
         && (p.subtasks.None? ==> r.subtasks == t.subtasks)
  {
    Task(p.id.GetOr(t.id), p.title.GetOr(t.title), p.description.GetOr(t.description),
         p.dueDate.GetOr(t.dueDate), p.completed.GetOr(t.completed), p.progress.GetOr(t.progress),
         p.createdAt.GetOr(t.createdAt), p.subtasks.GetOr(t.subtasks))
  }

  function SpreadSubtask(s: Subtask, p: SubtaskPatch): (r: Subtask)
    ensures (p.id.Some? ==> r.id == p.id.value) && (p.id.None? ==> r.id == s.id)
    ensures (p.title.Some? ==> r.title == p.title.value) && (p.title.None? ==> r.title == s.title)
    ensures (p.completed.Some? ==> r.completed == p.completed.value)
         && (p.completed.None? ==> r.completed == s.completed)
    ensures (p.createdAt.Some? ==> r.createdAt == p.createdAt.value)
         && (p.createdAt.None? ==> r.createdAt == s.createdAt)
  {
    Subtask(p.id.GetOr(s.id), p.title.GetOr(s.title), p.completed.GetOr(s.completed),
            p.createdAt.GetOr(s.createdAt))
  }

  /** The patch a complete task makes when spread: it carries every key. */
  function TaskAsPatch(t: Task): TaskPatch {
    TaskPatch(Some(t.id), Some(t.title), Some(t.description), Some(t.dueDate),
              Some(t.completed), Some(t.progress), Some(t.createdAt), Some(t.subtasks))
  }

  /** Spreading a complete task over another yields the complete task; an
      empty patch changes nothing. */
  lemma SpreadLaws(t: Task, u: Task)
    ensures SpreadTask(t, TaskAsPatch(u)) == u
    ensures SpreadTask(t, TaskPatch(None, None, None, None, None, None, None, None)) == t
  {
  }

  /** `tasks.map(task => task.id === id ? { ...task, ...patch } : task)` */
  function WithTaskMerged(tasks: seq<Task>, id: string, p: TaskPatch): (r: seq<Task>)
    ensures |r| == |tasks|
    ensures forall k :: 0 <= k < |tasks| ==>
      r[k] == if tasks[k].id == id then SpreadTask(tasks[k], p) else tasks[k]
  {
    Map(tasks, (t: Task) => if t.id == id then SpreadTask(t, p) else t)
  }

  /** `tasks.filter(task => task.id !== id)` */
  function WithoutTask(tasks: seq<Task>, id: string): (r: seq<Task>)
    ensures forall t :: t in r <==> t in tasks && t.id != id
  {
    Filter(tasks, (t: Task) => t.id != id)
  }

  /** The task with `id` gets `s` appended to its subtasks; its `progress` and
      `completed` stay as they were until the task is fetched again. */
  function WithSubtaskAppended(tasks: seq<Task>, taskId: string, s: Subtask): (r: seq<Task>)
    ensures |r| == |tasks|
    ensures forall k :: 0 <= k < |tasks| ==>
      r[k] == if tasks[k].id == taskId then tasks[k].(subtasks := tasks[k].subtasks + [s]) else tasks[k]
  {
    Map(tasks, (t: Task) => if t.id == taskId then t.(subtasks := t.subtasks + [s]) else t)
  }

  /** `subtasks.map(subtask => subtask.id === subtaskId ? { ...subtask, ...patch } : subtask)` */
  function MergeSubtasks(subtasks: seq<Subtask>, subtaskId: string, p: SubtaskPatch): (r: seq<Subtask>)
    ensures |r| == |subtasks|
    ensures forall k :: 0 <= k < |subtasks| ==>
      r[k] == if subtasks[k].id == subtaskId then SpreadSubtask(subtasks[k], p) else subtasks[k]
  {
    Map(subtasks, (s: Subtask) => if s.id == subtaskId then SpreadSubtask(s, p) else s)
  }

  /** In the task with `taskId`, the subtask with `subtaskId` is merged with
      the patch; nothing else changes. */
  function WithSubtaskMerged(tasks: seq<Task>, taskId: string, subtaskId: string, p: SubtaskPatch): (r: seq<Task>)
    ensures |r| == |tasks|
    ensures forall k :: 0 <= k < |tasks| ==>
      r[k] == if tasks[k].id == taskId then tasks[k].(subtasks := MergeSubtasks(tasks[k].subtasks, subtaskId, p))
              else tasks[k]
  {
    Map(tasks, (t: Task) => if t.id == taskId then t.(subtasks := MergeSubtasks(t.subtasks, subtaskId, p)) else t)
  }

  /** `subtasks.filter(subtask => subtask.id !== subtaskId)` */
  function DropSubtask(subtasks: seq<Subtask>, subtaskId: string): (r: seq<Subtask>)
    ensures forall s :: s in r <==> s in subtasks && s.id != subtaskId
  {
    Filter(subtasks, (s: Subtask) => s.id != subtaskId)
  }

  /** In the task with `taskId`, the subtask with `subtaskId` is dropped. */
  function WithSubtaskDropped(tasks: seq<Task>, taskId: string, subtaskId: string): (r: seq<Task>)
    ensures |r| == |tasks|
    ensures forall k :: 0 <= k < |tasks| ==>
      r[k] == if tasks[k].id == taskId then tasks[k].(subtasks := DropSubtask(tasks[k].subtasks, subtaskId))
              else tasks[k]
  {
    Map(tasks, (t: Task) => if t.id == taskId then t.(subtasks := DropSubtask(t.subtasks, subtaskId)) else t)
  }

  // ---- Agreement with the server's single-entry edits ----

  /** Ids are unique, as uuids make them. */
  predicate UniqueIds(tasks: seq<Task>) {
    forall i, j :: 0 <= i < j < |tasks| ==> tasks[i].id != tasks[j].id
  }

  /** Removing an id no task carries changes nothing. */
  lemma {:induction false} WithoutAbsentTask(tasks: seq<Task>, id: string)
    requires forall k :: 0 <= k < |tasks| ==> tasks[k].id != id
    ensures WithoutTask(tasks, id) == tasks
  {
    if tasks != [] {
      WithoutAbsentTask(tasks[1..], id);
      WithoutTaskUnfold(tasks, id);
    }
  }

  lemma WithoutTaskUnfold(tasks: seq<Task>, id: string)
    requires tasks != []
    ensures WithoutTask(tasks, id)
         == (if tasks[0].id != id then [tasks[0]] else []) + WithoutTask(tasks[1..], id)
  {
  }

  /** With unique ids, removing every task with the id (as the client does)
      removes exactly the first one (as the server does). */
  lemma {:induction false} WithoutTaskIsSplice(tasks: seq<Task>, id: string)
    requires UniqueIds(tasks)
    ensures var i := TaskIndex(tasks, id);
      && (i == -1 ==> WithoutTask(tasks, id) == tasks)
      && (i >= 0 ==> WithoutTask(tasks, id) == RemoveAt(tasks, i))
  {
    if tasks != [] {
      if tasks[0].id == id {
        WithoutMatchingHead(tasks, id);
      } else {
        assert UniqueIds(tasks[1..]) by {
          forall i, j | 0 <= i < j < |tasks[1..]| ensures tasks[1..][i].id != tasks[1..][j].id {
            assert tasks[i + 1].id != tasks[j + 1].id;
          }
        }
        WithoutTaskIsSplice(tasks[1..], id);
        WithoutOtherHead(tasks, id);
      }
    }
  }

  /** The first task carries the id: with unique ids, no other does. */
  lemma WithoutMatchingHead(tasks: seq<Task>, id: string)
    requires UniqueIds(tasks) && tasks != [] && tasks[0].id == id
    ensures TaskIndex(tasks, id) == 0 && WithoutTask(tasks, id) == RemoveAt(tasks, 0)
  {
    var rest := tasks[1..];
    WithoutTaskUnfold(tasks, id);
    forall k | 0 <= k < |rest| ensures rest[k].id != id {
      assert tasks[0].id != tasks[k + 1].id;
    }
    WithoutAbsentTask(rest, id);
  }

  /** The first task does not carry the id: the splice happens in the rest. */
  lemma WithoutOtherHead(tasks: seq<Task>, id: string)
    requires tasks != [] && tasks[0].id != id
    requires var j := TaskIndex(tasks[1..], id);
      && (j == -1 ==> WithoutTask(tasks[1..], id) == tasks[1..])
      && (j >= 0 ==> WithoutTask(tasks[1..], id) == RemoveAt(tasks[1..], j))
    ensures var i := TaskIndex(tasks, id);
      && (i == -1 ==> WithoutTask(tasks, id) == tasks)
      && (i >= 0 ==> WithoutTask(tasks, id) == RemoveAt(tasks, i))
  {
    TaskIndexAfterHead(tasks, id);
    var j := TaskIndex(tasks[1..], id);
    if j >= 0 {
      SpliceAfterHead(tasks, id, j);
    } else {
      WithoutTaskUnfold(tasks, id);
      assert tasks == [tasks[0]] + tasks[1..];
    }
  }

  lemma SpliceAfterHead(tasks: seq<Task>, id: string, j: nat)
    requires j + 1 < |tasks| && tasks[0].id != id
    requires WithoutTask(tasks[1..], id) == RemoveAt(tasks[1..], j)
    ensures WithoutTask(tasks, id) == RemoveAt(tasks, j + 1)
  {
    WithoutTaskUnfold(tasks, id);
    RemoveAtAfterHead(tasks, j);
  }

  /** Subtask ids within a task are unique, as uuids make them. */
  predicate UniqueSubtaskIds(subtasks: seq<Subtask>) {
    forall i, j :: 0 <= i < j < |subtasks| ==> subtasks[i].id != subtasks[j].id
  }

  /** Dropping a subtask keeps the order of the rest: the drop of a
      concatenation is the concatenation of the drops. */
  lemma {:induction false} DropSubtaskKeepsOrder(a: seq<Subtask>, b: seq<Subtask>, subtaskId: string)
    ensures DropSubtask(a + b, subtaskId) == DropSubtask(a, subtaskId) + DropSubtask(b, subtaskId)
  {
    FilterAppend(a, b, (s: Subtask) => s.id != subtaskId);
  }

  /** Dropping an id no subtask carries changes nothing. */
  lemma {:induction false} DropAbsentSubtask(subtasks: seq<Subtask>, subtaskId: string)
    requires forall k :: 0 <= k < |subtasks| ==> subtasks[k].id != subtaskId
    ensures DropSubtask(subtasks, subtaskId) == subtasks
  {
    if subtasks != [] {
      DropAbsentSubtask(subtasks[1..], subtaskId);
      DropSubtaskUnfold(subtasks, subtaskId);
    }
  }

  lemma DropSubtaskUnfold(subtasks: seq<Subtask>, subtaskId: string)
    requires subtasks != []
    ensures DropSubtask(subtasks, subtaskId)
         == (if subtasks[0].id != subtaskId then [subtasks[0]] else []) + DropSubtask(subtasks[1..], subtaskId)
  {
  }

  /** With unique ids, the client's drop of every subtask with the id is the
      server's splice of the first one. */
  lemma {:induction false} DropSubtaskIsSplice(subtasks: seq<Subtask>, subtaskId: string)
    requires UniqueSubtaskIds(subtasks)
    ensures var j := SubtaskIndex(subtasks, subtaskId);
      && (j == -1 ==> DropSubtask(subtasks, subtaskId) == subtasks)
      && (j >= 0 ==> DropSubtask(subtasks, subtaskId) == RemoveAt(subtasks, j))
  {
    if subtasks != [] {
      if subtasks[0].id == subtaskId {
        DropMatchingHead(subtasks, subtaskId);
      } else {
        assert UniqueSubtaskIds(subtasks[1..]) by {
          forall i, j | 0 <= i < j < |subtasks[1..]| ensures subtasks[1..][i].id != subtasks[1..][j].id {
            assert subtasks[i + 1].id != subtasks[j + 1].id;
          }
        }
        DropSubtaskIsSplice(subtasks[1..], subtaskId);
        DropOtherHead(subtasks, subtaskId);
      }
    }
  }

  lemma DropMatchingHead(subtasks: seq<Subtask>, subtaskId: string)
    requires UniqueSubtaskIds(subtasks) && subtasks != [] && subtasks[0].id == subtaskId
    ensures SubtaskIndex(subtasks, subtaskId) == 0 && DropSubtask(subtasks, subtaskId) == RemoveAt(subtasks, 0)
  {
    var rest := subtasks[1..];
    DropSubtaskUnfold(subtasks, subtaskId);
    forall k | 0 <= k < |rest| ensures rest[k].id != subtaskId {
      assert subtasks[0].id != subtasks[k + 1].id;
    }
    DropAbsentSubtask(rest, subtaskId);
  }

  lemma DropOtherHead(subtasks: seq<Subtask>, subtaskId: string)
    requires subtasks != [] && subtasks[0].id != subtaskId
    requires var j := SubtaskIndex(subtasks[1..], subtaskId);
      && (j == -1 ==> DropSubtask(subtasks[1..], subtaskId) == subtasks[1..])
      && (j >= 0 ==> DropSubtask(subtasks[1..], subtaskId) == RemoveAt(subtasks[1..], j))
    ensures var i := SubtaskIndex(subtasks, subtaskId);
      && (i == -1 ==> DropSubtask(subtasks, subtaskId) == subtasks)
      && (i >= 0 ==> DropSubtask(subtasks, subtaskId) == RemoveAt(subtasks, i))
  {
    SubtaskIndexAfterHead(subtasks, subtaskId);
    var j := SubtaskIndex(subtasks[1..], subtaskId);
    if j >= 0 {
      DropSpliceAfterHead(subtasks, subtaskId, j);
    } else {
      DropSubtaskUnfold(subtasks, subtaskId);
      assert subtasks == [subtasks[0]] + subtasks[1..];
    }
  }

  lemma DropSpliceAfterHead(subtasks: seq<Subtask>, subtaskId: string, j: nat)
    requires j + 1 < |subtasks| && subtasks[0].id != subtaskId
    requires DropSubtask(subtasks[1..], subtaskId) == RemoveAt(subtasks[1..], j)
    ensures DropSubtask(subtasks, subtaskId) == RemoveAt(subtasks, j + 1)
  {
    DropSubtaskUnfold(subtasks, subtaskId);
    RemoveAtAfterHead(subtasks, j);
  }

  /** With unique ids, merging the server's answer (a complete task with the
      same id) into every matching task is replacing the one the server
      updated, and only it. */
  lemma WithTaskMergedIsReplace(tasks: seq<Task>, id: string, updated: Task)
    requires UniqueIds(tasks) && updated.id == id
    ensures var i := TaskIndex(tasks, id);
      && (i == -1 ==> WithTaskMerged(tasks, id, TaskAsPatch(updated)) == tasks)
      && (i >= 0 ==> WithTaskMerged(tasks, id, TaskAsPatch(updated)) == tasks[i := updated])
  {
    var r := WithTaskMerged(tasks, id, TaskAsPatch(updated));
    var i := TaskIndex(tasks, id);
    if i >= 0 {
      forall k | 0 <= k < |tasks|
        ensures r[k] == tasks[i := updated][k]
      {
        if k != i {
          assert tasks[k].id != id;
        }
      }
    }
  }

  // ---- The hook's state ----

  class TaskListState {
    /** The full list as last fetched or locally updated. */
    var tasks: seq<Task>
    /** 'all', 'completed', 'pending' or 'partial'. */
    var filter: string
    var error: Option<string>

    constructor ()
      ensures tasks == [] && filter == "all" && error == None
    {
      tasks := [];
      filter := "all";
      error := None;
    }

    /** The list the hook returns as `tasks`. */
    function Visible(): (r: seq<Task>)
      reads this
      ensures |r| <= |tasks|
      ensures forall t :: t in r ==> t in tasks
      ensures filter != "completed" && filter != "pending" && filter != "partial" ==> r == tasks
    {
      FilteredTasks(tasks, filter)
    }

    method SetFilter(f: string)
      modifies this
      ensures filter == f && tasks == old(tasks) && error == old(error)
    {
      filter := f;
    }

    /** `fetchTasks`: clears the error, then takes the fetched list or
        records the failure. */
    method Refresh(fetched: Option<seq<Task>>)
      modifies this
      ensures filter == old(filter)
      ensures fetched.Some? ==> tasks == fetched.value && error == None
      ensures fetched.None? ==> tasks == old(tasks) && error == Some(FetchFailed)
    {
      error := None;
      if fetched.Some? {
        tasks := fetched.value;
      } else {
        error := Some(FetchFailed);
      }
    }

    /** `createTask`: appends the created task at the end. */
    method CreateTask(created: Option<Task>) returns (result: Option<Task>)
      modifies this
      ensures result == created && filter == old(filter)
      ensures created.Some? ==> tasks == old(tasks) + [created.value] && error == old(error)
      ensures created.None? ==> tasks == old(tasks) && error == Some(CreateFailed)
    {
      if created.None? {
        error := Some(CreateFailed);
        return None;
      }
      tasks := tasks + [created.value];
      result := created;
    }

    /** `updateTask`: spreads the server's answer over every task with `id`. */
    method UpdateTask(id: string, answer: Option<TaskPatch>) returns (result: Option<TaskPatch>)
      modifies this
      ensures result == answer && filter == old(filter)
      ensures answer.Some? ==> tasks == WithTaskMerged(old(tasks), id, answer.value) && error == old(error)
      ensures answer.None? ==> tasks == old(tasks) && error == Some(UpdateFailed)
    {
      if answer.None? {
        error := Some(UpdateFailed);
        return None;
      }
      tasks := WithTaskMerged(tasks, id, answer.value);
      result := answer;
    }

    /** `deleteTask`: drops every task with `id` once the server confirms. */
    method DeleteTask(id: string, confirmed: bool)
      modifies this
      ensures filter == old(filter)
      ensures confirmed ==> tasks == WithoutTask(old(tasks), id) && error == old(error)
      ensures !confirmed ==> tasks == old(tasks) && error == Some(DeleteFailed)
    {
      if !confirmed {
        error := Some(DeleteFailed);
        return;
      }
      tasks := WithoutTask(tasks, id);
    }

    /** `addSubtask`: appends the created subtask to the task with `taskId`. */
    method AddSubtask(taskId: string, created: Option<Subtask>) returns (result: Option<Subtask>)
      modifies this
      ensures result == created && filter == old(filter)
      ensures created.Some? ==>
        tasks == WithSubtaskAppended(old(tasks), taskId, created.value) && error == old(error)
      ensures created.None? ==> tasks == old(tasks) && error == Some(AddSubtaskFailed)
    {
      if created.None? {
        error := Some(AddSubtaskFailed);
        return None;
      }
      tasks := WithSubtaskAppended(tasks, taskId, created.value);
      result := created;
    }

    /** `updateSubtask`: spreads the server's answer over the matching subtask. */
    method UpdateSubtask(taskId: string, subtaskId: string, answer: Option<SubtaskPatch>)
      returns (result: Option<SubtaskPatch>)
      modifies this
      ensures result == answer && filter == old(filter)
      ensures answer.Some? ==>
        tasks == WithSubtaskMerged(old(tasks), taskId, subtaskId, answer.value) && error == old(error)
      ensures answer.None? ==> tasks == old(tasks) && error == Some(UpdateSubtaskFailed)
    {
      if answer.None? {
        error := Some(UpdateSubtaskFailed);
        return None;
      }
      tasks := WithSubtaskMerged(tasks, taskId, subtaskId, answer.value);
      result := answer;
    }

    /** `deleteSubtask`: drops the subtask from the task with `taskId` once the
        server confirms. */
    method DeleteSubtask(taskId: string, subtaskId: string, confirmed: bool)
      modifies this
      ensures filter == old(filter)
      ensures confirmed ==> tasks == WithSubtaskDropped(old(tasks), taskId, subtaskId) && error == old(error)
      ensures !confirmed ==> tasks == old(tasks) && error == Some(DeleteSubtaskFailed)
    {
      if !confirmed {
        error := Some(DeleteSubtaskFailed);
        return;
      }
      tasks := WithSubtaskDropped(tasks, taskId, subtaskId);
    }
  }
}
