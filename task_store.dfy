/** The server's task store: the six route handlers that create, update and
    delete tasks and subtasks. Each handler reads the task list, changes at
    most one task and writes the list back; here the list is a field of a
    `Store`, and ids and timestamps, which the server draws from a uuid
    generator and the clock, are parameters. */
module TaskStore {
  import opened SeqOps
  import opened TaskModel

  /** Which lookup failed, for a 404 answer. */
  datatype Entity = TaskEntity | SubtaskEntity

  /** A handler's answer: success with its JSON body (200 or 201), a refused
      request (400), or a missing task or subtask (404). */
  datatype Response<T> = Ok(body: T) | Invalid | NotFound(which: Entity)

  /** The body of a create request; `None` stands for an absent field. */
  datatype NewTaskRequest = NewTaskRequest(
    title: Option<string>,
    description: Option<string>,
    dueDate: Option<string>)

  /** The body of a task update. `None` is an absent (`undefined`) field;
      `dueDate == Some(None)` is an explicit `null`, which clears the date. */
  datatype TaskUpdate = TaskUpdate(
    title: Option<string>,
    description: Option<string>,
    dueDate: Option<Option<string>>,
    completed: Option<bool>,
    progress: Option<int>)

  /** The body of a subtask update. */
  datatype SubtaskUpdate = SubtaskUpdate(title: Option<string>, completed: Option<bool>)

  /** The sparse merge of a task update: a truthy title replaces the title,
      every other supplied field replaces its own, and the rest is kept. */
  function MergeTaskUpdate(t: Task, u: TaskUpdate): (r: Task)
    ensures r.(title := t.title, description := t.description, dueDate := t.dueDate,
               completed := t.completed, progress := t.progress) == t
    ensures Truthy(u.title) ==> r.title == u.title.value
    ensures !Truthy(u.title) ==> r.title == t.title
    ensures (u.description.Some? ==> r.description == u.description.value)
         && (u.description.None? ==> r.description == t.description)
    ensures (u.dueDate.Some? ==> r.dueDate == u.dueDate.value) && (u.dueDate.None? ==> r.dueDate == t.dueDate)
    ensures (u.completed.Some? ==> r.completed == u.completed.value)
         && (u.completed.None? ==> r.completed == t.completed)
    ensures (u.progress.Some? ==> r.progress == u.progress.value) && (u.progress.None? ==> r.progress == t.progress)
  {
    t.(title := if Truthy(u.title) then u.title.value else t.title,
       description := u.description.GetOr(t.description),
       dueDate := u.dueDate.GetOr(t.dueDate),
       completed := u.completed.GetOr(t.completed),
       progress := u.progress.GetOr(t.progress))
  }

  /** The sparse merge of a subtask update. */
  function MergeSubtaskUpdate(s: Subtask, u: SubtaskUpdate): (r: Subtask)
    ensures r.(title := s.title, completed := s.completed) == s
    ensures Truthy(u.title) ==> r.title == u.title.value
    ensures !Truthy(u.title) ==> r.title == s.title
    ensures (u.completed.Some? ==> r.completed == u.completed.value)
         && (u.completed.None? ==> r.completed == s.completed)
  {
    s.(title := if Truthy(u.title) then u.title.value else s.title,
       completed := u.completed.GetOr(s.completed))
  }

  /** The task a task update stores and answers with. */
  function UpdatedTask(t: Task, u: TaskUpdate): (r: Task)
    ensures DerivedFieldsHold(r)
    ensures r.(progress := MergeTaskUpdate(t, u).progress, completed := MergeTaskUpdate(t, u).completed)
         == MergeTaskUpdate(t, u)
    ensures |t.subtasks| == 0 ==> r == MergeTaskUpdate(t, u)
  {
    WithDerivedProgress(MergeTaskUpdate(t, u))
  }

  /** A task with `s` appended to its subtasks, as the add-subtask handler
      stores it. */
  function WithSubtaskAdded(t: Task, s: Subtask): (r: Task)
    ensures r.subtasks == t.subtasks + [s]
    ensures DerivedFieldsHold(r)
    ensures r.(progress := t.progress, completed := t.completed, subtasks := t.subtasks) == t
  {
    WithDerivedProgress(t.(subtasks := t.subtasks + [s]))
  }

  /** A task with the subtask at `j` merged with `u`, as the update-subtask
      handler stores it. */
  function WithSubtaskUpdated(t: Task, j: nat, u: SubtaskUpdate): (r: Task)
    requires j < |t.subtasks|
    ensures |r.subtasks| == |t.subtasks|
    ensures r.subtasks[j] == MergeSubtaskUpdate(t.subtasks[j], u)
    ensures forall k :: 0 <= k < |t.subtasks| && k != j ==> r.subtasks[k] == t.subtasks[k]
    ensures DerivedFieldsHold(r)
    ensures r.(progress := t.progress, completed := t.completed, subtasks := t.subtasks) == t
  {
    WithDerivedProgress(t.(subtasks := t.subtasks[j := MergeSubtaskUpdate(t.subtasks[j], u)]))
  }

  /** A task with the subtask at `j` removed, as the delete-subtask handler
      stores it: no subtasks left resets the progress to 0. */
  function WithSubtaskRemoved(t: Task, j: nat): (r: Task)
    requires j < |t.subtasks|
    ensures r.subtasks == RemoveAt(t.subtasks, j)
    ensures DerivedFieldsHold(r)
    ensures r.subtasks == [] ==> r.progress == 0 && !r.completed
    ensures r.(progress := t.progress, completed := t.completed, subtasks := t.subtasks) == t
  {
    var rest := t.(subtasks := RemoveAt(t.subtasks, j));
    if |rest.subtasks| > 0 then WithDerivedProgress(rest)
    else rest.(progress := 0, completed := false)
  }

  class Store {
    /** The stored task list, in display order. */
    var tasks: seq<Task>

    /** The data file starts as `{ tasks: [] }`. */
    constructor ()
      ensures tasks == []
    {
      tasks := [];
    }

    /** GET /api/tasks/:id: the first task carrying the id. */
    method GetTask(id: string) returns (resp: Response<Task>)
      ensures !resp.Invalid?
      ensures resp.NotFound? <==> forall k :: 0 <= k < |tasks| ==> tasks[k].id != id
      ensures resp.NotFound? ==> resp.which == TaskEntity
      ensures resp.Ok? ==> resp.body.id == id
      ensures resp.Ok? ==>
        exists i :: 0 <= i < |tasks| && tasks[i] == resp.body && forall k :: 0 <= k < i ==> tasks[k].id != id
    {
      var i := TaskIndex(tasks, id);
      if i == -1 {
        return NotFound(TaskEntity);
      }
      resp := Ok(tasks[i]);
    }

    /** POST /api/tasks */
    method CreateTask(req: NewTaskRequest, id: string, now: string) returns (resp: Response<Task>)
      modifies this
      ensures resp == Invalid <==> !Truthy(req.title)
      ensures !resp.NotFound?
      ensures resp == Invalid ==> tasks == old(tasks)
      ensures resp.Ok? ==> tasks == old(tasks) + [resp.body]
      ensures resp.Ok? ==>
        && resp.body.id == id
        && resp.body.title == req.title.value
        && resp.body.description == (if Truthy(req.description) then req.description.value else "")
        && resp.body.dueDate == (if Truthy(req.dueDate) then req.dueDate else None)
        && !resp.body.completed
        && resp.body.progress == 0
        && resp.body.createdAt == now
        && resp.body.subtasks == []
      ensures AllDerived(old(tasks)) ==> AllDerived(tasks)
    {
      if !Truthy(req.title) {
        return Invalid;
      }
      var newTask := Task(
        id,
        req.title.value,
        if Truthy(req.description) then req.description.value else "",
        if Truthy(req.dueDate) then req.dueDate else None,
        false,
        0,
        now,
        []);
      tasks := tasks + [newTask];
      resp := Ok(newTask);
    }

    /** PUT /api/tasks/:id */
    method UpdateTask(id: string, u: TaskUpdate) returns (resp: Response<Task>)
      modifies this
      ensures var i := TaskIndex(old(tasks), id);
        && (i == -1 ==> resp == NotFound(TaskEntity) && tasks == old(tasks))
        && (i >= 0 ==>
              resp == Ok(UpdatedTask(old(tasks)[i], u)) && tasks == old(tasks)[i := resp.body])
      ensures AllDerived(old(tasks)) ==> AllDerived(tasks)
    {
      var i := TaskIndex(tasks, id);
      if i == -1 {
        return NotFound(TaskEntity);
      }
      var updated := MergeTaskUpdate(tasks[i], u);
      if |updated.subtasks| > 0 {
        var p := SubtaskProgress(updated.subtasks);
        updated := updated.(progress := p);
        updated := updated.(completed := updated.progress == 100);
      }
      tasks := tasks[i := updated];
      resp := Ok(updated);
    }

    /** DELETE /api/tasks/:id */
    method DeleteTask(id: string) returns (resp: Response<()>)
      modifies this
      ensures var i := TaskIndex(old(tasks), id);
        && (i == -1 ==> resp == NotFound(TaskEntity) && tasks == old(tasks))
        && (i >= 0 ==> resp == Ok(()) && tasks == RemoveAt(old(tasks), i))
      ensures AllDerived(old(tasks)) ==> AllDerived(tasks)
    {
      var i := TaskIndex(tasks, id);
      if i == -1 {
        return NotFound(TaskEntity);
      }
      tasks := RemoveAt(tasks, i);
      resp := Ok(());
    }

    /** POST /api/tasks/:id/subtasks. The title is checked before the lookup. */
    method AddSubtask(taskId: string, title: Option<string>, subtaskId: string, now: string)
      returns (resp: Response<Subtask>)
      modifies this
      ensures var i := TaskIndex(old(tasks), taskId);
        && (!Truthy(title) ==> resp == Invalid && tasks == old(tasks))
        && (Truthy(title) && i == -1 ==> resp == NotFound(TaskEntity) && tasks == old(tasks))
        && (Truthy(title) && i >= 0 ==>
              && resp == Ok(Subtask(subtaskId, title.value, false, now))
              && tasks == old(tasks)[i := WithSubtaskAdded(old(tasks)[i], resp.body)])
      ensures AllDerived(old(tasks)) ==> AllDerived(tasks)
    {
      if !Truthy(title) {
        return Invalid;
      }
      var i := TaskIndex(tasks, taskId);
      if i == -1 {
        return NotFound(TaskEntity);
      }
      var subtask := Subtask(subtaskId, title.value, false, now);
      var t := tasks[i];
      t := t.(subtasks := t.subtasks + [subtask]);
      var p := SubtaskProgress(t.subtasks);
      t := t.(progress := p);
      t := t.(completed := t.progress == 100);
      tasks := tasks[i := t];
      resp := Ok(subtask);
    }

    /** PUT /api/tasks/:taskId/subtasks/:subtaskId */
    method UpdateSubtask(taskId: string, subtaskId: string, u: SubtaskUpdate)
      returns (resp: Response<Subtask>)
      modifies this
      ensures var i := TaskIndex(old(tasks), taskId);
        && (i == -1 ==> resp == NotFound(TaskEntity) && tasks == old(tasks))
        && (i >= 0 ==>
              var j := SubtaskIndex(old(tasks)[i].subtasks, subtaskId);
              && (j == -1 ==> resp == NotFound(SubtaskEntity) && tasks == old(tasks))
              && (j >= 0 ==>
                    && resp == Ok(MergeSubtaskUpdate(old(tasks)[i].subtasks[j], u))
                    && tasks == old(tasks)[i := WithSubtaskUpdated(old(tasks)[i], j, u)]))
      ensures AllDerived(old(tasks)) ==> AllDerived(tasks)
    {
      var i := TaskIndex(tasks, taskId);
      if i == -1 {
        return NotFound(TaskEntity);
      }
      var j := SubtaskIndex(tasks[i].subtasks, subtaskId);
      if j == -1 {
        return NotFound(SubtaskEntity);
      }
      var t := tasks[i];
      var subtask := MergeSubtaskUpdate(t.subtasks[j], u);
      t := t.(subtasks := t.subtasks[j := subtask]);
      var p := SubtaskProgress(t.subtasks);
      t := t.(progress := p);
      t := t.(completed := t.progress == 100);
      tasks := tasks[i := t];
      resp := Ok(subtask);
    }

    /** DELETE /api/tasks/:taskId/subtasks/:subtaskId */
    method DeleteSubtask(taskId: string, subtaskId: string) returns (resp: Response<()>)
      modifies this
      ensures var i := TaskIndex(old(tasks), taskId);
        && (i == -1 ==> resp == NotFound(TaskEntity) && tasks == old(tasks))
        && (i >= 0 ==>
              var j := SubtaskIndex(old(tasks)[i].subtasks, subtaskId);
              && (j == -1 ==> resp == NotFound(SubtaskEntity) && tasks == old(tasks))
              && (j >= 0 ==>
                    resp == Ok(()) && tasks == old(tasks)[i := WithSubtaskRemoved(old(tasks)[i], j)]))
      ensures AllDerived(old(tasks)) ==> AllDerived(tasks)
    {
      var i := TaskIndex(tasks, taskId);
      if i == -1 {
        return NotFound(TaskEntity);
      }
      var j := SubtaskIndex(tasks[i].subtasks, subtaskId);
      if j == -1 {
        return NotFound(SubtaskEntity);
      }
      var t := tasks[i];
      t := t.(subtasks := RemoveAt(t.subtasks, j));
      if |t.subtasks| > 0 {
        t := t.(progress := SubtaskProgress(t.subtasks));
      } else {
        t := t.(progress := 0);
      }
      t := t.(completed := t.progress == 100);
      tasks := tasks[i := t];
      resp := Ok(());
    }
  }

  /** A task update is a sparse merge: identity, creation time and subtasks
      are never touched, an empty title keeps the old one, absent fields keep
      their values, and a task without subtasks takes the caller's
      `completed` and `progress` as given. */
  lemma UpdateIsSparseMerge(t: Task, u: TaskUpdate)
    ensures var r := UpdatedTask(t, u);
      && r.id == t.id && r.createdAt == t.createdAt && r.subtasks == t.subtasks
      && (r.title == if Truthy(u.title) then u.title.value else t.title)
      && (u.description.None? ==> r.description == t.description)
      && (u.description.Some? ==> r.description == u.description.value)
      && (u.dueDate.None? ==> r.dueDate == t.dueDate)
      && (u.dueDate.Some? ==> r.dueDate == u.dueDate.value)
      && (|t.subtasks| == 0 ==>
            r.completed == u.completed.GetOr(t.completed) && r.progress == u.progress.GetOr(t.progress))
  {
  }

  /** An update that supplies nothing leaves the task as the derived-field
      rule would have it; on a task that obeys the rule, it changes nothing. */
  lemma EmptyUpdateChangesNothing(t: Task)
    requires DerivedFieldsHold(t)
    ensures UpdatedTask(t, TaskUpdate(None, None, None, None, None)) == t
  {
  }

  /** On a task with subtasks, the caller's `completed` and `progress` are
      overridden: the stored values depend only on the subtasks, lie in
      [0, 100], and `completed` is `progress == 100`. */
  lemma {:induction false} UpdateOverridesDerivedFields(t: Task, u: TaskUpdate)
    requires |t.subtasks| > 0
    ensures UpdatedTask(t, u) == UpdatedTask(t, u.(completed := None, progress := None))
    ensures var r := UpdatedTask(t, u);
      0 <= r.progress <= 100 && r.completed == (r.progress == 100)
  {
    DerivedCompletion(UpdatedTask(t, u));
  }

  /** Adding a subtask (never completed) leaves the task short of 100% unless
      it now has at least 200 subtasks; the progress stays in [0, 100]. */
  lemma {:induction false} AddedSubtaskBlocksCompletion(t: Task, s: Subtask)
    requires !s.completed
    ensures var r := WithSubtaskAdded(t, s);
      && r.subtasks == t.subtasks + [s]
      && 0 <= r.progress <= 100
      && (r.progress == 100 ==> |r.subtasks| >= 200)
      && (r.completed ==> |r.subtasks| >= 200)
  {
    var r := WithSubtaskAdded(t, s);
    CompletedCountAppend(t.subtasks, [s]);
    assert CompletedCount([s]) == 0;
    FullProgressIff(CompletedCount(r.subtasks), |r.subtasks|);
  }

  /** Updating a subtask changes that subtask alone: the others and the order
      stay, and the parent's other fields stay. */
  lemma UpdateSubtaskTouchesOnlyIt(t: Task, j: nat, u: SubtaskUpdate)
    requires j < |t.subtasks|
    ensures var r := WithSubtaskUpdated(t, j, u);
      && |r.subtasks| == |t.subtasks|
      && (forall k :: 0 <= k < |t.subtasks| && k != j ==> r.subtasks[k] == t.subtasks[k])
      && r.subtasks[j].id == t.subtasks[j].id
      && r.subtasks[j].createdAt == t.subtasks[j].createdAt
      && r.subtasks[j].title == (if Truthy(u.title) then u.title.value else t.subtasks[j].title)
      && r.subtasks[j].completed == u.completed.GetOr(t.subtasks[j].completed)
      && r.(progress := t.progress, completed := t.completed, subtasks := t.subtasks) == t
  {
  }

  /** On a task that obeys the rule, marking a subtask completed never lowers
      the task's progress, and marking it not completed never raises it. */
  lemma {:induction false} CompletingSubtaskRaisesProgress(t: Task, j: nat, u: SubtaskUpdate)
    requires DerivedFieldsHold(t) && j < |t.subtasks|
    ensures u.completed == Some(true) ==> WithSubtaskUpdated(t, j, u).progress >= t.progress
    ensures u.completed == Some(false) ==> WithSubtaskUpdated(t, j, u).progress <= t.progress
  {
    var s := t.subtasks;
    var x := MergeSubtaskUpdate(s[j], u);
    var a, b := s[..j], s[j+1..];
    assert s == a + [s[j]] + b;
    assert s[j := x] == a + [x] + b;
    CompletedCountAppend(a + [s[j]], b);
    CompletedCountAppend(a, [s[j]]);
    CompletedCountAppend(a + [x], b);
    CompletedCountAppend(a, [x]);
    var n := |s|;
    if u.completed == Some(true) {
      RoundedPercentMonotone(CompletedCount(s), CompletedCount(s[j := x]), n);
    } else if u.completed == Some(false) {
      RoundedPercentMonotone(CompletedCount(s[j := x]), CompletedCount(s), n);
    }
  }

  /** Deleting a subtask removes exactly that entry; when none remain the task
      drops back to 0% and not completed, otherwise the rule is reapplied. */
  lemma {:induction false} RemoveSubtaskResetsWhenEmpty(t: Task, j: nat)
    requires j < |t.subtasks|
    ensures var r := WithSubtaskRemoved(t, j);
      && r.subtasks == t.subtasks[..j] + t.subtasks[j+1..]
      && DerivedFieldsHold(r)
      && 0 <= r.progress <= 100
      && (|t.subtasks| == 1 ==> r.progress == 0 && !r.completed && r.subtasks == [])
  {
    var r := WithSubtaskRemoved(t, j);
    if |r.subtasks| > 0 {
      DerivedCompletion(r);
    }
  }
}
