/** The entities shared by the server and the client (a task owning an ordered
    list of subtasks) and the one rule that derives a task's `progress` and
    `completed` from its subtasks. */
module TaskModel {
  import opened SeqOps

  datatype Option<T> = None | Some(value: T) {
    /** `x !== undefined ? x : fallback` */
    function GetOr(fallback: T): T {
      if Some? then value else fallback
    }
  }

  datatype Subtask = Subtask(id: string, title: string, completed: bool, createdAt: string)

  /** `dueDate` is `None` where the stored JSON holds `null`. `progress` is
      whatever number was last stored: a caller may set any value on a task
      without subtasks. */
  datatype Task = Task(
    id: string,
    title: string,
    description: string,
    dueDate: Option<string>,
    completed: bool,
    progress: int,
    createdAt: string,
    subtasks: seq<Subtask>)

  /** JavaScript truthiness of an optional string request field:
      present and not the empty string. */
  predicate Truthy(s: Option<string>) {
    s.Some? && s.value != ""
  }

  predicate IsDone(s: Subtask) {
    s.completed
  }

  /** `tasks.findIndex(task => task.id === id)` */
  function TaskIndex(tasks: seq<Task>, id: string): (i: int)
    ensures -1 <= i < |tasks|
    ensures i == -1 <==> forall k :: 0 <= k < |tasks| ==> tasks[k].id != id
    ensures 0 <= i ==> tasks[i].id == id && forall k :: 0 <= k < i ==> tasks[k].id != id
  {
    FindIndex(tasks, (t: Task) => t.id == id)
  }

  /** A search that skips a non-matching head finds the same entry one place later. */
  lemma TaskIndexAfterHead(tasks: seq<Task>, id: string)
    requires tasks != [] && tasks[0].id != id
    ensures var i, j := TaskIndex(tasks, id), TaskIndex(tasks[1..], id);
      (j == -1 ==> i == -1) && (j >= 0 ==> i == j + 1)
  {
  }

  /** `subtasks.findIndex(subtask => subtask.id === id)` */
  function SubtaskIndex(subtasks: seq<Subtask>, id: string): (j: int)
    ensures -1 <= j < |subtasks|
    ensures j == -1 <==> forall k :: 0 <= k < |subtasks| ==> subtasks[k].id != id
    ensures 0 <= j ==> subtasks[j].id == id && forall k :: 0 <= k < j ==> subtasks[k].id != id
  {
    FindIndex(subtasks, (s: Subtask) => s.id == id)
  }

  /** The subtask search steps past a non-matching head the same way. */
  lemma SubtaskIndexAfterHead(subtasks: seq<Subtask>, id: string)
    requires subtasks != [] && subtasks[0].id != id
    ensures var i, j := SubtaskIndex(subtasks, id), SubtaskIndex(subtasks[1..], id);
      (j == -1 ==> i == -1) && (j >= 0 ==> i == j + 1)
  {
  }

  /** `subtasks.filter(st => st.completed).length` */
  function CompletedCount(subtasks: seq<Subtask>): (c: nat)
    ensures c <= |subtasks|
    ensures c == |subtasks| <==> forall k :: 0 <= k < |subtasks| ==> subtasks[k].completed
    ensures c == 0 <==> forall k :: 0 <= k < |subtasks| ==> !subtasks[k].completed
  {
    |Filter(subtasks, IsDone)|
  }

  /** `Math.round(c / n * 100)` computed exactly on integers: `r` is the
      integer nearest to `100 * c / n`, halves rounding up. */
  function RoundedPercent(c: nat, n: nat): (r: int)
    requires 0 < n
    ensures n * (2 * r - 1) <= 200 * c < n * (2 * r + 1)
    ensures c <= n ==> 0 <= r <= 100
  {
    var r := (200 * c + n) / (2 * n);
    HalfUpBounds(c, n, r);
    r
  }

  lemma HalfUpBounds(c: nat, n: nat, r: int)
    requires 0 < n && r == (200 * c + n) / (2 * n)
    ensures n * (2 * r - 1) <= 200 * c < n * (2 * r + 1)
    ensures c <= n ==> 0 <= r <= 100
  {
    var m := (200 * c + n) % (2 * n);
    assert 200 * c + n == 2 * n * r + m && 0 <= m < 2 * n;
    assert n * (2 * r - 1) == 2 * n * r - n;
    assert n * (2 * r + 1) == 2 * n * r + n;
    ScaleLe(n, 0, 2 * r + 1);
    ScaleLe(n, 2 * r - 1, 200);
  }

  /** Multiplying by a positive number keeps the order of two integers. */
  lemma ScaleLe(n: int, a: int, b: int)
    requires 0 < n
    ensures n * a <= n * b <==> a <= b
  {
    if a < b {
      ScaleAtLeast(n, b - a);
      assert n * b - n * a == n * (b - a);
    } else if b < a {
      ScaleAtLeast(n, a - b);
      assert n * a - n * b == n * (a - b);
    }
  }

  lemma {:induction false} ScaleAtLeast(n: int, d: int)
    requires 0 < n && 0 < d
    ensures n * d >= n
    decreases d
  {
    if d > 1 {
      ScaleAtLeast(n, d - 1);
      assert n * d == n * (d - 1) + n;
    }
  }

  /** The progress a task with subtasks must carry. */
  function SubtaskProgress(subtasks: seq<Subtask>): int
    requires |subtasks| > 0
  {
    RoundedPercent(CompletedCount(subtasks), |subtasks|)
  }

  /** The derived-field rule: a task with subtasks has the progress of its
      subtasks and is completed exactly when that progress is 100. A task
      without subtasks is unconstrained. */
  predicate DerivedFieldsHold(t: Task) {
    |t.subtasks| > 0 ==>
      t.progress == SubtaskProgress(t.subtasks) && t.completed == (t.progress == 100)
  }

  /** The recomputation each handler runs after touching a task: it enforces
      the rule, changes nothing but `progress` and `completed`, and leaves a
      task without subtasks exactly as it was. */
  function WithDerivedProgress(t: Task): (r: Task)
    ensures DerivedFieldsHold(r)
    ensures r.(progress := t.progress, completed := t.completed) == t
    ensures |t.subtasks| == 0 ==> r == t
  {
    if |t.subtasks| > 0 then
      var p := SubtaskProgress(t.subtasks);
      t.(progress := p, completed := p == 100)
    else
      t
  }

  /** Every task of a list obeys the derived-field rule. */
  predicate AllDerived(tasks: seq<Task>) {
    forall k :: 0 <= k < |tasks| ==> DerivedFieldsHold(tasks[k])
  }

  /** Counting completed subtasks follows concatenation. */
  lemma CompletedCountAppend(a: seq<Subtask>, b: seq<Subtask>)
    ensures CompletedCount(a + b) == CompletedCount(a) + CompletedCount(b)
  {
    FilterAppend(a, b, IsDone);
  }

  /** Rounding reaches 100 exactly when at least 99.5% of the subtasks are done. */
  lemma FullProgressIff(c: nat, n: nat)
    requires 0 < n && c <= n
    ensures RoundedPercent(c, n) == 100 <==> 200 * c >= 199 * n
  {
    var r := RoundedPercent(c, n);
    assert n * (2 * 100 - 1) == 199 * n;
    ScaleLe(n, 2 * r + 1, 199);
  }

  /** Rounding gives 0 exactly when fewer than 0.5% of the subtasks are done. */
  lemma ZeroProgressIff(c: nat, n: nat)
    requires 0 < n
    ensures RoundedPercent(c, n) == 0 <==> 200 * c < n
  {
    var r := RoundedPercent(c, n);
    ScaleLe(n, 1, 2 * r - 1);
  }

  /** With fewer than 200 subtasks a task is completed exactly when every
      subtask is; with none completed its progress is 0 (and with at most 200
      subtasks, only then). */
  lemma {:induction false} DerivedCompletion(t: Task)
    requires DerivedFieldsHold(t) && 0 < |t.subtasks|
    ensures 0 <= t.progress <= 100
    ensures |t.subtasks| < 200 ==>
      (t.completed <==> forall k :: 0 <= k < |t.subtasks| ==> t.subtasks[k].completed)
    ensures |t.subtasks| <= 200 ==>
      (t.progress == 0 <==> forall k :: 0 <= k < |t.subtasks| ==> !t.subtasks[k].completed)
  {
    var c, n := CompletedCount(t.subtasks), |t.subtasks|;
    FullProgressIff(c, n);
    ZeroProgressIff(c, n);
  }

  /** Rounding lets 199 completed subtasks out of 200 count as 100%. */
  lemma NearlyDoneRoundsToFull()
    ensures RoundedPercent(199, 200) == 100
    ensures RoundedPercent(198, 200) == 99
    ensures RoundedPercent(1, 3) == 33
  {
  }

  /** More completed subtasks never give less progress. */
  lemma RoundedPercentMonotone(c1: nat, c2: nat, n: nat)
    requires 0 < n && c1 <= c2
    ensures RoundedPercent(c1, n) <= RoundedPercent(c2, n)
  {
    var r1, r2 := RoundedPercent(c1, n), RoundedPercent(c2, n);
    ScaleLe(n, 2 * r2 + 1, 2 * r1 - 1);
  }

  /** Recomputing twice changes nothing more than recomputing once. */
  lemma DerivedIdempotent(t: Task)
    ensures WithDerivedProgress(WithDerivedProgress(t)) == WithDerivedProgress(t)
  {
  }
}
