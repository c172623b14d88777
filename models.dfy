/**
 * The domain entities. Timestamps are integers read from a clock the caller
 * passes in; a due date is optional. Board is the owner side of the one-to-many
 * relationship; its task collection is not stored on the entity but derived
 * from the tasks' `boardId` (see `Store.TaskKeysOf`).
 */
module Models {
  import opened Wrappers

  /** Workflow state of a task. Its ordinal is the storage and wire form. */
  datatype TaskStatus = Todo | InProgress | Done

  /** Urgency of a task. Its ordinal is the storage and wire form. */
  datatype TaskPriority = Low | Medium | High

  function StatusOrdinal(s: TaskStatus): (n: int)
    ensures 0 <= n <= 2
  {
    match s
    case Todo => 0
    case InProgress => 1
    case Done => 2
  }

  /** The member with ordinal `n`, if there is one. */
  function StatusOfOrdinal(n: int): (r: Option<TaskStatus>)
    ensures r.Some? <==> 0 <= n <= 2
    ensures r.Some? ==> StatusOrdinal(r.value) == n
  {
    if n == 0 then Some(Todo)
    else if n == 1 then Some(InProgress)
    else if n == 2 then Some(Done)
    else None
  }

  function PriorityOrdinal(p: TaskPriority): (n: int)
    ensures 0 <= n <= 2
  {
    match p
    case Low => 0
    case Medium => 1
    case High => 2
  }

  /** The member with ordinal `n`, if there is one. */
  function PriorityOfOrdinal(n: int): (r: Option<TaskPriority>)
    ensures r.Some? <==> 0 <= n <= 2
    ensures r.Some? ==> PriorityOrdinal(r.value) == n
  {
    if n == 0 then Some(Low)
    else if n == 1 then Some(Medium)
    else if n == 2 then Some(High)
    else None
  }

  /** The fixed ordinals, and ordinal conversion as a bijection between each enum and {0, 1, 2}. */
  lemma OrdinalsAreFixed()
    ensures StatusOrdinal(Todo) == 0 && StatusOrdinal(InProgress) == 1 && StatusOrdinal(Done) == 2
    ensures PriorityOrdinal(Low) == 0 && PriorityOrdinal(Medium) == 1 && PriorityOrdinal(High) == 2
    ensures forall s :: StatusOfOrdinal(StatusOrdinal(s)) == Some(s)
    ensures forall p :: PriorityOfOrdinal(PriorityOrdinal(p)) == Some(p)
    ensures forall s, s' :: StatusOrdinal(s) == StatusOrdinal(s') ==> s == s'
    ensures forall p, p' :: PriorityOrdinal(p) == PriorityOrdinal(p') ==> p == p'
  {
  }

  /** `default(TaskStatus)`: the member whose ordinal is 0. */
  function DefaultStatus(): (s: TaskStatus)
    ensures StatusOrdinal(s) == 0
  {
    StatusOfOrdinal(0).value
  }

  /** `default(TaskPriority)`: the member whose ordinal is 0. */
  function DefaultPriority(): (p: TaskPriority)
    ensures PriorityOrdinal(p) == 0
  {
    PriorityOfOrdinal(0).value
  }

  datatype TaskItem = TaskItem(
    id: int,
    title: string,
    description: string,
    status: TaskStatus,
    priority: TaskPriority,
    dueDate: Option<int>,
    boardId: int,
    createdAt: int,
    updatedAt: int)

  datatype Board = Board(
    id: int,
    name: string,
    description: string,
    createdAt: int,
    updatedAt: int)

  /**
   * `new TaskItem()` at clock reading `now`: empty texts, Todo, Medium, no due
   * date, and the integer defaults 0 for the id and the owning board's id.
   */
  function NewTaskItem(now: int): (t: TaskItem)
    ensures t.title == "" && t.description == ""
    ensures t.status == Todo && t.priority == Medium
    ensures t.dueDate == None && t.id == 0 && t.boardId == 0
    ensures t.createdAt == now && t.updatedAt == now
  {
    TaskItem(0, "", "", Todo, Medium, None, 0, now, now)
  }

  /** A task's key. */
  function TaskId(t: TaskItem): int { t.id }

  /** A board's key. */
  function BoardId(b: Board): int { b.id }
}
