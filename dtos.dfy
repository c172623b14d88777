/**
 * The transfer shapes exchanged with clients. Create and update requests carry
 * only what a caller may choose: no id and no timestamps, and an update carries
 * no `boardId`, so a task's owner is fixed when it is created.
 */
module Dtos {
  import opened Wrappers
  import opened Models
  import opened Seqs

  datatype TaskItemDto = TaskItemDto(
    id: int,
    title: string,
    description: string,
    status: TaskStatus,
    priority: TaskPriority,
    dueDate: Option<int>,
    boardId: int,
    createdAt: int,
    updatedAt: int)

  datatype CreateTaskItemDto = CreateTaskItemDto(
    title: string,
    description: string,
    status: TaskStatus,
    priority: TaskPriority,
    dueDate: Option<int>,
    boardId: int)

  datatype UpdateTaskItemDto = UpdateTaskItemDto(
    title: string,
    description: string,
    status: TaskStatus,
    priority: TaskPriority,
    dueDate: Option<int>)

  datatype BoardDto = BoardDto(
    id: int,
    name: string,
    description: string,
    createdAt: int,
    updatedAt: int,
    tasks: seq<TaskItemDto>)

  datatype CreateBoardDto = CreateBoardDto(name: string, description: string)

  datatype UpdateBoardDto = UpdateBoardDto(name: string, description: string)

  /** `new CreateTaskItemDto()`: what a request body that omits a member leaves in it. */
  function NewCreateTaskItemDto(): (d: CreateTaskItemDto)
    ensures d.title == "" && d.description == ""
    ensures d.status == Todo && d.priority == Medium
    ensures d.dueDate == None && d.boardId == 0
  {
    CreateTaskItemDto("", "", Todo, Medium, None, 0)
  }

  /**
   * `new UpdateTaskItemDto()`: its status and priority carry no initialiser, so
   * they hold the enum default, the ordinal-0 member: Todo and Low.
   */
  function NewUpdateTaskItemDto(): (d: UpdateTaskItemDto)
    ensures d.title == "" && d.description == ""
    ensures d.status == Todo && d.priority == Low
    ensures d.dueDate == None
  {
    UpdateTaskItemDto("", "", DefaultStatus(), DefaultPriority(), None)
  }

  /** `new BoardDto()`: empty texts and an empty task list. */
  function NewBoardDto(): (d: BoardDto)
    ensures d.name == "" && d.description == "" && d.tasks == []
  {
    BoardDto(0, "", "", 0, 0, [])
  }

  /** The field-for-field copy of a task into its transfer shape. */
  function MapTaskToDto(t: TaskItem): (d: TaskItemDto)
    ensures d.id == t.id && d.title == t.title && d.description == t.description
    ensures d.status == t.status && d.priority == t.priority && d.dueDate == t.dueDate
    ensures d.boardId == t.boardId && d.createdAt == t.createdAt && d.updatedAt == t.updatedAt
  {
    TaskItemDto(t.id, t.title, t.description, t.status, t.priority, t.dueDate, t.boardId, t.createdAt, t.updatedAt)
  }

  /** The transfer shape loses nothing: two tasks with the same DTO are the same task. */
  lemma MapTaskToDtoIsLossless(t: TaskItem, u: TaskItem)
    ensures MapTaskToDto(t) == MapTaskToDto(u) <==> t == u
  {
  }

  /** A task DTO's id. */
  function TaskDtoId(d: TaskItemDto): int { d.id }

  /** A board DTO's id. */
  function BoardDtoId(d: BoardDto): int { d.id }

  /** `tasks.Select(MapToDto).ToList()`. */
  function MapTasksToDtos(ts: seq<TaskItem>): (ds: seq<TaskItemDto>)
    ensures |ds| == |ts| && forall i :: 0 <= i < |ts| ==> ds[i] == MapTaskToDto(ts[i])
    ensures Ids(ds, TaskDtoId) == Ids(ts, TaskId)
  {
    seq(|ts|, i requires 0 <= i < |ts| => MapTaskToDto(ts[i]))
  }
}
