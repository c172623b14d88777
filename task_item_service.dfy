/**
 * TaskItemService: CRUD over tasks, including listing one board's tasks. A task
 * can only be created under an existing board, and an update never changes the
 * board that owns it.
 */
module TaskItemServices {
  import opened Wrappers
  import opened Models
  import opened Dtos
  import opened Exceptions
  import opened Seqs
  import opened Store

  /** `ds` names each task whose id is in `keys` once, each as its field-for-field copy. */
  ghost predicate ListsTasks(ds: seq<TaskItemDto>, tasks: map<int, TaskItem>, keys: set<int>)
  {
    && ListsOnce(Ids(ds, TaskDtoId), keys)
    && forall i :: 0 <= i < |ds| ==> ds[i].id in tasks && ds[i] == MapTaskToDto(tasks[ds[i].id])
  }

  class TaskItemService {
    const context: TaskBoardContext

    constructor(context: TaskBoardContext)
      ensures this.context == context
    {
      this.context := context;
    }

    /** The rows with ids `keys`, each mapped to its DTO. */
    method Query(keys: set<int>) returns (r: seq<TaskItemDto>)
      requires context.Valid() && keys <= context.tasks.Keys
      ensures ListsTasks(r, context.tasks, keys)
    {
      var ts := context.TaskRows(keys);
      r := MapTasksToDtos(ts);
    }

    /** Exactly one DTO per stored task. */
    method GetAllTasks() returns (r: seq<TaskItemDto>)
      requires context.Valid()
      ensures ListsTasks(r, context.tasks, context.tasks.Keys)
      ensures |r| == |context.tasks|
    {
      r := Query(context.tasks.Keys);
      ListsOnceCount(Ids(r, TaskDtoId), context.tasks.Keys);
    }

    /**
     * An unknown board is `NotFound`; a known one yields exactly its tasks, so a
     * board with no tasks yields an empty list rather than an error.
     */
    method GetTasksByBoardId(boardId: int) returns (r: Result<seq<TaskItemDto>, Error>)
      requires context.Valid()
      ensures r.Err? <==> boardId !in context.boards
      ensures r.Err? ==> r.error == NotFound(BoardEntity, boardId)
      ensures r.Ok? ==> ListsTasks(r.value, context.tasks, TaskKeysOf(context.tasks, boardId))
      ensures r.Ok? ==> |r.value| == |TaskKeysOf(context.tasks, boardId)|
      ensures r.Ok? && TaskKeysOf(context.tasks, boardId) == {} ==> r.value == []
    {
      if boardId !in context.boards {
        return Err(NotFound(BoardEntity, boardId));
      }
      var keys := TaskKeysOf(context.tasks, boardId);
      var ds := Query(keys);
      ListsOnceCount(Ids(ds, TaskDtoId), keys);
      r := Ok(ds);
    }

    method GetTaskById(id: int) returns (r: Result<TaskItemDto, Error>)
      requires context.Valid()
      ensures r.Err? <==> id !in context.tasks
      ensures r.Err? ==> r.error == NotFound(TaskEntity, id)
      ensures r.Ok? ==> r.value == MapTaskToDto(context.tasks[id])
    {
      if id !in context.tasks {
        return Err(NotFound(TaskEntity, id));
      }
      r := Ok(MapTaskToDto(context.tasks[id]));
    }

    /**
     * An unknown board is `NotFound` before anything is written. Otherwise the
     * request's fields are stored exactly as given under a fresh id, with both
     * timestamps from the clock; boards and the other tasks are unchanged.
     */
    method CreateTask(request: CreateTaskItemDto, now: int) returns (r: Result<TaskItemDto, Error>)
      requires context.Valid()
      modifies context
      ensures context.Valid()
      ensures context.boards == old(context.boards)
      ensures request.boardId !in old(context.boards) ==>
                r == Err(NotFound(BoardEntity, request.boardId)) && context.tasks == old(context.tasks)
      ensures request.boardId in old(context.boards) ==>
                var stored := TaskItem(0, request.title, request.description, request.status, request.priority,
                                       request.dueDate, request.boardId, now, now);
                && (r.Ok? <==> TaskFits(stored))
                && (r.Ok? ==>
                      && r.value.id !in old(context.tasks)
                      && context.tasks == old(context.tasks)[r.value.id := stored.(id := r.value.id)]
                      && r.value == MapTaskToDto(stored.(id := r.value.id)))
                && (r.Err? ==> r.error == DbUpdateFailed && context.tasks == old(context.tasks))
    {
      if request.boardId !in context.boards {
        return Err(NotFound(BoardEntity, request.boardId));
      }
      var task := NewTaskItem(now).(
        title := request.title,
        description := request.description,
        status := request.status,
        priority := request.priority,
        dueDate := request.dueDate,
        boardId := request.boardId,
        createdAt := now,
        updatedAt := now);
      var saved := context.InsertTask(task);
      if saved.Err? {
        return Err(saved.error);
      }
      r := Ok(MapTaskToDto(saved.value));
    }

    /**
     * An unknown id is `NotFound`. Otherwise the five editable fields are
     * replaced and `updatedAt` is stamped; id, owning board and creation time
     * are kept, and nothing else changes.
     */
    method UpdateTask(id: int, request: UpdateTaskItemDto, now: int) returns (r: Result<TaskItemDto, Error>)
      requires context.Valid()
      modifies context
      ensures context.Valid()
      ensures context.boards == old(context.boards)
      ensures id !in old(context.tasks) ==> r == Err(NotFound(TaskEntity, id)) && context.tasks == old(context.tasks)
      ensures id in old(context.tasks) ==>
                var was := old(context.tasks)[id];
                var updated := TaskItem(id, request.title, request.description, request.status, request.priority,
                                        request.dueDate, was.boardId, was.createdAt, now);
                && (r.Ok? <==> TaskFits(updated))
                && (r.Ok? ==> context.tasks == old(context.tasks)[id := updated] && r.value == MapTaskToDto(updated))
                && (r.Err? ==> r.error == DbUpdateFailed && context.tasks == old(context.tasks))
    {
      if id !in context.tasks {
        return Err(NotFound(TaskEntity, id));
      }
      var task := context.tasks[id];
      task := task.(
        title := request.title,
        description := request.description,
        status := request.status,
        priority := request.priority,
        dueDate := request.dueDate,
        updatedAt := now);
      var saved := context.SaveTask(task);
      if saved.Err? {
        return Err(saved.error);
      }
      r := Ok(MapTaskToDto(task));
    }

    /** An unknown id is `NotFound`; otherwise only that task is removed. */
    method DeleteTask(id: int) returns (r: Result<(), Error>)
      requires context.Valid()
      modifies context
      ensures context.Valid()
      ensures context.boards == old(context.boards)
      ensures r.Err? <==> id !in old(context.tasks)
      ensures r.Err? ==> r.error == NotFound(TaskEntity, id) && context.tasks == old(context.tasks)
      ensures r.Ok? ==> context.tasks == old(context.tasks) - {id}
    {
      if id !in context.tasks {
        return Err(NotFound(TaskEntity, id));
      }
      context.DeleteTask(id);
      r := Ok(());
    }
  }
}
