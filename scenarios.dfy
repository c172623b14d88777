/**
 * What a client of the two services can conclude from their contracts alone:
 * a board's round trip, and the lifecycle of a task ended by its board's deletion.
 */
module Scenarios {
  import opened Wrappers
  import opened Models
  import opened Dtos
  import opened Exceptions
  import opened Seqs
  import opened Store
  import opened BoardServices
  import opened TaskItemServices

  method BoardLifecycle(now: int, later: int, inAWeek: int)
  {
    var context := new TaskBoardContext.Seeded(now, inAWeek);
    var boardService := new BoardService(context);
    var taskService := new TaskItemService(context);

    var created := boardService.CreateBoard(CreateBoardDto("P1", ""), now);
    assert created.Ok?;
    var boardId := created.value.id;

    var fetched := boardService.GetBoardById(boardId);
    assert fetched.Ok? && fetched.value.name == "P1" && fetched.value.createdAt == now;
    ListsOnceCount(Ids(fetched.value.tasks, TaskDtoId), TaskKeysOf(context.tasks, boardId));
    assert fetched.value.tasks == [];

    var empty := taskService.GetTasksByBoardId(boardId);
    assert empty == Ok([]);

    var task := taskService.CreateTask(NewCreateTaskItemDto().(title := "T1", boardId := boardId), now);
    assert task.Ok? && task.value.status == Todo && task.value.priority == Medium;
    var taskId := task.value.id;

    var update := UpdateTaskItemDto("T1", "", Done, Medium, None);
    var updated := taskService.UpdateTask(taskId, update, later);
    assert updated.Ok? && updated.value.status == Done;
    assert updated.value.boardId == boardId && updated.value.createdAt == now;

    var deleted := boardService.DeleteBoard(boardId);
    assert deleted.Ok?;
    var gone := taskService.GetTaskById(taskId);
    assert gone == Err(NotFound(TaskEntity, taskId));
    var listed := taskService.GetTasksByBoardId(boardId);
    assert listed == Err(NotFound(BoardEntity, boardId));
  }
}
