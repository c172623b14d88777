/**
 * BoardService: CRUD over boards. Every call checks that the board exists and
 * reports `NotFound` otherwise; writes go through the context, which assigns
 * ids, enforces the column limits and cascades a board's deletion to its tasks.
 */
module BoardServices {
  import opened Wrappers
  import opened Models
  import opened Dtos
  import opened Exceptions
  import opened Seqs
  import opened Store

  /**
   * `d` is the transfer shape of board `b`: its own fields copied, and its task
   * list naming each task that `tasks` files under `b`, once each, in any order.
   */
  ghost predicate Describes(d: BoardDto, b: Board, tasks: map<int, TaskItem>)
  {
    && d.id == b.id && d.name == b.name && d.description == b.description
    && d.createdAt == b.createdAt && d.updatedAt == b.updatedAt
    && ListsOnce(Ids(d.tasks, TaskDtoId), TaskKeysOf(tasks, b.id))
    && forall i :: 0 <= i < |d.tasks| ==>
         d.tasks[i].id in tasks && d.tasks[i] == MapTaskToDto(tasks[d.tasks[i].id])
  }

  /** The board's own fields are copied; each loaded task is copied in place. */
  function MapToDto(b: Board, loaded: seq<TaskItem>): (d: BoardDto)
    ensures d.id == b.id && d.name == b.name && d.description == b.description
    ensures d.createdAt == b.createdAt && d.updatedAt == b.updatedAt
    ensures d.tasks == MapTasksToDtos(loaded) && |d.tasks| == |loaded|
  {
    BoardDto(b.id, b.name, b.description, b.createdAt, b.updatedAt, MapTasksToDtos(loaded))
  }

  /** Mapping a board with its tasks as loaded from the store yields a DTO that describes it. */
  lemma MapToDtoDescribes(b: Board, loaded: seq<TaskItem>, tasks: map<int, TaskItem>)
    requires ListsOnce(Ids(loaded, TaskId), TaskKeysOf(tasks, b.id))
    requires forall i :: 0 <= i < |loaded| ==> loaded[i].id in tasks && loaded[i] == tasks[loaded[i].id]
    ensures Describes(MapToDto(b, loaded), b, tasks)
  {
    var d := MapToDto(b, loaded);
    assert Ids(d.tasks, TaskDtoId) == Ids(loaded, TaskId);
  }

  class BoardService {
    const context: TaskBoardContext

    constructor(context: TaskBoardContext)
      ensures this.context == context
    {
      this.context := context;
    }

    /** The board's row with its `Tasks` included. */
    method LoadTasks(b: Board) returns (loaded: seq<TaskItem>)
      requires context.Valid()
      ensures ListsOnce(Ids(loaded, TaskId), TaskKeysOf(context.tasks, b.id))
      ensures forall i :: 0 <= i < |loaded| ==>
                loaded[i].id in context.tasks && loaded[i] == context.tasks[loaded[i].id]
    {
      loaded := context.TaskRows(TaskKeysOf(context.tasks, b.id));
    }

    /** One DTO per stored board, each with exactly the tasks it owns. */
    method GetAllBoards() returns (r: seq<BoardDto>)
      requires context.Valid()
      ensures ListsOnce(Ids(r, BoardDtoId), context.boards.Keys)
      ensures forall i :: 0 <= i < |r| ==>
                r[i].id in context.boards && Describes(r[i], context.boards[r[i].id], context.tasks)
    {
      var bs := context.BoardRows();
      r := [];
      var i := 0;
      while i < |bs|
        invariant 0 <= i <= |bs|
        invariant |r| == i
        invariant forall j :: 0 <= j < i ==> r[j].id == bs[j].id && Describes(r[j], bs[j], context.tasks)
      {
        var loaded := LoadTasks(bs[i]);
        MapToDtoDescribes(bs[i], loaded, context.tasks);
        r := r + [MapToDto(bs[i], loaded)];
        i := i + 1;
      }
      assert Ids(r, BoardDtoId) == Ids(bs, BoardId);
    }

    method GetBoardById(id: int) returns (r: Result<BoardDto, Error>)
      requires context.Valid()
      ensures r.Err? <==> id !in context.boards
      ensures r.Err? ==> r.error == NotFound(BoardEntity, id)
      ensures r.Ok? ==> Describes(r.value, context.boards[id], context.tasks)
    {
      if id !in context.boards {
        return Err(NotFound(BoardEntity, id));
      }
      var board := context.boards[id];
      var loaded := LoadTasks(board);
      MapToDtoDescribes(board, loaded, context.tasks);
      r := Ok(MapToDto(board, loaded));
    }

    /**
     * Stores the name and description under a fresh id with both timestamps
     * from the clock; the new board owns no task and nothing else changes.
     */
    method CreateBoard(request: CreateBoardDto, now: int) returns (r: Result<BoardDto, Error>)
      requires context.Valid()
      modifies context
      ensures context.Valid()
      ensures r.Ok? <==> BoardFits(Board(0, request.name, request.description, now, now))
      ensures r.Ok? ==>
                && r.value.id !in old(context.boards)
                && context.boards == old(context.boards)[r.value.id := Board(r.value.id, request.name, request.description, now, now)]
                && context.tasks == old(context.tasks)
                && TaskKeysOf(context.tasks, r.value.id) == {}
                && r.value.name == request.name && r.value.description == request.description
                && r.value.createdAt == now && r.value.updatedAt == now
      ensures r.Err? ==>
                r.error == DbUpdateFailed && context.boards == old(context.boards) && context.tasks == old(context.tasks)
    {
      var board := Board(0, request.name, request.description, now, now);
      var saved := context.InsertBoard(board);
      if saved.Err? {
        return Err(saved.error);
      }
      forall t | t in context.tasks
        ensures context.tasks[t].boardId != saved.value.id
      {
        assert context.tasks[t].boardId in old(context.boards);
      }
      r := Ok(MapToDto(saved.value, []));
    }

    /**
     * Replaces the name and description and stamps `updatedAt`; the id, the
     * creation time, the other boards and all tasks stay as they were.
     */
    method UpdateBoard(id: int, request: UpdateBoardDto, now: int) returns (r: Result<BoardDto, Error>)
      requires context.Valid()
      modifies context
      ensures context.Valid()
      ensures id !in old(context.boards) ==>
                r == Err(NotFound(BoardEntity, id)) && context.boards == old(context.boards)
      ensures id in old(context.boards) ==>
                var was := old(context.boards)[id];
                var updated := was.(name := request.name, description := request.description, updatedAt := now);
                && (r.Ok? <==> BoardFits(updated))
                && (r.Ok? ==>
                      && context.boards == old(context.boards)[id := updated]
                      && r.value.id == id && r.value.name == request.name
                      && r.value.description == request.description
                      && r.value.createdAt == was.createdAt && r.value.updatedAt == now)
                && (r.Err? ==> r.error == DbUpdateFailed && context.boards == old(context.boards))
      ensures context.tasks == old(context.tasks)
    {
      if id !in context.boards {
        return Err(NotFound(BoardEntity, id));
      }
      var board := context.boards[id];
      board := board.(name := request.name, description := request.description, updatedAt := now);
      var saved := context.SaveBoard(board);
      if saved.Err? {
        return Err(saved.error);
      }
      r := Ok(MapToDto(board, []));
    }

    /**
     * Removes the board; the store's cascade removes exactly the tasks it owned.
     * Other boards and their tasks are untouched.
     */
    method DeleteBoard(id: int) returns (r: Result<(), Error>)
      requires context.Valid()
      modifies context
      ensures context.Valid()
      ensures r.Err? <==> id !in old(context.boards)
      ensures r.Err? ==>
                r.error == NotFound(BoardEntity, id)
                && context.boards == old(context.boards) && context.tasks == old(context.tasks)
      ensures r.Ok? ==>
                && context.boards == old(context.boards) - {id}
                && context.tasks.Keys == old(context.tasks).Keys - TaskKeysOf(old(context.tasks), id)
                && (forall t :: t in context.tasks ==> context.tasks[t] == old(context.tasks)[t])
                && TaskKeysOf(context.tasks, id) == {}
    {
      if id !in context.boards {
        return Err(NotFound(BoardEntity, id));
      }
      context.DeleteBoard(id);
      r := Ok(());
    }
  }
}
