/**
 * The persistence context: the Boards and Tasks tables as maps from id to row,
 * and the identity generators of the two id columns. What the relational store
 * itself enforces lives here: the column length limits (a write that breaks one
 * fails with `DbUpdateFailed` and changes nothing, as on a database that enforces
 * `varchar(n)`), the foreign key from a task
 * to its board, identity assignment on insert, and the delete cascade from a
 * board to its tasks. Each method is one atomic unit of work (`SaveChanges`).
 */
module Store {
  import opened Wrappers
  import opened Models
  import opened Exceptions
  import opened Seqs

  const BoardNameMaxLength := 100
  const BoardDescriptionMaxLength := 500
  const TaskTitleMaxLength := 200
  const TaskDescriptionMaxLength := 1000

  /** The column limits on a board row. `IsRequired` means NOT NULL, which every string here meets. */
  predicate BoardFits(b: Board)
  {
    |b.name| <= BoardNameMaxLength && |b.description| <= BoardDescriptionMaxLength
  }

  /** The column limits on a task row. */
  predicate TaskFits(t: TaskItem)
  {
    |t.title| <= TaskTitleMaxLength && |t.description| <= TaskDescriptionMaxLength
  }

  /** The ids of the tasks a board owns: its `Tasks` navigation collection. */
  function TaskKeysOf(tasks: map<int, TaskItem>, boardId: int): (keys: set<int>)
    ensures keys <= tasks.Keys
    ensures forall id :: id in keys <==> id in tasks && tasks[id].boardId == boardId
  {
    set id | id in tasks && tasks[id].boardId == boardId
  }

  /** Every task's board exists: the foreign key holds. */
  ghost predicate ReferentiallyIntact(boards: map<int, Board>, tasks: map<int, TaskItem>)
  {
    forall id :: id in tasks ==> tasks[id].boardId in boards
  }

  /** The invariant of the two tables: keys are the rows' ids, rows fit their columns, no orphans. */
  ghost predicate Consistent(boards: map<int, Board>, tasks: map<int, TaskItem>)
  {
    && (forall id :: id in boards ==> boards[id].id == id && BoardFits(boards[id]))
    && (forall id :: id in tasks ==> tasks[id].id == id && TaskFits(tasks[id]))
    && ReferentiallyIntact(boards, tasks)
  }

  /** What `ON DELETE CASCADE` leaves of the tasks when board `boardId` is deleted. */
  function CascadeDelete(tasks: map<int, TaskItem>, boardId: int): (r: map<int, TaskItem>)
    ensures r.Keys == tasks.Keys - TaskKeysOf(tasks, boardId)
    ensures forall id :: id in r ==> r[id] == tasks[id]
  {
    map id | id in tasks && tasks[id].boardId != boardId :: tasks[id]
  }

  /**
   * Deleting a board with its cascade keeps the tables consistent, leaves the
   * board with no tasks, and leaves every other board's tasks as they were.
   */
  lemma CascadeKeepsConsistency(boards: map<int, Board>, tasks: map<int, TaskItem>, boardId: int)
    requires Consistent(boards, tasks)
    ensures Consistent(boards - {boardId}, CascadeDelete(tasks, boardId))
    ensures TaskKeysOf(CascadeDelete(tasks, boardId), boardId) == {}
    ensures forall other :: other != boardId ==>
              TaskKeysOf(CascadeDelete(tasks, boardId), other) == TaskKeysOf(tasks, other)
  {
  }

  /** A task row as stored: status and priority become their integer ordinals. */
  datatype TaskRow = TaskRow(
    id: int,
    title: string,
    description: string,
    status: int,
    priority: int,
    dueDate: Option<int>,
    boardId: int,
    createdAt: int,
    updatedAt: int)

  function ToRow(t: TaskItem): (r: TaskRow)
    ensures r.status == StatusOrdinal(t.status) && r.priority == PriorityOrdinal(t.priority)
  {
    TaskRow(t.id, t.title, t.description, StatusOrdinal(t.status), PriorityOrdinal(t.priority),
            t.dueDate, t.boardId, t.createdAt, t.updatedAt)
  }

  /**
   * Reads a row back. The enums here are closed, so a column holding no member's
   * ordinal yields nothing; such a row is never written by `ToRow`, and the
   * store's own writes cannot produce one. (In C# the integer would be read into
   * the enum as an unnamed value, which this model cannot represent.)
   */
  function FromRow(r: TaskRow): (t: Option<TaskItem>)
    ensures t.Some? <==> 0 <= r.status <= 2 && 0 <= r.priority <= 2
    ensures t.Some? ==> ToRow(t.value) == r
  {
    match (StatusOfOrdinal(r.status), PriorityOfOrdinal(r.priority))
    case (Some(s), Some(p)) =>
      Some(TaskItem(r.id, r.title, r.description, s, p, r.dueDate, r.boardId, r.createdAt, r.updatedAt))
    case _ => None
  }

  /** Storing enums as ordinals loses nothing. */
  lemma RowRoundTrip(t: TaskItem)
    ensures FromRow(ToRow(t)) == Some(t)
  {
    OrdinalsAreFixed();
  }

  /** The seeded boards, all stamped with the clock reading `now`. */
  function SeedBoards(now: int): map<int, Board>
  {
    map[
      1 := Board(1, "Project Alpha", "Main project board", now, now),
      2 := Board(2, "Project Beta", "Secondary project", now, now)]
  }

  /** The seeded tasks; task 3 is due at `inAWeek`, seven days after `now`. */
  function SeedTasks(now: int, inAWeek: int): map<int, TaskItem>
  {
    map[
      1 := TaskItem(1, "Setup Database", "Initialize database schema", Done, High, None, 1, now, now),
      2 := TaskItem(2, "Create API Endpoints", "Build REST API", InProgress, High, None, 1, now, now),
      3 := TaskItem(3, "Build UI Components", "Create Angular components", Todo, Medium, Some(inAWeek), 1, now, now),
      4 := TaskItem(4, "Write Tests", "Unit and integration tests", Todo, Medium, None, 2, now, now)]
  }

  /** The seed satisfies the store's invariant: in particular every seeded task's board exists. */
  lemma SeedIsConsistent(now: int, inAWeek: int)
    ensures Consistent(SeedBoards(now), SeedTasks(now, inAWeek))
    ensures SeedBoards(now).Keys == {1, 2} && SeedTasks(now, inAWeek).Keys == {1, 2, 3, 4}
    ensures TaskKeysOf(SeedTasks(now, inAWeek), 1) == {1, 2, 3}
    ensures TaskKeysOf(SeedTasks(now, inAWeek), 2) == {4}
  {
    var ts := SeedTasks(now, inAWeek);
    assert ts[1].boardId == 1 && ts[2].boardId == 1 && ts[3].boardId == 1 && ts[4].boardId == 2;
  }

  class TaskBoardContext {
    var boards: map<int, Board>
    var tasks: map<int, TaskItem>
    /** The next values the two identity columns hand out. */
    var nextBoardId: int
    var nextTaskId: int

    ghost predicate Valid()
      reads this
    {
      && Consistent(boards, tasks)
      && 1 <= nextBoardId && 1 <= nextTaskId
      && (forall id :: id in boards ==> 1 <= id < nextBoardId)
      && (forall id :: id in tasks ==> 1 <= id < nextTaskId)
    }

    /** The database as the initial migration leaves it: the seed rows, identities past them. */
    constructor Seeded(now: int, inAWeek: int)
      ensures Valid()
      ensures boards == SeedBoards(now) && tasks == SeedTasks(now, inAWeek)
    {
      boards := SeedBoards(now);
      tasks := SeedTasks(now, inAWeek);
      nextBoardId := 3;
      nextTaskId := 5;
      SeedIsConsistent(now, inAWeek);
    }

    /** Reads the whole Boards table. The store promises no order; the model reads the rows in ascending id order. */
    method BoardRows() returns (bs: seq<Board>)
      requires Valid()
      ensures ListsOnce(Ids(bs, BoardId), boards.Keys)
      ensures forall i :: 0 <= i < |bs| ==> bs[i].id in boards && bs[i] == boards[bs[i].id]
    {
      bs := [];
      var id := 1;
      while id < nextBoardId
        invariant 1 <= id <= nextBoardId
        invariant ListsOnce(Ids(bs, BoardId), set k | k in boards && k < id)
        invariant forall i :: 0 <= i < |bs| ==> bs[i].id in boards && bs[i] == boards[bs[i].id]
      {
        if id in boards {
          ghost var before := bs;
          bs := bs + [boards[id]];
          forall k | k in Ids(before, BoardId)
            ensures k in Ids(bs, BoardId)
          {
            var i :| 0 <= i < |before| && Ids(before, BoardId)[i] == k;
            assert Ids(bs, BoardId)[i] == k;
          }
          assert Ids(bs, BoardId)[|bs| - 1] == id;
        }
        id := id + 1;
      }
      assert (set k | k in boards && k < id) == boards.Keys;
    }

    /** Reads the task rows whose ids are `keys`. The store promises no order; the model reads them in ascending id order. */
    method TaskRows(keys: set<int>) returns (ts: seq<TaskItem>)
      requires Valid() && keys <= tasks.Keys
      ensures ListsOnce(Ids(ts, TaskId), keys)
      ensures forall i :: 0 <= i < |ts| ==> ts[i].id in tasks && ts[i] == tasks[ts[i].id]
    {
      ts := [];
      var id := 1;
      while id < nextTaskId
        invariant 1 <= id <= nextTaskId
        invariant ListsOnce(Ids(ts, TaskId), set k | k in keys && k < id)
        invariant forall i :: 0 <= i < |ts| ==> ts[i].id in tasks && ts[i] == tasks[ts[i].id]
      {
        if id in keys {
          ghost var before := ts;
          ts := ts + [tasks[id]];
          forall k | k in Ids(before, TaskId)
            ensures k in Ids(ts, TaskId)
          {
            var i :| 0 <= i < |before| && Ids(before, TaskId)[i] == k;
            assert Ids(ts, TaskId)[i] == k;
          }
          assert Ids(ts, TaskId)[|ts| - 1] == id;
        }
        id := id + 1;
      }
      assert (set k | k in keys && k < id) == keys;
    }

    /** `Boards.Add` then `SaveChanges`: the row gets the next identity, unless a column limit refuses it. */
    method InsertBoard(b: Board) returns (r: Result<Board, Error>)
      requires Valid()
      modifies this
      ensures Valid()
      ensures r.Ok? <==> BoardFits(b)
      ensures r.Ok? ==>
                && r.value == b.(id := old(nextBoardId))
                && r.value.id !in old(boards)
                && boards == old(boards)[r.value.id := r.value]
                && tasks == old(tasks)
      ensures r.Err? ==> r.error == DbUpdateFailed && boards == old(boards) && tasks == old(tasks)
    {
      if !BoardFits(b) {
        return Err(DbUpdateFailed);
      }
      var stored := b.(id := nextBoardId);
      boards := boards[stored.id := stored];
      nextBoardId := nextBoardId + 1;
      r := Ok(stored);
    }

    /** `SaveChanges` on a tracked board whose fields were assigned. */
    method SaveBoard(b: Board) returns (r: Result<(), Error>)
      requires Valid() && b.id in boards
      modifies this
      ensures Valid()
      ensures r.Ok? <==> BoardFits(b)
      ensures r.Ok? ==> boards == old(boards)[b.id := b] && tasks == old(tasks)
      ensures r.Err? ==> r.error == DbUpdateFailed && boards == old(boards) && tasks == old(tasks)
    {
      if !BoardFits(b) {
        return Err(DbUpdateFailed);
      }
      boards := boards[b.id := b];
      r := Ok(());
    }

    /** `Boards.Remove` then `SaveChanges`: the foreign key's cascade removes the board's tasks with it. */
    method DeleteBoard(id: int)
      requires Valid() && id in boards
      modifies this
      ensures Valid()
      ensures boards == old(boards) - {id}
      ensures tasks == CascadeDelete(old(tasks), id)
    {
      CascadeKeepsConsistency(boards, tasks, id);
      boards := boards - {id};
      tasks := CascadeDelete(tasks, id);
    }

    /**
     * `Tasks.Add` then `SaveChanges`: the row gets the next identity, unless a
     * column limit or the foreign key refuses it.
     */
    method InsertTask(t: TaskItem) returns (r: Result<TaskItem, Error>)
      requires Valid()
      modifies this
      ensures Valid()
      ensures r.Ok? <==> TaskFits(t) && t.boardId in boards
      ensures r.Ok? ==>
                && r.value == t.(id := old(nextTaskId))
                && r.value.id !in old(tasks)
                && tasks == old(tasks)[r.value.id := r.value]
                && boards == old(boards)
      ensures r.Err? ==> r.error == DbUpdateFailed && boards == old(boards) && tasks == old(tasks)
    {
      if !TaskFits(t) || t.boardId !in boards {
        return Err(DbUpdateFailed);
      }
      var stored := t.(id := nextTaskId);
      tasks := tasks[stored.id := stored];
      nextTaskId := nextTaskId + 1;
      r := Ok(stored);
    }

    /** `SaveChanges` on a tracked task whose fields were assigned. */
    method SaveTask(t: TaskItem) returns (r: Result<(), Error>)
      requires Valid() && t.id in tasks
      modifies this
      ensures Valid()
      ensures r.Ok? <==> TaskFits(t) && t.boardId in boards
      ensures r.Ok? ==> tasks == old(tasks)[t.id := t] && boards == old(boards)
      ensures r.Err? ==> r.error == DbUpdateFailed && boards == old(boards) && tasks == old(tasks)
    {
      if !TaskFits(t) || t.boardId !in boards {
        return Err(DbUpdateFailed);
      }
      tasks := tasks[t.id := t];
      r := Ok(());
    }

    /** `Tasks.Remove` then `SaveChanges`. */
    method DeleteTask(id: int)
      requires Valid() && id in tasks
      modifies this
      ensures Valid()
      ensures tasks == old(tasks) - {id} && boards == old(boards)
    {
      tasks := tasks - {id};
    }
  }
}
