/**
 * TaskBoardComponent: the board list, the selected board's task list and the
 * forms for new boards and tasks. Guards set `errorMessage` and issue no
 * request; a request that passes its guard is returned to the caller, and the
 * service's reply is fed back through the `...Loaded`, `...Created` and
 * `...Updated` methods. The selected board is one of the loaded board objects,
 * so reassigning its task list is seen through `boards` as well.
 */
module TaskBoardView {
  import opened Wrappers
  import opened Seqs
  import opened Text
  import opened ClientModels
  import M = Models

  function HasId(id: int): TaskItem -> bool
  {
    (t: TaskItem) => t.id == id
  }

  function HasOtherId(id: int): TaskItem -> bool
  {
    (t: TaskItem) => t.id != id
  }

  /**
   * The list with the first task whose id matches `updated` replaced by it; a
   * list with no such task is returned as it is.
   */
  function ReplaceTask(tasks: seq<TaskItem>, updated: TaskItem): (r: seq<TaskItem>)
    ensures |r| == |tasks|
    ensures var k := FindIndex(tasks, HasId(updated.id));
            forall i :: 0 <= i < |tasks| ==> r[i] == if i == k then updated else tasks[i]
    ensures (forall i :: 0 <= i < |tasks| ==> tasks[i].id != updated.id) ==> r == tasks
  {
    var index := FindIndex(tasks, HasId(updated.id));
    if index > -1 then tasks[..index] + [updated] + tasks[index + 1..] else tasks
  }

  /** The list without any task whose id is `id`. */
  function RemoveTask(tasks: seq<TaskItem>, id: int): (r: seq<TaskItem>)
    ensures forall i :: 0 <= i < |r| ==> r[i].id != id
    // Membership both ways: corollaries of the multiset clause below, kept for the reader.
    ensures forall i :: 0 <= i < |r| ==> r[i] in tasks
    ensures forall i :: 0 <= i < |tasks| && tasks[i].id != id ==> tasks[i] in r
    ensures forall t :: multiset(r)[t] == if t.id != id then multiset(tasks)[t] else 0
  {
    Filter(tasks, HasOtherId(id))
  }

  /** Removing a task keeps the remaining tasks in their original order. */
  lemma RemoveTaskKeepsOrder(tasks: seq<TaskItem>, id: int)
    ensures IsSubsequence(RemoveTask(tasks, id), tasks)
  {
    FilterIsSubsequence(tasks, HasOtherId(id));
  }

  class TaskBoardComponent {
    var boards: seq<Board>
    var selectedBoard: Board?
    var newBoardName: string
    var newBoardDescription: string
    var editingBoardId: Option<int>
    var editingBoardName: string
    var editingBoardDescription: string
    var errorMessage: string
    var newTaskTitle: string
    var newTaskDescription: string
    var newTaskPriority: int

    constructor()
      ensures boards == [] && selectedBoard == null && editingBoardId == None
      ensures newBoardName == "" && newBoardDescription == ""
      ensures editingBoardName == "" && editingBoardDescription == "" && errorMessage == ""
      ensures newTaskTitle == "" && newTaskDescription == ""
      ensures newTaskPriority == M.PriorityOrdinal(M.Medium)
    {
      boards := [];
      selectedBoard := null;
      newBoardName, newBoardDescription := "", "";
      editingBoardId := None;
      editingBoardName, editingBoardDescription := "", "";
      errorMessage := "";
      newTaskTitle, newTaskDescription := "", "";
      newTaskPriority := M.PriorityOrdinal(M.Medium);
    }

    /**
     * Clears the error and asks for the boards. That request carries no data, so
     * nothing is returned; its reply is `BoardsLoaded`.
     */
    method LoadBoards()
      modifies this`errorMessage
      ensures errorMessage == ""
    {
      errorMessage := "";
    }

    /** Selects `board` and asks for its tasks, by its id. */
    method SelectBoard(board: Board) returns (loadTasksOf: int)
      modifies this`selectedBoard
      ensures selectedBoard == board && loadTasksOf == board.id
    {
      selectedBoard := board;
      loadTasksOf := board.id;
    }

    /** The boards arrived: keep them and, if there is one, select the first. */
    method BoardsLoaded(data: seq<Board>) returns (loadTasksOf: Option<int>)
      modifies this`boards, this`selectedBoard
      ensures boards == data
      ensures |data| > 0 ==> selectedBoard == data[0] && loadTasksOf == Some(data[0].id)
      ensures |data| == 0 ==> selectedBoard == old(selectedBoard) && loadTasksOf == None
    {
      boards := data;
      loadTasksOf := None;
      if |boards| > 0 {
        var id := SelectBoard(boards[0]);
        loadTasksOf := Some(id);
      }
    }

    /** The selected board's tasks arrived. */
    method BoardTasksLoaded(tasks: seq<TaskItem>)
      modifies selectedBoard
      ensures selectedBoard != null ==> selectedBoard.tasks == tasks
    {
      if selectedBoard != null {
        selectedBoard.tasks := tasks;
      }
    }

    /** Issues the new board's request, unless its name is blank. */
    method CreateBoard() returns (request: Option<CreateBoardRequest>)
      modifies this`errorMessage
      ensures request.None? <==> IsBlank(newBoardName)
      ensures request.None? ==> errorMessage == "Board name is required"
      ensures request.Some? ==>
                request.value == CreateBoardRequest(newBoardName, newBoardDescription)
                && errorMessage == old(errorMessage)
    {
      if IsBlank(newBoardName) {
        errorMessage := "Board name is required";
        return None;
      }
      request := Some(CreateBoardRequest(newBoardName, newBoardDescription));
    }

    /** The board was created: clear the form and reload the boards. */
    method BoardCreated()
      modifies this`newBoardName, this`newBoardDescription, this`errorMessage
      ensures newBoardName == "" && newBoardDescription == "" && errorMessage == ""
    {
      newBoardName, newBoardDescription := "", "";
      LoadBoards();
    }

    /** Opens the board editor on a copy of the board's name and description. */
    method StartEditBoard(board: Board)
      modifies this`editingBoardId, this`editingBoardName, this`editingBoardDescription
      ensures editingBoardId == Some(board.id)
      ensures editingBoardName == board.name && editingBoardDescription == board.description
    {
      editingBoardId := Some(board.id);
      editingBoardName := board.name;
      editingBoardDescription := board.description;
    }

    /**
     * Issues the edited board's request, unless no board is being edited or its
     * name is blank. The guard `!editingBoardId` also refuses the id 0.
     */
    method UpdateBoard() returns (request: Option<(int, UpdateBoardRequest)>)
      modifies this`errorMessage
      ensures request.None? <==>
                editingBoardId.None? || editingBoardId.value == 0 || IsBlank(editingBoardName)
      ensures request.None? ==> errorMessage == "Board name is required"
      ensures request.Some? ==>
                && request.value == (editingBoardId.value, UpdateBoardRequest(editingBoardName, editingBoardDescription))
                && errorMessage == old(errorMessage)
    {
      if editingBoardId.None? || editingBoardId.value == 0 || IsBlank(editingBoardName) {
        errorMessage := "Board name is required";
        return None;
      }
      request := Some((editingBoardId.value, UpdateBoardRequest(editingBoardName, editingBoardDescription)));
    }

    /** The board was updated: close the editor and reload the boards. */
    method BoardUpdated()
      modifies this`editingBoardId, this`editingBoardName, this`editingBoardDescription, this`errorMessage
      ensures editingBoardId == None && editingBoardName == "" && editingBoardDescription == ""
      ensures errorMessage == ""
    {
      editingBoardId := None;
      editingBoardName, editingBoardDescription := "", "";
      LoadBoards();
    }

    /** A task card reported an update: replace that task in the selected board's list. */
    method OnTaskUpdated(updated: TaskItem)
      modifies selectedBoard
      ensures selectedBoard != null ==> selectedBoard.tasks == ReplaceTask(old(selectedBoard.tasks), updated)
    {
      if selectedBoard != null {
        var index := FindIndex(selectedBoard.tasks, HasId(updated.id));
        if index > -1 {
          selectedBoard.tasks := selectedBoard.tasks[..index] + [updated] + selectedBoard.tasks[index + 1..];
        }
      }
    }

    /** A task card reported a deletion: drop that task from the selected board's list. */
    method OnTaskDeleted(taskId: int)
      modifies selectedBoard
      ensures selectedBoard != null ==> selectedBoard.tasks == RemoveTask(old(selectedBoard.tasks), taskId)
    {
      if selectedBoard != null {
        selectedBoard.tasks := Filter(selectedBoard.tasks, HasOtherId(taskId));
      }
    }

    /**
     * Issues the new task's request, status Todo, under the selected board,
     * unless no board is selected or the title is blank.
     */
    method CreateTask() returns (request: Option<CreateTaskRequest>)
      modifies this`errorMessage
      ensures selectedBoard == null ==> request.None? && errorMessage == "Please select a board first"
      ensures selectedBoard != null && IsBlank(newTaskTitle) ==>
                request.None? && errorMessage == "Task title is required"
      ensures selectedBoard != null && !IsBlank(newTaskTitle) ==>
                && request == Some(CreateTaskRequest(newTaskTitle, newTaskDescription, M.StatusOrdinal(M.Todo),
                                                     newTaskPriority, None, selectedBoard.id))
                && errorMessage == old(errorMessage)
    {
      if selectedBoard == null {
        errorMessage := "Please select a board first";
        return None;
      }
      if IsBlank(newTaskTitle) {
        errorMessage := "Task title is required";
        return None;
      }
      request := Some(CreateTaskRequest(newTaskTitle, newTaskDescription, 0, newTaskPriority, None, selectedBoard.id));
    }

    /** The task was created: append it to the selected board's list and reset the form. */
    method TaskCreated(created: TaskItem)
      modifies selectedBoard, this`newTaskTitle, this`newTaskDescription, this`newTaskPriority, this`errorMessage
      ensures selectedBoard != null ==> selectedBoard.tasks == old(selectedBoard.tasks) + [created]
      ensures newTaskTitle == "" && newTaskDescription == "" && errorMessage == ""
      ensures newTaskPriority == M.PriorityOrdinal(M.Medium)
    {
      if selectedBoard != null {
        selectedBoard.tasks := selectedBoard.tasks + [created];
      }
      newTaskTitle, newTaskDescription := "", "";
      newTaskPriority := 1;
      errorMessage := "";
    }
  }
}
