/**
 * The front end's view of tasks and boards. Status and priority arrive as the
 * numbers on the wire, so a value outside the enums is representable here; a
 * Board is an object whose task list the components reassign in place.
 */
module ClientModels {
  import opened Wrappers

  datatype TaskItem = TaskItem(
    id: int,
    title: string,
    description: string,
    status: int,
    priority: int,
    dueDate: Option<int>,
    boardId: int,
    createdAt: int,
    updatedAt: int)

  datatype CreateTaskRequest = CreateTaskRequest(
    title: string,
    description: string,
    status: int,
    priority: int,
    dueDate: Option<int>,
    boardId: int)

  datatype UpdateTaskRequest = UpdateTaskRequest(
    title: string,
    description: string,
    status: int,
    priority: int,
    dueDate: Option<int>)

  datatype CreateBoardRequest = CreateBoardRequest(name: string, description: string)

  datatype UpdateBoardRequest = UpdateBoardRequest(name: string, description: string)

  class Board {
    const id: int
    const name: string
    const description: string
    var tasks: seq<TaskItem>

    constructor(id: int, name: string, description: string, tasks: seq<TaskItem>)
      ensures this.id == id && this.name == name && this.description == description && this.tasks == tasks
    {
      this.id := id;
      this.name := name;
      this.description := description;
      this.tasks := tasks;
    }
  }
}
