# TaskBoard: boards, tasks and their services, in Dafny

TaskBoard keeps work items ("tasks") on named boards. Each board owns zero or
more tasks, and each task belongs to exactly one board. This project models:

- the back end's domain-and-service layer: the `TaskItem` and `Board` entities, the `TaskStatus`/`TaskPriority` enums
  and their ordinals, the transfer shapes (DTOs), and the persistence context
  `TaskBoardContext`. The context covers identity columns, column length limits, the
  foreign key with its delete cascade, enum-as-integer storage and seed data;
- `BoardService` and `TaskItemService`, the two CRUD services;
- the Angular front end's pure helpers and component state: the status filter
  pipe, the task card (`TaskItemComponent`) and the board page (`TaskBoardComponent`).

Layout, one module per source file:

| file | module | source |
|---|---|---|
| `models.dfy` | `Models` | `Models/TaskItem.cs` (and the `Board` entity as the services use it) |
| `dtos.dfy` | `Dtos` | `DTOs/TaskItemDto.cs`, `DTOs/BoardDto.cs` |
| `exceptions.dfy` | `Exceptions` | `Exceptions/CustomExceptions.cs` |
| `store.dfy` | `Store` | `Data/TaskBoardContext.cs` and the store behaviour it configures |
| `board_service.dfy` | `BoardServices` | `Services/BoardService.cs` |
| `task_item_service.dfy` | `TaskItemServices` | `Services/TaskItemService.cs` |
| `client_models.dfy` | `ClientModels` | `models/task.model.ts`, `models/board.model.ts` |
| `filter_pipe.dfy` | `FilterPipe` | `pipes/filter-by-status.pipe.ts` |
| `task_item_component.dfy` | `TaskItemView` | `components/task-item/task-item.component.ts` |
| `task_board_component.dfy` | `TaskBoardView` | `components/task-board/task-board.component.ts` |
| `wrappers.dfy`, `seqs.dfy`, `text.dfy` | helpers | `Option`/`Result`; JavaScript `filter`/`findIndex`; `String.prototype.trim` |
| `scenarios.dfy` | `Scenarios` | a client of both services: a board's round trip and a task's lifecycle |

How the model is built:

- **Store.** The store is a class, `Store.TaskBoardContext`. Its fields are the two tables as maps from id to row,
  plus the next value of each identity column. Each service call is one atomic step
  (one `SaveChanges`). The class invariant `Valid()` has three parts:
  - every key is its row's id;
  - every row fits its column limits;
  - every task's `boardId` names a stored board (referential integrity).
- **What the store enforces.** Identity assignment, the column limits and the delete cascade are the store's
  work, not the services'. They sit in the context's methods (`InsertBoard`, `SaveBoard`,
  `DeleteBoard`, ...), which the services call. A write that breaks a column
  limit fails with `DbUpdateFailed` and changes nothing. That is what `SaveChanges`
  throwing does inside a request-scoped context, on a database that enforces the
  `varchar(n)` lengths the migration declares (PostgreSQL, which the migration targets). On SQLite
  these limits are not enforced (see "Left out").
- **Errors.** `ResourceNotFoundException` is the `NotFound(entity, id)` arm of `Exceptions.Error`.
- **Clock.** `DateTime.UtcNow` becomes an explicit `now: int` parameter. The source reads
  the clock once per timestamp; the model uses one reading per operation (see "Left out").
- **Store order.** Lists come back in store order. The model reads rows in ascending id order.
  The contracts only promise "each stored row exactly once" (`Seqs.ListsOnce`), so they
  hold for any order.
- **Front end.** In the front end, status and priority are the numbers that travel on the wire.
  So an out-of-range value can be represented there, and the default branches of `changeStatus`,
  `getPriorityClass` and `getStatusClass` are modelled. A request that carries data
  (a create or update body, a board id) is returned from the method that sends it.
  `LoadBoards` sends `getAllBoards`, which carries none, so it returns nothing;
  `BoardCreated` and `BoardUpdated` call it, as the component reloads the boards
  after each. Each reply is fed back through a separate method (`TaskSaved`,
  `BoardsLoaded`, `TaskCreated`, ...).
- **Blank names and timestamps.** `IsRequired()` in the context only means NOT NULL,
  so the store and the services accept an empty or blank board name or task title.
  The non-blank check is made by the controllers and the front end. Nothing in the
  code orders the clock readings of two calls, so the model does not promise that
  `updatedAt` never decreases.

## Model

| member | source | states |
|---|---|---|
| `Models.StatusOrdinal` | TaskBoard/Backend/Models/TaskItem.cs:19-24 | every status has an ordinal in 0..2 |
| `Models.StatusOfOrdinal` | TaskBoard/Backend/Models/TaskItem.cs:19-24 | an integer names a status exactly when it is 0, 1 or 2, and then it names the status with that ordinal |
| `Models.PriorityOrdinal` | TaskBoard/Backend/Models/TaskItem.cs:26-31 | every priority has an ordinal in 0..2 |
| `Models.PriorityOfOrdinal` | TaskBoard/Backend/Models/TaskItem.cs:26-31 | an integer names a priority exactly when it is 0, 1 or 2, and then it names the priority with that ordinal |
| `Models.OrdinalsAreFixed` | TaskBoard/Backend/Models/TaskItem.cs:19-31 | Todo=0, InProgress=1, Done=2 and Low=0, Medium=1, High=2; ordinal conversion is a bijection between each enum and {0,1,2} |
| `Models.DefaultStatus` | TaskBoard/Backend/Models/TaskItem.cs:19-24 | the default value of the status enum is the member with ordinal 0 |
| `Models.DefaultPriority` | TaskBoard/Backend/Models/TaskItem.cs:26-31 | the default value of the priority enum is the member with ordinal 0 |
| `Models.NewTaskItem` | TaskBoard/Backend/Models/TaskItem.cs:5-13 | a fresh task has empty title and description, status Todo, priority Medium, no due date, board id 0, and both timestamps from the clock |
| `Dtos.NewCreateTaskItemDto` | TaskBoard/Backend/DTOs/TaskItemDto.cs:18-26 | a create request that omits status and priority carries Todo and Medium |
| `Dtos.NewUpdateTaskItemDto` | TaskBoard/Backend/DTOs/TaskItemDto.cs:28-35 | an update request that omits status and priority carries the ordinal-0 members, Todo and Low |
| `Dtos.NewBoardDto` | TaskBoard/Backend/DTOs/BoardDto.cs:3-11 | a board DTO's task list defaults to empty |
| `Dtos.MapTaskToDto` | TaskBoard/Backend/Services/TaskItemService.cs:129-143 | every one of the nine fields of the DTO is the task's field of the same name |
| `Dtos.MapTasksToDtos` | TaskBoard/Backend/Services/TaskItemService.cs:24 | `Select(MapToDto).ToList()`: one DTO per task, position by position, each the copy of the task at that position, so the DTO ids are the task ids in the same order |
| `Dtos.MapTaskToDtoIsLossless` | TaskBoard/Backend/Services/TaskItemService.cs:129-143 | the mapping is injective: two tasks have the same DTO exactly when they are equal |
| `Store.TaskKeysOf` | TaskBoard/Backend/Data/TaskBoardContext.cs:24-27 | a board's task collection is exactly the stored tasks whose `boardId` is the board's id |
| `Store.CascadeDelete` | TaskBoard/Backend/Data/TaskBoardContext.cs:24-28 | the cascade removes exactly the deleted board's tasks and leaves every other task row as it was |
| `Store.CascadeKeepsConsistency` | TaskBoard/Backend/Data/TaskBoardContext.cs:24-28 | deleting a board with its cascade keeps the store consistent (no orphans), leaves no task under the deleted board, and keeps every other board's task set |
| `Store.ToRow` | TaskBoard/Backend/Data/TaskBoardContext.cs:52-58 | status and priority are stored as their integer ordinals |
| `Store.FromRow` | TaskBoard/Backend/Data/TaskBoardContext.cs:52-58 | a stored row reads back as a task exactly when both enum columns hold an ordinal in 0..2, and writing that task gives the row back |
| `Store.RowRoundTrip` | TaskBoard/Backend/Data/TaskBoardContext.cs:52-58 | storing a task and reading it back gives the same task |
| `Store.SeedIsConsistent` | TaskBoard/Backend/Data/TaskBoardContext.cs:64-79 | the seed has boards 1 and 2 and tasks 1-4; tasks 1-3 belong to board 1 and task 4 to board 2; the seeded store satisfies the store invariant, referential integrity included |
| `Store.TaskBoardContext.Seeded` | TaskBoard/Backend/Data/TaskBoardContext.cs:60-78 | the store after migration holds exactly the seed rows (ids, owners, texts, status and priority as seeded; every timestamp the one reading `now`) and satisfies its invariant |
| `Store.TaskBoardContext.BoardRows` | TaskBoard/Backend/Data/TaskBoardContext.cs:13 | reading the Boards table yields every stored board exactly once, each as stored |
| `Store.TaskBoardContext.TaskRows` | TaskBoard/Backend/Data/TaskBoardContext.cs:14 | reading the task rows with the given ids yields each of them exactly once, each as stored |
| `Store.TaskBoardContext.InsertBoard` | TaskBoard/Backend/Data/TaskBoardContext.cs:30-37 | an insert fails, changing nothing, exactly when the name exceeds 100 or the description 500 characters; otherwise the board is stored under the next identity, which is unused, and nothing else changes |
| `Store.TaskBoardContext.SaveBoard` | TaskBoard/Backend/Data/TaskBoardContext.cs:30-37 | saving a board fails, changing nothing, exactly when it breaks a column limit; otherwise only that row changes |
| `Store.TaskBoardContext.DeleteBoard` | TaskBoard/Backend/Data/TaskBoardContext.cs:24-28 | deleting a board row also deletes its tasks (the cascade), and the invariant still holds |
| `Store.TaskBoardContext.InsertTask` | TaskBoard/Backend/Data/TaskBoardContext.cs:43-50 | an insert fails, changing nothing, exactly when the title exceeds 200 or the description 1000 characters or the board does not exist; otherwise the task is stored under the next identity, which is unused |
| `Store.TaskBoardContext.SaveTask` | TaskBoard/Backend/Data/TaskBoardContext.cs:43-50 | saving a task fails, changing nothing, exactly when it breaks a column limit or the foreign key; otherwise only that row changes |
| `Store.TaskBoardContext.DeleteTask` | TaskBoard/Backend/Data/TaskBoardContext.cs:14 | deleting a task removes only that row |
| `BoardServices.MapToDto` | TaskBoard/Backend/Services/BoardService.cs:102-124 | copies the board's id, name, description and timestamps, and the task list is each loaded task mapped in place |
| `BoardServices.MapToDtoDescribes` | TaskBoard/Backend/Services/BoardService.cs:102-124 | mapping a board with its tasks as loaded gives a DTO whose own fields are the board's and whose task list is exactly the board's tasks, each as a field-for-field copy |
| `BoardServices.BoardService.LoadTasks` | TaskBoard/Backend/Services/BoardService.cs:33-35 | `Include(b => b.Tasks)` loads exactly the stored tasks whose `boardId` is the board's id, each once |
| `BoardServices.BoardService.GetAllBoards` | TaskBoard/Backend/Services/BoardService.cs:20-28 | one DTO per stored board, each board once; each DTO's task list is exactly the tasks with that board's id, in any order |
| `BoardServices.BoardService.GetBoardById` | TaskBoard/Backend/Services/BoardService.cs:30-44 | fails with NotFound exactly when no board has the id; otherwise returns that board's fields and exactly its tasks |
| `BoardServices.BoardService.CreateBoard` | TaskBoard/Backend/Services/BoardService.cs:46-63 | stores name and description as given under a fresh id, with both timestamps from the clock; the new board owns no tasks; existing boards and tasks are unchanged |
| `BoardServices.BoardService.UpdateBoard` | TaskBoard/Backend/Services/BoardService.cs:65-84 | an unknown id fails with NotFound and changes no board and no task; otherwise name and description are replaced and `updatedAt` is set to now, while id and `createdAt` stay; other boards and all tasks are unchanged |
| `BoardServices.BoardService.DeleteBoard` | TaskBoard/Backend/Services/BoardService.cs:86-100 | an unknown id fails with NotFound and changes nothing; otherwise the board and exactly its tasks are removed, every other row is untouched, and referential integrity still holds |
| `TaskItemServices.TaskItemService.Query` | TaskBoard/Backend/Services/TaskItemService.cs:38-42 | the selected rows, each once, each mapped to its DTO |
| `TaskItemServices.TaskItemService.GetAllTasks` | TaskBoard/Backend/Services/TaskItemService.cs:20-25 | exactly one DTO per stored task: every task once, and as many DTOs as tasks |
| `TaskItemServices.TaskItemService.GetTasksByBoardId` | TaskBoard/Backend/Services/TaskItemService.cs:27-43 | fails with NotFound exactly when the board does not exist; otherwise returns exactly the tasks with that `boardId`, so a board with no tasks yields an empty list |
| `TaskItemServices.TaskItemService.GetTaskById` | TaskBoard/Backend/Services/TaskItemService.cs:45-57 | fails with NotFound exactly when no task has the id; otherwise returns that task's DTO |
| `TaskItemServices.TaskItemService.CreateTask` | TaskBoard/Backend/Services/TaskItemService.cs:59-87 | an unknown board fails with NotFound before any write; otherwise title, description, status, priority, due date and board are stored exactly as given under a fresh id, with both timestamps from the clock; boards never change |
| `TaskItemServices.TaskItemService.UpdateTask` | TaskBoard/Backend/Services/TaskItemService.cs:89-111 | an unknown id fails with NotFound; otherwise the five editable fields are replaced and `updatedAt` is set to now, keeping id, `boardId` and `createdAt`; nothing else changes |
| `TaskItemServices.TaskItemService.DeleteTask` | TaskBoard/Backend/Services/TaskItemService.cs:113-127 | an unknown id fails with NotFound; otherwise only that task is removed and boards are unchanged |
| `Text.BlankIffAllWhiteSpace` | TaskBoard/Frontend/src/app/components/task-board/task-board.component.ts:83 | the guard `!s.trim()` holds exactly when every character of `s` is white space (the empty string included) |
| `FilterPipe.Transform` | TaskBoard/Frontend/src/app/pipes/filter-by-status.pipe.ts:9-14 | an absent list yields an empty list; every result has the requested status; each task occurs in the result as often as in the input if it has that status, and not at all otherwise |
| `FilterPipe.TransformKeepsOrder` | TaskBoard/Frontend/src/app/pipes/filter-by-status.pipe.ts:13 | the result is a subsequence of the input, so relative order is kept |
| `FilterPipe.TransformIdempotent` | TaskBoard/Frontend/src/app/pipes/filter-by-status.pipe.ts:13 | filtering twice by the same status equals filtering once |
| `TaskItemView.IndexOfStatus` | TaskBoard/Frontend/src/app/components/task-item/task-item.component.ts:95-96 | `statuses.indexOf(status)`: -1 exactly when the number is no status in the list; otherwise the first index in 0..2 at which the list holds that status |
| `TaskItemView.NextStatus` | TaskBoard/Frontend/src/app/components/task-item/task-item.component.ts:95-97 | Todo goes to InProgress, InProgress to Done, and Done to Todo; a number that is no status (index -1) goes to Todo |
| `TaskItemView.NextStatusCycles` | TaskBoard/Frontend/src/app/components/task-item/task-item.component.ts:95-97 | three steps return every status to itself |
| `TaskItemView.PriorityClass` | TaskBoard/Frontend/src/app/components/task-item/task-item.component.ts:118-129 | High, Medium and Low map to 'priority-high', 'priority-medium' and 'priority-low'; the class is '' exactly for a number that is no priority |
| `TaskItemView.StatusClass` | TaskBoard/Frontend/src/app/components/task-item/task-item.component.ts:131-142 | Done, InProgress and Todo map to 'status-done', 'status-in-progress' and 'status-todo'; the class is '' exactly for a number that is no status |
| `TaskItemView.ClassesTellMembersApart` | TaskBoard/Frontend/src/app/components/task-item/task-item.component.ts:118-142 | two different priorities never get the same non-empty class, and neither do two different statuses |
| `TaskItemView.EditableFields` | TaskBoard/Frontend/src/app/components/task-item/task-item.component.ts:48-54 | an update request built from a task copies its title, description, status, priority and due date |
| `TaskItemView.TaskItemComponent.constructor` | TaskBoard/Frontend/src/app/components/task-item/task-item.component.ts:19-26 | a card starts out not editing, with an empty edit buffer at Todo/Medium |
| `TaskItemView.TaskItemComponent.StartEdit` | TaskBoard/Frontend/src/app/components/task-item/task-item.component.ts:46-55 | sets `isEditing` and copies the five editable fields of the task into `editingTask` |
| `TaskItemView.TaskItemComponent.SaveTask` | TaskBoard/Frontend/src/app/components/task-item/task-item.component.ts:57-63 | issues no update exactly when the edited title is blank; otherwise it sends the edit buffer for the task's id |
| `TaskItemView.TaskItemComponent.TaskSaved` | TaskBoard/Frontend/src/app/components/task-item/task-item.component.ts:64-67 | on success the card shows the stored task and leaves edit mode |
| `TaskItemView.TaskItemComponent.ChangeStatus` | TaskBoard/Frontend/src/app/components/task-item/task-item.component.ts:94-107 | the request repeats title, description, priority and due date unchanged; only the status changes, to the next one |
| `TaskItemView.TaskItemComponent.StatusChanged` | TaskBoard/Frontend/src/app/components/task-item/task-item.component.ts:108-110 | on success the card shows the stored task and the editor is unaffected |
| `TaskBoardView.ReplaceTask` | TaskBoard/Frontend/src/app/components/task-board/task-board.component.ts:157-169 | the first task with the updated task's id is replaced by it, and every other position and the length are unchanged; with no match the list is unchanged |
| `TaskBoardView.RemoveTask` | TaskBoard/Frontend/src/app/components/task-board/task-board.component.ts:171-175 | no task with the id remains; every other task stays, as many times as it occurred |
| `TaskBoardView.RemoveTaskKeepsOrder` | TaskBoard/Frontend/src/app/components/task-board/task-board.component.ts:173 | the remaining tasks keep their original order |
| `TaskBoardView.TaskBoardComponent.constructor` | TaskBoard/Frontend/src/app/components/task-board/task-board.component.ts:19-31 | no board and no selection at first, empty forms, and the new-task priority at Medium |
| `TaskBoardView.TaskBoardComponent.LoadBoards` | TaskBoard/Frontend/src/app/components/task-board/task-board.component.ts:40-43 | loading clears the error message |
| `TaskBoardView.TaskBoardComponent.SelectBoard` | TaskBoard/Frontend/src/app/components/task-board/task-board.component.ts:59-62 | selects the board and asks for its tasks by its id |
| `TaskBoardView.TaskBoardComponent.BoardsLoaded` | TaskBoard/Frontend/src/app/components/task-board/task-board.component.ts:44-49 | keeps the loaded boards and, when there is at least one, selects the first and asks for its tasks |
| `TaskBoardView.TaskBoardComponent.BoardTasksLoaded` | TaskBoard/Frontend/src/app/components/task-board/task-board.component.ts:68-71 | the selected board's task list becomes the loaded list |
| `TaskBoardView.TaskBoardComponent.CreateBoard` | TaskBoard/Frontend/src/app/components/task-board/task-board.component.ts:82-93 | a blank name sets the error message and issues no request; otherwise it sends the form's name and description |
| `TaskBoardView.TaskBoardComponent.BoardCreated` | TaskBoard/Frontend/src/app/components/task-board/task-board.component.ts:94-97 | on success the form is cleared and the boards are reloaded, which clears the error |
| `TaskBoardView.TaskBoardComponent.StartEditBoard` | TaskBoard/Frontend/src/app/components/task-board/task-board.component.ts:145-149 | the editor holds the board's id, name and description |
| `TaskBoardView.TaskBoardComponent.UpdateBoard` | TaskBoard/Frontend/src/app/components/task-board/task-board.component.ts:106-117 | no editing id (or the id 0) or a blank name sets the error message and issues no request; otherwise it sends the edited name and description for that id |
| `TaskBoardView.TaskBoardComponent.BoardUpdated` | TaskBoard/Frontend/src/app/components/task-board/task-board.component.ts:118-122 | on success the editor is closed and cleared and the boards are reloaded, which clears the error |
| `TaskBoardView.TaskBoardComponent.OnTaskUpdated` | TaskBoard/Frontend/src/app/components/task-board/task-board.component.ts:157-169 | with a selected board, its list becomes `ReplaceTask` of the old list; without one nothing changes |
| `TaskBoardView.TaskBoardComponent.OnTaskDeleted` | TaskBoard/Frontend/src/app/components/task-board/task-board.component.ts:171-175 | with a selected board, its list becomes `RemoveTask` of the old list |
| `TaskBoardView.TaskBoardComponent.CreateTask` | TaskBoard/Frontend/src/app/components/task-board/task-board.component.ts:177-196 | no selected board, or a blank title, sets the matching error message and issues no request; otherwise it sends status 0 (Todo), the chosen priority, no due date and the selected board's id |
| `TaskBoardView.TaskBoardComponent.TaskCreated` | TaskBoard/Frontend/src/app/components/task-board/task-board.component.ts:197-205 | on success the created task is appended to the selected board's list, the form is reset with priority back to 1 (Medium), and the error is cleared |

## Left out

- Logging, `async`/`await`, EF Core change tracking and real transactions are not modelled. Each service call is one atomic step over the two maps.
- Concurrency between calls is not modelled. The contracts hold for calls that run one after another.
- The clock is an integer parameter. Calendar arithmetic (the seed's seven-day due date, `AddDays`) becomes the parameter `inAWeek`. Date formatting (`formatDate`) is left out.
- `Models/Board.cs` is not part of this model. The `Board` entity is reconstructed from how the services, the context and the migration use it.
- `BoardServices.BoardService.UpdateBoard`: does not specify the task list of the returned DTO. The board is loaded without `Include(b => b.Tasks)`, so that list depends on how `Board.cs` initialises its collection. The model returns an empty list.
- `BoardServices.BoardService.CreateBoard`: does not specify the task list of the returned DTO, for the same reason. The stored board provably owns no tasks, and a later `GetBoardById` returns an empty list (see `scenarios.dfy`).
- The column-limit contracts of `InsertBoard`, `SaveBoard`, `InsertTask`, `SaveTask` and the service writes that call them assume a database that enforces `varchar(n)` (PostgreSQL, the database the migration is generated for). `Program.cs` falls back to SQLite when no connection string is configured. SQLite does not enforce those lengths, and EF Core does not check `HasMaxLength` before saving, so there an over-long row is stored.
- Store.TaskBoardContext.Seeded: starts the identity counters at 3 (boards) and 5 (tasks), past the seeded ids, as SQLite's next-rowid rule does. On PostgreSQL the migration inserts the seed rows with explicit ids and does not advance the identity sequences. So there the first two board inserts and the first four task inserts after seeding draw ids 1-2 and 1-4 and fail with a primary-key violation. The model does not capture that collision, so `CreateBoard` and `CreateTask` succeed from the first call. It also stamps every seed row with the single reading `now` (and task 3's due date with `inAWeek`), while the source reads `DateTime.UtcNow` once per timestamp, so the migrated rows carry timestamps a few ticks apart, within a row and between rows.
- Models.NewTaskItem, BoardServices.BoardService.CreateBoard, TaskItemServices.TaskItemService.CreateTask: the source reads `DateTime.UtcNow` separately for `CreatedAt` and `UpdatedAt`, so the two can differ by a few ticks. The model takes one reading `now` for both, and so does not promise (nor rule out) that they differ.
- The identity columns are a counter that hands out ids above every id in use. Gaps that a failed insert leaves in the database's sequence are not modelled.
- Message texts of errors ("Board with ID {id} not found") are not modelled. `NotFound` carries the entity kind and the id.
- `InvalidOperationException` and `BadRequestException` are never thrown by the core, so they are left out.
- The controllers are left out: HTTP routing, status codes, and their `IsNullOrWhiteSpace` checks. The services accept any name or title, as the code does. `Program.cs` (wiring, provider choice, CORS, startup migration) is left out too.
- The back end's enums are closed datatypes. A JSON number outside 0..2 that model binding would put into a C# enum is not modelled on the back end. The front end works on the numbers, so there it is modelled.
- The front end's HTTP services, Observable subscriptions, `alert`/`confirm` dialogs, loading flags, error replies and event emitters are left out. A component method returns the request it would send, and the reply is a separate method call. `deleteTask`/`deleteBoard` (a confirm dialog, then a request) and `cancelEdit`/`cancelEditBoard` are not modelled.
- White space follows JavaScript's `trim`. C#'s `char.IsWhiteSpace`, used by the controllers, differs in a few characters (U+0085, U+FEFF) and is not modelled.
