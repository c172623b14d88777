/**
 * TaskItemComponent: one task card. It cycles a task's status, edits its
 * fields, and picks the CSS classes for its priority and status badges.
 * Requests it issues are returned to the caller; the service's reply is fed
 * back through `TaskSaved` and `StatusChanged`.
 */
module TaskItemView {
  import opened Wrappers
  import opened Seqs
  import opened Text
  import opened ClientModels
  import M = Models

  /** The status cycle, in order: Todo, InProgress, Done. */
  const Statuses: seq<int> := [M.StatusOrdinal(M.Todo), M.StatusOrdinal(M.InProgress), M.StatusOrdinal(M.Done)]

  /** `statuses.indexOf(status)`: the position of `status`, or -1. */
  function IndexOfStatus(status: int): (i: int)
    ensures -1 <= i < |Statuses|
    ensures i == -1 <==> status !in Statuses
    ensures 0 <= i ==> Statuses[i] == status
    ensures forall j :: 0 <= j < i ==> Statuses[j] != status
  {
    FindIndex(Statuses, (x: int) => x == status)
  }

  /**
   * `statuses[(indexOf(status) + 1) % statuses.length]`: the next status in the
   * cycle; a number that is no status has index -1 and so advances to Todo.
   */
  function NextStatus(status: int): (next: int)
    ensures status == M.StatusOrdinal(M.Todo) ==> next == M.StatusOrdinal(M.InProgress)
    ensures status == M.StatusOrdinal(M.InProgress) ==> next == M.StatusOrdinal(M.Done)
    ensures status == M.StatusOrdinal(M.Done) ==> next == M.StatusOrdinal(M.Todo)
    ensures M.StatusOfOrdinal(status).None? ==> next == M.StatusOrdinal(M.Todo)
  {
    Statuses[(IndexOfStatus(status) + 1) % |Statuses|]
  }

  /** Three steps bring every status back to itself. */
  lemma NextStatusCycles(status: int)
    requires M.StatusOfOrdinal(status).Some?
    ensures NextStatus(NextStatus(NextStatus(status))) == status
  {
  }

  /** The CSS class of a priority badge. */
  function PriorityClass(priority: int): (c: string)
    ensures priority == M.PriorityOrdinal(M.High) ==> c == "priority-high"
    ensures priority == M.PriorityOrdinal(M.Medium) ==> c == "priority-medium"
    ensures priority == M.PriorityOrdinal(M.Low) ==> c == "priority-low"
    ensures c == "" <==> M.PriorityOfOrdinal(priority).None?
  {
    if priority == M.PriorityOrdinal(M.High) then "priority-high"
    else if priority == M.PriorityOrdinal(M.Medium) then "priority-medium"
    else if priority == M.PriorityOrdinal(M.Low) then "priority-low"
    else ""
  }

  /** The CSS class of a status badge. */
  function StatusClass(status: int): (c: string)
    ensures status == M.StatusOrdinal(M.Done) ==> c == "status-done"
    ensures status == M.StatusOrdinal(M.InProgress) ==> c == "status-in-progress"
    ensures status == M.StatusOrdinal(M.Todo) ==> c == "status-todo"
    ensures c == "" <==> M.StatusOfOrdinal(status).None?
  {
    if status == M.StatusOrdinal(M.Done) then "status-done"
    else if status == M.StatusOrdinal(M.InProgress) then "status-in-progress"
    else if status == M.StatusOrdinal(M.Todo) then "status-todo"
    else ""
  }

  /** Distinct priorities get distinct classes, and so do distinct statuses. */
  lemma ClassesTellMembersApart(a: int, b: int)
    ensures PriorityClass(a) == PriorityClass(b) && PriorityClass(a) != "" ==> a == b
    ensures StatusClass(a) == StatusClass(b) && StatusClass(a) != "" ==> a == b
  {
  }

  /** The five fields an update may change, copied from `t`. */
  function EditableFields(t: TaskItem): (u: UpdateTaskRequest)
    ensures u.title == t.title && u.description == t.description
    ensures u.status == t.status && u.priority == t.priority && u.dueDate == t.dueDate
  {
    UpdateTaskRequest(t.title, t.description, t.status, t.priority, t.dueDate)
  }

  class TaskItemComponent {
    var task: TaskItem
    var isEditing: bool
    var editingTask: UpdateTaskRequest

    constructor(task: TaskItem)
      ensures this.task == task && !isEditing
      ensures editingTask == UpdateTaskRequest("", "", M.StatusOrdinal(M.Todo), M.PriorityOrdinal(M.Medium), None)
    {
      this.task := task;
      isEditing := false;
      editingTask := UpdateTaskRequest("", "", M.StatusOrdinal(M.Todo), M.PriorityOrdinal(M.Medium), None);
    }

    /** Opens the editor on a copy of the task's editable fields. */
    method StartEdit()
      modifies this
      ensures isEditing && editingTask == EditableFields(task) && task == old(task)
    {
      isEditing := true;
      editingTask := EditableFields(task);
    }

    /** Issues the update for the edited fields, unless the edited title is blank. */
    method SaveTask() returns (request: Option<(int, UpdateTaskRequest)>)
      ensures request.None? <==> IsBlank(editingTask.title)
      ensures request.Some? ==> request.value.0 == task.id && request.value.1 == editingTask
    {
      if IsBlank(editingTask.title) {
        return None;
      }
      request := Some((task.id, editingTask));
    }

    /** The service accepted the edit: show the stored task and close the editor. */
    method TaskSaved(updated: TaskItem)
      modifies this
      ensures task == updated && !isEditing && editingTask == old(editingTask)
    {
      task := updated;
      isEditing := false;
    }

    /** Issues an update that advances the status and repeats every other field. */
    method ChangeStatus() returns (request: (int, UpdateTaskRequest))
      ensures request.0 == task.id
      ensures request.1 == EditableFields(task).(status := NextStatus(task.status))
    {
      var next := NextStatus(task.status);
      request := (task.id, UpdateTaskRequest(task.title, task.description, next, task.priority, task.dueDate));
    }

    /** The service accepted the status change: show the stored task. */
    method StatusChanged(updated: TaskItem)
      modifies this
      ensures task == updated && isEditing == old(isEditing) && editingTask == old(editingTask)
    {
      task := updated;
    }
  }
}
