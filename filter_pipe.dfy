/** FilterByStatusPipe: the tasks of one status column, in board order. */
module FilterPipe {
  import opened Wrappers
  import opened Seqs
  import opened ClientModels

  function HasStatus(status: int): TaskItem -> bool
  {
    (t: TaskItem) => t.status == status
  }

  /** `transform(tasks, status)`; an absent list (`null` or `undefined`) is `None`. */
  function Transform(tasks: Option<seq<TaskItem>>, status: int): (r: seq<TaskItem>)
    ensures tasks.None? ==> r == []
    ensures forall i :: 0 <= i < |r| ==> r[i].status == status
    // Membership both ways: corollaries of the multiset clause below, kept for the reader.
    ensures tasks.Some? ==> forall i :: 0 <= i < |r| ==> r[i] in tasks.value
    ensures tasks.Some? ==> forall i :: 0 <= i < |tasks.value| && tasks.value[i].status == status ==>
              tasks.value[i] in r
    ensures tasks.Some? ==> forall t :: multiset(r)[t] == if t.status == status then multiset(tasks.value)[t] else 0
  {
    if tasks.None? then [] else Filter(tasks.value, HasStatus(status))
  }

  /** The result keeps the input's relative order. */
  lemma TransformKeepsOrder(tasks: seq<TaskItem>, status: int)
    ensures IsSubsequence(Transform(Some(tasks), status), tasks)
  {
    FilterIsSubsequence(tasks, HasStatus(status));
  }

  /** Filtering a column again by the same status changes nothing. */
  lemma TransformIdempotent(tasks: seq<TaskItem>, status: int)
    ensures Transform(Some(Transform(Some(tasks), status)), status) == Transform(Some(tasks), status)
  {
    FilterIdempotent(tasks, HasStatus(status));
  }
}
