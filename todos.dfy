/**
 * The patient's daily to-do document and the handler that ticks one task off
 * (PUT /api/patient/todo/:id). The store of documents is a map from id to the
 * document's task list, updated in place as the handler does.
 */
module Todos {
  import opened Values

  datatype Task = Task(title: string, completed: bool, reason: string)

  /** The handler's answer. */
  datatype Status = Ok | NotFound | InvalidIndex

  /** `taskIndex !== undefined && todo.tasks[taskIndex]`: a present index naming an existing task. */
  predicate ValidIndex(tasks: seq<Task>, taskIndex: Option<int>)
  {
    taskIndex.Some? && 0 <= taskIndex.value < |tasks|
  }

  /** `if (reason)`: only a present, non-empty reason is written. */
  predicate GivesReason(reason: Option<string>)
  {
    reason.Some? && reason.value != ""
  }

  /**
   * The task list after the update, or None when the index is invalid. Only the
   * indexed task changes: its `completed` becomes the request's value and its
   * `reason` is overwritten only by a non-empty one.
   */
  function UpdatedTasks(tasks: seq<Task>, taskIndex: Option<int>, completed: bool, reason: Option<string>): (r: Option<seq<Task>>)
    ensures r.Some? <==> ValidIndex(tasks, taskIndex)
    ensures r.Some? ==> var i := taskIndex.value;
      |r.value| == |tasks| &&
      (forall j :: 0 <= j < |tasks| && j != i ==> r.value[j] == tasks[j]) &&
      r.value[i].title == tasks[i].title &&
      r.value[i].completed == completed &&
      r.value[i].reason == (if GivesReason(reason) then reason.value else tasks[i].reason)
  {
    if !ValidIndex(tasks, taskIndex) then None
    else
      var i := taskIndex.value;
      var t := tasks[i];
      Some(tasks[i := t.(completed := completed, reason := if GivesReason(reason) then reason.value else t.reason)])
  }

  /** Sending the same update twice leaves the list as sending it once. */
  lemma UpdateIdempotent(tasks: seq<Task>, taskIndex: Option<int>, completed: bool, reason: Option<string>)
    requires ValidIndex(tasks, taskIndex)
    ensures var once := UpdatedTasks(tasks, taskIndex, completed, reason).value;
      UpdatedTasks(once, taskIndex, completed, reason) == Some(once)
  {
    var once := UpdatedTasks(tasks, taskIndex, completed, reason).value;
    var twice := UpdatedTasks(once, taskIndex, completed, reason).value;
    var i := taskIndex.value;
    assert twice[i] == once[i];
    assert forall j :: 0 <= j < |once| ==> twice[j] == once[j];
    assert twice == once;
  }

  /** An update without a reason keeps whatever reason the task had, so a later tick does not erase an explanation. */
  lemma ReasonSurvivesLaterTick(tasks: seq<Task>, i: int, why: string)
    requires 0 <= i < |tasks| && why != ""
    ensures var first := UpdatedTasks(tasks, Some(i), false, Some(why)).value;
      UpdatedTasks(first, Some(i), true, None).value[i] == Task(tasks[i].title, true, why)
  {
  }

  class TodoStore {
    /** The stored to-do documents, by id, as their task lists. */
    var todos: map<string, seq<Task>>

    constructor(todos: map<string, seq<Task>>)
      ensures this.todos == todos
    {
      this.todos := todos;
    }

    /**
     * PUT /api/patient/todo/:id: 404 for an unknown document, 400 with nothing
     * changed for an invalid index, otherwise the one task is updated and saved.
     */
    method UpdateTask(id: string, taskIndex: Option<int>, completed: bool, reason: Option<string>) returns (status: Status)
      modifies this
      ensures status == NotFound <==> id !in old(todos)
      ensures status == InvalidIndex <==> id in old(todos) && !ValidIndex(old(todos)[id], taskIndex)
      ensures status != Ok ==> todos == old(todos)
      ensures status == Ok ==> todos == old(todos)[id := UpdatedTasks(old(todos)[id], taskIndex, completed, reason).value]
    {
      if id !in todos {
        return NotFound;
      }
      var updated := UpdatedTasks(todos[id], taskIndex, completed, reason);
      if updated.None? {
        return InvalidIndex;
      }
      todos := todos[id := updated.value];
      return Ok;
    }
  }

  /** A scenario: ticking the second of two tasks leaves the first as it was and the request's reason in place. */
  method TickScenario() returns (status: Status, after: seq<Task>)
    ensures status == Ok
    ensures after == [Task("walk", false, ""), Task("meditate", true, "done early")]
  {
    var store := new TodoStore(map["t1" := [Task("walk", false, ""), Task("meditate", false, "")]]);
    status := store.UpdateTask("t1", Some(1), true, Some("done early"));
    after := store.todos["t1"];
    var bad := store.UpdateTask("t1", Some(2), true, None);
    assert bad == InvalidIndex;
    var missing := store.UpdateTask("t2", Some(0), true, None);
    assert missing == NotFound;
    assert store.todos["t1"] == after;
  }
}
