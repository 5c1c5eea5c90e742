/** The per-expression task manager of orchestrator/internal/service/utils/task_manager.go:
    a task-id counter plus a result mailbox, a channel of capacity one. */
module TaskManagers {
  import opened Models

  /** The capacity of the result channel. */
  const SlotCapacity: nat := 1

  /** `slot` holds the results sent but not yet received, oldest first;
      `durations` maps an operator to its operation time in milliseconds. */
  datatype TaskManager = TaskManager(durations: map<string, int>, slot: seq<TaskResult>, counter: nat)

  predicate Valid(tm: TaskManager) {
    |tm.slot| <= SlotCapacity
  }

  function NewTaskManager(durations: map<string, int>): (tm: TaskManager)
    ensures Valid(tm) && tm.slot == [] && tm.counter == 0 && tm.durations == durations
  {
    TaskManager(durations, [], 0)
  }

  /** Go's map index: the stored duration, or zero for an operator absent from the map. */
  function Duration(durations: map<string, int>, oper: string): (d: int)
    ensures oper in durations ==> d == durations[oper]
    ensures oper !in durations ==> d == 0
  {
    if oper in durations then durations[oper] else 0
  }

  /** Raises the counter and issues a task whose id is the new counter value. */
  function CreateTask(tm: TaskManager, arg1: real, arg2: real, oper: string, exprId: Id): (r: (TaskManager, Task))
    ensures r.0.counter == tm.counter + 1
    ensures r.1.taskId == r.0.counter
    ensures r.1.arg1 == arg1 && r.1.arg2 == arg2 && r.1.operation == oper && r.1.exprId == exprId
    ensures r.1.operationTime == Duration(tm.durations, oper)
    ensures r.0.slot == tm.slot && r.0.durations == tm.durations
  {
    var counter := tm.counter + 1;
    (tm.(counter := counter), Task(exprId, counter, arg1, arg2, oper, Duration(tm.durations, oper)))
  }

  /** Sends a result into the mailbox; sending into a full mailbox would block. */
  function AddResult(tm: TaskManager, res: TaskResult): (r: TaskManager)
    requires |tm.slot| < SlotCapacity
    ensures Valid(r) && r.slot == [res]
    ensures r.counter == tm.counter && r.durations == tm.durations
  {
    tm.(slot := tm.slot + [res])
  }

  /** Receives the result in the mailbox; receiving from an empty one would block. */
  function GetResult(tm: TaskManager): (r: (TaskManager, TaskResult))
    requires |tm.slot| > 0
    ensures r.1 == tm.slot[0] && r.0.slot == tm.slot[1..]
    ensures r.0.counter == tm.counter && r.0.durations == tm.durations
  {
    (tm.(slot := tm.slot[1..]), tm.slot[0])
  }

  /** A result sent into an empty mailbox comes back unchanged, leaving the
      mailbox empty and the manager as it was. */
  lemma ResultRoundTrip(tm: TaskManager, res: TaskResult)
    requires tm.slot == []
    ensures GetResult(AddResult(tm, res)) == (tm, res)
  {
  }

  /** The arguments of one `CreateTask` call. */
  datatype TaskRequest = TaskRequest(arg1: real, arg2: real, oper: string, exprId: Id)

  /** `CreateTask` called once per request, in order; returns the issued tasks. */
  function CreateTasks(tm: TaskManager, reqs: seq<TaskRequest>): (r: (TaskManager, seq<Task>))
    ensures |r.1| == |reqs|
    ensures r.0.slot == tm.slot && r.0.durations == tm.durations
    decreases |reqs|
  {
    if reqs == [] then (tm, [])
    else
      var (tm1, t) := CreateTask(tm, reqs[0].arg1, reqs[0].arg2, reqs[0].oper, reqs[0].exprId);
      var (tm2, ts) := CreateTasks(tm1, reqs[1..]);
      (tm2, [t] + ts)
  }

  /** Ids are issued without gaps, whatever expression each call names: the
      k-th task of a run gets counter + k + 1, and the counter ends raised by
      the number of calls. */
  lemma {:induction false} TaskIdsConsecutive(tm: TaskManager, reqs: seq<TaskRequest>)
    ensures CreateTasks(tm, reqs).0.counter == tm.counter + |reqs|
    ensures forall k :: 0 <= k < |reqs| ==> CreateTasks(tm, reqs).1[k].taskId == tm.counter + k + 1
    decreases |reqs|
  {
    if reqs != [] {
      var (tm1, t) := CreateTask(tm, reqs[0].arg1, reqs[0].arg2, reqs[0].oper, reqs[0].exprId);
      TaskIdsConsecutive(tm1, reqs[1..]);
      var ts := CreateTasks(tm1, reqs[1..]).1;
      assert CreateTasks(tm, reqs).1 == [t] + ts;
      forall k | 0 <= k < |reqs|
        ensures CreateTasks(tm, reqs).1[k].taskId == tm.counter + k + 1
      {
        if k > 0 {
          assert CreateTasks(tm, reqs).1[k] == ts[k - 1];
        }
      }
    }
  }

  /** No two tasks of one manager share an id, and none has id 0. */
  lemma TaskIdsDistinct(tm: TaskManager, reqs: seq<TaskRequest>)
    ensures forall j, k :: 0 <= j < k < |reqs| ==> CreateTasks(tm, reqs).1[j].taskId != CreateTasks(tm, reqs).1[k].taskId
    ensures forall k :: 0 <= k < |reqs| ==> CreateTasks(tm, reqs).1[k].taskId > 0
  {
    TaskIdsConsecutive(tm, reqs);
  }

  /** The id a task gets depends only on the manager, never on the expression id passed in. */
  lemma TaskIdIgnoresExpression(tm: TaskManager, arg1: real, arg2: real, oper: string, a: Id, b: Id)
    ensures CreateTask(tm, arg1, arg2, oper, a).1.taskId == CreateTask(tm, arg1, arg2, oper, b).1.taskId
    ensures CreateTask(tm, arg1, arg2, oper, a).0 == CreateTask(tm, arg1, arg2, oper, b).0
  {
  }
}
