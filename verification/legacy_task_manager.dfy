/** The earlier task manager of internal/orchestrator/task_processor.go: a
    task-id counter, a record of every created task keyed by id, and two
    channels of capacity 10, one for tasks and one for results. */
module LegacyTasks {
  import opened Wrappers
  import LegacyConfig

  /** The capacity of each channel. */
  const QueueCapacity: nat := 10

  /** A task; `operationTime` is in milliseconds. Tasks carry no expression id. */
  datatype Task = Task(id: int, arg1: real, arg2: real, operation: string, operationTime: int)

  datatype TaskResult = TaskResult(id: int, value: real)

  /** `taskQueue` and `resultQueue` hold what was sent but not yet received,
      oldest first. */
  datatype TaskManager = TaskManager(
    config: LegacyConfig.Config,
    tasks: map<int, Task>,
    taskQueue: seq<Task>,
    resultQueue: seq<TaskResult>,
    counter: nat)

  /** The channels are within capacity, and every recorded task sits under
      its own id, which the counter has already issued. */
  predicate Valid(tm: TaskManager) {
    && |tm.taskQueue| <= QueueCapacity && |tm.resultQueue| <= QueueCapacity
    && (forall id :: id in tm.tasks ==> 1 <= id <= tm.counter && tm.tasks[id].id == id)
  }

  function NewTaskManager(config: LegacyConfig.Config): (tm: TaskManager)
    ensures Valid(tm) && tm.config == config && tm.counter == 0
    ensures tm.tasks == map[] && tm.taskQueue == [] && tm.resultQueue == []
  {
    TaskManager(config, map[], [], [], 0)
  }

  /** Raises the counter, issues a task whose id is the new counter value,
      and records it under that id. */
  function CreateTask(tm: TaskManager, arg1: real, arg2: real, oper: string): (r: (TaskManager, Task))
    ensures r.0.counter == tm.counter + 1 && r.1.id == r.0.counter
    ensures r.1.arg1 == arg1 && r.1.arg2 == arg2 && r.1.operation == oper
    ensures r.1.operationTime == LegacyConfig.OperationsTime(tm.config, oper)
    ensures r.0.tasks == tm.tasks[r.1.id := r.1]
    ensures r.0.taskQueue == tm.taskQueue && r.0.resultQueue == tm.resultQueue && r.0.config == tm.config
  {
    var id := tm.counter + 1;
    var task := Task(id, arg1, arg2, oper, LegacyConfig.OperationsTime(tm.config, oper));
    (tm.(counter := id, tasks := tm.tasks[id := task]), task)
  }

  /** Sends a task into the task channel; a full channel would block. */
  function AddTask(tm: TaskManager, t: Task): (r: TaskManager)
    requires |tm.taskQueue| < QueueCapacity
    ensures r.taskQueue == tm.taskQueue + [t]
    ensures r.tasks == tm.tasks && r.resultQueue == tm.resultQueue && r.counter == tm.counter
  {
    tm.(taskQueue := tm.taskQueue + [t])
  }

  /** Receives from the channel GetTasksChan exposes; an empty one would block. */
  function TakeTask(tm: TaskManager): (r: (TaskManager, Task))
    requires |tm.taskQueue| > 0
    ensures r.1 == tm.taskQueue[0] && r.0.taskQueue == tm.taskQueue[1..]
    ensures r.0.tasks == tm.tasks && r.0.resultQueue == tm.resultQueue && r.0.counter == tm.counter
  {
    (tm.(taskQueue := tm.taskQueue[1..]), tm.taskQueue[0])
  }

  /** Looks a task up by id; Go's `(task, exists)` pair becomes an option. */
  function GetTask(tm: TaskManager, id: int): (r: Option<Task>)
    ensures r.Some? <==> id in tm.tasks
    ensures r.Some? ==> r.value == tm.tasks[id]
  {
    if id in tm.tasks then Some(tm.tasks[id]) else None
  }

  /** Sends a result into the result channel; a full channel would block. */
  function AddResult(tm: TaskManager, res: TaskResult): (r: TaskManager)
    requires |tm.resultQueue| < QueueCapacity
    ensures r.resultQueue == tm.resultQueue + [res]
    ensures r.tasks == tm.tasks && r.taskQueue == tm.taskQueue && r.counter == tm.counter
  {
    tm.(resultQueue := tm.resultQueue + [res])
  }

  /** Receives the oldest result; an empty channel would block. */
  function GetResult(tm: TaskManager): (r: (TaskManager, TaskResult))
    requires |tm.resultQueue| > 0
    ensures r.1 == tm.resultQueue[0] && r.0.resultQueue == tm.resultQueue[1..]
    ensures r.0.tasks == tm.tasks && r.0.taskQueue == tm.taskQueue && r.0.counter == tm.counter
  {
    (tm.(resultQueue := tm.resultQueue[1..]), tm.resultQueue[0])
  }

  /** A result sent into an empty channel comes back unchanged, leaving the
      manager as it was. */
  lemma ResultRoundTrip(tm: TaskManager, res: TaskResult)
    requires tm.resultQueue == []
    ensures GetResult(AddResult(tm, res)) == (tm, res)
  {
  }

  /** Deletes the record of a task, then reports whether the id is still
      recorded, which it never is. */
  function RemoveTask(tm: TaskManager, id: int): (r: (TaskManager, bool))
    ensures !r.1
    ensures r.0.tasks.Keys == tm.tasks.Keys - {id}
    ensures forall other :: other in tm.tasks && other != id ==> r.0.tasks[other] == tm.tasks[other]
    ensures r.0.taskQueue == tm.taskQueue && r.0.resultQueue == tm.resultQueue && r.0.counter == tm.counter
  {
    var tm1 := tm.(tasks := tm.tasks - {id});
    (tm1, id in tm1.tasks)
  }

  /** A created task is found under its id, which was free before; no other
      id changes. */
  lemma CreatedTaskIsRecorded(tm: TaskManager, arg1: real, arg2: real, oper: string, other: int)
    requires Valid(tm)
    ensures var (tm1, t) := CreateTask(tm, arg1, arg2, oper);
      && GetTask(tm, t.id) == None
      && GetTask(tm1, t.id) == Some(t)
      && (other != t.id ==> GetTask(tm1, other) == GetTask(tm, other))
  {
  }

  /** An id the counter has not issued is never found. */
  lemma NeverCreatedIsAbsent(tm: TaskManager, id: int)
    requires Valid(tm) && (id < 1 || id > tm.counter)
    ensures GetTask(tm, id) == None
  {
  }

  /** After RemoveTask the task is not found, and the call reported false. */
  lemma RemoveThenGet(tm: TaskManager, id: int, other: int)
    requires other != id
    ensures GetTask(RemoveTask(tm, id).0, id) == None
    ensures GetTask(RemoveTask(tm, id).0, other) == GetTask(tm, other)
    ensures RemoveTask(tm, id).1 == false
  {
  }

  /** Every operation keeps the manager valid. */
  lemma OperationsPreserveValid(tm: TaskManager, arg1: real, arg2: real, oper: string, t: Task, res: TaskResult, id: int)
    requires Valid(tm)
    ensures Valid(CreateTask(tm, arg1, arg2, oper).0)
    ensures |tm.taskQueue| < QueueCapacity ==> Valid(AddTask(tm, t))
    ensures |tm.taskQueue| > 0 ==> Valid(TakeTask(tm).0)
    ensures |tm.resultQueue| < QueueCapacity ==> Valid(AddResult(tm, res))
    ensures |tm.resultQueue| > 0 ==> Valid(GetResult(tm).0)
    ensures Valid(RemoveTask(tm, id).0)
  {
  }

  /** `AddResult` once per result, in order. */
  function AddResults(tm: TaskManager, rs: seq<TaskResult>): (r: TaskManager)
    requires |tm.resultQueue| + |rs| <= QueueCapacity
    ensures r.tasks == tm.tasks && r.taskQueue == tm.taskQueue && r.counter == tm.counter
    decreases |rs|
  {
    if rs == [] then tm else AddResults(AddResult(tm, rs[0]), rs[1..])
  }

  /** `GetResult` until the channel is empty; the results in the order received. */
  function GetAllResults(tm: TaskManager): (r: seq<TaskResult>)
    ensures |r| == |tm.resultQueue|
    decreases |tm.resultQueue|
  {
    if |tm.resultQueue| == 0 then []
    else
      var (tm1, res) := GetResult(tm);
      [res] + GetAllResults(tm1)
  }

  lemma {:induction false} AddResultsAppends(tm: TaskManager, rs: seq<TaskResult>)
    requires |tm.resultQueue| + |rs| <= QueueCapacity
    ensures AddResults(tm, rs).resultQueue == tm.resultQueue + rs
    decreases |rs|
  {
    if rs != [] {
      AddResultsAppends(AddResult(tm, rs[0]), rs[1..]);
      assert tm.resultQueue + [rs[0]] + rs[1..] == tm.resultQueue + rs;
    }
  }

  lemma {:induction false} GetAllResultsIsQueue(tm: TaskManager)
    ensures GetAllResults(tm) == tm.resultQueue
    decreases |tm.resultQueue|
  {
    if |tm.resultQueue| > 0 {
      GetAllResultsIsQueue(GetResult(tm).0);
    }
  }

  /** Results come back in the order they were added, after the ones
      already waiting. */
  lemma ResultsAreFifo(tm: TaskManager, rs: seq<TaskResult>)
    requires |tm.resultQueue| + |rs| <= QueueCapacity
    ensures GetAllResults(AddResults(tm, rs)) == tm.resultQueue + rs
  {
    AddResultsAppends(tm, rs);
    GetAllResultsIsQueue(AddResults(tm, rs));
  }
}
