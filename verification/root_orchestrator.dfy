/** The earlier managers of orchestrator/task_processor.go and
    orchestrator/expression_processor.go. The task manager is the current one
    (a counter and a result channel of capacity one) except that operation
    times come from the configuration; the registry hands out counter ids and
    owns one task channel of capacity 100. */
module RootOrchestrator {
  import opened Wrappers
  import Models
  import TaskManagers
  import LegacyConfig
  import Maps

  /** A new task manager. It reads operation times from the configuration,
      which the model keeps as the manager's duration map. */
  function NewTaskManager(conf: LegacyConfig.Config): (tm: TaskManagers.TaskManager)
    ensures TaskManagers.Valid(tm) && tm.slot == [] && tm.counter == 0
    ensures tm.durations == LegacyConfig.AsDurations(conf)
  {
    TaskManagers.NewTaskManager(LegacyConfig.AsDurations(conf))
  }

  /** Raises the counter and issues a task whose id is the new counter value;
      the operation time is the configured one. */
  function CreateTask(conf: LegacyConfig.Config, tm: TaskManagers.TaskManager, arg1: real, arg2: real,
                      oper: string, exprId: Models.Id): (r: (TaskManagers.TaskManager, Models.Task))
    ensures r.0.counter == tm.counter + 1 && r.1.taskId == r.0.counter
    ensures r.1.arg1 == arg1 && r.1.arg2 == arg2 && r.1.operation == oper && r.1.exprId == exprId
    ensures r.1.operationTime == LegacyConfig.OperationsTime(conf, oper)
    ensures r.0.slot == tm.slot && r.0.durations == tm.durations
  {
    var (tm1, task) := TaskManagers.CreateTask(tm, arg1, arg2, oper, exprId);
    (tm1, task.(operationTime := LegacyConfig.OperationsTime(conf, oper)))
  }

  /** On a manager built from the same configuration, CreateTask is the
      current one. */
  lemma CreateTaskAgreesWithCurrent(conf: LegacyConfig.Config, tm: TaskManagers.TaskManager,
                                    arg1: real, arg2: real, oper: string, exprId: Models.Id)
    requires tm.durations == LegacyConfig.AsDurations(conf)
    ensures CreateTask(conf, tm, arg1, arg2, oper, exprId) == TaskManagers.CreateTask(tm, arg1, arg2, oper, exprId)
  {
    LegacyConfig.OperationsTimeIsDuration(conf, oper);
  }

  /** AddResult and GetResult are the current ones: a result sent into the
      empty channel comes back unchanged. */
  lemma ResultRoundTrip(conf: LegacyConfig.Config, res: Models.TaskResult)
    ensures TaskManagers.GetResult(TaskManagers.AddResult(NewTaskManager(conf), res)) == (NewTaskManager(conf), res)
  {
    TaskManagers.ResultRoundTrip(NewTaskManager(conf), res);
  }

  /** The capacity of the task channel. */
  const QueueCapacity: nat := 100

  /** One expression; `result` is Go's `*float64`, nil until done. */
  datatype Expression = Expression(id: nat, status: Models.Status, result: Option<real>)

  datatype ExpressionManager = ExpressionManager(
    conf: LegacyConfig.Config,
    expressions: map<nat, Expression>,
    taskManagers: map<nat, TaskManagers.TaskManager>,
    queue: seq<Models.Task>,
    counter: nat)

  /** Every expression sits under its own id, which the counter has issued,
      next to its task manager; the channels are within capacity. */
  predicate Valid(em: ExpressionManager) {
    && |em.queue| <= QueueCapacity
    && em.taskManagers.Keys == em.expressions.Keys
    && (forall id :: id in em.expressions ==> 1 <= id <= em.counter && em.expressions[id].id == id)
    && (forall id :: id in em.taskManagers ==> TaskManagers.Valid(em.taskManagers[id]))
  }

  function NewExpressionManager(conf: LegacyConfig.Config): (em: ExpressionManager)
    ensures Valid(em) && em.conf == conf && em.counter == 0
    ensures em.expressions == map[] && em.taskManagers == map[] && em.queue == []
  {
    ExpressionManager(conf, map[], map[], [], 0)
  }

  /** Raises the counter and registers, under the new value, a pending
      expression with no result and a new task manager. */
  function CreateExpression(em: ExpressionManager): (r: (ExpressionManager, nat))
    ensures r.1 == em.counter + 1 && r.0.counter == r.1
    ensures r.0.expressions == em.expressions[r.1 := Expression(r.1, Models.Pending, None)]
    ensures r.0.taskManagers == em.taskManagers[r.1 := NewTaskManager(em.conf)]
    ensures r.0.queue == em.queue && r.0.conf == em.conf
    ensures Valid(em) ==> Valid(r.0) && r.1 !in em.expressions
  {
    var id := em.counter + 1;
    (em.(expressions := em.expressions[id := Expression(id, Models.Pending, None)],
         taskManagers := em.taskManagers[id := NewTaskManager(em.conf)],
         counter := id), id)
  }

  /** Go's `(nil, false)` for an unknown id becomes None. */
  function GetTaskManager(em: ExpressionManager, id: nat): (r: Option<TaskManagers.TaskManager>)
    ensures r.Some? <==> id in em.taskManagers
    ensures r.Some? ==> r.value == em.taskManagers[id]
  {
    if id in em.taskManagers then Some(em.taskManagers[id]) else None
  }

  function GetExpression(em: ExpressionManager, id: nat): (r: Option<Expression>)
    ensures r.Some? <==> id in em.expressions
    ensures r.Some? ==> r.value == em.expressions[id]
  {
    if id in em.expressions then Some(em.expressions[id]) else None
  }

  /** Every registered expression, one per id, in an unspecified order. */
  method GetExpressions(em: ExpressionManager) returns (r: seq<Expression>)
    ensures |r| == |em.expressions.Keys|
    ensures forall id :: id in em.expressions ==> em.expressions[id] in r
    ensures forall i :: 0 <= i < |r| ==> r[i] in em.expressions.Values
  {
    r := Maps.Values(em.expressions);
  }

  /** Sends a task into the channel; a full channel would block. */
  function AddTask(em: ExpressionManager, t: Models.Task): (r: ExpressionManager)
    requires |em.queue| < QueueCapacity
    ensures r.queue == em.queue + [t]
    ensures r.expressions == em.expressions && r.taskManagers == em.taskManagers && r.counter == em.counter
  {
    em.(queue := em.queue + [t])
  }

  /** Receives from the channel GetTasks exposes; an empty one would block. */
  function TakeTask(em: ExpressionManager): (r: (ExpressionManager, Models.Task))
    requires |em.queue| > 0
    ensures r.1 == em.queue[0] && r.0.queue == em.queue[1..]
    ensures r.0.expressions == em.expressions && r.0.taskManagers == em.taskManagers && r.0.counter == em.counter
  {
    (em.(queue := em.queue[1..]), em.queue[0])
  }

  /** Marks a registered expression done with its value; unknown ids are ignored. */
  function ExpressionDone(em: ExpressionManager, id: nat, value: real): (r: ExpressionManager)
    ensures r.expressions.Keys == em.expressions.Keys
    ensures id in em.expressions ==> r.expressions[id] == em.expressions[id].(status := Models.Done, result := Some(value))
    ensures forall other :: other in em.expressions && other != id ==> r.expressions[other] == em.expressions[other]
    ensures r.taskManagers == em.taskManagers && r.queue == em.queue && r.counter == em.counter
  {
    if id in em.expressions then
      em.(expressions := em.expressions[id := em.expressions[id].(status := Models.Done, result := Some(value))])
    else em
  }

  /** Marks a registered expression invalid and touches nothing else;
      unknown ids are ignored. */
  function ExpressionError(em: ExpressionManager, id: nat): (r: ExpressionManager)
    ensures r.expressions.Keys == em.expressions.Keys
    ensures id in em.expressions ==> r.expressions[id] == em.expressions[id].(status := Models.Invalid)
    ensures forall other :: other in em.expressions && other != id ==> r.expressions[other] == em.expressions[other]
    ensures r.taskManagers == em.taskManagers && r.queue == em.queue && r.counter == em.counter
  {
    if id in em.expressions then
      em.(expressions := em.expressions[id := em.expressions[id].(status := Models.Invalid)])
    else em
  }

  /** A registration is found under its new id, pending with no result and
      a task manager that has issued nothing; the id was free before. */
  lemma CreateThenGet(em: ExpressionManager)
    requires Valid(em)
    ensures var (em1, id) := CreateExpression(em);
      && GetExpression(em, id) == None && GetTaskManager(em, id) == None
      && GetExpression(em1, id) == Some(Expression(id, Models.Pending, None))
      && GetTaskManager(em1, id) == Some(NewTaskManager(em.conf))
  {
  }

  /** The later transition wins, but an error after completion keeps the value. */
  lemma LaterTransitionWins(em: ExpressionManager, id: nat, value: real)
    requires id in em.expressions
    ensures GetExpression(ExpressionError(ExpressionDone(em, id, value), id), id)
         == Some(em.expressions[id].(status := Models.Invalid, result := Some(value)))
    ensures GetExpression(ExpressionDone(ExpressionError(em, id), id, value), id)
         == Some(em.expressions[id].(status := Models.Done, result := Some(value)))
  {
  }

  /** On an unregistered id both transitions change nothing, and both
      lookups report absence. */
  lemma TransitionsIgnoreUnknown(em: ExpressionManager, id: nat, value: real)
    requires id !in em.expressions && Valid(em)
    ensures ExpressionDone(em, id, value) == em
    ensures ExpressionError(em, id) == em
    ensures GetExpression(em, id) == None && GetTaskManager(em, id) == None
  {
  }

  /** Every operation keeps the registry valid. */
  lemma OperationsPreserveValid(em: ExpressionManager, t: Models.Task, id: nat, value: real)
    requires Valid(em)
    ensures Valid(CreateExpression(em).0)
    ensures |em.queue| < QueueCapacity ==> Valid(AddTask(em, t))
    ensures |em.queue| > 0 ==> Valid(TakeTask(em).0)
    ensures Valid(ExpressionDone(em, id, value)) && Valid(ExpressionError(em, id))
  {
  }

  /** `AddTask` once per task, in order. */
  function AddTasks(em: ExpressionManager, ts: seq<Models.Task>): (r: ExpressionManager)
    requires |em.queue| + |ts| <= QueueCapacity
    ensures r.expressions == em.expressions && r.taskManagers == em.taskManagers && r.counter == em.counter
    decreases |ts|
  {
    if ts == [] then em else AddTasks(AddTask(em, ts[0]), ts[1..])
  }

  /** `TakeTask` while the channel holds a task; the tasks in the order received. */
  function TakeAll(em: ExpressionManager): (r: seq<Models.Task>)
    ensures |r| == |em.queue|
    decreases |em.queue|
  {
    if em.queue == [] then [] else var (em1, t) := TakeTask(em); [t] + TakeAll(em1)
  }

  lemma {:induction false} AddTasksAppends(em: ExpressionManager, ts: seq<Models.Task>)
    requires |em.queue| + |ts| <= QueueCapacity
    ensures AddTasks(em, ts).queue == em.queue + ts
    decreases |ts|
  {
    if ts != [] {
      AddTasksAppends(AddTask(em, ts[0]), ts[1..]);
      assert em.queue + [ts[0]] + ts[1..] == em.queue + ts;
    }
  }

  lemma {:induction false} TakeAllIsQueue(em: ExpressionManager)
    ensures TakeAll(em) == em.queue
    decreases |em.queue|
  {
    if em.queue != [] {
      TakeAllIsQueue(TakeTask(em).0);
      assert [em.queue[0]] + em.queue[1..] == em.queue;
    }
  }

  /** The channel is first in, first out: tasks sent into it are received
      after the ones already waiting, in the order they were sent. */
  lemma TasksLeaveInOrder(em: ExpressionManager, ts: seq<Models.Task>)
    requires |em.queue| + |ts| <= QueueCapacity
    ensures TakeAll(AddTasks(em, ts)) == em.queue + ts
  {
    AddTasksAppends(em, ts);
    TakeAllIsQueue(AddTasks(em, ts));
  }
}
