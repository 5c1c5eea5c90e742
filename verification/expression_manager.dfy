/** The expression registry of orchestrator/internal/service/utils/expression_manager.go:
    expressions and their task managers keyed by expression id, and one task
    queue, a channel of capacity 100, shared by every expression. */
module ExpressionManagers {
  import opened Wrappers
  import opened Errors
  import opened Models
  import opened TaskManagers
  import Maps

  /** The capacity of the shared task channel. */
  const QueueCapacity: nat := 100

  /** `queue` holds the tasks sent but not yet received, oldest first. */
  datatype ExpressionManager = ExpressionManager(
    expressions: map<Id, Expression>,
    taskManagers: map<Id, TaskManager>,
    queue: seq<Task>,
    durations: map<string, int>)

  predicate Valid(em: ExpressionManager) {
    && |em.queue| <= QueueCapacity
    && (forall id :: id in em.taskManagers ==> TaskManagers.Valid(em.taskManagers[id]))
  }

  function NewExpressionManager(durations: map<string, int>): (em: ExpressionManager)
    ensures Valid(em)
    ensures em.expressions == map[] && em.taskManagers == map[] && em.queue == []
    ensures em.durations == durations
  {
    ExpressionManager(map[], map[], [], durations)
  }

  /** Registers `e` under its own id with a fresh task manager, replacing any
      earlier registration of that id. */
  function CreateExpression(em: ExpressionManager, e: Expression): (r: ExpressionManager)
    ensures r.queue == em.queue && r.durations == em.durations
    ensures r.expressions.Keys == em.expressions.Keys + {e.exprId}
    ensures r.taskManagers.Keys == em.taskManagers.Keys + {e.exprId}
  {
    em.(expressions := em.expressions[e.exprId := e],
        taskManagers := em.taskManagers[e.exprId := NewTaskManager(em.durations)])
  }

  function GetTaskManager(em: ExpressionManager, id: Id): (r: Result<TaskManager, Error>)
    ensures r.Success? <==> id in em.taskManagers
    ensures r.Success? ==> r.value == em.taskManagers[id]
    ensures r.Failure? ==> r.error == TaskManagerNotFound
  {
    if id in em.taskManagers then Success(em.taskManagers[id]) else Failure(TaskManagerNotFound)
  }

  function GetExpression(em: ExpressionManager, id: Id): (r: Option<Expression>)
    ensures r.Some? <==> id in em.expressions
    ensures r.Some? ==> r.value == em.expressions[id]
  {
    if id in em.expressions then Some(em.expressions[id]) else None
  }

  /** Every registered expression, in an unspecified order (Go's map
      iteration order); one entry per registered id. */
  method GetExpressions(em: ExpressionManager) returns (r: seq<Expression>)
    ensures |r| == |em.expressions.Keys|
    ensures forall id :: id in em.expressions ==> em.expressions[id] in r
    ensures forall i :: 0 <= i < |r| ==> r[i] in em.expressions.Values
  {
    r := Maps.Values(em.expressions);
  }

  /** Sends a task into the shared queue; sending into a full queue would block. */
  function AddTask(em: ExpressionManager, t: Task): (r: ExpressionManager)
    requires |em.queue| < QueueCapacity
    ensures r.queue == em.queue + [t]
    ensures r.expressions == em.expressions && r.taskManagers == em.taskManagers
    ensures r.durations == em.durations
  {
    em.(queue := em.queue + [t])
  }

  /** A receive that does not wait, as GetTask's `select` with a `default`
      performs it: the oldest task, or nothing when the queue is empty. */
  function TakeTask(em: ExpressionManager): (r: (ExpressionManager, Option<Task>))
    ensures r.1.Some? <==> |em.queue| > 0
    ensures r.1.Some? ==> r.1.value == em.queue[0] && r.0.queue == em.queue[1..]
    ensures r.1.None? ==> r.0 == em
    ensures r.0.expressions == em.expressions && r.0.taskManagers == em.taskManagers
  {
    if |em.queue| == 0 then (em, None) else (em.(queue := em.queue[1..]), Some(em.queue[0]))
  }

  /** Marks a registered expression done with its value; unknown ids are ignored. */
  function ExpressionDone(em: ExpressionManager, id: Id, value: real): (r: ExpressionManager)
    ensures r.expressions.Keys == em.expressions.Keys
    ensures id in em.expressions ==> r.expressions[id] == em.expressions[id].(status := Done, result := Some(value))
    ensures forall other :: other in em.expressions && other != id ==> r.expressions[other] == em.expressions[other]
    ensures r.taskManagers == em.taskManagers && r.queue == em.queue && r.durations == em.durations
  {
    if id in em.expressions then
      em.(expressions := em.expressions[id := em.expressions[id].(status := Done, result := Some(value))])
    else em
  }

  /** Marks a registered expression invalid, keeping whatever result it had;
      unknown ids are ignored. */
  function ExpressionError(em: ExpressionManager, id: Id): (r: ExpressionManager)
    ensures r.expressions.Keys == em.expressions.Keys
    ensures id in em.expressions ==> r.expressions[id] == em.expressions[id].(status := Invalid)
    ensures forall other :: other in em.expressions && other != id ==> r.expressions[other] == em.expressions[other]
    ensures r.taskManagers == em.taskManagers && r.queue == em.queue && r.durations == em.durations
  {
    if id in em.expressions then
      em.(expressions := em.expressions[id := em.expressions[id].(status := Invalid)])
    else em
  }

  /** After registration the expression and a fresh task manager are found
      under its id, and every other id keeps what it had. */
  lemma CreateThenGet(em: ExpressionManager, e: Expression, other: Id)
    requires other != e.exprId
    ensures GetExpression(CreateExpression(em, e), e.exprId) == Some(e)
    ensures GetTaskManager(CreateExpression(em, e), e.exprId) == Success(NewTaskManager(em.durations))
    ensures GetExpression(CreateExpression(em, e), other) == GetExpression(em, other)
    ensures GetTaskManager(CreateExpression(em, e), other) == GetTaskManager(em, other)
  {
  }

  /** Registering an id again replaces the expression and resets its task
      manager, even one that had issued tasks. */
  lemma ReRegisterReplaces(em: ExpressionManager, e1: Expression, e2: Expression)
    requires e1.exprId == e2.exprId
    ensures CreateExpression(CreateExpression(em, e1), e2) == CreateExpression(em, e2)
  {
  }

  /** Neither transition looks at the current status: the later call wins. */
  lemma LaterTransitionWins(em: ExpressionManager, id: Id, value: real)
    requires id in em.expressions
    ensures GetExpression(ExpressionError(ExpressionDone(em, id, value), id), id)
         == Some(em.expressions[id].(status := Invalid, result := Some(value)))
    ensures GetExpression(ExpressionDone(ExpressionError(em, id), id, value), id)
         == Some(em.expressions[id].(status := Done, result := Some(value)))
  {
  }

  /** On an unregistered id both transitions change nothing. */
  lemma TransitionsIgnoreUnknown(em: ExpressionManager, id: Id, value: real)
    requires id !in em.expressions
    ensures ExpressionDone(em, id, value) == em
    ensures ExpressionError(em, id) == em
  {
  }

  /** Every operation keeps the queue within its capacity and every mailbox within its own. */
  lemma OperationsPreserveValid(em: ExpressionManager, e: Expression, t: Task, id: Id, value: real)
    requires Valid(em)
    ensures Valid(CreateExpression(em, e))
    ensures |em.queue| < QueueCapacity ==> Valid(AddTask(em, t))
    ensures Valid(TakeTask(em).0)
    ensures Valid(ExpressionDone(em, id, value)) && Valid(ExpressionError(em, id))
  {
  }

  /** `AddTask` once per task, in order. */
  function AddTasks(em: ExpressionManager, ts: seq<Task>): (r: ExpressionManager)
    requires |em.queue| + |ts| <= QueueCapacity
    ensures r.expressions == em.expressions && r.taskManagers == em.taskManagers
    decreases |ts|
  {
    if ts == [] then em else AddTasks(AddTask(em, ts[0]), ts[1..])
  }

  /** `TakeTask` until it finds the queue empty; the tasks in the order received. */
  function TakeAll(em: ExpressionManager): (r: seq<Task>)
    ensures |r| == |em.queue|
    decreases |em.queue|
  {
    var (em1, t) := TakeTask(em);
    if t.None? then [] else [t.value] + TakeAll(em1)
  }

  lemma {:induction false} AddTasksAppends(em: ExpressionManager, ts: seq<Task>)
    requires |em.queue| + |ts| <= QueueCapacity
    ensures AddTasks(em, ts).queue == em.queue + ts
    decreases |ts|
  {
    if ts != [] {
      AddTasksAppends(AddTask(em, ts[0]), ts[1..]);
      assert em.queue + [ts[0]] + ts[1..] == em.queue + ts;
    }
  }

  lemma {:induction false} TakeAllIsQueue(em: ExpressionManager)
    ensures TakeAll(em) == em.queue
    decreases |em.queue|
  {
    if |em.queue| > 0 {
      TakeAllIsQueue(TakeTask(em).0);
    }
  }

  /** The queue is first in, first out: tasks added to it are received after
      the ones already waiting, in the order they were added. */
  lemma QueueIsFifo(em: ExpressionManager, ts: seq<Task>)
    requires |em.queue| + |ts| <= QueueCapacity
    ensures TakeAll(AddTasks(em, ts)) == em.queue + ts
  {
    AddTasksAppends(em, ts);
    TakeAllIsQueue(AddTasks(em, ts));
  }
}
