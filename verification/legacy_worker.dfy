/** The earlier dispatcher, Process of internal/orchestrator/worker.go. It
    works like the current one, but each operator's task goes to the task
    manager's own task channel (capacity 10), the value comes from the
    manager's result channel (capacity 10), and results carry only a task id.

    Who answers a task is a parameter, the worker, as in the current
    dispatcher: a receive that would wait forever, and a send into a channel
    that stays full, end the run instead of blocking. */
module LegacyWorker {
  import opened Wrappers
  import opened Numbers
  import opened LegacyTasks
  import LegacyExpressions
  import LegacyAgent
  import LegacyConfig
  import Models
  import Postfix
  import Dispatcher

  type Worker = Task -> Option<TaskResult>

  /** Channels within their capacities. */
  predicate Room(tm: TaskManager) {
    |tm.taskQueue| <= QueueCapacity && |tm.resultQueue| <= QueueCapacity
  }

  /** The state after a run: `created` lists every task CreateTask issued, in order. */
  datatype Run = Run(tm: TaskManager, created: seq<Task>, halt: Dispatcher.Halt)

  /** The result the worker posts for a task: none, or one. */
  function Posted(answer: Option<TaskResult>): (r: seq<TaskResult>)
    ensures |r| <= 1 && (r == [] <==> answer.None?)
  {
    match answer
    case None => []
    case Some(res) => [res]
  }

  /** The send of the task followed by the receive of a result. The result
      channel is first in, first out, and results carry no expression id (nothing
      checks the task id), so the worker's answer to `task`, if any, queues
      behind the results already waiting, and the receive takes the oldest.
      None when nothing is waiting and the worker stays silent: the receive
      would wait forever. */
  function Await(tm: TaskManager, task: Task, worker: Worker): (r: Option<(TaskManager, TaskResult)>)
    requires Room(tm)
    ensures var q := tm.resultQueue + Posted(worker(task));
      && (r.Some? <==> q != [])
      && (r.Some? ==> r.value.1 == q[0] && r.value.0 == tm.(resultQueue := q[1..]))
    ensures r.Some? ==> Room(r.value.0)
    ensures |tm.resultQueue| > 0 ==> r.Some? && r.value.1 == tm.resultQueue[0]
    ensures |tm.resultQueue| == 0 && r.Some? ==> r.value == (tm, worker(task).value)
  {
    if |tm.resultQueue| > 0 then
      var (tm1, stale) := GetResult(tm);
      match worker(task)
      case None => Some((tm1, stale))
      case Some(res) => Some((AddResult(tm1, res), stale))
    else match worker(task)
      case None => None
      case Some(res) =>
        ResultRoundTrip(tm, res);
        Some(GetResult(AddResult(tm, res)))
  }

  /** What one operator token does once its two values are popped. */
  datatype Issue =
    | Answered(tm: TaskManager, task: Task, value: real)
    | Blocked(tm: TaskManager, task: Task, halt: Dispatcher.Halt)

  /** CreateTask on the popped values (arg2 the top, arg1 the one below), then
      AddTask on the manager's own channel, then GetResult. */
  function IssueTask(stack: seq<real>, tm: TaskManager, op: string, worker: Worker): (r: Issue)
    requires |stack| >= 2 && Room(tm)
    ensures r.task == Task(tm.counter + 1, stack[|stack| - 2], stack[|stack| - 1], op,
                           LegacyConfig.OperationsTime(tm.config, op))
    ensures r.tm.counter == tm.counter + 1 && r.tm.config == tm.config && Room(r.tm)
    ensures r.tm.tasks == tm.tasks[r.task.id := r.task]
    ensures r.Answered? ==> r.tm.taskQueue == tm.taskQueue + [r.task]
    ensures r.Blocked? ==> r.halt == Dispatcher.QueueFull || r.halt == Dispatcher.NoAnswer
    ensures r.Blocked? && r.halt == Dispatcher.QueueFull ==>
      |tm.taskQueue| == QueueCapacity && r.tm.taskQueue == tm.taskQueue
    ensures r.Blocked? && r.halt == Dispatcher.NoAnswer ==> r.tm.taskQueue == tm.taskQueue + [r.task]
    ensures r.Answered? ==> var q := tm.resultQueue + Posted(worker(r.task));
      q != [] && r.value == q[0].value && r.tm.resultQueue == q[1..]
    ensures r.Blocked? && r.halt == Dispatcher.NoAnswer <==>
      |tm.taskQueue| < QueueCapacity && tm.resultQueue == [] && worker(r.task).None?
    ensures |tm.resultQueue| == 0 && r.Answered? ==>
      worker(r.task).Some? && r.value == worker(r.task).value.value && r.tm.resultQueue == []
    ensures |tm.resultQueue| == 0 && r.Blocked? && r.halt == Dispatcher.NoAnswer ==> worker(r.task).None?
  {
    var (tm1, task) := CreateTask(tm, stack[|stack| - 2], stack[|stack| - 1], op);
    if |tm1.taskQueue| == QueueCapacity then Blocked(tm1, task, Dispatcher.QueueFull)
    else
      var tm2 := AddTask(tm1, task);
      match Await(tm2, task, worker)
      case None => Blocked(tm2, task, Dispatcher.NoAnswer)
      case Some((tm3, res)) => Answered(tm3, task, res.value)
  }

  /** The loop over the remaining `tokens`, from value stack `stack`. */
  function Dispatch(tokens: seq<string>, stack: seq<real>, tm: TaskManager, worker: Worker): (r: Run)
    requires Room(tm)
    ensures r.tm.config == tm.config
    decreases |tokens|
  {
    if tokens == [] then Run(tm, [], Dispatcher.Finished(stack))
    else match ParseFloat(tokens[0])
      case Some(x) => Dispatch(tokens[1..], stack + [x], tm, worker)
      case None =>
        if |stack| < 2 then Run(tm, [], Dispatcher.Underflow)
        else match IssueTask(stack, tm, tokens[0], worker)
          case Blocked(tm1, task, halt) => Run(tm1, [task], halt)
          case Answered(tm1, task, v) =>
            var rest := Dispatch(tokens[1..], stack[..|stack| - 2] + [v], tm1, worker);
            rest.(created := [task] + rest.created)
  }

  /** The outcome of Process: the run, and the registry after it. */
  datatype Processed = Processed(run: Run, em: LegacyExpressions.ExpressionManager)

  /** Process: a run from an empty stack; a single value left marks the
      expression done with it; an underflow or any other number of values
      marks it invalid; a run that stopped waiting leaves the registry alone. */
  function Process(tokens: seq<string>, tm: TaskManager, em: LegacyExpressions.ExpressionManager,
                   exprId: nat, worker: Worker): (r: Processed)
    requires Room(tm)
    ensures r.run == Dispatch(tokens, [], tm, worker)
    ensures r.run.halt.Finished? && |r.run.halt.stack| == 1 ==>
      r.em == LegacyExpressions.ExpressionDone(em, exprId, r.run.halt.stack[0])
    ensures (r.run.halt.Finished? && |r.run.halt.stack| != 1) || r.run.halt.Underflow? ==>
      r.em == LegacyExpressions.ExpressionError(em, exprId)
    ensures r.run.halt.QueueFull? || r.run.halt.NoAnswer? ==> r.em == em
  {
    var run := Dispatch(tokens, [], tm, worker);
    match run.halt
    case Finished(stack) =>
      if |stack| == 1 then Processed(run, LegacyExpressions.ExpressionDone(em, exprId, stack[0]))
      else Processed(run, LegacyExpressions.ExpressionError(em, exprId))
    case Underflow => Processed(run, LegacyExpressions.ExpressionError(em, exprId))
    case _ => Processed(run, em)
  }

  /** Task ids follow the counter without gaps, and every created task stays
      recorded under its id; earlier records are kept. */
  lemma {:induction false} DispatchRecords(tokens: seq<string>, stack: seq<real>, tm: TaskManager, worker: Worker)
    requires Room(tm)
    ensures var r := Dispatch(tokens, stack, tm, worker);
      && r.tm.counter == tm.counter + |r.created|
      && (forall k :: 0 <= k < |r.created| ==> r.created[k].id == tm.counter + k + 1)
      && (forall k :: 0 <= k < |r.created| ==> GetTask(r.tm, r.created[k].id) == Some(r.created[k]))
      && (forall id :: id in tm.tasks && id <= tm.counter ==> GetTask(r.tm, id) == GetTask(tm, id))
    decreases |tokens|
  {
    if tokens != [] {
      match ParseFloat(tokens[0])
      case Some(x) =>
        DispatchRecords(tokens[1..], stack + [x], tm, worker);
      case None =>
        if |stack| >= 2 {
          match IssueTask(stack, tm, tokens[0], worker)
          case Blocked(_, _, _) =>
          case Answered(tm1, task, v) =>
            DispatchRecords(tokens[1..], stack[..|stack| - 2] + [v], tm1, worker);
            var rest := Dispatch(tokens[1..], stack[..|stack| - 2] + [v], tm1, worker);
            var created := [task] + rest.created;
            assert forall k :: 1 <= k < |created| ==> created[k] == rest.created[k - 1];
            assert task.id in tm1.tasks && task.id <= tm1.counter;
        }
    }
  }

  /** Under a worker that answers every task, a run never waits forever and
      the number of results waiting never changes: each receive takes the
      oldest result and the answer just posted takes its place at the end. */
  lemma {:induction false} AnsweringKeepsBacklog(tokens: seq<string>, stack: seq<real>, tm: TaskManager, worker: Worker)
    requires Room(tm) && forall t :: worker(t).Some?
    ensures var r := Dispatch(tokens, stack, tm, worker);
      r.halt != Dispatcher.NoAnswer && |r.tm.resultQueue| == |tm.resultQueue|
    decreases |tokens|
  {
    if tokens != [] {
      match ParseFloat(tokens[0])
      case Some(x) =>
        AnsweringKeepsBacklog(tokens[1..], stack + [x], tm, worker);
      case None =>
        if |stack| >= 2 {
          match IssueTask(stack, tm, tokens[0], worker)
          case Blocked(_, _, _) =>
          case Answered(tm1, task, v) =>
            AnsweringKeepsBacklog(tokens[1..], stack[..|stack| - 2] + [v], tm1, worker);
        }
    }
  }

  /** The answer the legacy agent gives: the task's id and DoTask's value. */
  function Answer(t: Task): Option<TaskResult> {
    Some(TaskResult(t.id, LegacyAgent.Compute(t.operation, t.arg1, t.arg2)))
  }

  /** With the legacy agent answering, no earlier result waiting, and room on
      the task channel for every operator, the run is the reference evaluator
      under the legacy operator meaning, which always has a value. */
  lemma {:induction false} HonestDispatchEvaluates(tokens: seq<string>, stack: seq<real>, tm: TaskManager)
    requires Room(tm) && tm.resultQueue == []
    requires |tm.taskQueue| + Postfix.OperatorCount(tokens) <= QueueCapacity
    ensures var r := Dispatch(tokens, stack, tm, Answer);
      && Postfix.Eval(tokens, stack, LegacyAgent.Semantics) != Failure(Postfix.Undefined)
      && (Postfix.Eval(tokens, stack, LegacyAgent.Semantics).Success? ==>
            r.halt == Dispatcher.Finished(Postfix.Eval(tokens, stack, LegacyAgent.Semantics).value))
      && (Postfix.Eval(tokens, stack, LegacyAgent.Semantics).Failure? ==> r.halt == Dispatcher.Underflow)
    decreases |tokens|
  {
    if tokens != [] {
      match ParseFloat(tokens[0])
      case Some(x) =>
        HonestDispatchEvaluates(tokens[1..], stack + [x], tm);
      case None =>
        if |stack| >= 2 {
          var i := IssueTask(stack, tm, tokens[0], Answer);
          assert i.Answered?;
          HonestDispatchEvaluates(tokens[1..], stack[..|stack| - 2] + [i.value], i.tm);
        }
    }
  }

  /** Process under the legacy agent agrees with the reference evaluator: the
      expression is done with the value exactly when the postfix list has
      one, and is otherwise invalid with result 0. */
  lemma HonestProcessAgrees(tokens: seq<string>, tm: TaskManager, em: LegacyExpressions.ExpressionManager, exprId: nat)
    requires Room(tm) && tm.resultQueue == []
    requires |tm.taskQueue| + Postfix.OperatorCount(tokens) <= QueueCapacity
    requires exprId in em.expressions
    ensures var e := Process(tokens, tm, em, exprId, Answer).em.expressions[exprId];
      && (Postfix.EvalPostfix(tokens, LegacyAgent.Semantics).Success? ==>
            e == em.expressions[exprId].(status := Models.Done, result := Postfix.EvalPostfix(tokens, LegacyAgent.Semantics).value))
      && (Postfix.EvalPostfix(tokens, LegacyAgent.Semantics).Failure? ==>
            e == em.expressions[exprId].(status := Models.Invalid, result := 0.0))
  {
    HonestDispatchEvaluates(tokens, [], tm);
  }
}
