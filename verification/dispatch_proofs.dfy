/** Properties that tie the dispatch loop to the task manager, the queue
    handler and the agent: task ids are 1..k, so the queue handler's
    id-0 error cannot be met by a dispatched task; and when agents answer
    every task with DoTask's arithmetic, both Process variants compute what
    the reference postfix evaluator computes, however long the expression and
    however full the queue. */
module DispatchProofs {
  import opened Wrappers
  import opened Models
  import opened Numbers
  import opened TaskManagers
  import opened ExpressionManagers
  import opened Dispatcher
  import Postfix
  import Agent
  import OrchestratorService
  import Processor

  /** Agents that keep polling the queue: every task is received, and the
      answer is Agent.Answer's, or nothing when the agent drops the task. */
  function Agents(t: Task): (r: Reply)
    ensures !r.Untaken?
    ensures r.Sent? <==> t.taskId != 0 && Postfix.Arithmetic(t.operation, t.arg1, t.arg2).Some?
    ensures r.Sent? ==> r.result == TaskResult(t.exprId, t.taskId, Postfix.Arithmetic(t.operation, t.arg1, t.arg2).value)
  {
    match Agent.Answer(t)
    case Some(res) => Sent(res)
    case None => Dropped
  }

  /** A fresh manager numbers the tasks of a run 1, 2, ..., k, where k is the
      number of operators the run reached, all of them when it finishes. */
  lemma FreshManagerNumbersFromOne(tokens: seq<string>, em: ExpressionManager, durations: map<string, int>,
                                   exprId: Id, worker: Worker)
    requires |em.queue| <= QueueCapacity
    ensures var r := Dispatch(tokens, [], NewTaskManager(durations), em, exprId, worker);
      && r.tm.counter == |r.created| <= Postfix.OperatorCount(tokens)
      && (forall k :: 0 <= k < |r.created| ==> r.created[k].taskId == k + 1)
      && (r.halt.Finished? ==> |r.created| == Postfix.OperatorCount(tokens))
  {
    DispatchIds(tokens, [], NewTaskManager(durations), em, exprId, worker);
    DispatchShape(tokens, [], NewTaskManager(durations), em, exprId, worker);
  }

  /** No task on the queue has id 0. */
  predicate NoZeroIds(queue: seq<Task>) {
    forall i :: 0 <= i < |queue| ==> queue[i].taskId != 0
  }

  /** Dispatching keeps the queue free of id-0 tasks, so GetTask's
      internal-error path is never taken for a dispatched task, and taking a
      task keeps the rest free of them too. */
  lemma DispatchedTasksNeverHitInternalError(tokens: seq<string>, stack: seq<real>, tm: TaskManager,
                                             em: ExpressionManager, exprId: Id, worker: Worker)
    requires TaskManagers.Valid(tm) && |em.queue| <= QueueCapacity && NoZeroIds(em.queue)
    ensures var r := Dispatch(tokens, stack, tm, em, exprId, worker);
      && NoZeroIds(r.em.queue)
      && OrchestratorService.GetTask(r.em).1 != Failure(Errors.InternalServerError)
      && NoZeroIds(OrchestratorService.GetTask(r.em).0.queue)
  {
    var r := Dispatch(tokens, stack, tm, em, exprId, worker);
    DispatchIds(tokens, stack, tm, em, exprId, worker);
    QueuedWereThereOrCreated(tokens, stack, tm, em, exprId, worker);
    forall i | 0 <= i < |r.em.queue|
      ensures r.em.queue[i].taskId != 0
    {
      var t := r.em.queue[i];
      if t !in em.queue {
        var k :| 0 <= k < |r.created| && r.created[k] == t;
      }
    }
    if |r.em.queue| > 0 {
      assert OrchestratorService.GetTask(r.em).0.queue == r.em.queue[1..];
    }
  }

  /** A task on the queue after a run was there before or was created by the run. */
  lemma QueuedWereThereOrCreated(tokens: seq<string>, stack: seq<real>, tm: TaskManager,
                                 em: ExpressionManager, exprId: Id, worker: Worker)
    requires TaskManagers.Valid(tm) && |em.queue| <= QueueCapacity
    ensures var r := Dispatch(tokens, stack, tm, em, exprId, worker);
      forall t :: t in r.em.queue ==> t in em.queue || t in r.created
  {
    var r := Dispatch(tokens, stack, tm, em, exprId, worker);
    DispatchQueue(tokens, stack, tm, em, exprId, worker);
    var sent := if r.halt == QueueFull then r.created[..|r.created| - 1] else r.created;
    DrainedAllKeepsUntaken(em.queue, sent, worker);
    assert forall t :: t in sent ==> t in r.created;
  }

  /** Agents that keep polling never leave a run blocked on a full queue, and
      once a run has sent a task nothing is left on the queue. */
  lemma HonestRunDrainsQueue(tokens: seq<string>, stack: seq<real>, tm: TaskManager,
                             em: ExpressionManager, exprId: Id)
    requires TaskManagers.Valid(tm) && |em.queue| <= QueueCapacity
    ensures var r := Dispatch(tokens, stack, tm, em, exprId, Agents);
      && r.halt != QueueFull
      && (|r.created| > 0 ==> r.em.queue == [])
      && (|r.created| == 0 ==> r.em.queue == em.queue)
  {
    var r := Dispatch(tokens, stack, tm, em, exprId, Agents);
    DispatchQueue(tokens, stack, tm, em, exprId, Agents);
    DrainedAllKeepsUntaken(em.queue, r.created, Agents);
  }

  /** With agents answering by DoTask and a fresh mailbox, the dispatch loop does what the reference evaluator
      does with exact arithmetic: the same final stack, an underflow where it
      underflows, and a wait that never ends where an operation has no value
      (the agent drops such a task). */
  lemma {:induction false} HonestDispatchEvaluates(tokens: seq<string>, stack: seq<real>, tm: TaskManager,
                                                   em: ExpressionManager, exprId: Id)
    requires TaskManagers.Valid(tm) && tm.slot == []
    requires |em.queue| <= QueueCapacity
    ensures var r := Dispatch(tokens, stack, tm, em, exprId, Agents);
      var e := Postfix.Eval(tokens, stack, Postfix.Arithmetic);
      && (e.Success? ==> r.halt == Finished(e.value))
      && (e == Failure(Postfix.Underflow) ==> r.halt == Underflow)
      && (e == Failure(Postfix.Undefined) ==> r.halt == NoAnswer)
    decreases |tokens|
  {
    if tokens != [] {
      match ParseFloat(tokens[0])
      case Some(x) =>
        HonestDispatchEvaluates(tokens[1..], stack + [x], tm, em, exprId);
      case None =>
        if |stack| >= 2 {
          var issue := IssueTask(stack, tm, em, tokens[0], exprId, Agents);
          assert !Postfix.IsNumberToken(tokens[0]);
          var a := Postfix.Arithmetic(tokens[0], stack[|stack| - 2], stack[|stack| - 1]);
          match issue
          case Blocked(_, _, task, _) =>
            assert Agents(task).Dropped?;
          case Answered(tm1, em1, task, v) =>
            assert a.Some? && v == a.value;
            HonestDispatchEvaluates(tokens[1..], stack[..|stack| - 2] + [v], tm1, em1, exprId);
        }
    }
  }

  /** Under agents that answer with DoTask's arithmetic, the storage update
      the orchestrator's Process asks for is "done" with the reference value,
      "invalid expression" where the reference finds too few or too many
      values, and nothing where an operation has no value. */
  lemma HonestProcessAgrees(tokens: seq<string>, tm: TaskManager, em: ExpressionManager, exprId: Id, storageOk: bool)
    requires TaskManagers.Valid(tm) && tm.slot == []
    requires |em.queue| <= QueueCapacity
    ensures var p := OrchestratorService.Process(tokens, tm, em, exprId, Agents, storageOk);
      match Postfix.EvalPostfix(tokens, Postfix.Arithmetic)
      case Success(v) => p.update == Some(OrchestratorService.Update(Done, Some(v)))
      case Failure(Undefined) => p.update == None
      case Failure(_) => p.update == Some(OrchestratorService.Update(Invalid, None))
  {
    HonestDispatchEvaluates(tokens, [], tm, em, exprId);
  }

  /** Under agents that answer with DoTask's arithmetic, the registry-only
      Process leaves a registered expression done with the reference value,
      or invalid where the reference finds too few or too many values. */
  lemma HonestProcessorAgrees(tokens: seq<string>, tm: TaskManager, em: ExpressionManager, exprId: Id)
    requires TaskManagers.Valid(tm) && tm.slot == [] && exprId in em.expressions
    requires |em.queue| <= QueueCapacity
    ensures var p := Processor.Process(tokens, tm, em, exprId, Agents);
      match Postfix.EvalPostfix(tokens, Postfix.Arithmetic)
      case Success(v) => p.em.expressions[exprId] == em.expressions[exprId].(status := Done, result := Some(v))
      case Failure(Undefined) => p.em.expressions == em.expressions
      case Failure(_) => p.em.expressions[exprId] == em.expressions[exprId].(status := Invalid)
  {
    HonestDispatchEvaluates(tokens, [], tm, em, exprId);
  }
}
