/** The orchestrator's RPC handlers of orchestrator/internal/service/service.go.
    The storage adapter is abstract: its replies are parameters, and Process
    returns the one update it asks storage to make. A request field that must
    parse as a UUID arrives already parsed, None standing for malformed text. */
module OrchestratorService {
  import opened Wrappers
  import opened Errors
  import opened Models
  import opened TaskManagers
  import opened ExpressionManagers
  import opened Dispatcher
  import Converter

  /** What Calculate leaves behind: the registry, the reply, and the work it
      hands to a new Process (the expression's task manager and postfix list). */
  datatype Calculation = Calculation(em: ExpressionManager, reply: Result<Id, Error>,
                                     spawned: Option<(TaskManager, seq<string>)>)

  /** Accepts an expression: parse the user id, convert to postfix, save a
      pending record (storage assigns the id, `saved` is its reply), register
      it, and start processing. Any failure returns before the next step. */
  function Calculate(em: ExpressionManager, userId: Option<Id>, expression: string,
                     saved: Option<Id>): (r: Calculation)
    ensures userId.None? ==> r == Calculation(em, Failure(MalformedId), None)
    ensures userId.Some? && Converter.ToRPN(expression).Failure? ==> r == Calculation(em, Failure(InvalidExpression), None)
    ensures userId.Some? && Converter.ToRPN(expression).Success? && saved.None? ==> r == Calculation(em, Failure(StorageFailure), None)
    ensures r.reply.Success? <==> userId.Some? && Converter.ToRPN(expression).Success? && saved.Some?
    ensures r.reply.Success? ==>
      && r.reply.value == saved.value
      && r.em == CreateExpression(em, Expression(userId.value, saved.value, Pending, None))
      && r.spawned == Some((NewTaskManager(em.durations), Converter.ToRPN(expression).value))
    ensures r.spawned.Some? <==> r.reply.Success?
    ensures r.reply != Failure(InternalServerError)
  {
    match userId
    case None => Calculation(em, Failure(MalformedId), None)
    case Some(user) =>
      match Converter.ToRPN(expression)
      case Failure(e) => Calculation(em, Failure(e), None)
      case Success(rpn) =>
        match saved
        case None => Calculation(em, Failure(StorageFailure), None)
        case Some(id) =>
          var em1 := CreateExpression(em, Expression(user, id, Pending, None));
          match GetTaskManager(em1, id)
          case Failure(_) => Calculation(em1, Failure(InternalServerError), None)
          case Success(tm) => Calculation(em1, Success(id), Some((tm, rpn)))
  }

  /** An accepted expression is found in the registry as pending with no
      result, under the id storage assigned. */
  lemma CalculateRegistersPending(em: ExpressionManager, userId: Option<Id>, expression: string, saved: Option<Id>)
    requires Calculate(em, userId, expression, saved).reply.Success?
    ensures GetExpression(Calculate(em, userId, expression, saved).em, saved.value)
         == Some(Expression(userId.value, saved.value, Pending, None))
    ensures GetTaskManager(Calculate(em, userId, expression, saved).em, saved.value).Success?
  {
  }

  /** Looks up one expression; a malformed id and an unknown id are errors. */
  function ExpressionById(em: ExpressionManager, id: Option<Id>): (r: Result<Expression, Error>)
    ensures id.None? ==> r == Failure(MalformedId)
    ensures id.Some? ==> (r.Success? <==> id.value in em.expressions)
    ensures id.Some? && r.Success? ==> r.value == em.expressions[id.value]
    ensures id.Some? && r.Failure? ==> r.error == ExpressionNotFound
  {
    match id
    case None => Failure(MalformedId)
    case Some(i) =>
      match GetExpression(em, i)
      case None => Failure(ExpressionNotFound)
      case Some(e) => Success(e)
  }

  /** The reply text of a delivered result. */
  const TaskCompleted: string := "task completed"

  /** Delivers an agent's result into the mailbox of the expression it names,
      without checking the task id. A full mailbox would block the handler,
      so callers are required to find it empty. */
  function ResultTask(em: ExpressionManager, exprId: Option<Id>, taskId: int, value: real): (r: (ExpressionManager, Result<string, Error>))
    requires exprId.Some? && exprId.value in em.taskManagers ==> |em.taskManagers[exprId.value].slot| < SlotCapacity
    ensures exprId.None? ==> r == (em, Failure(MalformedId))
    ensures exprId.Some? && exprId.value !in em.taskManagers ==> r == (em, Failure(TaskNotFound))
    ensures exprId.Some? && exprId.value in em.taskManagers ==>
      && r.1 == Success(TaskCompleted)
      && r.0.taskManagers.Keys == em.taskManagers.Keys
      && r.0.taskManagers[exprId.value].slot == [TaskResult(exprId.value, taskId, value)]
      && r.0.taskManagers[exprId.value].counter == em.taskManagers[exprId.value].counter
      && r.0.expressions == em.expressions && r.0.queue == em.queue
      && (forall other :: other in em.taskManagers && other != exprId.value ==> r.0.taskManagers[other] == em.taskManagers[other])
  {
    match exprId
    case None => (em, Failure(MalformedId))
    case Some(id) =>
      match GetTaskManager(em, id)
      case Failure(_) => (em, Failure(TaskNotFound))
      case Success(tm) =>
        var tm1 := AddResult(tm, TaskResult(id, taskId, value));
        (em.(taskManagers := em.taskManagers[id := tm1]), Success(TaskCompleted))
  }

  /** Hands out the oldest queued task without waiting: an empty queue is
      TaskNotFound; a task with id 0 is consumed and reported as an internal
      error; any other task is returned unchanged. */
  function GetTask(em: ExpressionManager): (r: (ExpressionManager, Result<Task, Error>))
    ensures |em.queue| == 0 ==> r == (em, Failure(TaskNotFound))
    ensures |em.queue| > 0 ==> r.0 == em.(queue := em.queue[1..])
    ensures |em.queue| > 0 && em.queue[0].taskId != 0 ==> r.1 == Success(em.queue[0])
    ensures |em.queue| > 0 && em.queue[0].taskId == 0 ==> r.1 == Failure(InternalServerError)
  {
    match TakeTask(em)
    case (em1, None) => (em1, Failure(TaskNotFound))
    case (em1, Some(task)) =>
      if task.taskId != 0 then (em1, Success(task)) else (em1, Failure(InternalServerError))
  }

  /** The one UpdateExpression call Process makes: the new status, and the result if any. */
  datatype Update = Update(status: Status, result: Option<real>)

  /** The storage update a finished or failed run calls for; none while waiting. */
  function Verdict(halt: Halt): (u: Option<Update>)
    ensures u.None? <==> halt.QueueFull? || halt.NoAnswer?
    ensures u.Some? ==> (u.value.status == Done <==> halt.Finished? && |halt.stack| == 1)
    ensures u.Some? && u.value.status == Done ==> u.value.result == Some(halt.stack[0])
    ensures u.Some? && u.value.status != Done ==> u.value == Update(Invalid, None)
  {
    match halt
    case Finished(stack) => if |stack| == 1 then Some(Update(Done, Some(stack[0]))) else Some(Update(Invalid, None))
    case Underflow => Some(Update(Invalid, None))
    case _ => None
  }

  /** The state after Process: the run's state plus the storage update it asked for. */
  datatype Processed = Processed(tm: TaskManager, em: ExpressionManager, created: seq<Task>, update: Option<Update>)

  /** Evaluates the postfix list by dispatching tasks, then asks storage to
      record the outcome (`storageOk` is storage's reply) and only after a
      successful storage update records it in the registry. */
  function Process(tokens: seq<string>, tm: TaskManager, em: ExpressionManager, exprId: Id,
                   worker: Worker, storageOk: bool): (r: Processed)
    requires TaskManagers.Valid(tm) && |em.queue| <= QueueCapacity
    ensures var run := Dispatch(tokens, [], tm, em, exprId, worker);
      && r.tm == run.tm && r.created == run.created && r.em.queue == run.em.queue
      && r.update == Verdict(run.halt)
    ensures r.em.expressions.Keys == em.expressions.Keys
    ensures r.update.None? || !storageOk ==> r.em.expressions == em.expressions
    ensures r.update.Some? && storageOk && exprId in em.expressions ==>
      && r.em.expressions[exprId].status == r.update.value.status
      && r.em.expressions[exprId].result == (if r.update.value.status == Done then r.update.value.result else em.expressions[exprId].result)
    ensures forall other :: other in em.expressions && other != exprId ==> r.em.expressions[other] == em.expressions[other]
  {
    var run := Dispatch(tokens, [], tm, em, exprId, worker);
    var update := Verdict(run.halt);
    var em1 :=
      if update.None? || !storageOk then run.em
      else if update.value.status == Done then ExpressionDone(run.em, exprId, update.value.result.value)
      else ExpressionError(run.em, exprId);
    Processed(run.tm, em1, run.created, update)
  }
}
