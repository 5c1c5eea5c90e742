/** The computing agent of agent/internal/service/service.go: it polls the
    orchestrator for a task, computes it, and reports the value. The
    orchestrator adapter's replies are parameters. */
module Agent {
  import opened Wrappers
  import opened Errors
  import opened Models
  import Postfix

  /** One binary operation; division by zero and an unknown operator are
      errors (the operation time is slept first, which the model leaves out). */
  function DoTask(t: Task): (r: Result<real, Error>)
    ensures t.operation == "/" && t.arg2 == 0.0 ==> r == Failure(DivideByZero)
    ensures t.operation !in {"+", "-", "*", "/"} ==> r == Failure(InvalidExpression)
    ensures r.Failure? ==> r.error in {DivideByZero, InvalidExpression}
  {
    if t.operation == "+" then Success(t.arg1 + t.arg2)
    else if t.operation == "-" then Success(t.arg1 - t.arg2)
    else if t.operation == "*" then Success(t.arg1 * t.arg2)
    else if t.operation == "/" then
      if t.arg2 == 0.0 then Failure(DivideByZero) else Success(t.arg1 / t.arg2)
    else Failure(InvalidExpression)
  }

  /** DoTask computes exact arithmetic: it succeeds exactly where the operation
      has a value, and then with that value. */
  lemma DoTaskIsArithmetic(t: Task)
    ensures DoTask(t).Success? <==> Postfix.Arithmetic(t.operation, t.arg1, t.arg2).Some?
    ensures DoTask(t).Success? ==> DoTask(t).value == Postfix.Arithmetic(t.operation, t.arg1, t.arg2).value
  {
  }

  /** The zero task Go's `models.Task{}` denotes. */
  const ZeroTask: Task := Task(0, 0, 0.0, 0.0, "", 0)

  /** Fetches a task through the adapter: the adapter's error comes with a zero
      task (TaskID 0), and a fetched task is returned unchanged. */
  function GetTask(fetched: Result<Task, Error>): (r: (Task, Outcome<Error>))
    ensures fetched.Success? ==> r == (fetched.value, Pass)
    ensures fetched.Failure? ==> r.0.taskId == 0 && r.1 == Fail(fetched.error)
  {
    match fetched
    case Success(t) => (t, Pass)
    case Failure(e) => (ZeroTask, Fail(e))
  }

  /** Reports a result through the adapter; the adapter's error passes through. */
  function ResultTask(sent: Result<string, Error>): (r: Outcome<Error>)
    ensures r.Pass? <==> sent.Success?
    ensures r.Fail? ==> r.error == sent.error
  {
    match sent
    case Success(_) => Pass
    case Failure(e) => Fail(e)
  }

  /** What one pass of Work's loop does with one fetch. */
  datatype Step =
    | Poll                        // no usable task: wait and fetch again
    | Drop(task: Task)            // computing failed: nothing is reported
    | Report(result: TaskResult)  // send this result to the orchestrator

  /** One iteration of Work: a fetch error or a task with id 0 sends it back to
      polling; a task it cannot compute is dropped; otherwise it reports the
      value under the task's expression and task ids. */
  function WorkStep(fetched: Result<Task, Error>): (r: Step)
    ensures r.Report? ==> fetched.Success? && fetched.value.taskId != 0 && DoTask(fetched.value).Success?
    ensures r.Report? ==> r.result == TaskResult(fetched.value.exprId, fetched.value.taskId, DoTask(fetched.value).value)
    ensures r.Poll? <==> fetched.Failure? || fetched.value.taskId == 0
    ensures r.Drop? <==> fetched.Success? && fetched.value.taskId != 0 && DoTask(fetched.value).Failure?
  {
    var (task, err) := GetTask(fetched);
    if err.Fail? || task.taskId == 0 then Poll
    else match DoTask(task)
      case Failure(_) => Drop(task)
      case Success(v) => Report(TaskResult(task.exprId, task.taskId, v))
  }

  /** The answer an agent gives to a task it received: its report, or nothing. */
  function Answer(t: Task): (r: Option<TaskResult>)
    ensures r.Some? <==> t.taskId != 0 && Postfix.Arithmetic(t.operation, t.arg1, t.arg2).Some?
    ensures r.Some? ==> r.value == TaskResult(t.exprId, t.taskId, Postfix.Arithmetic(t.operation, t.arg1, t.arg2).value)
  {
    DoTaskIsArithmetic(t);
    match WorkStep(Success(t))
    case Report(res) => Some(res)
    case _ => None
  }

  /** A division by zero reaches the orchestrator as silence, never as a value. */
  lemma DivisionByZeroIsDropped(t: Task)
    requires t.taskId != 0 && t.operation == "/" && t.arg2 == 0.0
    ensures WorkStep(Success(t)) == Drop(t)
    ensures Answer(t) == None
  {
  }
}
