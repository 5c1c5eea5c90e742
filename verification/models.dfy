/** The records the orchestrator and the agent exchange
    (orchestrator/internal/models and agent/internal/models). */
module Models {
  import opened Wrappers

  /** A UUID (or, in the older variants, a counter id), kept abstract. */
  type Id = nat

  /** The lifecycle of an expression. Go keeps these as strings; StatusText
      gives the exact spelling. */
  datatype Status = Pending | Done | Invalid

  function StatusText(s: Status): (t: string)
    ensures |t| > 0
  {
    match s
    case Pending => "pending"
    case Done => "done"
    case Invalid => "invalid expression"
  }

  lemma StatusTextInjective(a: Status, b: Status)
    ensures StatusText(a) == StatusText(b) <==> a == b
  {
    if a != b {
      assert StatusText(a)[0] != StatusText(b)[0] || |StatusText(a)| != |StatusText(b)|;
    }
  }

  /** One expression; `result` is Go's `*float64`, nil until the expression is done. */
  datatype Expression = Expression(userId: Id, exprId: Id, status: Status, result: Option<real>)

  /** One binary operation handed to an agent; `operationTime` is in milliseconds. */
  datatype Task = Task(exprId: Id, taskId: int, arg1: real, arg2: real, operation: string, operationTime: int)

  /** An agent's answer to a task. */
  datatype TaskResult = TaskResult(exprId: Id, taskId: int, value: real)
}
