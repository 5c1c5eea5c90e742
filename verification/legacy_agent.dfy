/** The earlier agent's DoTask of agent/worker.go: the same four operations,
    but it never fails. Division by zero and an unknown operator both give 0.
    The sleep before computing is left out. */
module LegacyAgent {
  import opened Wrappers
  import opened Models
  import Postfix
  import Agent

  /** One operation: exact arithmetic where it has a value, 0 elsewhere. */
  function Compute(op: string, a: real, b: real): (r: real)
    ensures Postfix.Arithmetic(op, a, b).Some? ==> r == Postfix.Arithmetic(op, a, b).value
    ensures Postfix.Arithmetic(op, a, b).None? ==> r == 0.0
  {
    if op == "+" then a + b
    else if op == "-" then a - b
    else if op == "*" then a * b
    else if op == "/" then (if b == 0.0 then 0.0 else a / b)
    else 0.0
  }

  function DoTask(t: Task): real {
    Compute(t.operation, t.arg1, t.arg2)
  }

  /** The legacy DoTask returns the current DoTask's value where that one
      succeeds, and 0 exactly where that one fails. */
  lemma DoTaskAgreesWithCurrent(t: Task)
    ensures Agent.DoTask(t).Success? ==> DoTask(t) == Agent.DoTask(t).value
    ensures Agent.DoTask(t).Failure? ==> DoTask(t) == 0.0
    ensures t.operation == "/" && t.arg2 == 0.0 ==> DoTask(t) == 0.0
  {
    Agent.DoTaskIsArithmetic(t);
  }

  /** The legacy operator meaning as evaluator semantics: always a value. */
  function Semantics(op: string, a: real, b: real): Option<real> {
    Some(Compute(op, a, b))
  }
}
