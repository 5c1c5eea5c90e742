/** Process of orchestrator/internal/service/utils/processor.go: the same
    dispatch loop, recording the outcome straight into the registry, with no
    storage. */
module Processor {
  import opened Wrappers
  import opened Models
  import opened TaskManagers
  import opened ExpressionManagers
  import opened Dispatcher

  /** Dispatches the postfix list, then marks the expression done with the
      single value left, or invalid after an underflow or with any other
      number of values left. A run still waiting records nothing. */
  function Process(tokens: seq<string>, tm: TaskManager, em: ExpressionManager, exprId: Id,
                   worker: Worker): (r: Run)
    requires TaskManagers.Valid(tm) && |em.queue| <= QueueCapacity
    ensures var run := Dispatch(tokens, [], tm, em, exprId, worker);
      && r.tm == run.tm && r.created == run.created && r.halt == run.halt && r.em.queue == run.em.queue
    ensures r.em.expressions.Keys == em.expressions.Keys
    ensures r.halt.QueueFull? || r.halt.NoAnswer? || exprId !in em.expressions ==> r.em.expressions == em.expressions
    ensures r.halt.Finished? && |r.halt.stack| == 1 && exprId in em.expressions ==>
      r.em.expressions[exprId] == em.expressions[exprId].(status := Done, result := Some(r.halt.stack[0]))
    ensures (r.halt.Underflow? || (r.halt.Finished? && |r.halt.stack| != 1)) && exprId in em.expressions ==>
      r.em.expressions[exprId] == em.expressions[exprId].(status := Invalid)
    ensures forall other :: other in em.expressions && other != exprId ==> r.em.expressions[other] == em.expressions[other]
  {
    var run := Dispatch(tokens, [], tm, em, exprId, worker);
    match run.halt
    case Finished(stack) =>
      if |stack| == 1 then run.(em := ExpressionDone(run.em, exprId, stack[0]))
      else run.(em := ExpressionError(run.em, exprId))
    case Underflow => run.(em := ExpressionError(run.em, exprId))
    case _ => run
  }
}
