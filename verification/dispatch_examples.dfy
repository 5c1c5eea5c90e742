/** The tested runs of orchestrator/internal/service/utils/processor_test.go,
    with agents answering by DoTask. */
module DispatchExamples {
  import opened Wrappers
  import opened Models
  import opened Numbers
  import opened TaskManagers
  import opened ExpressionManagers
  import opened Dispatcher
  import Agent
  import Processor
  import DispatchProofs

  /** "3 4 +" issues the one task (3, 4, "+") with id 1 and ends done with 7. */
  lemma ProcessorAddsThreeAndFour(tm: TaskManager, em: ExpressionManager, exprId: Id)
    requires tm.slot == [] && tm.counter == 0 && |em.queue| < QueueCapacity && exprId in em.expressions
    ensures var p := Processor.Process(["3", "4", "+"], tm, em, exprId, DispatchProofs.Agents);
      && p.created == [Task(exprId, 1, 3.0, 4.0, "+", Duration(tm.durations, "+"))]
      && p.em.expressions[exprId] == em.expressions[exprId].(status := Done, result := Some(7.0))
  {
    ParseDigit('3');
    ParseDigit('4');
    OperatorIsNotNumber('+');
    var t := ["3", "4", "+"];
    assert t[1..] == ["4", "+"] && t[1..][1..] == ["+"] && t[1..][1..][1..] == [];
    assert Dispatch(["+"], [3.0, 4.0], tm, em, exprId, DispatchProofs.Agents).created
        == [Task(exprId, 1, 3.0, 4.0, "+", Duration(tm.durations, "+"))];
  }

  /** "3 *" issues no task and ends invalid. */
  lemma ProcessorRejectsLoneOperand(tm: TaskManager, em: ExpressionManager, exprId: Id)
    requires tm.slot == [] && |em.queue| <= QueueCapacity && exprId in em.expressions
    ensures var p := Processor.Process(["3", "*"], tm, em, exprId, DispatchProofs.Agents);
      && p.created == []
      && p.em.expressions[exprId] == em.expressions[exprId].(status := Invalid)
  {
    ParseDigit('3');
    OperatorIsNotNumber('*');
    var t := ["3", "*"];
    assert t[1..] == ["*"];
  }
}
