/** The runs of internal/orchestrator/worker_test.go, with the legacy agent
    answering every task. */
module LegacyWorkerExamples {
  import opened Wrappers
  import opened Numbers
  import opened LegacyTasks
  import LegacyExpressions
  import LegacyAgent
  import LegacyConfig
  import Models
  import Postfix
  import LegacyWorker
  import Dispatcher

  /** `3 4 2 * 1 5 - / +` is 3 + 4 * 2 / (1 - 5) = 1. */
  lemma WorkedExampleValue()
    ensures Postfix.EvalPostfix(["3", "4", "2", "*", "1", "5", "-", "/", "+"], LegacyAgent.Semantics) == Success(1.0)
  {
    WorkedExampleFrom0();
  }

  /** A number token is pushed. */
  lemma EvalPush(t: seq<string>, stack: seq<real>, x: real)
    requires t != [] && ParseFloat(t[0]) == Some(x)
    ensures Postfix.Eval(t, stack, LegacyAgent.Semantics) == Postfix.Eval(t[1..], stack + [x], LegacyAgent.Semantics)
  {
  }

  /** An operator token replaces the top two values with its value. */
  lemma EvalApply(t: seq<string>, stack: seq<real>)
    requires t != [] && ParseFloat(t[0]) == None && |stack| >= 2
    ensures Postfix.Eval(t, stack, LegacyAgent.Semantics)
         == Postfix.Eval(t[1..], stack[..|stack| - 2] + [LegacyAgent.Compute(t[0], stack[|stack| - 2], stack[|stack| - 1])], LegacyAgent.Semantics)
  {
  }

  lemma WorkedExampleFrom0()
    ensures Postfix.Eval(["3", "4", "2", "*", "1", "5", "-", "/", "+"], [], LegacyAgent.Semantics) == Success([1.0])
  {
    ParseDigit('3');
    EvalPush(["3", "4", "2", "*", "1", "5", "-", "/", "+"], [], 3.0);
    assert [] + [3.0] == [3.0];
    assert ["3", "4", "2", "*", "1", "5", "-", "/", "+"][1..] == ["4", "2", "*", "1", "5", "-", "/", "+"];
    WorkedExampleFrom1();
  }

  lemma WorkedExampleFrom1()
    ensures Postfix.Eval(["4", "2", "*", "1", "5", "-", "/", "+"], [3.0], LegacyAgent.Semantics) == Success([1.0])
  {
    ParseDigit('4');
    EvalPush(["4", "2", "*", "1", "5", "-", "/", "+"], [3.0], 4.0);
    assert [3.0] + [4.0] == [3.0, 4.0];
    assert ["4", "2", "*", "1", "5", "-", "/", "+"][1..] == ["2", "*", "1", "5", "-", "/", "+"];
    WorkedExampleFrom2();
  }

  lemma WorkedExampleFrom2()
    ensures Postfix.Eval(["2", "*", "1", "5", "-", "/", "+"], [3.0, 4.0], LegacyAgent.Semantics) == Success([1.0])
  {
    ParseDigit('2');
    EvalPush(["2", "*", "1", "5", "-", "/", "+"], [3.0, 4.0], 2.0);
    assert [3.0, 4.0] + [2.0] == [3.0, 4.0, 2.0];
    assert ["2", "*", "1", "5", "-", "/", "+"][1..] == ["*", "1", "5", "-", "/", "+"];
    WorkedExampleFrom3();
  }

  lemma WorkedExampleFrom3()
    ensures Postfix.Eval(["*", "1", "5", "-", "/", "+"], [3.0, 4.0, 2.0], LegacyAgent.Semantics) == Success([1.0])
  {
    OperatorIsNotNumber('*');
    EvalApply(["*", "1", "5", "-", "/", "+"], [3.0, 4.0, 2.0]);
    assert [3.0, 4.0, 2.0][..1] + [LegacyAgent.Compute("*", 4.0, 2.0)] == [3.0, 8.0];
    assert ["*", "1", "5", "-", "/", "+"][1..] == ["1", "5", "-", "/", "+"];
    WorkedExampleFrom4();
  }

  lemma WorkedExampleFrom4()
    ensures Postfix.Eval(["1", "5", "-", "/", "+"], [3.0, 8.0], LegacyAgent.Semantics) == Success([1.0])
  {
    ParseDigit('1');
    EvalPush(["1", "5", "-", "/", "+"], [3.0, 8.0], 1.0);
    assert [3.0, 8.0] + [1.0] == [3.0, 8.0, 1.0];
    assert ["1", "5", "-", "/", "+"][1..] == ["5", "-", "/", "+"];
    WorkedExampleFrom5();
  }

  lemma WorkedExampleFrom5()
    ensures Postfix.Eval(["5", "-", "/", "+"], [3.0, 8.0, 1.0], LegacyAgent.Semantics) == Success([1.0])
  {
    ParseDigit('5');
    EvalPush(["5", "-", "/", "+"], [3.0, 8.0, 1.0], 5.0);
    assert [3.0, 8.0, 1.0] + [5.0] == [3.0, 8.0, 1.0, 5.0];
    assert ["5", "-", "/", "+"][1..] == ["-", "/", "+"];
    WorkedExampleFrom6();
  }

  lemma WorkedExampleFrom6()
    ensures Postfix.Eval(["-", "/", "+"], [3.0, 8.0, 1.0, 5.0], LegacyAgent.Semantics) == Success([1.0])
  {
    OperatorIsNotNumber('-');
    EvalApply(["-", "/", "+"], [3.0, 8.0, 1.0, 5.0]);
    assert [3.0, 8.0, 1.0, 5.0][..2] + [LegacyAgent.Compute("-", 1.0, 5.0)] == [3.0, 8.0, -4.0];
    assert ["-", "/", "+"][1..] == ["/", "+"];
    WorkedExampleFrom7();
  }

  lemma WorkedExampleFrom7()
    ensures Postfix.Eval(["/", "+"], [3.0, 8.0, -4.0], LegacyAgent.Semantics) == Success([1.0])
  {
    OperatorIsNotNumber('/');
    EvalApply(["/", "+"], [3.0, 8.0, -4.0]);
    assert [3.0, 8.0, -4.0][..1] + [LegacyAgent.Compute("/", 8.0, -4.0)] == [3.0, -2.0];
    assert ["/", "+"][1..] == ["+"];
    WorkedExampleFrom8();
  }

  lemma WorkedExampleFrom8()
    ensures Postfix.Eval(["+"], [3.0, -2.0], LegacyAgent.Semantics) == Success([1.0])
  {
    OperatorIsNotNumber('+');
    EvalApply(["+"], [3.0, -2.0]);
    assert [3.0, -2.0][..0] + [LegacyAgent.Compute("+", 3.0, -2.0)] == [1.0];
    assert ["+"][1..] == [];
  }

  /** The run ends done with 1 on a new task manager. */
  lemma ProcessWorkedExample(config: LegacyConfig.Config)
    ensures var (em, id) := LegacyExpressions.CreateExpression(LegacyExpressions.NewExpressionManager());
      var p := LegacyWorker.Process(["3", "4", "2", "*", "1", "5", "-", "/", "+"], NewTaskManager(config), em, id, LegacyWorker.Answer);
      LegacyExpressions.GetExpression(p.em, id) == Some(LegacyExpressions.Expression(id, Models.Done, 1.0))
  {
    var ts := ["3", "4", "2", "*", "1", "5", "-", "/", "+"];
    OperatorsOfWorkedExample();
    WorkedExampleValue();
    var (em, id) := LegacyExpressions.CreateExpression(LegacyExpressions.NewExpressionManager());
    LegacyWorker.HonestProcessAgrees(ts, NewTaskManager(config), em, id);
  }

  lemma OperatorsOfWorkedExample()
    ensures Postfix.OperatorCount(["3", "4", "2", "*", "1", "5", "-", "/", "+"]) == 4
  {
    ParseDigit('3'); ParseDigit('4'); ParseDigit('2'); ParseDigit('1'); ParseDigit('5');
    OperatorIsNotNumber('*'); OperatorIsNotNumber('-'); OperatorIsNotNumber('/'); OperatorIsNotNumber('+');
    var ts := ["3", "4", "2", "*", "1", "5", "-", "/", "+"];
    assert Postfix.OperatorCount(["+"]) == 1;
    assert Postfix.OperatorCount(["/", "+"]) == 2;
    assert Postfix.OperatorCount(["-", "/", "+"]) == 3;
    assert Postfix.OperatorCount(["5", "-", "/", "+"]) == 3;
    assert Postfix.OperatorCount(["1", "5", "-", "/", "+"]) == 3;
    assert Postfix.OperatorCount(["*", "1", "5", "-", "/", "+"]) == 4;
    assert Postfix.OperatorCount(["2", "*", "1", "5", "-", "/", "+"]) == 4;
    assert Postfix.OperatorCount(["4", "2", "*", "1", "5", "-", "/", "+"]) == 4;
  }

  /** An empty list ends invalid, with result 0. */
  lemma ProcessEmpty(config: LegacyConfig.Config)
    ensures var (em, id) := LegacyExpressions.CreateExpression(LegacyExpressions.NewExpressionManager());
      var p := LegacyWorker.Process([], NewTaskManager(config), em, id, LegacyWorker.Answer);
      LegacyExpressions.GetExpression(p.em, id) == Some(LegacyExpressions.Expression(id, Models.Invalid, 0.0))
  {
  }

  /** A worker that answers task 1 with 100 and every other task with 200. */
  function Hundreds(t: Task): Option<TaskResult> {
    Some(TaskResult(t.id, if t.id == 1 then 100.0 else 200.0))
  }

  /** A result left waiting from another expression is taken by the first
      task of the next run, and each answer then serves the task after it:
      `+ +` over 1 2 3 ends with task 1's answer, 100, and task 2's answer
      is left waiting. */
  lemma StaleResultShiftsAnswers(config: LegacyConfig.Config)
    ensures var tm := NewTaskManager(config).(resultQueue := [TaskResult(0, 7.0)]);
      var r := LegacyWorker.Dispatch(["+", "+"], [1.0, 2.0, 3.0], tm, Hundreds);
      r.halt == Dispatcher.Finished([100.0]) && r.tm.resultQueue == [TaskResult(2, 200.0)]
  {
  }
}
