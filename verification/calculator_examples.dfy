/** The verdicts internal/api/api_test.go expects of Calculate, and
    evaluations that show where its loop departs from arithmetic precedence.
    Each evaluation is spelled out one token at a time in small steps. */
module CalculatorExamples {
  import opened Wrappers
  import Calculator
  import Elements
  import Infix
  import Numbers

  /** "1+1" is 2. */
  lemma AddsOnePlusOne()
    ensures Calculator.Calculate("1+1") == Success(2.0)
  {
    AddsOnePlusOneTokens4();
    AddsOnePlusOneEvaluate13();
  }

  /** "1/2" is 0.5. */
  lemma HalvesOne()
    ensures Calculator.Calculate("1/2") == Success(0.5)
  {
    HalvesOneTokens4();
    HalvesOneEvaluate13();
  }

  /** "2+2*2" is 6. */
  lemma MultipliesBeforeAdding()
    ensures Calculator.Calculate("2+2*2") == Success(6.0)
  {
    MultipliesBeforeAddingTokens6();
    MultipliesBeforeAddingEvaluate20();
  }

  /** "(2+2)*2" is 8. */
  lemma ParenthesesFirst()
    ensures Calculator.Calculate("(2+2)*2") == Success(8.0)
  {
    ParenthesesFirstTokens8();
    ParenthesesFirstEvaluate27();
  }

  /** "1+1*" is rejected: the last action finds one operand. */
  lemma RejectsTrailingOperator()
    ensures Calculator.Calculate("1+1*") == Failure(Calculator.InvalidExpression)
  {
    RejectsTrailingOperatorTokens5();
    RejectsTrailingOperatorEvaluate17();
  }

  /** "2+2**2" is rejected. */
  lemma RejectsDoubledOperator()
    ensures Calculator.Calculate("2+2**2") == Failure(Calculator.InvalidExpression)
  {
    RejectsDoubledOperatorTokens7();
    RejectsDoubledOperatorEvaluate21();
  }

  /** "((2+2-*(2" is rejected. */
  lemma RejectsMismatchedParentheses()
    ensures Calculator.Calculate("((2+2-*(2") == Failure(Calculator.InvalidExpression)
  {
    RejectsMismatchedParenthesesTokens10();
    RejectsMismatchedParenthesesEvaluate26();
  }

  /** The empty text is rejected: no number is left. */
  lemma RejectsEmpty()
    ensures Calculator.Calculate("") == Failure(Calculator.InvalidExpression)
  {
    RejectsEmptyTokens1();
    RejectsEmptyEvaluate3();
  }

  /** "1/0" is ErrDivisionByZero. */
  lemma RejectsZeroDivisor()
    ensures Calculator.Calculate("1/0") == Failure(Calculator.DivisionByZero)
  {
    RejectsZeroDivisorTokens4();
    RejectsZeroDivisorEvaluate13();
  }

  /** "1+2*3*4" is 28, not 25: the second "*" applies the pending "+" as well. */
  lemma AppliesEveryPendingAction()
    ensures Calculator.Calculate("1+2*3*4") == Success(28.0)
  {
    AppliesEveryPendingActionTokens8();
    AppliesEveryPendingActionEvaluate28();
  }

  /** "3+4*2/(1-5)" is -2.75, where the orchestrator's conversion and evaluation give 1. */
  lemma DepartsFromPostfixPipeline()
    ensures Calculator.Calculate("3+4*2/(1-5)") == Success(-2.75)
  {
    DepartsFromPostfixPipelineTokens12();
    DepartsFromPostfixPipelineEvaluate42();
  }

  /** "1+2)" indexes an empty action stack. */
  lemma UnopenedParenthesisPanics()
    ensures Calculator.Calculate("1+2)") == Failure(Calculator.Panic)
  {
    UnopenedParenthesisPanicsTokens5();
    UnopenedParenthesisPanicsEvaluate16();
  }

  // The steps.

  lemma AddsOnePlusOneLex1()
    ensures Elements.Lex("1+1", true, [], "") == Elements.Lex("+1", true, [], "1")
  {
    assert "1+1"[0] == '1' && "1+1"[1..] == "+1";
    assert "" + ['1'] == "1";
  }

  lemma AddsOnePlusOneLex2()
    ensures Elements.Lex("+1", true, [], "1") == Elements.Lex("1", true, ["1", "+"], "")
  {
    assert "+1"[0] == '+' && "+1"[1..] == "1";
    assert Elements.Flush([], "1") + ["+"] == ["1", "+"];
  }

  lemma AddsOnePlusOneLex3()
    ensures Elements.Lex("1", true, ["1", "+"], "") == Elements.Lex("", true, ["1", "+"], "1")
  {
    assert "1"[0] == '1' && "1"[1..] == "";
    assert "" + ['1'] == "1";
  }

  lemma AddsOnePlusOneTokens4()
    ensures Calculator.ConvElem("1+1") == Success(["1", "+", "1"])
  {
    AddsOnePlusOneLex1();
    AddsOnePlusOneLex2();
    AddsOnePlusOneLex3();
    assert Elements.Flush(["1", "+"], "1") == ["1", "+", "1"];
    assert Elements.ConvElem("1+1", true) == Some(["1", "+", "1"]);
  }

  lemma AddsOnePlusOneStep5()
    ensures Infix.Step(Infix.Stacks([], []), "1") == Success(Infix.Stacks([1.0], []))
  {
    Numbers.ParseDigit('1');
    Infix.StepPushesNumber(Infix.Stacks([], []), "1");
    assert [] + [1.0] == [1.0];
  }

  lemma AddsOnePlusOneScan6()
    ensures Infix.Scan(["1", "+", "1"], Infix.Stacks([], [])) == Infix.Scan(["+", "1"], Infix.Stacks([1.0], []))
  {
    assert ["1", "+", "1"][0] == "1" && ["1", "+", "1"][1..] == ["+", "1"];
    AddsOnePlusOneStep5();
  }

  lemma AddsOnePlusOneStep7()
    ensures Infix.Step(Infix.Stacks([1.0], []), "+") == Success(Infix.Stacks([1.0], ["+"]))
  {
    Infix.StepPushesOperator(Infix.Stacks([1.0], []), "+");
    assert [] + ["+"] == ["+"];
  }

  lemma AddsOnePlusOneScan8()
    ensures Infix.Scan(["+", "1"], Infix.Stacks([1.0], [])) == Infix.Scan(["1"], Infix.Stacks([1.0], ["+"]))
  {
    assert ["+", "1"][0] == "+" && ["+", "1"][1..] == ["1"];
    AddsOnePlusOneStep7();
  }

  lemma AddsOnePlusOneStep9()
    ensures Infix.Step(Infix.Stacks([1.0], ["+"]), "1") == Success(Infix.Stacks([1.0, 1.0], ["+"]))
  {
    Numbers.ParseDigit('1');
    Infix.StepPushesNumber(Infix.Stacks([1.0], ["+"]), "1");
    assert [1.0] + [1.0] == [1.0, 1.0];
  }

  lemma AddsOnePlusOneScan10()
    ensures Infix.Scan(["1"], Infix.Stacks([1.0], ["+"])) == Infix.Scan([], Infix.Stacks([1.0, 1.0], ["+"]))
  {
    assert ["1"][0] == "1" && ["1"][1..] == [];
    AddsOnePlusOneStep9();
  }

  lemma AddsOnePlusOneApply11()
    ensures Infix.Apply(Infix.Stacks([1.0, 1.0], ["+"])) == Success(Infix.Stacks([2.0], []))
  {
    assert ["+"][0] == "+";
    assert [1.0, 1.0][..0] == [];
    assert ["+"][..0] == [];
    assert [] + [2.0] == [2.0];
  }

  lemma AddsOnePlusOneDrain12()
    ensures Infix.Drain(Infix.Stacks([1.0, 1.0], ["+"])) == Success(Infix.Stacks([2.0], []))
  {
    assert ["+"][0] == "+";
    AddsOnePlusOneApply11();
  }

  lemma AddsOnePlusOneEvaluate13()
    ensures Infix.Evaluate(["1", "+", "1"]) == Success(2.0)
  {
    AddsOnePlusOneScan6();
    AddsOnePlusOneScan8();
    AddsOnePlusOneScan10();
    AddsOnePlusOneDrain12();
  }

  lemma HalvesOneLex1()
    ensures Elements.Lex("1/2", true, [], "") == Elements.Lex("/2", true, [], "1")
  {
    assert "1/2"[0] == '1' && "1/2"[1..] == "/2";
    assert "" + ['1'] == "1";
  }

  lemma HalvesOneLex2()
    ensures Elements.Lex("/2", true, [], "1") == Elements.Lex("2", true, ["1", "/"], "")
  {
    assert "/2"[0] == '/' && "/2"[1..] == "2";
    assert Elements.Flush([], "1") + ["/"] == ["1", "/"];
  }

  lemma HalvesOneLex3()
    ensures Elements.Lex("2", true, ["1", "/"], "") == Elements.Lex("", true, ["1", "/"], "2")
  {
    assert "2"[0] == '2' && "2"[1..] == "";
    assert "" + ['2'] == "2";
  }

  lemma HalvesOneTokens4()
    ensures Calculator.ConvElem("1/2") == Success(["1", "/", "2"])
  {
    HalvesOneLex1();
    HalvesOneLex2();
    HalvesOneLex3();
    assert Elements.Flush(["1", "/"], "2") == ["1", "/", "2"];
    assert Elements.ConvElem("1/2", true) == Some(["1", "/", "2"]);
  }

  lemma HalvesOneStep5()
    ensures Infix.Step(Infix.Stacks([], []), "1") == Success(Infix.Stacks([1.0], []))
  {
    Numbers.ParseDigit('1');
    Infix.StepPushesNumber(Infix.Stacks([], []), "1");
    assert [] + [1.0] == [1.0];
  }

  lemma HalvesOneScan6()
    ensures Infix.Scan(["1", "/", "2"], Infix.Stacks([], [])) == Infix.Scan(["/", "2"], Infix.Stacks([1.0], []))
  {
    assert ["1", "/", "2"][0] == "1" && ["1", "/", "2"][1..] == ["/", "2"];
    HalvesOneStep5();
  }

  lemma HalvesOneStep7()
    ensures Infix.Step(Infix.Stacks([1.0], []), "/") == Success(Infix.Stacks([1.0], ["/"]))
  {
    Infix.StepPushesOperator(Infix.Stacks([1.0], []), "/");
    assert [] + ["/"] == ["/"];
  }

  lemma HalvesOneScan8()
    ensures Infix.Scan(["/", "2"], Infix.Stacks([1.0], [])) == Infix.Scan(["2"], Infix.Stacks([1.0], ["/"]))
  {
    assert ["/", "2"][0] == "/" && ["/", "2"][1..] == ["2"];
    HalvesOneStep7();
  }

  lemma HalvesOneStep9()
    ensures Infix.Step(Infix.Stacks([1.0], ["/"]), "2") == Success(Infix.Stacks([1.0, 2.0], ["/"]))
  {
    Numbers.ParseDigit('2');
    Infix.StepPushesNumber(Infix.Stacks([1.0], ["/"]), "2");
    assert [1.0] + [2.0] == [1.0, 2.0];
  }

  lemma HalvesOneScan10()
    ensures Infix.Scan(["2"], Infix.Stacks([1.0], ["/"])) == Infix.Scan([], Infix.Stacks([1.0, 2.0], ["/"]))
  {
    assert ["2"][0] == "2" && ["2"][1..] == [];
    HalvesOneStep9();
  }

  lemma HalvesOneApply11()
    ensures Infix.Apply(Infix.Stacks([1.0, 2.0], ["/"])) == Success(Infix.Stacks([0.5], []))
  {
    assert ["/"][0] == "/";
    assert [1.0, 2.0][..0] == [];
    assert ["/"][..0] == [];
    assert [] + [0.5] == [0.5];
  }

  lemma HalvesOneDrain12()
    ensures Infix.Drain(Infix.Stacks([1.0, 2.0], ["/"])) == Success(Infix.Stacks([0.5], []))
  {
    assert ["/"][0] == "/";
    HalvesOneApply11();
  }

  lemma HalvesOneEvaluate13()
    ensures Infix.Evaluate(["1", "/", "2"]) == Success(0.5)
  {
    HalvesOneScan6();
    HalvesOneScan8();
    HalvesOneScan10();
    HalvesOneDrain12();
  }

  lemma MultipliesBeforeAddingLex1()
    ensures Elements.Lex("2+2*2", true, [], "") == Elements.Lex("+2*2", true, [], "2")
  {
    assert "2+2*2"[0] == '2' && "2+2*2"[1..] == "+2*2";
    assert "" + ['2'] == "2";
  }

  lemma MultipliesBeforeAddingLex2()
    ensures Elements.Lex("+2*2", true, [], "2") == Elements.Lex("2*2", true, ["2", "+"], "")
  {
    assert "+2*2"[0] == '+' && "+2*2"[1..] == "2*2";
    assert Elements.Flush([], "2") + ["+"] == ["2", "+"];
  }

  lemma MultipliesBeforeAddingLex3()
    ensures Elements.Lex("2*2", true, ["2", "+"], "") == Elements.Lex("*2", true, ["2", "+"], "2")
  {
    assert "2*2"[0] == '2' && "2*2"[1..] == "*2";
    assert "" + ['2'] == "2";
  }

  lemma MultipliesBeforeAddingLex4()
    ensures Elements.Lex("*2", true, ["2", "+"], "2") == Elements.Lex("2", true, ["2", "+", "2", "*"], "")
  {
    assert "*2"[0] == '*' && "*2"[1..] == "2";
    assert Elements.Flush(["2", "+"], "2") + ["*"] == ["2", "+", "2", "*"];
  }

  lemma MultipliesBeforeAddingLex5()
    ensures Elements.Lex("2", true, ["2", "+", "2", "*"], "") == Elements.Lex("", true, ["2", "+", "2", "*"], "2")
  {
    assert "2"[0] == '2' && "2"[1..] == "";
    assert "" + ['2'] == "2";
  }

  lemma MultipliesBeforeAddingTokens6()
    ensures Calculator.ConvElem("2+2*2") == Success(["2", "+", "2", "*", "2"])
  {
    MultipliesBeforeAddingLex1();
    MultipliesBeforeAddingLex2();
    MultipliesBeforeAddingLex3();
    MultipliesBeforeAddingLex4();
    MultipliesBeforeAddingLex5();
    assert Elements.Flush(["2", "+", "2", "*"], "2") == ["2", "+", "2", "*", "2"];
    assert Elements.ConvElem("2+2*2", true) == Some(["2", "+", "2", "*", "2"]);
  }

  lemma MultipliesBeforeAddingStep7()
    ensures Infix.Step(Infix.Stacks([], []), "2") == Success(Infix.Stacks([2.0], []))
  {
    Numbers.ParseDigit('2');
    Infix.StepPushesNumber(Infix.Stacks([], []), "2");
    assert [] + [2.0] == [2.0];
  }

  lemma MultipliesBeforeAddingScan8()
    ensures Infix.Scan(["2", "+", "2", "*", "2"], Infix.Stacks([], [])) == Infix.Scan(["+", "2", "*", "2"], Infix.Stacks([2.0], []))
  {
    assert ["2", "+", "2", "*", "2"][0] == "2" && ["2", "+", "2", "*", "2"][1..] == ["+", "2", "*", "2"];
    MultipliesBeforeAddingStep7();
  }

  lemma MultipliesBeforeAddingStep9()
    ensures Infix.Step(Infix.Stacks([2.0], []), "+") == Success(Infix.Stacks([2.0], ["+"]))
  {
    Infix.StepPushesOperator(Infix.Stacks([2.0], []), "+");
    assert [] + ["+"] == ["+"];
  }

  lemma MultipliesBeforeAddingScan10()
    ensures Infix.Scan(["+", "2", "*", "2"], Infix.Stacks([2.0], [])) == Infix.Scan(["2", "*", "2"], Infix.Stacks([2.0], ["+"]))
  {
    assert ["+", "2", "*", "2"][0] == "+" && ["+", "2", "*", "2"][1..] == ["2", "*", "2"];
    MultipliesBeforeAddingStep9();
  }

  lemma MultipliesBeforeAddingStep11()
    ensures Infix.Step(Infix.Stacks([2.0], ["+"]), "2") == Success(Infix.Stacks([2.0, 2.0], ["+"]))
  {
    Numbers.ParseDigit('2');
    Infix.StepPushesNumber(Infix.Stacks([2.0], ["+"]), "2");
    assert [2.0] + [2.0] == [2.0, 2.0];
  }

  lemma MultipliesBeforeAddingScan12()
    ensures Infix.Scan(["2", "*", "2"], Infix.Stacks([2.0], ["+"])) == Infix.Scan(["*", "2"], Infix.Stacks([2.0, 2.0], ["+"]))
  {
    assert ["2", "*", "2"][0] == "2" && ["2", "*", "2"][1..] == ["*", "2"];
    MultipliesBeforeAddingStep11();
  }

  lemma MultipliesBeforeAddingStep13()
    ensures Infix.Step(Infix.Stacks([2.0, 2.0], ["+"]), "*") == Success(Infix.Stacks([2.0, 2.0], ["+", "*"]))
  {
    assert ["+"][0] == "+";
    Infix.StepPushesOperator(Infix.Stacks([2.0, 2.0], ["+"]), "*");
    assert ["+"] + ["*"] == ["+", "*"];
  }

  lemma MultipliesBeforeAddingScan14()
    ensures Infix.Scan(["*", "2"], Infix.Stacks([2.0, 2.0], ["+"])) == Infix.Scan(["2"], Infix.Stacks([2.0, 2.0], ["+", "*"]))
  {
    assert ["*", "2"][0] == "*" && ["*", "2"][1..] == ["2"];
    MultipliesBeforeAddingStep13();
  }

  lemma MultipliesBeforeAddingStep15()
    ensures Infix.Step(Infix.Stacks([2.0, 2.0], ["+", "*"]), "2") == Success(Infix.Stacks([2.0, 2.0, 2.0], ["+", "*"]))
  {
    Numbers.ParseDigit('2');
    Infix.StepPushesNumber(Infix.Stacks([2.0, 2.0], ["+", "*"]), "2");
    assert [2.0, 2.0] + [2.0] == [2.0, 2.0, 2.0];
  }

  lemma MultipliesBeforeAddingScan16()
    ensures Infix.Scan(["2"], Infix.Stacks([2.0, 2.0], ["+", "*"])) == Infix.Scan([], Infix.Stacks([2.0, 2.0, 2.0], ["+", "*"]))
  {
    assert ["2"][0] == "2" && ["2"][1..] == [];
    MultipliesBeforeAddingStep15();
  }

  lemma MultipliesBeforeAddingApply17()
    ensures Infix.Apply(Infix.Stacks([2.0, 2.0, 2.0], ["+", "*"])) == Success(Infix.Stacks([2.0, 4.0], ["+"]))
  {
    assert ["+", "*"][1] == "*";
    assert [2.0, 2.0, 2.0][..1] == [2.0];
    assert ["+", "*"][..1] == ["+"];
    assert [2.0] + [4.0] == [2.0, 4.0];
  }

  lemma MultipliesBeforeAddingApply18()
    ensures Infix.Apply(Infix.Stacks([2.0, 4.0], ["+"])) == Success(Infix.Stacks([6.0], []))
  {
    assert ["+"][0] == "+";
    assert [2.0, 4.0][..0] == [];
    assert ["+"][..0] == [];
    assert [] + [6.0] == [6.0];
  }

  lemma MultipliesBeforeAddingDrain19()
    ensures Infix.Drain(Infix.Stacks([2.0, 2.0, 2.0], ["+", "*"])) == Success(Infix.Stacks([6.0], []))
  {
    assert ["+"][0] == "+";
    assert ["+", "*"][1] == "*";
    MultipliesBeforeAddingApply17();
    MultipliesBeforeAddingApply18();
  }

  lemma MultipliesBeforeAddingEvaluate20()
    ensures Infix.Evaluate(["2", "+", "2", "*", "2"]) == Success(6.0)
  {
    MultipliesBeforeAddingScan8();
    MultipliesBeforeAddingScan10();
    MultipliesBeforeAddingScan12();
    MultipliesBeforeAddingScan14();
    MultipliesBeforeAddingScan16();
    MultipliesBeforeAddingDrain19();
  }

  lemma ParenthesesFirstLex1()
    ensures Elements.Lex("(2+2)*2", true, [], "") == Elements.Lex("2+2)*2", true, ["("], "")
  {
    assert "(2+2)*2"[0] == '(' && "(2+2)*2"[1..] == "2+2)*2";
    assert Elements.Flush([], "") + ["("] == ["("];
  }

  lemma ParenthesesFirstLex2()
    ensures Elements.Lex("2+2)*2", true, ["("], "") == Elements.Lex("+2)*2", true, ["("], "2")
  {
    assert "2+2)*2"[0] == '2' && "2+2)*2"[1..] == "+2)*2";
    assert "" + ['2'] == "2";
  }

  lemma ParenthesesFirstLex3()
    ensures Elements.Lex("+2)*2", true, ["("], "2") == Elements.Lex("2)*2", true, ["(", "2", "+"], "")
  {
    assert "+2)*2"[0] == '+' && "+2)*2"[1..] == "2)*2";
    assert Elements.Flush(["("], "2") + ["+"] == ["(", "2", "+"];
  }

  lemma ParenthesesFirstLex4()
    ensures Elements.Lex("2)*2", true, ["(", "2", "+"], "") == Elements.Lex(")*2", true, ["(", "2", "+"], "2")
  {
    assert "2)*2"[0] == '2' && "2)*2"[1..] == ")*2";
    assert "" + ['2'] == "2";
  }

  lemma ParenthesesFirstLex5()
    ensures Elements.Lex(")*2", true, ["(", "2", "+"], "2") == Elements.Lex("*2", true, ["(", "2", "+", "2", ")"], "")
  {
    assert ")*2"[0] == ')' && ")*2"[1..] == "*2";
    assert Elements.Flush(["(", "2", "+"], "2") + [")"] == ["(", "2", "+", "2", ")"];
  }

  lemma ParenthesesFirstLex6()
    ensures Elements.Lex("*2", true, ["(", "2", "+", "2", ")"], "") == Elements.Lex("2", true, ["(", "2", "+", "2", ")", "*"], "")
  {
    assert "*2"[0] == '*' && "*2"[1..] == "2";
    assert Elements.Flush(["(", "2", "+", "2", ")"], "") + ["*"] == ["(", "2", "+", "2", ")", "*"];
  }

  lemma ParenthesesFirstLex7()
    ensures Elements.Lex("2", true, ["(", "2", "+", "2", ")", "*"], "") == Elements.Lex("", true, ["(", "2", "+", "2", ")", "*"], "2")
  {
    assert "2"[0] == '2' && "2"[1..] == "";
    assert "" + ['2'] == "2";
  }

  lemma ParenthesesFirstTokens8()
    ensures Calculator.ConvElem("(2+2)*2") == Success(["(", "2", "+", "2", ")", "*", "2"])
  {
    ParenthesesFirstLex1();
    ParenthesesFirstLex2();
    ParenthesesFirstLex3();
    ParenthesesFirstLex4();
    ParenthesesFirstLex5();
    ParenthesesFirstLex6();
    ParenthesesFirstLex7();
    assert Elements.Flush(["(", "2", "+", "2", ")", "*"], "2") == ["(", "2", "+", "2", ")", "*", "2"];
    assert Elements.ConvElem("(2+2)*2", true) == Some(["(", "2", "+", "2", ")", "*", "2"]);
  }

  lemma ParenthesesFirstStep9()
    ensures Infix.Step(Infix.Stacks([], []), "(") == Success(Infix.Stacks([], ["("]))
  {
    Infix.StepOpens(Infix.Stacks([], []));
    assert [] + ["("] == ["("];
  }

  lemma ParenthesesFirstScan10()
    ensures Infix.Scan(["(", "2", "+", "2", ")", "*", "2"], Infix.Stacks([], [])) == Infix.Scan(["2", "+", "2", ")", "*", "2"], Infix.Stacks([], ["("]))
  {
    assert ["(", "2", "+", "2", ")", "*", "2"][0] == "(" && ["(", "2", "+", "2", ")", "*", "2"][1..] == ["2", "+", "2", ")", "*", "2"];
    ParenthesesFirstStep9();
  }

  lemma ParenthesesFirstStep11()
    ensures Infix.Step(Infix.Stacks([], ["("]), "2") == Success(Infix.Stacks([2.0], ["("]))
  {
    Numbers.ParseDigit('2');
    Infix.StepPushesNumber(Infix.Stacks([], ["("]), "2");
    assert [] + [2.0] == [2.0];
  }

  lemma ParenthesesFirstScan12()
    ensures Infix.Scan(["2", "+", "2", ")", "*", "2"], Infix.Stacks([], ["("])) == Infix.Scan(["+", "2", ")", "*", "2"], Infix.Stacks([2.0], ["("]))
  {
    assert ["2", "+", "2", ")", "*", "2"][0] == "2" && ["2", "+", "2", ")", "*", "2"][1..] == ["+", "2", ")", "*", "2"];
    ParenthesesFirstStep11();
  }

  lemma ParenthesesFirstStep13()
    ensures Infix.Step(Infix.Stacks([2.0], ["("]), "+") == Success(Infix.Stacks([2.0], ["(", "+"]))
  {
    assert ["("][0] == "(";
    Infix.StepPushesOperator(Infix.Stacks([2.0], ["("]), "+");
    assert ["("] + ["+"] == ["(", "+"];
  }

  lemma ParenthesesFirstScan14()
    ensures Infix.Scan(["+", "2", ")", "*", "2"], Infix.Stacks([2.0], ["("])) == Infix.Scan(["2", ")", "*", "2"], Infix.Stacks([2.0], ["(", "+"]))
  {
    assert ["+", "2", ")", "*", "2"][0] == "+" && ["+", "2", ")", "*", "2"][1..] == ["2", ")", "*", "2"];
    ParenthesesFirstStep13();
  }

  lemma ParenthesesFirstStep15()
    ensures Infix.Step(Infix.Stacks([2.0], ["(", "+"]), "2") == Success(Infix.Stacks([2.0, 2.0], ["(", "+"]))
  {
    Numbers.ParseDigit('2');
    Infix.StepPushesNumber(Infix.Stacks([2.0], ["(", "+"]), "2");
    assert [2.0] + [2.0] == [2.0, 2.0];
  }

  lemma ParenthesesFirstScan16()
    ensures Infix.Scan(["2", ")", "*", "2"], Infix.Stacks([2.0], ["(", "+"])) == Infix.Scan([")", "*", "2"], Infix.Stacks([2.0, 2.0], ["(", "+"]))
  {
    assert ["2", ")", "*", "2"][0] == "2" && ["2", ")", "*", "2"][1..] == [")", "*", "2"];
    ParenthesesFirstStep15();
  }

  lemma ParenthesesFirstApply18()
    ensures Infix.Apply(Infix.Stacks([2.0, 2.0], ["(", "+"])) == Success(Infix.Stacks([4.0], ["("]))
  {
    assert ["(", "+"][1] == "+";
    assert [2.0, 2.0][..0] == [];
    assert ["(", "+"][..1] == ["("];
    assert [] + [4.0] == [4.0];
  }

  lemma ParenthesesFirstCloseParen19()
    ensures Infix.CloseParen(Infix.Stacks([2.0, 2.0], ["(", "+"])) == Success(Infix.Stacks([4.0], []))
  {
    assert ["("][0] == "(";
    assert ["(", "+"][1] == "+";
    ParenthesesFirstApply18();
    assert ["("][..0] == [];
  }

  lemma ParenthesesFirstStep17()
    ensures Infix.Step(Infix.Stacks([2.0, 2.0], ["(", "+"]), ")") == Success(Infix.Stacks([4.0], []))
  {
    Infix.StepCloses(Infix.Stacks([2.0, 2.0], ["(", "+"]));
    ParenthesesFirstCloseParen19();
  }

  lemma ParenthesesFirstScan20()
    ensures Infix.Scan([")", "*", "2"], Infix.Stacks([2.0, 2.0], ["(", "+"])) == Infix.Scan(["*", "2"], Infix.Stacks([4.0], []))
  {
    assert [")", "*", "2"][0] == ")" && [")", "*", "2"][1..] == ["*", "2"];
    ParenthesesFirstStep17();
  }

  lemma ParenthesesFirstStep21()
    ensures Infix.Step(Infix.Stacks([4.0], []), "*") == Success(Infix.Stacks([4.0], ["*"]))
  {
    Infix.StepPushesOperator(Infix.Stacks([4.0], []), "*");
    assert [] + ["*"] == ["*"];
  }

  lemma ParenthesesFirstScan22()
    ensures Infix.Scan(["*", "2"], Infix.Stacks([4.0], [])) == Infix.Scan(["2"], Infix.Stacks([4.0], ["*"]))
  {
    assert ["*", "2"][0] == "*" && ["*", "2"][1..] == ["2"];
    ParenthesesFirstStep21();
  }

  lemma ParenthesesFirstStep23()
    ensures Infix.Step(Infix.Stacks([4.0], ["*"]), "2") == Success(Infix.Stacks([4.0, 2.0], ["*"]))
  {
    Numbers.ParseDigit('2');
    Infix.StepPushesNumber(Infix.Stacks([4.0], ["*"]), "2");
    assert [4.0] + [2.0] == [4.0, 2.0];
  }

  lemma ParenthesesFirstScan24()
    ensures Infix.Scan(["2"], Infix.Stacks([4.0], ["*"])) == Infix.Scan([], Infix.Stacks([4.0, 2.0], ["*"]))
  {
    assert ["2"][0] == "2" && ["2"][1..] == [];
    ParenthesesFirstStep23();
  }

  lemma ParenthesesFirstApply25()
    ensures Infix.Apply(Infix.Stacks([4.0, 2.0], ["*"])) == Success(Infix.Stacks([8.0], []))
  {
    assert ["*"][0] == "*";
    assert [4.0, 2.0][..0] == [];
    assert ["*"][..0] == [];
    assert [] + [8.0] == [8.0];
  }

  lemma ParenthesesFirstDrain26()
    ensures Infix.Drain(Infix.Stacks([4.0, 2.0], ["*"])) == Success(Infix.Stacks([8.0], []))
  {
    assert ["*"][0] == "*";
    ParenthesesFirstApply25();
  }

  lemma ParenthesesFirstEvaluate27()
    ensures Infix.Evaluate(["(", "2", "+", "2", ")", "*", "2"]) == Success(8.0)
  {
    ParenthesesFirstScan10();
    ParenthesesFirstScan12();
    ParenthesesFirstScan14();
    ParenthesesFirstScan16();
    ParenthesesFirstScan20();
    ParenthesesFirstScan22();
    ParenthesesFirstScan24();
    ParenthesesFirstDrain26();
  }

  lemma RejectsTrailingOperatorLex1()
    ensures Elements.Lex("1+1*", true, [], "") == Elements.Lex("+1*", true, [], "1")
  {
    assert "1+1*"[0] == '1' && "1+1*"[1..] == "+1*";
    assert "" + ['1'] == "1";
  }

  lemma RejectsTrailingOperatorLex2()
    ensures Elements.Lex("+1*", true, [], "1") == Elements.Lex("1*", true, ["1", "+"], "")
  {
    assert "+1*"[0] == '+' && "+1*"[1..] == "1*";
    assert Elements.Flush([], "1") + ["+"] == ["1", "+"];
  }

  lemma RejectsTrailingOperatorLex3()
    ensures Elements.Lex("1*", true, ["1", "+"], "") == Elements.Lex("*", true, ["1", "+"], "1")
  {
    assert "1*"[0] == '1' && "1*"[1..] == "*";
    assert "" + ['1'] == "1";
  }

  lemma RejectsTrailingOperatorLex4()
    ensures Elements.Lex("*", true, ["1", "+"], "1") == Elements.Lex("", true, ["1", "+", "1", "*"], "")
  {
    assert "*"[0] == '*' && "*"[1..] == "";
    assert Elements.Flush(["1", "+"], "1") + ["*"] == ["1", "+", "1", "*"];
  }

  lemma RejectsTrailingOperatorTokens5()
    ensures Calculator.ConvElem("1+1*") == Success(["1", "+", "1", "*"])
  {
    RejectsTrailingOperatorLex1();
    RejectsTrailingOperatorLex2();
    RejectsTrailingOperatorLex3();
    RejectsTrailingOperatorLex4();
    assert Elements.Flush(["1", "+", "1", "*"], "") == ["1", "+", "1", "*"];
    assert Elements.ConvElem("1+1*", true) == Some(["1", "+", "1", "*"]);
  }

  lemma RejectsTrailingOperatorStep6()
    ensures Infix.Step(Infix.Stacks([], []), "1") == Success(Infix.Stacks([1.0], []))
  {
    Numbers.ParseDigit('1');
    Infix.StepPushesNumber(Infix.Stacks([], []), "1");
    assert [] + [1.0] == [1.0];
  }

  lemma RejectsTrailingOperatorScan7()
    ensures Infix.Scan(["1", "+", "1", "*"], Infix.Stacks([], [])) == Infix.Scan(["+", "1", "*"], Infix.Stacks([1.0], []))
  {
    assert ["1", "+", "1", "*"][0] == "1" && ["1", "+", "1", "*"][1..] == ["+", "1", "*"];
    RejectsTrailingOperatorStep6();
  }

  lemma RejectsTrailingOperatorStep8()
    ensures Infix.Step(Infix.Stacks([1.0], []), "+") == Success(Infix.Stacks([1.0], ["+"]))
  {
    Infix.StepPushesOperator(Infix.Stacks([1.0], []), "+");
    assert [] + ["+"] == ["+"];
  }

  lemma RejectsTrailingOperatorScan9()
    ensures Infix.Scan(["+", "1", "*"], Infix.Stacks([1.0], [])) == Infix.Scan(["1", "*"], Infix.Stacks([1.0], ["+"]))
  {
    assert ["+", "1", "*"][0] == "+" && ["+", "1", "*"][1..] == ["1", "*"];
    RejectsTrailingOperatorStep8();
  }

  lemma RejectsTrailingOperatorStep10()
    ensures Infix.Step(Infix.Stacks([1.0], ["+"]), "1") == Success(Infix.Stacks([1.0, 1.0], ["+"]))
  {
    Numbers.ParseDigit('1');
    Infix.StepPushesNumber(Infix.Stacks([1.0], ["+"]), "1");
    assert [1.0] + [1.0] == [1.0, 1.0];
  }

  lemma RejectsTrailingOperatorScan11()
    ensures Infix.Scan(["1", "*"], Infix.Stacks([1.0], ["+"])) == Infix.Scan(["*"], Infix.Stacks([1.0, 1.0], ["+"]))
  {
    assert ["1", "*"][0] == "1" && ["1", "*"][1..] == ["*"];
    RejectsTrailingOperatorStep10();
  }

  lemma RejectsTrailingOperatorStep12()
    ensures Infix.Step(Infix.Stacks([1.0, 1.0], ["+"]), "*") == Success(Infix.Stacks([1.0, 1.0], ["+", "*"]))
  {
    assert ["+"][0] == "+";
    Infix.StepPushesOperator(Infix.Stacks([1.0, 1.0], ["+"]), "*");
    assert ["+"] + ["*"] == ["+", "*"];
  }

  lemma RejectsTrailingOperatorScan13()
    ensures Infix.Scan(["*"], Infix.Stacks([1.0, 1.0], ["+"])) == Infix.Scan([], Infix.Stacks([1.0, 1.0], ["+", "*"]))
  {
    assert ["*"][0] == "*" && ["*"][1..] == [];
    RejectsTrailingOperatorStep12();
  }

  lemma RejectsTrailingOperatorApply14()
    ensures Infix.Apply(Infix.Stacks([1.0, 1.0], ["+", "*"])) == Success(Infix.Stacks([1.0], ["+"]))
  {
    assert ["+", "*"][1] == "*";
    assert [1.0, 1.0][..0] == [];
    assert ["+", "*"][..1] == ["+"];
    assert [] + [1.0] == [1.0];
  }

  lemma RejectsTrailingOperatorApply15()
    ensures Infix.Apply(Infix.Stacks([1.0], ["+"])) == Failure(Infix.TooFewOperands)
  {
  }

  lemma RejectsTrailingOperatorDrain16()
    ensures Infix.Drain(Infix.Stacks([1.0, 1.0], ["+", "*"])) == Failure(Infix.TooFewOperands)
  {
    assert ["+"][0] == "+";
    assert ["+", "*"][1] == "*";
    RejectsTrailingOperatorApply14();
    RejectsTrailingOperatorApply15();
  }

  lemma RejectsTrailingOperatorEvaluate17()
    ensures Infix.Evaluate(["1", "+", "1", "*"]) == Failure(Infix.TooFewOperands)
  {
    RejectsTrailingOperatorScan7();
    RejectsTrailingOperatorScan9();
    RejectsTrailingOperatorScan11();
    RejectsTrailingOperatorScan13();
    RejectsTrailingOperatorDrain16();
  }

  lemma RejectsDoubledOperatorLex1()
    ensures Elements.Lex("2+2**2", true, [], "") == Elements.Lex("+2**2", true, [], "2")
  {
    assert "2+2**2"[0] == '2' && "2+2**2"[1..] == "+2**2";
    assert "" + ['2'] == "2";
  }

  lemma RejectsDoubledOperatorLex2()
    ensures Elements.Lex("+2**2", true, [], "2") == Elements.Lex("2**2", true, ["2", "+"], "")
  {
    assert "+2**2"[0] == '+' && "+2**2"[1..] == "2**2";
    assert Elements.Flush([], "2") + ["+"] == ["2", "+"];
  }

  lemma RejectsDoubledOperatorLex3()
    ensures Elements.Lex("2**2", true, ["2", "+"], "") == Elements.Lex("**2", true, ["2", "+"], "2")
  {
    assert "2**2"[0] == '2' && "2**2"[1..] == "**2";
    assert "" + ['2'] == "2";
  }

  lemma RejectsDoubledOperatorLex4()
    ensures Elements.Lex("**2", true, ["2", "+"], "2") == Elements.Lex("*2", true, ["2", "+", "2", "*"], "")
  {
    assert "**2"[0] == '*' && "**2"[1..] == "*2";
    assert Elements.Flush(["2", "+"], "2") + ["*"] == ["2", "+", "2", "*"];
  }

  lemma RejectsDoubledOperatorLex5()
    ensures Elements.Lex("*2", true, ["2", "+", "2", "*"], "") == Elements.Lex("2", true, ["2", "+", "2", "*", "*"], "")
  {
    assert "*2"[0] == '*' && "*2"[1..] == "2";
    assert Elements.Flush(["2", "+", "2", "*"], "") + ["*"] == ["2", "+", "2", "*", "*"];
  }

  lemma RejectsDoubledOperatorLex6()
    ensures Elements.Lex("2", true, ["2", "+", "2", "*", "*"], "") == Elements.Lex("", true, ["2", "+", "2", "*", "*"], "2")
  {
    assert "2"[0] == '2' && "2"[1..] == "";
    assert "" + ['2'] == "2";
  }

  lemma RejectsDoubledOperatorTokens7()
    ensures Calculator.ConvElem("2+2**2") == Success(["2", "+", "2", "*", "*", "2"])
  {
    RejectsDoubledOperatorLex1();
    RejectsDoubledOperatorLex2();
    RejectsDoubledOperatorLex3();
    RejectsDoubledOperatorLex4();
    RejectsDoubledOperatorLex5();
    RejectsDoubledOperatorLex6();
    assert Elements.Flush(["2", "+", "2", "*", "*"], "2") == ["2", "+", "2", "*", "*", "2"];
    assert Elements.ConvElem("2+2**2", true) == Some(["2", "+", "2", "*", "*", "2"]);
  }

  lemma RejectsDoubledOperatorStep8()
    ensures Infix.Step(Infix.Stacks([], []), "2") == Success(Infix.Stacks([2.0], []))
  {
    Numbers.ParseDigit('2');
    Infix.StepPushesNumber(Infix.Stacks([], []), "2");
    assert [] + [2.0] == [2.0];
  }

  lemma RejectsDoubledOperatorScan9()
    ensures Infix.Scan(["2", "+", "2", "*", "*", "2"], Infix.Stacks([], [])) == Infix.Scan(["+", "2", "*", "*", "2"], Infix.Stacks([2.0], []))
  {
    assert ["2", "+", "2", "*", "*", "2"][0] == "2" && ["2", "+", "2", "*", "*", "2"][1..] == ["+", "2", "*", "*", "2"];
    RejectsDoubledOperatorStep8();
  }

  lemma RejectsDoubledOperatorStep10()
    ensures Infix.Step(Infix.Stacks([2.0], []), "+") == Success(Infix.Stacks([2.0], ["+"]))
  {
    Infix.StepPushesOperator(Infix.Stacks([2.0], []), "+");
    assert [] + ["+"] == ["+"];
  }

  lemma RejectsDoubledOperatorScan11()
    ensures Infix.Scan(["+", "2", "*", "*", "2"], Infix.Stacks([2.0], [])) == Infix.Scan(["2", "*", "*", "2"], Infix.Stacks([2.0], ["+"]))
  {
    assert ["+", "2", "*", "*", "2"][0] == "+" && ["+", "2", "*", "*", "2"][1..] == ["2", "*", "*", "2"];
    RejectsDoubledOperatorStep10();
  }

  lemma RejectsDoubledOperatorStep12()
    ensures Infix.Step(Infix.Stacks([2.0], ["+"]), "2") == Success(Infix.Stacks([2.0, 2.0], ["+"]))
  {
    Numbers.ParseDigit('2');
    Infix.StepPushesNumber(Infix.Stacks([2.0], ["+"]), "2");
    assert [2.0] + [2.0] == [2.0, 2.0];
  }

  lemma RejectsDoubledOperatorScan13()
    ensures Infix.Scan(["2", "*", "*", "2"], Infix.Stacks([2.0], ["+"])) == Infix.Scan(["*", "*", "2"], Infix.Stacks([2.0, 2.0], ["+"]))
  {
    assert ["2", "*", "*", "2"][0] == "2" && ["2", "*", "*", "2"][1..] == ["*", "*", "2"];
    RejectsDoubledOperatorStep12();
  }

  lemma RejectsDoubledOperatorStep14()
    ensures Infix.Step(Infix.Stacks([2.0, 2.0], ["+"]), "*") == Success(Infix.Stacks([2.0, 2.0], ["+", "*"]))
  {
    assert ["+"][0] == "+";
    Infix.StepPushesOperator(Infix.Stacks([2.0, 2.0], ["+"]), "*");
    assert ["+"] + ["*"] == ["+", "*"];
  }

  lemma RejectsDoubledOperatorScan15()
    ensures Infix.Scan(["*", "*", "2"], Infix.Stacks([2.0, 2.0], ["+"])) == Infix.Scan(["*", "2"], Infix.Stacks([2.0, 2.0], ["+", "*"]))
  {
    assert ["*", "*", "2"][0] == "*" && ["*", "*", "2"][1..] == ["*", "2"];
    RejectsDoubledOperatorStep14();
  }

  lemma RejectsDoubledOperatorApply17()
    ensures Infix.Apply(Infix.Stacks([2.0, 2.0], ["+", "*"])) == Success(Infix.Stacks([4.0], ["+"]))
  {
    assert ["+", "*"][1] == "*";
    assert [2.0, 2.0][..0] == [];
    assert ["+", "*"][..1] == ["+"];
    assert [] + [4.0] == [4.0];
  }

  lemma RejectsDoubledOperatorApply18()
    ensures Infix.Apply(Infix.Stacks([4.0], ["+"])) == Failure(Infix.TooFewOperands)
  {
  }

  lemma RejectsDoubledOperatorApplyAll19()
    ensures Infix.ApplyAll(Infix.Stacks([2.0, 2.0], ["+", "*"])) == Failure(Infix.TooFewOperands)
  {
    assert ["+"][0] == "+";
    assert ["+", "*"][1] == "*";
    RejectsDoubledOperatorApply17();
    RejectsDoubledOperatorApply18();
  }

  lemma RejectsDoubledOperatorStep16()
    ensures Infix.Step(Infix.Stacks([2.0, 2.0], ["+", "*"]), "*") == Failure(Infix.TooFewOperands)
  {
    Infix.StepAppliesAll(Infix.Stacks([2.0, 2.0], ["+", "*"]), "*");
    RejectsDoubledOperatorApplyAll19();
    assert ["+", "*"][1] == "*";
  }

  lemma RejectsDoubledOperatorScan20()
    ensures Infix.Scan(["*", "2"], Infix.Stacks([2.0, 2.0], ["+", "*"])) == Failure(Infix.TooFewOperands)
  {
    assert ["*", "2"][0] == "*" && ["*", "2"][1..] == ["2"];
    RejectsDoubledOperatorStep16();
  }

  lemma RejectsDoubledOperatorEvaluate21()
    ensures Infix.Evaluate(["2", "+", "2", "*", "*", "2"]) == Failure(Infix.TooFewOperands)
  {
    RejectsDoubledOperatorScan9();
    RejectsDoubledOperatorScan11();
    RejectsDoubledOperatorScan13();
    RejectsDoubledOperatorScan15();
    RejectsDoubledOperatorScan20();
  }

  lemma RejectsMismatchedParenthesesLex1()
    ensures Elements.Lex("((2+2-*(2", true, [], "") == Elements.Lex("(2+2-*(2", true, ["("], "")
  {
    assert "((2+2-*(2"[0] == '(' && "((2+2-*(2"[1..] == "(2+2-*(2";
    assert Elements.Flush([], "") + ["("] == ["("];
  }

  lemma RejectsMismatchedParenthesesLex2()
    ensures Elements.Lex("(2+2-*(2", true, ["("], "") == Elements.Lex("2+2-*(2", true, ["(", "("], "")
  {
    assert "(2+2-*(2"[0] == '(' && "(2+2-*(2"[1..] == "2+2-*(2";
    assert Elements.Flush(["("], "") + ["("] == ["(", "("];
  }

  lemma RejectsMismatchedParenthesesLex3()
    ensures Elements.Lex("2+2-*(2", true, ["(", "("], "") == Elements.Lex("+2-*(2", true, ["(", "("], "2")
  {
    assert "2+2-*(2"[0] == '2' && "2+2-*(2"[1..] == "+2-*(2";
    assert "" + ['2'] == "2";
  }

  lemma RejectsMismatchedParenthesesLex4()
    ensures Elements.Lex("+2-*(2", true, ["(", "("], "2") == Elements.Lex("2-*(2", true, ["(", "(", "2", "+"], "")
  {
    assert "+2-*(2"[0] == '+' && "+2-*(2"[1..] == "2-*(2";
    assert Elements.Flush(["(", "("], "2") + ["+"] == ["(", "(", "2", "+"];
  }

  lemma RejectsMismatchedParenthesesLex5()
    ensures Elements.Lex("2-*(2", true, ["(", "(", "2", "+"], "") == Elements.Lex("-*(2", true, ["(", "(", "2", "+"], "2")
  {
    assert "2-*(2"[0] == '2' && "2-*(2"[1..] == "-*(2";
    assert "" + ['2'] == "2";
  }

  lemma RejectsMismatchedParenthesesLex6()
    ensures Elements.Lex("-*(2", true, ["(", "(", "2", "+"], "2") == Elements.Lex("*(2", true, ["(", "(", "2", "+", "2", "-"], "")
  {
    assert "-*(2"[0] == '-' && "-*(2"[1..] == "*(2";
    assert Elements.Flush(["(", "(", "2", "+"], "2") + ["-"] == ["(", "(", "2", "+", "2", "-"];
  }

  lemma RejectsMismatchedParenthesesLex7()
    ensures Elements.Lex("*(2", true, ["(", "(", "2", "+", "2", "-"], "") == Elements.Lex("(2", true, ["(", "(", "2", "+", "2", "-", "*"], "")
  {
    assert "*(2"[0] == '*' && "*(2"[1..] == "(2";
    assert Elements.Flush(["(", "(", "2", "+", "2", "-"], "") + ["*"] == ["(", "(", "2", "+", "2", "-", "*"];
  }

  lemma RejectsMismatchedParenthesesLex8()
    ensures Elements.Lex("(2", true, ["(", "(", "2", "+", "2", "-", "*"], "") == Elements.Lex("2", true, ["(", "(", "2", "+", "2", "-", "*", "("], "")
  {
    assert "(2"[0] == '(' && "(2"[1..] == "2";
    assert Elements.Flush(["(", "(", "2", "+", "2", "-", "*"], "") + ["("] == ["(", "(", "2", "+", "2", "-", "*", "("];
  }

  lemma RejectsMismatchedParenthesesLex9()
    ensures Elements.Lex("2", true, ["(", "(", "2", "+", "2", "-", "*", "("], "") == Elements.Lex("", true, ["(", "(", "2", "+", "2", "-", "*", "("], "2")
  {
    assert "2"[0] == '2' && "2"[1..] == "";
    assert "" + ['2'] == "2";
  }

  lemma RejectsMismatchedParenthesesTokens10()
    ensures Calculator.ConvElem("((2+2-*(2") == Success(["(", "(", "2", "+", "2", "-", "*", "(", "2"])
  {
    RejectsMismatchedParenthesesLex1();
    RejectsMismatchedParenthesesLex2();
    RejectsMismatchedParenthesesLex3();
    RejectsMismatchedParenthesesLex4();
    RejectsMismatchedParenthesesLex5();
    RejectsMismatchedParenthesesLex6();
    RejectsMismatchedParenthesesLex7();
    RejectsMismatchedParenthesesLex8();
    RejectsMismatchedParenthesesLex9();
    assert Elements.Flush(["(", "(", "2", "+", "2", "-", "*", "("], "2") == ["(", "(", "2", "+", "2", "-", "*", "(", "2"];
    assert Elements.ConvElem("((2+2-*(2", true) == Some(["(", "(", "2", "+", "2", "-", "*", "(", "2"]);
  }

  lemma RejectsMismatchedParenthesesStep11()
    ensures Infix.Step(Infix.Stacks([], []), "(") == Success(Infix.Stacks([], ["("]))
  {
    Infix.StepOpens(Infix.Stacks([], []));
    assert [] + ["("] == ["("];
  }

  lemma RejectsMismatchedParenthesesScan12()
    ensures Infix.Scan(["(", "(", "2", "+", "2", "-", "*", "(", "2"], Infix.Stacks([], [])) == Infix.Scan(["(", "2", "+", "2", "-", "*", "(", "2"], Infix.Stacks([], ["("]))
  {
    assert ["(", "(", "2", "+", "2", "-", "*", "(", "2"][0] == "(" && ["(", "(", "2", "+", "2", "-", "*", "(", "2"][1..] == ["(", "2", "+", "2", "-", "*", "(", "2"];
    RejectsMismatchedParenthesesStep11();
  }

  lemma RejectsMismatchedParenthesesStep13()
    ensures Infix.Step(Infix.Stacks([], ["("]), "(") == Success(Infix.Stacks([], ["(", "("]))
  {
    Infix.StepOpens(Infix.Stacks([], ["("]));
    assert ["("] + ["("] == ["(", "("];
  }

  lemma RejectsMismatchedParenthesesScan14()
    ensures Infix.Scan(["(", "2", "+", "2", "-", "*", "(", "2"], Infix.Stacks([], ["("])) == Infix.Scan(["2", "+", "2", "-", "*", "(", "2"], Infix.Stacks([], ["(", "("]))
  {
    assert ["(", "2", "+", "2", "-", "*", "(", "2"][0] == "(" && ["(", "2", "+", "2", "-", "*", "(", "2"][1..] == ["2", "+", "2", "-", "*", "(", "2"];
    RejectsMismatchedParenthesesStep13();
  }

  lemma RejectsMismatchedParenthesesStep15()
    ensures Infix.Step(Infix.Stacks([], ["(", "("]), "2") == Success(Infix.Stacks([2.0], ["(", "("]))
  {
    Numbers.ParseDigit('2');
    Infix.StepPushesNumber(Infix.Stacks([], ["(", "("]), "2");
    assert [] + [2.0] == [2.0];
  }

  lemma RejectsMismatchedParenthesesScan16()
    ensures Infix.Scan(["2", "+", "2", "-", "*", "(", "2"], Infix.Stacks([], ["(", "("])) == Infix.Scan(["+", "2", "-", "*", "(", "2"], Infix.Stacks([2.0], ["(", "("]))
  {
    assert ["2", "+", "2", "-", "*", "(", "2"][0] == "2" && ["2", "+", "2", "-", "*", "(", "2"][1..] == ["+", "2", "-", "*", "(", "2"];
    RejectsMismatchedParenthesesStep15();
  }

  lemma RejectsMismatchedParenthesesStep17()
    ensures Infix.Step(Infix.Stacks([2.0], ["(", "("]), "+") == Success(Infix.Stacks([2.0], ["(", "(", "+"]))
  {
    assert ["(", "("][1] == "(";
    Infix.StepPushesOperator(Infix.Stacks([2.0], ["(", "("]), "+");
    assert ["(", "("] + ["+"] == ["(", "(", "+"];
  }

  lemma RejectsMismatchedParenthesesScan18()
    ensures Infix.Scan(["+", "2", "-", "*", "(", "2"], Infix.Stacks([2.0], ["(", "("])) == Infix.Scan(["2", "-", "*", "(", "2"], Infix.Stacks([2.0], ["(", "(", "+"]))
  {
    assert ["+", "2", "-", "*", "(", "2"][0] == "+" && ["+", "2", "-", "*", "(", "2"][1..] == ["2", "-", "*", "(", "2"];
    RejectsMismatchedParenthesesStep17();
  }

  lemma RejectsMismatchedParenthesesStep19()
    ensures Infix.Step(Infix.Stacks([2.0], ["(", "(", "+"]), "2") == Success(Infix.Stacks([2.0, 2.0], ["(", "(", "+"]))
  {
    Numbers.ParseDigit('2');
    Infix.StepPushesNumber(Infix.Stacks([2.0], ["(", "(", "+"]), "2");
    assert [2.0] + [2.0] == [2.0, 2.0];
  }

  lemma RejectsMismatchedParenthesesScan20()
    ensures Infix.Scan(["2", "-", "*", "(", "2"], Infix.Stacks([2.0], ["(", "(", "+"])) == Infix.Scan(["-", "*", "(", "2"], Infix.Stacks([2.0, 2.0], ["(", "(", "+"]))
  {
    assert ["2", "-", "*", "(", "2"][0] == "2" && ["2", "-", "*", "(", "2"][1..] == ["-", "*", "(", "2"];
    RejectsMismatchedParenthesesStep19();
  }

  lemma RejectsMismatchedParenthesesApply22()
    ensures Infix.Apply(Infix.Stacks([2.0, 2.0], ["(", "(", "+"])) == Success(Infix.Stacks([4.0], ["(", "("]))
  {
    assert ["(", "(", "+"][2] == "+";
    assert [2.0, 2.0][..0] == [];
    assert ["(", "(", "+"][..2] == ["(", "("];
    assert [] + [4.0] == [4.0];
  }

  lemma RejectsMismatchedParenthesesApply23()
    ensures Infix.Apply(Infix.Stacks([4.0], ["(", "("])) == Failure(Infix.TooFewOperands)
  {
  }

  lemma RejectsMismatchedParenthesesApplyAll24()
    ensures Infix.ApplyAll(Infix.Stacks([2.0, 2.0], ["(", "(", "+"])) == Failure(Infix.TooFewOperands)
  {
    assert ["(", "("][1] == "(";
    assert ["(", "(", "+"][2] == "+";
    RejectsMismatchedParenthesesApply22();
    RejectsMismatchedParenthesesApply23();
  }

  lemma RejectsMismatchedParenthesesStep21()
    ensures Infix.Step(Infix.Stacks([2.0, 2.0], ["(", "(", "+"]), "-") == Failure(Infix.TooFewOperands)
  {
    Infix.StepAppliesAll(Infix.Stacks([2.0, 2.0], ["(", "(", "+"]), "-");
    RejectsMismatchedParenthesesApplyAll24();
    assert ["(", "(", "+"][2] == "+";
  }

  lemma RejectsMismatchedParenthesesScan25()
    ensures Infix.Scan(["-", "*", "(", "2"], Infix.Stacks([2.0, 2.0], ["(", "(", "+"])) == Failure(Infix.TooFewOperands)
  {
    assert ["-", "*", "(", "2"][0] == "-" && ["-", "*", "(", "2"][1..] == ["*", "(", "2"];
    RejectsMismatchedParenthesesStep21();
  }

  lemma RejectsMismatchedParenthesesEvaluate26()
    ensures Infix.Evaluate(["(", "(", "2", "+", "2", "-", "*", "(", "2"]) == Failure(Infix.TooFewOperands)
  {
    RejectsMismatchedParenthesesScan12();
    RejectsMismatchedParenthesesScan14();
    RejectsMismatchedParenthesesScan16();
    RejectsMismatchedParenthesesScan18();
    RejectsMismatchedParenthesesScan20();
    RejectsMismatchedParenthesesScan25();
  }

  lemma RejectsEmptyTokens1()
    ensures Calculator.ConvElem("") == Success([])
  {
    assert Elements.Flush([], "") == [];
    assert Elements.ConvElem("", true) == Some([]);
  }

  lemma RejectsEmptyDrain2()
    ensures Infix.Drain(Infix.Stacks([], [])) == Success(Infix.Stacks([], []))
  {
  }

  lemma RejectsEmptyEvaluate3()
    ensures Infix.Evaluate([]) == Failure(Infix.NotSingle)
  {
    RejectsEmptyDrain2();
  }

  lemma RejectsZeroDivisorLex1()
    ensures Elements.Lex("1/0", true, [], "") == Elements.Lex("/0", true, [], "1")
  {
    assert "1/0"[0] == '1' && "1/0"[1..] == "/0";
    assert "" + ['1'] == "1";
  }

  lemma RejectsZeroDivisorLex2()
    ensures Elements.Lex("/0", true, [], "1") == Elements.Lex("0", true, ["1", "/"], "")
  {
    assert "/0"[0] == '/' && "/0"[1..] == "0";
    assert Elements.Flush([], "1") + ["/"] == ["1", "/"];
  }

  lemma RejectsZeroDivisorLex3()
    ensures Elements.Lex("0", true, ["1", "/"], "") == Elements.Lex("", true, ["1", "/"], "0")
  {
    assert "0"[0] == '0' && "0"[1..] == "";
    assert "" + ['0'] == "0";
  }

  lemma RejectsZeroDivisorTokens4()
    ensures Calculator.ConvElem("1/0") == Success(["1", "/", "0"])
  {
    RejectsZeroDivisorLex1();
    RejectsZeroDivisorLex2();
    RejectsZeroDivisorLex3();
    assert Elements.Flush(["1", "/"], "0") == ["1", "/", "0"];
    assert Elements.ConvElem("1/0", true) == Some(["1", "/", "0"]);
  }

  lemma RejectsZeroDivisorStep5()
    ensures Infix.Step(Infix.Stacks([], []), "1") == Success(Infix.Stacks([1.0], []))
  {
    Numbers.ParseDigit('1');
    Infix.StepPushesNumber(Infix.Stacks([], []), "1");
    assert [] + [1.0] == [1.0];
  }

  lemma RejectsZeroDivisorScan6()
    ensures Infix.Scan(["1", "/", "0"], Infix.Stacks([], [])) == Infix.Scan(["/", "0"], Infix.Stacks([1.0], []))
  {
    assert ["1", "/", "0"][0] == "1" && ["1", "/", "0"][1..] == ["/", "0"];
    RejectsZeroDivisorStep5();
  }

  lemma RejectsZeroDivisorStep7()
    ensures Infix.Step(Infix.Stacks([1.0], []), "/") == Success(Infix.Stacks([1.0], ["/"]))
  {
    Infix.StepPushesOperator(Infix.Stacks([1.0], []), "/");
    assert [] + ["/"] == ["/"];
  }

  lemma RejectsZeroDivisorScan8()
    ensures Infix.Scan(["/", "0"], Infix.Stacks([1.0], [])) == Infix.Scan(["0"], Infix.Stacks([1.0], ["/"]))
  {
    assert ["/", "0"][0] == "/" && ["/", "0"][1..] == ["0"];
    RejectsZeroDivisorStep7();
  }

  lemma RejectsZeroDivisorStep9()
    ensures Infix.Step(Infix.Stacks([1.0], ["/"]), "0") == Success(Infix.Stacks([1.0, 0.0], ["/"]))
  {
    Numbers.ParseDigit('0');
    Infix.StepPushesNumber(Infix.Stacks([1.0], ["/"]), "0");
    assert [1.0] + [0.0] == [1.0, 0.0];
  }

  lemma RejectsZeroDivisorScan10()
    ensures Infix.Scan(["0"], Infix.Stacks([1.0], ["/"])) == Infix.Scan([], Infix.Stacks([1.0, 0.0], ["/"]))
  {
    assert ["0"][0] == "0" && ["0"][1..] == [];
    RejectsZeroDivisorStep9();
  }

  lemma RejectsZeroDivisorApply11()
    ensures Infix.Apply(Infix.Stacks([1.0, 0.0], ["/"])) == Failure(Infix.DivisionByZero)
  {
    assert ["/"][0] == "/";
  }

  lemma RejectsZeroDivisorDrain12()
    ensures Infix.Drain(Infix.Stacks([1.0, 0.0], ["/"])) == Failure(Infix.DivisionByZero)
  {
    assert ["/"][0] == "/";
    RejectsZeroDivisorApply11();
  }

  lemma RejectsZeroDivisorEvaluate13()
    ensures Infix.Evaluate(["1", "/", "0"]) == Failure(Infix.DivisionByZero)
  {
    RejectsZeroDivisorScan6();
    RejectsZeroDivisorScan8();
    RejectsZeroDivisorScan10();
    RejectsZeroDivisorDrain12();
  }

  lemma AppliesEveryPendingActionLex1()
    ensures Elements.Lex("1+2*3*4", true, [], "") == Elements.Lex("+2*3*4", true, [], "1")
  {
    assert "1+2*3*4"[0] == '1' && "1+2*3*4"[1..] == "+2*3*4";
    assert "" + ['1'] == "1";
  }

  lemma AppliesEveryPendingActionLex2()
    ensures Elements.Lex("+2*3*4", true, [], "1") == Elements.Lex("2*3*4", true, ["1", "+"], "")
  {
    assert "+2*3*4"[0] == '+' && "+2*3*4"[1..] == "2*3*4";
    assert Elements.Flush([], "1") + ["+"] == ["1", "+"];
  }

  lemma AppliesEveryPendingActionLex3()
    ensures Elements.Lex("2*3*4", true, ["1", "+"], "") == Elements.Lex("*3*4", true, ["1", "+"], "2")
  {
    assert "2*3*4"[0] == '2' && "2*3*4"[1..] == "*3*4";
    assert "" + ['2'] == "2";
  }

  lemma AppliesEveryPendingActionLex4()
    ensures Elements.Lex("*3*4", true, ["1", "+"], "2") == Elements.Lex("3*4", true, ["1", "+", "2", "*"], "")
  {
    assert "*3*4"[0] == '*' && "*3*4"[1..] == "3*4";
    assert Elements.Flush(["1", "+"], "2") + ["*"] == ["1", "+", "2", "*"];
  }

  lemma AppliesEveryPendingActionLex5()
    ensures Elements.Lex("3*4", true, ["1", "+", "2", "*"], "") == Elements.Lex("*4", true, ["1", "+", "2", "*"], "3")
  {
    assert "3*4"[0] == '3' && "3*4"[1..] == "*4";
    assert "" + ['3'] == "3";
  }

  lemma AppliesEveryPendingActionLex6()
    ensures Elements.Lex("*4", true, ["1", "+", "2", "*"], "3") == Elements.Lex("4", true, ["1", "+", "2", "*", "3", "*"], "")
  {
    assert "*4"[0] == '*' && "*4"[1..] == "4";
    assert Elements.Flush(["1", "+", "2", "*"], "3") + ["*"] == ["1", "+", "2", "*", "3", "*"];
  }

  lemma AppliesEveryPendingActionLex7()
    ensures Elements.Lex("4", true, ["1", "+", "2", "*", "3", "*"], "") == Elements.Lex("", true, ["1", "+", "2", "*", "3", "*"], "4")
  {
    assert "4"[0] == '4' && "4"[1..] == "";
    assert "" + ['4'] == "4";
  }

  lemma AppliesEveryPendingActionTokens8()
    ensures Calculator.ConvElem("1+2*3*4") == Success(["1", "+", "2", "*", "3", "*", "4"])
  {
    AppliesEveryPendingActionLex1();
    AppliesEveryPendingActionLex2();
    AppliesEveryPendingActionLex3();
    AppliesEveryPendingActionLex4();
    AppliesEveryPendingActionLex5();
    AppliesEveryPendingActionLex6();
    AppliesEveryPendingActionLex7();
    assert Elements.Flush(["1", "+", "2", "*", "3", "*"], "4") == ["1", "+", "2", "*", "3", "*", "4"];
    assert Elements.ConvElem("1+2*3*4", true) == Some(["1", "+", "2", "*", "3", "*", "4"]);
  }

  lemma AppliesEveryPendingActionStep9()
    ensures Infix.Step(Infix.Stacks([], []), "1") == Success(Infix.Stacks([1.0], []))
  {
    Numbers.ParseDigit('1');
    Infix.StepPushesNumber(Infix.Stacks([], []), "1");
    assert [] + [1.0] == [1.0];
  }

  lemma AppliesEveryPendingActionScan10()
    ensures Infix.Scan(["1", "+", "2", "*", "3", "*", "4"], Infix.Stacks([], [])) == Infix.Scan(["+", "2", "*", "3", "*", "4"], Infix.Stacks([1.0], []))
  {
    assert ["1", "+", "2", "*", "3", "*", "4"][0] == "1" && ["1", "+", "2", "*", "3", "*", "4"][1..] == ["+", "2", "*", "3", "*", "4"];
    AppliesEveryPendingActionStep9();
  }

  lemma AppliesEveryPendingActionStep11()
    ensures Infix.Step(Infix.Stacks([1.0], []), "+") == Success(Infix.Stacks([1.0], ["+"]))
  {
    Infix.StepPushesOperator(Infix.Stacks([1.0], []), "+");
    assert [] + ["+"] == ["+"];
  }

  lemma AppliesEveryPendingActionScan12()
    ensures Infix.Scan(["+", "2", "*", "3", "*", "4"], Infix.Stacks([1.0], [])) == Infix.Scan(["2", "*", "3", "*", "4"], Infix.Stacks([1.0], ["+"]))
  {
    assert ["+", "2", "*", "3", "*", "4"][0] == "+" && ["+", "2", "*", "3", "*", "4"][1..] == ["2", "*", "3", "*", "4"];
    AppliesEveryPendingActionStep11();
  }

  lemma AppliesEveryPendingActionStep13()
    ensures Infix.Step(Infix.Stacks([1.0], ["+"]), "2") == Success(Infix.Stacks([1.0, 2.0], ["+"]))
  {
    Numbers.ParseDigit('2');
    Infix.StepPushesNumber(Infix.Stacks([1.0], ["+"]), "2");
    assert [1.0] + [2.0] == [1.0, 2.0];
  }

  lemma AppliesEveryPendingActionScan14()
    ensures Infix.Scan(["2", "*", "3", "*", "4"], Infix.Stacks([1.0], ["+"])) == Infix.Scan(["*", "3", "*", "4"], Infix.Stacks([1.0, 2.0], ["+"]))
  {
    assert ["2", "*", "3", "*", "4"][0] == "2" && ["2", "*", "3", "*", "4"][1..] == ["*", "3", "*", "4"];
    AppliesEveryPendingActionStep13();
  }

  lemma AppliesEveryPendingActionStep15()
    ensures Infix.Step(Infix.Stacks([1.0, 2.0], ["+"]), "*") == Success(Infix.Stacks([1.0, 2.0], ["+", "*"]))
  {
    assert ["+"][0] == "+";
    Infix.StepPushesOperator(Infix.Stacks([1.0, 2.0], ["+"]), "*");
    assert ["+"] + ["*"] == ["+", "*"];
  }

  lemma AppliesEveryPendingActionScan16()
    ensures Infix.Scan(["*", "3", "*", "4"], Infix.Stacks([1.0, 2.0], ["+"])) == Infix.Scan(["3", "*", "4"], Infix.Stacks([1.0, 2.0], ["+", "*"]))
  {
    assert ["*", "3", "*", "4"][0] == "*" && ["*", "3", "*", "4"][1..] == ["3", "*", "4"];
    AppliesEveryPendingActionStep15();
  }

  lemma AppliesEveryPendingActionStep17()
    ensures Infix.Step(Infix.Stacks([1.0, 2.0], ["+", "*"]), "3") == Success(Infix.Stacks([1.0, 2.0, 3.0], ["+", "*"]))
  {
    Numbers.ParseDigit('3');
    Infix.StepPushesNumber(Infix.Stacks([1.0, 2.0], ["+", "*"]), "3");
    assert [1.0, 2.0] + [3.0] == [1.0, 2.0, 3.0];
  }

  lemma AppliesEveryPendingActionScan18()
    ensures Infix.Scan(["3", "*", "4"], Infix.Stacks([1.0, 2.0], ["+", "*"])) == Infix.Scan(["*", "4"], Infix.Stacks([1.0, 2.0, 3.0], ["+", "*"]))
  {
    assert ["3", "*", "4"][0] == "3" && ["3", "*", "4"][1..] == ["*", "4"];
    AppliesEveryPendingActionStep17();
  }

  lemma AppliesEveryPendingActionApply20()
    ensures Infix.Apply(Infix.Stacks([1.0, 2.0, 3.0], ["+", "*"])) == Success(Infix.Stacks([1.0, 6.0], ["+"]))
  {
    assert ["+", "*"][1] == "*";
    assert [1.0, 2.0, 3.0][..1] == [1.0];
    assert ["+", "*"][..1] == ["+"];
    assert [1.0] + [6.0] == [1.0, 6.0];
  }

  lemma AppliesEveryPendingActionApply21()
    ensures Infix.Apply(Infix.Stacks([1.0, 6.0], ["+"])) == Success(Infix.Stacks([7.0], []))
  {
    assert ["+"][0] == "+";
    assert [1.0, 6.0][..0] == [];
    assert ["+"][..0] == [];
    assert [] + [7.0] == [7.0];
  }

  lemma AppliesEveryPendingActionApplyAll22()
    ensures Infix.ApplyAll(Infix.Stacks([1.0, 2.0, 3.0], ["+", "*"])) == Success(Infix.Stacks([7.0], []))
  {
    assert ["+"][0] == "+";
    assert ["+", "*"][1] == "*";
    AppliesEveryPendingActionApply20();
    AppliesEveryPendingActionApply21();
  }

  lemma AppliesEveryPendingActionStep19()
    ensures Infix.Step(Infix.Stacks([1.0, 2.0, 3.0], ["+", "*"]), "*") == Success(Infix.Stacks([7.0], ["*"]))
  {
    Infix.StepAppliesAll(Infix.Stacks([1.0, 2.0, 3.0], ["+", "*"]), "*");
    AppliesEveryPendingActionApplyAll22();
    assert ["+", "*"][1] == "*";
    assert [] + ["*"] == ["*"];
  }

  lemma AppliesEveryPendingActionScan23()
    ensures Infix.Scan(["*", "4"], Infix.Stacks([1.0, 2.0, 3.0], ["+", "*"])) == Infix.Scan(["4"], Infix.Stacks([7.0], ["*"]))
  {
    assert ["*", "4"][0] == "*" && ["*", "4"][1..] == ["4"];
    AppliesEveryPendingActionStep19();
  }

  lemma AppliesEveryPendingActionStep24()
    ensures Infix.Step(Infix.Stacks([7.0], ["*"]), "4") == Success(Infix.Stacks([7.0, 4.0], ["*"]))
  {
    Numbers.ParseDigit('4');
    Infix.StepPushesNumber(Infix.Stacks([7.0], ["*"]), "4");
    assert [7.0] + [4.0] == [7.0, 4.0];
  }

  lemma AppliesEveryPendingActionScan25()
    ensures Infix.Scan(["4"], Infix.Stacks([7.0], ["*"])) == Infix.Scan([], Infix.Stacks([7.0, 4.0], ["*"]))
  {
    assert ["4"][0] == "4" && ["4"][1..] == [];
    AppliesEveryPendingActionStep24();
  }

  lemma AppliesEveryPendingActionApply26()
    ensures Infix.Apply(Infix.Stacks([7.0, 4.0], ["*"])) == Success(Infix.Stacks([28.0], []))
  {
    assert ["*"][0] == "*";
    assert [7.0, 4.0][..0] == [];
    assert ["*"][..0] == [];
    assert [] + [28.0] == [28.0];
  }

  lemma AppliesEveryPendingActionDrain27()
    ensures Infix.Drain(Infix.Stacks([7.0, 4.0], ["*"])) == Success(Infix.Stacks([28.0], []))
  {
    assert ["*"][0] == "*";
    AppliesEveryPendingActionApply26();
  }

  lemma AppliesEveryPendingActionEvaluate28()
    ensures Infix.Evaluate(["1", "+", "2", "*", "3", "*", "4"]) == Success(28.0)
  {
    AppliesEveryPendingActionScan10();
    AppliesEveryPendingActionScan12();
    AppliesEveryPendingActionScan14();
    AppliesEveryPendingActionScan16();
    AppliesEveryPendingActionScan18();
    AppliesEveryPendingActionScan23();
    AppliesEveryPendingActionScan25();
    AppliesEveryPendingActionDrain27();
  }

  lemma DepartsFromPostfixPipelineLex1()
    ensures Elements.Lex("3+4*2/(1-5)", true, [], "") == Elements.Lex("+4*2/(1-5)", true, [], "3")
  {
    assert "3+4*2/(1-5)"[0] == '3' && "3+4*2/(1-5)"[1..] == "+4*2/(1-5)";
    assert "" + ['3'] == "3";
  }

  lemma DepartsFromPostfixPipelineLex2()
    ensures Elements.Lex("+4*2/(1-5)", true, [], "3") == Elements.Lex("4*2/(1-5)", true, ["3", "+"], "")
  {
    assert "+4*2/(1-5)"[0] == '+' && "+4*2/(1-5)"[1..] == "4*2/(1-5)";
    assert Elements.Flush([], "3") + ["+"] == ["3", "+"];
  }

  lemma DepartsFromPostfixPipelineLex3()
    ensures Elements.Lex("4*2/(1-5)", true, ["3", "+"], "") == Elements.Lex("*2/(1-5)", true, ["3", "+"], "4")
  {
    assert "4*2/(1-5)"[0] == '4' && "4*2/(1-5)"[1..] == "*2/(1-5)";
    assert "" + ['4'] == "4";
  }

  lemma DepartsFromPostfixPipelineLex4()
    ensures Elements.Lex("*2/(1-5)", true, ["3", "+"], "4") == Elements.Lex("2/(1-5)", true, ["3", "+", "4", "*"], "")
  {
    assert "*2/(1-5)"[0] == '*' && "*2/(1-5)"[1..] == "2/(1-5)";
    assert Elements.Flush(["3", "+"], "4") + ["*"] == ["3", "+", "4", "*"];
  }

  lemma DepartsFromPostfixPipelineLex5()
    ensures Elements.Lex("2/(1-5)", true, ["3", "+", "4", "*"], "") == Elements.Lex("/(1-5)", true, ["3", "+", "4", "*"], "2")
  {
    assert "2/(1-5)"[0] == '2' && "2/(1-5)"[1..] == "/(1-5)";
    assert "" + ['2'] == "2";
  }

  lemma DepartsFromPostfixPipelineLex6()
    ensures Elements.Lex("/(1-5)", true, ["3", "+", "4", "*"], "2") == Elements.Lex("(1-5)", true, ["3", "+", "4", "*", "2", "/"], "")
  {
    assert "/(1-5)"[0] == '/' && "/(1-5)"[1..] == "(1-5)";
    assert Elements.Flush(["3", "+", "4", "*"], "2") + ["/"] == ["3", "+", "4", "*", "2", "/"];
  }

  lemma DepartsFromPostfixPipelineLex7()
    ensures Elements.Lex("(1-5)", true, ["3", "+", "4", "*", "2", "/"], "") == Elements.Lex("1-5)", true, ["3", "+", "4", "*", "2", "/", "("], "")
  {
    assert "(1-5)"[0] == '(' && "(1-5)"[1..] == "1-5)";
    assert Elements.Flush(["3", "+", "4", "*", "2", "/"], "") + ["("] == ["3", "+", "4", "*", "2", "/", "("];
  }

  lemma DepartsFromPostfixPipelineLex8()
    ensures Elements.Lex("1-5)", true, ["3", "+", "4", "*", "2", "/", "("], "") == Elements.Lex("-5)", true, ["3", "+", "4", "*", "2", "/", "("], "1")
  {
    assert "1-5)"[0] == '1' && "1-5)"[1..] == "-5)";
    assert "" + ['1'] == "1";
  }

  lemma DepartsFromPostfixPipelineLex9()
    ensures Elements.Lex("-5)", true, ["3", "+", "4", "*", "2", "/", "("], "1") == Elements.Lex("5)", true, ["3", "+", "4", "*", "2", "/", "(", "1", "-"], "")
  {
    assert "-5)"[0] == '-' && "-5)"[1..] == "5)";
    assert Elements.Flush(["3", "+", "4", "*", "2", "/", "("], "1") + ["-"] == ["3", "+", "4", "*", "2", "/", "(", "1", "-"];
  }

  lemma DepartsFromPostfixPipelineLex10()
    ensures Elements.Lex("5)", true, ["3", "+", "4", "*", "2", "/", "(", "1", "-"], "") == Elements.Lex(")", true, ["3", "+", "4", "*", "2", "/", "(", "1", "-"], "5")
  {
    assert "5)"[0] == '5' && "5)"[1..] == ")";
    assert "" + ['5'] == "5";
  }

  lemma DepartsFromPostfixPipelineLex11()
    ensures Elements.Lex(")", true, ["3", "+", "4", "*", "2", "/", "(", "1", "-"], "5") == Elements.Lex("", true, ["3", "+", "4", "*", "2", "/", "(", "1", "-", "5", ")"], "")
  {
    assert ")"[0] == ')' && ")"[1..] == "";
    assert Elements.Flush(["3", "+", "4", "*", "2", "/", "(", "1", "-"], "5") + [")"] == ["3", "+", "4", "*", "2", "/", "(", "1", "-", "5", ")"];
  }

  lemma DepartsFromPostfixPipelineTokens12()
    ensures Calculator.ConvElem("3+4*2/(1-5)") == Success(["3", "+", "4", "*", "2", "/", "(", "1", "-", "5", ")"])
  {
    DepartsFromPostfixPipelineLex1();
    DepartsFromPostfixPipelineLex2();
    DepartsFromPostfixPipelineLex3();
    DepartsFromPostfixPipelineLex4();
    DepartsFromPostfixPipelineLex5();
    DepartsFromPostfixPipelineLex6();
    DepartsFromPostfixPipelineLex7();
    DepartsFromPostfixPipelineLex8();
    DepartsFromPostfixPipelineLex9();
    DepartsFromPostfixPipelineLex10();
    DepartsFromPostfixPipelineLex11();
    assert Elements.Flush(["3", "+", "4", "*", "2", "/", "(", "1", "-", "5", ")"], "") == ["3", "+", "4", "*", "2", "/", "(", "1", "-", "5", ")"];
    assert Elements.ConvElem("3+4*2/(1-5)", true) == Some(["3", "+", "4", "*", "2", "/", "(", "1", "-", "5", ")"]);
  }

  lemma DepartsFromPostfixPipelineStep13()
    ensures Infix.Step(Infix.Stacks([], []), "3") == Success(Infix.Stacks([3.0], []))
  {
    Numbers.ParseDigit('3');
    Infix.StepPushesNumber(Infix.Stacks([], []), "3");
    assert [] + [3.0] == [3.0];
  }

  lemma DepartsFromPostfixPipelineScan14()
    ensures Infix.Scan(["3", "+", "4", "*", "2", "/", "(", "1", "-", "5", ")"], Infix.Stacks([], [])) == Infix.Scan(["+", "4", "*", "2", "/", "(", "1", "-", "5", ")"], Infix.Stacks([3.0], []))
  {
    assert ["3", "+", "4", "*", "2", "/", "(", "1", "-", "5", ")"][0] == "3" && ["3", "+", "4", "*", "2", "/", "(", "1", "-", "5", ")"][1..] == ["+", "4", "*", "2", "/", "(", "1", "-", "5", ")"];
    DepartsFromPostfixPipelineStep13();
  }

  lemma DepartsFromPostfixPipelineStep15()
    ensures Infix.Step(Infix.Stacks([3.0], []), "+") == Success(Infix.Stacks([3.0], ["+"]))
  {
    Infix.StepPushesOperator(Infix.Stacks([3.0], []), "+");
    assert [] + ["+"] == ["+"];
  }

  lemma DepartsFromPostfixPipelineScan16()
    ensures Infix.Scan(["+", "4", "*", "2", "/", "(", "1", "-", "5", ")"], Infix.Stacks([3.0], [])) == Infix.Scan(["4", "*", "2", "/", "(", "1", "-", "5", ")"], Infix.Stacks([3.0], ["+"]))
  {
    assert ["+", "4", "*", "2", "/", "(", "1", "-", "5", ")"][0] == "+" && ["+", "4", "*", "2", "/", "(", "1", "-", "5", ")"][1..] == ["4", "*", "2", "/", "(", "1", "-", "5", ")"];
    DepartsFromPostfixPipelineStep15();
  }

  lemma DepartsFromPostfixPipelineStep17()
    ensures Infix.Step(Infix.Stacks([3.0], ["+"]), "4") == Success(Infix.Stacks([3.0, 4.0], ["+"]))
  {
    Numbers.ParseDigit('4');
    Infix.StepPushesNumber(Infix.Stacks([3.0], ["+"]), "4");
    assert [3.0] + [4.0] == [3.0, 4.0];
  }

  lemma DepartsFromPostfixPipelineScan18()
    ensures Infix.Scan(["4", "*", "2", "/", "(", "1", "-", "5", ")"], Infix.Stacks([3.0], ["+"])) == Infix.Scan(["*", "2", "/", "(", "1", "-", "5", ")"], Infix.Stacks([3.0, 4.0], ["+"]))
  {
    assert ["4", "*", "2", "/", "(", "1", "-", "5", ")"][0] == "4" && ["4", "*", "2", "/", "(", "1", "-", "5", ")"][1..] == ["*", "2", "/", "(", "1", "-", "5", ")"];
    DepartsFromPostfixPipelineStep17();
  }

  lemma DepartsFromPostfixPipelineStep19()
    ensures Infix.Step(Infix.Stacks([3.0, 4.0], ["+"]), "*") == Success(Infix.Stacks([3.0, 4.0], ["+", "*"]))
  {
    assert ["+"][0] == "+";
    Infix.StepPushesOperator(Infix.Stacks([3.0, 4.0], ["+"]), "*");
    assert ["+"] + ["*"] == ["+", "*"];
  }

  lemma DepartsFromPostfixPipelineScan20()
    ensures Infix.Scan(["*", "2", "/", "(", "1", "-", "5", ")"], Infix.Stacks([3.0, 4.0], ["+"])) == Infix.Scan(["2", "/", "(", "1", "-", "5", ")"], Infix.Stacks([3.0, 4.0], ["+", "*"]))
  {
    assert ["*", "2", "/", "(", "1", "-", "5", ")"][0] == "*" && ["*", "2", "/", "(", "1", "-", "5", ")"][1..] == ["2", "/", "(", "1", "-", "5", ")"];
    DepartsFromPostfixPipelineStep19();
  }

  lemma DepartsFromPostfixPipelineStep21()
    ensures Infix.Step(Infix.Stacks([3.0, 4.0], ["+", "*"]), "2") == Success(Infix.Stacks([3.0, 4.0, 2.0], ["+", "*"]))
  {
    Numbers.ParseDigit('2');
    Infix.StepPushesNumber(Infix.Stacks([3.0, 4.0], ["+", "*"]), "2");
    assert [3.0, 4.0] + [2.0] == [3.0, 4.0, 2.0];
  }

  lemma DepartsFromPostfixPipelineScan22()
    ensures Infix.Scan(["2", "/", "(", "1", "-", "5", ")"], Infix.Stacks([3.0, 4.0], ["+", "*"])) == Infix.Scan(["/", "(", "1", "-", "5", ")"], Infix.Stacks([3.0, 4.0, 2.0], ["+", "*"]))
  {
    assert ["2", "/", "(", "1", "-", "5", ")"][0] == "2" && ["2", "/", "(", "1", "-", "5", ")"][1..] == ["/", "(", "1", "-", "5", ")"];
    DepartsFromPostfixPipelineStep21();
  }

  lemma DepartsFromPostfixPipelineApply24()
    ensures Infix.Apply(Infix.Stacks([3.0, 4.0, 2.0], ["+", "*"])) == Success(Infix.Stacks([3.0, 8.0], ["+"]))
  {
    assert ["+", "*"][1] == "*";
    assert [3.0, 4.0, 2.0][..1] == [3.0];
    assert ["+", "*"][..1] == ["+"];
    assert [3.0] + [8.0] == [3.0, 8.0];
  }

  lemma DepartsFromPostfixPipelineApply25()
    ensures Infix.Apply(Infix.Stacks([3.0, 8.0], ["+"])) == Success(Infix.Stacks([11.0], []))
  {
    assert ["+"][0] == "+";
    assert [3.0, 8.0][..0] == [];
    assert ["+"][..0] == [];
    assert [] + [11.0] == [11.0];
  }

  lemma DepartsFromPostfixPipelineApplyAll26()
    ensures Infix.ApplyAll(Infix.Stacks([3.0, 4.0, 2.0], ["+", "*"])) == Success(Infix.Stacks([11.0], []))
  {
    assert ["+"][0] == "+";
    assert ["+", "*"][1] == "*";
    DepartsFromPostfixPipelineApply24();
    DepartsFromPostfixPipelineApply25();
  }

  lemma DepartsFromPostfixPipelineStep23()
    ensures Infix.Step(Infix.Stacks([3.0, 4.0, 2.0], ["+", "*"]), "/") == Success(Infix.Stacks([11.0], ["/"]))
  {
    Infix.StepAppliesAll(Infix.Stacks([3.0, 4.0, 2.0], ["+", "*"]), "/");
    DepartsFromPostfixPipelineApplyAll26();
    assert ["+", "*"][1] == "*";
    assert [] + ["/"] == ["/"];
  }

  lemma DepartsFromPostfixPipelineScan27()
    ensures Infix.Scan(["/", "(", "1", "-", "5", ")"], Infix.Stacks([3.0, 4.0, 2.0], ["+", "*"])) == Infix.Scan(["(", "1", "-", "5", ")"], Infix.Stacks([11.0], ["/"]))
  {
    assert ["/", "(", "1", "-", "5", ")"][0] == "/" && ["/", "(", "1", "-", "5", ")"][1..] == ["(", "1", "-", "5", ")"];
    DepartsFromPostfixPipelineStep23();
  }

  lemma DepartsFromPostfixPipelineStep28()
    ensures Infix.Step(Infix.Stacks([11.0], ["/"]), "(") == Success(Infix.Stacks([11.0], ["/", "("]))
  {
    Infix.StepOpens(Infix.Stacks([11.0], ["/"]));
    assert ["/"] + ["("] == ["/", "("];
  }

  lemma DepartsFromPostfixPipelineScan29()
    ensures Infix.Scan(["(", "1", "-", "5", ")"], Infix.Stacks([11.0], ["/"])) == Infix.Scan(["1", "-", "5", ")"], Infix.Stacks([11.0], ["/", "("]))
  {
    assert ["(", "1", "-", "5", ")"][0] == "(" && ["(", "1", "-", "5", ")"][1..] == ["1", "-", "5", ")"];
    DepartsFromPostfixPipelineStep28();
  }

  lemma DepartsFromPostfixPipelineStep30()
    ensures Infix.Step(Infix.Stacks([11.0], ["/", "("]), "1") == Success(Infix.Stacks([11.0, 1.0], ["/", "("]))
  {
    Numbers.ParseDigit('1');
    Infix.StepPushesNumber(Infix.Stacks([11.0], ["/", "("]), "1");
    assert [11.0] + [1.0] == [11.0, 1.0];
  }

  lemma DepartsFromPostfixPipelineScan31()
    ensures Infix.Scan(["1", "-", "5", ")"], Infix.Stacks([11.0], ["/", "("])) == Infix.Scan(["-", "5", ")"], Infix.Stacks([11.0, 1.0], ["/", "("]))
  {
    assert ["1", "-", "5", ")"][0] == "1" && ["1", "-", "5", ")"][1..] == ["-", "5", ")"];
    DepartsFromPostfixPipelineStep30();
  }

  lemma DepartsFromPostfixPipelineStep32()
    ensures Infix.Step(Infix.Stacks([11.0, 1.0], ["/", "("]), "-") == Success(Infix.Stacks([11.0, 1.0], ["/", "(", "-"]))
  {
    assert ["/", "("][1] == "(";
    Infix.StepPushesOperator(Infix.Stacks([11.0, 1.0], ["/", "("]), "-");
    assert ["/", "("] + ["-"] == ["/", "(", "-"];
  }

  lemma DepartsFromPostfixPipelineScan33()
    ensures Infix.Scan(["-", "5", ")"], Infix.Stacks([11.0, 1.0], ["/", "("])) == Infix.Scan(["5", ")"], Infix.Stacks([11.0, 1.0], ["/", "(", "-"]))
  {
    assert ["-", "5", ")"][0] == "-" && ["-", "5", ")"][1..] == ["5", ")"];
    DepartsFromPostfixPipelineStep32();
  }

  lemma DepartsFromPostfixPipelineStep34()
    ensures Infix.Step(Infix.Stacks([11.0, 1.0], ["/", "(", "-"]), "5") == Success(Infix.Stacks([11.0, 1.0, 5.0], ["/", "(", "-"]))
  {
    Numbers.ParseDigit('5');
    Infix.StepPushesNumber(Infix.Stacks([11.0, 1.0], ["/", "(", "-"]), "5");
    assert [11.0, 1.0] + [5.0] == [11.0, 1.0, 5.0];
  }

  lemma DepartsFromPostfixPipelineScan35()
    ensures Infix.Scan(["5", ")"], Infix.Stacks([11.0, 1.0], ["/", "(", "-"])) == Infix.Scan([")"], Infix.Stacks([11.0, 1.0, 5.0], ["/", "(", "-"]))
  {
    assert ["5", ")"][0] == "5" && ["5", ")"][1..] == [")"];
    DepartsFromPostfixPipelineStep34();
  }

  lemma DepartsFromPostfixPipelineApply37()
    ensures Infix.Apply(Infix.Stacks([11.0, 1.0, 5.0], ["/", "(", "-"])) == Success(Infix.Stacks([11.0, -4.0], ["/", "("]))
  {
    assert ["/", "(", "-"][2] == "-";
    assert [11.0, 1.0, 5.0][..1] == [11.0];
    assert ["/", "(", "-"][..2] == ["/", "("];
    assert [11.0] + [-4.0] == [11.0, -4.0];
  }

  lemma DepartsFromPostfixPipelineCloseParen38()
    ensures Infix.CloseParen(Infix.Stacks([11.0, 1.0, 5.0], ["/", "(", "-"])) == Success(Infix.Stacks([11.0, -4.0], ["/"]))
  {
    assert ["/", "("][1] == "(";
    assert ["/", "(", "-"][2] == "-";
    DepartsFromPostfixPipelineApply37();
    assert ["/", "("][..1] == ["/"];
  }

  lemma DepartsFromPostfixPipelineStep36()
    ensures Infix.Step(Infix.Stacks([11.0, 1.0, 5.0], ["/", "(", "-"]), ")") == Success(Infix.Stacks([11.0, -4.0], ["/"]))
  {
    Infix.StepCloses(Infix.Stacks([11.0, 1.0, 5.0], ["/", "(", "-"]));
    DepartsFromPostfixPipelineCloseParen38();
  }

  lemma DepartsFromPostfixPipelineScan39()
    ensures Infix.Scan([")"], Infix.Stacks([11.0, 1.0, 5.0], ["/", "(", "-"])) == Infix.Scan([], Infix.Stacks([11.0, -4.0], ["/"]))
  {
    assert [")"][0] == ")" && [")"][1..] == [];
    DepartsFromPostfixPipelineStep36();
  }

  lemma DepartsFromPostfixPipelineApply40()
    ensures Infix.Apply(Infix.Stacks([11.0, -4.0], ["/"])) == Success(Infix.Stacks([-2.75], []))
  {
    assert ["/"][0] == "/";
    assert [11.0, -4.0][..0] == [];
    assert ["/"][..0] == [];
    assert [] + [-2.75] == [-2.75];
  }

  lemma DepartsFromPostfixPipelineDrain41()
    ensures Infix.Drain(Infix.Stacks([11.0, -4.0], ["/"])) == Success(Infix.Stacks([-2.75], []))
  {
    assert ["/"][0] == "/";
    DepartsFromPostfixPipelineApply40();
  }

  lemma DepartsFromPostfixPipelineEvaluate42()
    ensures Infix.Evaluate(["3", "+", "4", "*", "2", "/", "(", "1", "-", "5", ")"]) == Success(-2.75)
  {
    DepartsFromPostfixPipelineScan14();
    DepartsFromPostfixPipelineScan16();
    DepartsFromPostfixPipelineScan18();
    DepartsFromPostfixPipelineScan20();
    DepartsFromPostfixPipelineScan22();
    DepartsFromPostfixPipelineScan27();
    DepartsFromPostfixPipelineScan29();
    DepartsFromPostfixPipelineScan31();
    DepartsFromPostfixPipelineScan33();
    DepartsFromPostfixPipelineScan35();
    DepartsFromPostfixPipelineScan39();
    DepartsFromPostfixPipelineDrain41();
  }

  lemma UnopenedParenthesisPanicsLex1()
    ensures Elements.Lex("1+2)", true, [], "") == Elements.Lex("+2)", true, [], "1")
  {
    assert "1+2)"[0] == '1' && "1+2)"[1..] == "+2)";
    assert "" + ['1'] == "1";
  }

  lemma UnopenedParenthesisPanicsLex2()
    ensures Elements.Lex("+2)", true, [], "1") == Elements.Lex("2)", true, ["1", "+"], "")
  {
    assert "+2)"[0] == '+' && "+2)"[1..] == "2)";
    assert Elements.Flush([], "1") + ["+"] == ["1", "+"];
  }

  lemma UnopenedParenthesisPanicsLex3()
    ensures Elements.Lex("2)", true, ["1", "+"], "") == Elements.Lex(")", true, ["1", "+"], "2")
  {
    assert "2)"[0] == '2' && "2)"[1..] == ")";
    assert "" + ['2'] == "2";
  }

  lemma UnopenedParenthesisPanicsLex4()
    ensures Elements.Lex(")", true, ["1", "+"], "2") == Elements.Lex("", true, ["1", "+", "2", ")"], "")
  {
    assert ")"[0] == ')' && ")"[1..] == "";
    assert Elements.Flush(["1", "+"], "2") + [")"] == ["1", "+", "2", ")"];
  }

  lemma UnopenedParenthesisPanicsTokens5()
    ensures Calculator.ConvElem("1+2)") == Success(["1", "+", "2", ")"])
  {
    UnopenedParenthesisPanicsLex1();
    UnopenedParenthesisPanicsLex2();
    UnopenedParenthesisPanicsLex3();
    UnopenedParenthesisPanicsLex4();
    assert Elements.Flush(["1", "+", "2", ")"], "") == ["1", "+", "2", ")"];
    assert Elements.ConvElem("1+2)", true) == Some(["1", "+", "2", ")"]);
  }

  lemma UnopenedParenthesisPanicsStep6()
    ensures Infix.Step(Infix.Stacks([], []), "1") == Success(Infix.Stacks([1.0], []))
  {
    Numbers.ParseDigit('1');
    Infix.StepPushesNumber(Infix.Stacks([], []), "1");
    assert [] + [1.0] == [1.0];
  }

  lemma UnopenedParenthesisPanicsScan7()
    ensures Infix.Scan(["1", "+", "2", ")"], Infix.Stacks([], [])) == Infix.Scan(["+", "2", ")"], Infix.Stacks([1.0], []))
  {
    assert ["1", "+", "2", ")"][0] == "1" && ["1", "+", "2", ")"][1..] == ["+", "2", ")"];
    UnopenedParenthesisPanicsStep6();
  }

  lemma UnopenedParenthesisPanicsStep8()
    ensures Infix.Step(Infix.Stacks([1.0], []), "+") == Success(Infix.Stacks([1.0], ["+"]))
  {
    Infix.StepPushesOperator(Infix.Stacks([1.0], []), "+");
    assert [] + ["+"] == ["+"];
  }

  lemma UnopenedParenthesisPanicsScan9()
    ensures Infix.Scan(["+", "2", ")"], Infix.Stacks([1.0], [])) == Infix.Scan(["2", ")"], Infix.Stacks([1.0], ["+"]))
  {
    assert ["+", "2", ")"][0] == "+" && ["+", "2", ")"][1..] == ["2", ")"];
    UnopenedParenthesisPanicsStep8();
  }

  lemma UnopenedParenthesisPanicsStep10()
    ensures Infix.Step(Infix.Stacks([1.0], ["+"]), "2") == Success(Infix.Stacks([1.0, 2.0], ["+"]))
  {
    Numbers.ParseDigit('2');
    Infix.StepPushesNumber(Infix.Stacks([1.0], ["+"]), "2");
    assert [1.0] + [2.0] == [1.0, 2.0];
  }

  lemma UnopenedParenthesisPanicsScan11()
    ensures Infix.Scan(["2", ")"], Infix.Stacks([1.0], ["+"])) == Infix.Scan([")"], Infix.Stacks([1.0, 2.0], ["+"]))
  {
    assert ["2", ")"][0] == "2" && ["2", ")"][1..] == [")"];
    UnopenedParenthesisPanicsStep10();
  }

  lemma UnopenedParenthesisPanicsApply13()
    ensures Infix.Apply(Infix.Stacks([1.0, 2.0], ["+"])) == Success(Infix.Stacks([3.0], []))
  {
    assert ["+"][0] == "+";
    assert [1.0, 2.0][..0] == [];
    assert ["+"][..0] == [];
    assert [] + [3.0] == [3.0];
  }

  lemma UnopenedParenthesisPanicsCloseParen14()
    ensures Infix.CloseParen(Infix.Stacks([1.0, 2.0], ["+"])) == Failure(Infix.Panic)
  {
    assert ["+"][0] == "+";
    UnopenedParenthesisPanicsApply13();
  }

  lemma UnopenedParenthesisPanicsStep12()
    ensures Infix.Step(Infix.Stacks([1.0, 2.0], ["+"]), ")") == Failure(Infix.Panic)
  {
    Infix.StepCloses(Infix.Stacks([1.0, 2.0], ["+"]));
    UnopenedParenthesisPanicsCloseParen14();
  }

  lemma UnopenedParenthesisPanicsScan15()
    ensures Infix.Scan([")"], Infix.Stacks([1.0, 2.0], ["+"])) == Failure(Infix.Panic)
  {
    assert [")"][0] == ")" && [")"][1..] == [];
    UnopenedParenthesisPanicsStep12();
  }

  lemma UnopenedParenthesisPanicsEvaluate16()
    ensures Infix.Evaluate(["1", "+", "2", ")"]) == Failure(Infix.Panic)
  {
    UnopenedParenthesisPanicsScan7();
    UnopenedParenthesisPanicsScan9();
    UnopenedParenthesisPanicsScan11();
    UnopenedParenthesisPanicsScan15();
  }
}
