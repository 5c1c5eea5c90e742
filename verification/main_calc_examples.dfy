/** Evaluations of Calc in main.go, including the characters it drops and
    the tokens it reports as unknown. Each evaluation is spelled out one token
    at a time in small steps. */
module MainCalcExamples {
  import opened Wrappers
  import MainCalc
  import Elements
  import Infix
  import Numbers
  import Text

  /** "1.2.3" has two dots, so it is not a number, and it is no operator. */
  lemma NotANumber()
    ensures Numbers.ParseFloat("1.2.3") == None && !Infix.InOperators("1.2.3")
  {
    var t := "1.2.3";
    assert t[1..] == ".2.3" && ".2.3"[1..] == "2.3" && "2.3"[1..] == ".3" && ".3"[1..] == "3";
    assert Text.Count(".3", '.') >= 1;
    assert Text.Count(t, '.') >= 2;
  }

  /** "1u*2" is 2: the letter is dropped. */
  lemma DropsLetter()
    ensures MainCalc.Calc("1u*2") == Success(2.0)
  {
    DropsLetterTokens5();
    DropsLetterEvaluate14();
  }

  /** "1.2.3" is one token that is not a number. */
  lemma ReportsUnknownToken()
    ensures MainCalc.Calc("1.2.3") == Failure(MainCalc.UnknownSymbol("1.2.3"))
  {
    ReportsUnknownTokenTokens6();
    ReportsUnknownTokenEvaluate9();
  }

  /** "(1" leaves a "(" behind. */
  lemma ReportsUnclosedBracket()
    ensures MainCalc.Calc("(1") == Failure(MainCalc.BracketMismatch)
  {
    ReportsUnclosedBracketTokens3();
    ReportsUnclosedBracketEvaluate9();
  }

  /** "1+1*" is malformed. */
  lemma ReportsTrailingOperator()
    ensures MainCalc.Calc("1+1*") == Failure(MainCalc.Malformed)
  {
    ReportsTrailingOperatorTokens5();
    ReportsTrailingOperatorEvaluate17();
  }

  /** "2/0" divides by zero. */
  lemma ReportsZeroDivisor()
    ensures MainCalc.Calc("2/0") == Failure(MainCalc.ZeroDivision)
  {
    ReportsZeroDivisorTokens4();
    ReportsZeroDivisorEvaluate13();
  }

  /** The empty text is malformed. */
  lemma ReportsEmpty()
    ensures MainCalc.Calc("") == Failure(MainCalc.Malformed)
  {
    ReportsEmptyTokens1();
    ReportsEmptyEvaluate3();
  }

  // The steps.

  lemma DropsLetterLex1()
    ensures Elements.Lex("1u*2", false, [], "") == Elements.Lex("u*2", false, [], "1")
  {
    assert "1u*2"[0] == '1' && "1u*2"[1..] == "u*2";
    assert "" + ['1'] == "1";
  }

  lemma DropsLetterLex2()
    ensures Elements.Lex("u*2", false, [], "1") == Elements.Lex("*2", false, ["1"], "")
  {
    assert "u*2"[0] == 'u' && "u*2"[1..] == "*2";
    assert Elements.Flush([], "1") == ["1"];
  }

  lemma DropsLetterLex3()
    ensures Elements.Lex("*2", false, ["1"], "") == Elements.Lex("2", false, ["1", "*"], "")
  {
    assert "*2"[0] == '*' && "*2"[1..] == "2";
    assert Elements.Flush(["1"], "") + ["*"] == ["1", "*"];
  }

  lemma DropsLetterLex4()
    ensures Elements.Lex("2", false, ["1", "*"], "") == Elements.Lex("", false, ["1", "*"], "2")
  {
    assert "2"[0] == '2' && "2"[1..] == "";
    assert "" + ['2'] == "2";
  }

  lemma DropsLetterTokens5()
    ensures MainCalc.ConvElem("1u*2") == ["1", "*", "2"]
  {
    DropsLetterLex1();
    DropsLetterLex2();
    DropsLetterLex3();
    DropsLetterLex4();
    assert Elements.Flush(["1", "*"], "2") == ["1", "*", "2"];
    assert Elements.ConvElem("1u*2", false) == Some(["1", "*", "2"]);
  }

  lemma DropsLetterStep6()
    ensures Infix.Step(Infix.Stacks([], []), "1") == Success(Infix.Stacks([1.0], []))
  {
    Numbers.ParseDigit('1');
    Infix.StepPushesNumber(Infix.Stacks([], []), "1");
    assert [] + [1.0] == [1.0];
  }

  lemma DropsLetterScan7()
    ensures Infix.Scan(["1", "*", "2"], Infix.Stacks([], [])) == Infix.Scan(["*", "2"], Infix.Stacks([1.0], []))
  {
    assert ["1", "*", "2"][0] == "1" && ["1", "*", "2"][1..] == ["*", "2"];
    DropsLetterStep6();
  }

  lemma DropsLetterStep8()
    ensures Infix.Step(Infix.Stacks([1.0], []), "*") == Success(Infix.Stacks([1.0], ["*"]))
  {
    Infix.StepPushesOperator(Infix.Stacks([1.0], []), "*");
    assert [] + ["*"] == ["*"];
  }

  lemma DropsLetterScan9()
    ensures Infix.Scan(["*", "2"], Infix.Stacks([1.0], [])) == Infix.Scan(["2"], Infix.Stacks([1.0], ["*"]))
  {
    assert ["*", "2"][0] == "*" && ["*", "2"][1..] == ["2"];
    DropsLetterStep8();
  }

  lemma DropsLetterStep10()
    ensures Infix.Step(Infix.Stacks([1.0], ["*"]), "2") == Success(Infix.Stacks([1.0, 2.0], ["*"]))
  {
    Numbers.ParseDigit('2');
    Infix.StepPushesNumber(Infix.Stacks([1.0], ["*"]), "2");
    assert [1.0] + [2.0] == [1.0, 2.0];
  }

  lemma DropsLetterScan11()
    ensures Infix.Scan(["2"], Infix.Stacks([1.0], ["*"])) == Infix.Scan([], Infix.Stacks([1.0, 2.0], ["*"]))
  {
    assert ["2"][0] == "2" && ["2"][1..] == [];
    DropsLetterStep10();
  }

  lemma DropsLetterApply12()
    ensures Infix.Apply(Infix.Stacks([1.0, 2.0], ["*"])) == Success(Infix.Stacks([2.0], []))
  {
    assert ["*"][0] == "*";
    assert [1.0, 2.0][..0] == [];
    assert ["*"][..0] == [];
    assert [] + [2.0] == [2.0];
  }

  lemma DropsLetterDrain13()
    ensures Infix.Drain(Infix.Stacks([1.0, 2.0], ["*"])) == Success(Infix.Stacks([2.0], []))
  {
    assert ["*"][0] == "*";
    DropsLetterApply12();
  }

  lemma DropsLetterEvaluate14()
    ensures Infix.Evaluate(["1", "*", "2"]) == Success(2.0)
  {
    DropsLetterScan7();
    DropsLetterScan9();
    DropsLetterScan11();
    DropsLetterDrain13();
  }

  lemma ReportsUnknownTokenLex1()
    ensures Elements.Lex("1.2.3", false, [], "") == Elements.Lex(".2.3", false, [], "1")
  {
    assert "1.2.3"[0] == '1' && "1.2.3"[1..] == ".2.3";
    assert "" + ['1'] == "1";
  }

  lemma ReportsUnknownTokenLex2()
    ensures Elements.Lex(".2.3", false, [], "1") == Elements.Lex("2.3", false, [], "1.")
  {
    assert ".2.3"[0] == '.' && ".2.3"[1..] == "2.3";
    assert "1" + ['.'] == "1.";
  }

  lemma ReportsUnknownTokenLex3()
    ensures Elements.Lex("2.3", false, [], "1.") == Elements.Lex(".3", false, [], "1.2")
  {
    assert "2.3"[0] == '2' && "2.3"[1..] == ".3";
    assert "1." + ['2'] == "1.2";
  }

  lemma ReportsUnknownTokenLex4()
    ensures Elements.Lex(".3", false, [], "1.2") == Elements.Lex("3", false, [], "1.2.")
  {
    assert ".3"[0] == '.' && ".3"[1..] == "3";
    assert "1.2" + ['.'] == "1.2.";
  }

  lemma ReportsUnknownTokenLex5()
    ensures Elements.Lex("3", false, [], "1.2.") == Elements.Lex("", false, [], "1.2.3")
  {
    assert "3"[0] == '3' && "3"[1..] == "";
    assert "1.2." + ['3'] == "1.2.3";
  }

  lemma ReportsUnknownTokenTokens6()
    ensures MainCalc.ConvElem("1.2.3") == ["1.2.3"]
  {
    ReportsUnknownTokenLex1();
    ReportsUnknownTokenLex2();
    ReportsUnknownTokenLex3();
    ReportsUnknownTokenLex4();
    ReportsUnknownTokenLex5();
    assert Elements.Flush([], "1.2.3") == ["1.2.3"];
    assert Elements.ConvElem("1.2.3", false) == Some(["1.2.3"]);
  }

  lemma ReportsUnknownTokenStep7()
    ensures Infix.Step(Infix.Stacks([], []), "1.2.3") == Failure(Infix.UnknownToken("1.2.3"))
  {
    NotANumber();
  }

  lemma ReportsUnknownTokenScan8()
    ensures Infix.Scan(["1.2.3"], Infix.Stacks([], [])) == Failure(Infix.UnknownToken("1.2.3"))
  {
    assert ["1.2.3"][0] == "1.2.3" && ["1.2.3"][1..] == [];
    ReportsUnknownTokenStep7();
  }

  lemma ReportsUnknownTokenEvaluate9()
    ensures Infix.Evaluate(["1.2.3"]) == Failure(Infix.UnknownToken("1.2.3"))
  {
    ReportsUnknownTokenScan8();
  }

  lemma ReportsUnclosedBracketLex1()
    ensures Elements.Lex("(1", false, [], "") == Elements.Lex("1", false, ["("], "")
  {
    assert "(1"[0] == '(' && "(1"[1..] == "1";
    assert Elements.Flush([], "") + ["("] == ["("];
  }

  lemma ReportsUnclosedBracketLex2()
    ensures Elements.Lex("1", false, ["("], "") == Elements.Lex("", false, ["("], "1")
  {
    assert "1"[0] == '1' && "1"[1..] == "";
    assert "" + ['1'] == "1";
  }

  lemma ReportsUnclosedBracketTokens3()
    ensures MainCalc.ConvElem("(1") == ["(", "1"]
  {
    ReportsUnclosedBracketLex1();
    ReportsUnclosedBracketLex2();
    assert Elements.Flush(["("], "1") == ["(", "1"];
    assert Elements.ConvElem("(1", false) == Some(["(", "1"]);
  }

  lemma ReportsUnclosedBracketStep4()
    ensures Infix.Step(Infix.Stacks([], []), "(") == Success(Infix.Stacks([], ["("]))
  {
    Infix.StepOpens(Infix.Stacks([], []));
    assert [] + ["("] == ["("];
  }

  lemma ReportsUnclosedBracketScan5()
    ensures Infix.Scan(["(", "1"], Infix.Stacks([], [])) == Infix.Scan(["1"], Infix.Stacks([], ["("]))
  {
    assert ["(", "1"][0] == "(" && ["(", "1"][1..] == ["1"];
    ReportsUnclosedBracketStep4();
  }

  lemma ReportsUnclosedBracketStep6()
    ensures Infix.Step(Infix.Stacks([], ["("]), "1") == Success(Infix.Stacks([1.0], ["("]))
  {
    Numbers.ParseDigit('1');
    Infix.StepPushesNumber(Infix.Stacks([], ["("]), "1");
    assert [] + [1.0] == [1.0];
  }

  lemma ReportsUnclosedBracketScan7()
    ensures Infix.Scan(["1"], Infix.Stacks([], ["("])) == Infix.Scan([], Infix.Stacks([1.0], ["("]))
  {
    assert ["1"][0] == "1" && ["1"][1..] == [];
    ReportsUnclosedBracketStep6();
  }

  lemma ReportsUnclosedBracketDrain8()
    ensures Infix.Drain(Infix.Stacks([1.0], ["("])) == Failure(Infix.Unmatched)
  {
    assert ["("][0] == "(";
  }

  lemma ReportsUnclosedBracketEvaluate9()
    ensures Infix.Evaluate(["(", "1"]) == Failure(Infix.Unmatched)
  {
    ReportsUnclosedBracketScan5();
    ReportsUnclosedBracketScan7();
    ReportsUnclosedBracketDrain8();
  }

  lemma ReportsTrailingOperatorLex1()
    ensures Elements.Lex("1+1*", false, [], "") == Elements.Lex("+1*", false, [], "1")
  {
    assert "1+1*"[0] == '1' && "1+1*"[1..] == "+1*";
    assert "" + ['1'] == "1";
  }

  lemma ReportsTrailingOperatorLex2()
    ensures Elements.Lex("+1*", false, [], "1") == Elements.Lex("1*", false, ["1", "+"], "")
  {
    assert "+1*"[0] == '+' && "+1*"[1..] == "1*";
    assert Elements.Flush([], "1") + ["+"] == ["1", "+"];
  }

  lemma ReportsTrailingOperatorLex3()
    ensures Elements.Lex("1*", false, ["1", "+"], "") == Elements.Lex("*", false, ["1", "+"], "1")
  {
    assert "1*"[0] == '1' && "1*"[1..] == "*";
    assert "" + ['1'] == "1";
  }

  lemma ReportsTrailingOperatorLex4()
    ensures Elements.Lex("*", false, ["1", "+"], "1") == Elements.Lex("", false, ["1", "+", "1", "*"], "")
  {
    assert "*"[0] == '*' && "*"[1..] == "";
    assert Elements.Flush(["1", "+"], "1") + ["*"] == ["1", "+", "1", "*"];
  }

  lemma ReportsTrailingOperatorTokens5()
    ensures MainCalc.ConvElem("1+1*") == ["1", "+", "1", "*"]
  {
    ReportsTrailingOperatorLex1();
    ReportsTrailingOperatorLex2();
    ReportsTrailingOperatorLex3();
    ReportsTrailingOperatorLex4();
    assert Elements.Flush(["1", "+", "1", "*"], "") == ["1", "+", "1", "*"];
    assert Elements.ConvElem("1+1*", false) == Some(["1", "+", "1", "*"]);
  }

  lemma ReportsTrailingOperatorStep6()
    ensures Infix.Step(Infix.Stacks([], []), "1") == Success(Infix.Stacks([1.0], []))
  {
    Numbers.ParseDigit('1');
    Infix.StepPushesNumber(Infix.Stacks([], []), "1");
    assert [] + [1.0] == [1.0];
  }

  lemma ReportsTrailingOperatorScan7()
    ensures Infix.Scan(["1", "+", "1", "*"], Infix.Stacks([], [])) == Infix.Scan(["+", "1", "*"], Infix.Stacks([1.0], []))
  {
    assert ["1", "+", "1", "*"][0] == "1" && ["1", "+", "1", "*"][1..] == ["+", "1", "*"];
    ReportsTrailingOperatorStep6();
  }

  lemma ReportsTrailingOperatorStep8()
    ensures Infix.Step(Infix.Stacks([1.0], []), "+") == Success(Infix.Stacks([1.0], ["+"]))
  {
    Infix.StepPushesOperator(Infix.Stacks([1.0], []), "+");
    assert [] + ["+"] == ["+"];
  }

  lemma ReportsTrailingOperatorScan9()
    ensures Infix.Scan(["+", "1", "*"], Infix.Stacks([1.0], [])) == Infix.Scan(["1", "*"], Infix.Stacks([1.0], ["+"]))
  {
    assert ["+", "1", "*"][0] == "+" && ["+", "1", "*"][1..] == ["1", "*"];
    ReportsTrailingOperatorStep8();
  }

  lemma ReportsTrailingOperatorStep10()
    ensures Infix.Step(Infix.Stacks([1.0], ["+"]), "1") == Success(Infix.Stacks([1.0, 1.0], ["+"]))
  {
    Numbers.ParseDigit('1');
    Infix.StepPushesNumber(Infix.Stacks([1.0], ["+"]), "1");
    assert [1.0] + [1.0] == [1.0, 1.0];
  }

  lemma ReportsTrailingOperatorScan11()
    ensures Infix.Scan(["1", "*"], Infix.Stacks([1.0], ["+"])) == Infix.Scan(["*"], Infix.Stacks([1.0, 1.0], ["+"]))
  {
    assert ["1", "*"][0] == "1" && ["1", "*"][1..] == ["*"];
    ReportsTrailingOperatorStep10();
  }

  lemma ReportsTrailingOperatorStep12()
    ensures Infix.Step(Infix.Stacks([1.0, 1.0], ["+"]), "*") == Success(Infix.Stacks([1.0, 1.0], ["+", "*"]))
  {
    assert ["+"][0] == "+";
    Infix.StepPushesOperator(Infix.Stacks([1.0, 1.0], ["+"]), "*");
    assert ["+"] + ["*"] == ["+", "*"];
  }

  lemma ReportsTrailingOperatorScan13()
    ensures Infix.Scan(["*"], Infix.Stacks([1.0, 1.0], ["+"])) == Infix.Scan([], Infix.Stacks([1.0, 1.0], ["+", "*"]))
  {
    assert ["*"][0] == "*" && ["*"][1..] == [];
    ReportsTrailingOperatorStep12();
  }

  lemma ReportsTrailingOperatorApply14()
    ensures Infix.Apply(Infix.Stacks([1.0, 1.0], ["+", "*"])) == Success(Infix.Stacks([1.0], ["+"]))
  {
    assert ["+", "*"][1] == "*";
    assert [1.0, 1.0][..0] == [];
    assert ["+", "*"][..1] == ["+"];
    assert [] + [1.0] == [1.0];
  }

  lemma ReportsTrailingOperatorApply15()
    ensures Infix.Apply(Infix.Stacks([1.0], ["+"])) == Failure(Infix.TooFewOperands)
  {
  }

  lemma ReportsTrailingOperatorDrain16()
    ensures Infix.Drain(Infix.Stacks([1.0, 1.0], ["+", "*"])) == Failure(Infix.TooFewOperands)
  {
    assert ["+"][0] == "+";
    assert ["+", "*"][1] == "*";
    ReportsTrailingOperatorApply14();
    ReportsTrailingOperatorApply15();
  }

  lemma ReportsTrailingOperatorEvaluate17()
    ensures Infix.Evaluate(["1", "+", "1", "*"]) == Failure(Infix.TooFewOperands)
  {
    ReportsTrailingOperatorScan7();
    ReportsTrailingOperatorScan9();
    ReportsTrailingOperatorScan11();
    ReportsTrailingOperatorScan13();
    ReportsTrailingOperatorDrain16();
  }

  lemma ReportsZeroDivisorLex1()
    ensures Elements.Lex("2/0", false, [], "") == Elements.Lex("/0", false, [], "2")
  {
    assert "2/0"[0] == '2' && "2/0"[1..] == "/0";
    assert "" + ['2'] == "2";
  }

  lemma ReportsZeroDivisorLex2()
    ensures Elements.Lex("/0", false, [], "2") == Elements.Lex("0", false, ["2", "/"], "")
  {
    assert "/0"[0] == '/' && "/0"[1..] == "0";
    assert Elements.Flush([], "2") + ["/"] == ["2", "/"];
  }

  lemma ReportsZeroDivisorLex3()
    ensures Elements.Lex("0", false, ["2", "/"], "") == Elements.Lex("", false, ["2", "/"], "0")
  {
    assert "0"[0] == '0' && "0"[1..] == "";
    assert "" + ['0'] == "0";
  }

  lemma ReportsZeroDivisorTokens4()
    ensures MainCalc.ConvElem("2/0") == ["2", "/", "0"]
  {
    ReportsZeroDivisorLex1();
    ReportsZeroDivisorLex2();
    ReportsZeroDivisorLex3();
    assert Elements.Flush(["2", "/"], "0") == ["2", "/", "0"];
    assert Elements.ConvElem("2/0", false) == Some(["2", "/", "0"]);
  }

  lemma ReportsZeroDivisorStep5()
    ensures Infix.Step(Infix.Stacks([], []), "2") == Success(Infix.Stacks([2.0], []))
  {
    Numbers.ParseDigit('2');
    Infix.StepPushesNumber(Infix.Stacks([], []), "2");
    assert [] + [2.0] == [2.0];
  }

  lemma ReportsZeroDivisorScan6()
    ensures Infix.Scan(["2", "/", "0"], Infix.Stacks([], [])) == Infix.Scan(["/", "0"], Infix.Stacks([2.0], []))
  {
    assert ["2", "/", "0"][0] == "2" && ["2", "/", "0"][1..] == ["/", "0"];
    ReportsZeroDivisorStep5();
  }

  lemma ReportsZeroDivisorStep7()
    ensures Infix.Step(Infix.Stacks([2.0], []), "/") == Success(Infix.Stacks([2.0], ["/"]))
  {
    Infix.StepPushesOperator(Infix.Stacks([2.0], []), "/");
    assert [] + ["/"] == ["/"];
  }

  lemma ReportsZeroDivisorScan8()
    ensures Infix.Scan(["/", "0"], Infix.Stacks([2.0], [])) == Infix.Scan(["0"], Infix.Stacks([2.0], ["/"]))
  {
    assert ["/", "0"][0] == "/" && ["/", "0"][1..] == ["0"];
    ReportsZeroDivisorStep7();
  }

  lemma ReportsZeroDivisorStep9()
    ensures Infix.Step(Infix.Stacks([2.0], ["/"]), "0") == Success(Infix.Stacks([2.0, 0.0], ["/"]))
  {
    Numbers.ParseDigit('0');
    Infix.StepPushesNumber(Infix.Stacks([2.0], ["/"]), "0");
    assert [2.0] + [0.0] == [2.0, 0.0];
  }

  lemma ReportsZeroDivisorScan10()
    ensures Infix.Scan(["0"], Infix.Stacks([2.0], ["/"])) == Infix.Scan([], Infix.Stacks([2.0, 0.0], ["/"]))
  {
    assert ["0"][0] == "0" && ["0"][1..] == [];
    ReportsZeroDivisorStep9();
  }

  lemma ReportsZeroDivisorApply11()
    ensures Infix.Apply(Infix.Stacks([2.0, 0.0], ["/"])) == Failure(Infix.DivisionByZero)
  {
    assert ["/"][0] == "/";
  }

  lemma ReportsZeroDivisorDrain12()
    ensures Infix.Drain(Infix.Stacks([2.0, 0.0], ["/"])) == Failure(Infix.DivisionByZero)
  {
    assert ["/"][0] == "/";
    ReportsZeroDivisorApply11();
  }

  lemma ReportsZeroDivisorEvaluate13()
    ensures Infix.Evaluate(["2", "/", "0"]) == Failure(Infix.DivisionByZero)
  {
    ReportsZeroDivisorScan6();
    ReportsZeroDivisorScan8();
    ReportsZeroDivisorScan10();
    ReportsZeroDivisorDrain12();
  }

  lemma ReportsEmptyTokens1()
    ensures MainCalc.ConvElem("") == []
  {
    assert Elements.Flush([], "") == [];
    assert Elements.ConvElem("", false) == Some([]);
  }

  lemma ReportsEmptyDrain2()
    ensures Infix.Drain(Infix.Stacks([], [])) == Success(Infix.Stacks([], []))
  {
  }

  lemma ReportsEmptyEvaluate3()
    ensures Infix.Evaluate([]) == Failure(Infix.NotSingle)
  {
    ReportsEmptyDrain2();
  }
}
