/** The earlier parser of internal/orchestrator/parser.go. Its validation runs
    the same checks as the current one except the search for two dots with only
    digits between them, and every failure is the same empty-message error.
    Its conversion loop is the current one, character for character. */
module LegacyParser {
  import opened Wrappers
  import opened Text
  import opened Validator
  import Errors
  import Converter
  import ConverterExamples
  import ShuntingYard

  /** The one error the legacy parser reports: `errors.New("")`. */
  const Rejected: string := ""

  /** ValidateExpression: spaces are removed, then each check runs in turn. */
  function ValidateExpression(expr: string): (r: Outcome<string>)
    ensures r == Pass || r == Fail(Rejected)
  {
    var e := StripSpaces(expr);
    if e == [] then Fail(Rejected)
    else if !AllAllowed(e) then Fail(Rejected)
    else if !IsBracketsBalanced(e) then Fail(Rejected)
    else if IsOperator(e[0]) || IsOperator(e[|e| - 1]) then Fail(Rejected)
    else if HasAdjacentOperators(e) then Fail(Rejected)
    else if EndsWithDivisionByZero(e) then Fail(Rejected)
    else Pass
  }

  /** The legacy checks stated with quantifiers: the current syntax
      conditions without the one about dots. */
  ghost predicate LegacySyntaxOk(e: string) {
    && e != []
    && (forall i :: 0 <= i < |e| ==> IsAllowed(e[i]))
    && Balanced(e)
    && !IsOperator(e[0]) && !IsOperator(e[|e| - 1])
    && !(exists i :: 0 <= i < |e| - 1 && IsOperator(e[i]) && IsOperator(e[i + 1]))
  }

  /** The legacy validation accepts exactly the text whose space-free form
      meets the syntax conditions and does not end in a division by zero. */
  lemma ValidateExpressionSpec(expr: string)
    ensures var e := StripSpaces(expr);
      ValidateExpression(expr) == Pass <==> LegacySyntaxOk(e) && !EndsWithDivisionByZero(e)
  {
    var e := StripSpaces(expr);
    AllAllowedIff(e);
    BracketsBalancedIff(e);
    AdjacentOperatorsIff(e);
  }

  /** Against the current validator: the legacy one accepts everything the
      current one accepts, and more only through the dot check it lacks. */
  lemma AgreesWithCurrentValidator(expr: string)
    ensures Validator.ValidateExpression(expr) == Pass
        <==> ValidateExpression(expr) == Pass && !HasDotDigitsDot(StripSpaces(expr))
    ensures Validator.ValidateExpression(expr) == Fail(Errors.DivideByZero) ==> ValidateExpression(expr) == Fail(Rejected)
    ensures ValidateExpression(expr) == Fail(Rejected) ==> Validator.ValidateExpression(expr).Fail?
  {
  }

  /** A character outside digits, `+ - * / ( ) .` and white space is rejected. */
  lemma ForeignCharacterRejected(expr: string, i: nat)
    requires i < |expr| && expr[i] != ' ' && !IsAllowed(expr[i])
    ensures ValidateExpression(expr) == Fail(Rejected)
  {
    var e := StripSpaces(expr);
    assert expr[i] in e;
    AllAllowedIff(e);
  }

  /** RPN: text the validation rejects yields nothing but the error; otherwise
      the conversion loop runs, and any failure of its own is the same error. */
  function RPN(expr: string): (r: Result<seq<string>, string>)
    ensures ValidateExpression(expr) != Pass ==> r == Failure(Rejected)
    ensures r.Failure? ==> r.error == Rejected
    ensures r.Success? <==> ValidateExpression(expr) == Pass && Converter.Convert(expr).Success?
    ensures r.Success? ==> r.value == Converter.Convert(expr).value
  {
    if ValidateExpression(expr) != Pass then Failure(Rejected)
    else match Converter.Convert(expr)
      case Failure(_) => Failure(Rejected)
      case Success(tokens) => Success(tokens)
  }

  /** Text the legacy validation accepts holds only characters the loop can
      scan, and its parentheses balance. */
  lemma ValidatedIsScannable(expr: string)
    requires ValidateExpression(expr) == Pass
    ensures forall i :: 0 <= i < |expr| ==> Converter.Scannable(expr[i])
    ensures IsBracketsBalanced(expr)
  {
    var e := StripSpaces(expr);
    AllAllowedIff(e);
    forall i | 0 <= i < |expr|
      ensures Converter.Scannable(expr[i])
    {
      if expr[i] != ' ' {
        assert expr[i] in e;
      }
    }
    BalanceFromStrip(expr, 0);
  }

  /** RPN succeeds exactly on validated text in which every dot belongs to a number. */
  lemma RPNSucceedsIff(expr: string)
    ensures RPN(expr).Success? <==> ValidateExpression(expr) == Pass && !Converter.StrayDot(expr)
  {
    if ValidateExpression(expr) == Pass {
      ValidatedIsScannable(expr);
      Converter.ConvertSucceedsIff(expr);
    }
  }

  /** What RPN emits: number runs and operators only, every operator of the
      input once, and the input's number runs in their order. */
  lemma RPNOutput(expr: string)
    requires RPN(expr).Success?
    ensures forall t :: t in RPN(expr).value ==> Converter.IsNumberToken(t) || Converter.IsOperatorToken(t)
    ensures Converter.OpTokens(RPN(expr).value) == Converter.Ops(expr)
    ensures Converter.NumbersOf(RPN(expr).value) == Converter.NumberRuns(expr)
  {
    Converter.ConvertTokens(expr);
    Converter.ConvertOperators(expr);
    Converter.ConvertNumbers(expr);
  }

  /** RPN and the current ToRPN emit the same list wherever ToRPN succeeds,
      and RPN succeeds on more text only where the dot check would object. */
  lemma AgreesWithToRPN(expr: string)
    ensures Converter.ToRPN(expr).Success? ==> RPN(expr) == Success(Converter.ToRPN(expr).value)
    ensures RPN(expr).Success? && !HasDotDigitsDot(StripSpaces(expr)) ==> Converter.ToRPN(expr) == Success(RPN(expr).value)
  {
    AgreesWithCurrentValidator(expr);
  }

  // The verdicts the parser's tests expect.

  lemma RejectsEmpty()
    ensures ValidateExpression("") == Fail(Rejected)
  {
  }

  lemma RejectsEqualsSign()
    ensures ValidateExpression("2+2=4") == Fail(Rejected)
  {
  }

  lemma RejectsUnclosedBracket()
    ensures ValidateExpression("(2+2") == Fail(Rejected)
  {
  }

  lemma RejectsLeadingOperator()
    ensures ValidateExpression("+2+2") == Fail(Rejected)
  {
  }

  lemma RejectsTrailingOperator()
    ensures ValidateExpression("2+2+") == Fail(Rejected)
  {
  }

  lemma RejectsDoubledOperator()
    ensures ValidateExpression("2++2") == Fail(Rejected)
  {
  }

  lemma RejectsDivisionByZero()
    ensures ValidateExpression("2/0") == Fail(Rejected)
  {
  }

  lemma AcceptsSum()
    ensures ValidateExpression("2+2") == Pass
  {
  }

  /** Text free of spaces whose checks each pass is accepted. */
  lemma AcceptedWhenChecksPass(e: string)
    requires forall i :: 0 <= i < |e| ==> e[i] != ' '
    requires e != [] && (forall i :: 0 <= i < |e| ==> IsAllowed(e[i])) && IsBracketsBalanced(e)
    requires !IsOperator(e[0]) && !IsOperator(e[|e| - 1])
    requires forall i :: 0 <= i < |e| - 1 ==> !(IsOperator(e[i]) && IsOperator(e[i + 1]))
    requires !EndsWithDivisionByZero(e)
    ensures ValidateExpression(e) == Pass
  {
    StripSpacesFixed(e);
    AllAllowedIff(e);
    AdjacentOperatorsIff(e);
  }

  /** Without the dot check, "2.0.1+3" passes, and RPN keeps "2.0.1" as one token. */
  lemma AcceptsExcessDot()
    ensures ValidateExpression("2.0.1+3") == Pass
    ensures Validator.ValidateExpression("2.0.1+3") == Fail(Errors.InvalidExpression)
    ensures RPN("2.0.1+3").Success?
    ensures "2.0.1" in RPN("2.0.1+3").value
  {
    var s := "2.0.1+3";
    ExcessDotChecks();
    AcceptedWhenChecksPass(s);
    Validator.RejectsExcessDot();
    RPNSucceedsIff(s);
    assert !Converter.StrayDot(s) by {
      forall i | 0 <= i < |s|
        ensures !Converter.StrayDotAt([], s, i)
      {
      }
    }
    RPNOutput(s);
    ExcessDotRuns();
    NumbersAreTokens(RPN(s).value, "2.0.1");
  }

  lemma ExcessDotChecks()
    ensures IsBracketsBalanced("2.0.1+3") && !EndsWithDivisionByZero("2.0.1+3")
  {
  }

  lemma ExcessDotRuns()
    ensures Converter.NumberRuns("2.0.1+3") == ["2.0.1", "3"]
  {
    var s := "2.0.1+3";
    assert Converter.RunLength(s) == 5;
    assert s[..5] == "2.0.1" && s[5..] == "+3" && s[5..][1..] == "3";
    assert Converter.RunLength("3") == 1;
    assert "3"[..1] == "3" && "3"[1..] == [];
  }

  lemma {:induction false} NumbersAreTokens(ts: seq<string>, t: string)
    requires t in Converter.NumbersOf(ts)
    ensures t in ts
  {
    if ts != [] {
      if t != ts[0] {
        NumbersAreTokens(ts[1..], t);
      }
    }
  }

  /** `3+4*2/(1-5)` passes and converts to `3 4 2 * 1 5 - / +`. */
  lemma ConvertsWorkedExample()
    ensures RPN("3+4*2/(1-5)") == Success(["3", "4", "2", "*", "1", "5", "-", "/", "+"])
  {
    WorkedExampleChecks();
    AcceptedWhenChecksPass("3+4*2/(1-5)");
    var e := ConverterExamples.PrecedenceAndParenthesesTree();
    ShuntingYard.ConvertIsPostfix(e);
  }

  lemma WorkedExampleChecks()
    ensures IsBracketsBalanced("3+4*2/(1-5)") && !EndsWithDivisionByZero("3+4*2/(1-5)")
  {
    WorkedExampleBalanced();
    WorkedExampleNoZeroDivisor();
  }

  lemma WorkedExampleBalanced()
    ensures IsBracketsBalanced("3+4*2/(1-5)")
  {
    assert BalanceFrom("(1-5)", 0);
  }

  lemma WorkedExampleNoZeroDivisor()
    ensures !EndsWithDivisionByZero("3+4*2/(1-5)")
  {
    var s := "3+4*2/(1-5)";
    if EndsWithDivisionByZero(s) {
      DivisionByZeroEndsInZero(s);
    }
  }

  /** `^` is not an operator here: "3+4*2/(1-5)^2^3)" is rejected. */
  lemma RejectsCaret()
    ensures RPN("3+4*2/(1-5)^2^3)") == Failure(Rejected)
  {
    var s := "3+4*2/(1-5)^2^3)";
    assert s[11] == '^';
    ForeignCharacterRejected(s, 11);
  }
}
