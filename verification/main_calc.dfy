/** Calc of main.go, the earliest evaluator: convElem in its dropping form,
    then the same evaluation loop as internal/calculator/calculator.go, with
    its own error messages. */
module MainCalc {
  import opened Wrappers
  import Elements
  import Infix
  import Calculator
  import Text

  /** The errors Calc builds: "Неправильное выражение" (Malformed), "Деление
      на ноль" (ZeroDivision), "Неизвестный символ: <token>" (UnknownSymbol)
      and "Несоответствие скобок" (BracketMismatch). Panic stands for a Go
      runtime panic. */
  datatype CalcError = Malformed | ZeroDivision | UnknownSymbol(token: string) | BracketMismatch | Panic

  function ErrorOf(f: Infix.Fault): (e: CalcError)
    ensures e == ZeroDivision <==> f == Infix.DivisionByZero
    ensures e == Panic <==> f == Infix.Panic
    ensures e == BracketMismatch <==> f == Infix.Unmatched
    ensures e.UnknownSymbol? <==> f.UnknownToken?
    ensures e.UnknownSymbol? ==> e.token == f.token
  {
    match f
    case TooFewOperands => Malformed
    case NotSingle => Malformed
    case DivisionByZero => ZeroDivision
    case UnknownToken(t) => UnknownSymbol(t)
    case Unmatched => BracketMismatch
    case Panic => Panic
  }

  /** convElem: never fails; a character that neither joins a number nor is
      a symbol is dropped. Every token is a symbol or a number run, and the
      tokens agree with calculator.go's wherever that copy accepts the text. */
  function ConvElem(expression: string): (r: seq<string>)
    ensures forall t :: t in r ==> Elements.IsElement(t)
    ensures Calculator.ConvElem(expression).Success? ==> r == Calculator.ConvElem(expression).value
  {
    Elements.ElementsAreWellFormed(expression, false);
    if Elements.ConvElem(expression, true).Some? then
      Elements.LenientAgreesWithStrict(expression);
      Elements.ConvElem(expression, false).value
    else
      Elements.ConvElem(expression, false).value
  }

  /** Calc: the value of `expression`, or the error the loop reports. */
  function Calc(expression: string): (r: Result<real, CalcError>)
  {
    match Infix.Evaluate(ConvElem(expression))
    case Failure(f) => Failure(ErrorOf(f))
    case Success(v) => Success(v)
  }

  /** Where calculator.go's Calculate accepts the text, Calc agrees with it:
      the same value, a zero divisor for a zero divisor, a panic for a panic,
      and otherwise an error that calculator.go reports as
      ErrInvalidExpression. */
  lemma AgreesWithCalculator(expression: string)
    requires Calculator.ConvElem(expression).Success?
    ensures Calculator.Calculate(expression).Success? <==> Calc(expression).Success?
    ensures Calculator.Calculate(expression).Success? ==> Calc(expression) == Success(Calculator.Calculate(expression).value)
    ensures Calculator.Calculate(expression) == Failure(Calculator.DivisionByZero) <==> Calc(expression) == Failure(ZeroDivision)
    ensures Calculator.Calculate(expression) == Failure(Calculator.Panic) <==> Calc(expression) == Failure(Panic)
  {
  }

  /** A character outside digits, dots and `+ - * / ( )` separates what is
      before it from what is after it: Calc evaluates the tokens of both
      parts, one after the other. */
  lemma DroppedCharacterSeparates(p: string, c: char, q: string)
    requires !Text.IsDigit(c) && c != '.' && !Elements.IsSymbol(c)
    ensures ConvElem(p + [c] + q) == ConvElem(p) + ConvElem(q)
    ensures Calc(p + [c] + q) == match Infix.Evaluate(ConvElem(p) + ConvElem(q))
      case Failure(f) => Failure(ErrorOf(f))
      case Success(v) => Success(v)
  {
    Elements.DroppedCharacterSplits(p, c, q);
  }
}
