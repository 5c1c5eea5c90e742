/** Calculate of internal/calculator/calculator.go: convElem in its rejecting
    form, then the direct infix evaluation loop. Every fault is reported as
    one of the two errors of internal/calculator/errors.go. */
module Calculator {
  import opened Wrappers
  import Elements
  import Infix
  import Numbers
  import Text

  /** ErrInvalidExpression and ErrDivisionByZero; Panic stands for a Go
      runtime panic, which is not an error value. */
  datatype CalcError = InvalidExpression | DivisionByZero | Panic

  /** How the evaluation loop's faults surface: everything but a zero divisor
      and a panic is ErrInvalidExpression. */
  function ErrorOf(f: Infix.Fault): (e: CalcError)
    ensures e == DivisionByZero <==> f == Infix.DivisionByZero
    ensures e == Panic <==> f == Infix.Panic
  {
    match f
    case DivisionByZero => DivisionByZero
    case Panic => Panic
    case _ => InvalidExpression
  }

  /** convElem: the tokens of `expression`, or ErrInvalidExpression when a
      character is not admissible. Accepted text is its tokens written back
      to back, and each token is a symbol or a number run. */
  function ConvElem(expression: string): (r: Result<seq<string>, CalcError>)
    ensures r.Failure? ==> r.error == InvalidExpression
    ensures r.Success? <==> forall j :: 0 <= j < |expression| ==> Elements.Admissible(expression, j)
    ensures r.Success? ==> Elements.Concat(r.value) == expression
    ensures r.Success? ==> forall t :: t in r.value ==> Elements.IsElement(t)
  {
    Elements.StrictAcceptsIff(expression);
    match Elements.ConvElem(expression, true)
    case None => Failure(InvalidExpression)
    case Some(tokens) =>
      Elements.StrictConcat(expression);
      Elements.ElementsAreWellFormed(expression, true);
      Success(tokens)
  }

  /** Calculate: the value of `expression`, or the error the loop reports. */
  function Calculate(expression: string): (r: Result<real, CalcError>)
    ensures ConvElem(expression).Failure? ==> r == Failure(InvalidExpression)
  {
    match ConvElem(expression)
    case Failure(e) => Failure(e)
    case Success(tokens) =>
      match Infix.Evaluate(tokens)
      case Failure(f) => Failure(ErrorOf(f))
      case Success(v) => Success(v)
  }

  /** A letter, a space or any other character outside digits, dots and
      `+ - * / ( )` makes Calculate fail with ErrInvalidExpression. */
  lemma ForeignCharacterRejected(expression: string, i: nat)
    requires i < |expression|
    requires !Text.IsDigit(expression[i]) && expression[i] != '.' && !Elements.IsSymbol(expression[i])
    ensures Calculate(expression) == Failure(InvalidExpression)
  {
    Elements.ForeignRejected(expression, i, [], "");
  }

  /** "1u*2" is rejected for its letter. */
  lemma RejectsLetter()
    ensures Calculate("1u*2") == Failure(InvalidExpression)
  {
    ForeignCharacterRejected("1u*2", 1);
  }

  /** Text whose tokens form a chain of one precedence level evaluates left
      to right, a zero divisor being ErrDivisionByZero. */
  lemma LevelChainFoldsLeft(expression: string, first: string, rest: seq<string>, level: nat)
    requires ConvElem(expression) == Success([first] + rest)
    requires Numbers.ParseFloat(first).Some? && Infix.IsLevelPairs(rest, level)
    ensures Infix.FoldLeft(Numbers.ParseFloat(first).value, rest, level).Success? ==>
      Calculate(expression) == Success(Infix.FoldLeft(Numbers.ParseFloat(first).value, rest, level).value)
    ensures Infix.FoldLeft(Numbers.ParseFloat(first).value, rest, level).Failure? ==>
      Calculate(expression) == Failure(DivisionByZero)
  {
    Infix.LevelChainFoldsLeft(first, rest, level);
  }
}
