/** A reference evaluator for postfix token lists, independent of tasks,
    queues and mailboxes. Every dispatcher of the model is compared with it.
    A token is a number exactly when ParseFloat accepts it; every other token
    is a binary operator whose meaning is supplied as `apply`. */
module Postfix {
  import opened Wrappers
  import opened Numbers

  /** Why a postfix list has no value. */
  datatype EvalError =
    | Underflow      // an operator met fewer than two values
    | NotSingle      // the list ended with other than exactly one value
    | Undefined      // `apply` gave no value (division by zero, unknown operator)

  /** The operator semantics type: None where the operation has no value. */
  type Semantics = (string, real, real) -> Option<real>

  predicate IsNumberToken(tok: string) {
    ParseFloat(tok).Some?
  }

  /** Exact arithmetic on the four operators; division by zero and any other
      operator have no value. */
  function Arithmetic(op: string, a: real, b: real): (r: Option<real>)
    ensures op == "+" ==> r == Some(a + b)
    ensures op == "-" ==> r == Some(a - b)
    ensures op == "*" ==> r == Some(a * b)
    ensures op == "/" ==> (r.Some? <==> b != 0.0)
    ensures op == "/" && b != 0.0 ==> r == Some(a / b)
    ensures r.Some? <==> (op in {"+", "-", "*"} || (op == "/" && b != 0.0))
  {
    if op == "+" then Some(a + b)
    else if op == "-" then Some(a - b)
    else if op == "*" then Some(a * b)
    else if op == "/" && b != 0.0 then Some(a / b)
    else None
  }

  /** Evaluates `tokens` on top of `stack` (top at the end); the final stack. */
  function Eval(tokens: seq<string>, stack: seq<real>, apply: Semantics): (r: Result<seq<real>, EvalError>)
    ensures r.Failure? ==> r.error != NotSingle
    decreases |tokens|
  {
    if tokens == [] then Success(stack)
    else match ParseFloat(tokens[0])
      case Some(x) => Eval(tokens[1..], stack + [x], apply)
      case None =>
        if |stack| < 2 then Failure(Underflow)
        else match apply(tokens[0], stack[|stack| - 2], stack[|stack| - 1])
          case None => Failure(Undefined)
          case Some(v) => Eval(tokens[1..], stack[..|stack| - 2] + [v], apply)
  }

  /** The value of a whole postfix list. */
  function EvalPostfix(tokens: seq<string>, apply: Semantics): (r: Result<real, EvalError>)
    ensures r.Success? ==> Eval(tokens, [], apply).Success? && Eval(tokens, [], apply).value == [r.value]
    ensures r == Failure(NotSingle) <==> Eval(tokens, [], apply).Success? && |Eval(tokens, [], apply).value| != 1
  {
    match Eval(tokens, [], apply)
    case Failure(e) => Failure(e)
    case Success(st) => if |st| == 1 then Success(st[0]) else Failure(NotSingle)
  }

  /** The stack height a postfix list leaves, counting only its shape: None
      when some operator finds fewer than two values. */
  function Height(tokens: seq<string>, h: nat): (r: Option<nat>)
    decreases |tokens|
  {
    if tokens == [] then Some(h)
    else if IsNumberToken(tokens[0]) then Height(tokens[1..], h + 1)
    else if h < 2 then None
    else Height(tokens[1..], h - 1)
  }

  /** The number of operator tokens. */
  function OperatorCount(tokens: seq<string>): (n: nat)
    ensures n <= |tokens|
    decreases |tokens|
  {
    if tokens == [] then 0
    else (if IsNumberToken(tokens[0]) then 0 else 1) + OperatorCount(tokens[1..])
  }

  /** Evaluation respects the shape whatever the operators mean: a value
      stack of the predicted height on success, and an underflow exactly where
      the shape has one, unless an undefined operation stops it first. */
  lemma {:induction false} EvalFollowsHeight(tokens: seq<string>, stack: seq<real>, apply: Semantics)
    ensures Eval(tokens, stack, apply).Success? ==> Height(tokens, |stack|) == Some(|Eval(tokens, stack, apply).value|)
    ensures Eval(tokens, stack, apply) == Failure(Underflow) ==> Height(tokens, |stack|).None?
    ensures Height(tokens, |stack|).None? ==> Eval(tokens, stack, apply).Failure?
    decreases |tokens|
  {
    if tokens != [] {
      match ParseFloat(tokens[0])
      case Some(x) =>
        EvalFollowsHeight(tokens[1..], stack + [x], apply);
      case None =>
        if |stack| >= 2 {
          match apply(tokens[0], stack[|stack| - 2], stack[|stack| - 1])
          case None =>
          case Some(v) =>
            EvalFollowsHeight(tokens[1..], stack[..|stack| - 2] + [v], apply);
        }
    }
  }

  /** The meaning of a concatenation: evaluate the first part, then the second
      on the stack it leaves. */
  lemma {:induction false} EvalAppend(a: seq<string>, b: seq<string>, stack: seq<real>, apply: Semantics)
    ensures Eval(a + b, stack, apply) ==
      match Eval(a, stack, apply)
      case Failure(e) => Failure(e)
      case Success(st) => Eval(b, st, apply)
    decreases |a|
  {
    if a == [] {
      assert a + b == b;
    } else {
      assert (a + b)[0] == a[0];
      assert (a + b)[1..] == a[1..] + b;
      match ParseFloat(a[0])
      case Some(x) =>
        EvalAppend(a[1..], b, stack + [x], apply);
      case None =>
        if |stack| >= 2 {
          match apply(a[0], stack[|stack| - 2], stack[|stack| - 1])
          case None =>
          case Some(v) =>
            EvalAppend(a[1..], b, stack[..|stack| - 2] + [v], apply);
        }
    }
  }
}
