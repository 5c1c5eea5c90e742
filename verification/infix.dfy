/** The evaluation loop shared by Calculate in internal/calculator/calculator.go
    and Calc in main.go. It evaluates a token list directly with two stacks,
    numbers and pending actions (tops at the end), applying an action to the
    two topmost numbers. Where Go would panic (an index out of range, or a
    call of the nil operation an unknown action maps to), the model reports
    Panic. */
module Infix {
  import opened Wrappers
  import opened Numbers
  import Postfix

  /** Why a token list has no value. */
  datatype Fault =
    | TooFewOperands        // an action found fewer than two numbers
    | DivisionByZero        // "/" with a zero right operand
    | UnknownToken(token: string)
    | Unmatched             // a "(" was left when the tokens ran out
    | NotSingle             // the number stack did not end with exactly one value
    | Panic                 // a Go runtime panic

  datatype Stacks = Stacks(nums: seq<real>, actions: seq<string>)

  /** strings.Contains("+-*" + "/", t): whether `t` is a substring of the
      operator list, the empty string included. */
  predicate InOperators(t: string) {
    t in {"", "+", "-", "*", "/", "+-", "-*", "*/", "+-*", "-*/", "+-*/"}
  }

  /** ops[op].priority, zero for keys the map lacks. */
  function Priority(op: string): nat {
    if op == "+" || op == "-" then 1
    else if op == "*" || op == "/" then 2
    else 0
  }

  /** applyActions: pops the two topmost numbers b (top) and a, pops the top
      action, and pushes `a op b`. */
  function Apply(st: Stacks): (r: Result<Stacks, Fault>)
    ensures |st.nums| < 2 <==> r == Failure(TooFewOperands)
    ensures r == Failure(DivisionByZero) <==>
      |st.nums| >= 2 && st.actions != [] && st.actions[|st.actions| - 1] == "/" && st.nums[|st.nums| - 1] == 0.0
    ensures r.Success? ==>
      && |st.nums| >= 2 && st.actions != []
      && r.value.actions == st.actions[..|st.actions| - 1]
      && Postfix.Arithmetic(st.actions[|st.actions| - 1], st.nums[|st.nums| - 2], st.nums[|st.nums| - 1]).Some?
      && r.value.nums == st.nums[..|st.nums| - 2]
           + [Postfix.Arithmetic(st.actions[|st.actions| - 1], st.nums[|st.nums| - 2], st.nums[|st.nums| - 1]).value]
    ensures r.Failure? ==> r.error in {TooFewOperands, DivisionByZero, Panic}
  {
    if |st.nums| < 2 then Failure(TooFewOperands)
    else if st.actions == [] then Failure(Panic)
    else
      var b := st.nums[|st.nums| - 1];
      var a := st.nums[|st.nums| - 2];
      var op := st.actions[|st.actions| - 1];
      if op == "/" && b == 0.0 then Failure(DivisionByZero)
      else match Postfix.Arithmetic(op, a, b)
        case None => Failure(Panic)
        case Some(v) => Success(Stacks(st.nums[..|st.nums| - 2] + [v], st.actions[..|st.actions| - 1]))
  }

  /** applyActions until no action is left. */
  function ApplyAll(st: Stacks): (r: Result<Stacks, Fault>)
    ensures r.Success? ==> r.value.actions == []
    decreases |st.actions|
  {
    if st.actions == [] then Success(st)
    else match Apply(st)
      case Failure(f) => Failure(f)
      case Success(st1) => ApplyAll(st1)
  }

  /** The ")" branch: applies actions down to the nearest "(", which it pops. */
  function CloseParen(st: Stacks): (r: Result<Stacks, Fault>)
    decreases |st.actions|
  {
    if st.actions == [] then Failure(Panic)
    else if st.actions[|st.actions| - 1] == "(" then Success(st.(actions := st.actions[..|st.actions| - 1]))
    else match Apply(st)
      case Failure(f) => Failure(f)
      case Success(st1) => CloseParen(st1)
  }

  /** One pass of the main loop. An operator looks at the action on top
      once, before its loop: if that action binds at least as tightly, every
      pending action is applied, not only those that bind as tightly. */
  function Step(st: Stacks, tok: string): (r: Result<Stacks, Fault>)
  {
    match ParseFloat(tok)
    case Some(x) => Success(st.(nums := st.nums + [x]))
    case None =>
      if InOperators(tok) then
        var last := if st.actions == [] then "" else st.actions[|st.actions| - 1];
        if st.actions != [] && InOperators(last) && Priority(last) >= Priority(tok) then
          match ApplyAll(st)
          case Failure(f) => Failure(f)
          case Success(st1) => Success(st1.(actions := st1.actions + [tok]))
        else Success(st.(actions := st.actions + [tok]))
      else if tok == "(" then Success(st.(actions := st.actions + [tok]))
      else if tok == ")" then CloseParen(st)
      else Failure(UnknownToken(tok))
  }

  /** The main loop over the tokens. */
  function Scan(tokens: seq<string>, st: Stacks): (r: Result<Stacks, Fault>)
    decreases |tokens|
  {
    if tokens == [] then Success(st)
    else match Step(st, tokens[0])
      case Failure(f) => Failure(f)
      case Success(st1) => Scan(tokens[1..], st1)
  }

  /** The final loop: applies the remaining actions; a "(" among them is an error. */
  function Drain(st: Stacks): (r: Result<Stacks, Fault>)
    ensures r.Success? ==> r.value.actions == []
    decreases |st.actions|
  {
    if st.actions == [] then Success(st)
    else if st.actions[|st.actions| - 1] == "(" then Failure(Unmatched)
    else match Apply(st)
      case Failure(f) => Failure(f)
      case Success(st1) => Drain(st1)
  }

  /** What follows the main loop: the final loop, then the single remaining number. */
  function Finish(scanned: Result<Stacks, Fault>): (r: Result<real, Fault>)
  {
    match scanned
    case Failure(f) => Failure(f)
    case Success(st) =>
      match Drain(st)
      case Failure(f) => Failure(f)
      case Success(st1) => if |st1.nums| != 1 then Failure(NotSingle) else Success(st1.nums[0])
  }

  /** The value of a token list. */
  function Evaluate(tokens: seq<string>): (r: Result<real, Fault>)
  {
    Finish(Scan(tokens, Stacks([], [])))
  }

  /** A chain of one precedence level after its first number: operator,
      number, operator, number, ... with every operator of priority `level`. */
  predicate IsLevelPairs(rest: seq<string>, level: nat) {
    && level > 0
    && |rest| % 2 == 0
    && (forall i :: 0 <= i < |rest| && i % 2 == 0 ==> Priority(rest[i]) == level)
    && (forall i :: 0 <= i < |rest| && i % 2 == 1 ==> ParseFloat(rest[i]).Some?)
  }

  /** Reference meaning of such a chain: left to right from `acc`, as
      arithmetic reads operators of equal precedence. */
  function FoldLeft(acc: real, rest: seq<string>, level: nat): (r: Result<real, Fault>)
    requires IsLevelPairs(rest, level)
    ensures r.Failure? ==> r.error == DivisionByZero
    decreases |rest|
  {
    if rest == [] then Success(acc)
    else
      var b := ParseFloat(rest[1]).value;
      if rest[0] == "/" && b == 0.0 then Failure(DivisionByZero)
      else FoldLeft(Postfix.Arithmetic(rest[0], acc, b).value, rest[2..], level)
  }

  lemma StepPushesNumber(st: Stacks, tok: string)
    requires ParseFloat(tok).Some?
    ensures Step(st, tok) == Success(Stacks(st.nums + [ParseFloat(tok).value], st.actions))
  {
  }

  lemma StepPushesOperator(st: Stacks, op: string)
    requires Priority(op) > 0
    requires st.actions == [] || !InOperators(st.actions[|st.actions| - 1])
          || Priority(st.actions[|st.actions| - 1]) < Priority(op)
    ensures Step(st, op) == Success(Stacks(st.nums, st.actions + [op]))
  {
    OperatorIsNotNumber(op);
    assert ParseFloat(op).None?;
    assert InOperators(op);
  }

  lemma StepOpens(st: Stacks)
    ensures Step(st, "(") == Success(Stacks(st.nums, st.actions + ["("]))
  {
    assert !Text.IsDigit("("[0]);
    assert "("[1..] == [];
  }

  lemma StepCloses(st: Stacks)
    ensures Step(st, ")") == CloseParen(st)
  {
    assert !Text.IsDigit(")"[0]);
    assert ")"[1..] == [];
  }

  lemma StepAppliesAll(st: Stacks, op: string)
    requires Priority(op) > 0 && st.actions != [] && Priority(st.actions[|st.actions| - 1]) >= Priority(op)
    ensures Step(st, op) == match ApplyAll(st)
      case Failure(f) => Failure(f)
      case Success(st1) => Success(st1.(actions := st1.actions + [op]))
  {
    OperatorIsNotNumber(op);
    OperatorIsNotNumber(st.actions[|st.actions| - 1]);
  }

  lemma OperatorIsNotNumber(op: string)
    requires Priority(op) > 0
    ensures ParseFloat(op) == None && InOperators(op)
  {
    assert op[1..] == [];
    assert !Text.IsDigit(op[0]);
  }

  /** A number followed by operators of a single precedence level, each with
      its number, evaluates left to right: sums and differences, or products
      and quotients, come out as arithmetic defines them. */
  lemma LevelChainFoldsLeft(first: string, rest: seq<string>, level: nat)
    requires ParseFloat(first).Some? && IsLevelPairs(rest, level) && level > 0
    ensures Evaluate([first] + rest) == FoldLeft(ParseFloat(first).value, rest, level)
  {
    var x := ParseFloat(first).value;
    var tokens := [first] + rest;
    assert tokens[0] == first && tokens[1..] == rest;
    StepPushesNumber(Stacks([], []), first);
    assert [] + [x] == [x];
    assert Scan(tokens, Stacks([], [])) == Scan(rest, Stacks([x], []));
    if rest == [] {
      assert Drain(Stacks([x], [])) == Success(Stacks([x], []));
    } else {
      var op := rest[0];
      StepPushesOperator(Stacks([x], []), op);
      assert [] + [op] == [op];
      var y := ParseFloat(rest[1]).value;
      StepPushesNumber(Stacks([x], [op]), rest[1]);
      assert [x] + [y] == [x, y];
      assert rest[1..][0] == rest[1] && rest[1..][1..] == rest[2..];
      assert Scan(rest, Stacks([x], [])) == Scan(rest[2..], Stacks([x, y], [op]));
      ChainFromPair(x, rest, level);
    }
  }

  /** The induction behind LevelChainFoldsLeft: with `acc` and the first
      operator's number on the stack and that operator pending, the rest of
      the chain folds from `acc`. */
  lemma {:induction false} ChainFromPair(acc: real, rest: seq<string>, level: nat)
    requires IsLevelPairs(rest, level) && |rest| >= 2
    ensures Finish(Scan(rest[2..], Stacks([acc, ParseFloat(rest[1]).value], [rest[0]])))
         == FoldLeft(acc, rest, level)
    decreases |rest|
  {
    var op := rest[0];
    var b := ParseFloat(rest[1]).value;
    var tail := rest[2..];
    PairsTail(rest, level);
    if tail == [] {
      FinishPair(acc, b, op);
    } else {
      ScanPair(acc, b, op, tail);
      if !(op == "/" && b == 0.0) {
        ChainFromPair(Postfix.Arithmetic(op, acc, b).value, tail, level);
      }
    }
  }

  lemma PairsTail(rest: seq<string>, level: nat)
    requires IsLevelPairs(rest, level) && |rest| >= 2
    ensures IsLevelPairs(rest[2..], level)
  {
    var tail := rest[2..];
    forall i | 0 <= i < |tail| && i % 2 == 0
      ensures Priority(tail[i]) == level
    {
      assert tail[i] == rest[i + 2];
    }
    forall i | 0 <= i < |tail| && i % 2 == 1
      ensures ParseFloat(tail[i]).Some?
    {
      assert tail[i] == rest[i + 2];
    }
  }

  /** Applying the one pending action to two numbers. */
  lemma ApplyPair(a: real, b: real, op: string)
    requires Priority(op) > 0
    ensures Apply(Stacks([a, b], [op])) ==
      if op == "/" && b == 0.0 then Failure(DivisionByZero)
      else Success(Stacks([Postfix.Arithmetic(op, a, b).value], []))
  {
    var st := Stacks([a, b], [op]);
    assert st.nums[..0] == [] && st.actions[..0] == [];
    assert st.nums[|st.nums| - 1] == b && st.nums[|st.nums| - 2] == a && st.actions[|st.actions| - 1] == op;
    if !(op == "/" && b == 0.0) {
      var v := Postfix.Arithmetic(op, a, b).value;
      assert st.nums[..0] + [v] == [v];
    }
  }

  /** The last pair of a chain: the final loop applies its operator. */
  lemma FinishPair(a: real, b: real, op: string)
    requires Priority(op) > 0
    ensures Finish(Success(Stacks([a, b], [op]))) ==
      if op == "/" && b == 0.0 then Failure(DivisionByZero)
      else Success(Postfix.Arithmetic(op, a, b).value)
  {
    var st := Stacks([a, b], [op]);
    ApplyPair(a, b, op);
    OperatorIsNotNumber(op);
    assert st.actions[|st.actions| - 1] == op;
    if !(op == "/" && b == 0.0) {
      var v := Postfix.Arithmetic(op, a, b).value;
      assert Drain(Stacks([v], [])) == Success(Stacks([v], []));
      assert Drain(st) == Success(Stacks([v], []));
    }
  }

  /** A further pair of the same level: the pending operator is applied,
      then the new operator and its number take its place. */
  lemma ScanPair(a: real, b: real, op: string, tail: seq<string>)
    requires |tail| >= 2 && Priority(op) > 0 && Priority(tail[0]) == Priority(op)
    requires ParseFloat(tail[1]).Some?
    ensures Scan(tail, Stacks([a, b], [op])) ==
      if op == "/" && b == 0.0 then Failure(DivisionByZero)
      else Scan(tail[2..], Stacks([Postfix.Arithmetic(op, a, b).value, ParseFloat(tail[1]).value], [tail[0]]))
  {
    var st := Stacks([a, b], [op]);
    var op2 := tail[0];
    OperatorIsNotNumber(op);
    StepAppliesAll(st, op2);
    ApplyPair(a, b, op);
    if !(op == "/" && b == 0.0) {
      var v := Postfix.Arithmetic(op, a, b).value;
      assert ApplyAll(Stacks([v], [])) == Success(Stacks([v], []));
      assert [] + [op2] == [op2];
      var c := ParseFloat(tail[1]).value;
      StepPushesNumber(Stacks([v], [op2]), tail[1]);
      assert [v] + [c] == [v, c];
      assert tail[1..][0] == tail[1] && tail[1..][1..] == tail[2..];
    }
  }
}
