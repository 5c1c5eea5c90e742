/** The shunting-yard conversion of orchestrator/internal/service/helper/converter.go.
    The character loop is shared with the older parser, so it is defined once here
    (Convert) and ToRPN puts the validator in front of it. */
module Converter {
  import opened Wrappers
  import opened Errors
  import opened Text
  import opened Validator

  /** The precedence table. A key that is not in it, such as `(`, reads as 0. */
  function Prec(c: char): (p: nat)
    ensures p > 0 <==> IsOperator(c)
  {
    if c == '+' || c == '-' then 1 else if c == '*' || c == '/' then 2 else 0
  }

  /** A number as the loop accumulates it: a digit, then digits and dots. */
  predicate IsNumberToken(t: string) {
    |t| > 0 && IsDigit(t[0]) && forall i :: 0 <= i < |t| ==> IsDigit(t[i]) || t[i] == '.'
  }

  predicate IsOperatorToken(t: string) {
    |t| == 1 && IsOperator(t[0])
  }

  /** The loop's three variables: operator stack (top at the end), output, pending number. */
  datatype Shunt = Shunt(stack: seq<char>, output: seq<string>, num: string)

  predicate StackOk(stack: seq<char>) {
    forall i :: 0 <= i < |stack| ==> IsOperator(stack[i]) || stack[i] == '('
  }

  predicate ShuntOk(st: Shunt) {
    && StackOk(st.stack)
    && (forall i :: 0 <= i < |st.output| ==> IsNumberToken(st.output[i]) || IsOperatorToken(st.output[i]))
    && (st.num == [] || IsNumberToken(st.num))
  }

  /** The pending number as a list of zero or one tokens. */
  function Pending(num: string): seq<string> {
    if num == [] then [] else [num]
  }

  /** Stack entries popped one by one onto the output: top first. */
  function Emit(s: seq<char>): (r: seq<string>)
    ensures |r| == |s|
    ensures forall i :: 0 <= i < |s| ==> r[i] == [s[|s| - 1 - i]]
  {
    if s == [] then [] else [[s[|s| - 1]]] + Emit(s[..|s| - 1])
  }

  /** Emitting a stack suffix emits its top entry first. */
  lemma EmitSplit(stack: seq<char>, k: nat)
    requires k < |stack|
    ensures Emit(stack[k..]) == [[stack[|stack| - 1]]] + Emit(stack[..|stack| - 1][k..])
  {
    var x := stack[k..];
    assert x[..|x| - 1] == stack[..|stack| - 1][k..];
  }

  /** A pending number is written out before any other character is handled. */
  function Flush(st: Shunt): Shunt {
    Shunt(st.stack, st.output + Pending(st.num), [])
  }

  /** The loop that pops operators of precedence at least `p`: it stops at the
      first entry of lower precedence, which includes `(`, or at the bottom. */
  function PopWhileGeq(stack: seq<char>, output: seq<string>, p: nat): (r: (seq<char>, seq<string>))
    ensures |r.0| <= |stack| && r.0 == stack[..|r.0|]
    ensures r.1 == output + Emit(stack[|r.0|..])
    ensures forall i :: |r.0| <= i < |stack| ==> Prec(stack[i]) >= p
    ensures r.0 == [] || Prec(r.0[|r.0| - 1]) < p
    decreases |stack|
  {
    if |stack| > 0 && Prec(stack[|stack| - 1]) >= p then
      var r := PopWhileGeq(stack[..|stack| - 1], output + [[stack[|stack| - 1]]], p);
      EmitSplit(stack, |r.0|);
      r
    else
      assert stack[|stack|..] == [];
      (stack, output)
  }

  /** The loop of a `)`: pops up to the nearest `(` and drops it; None when there is none. */
  function PopToParen(stack: seq<char>, output: seq<string>): (r: Option<(seq<char>, seq<string>)>)
    ensures r.None? <==> '(' !in stack
    ensures r.Some? ==>
      var k := |r.value.0|;
      && k < |stack| && r.value.0 == stack[..k] && stack[k] == '('
      && '(' !in stack[k + 1..]
      && r.value.1 == output + Emit(stack[k + 1..])
    decreases |stack|
  {
    if |stack| == 0 then None
    else if stack[|stack| - 1] == '(' then
      assert stack[|stack|..] == [];
      Some((stack[..|stack| - 1], output))
    else
      var r := PopToParen(stack[..|stack| - 1], output + [[stack[|stack| - 1]]]);
      assert stack == stack[..|stack| - 1] + [stack[|stack| - 1]];
      if r.Some? then
        assert stack[|r.value.0| + 1..] == stack[..|stack| - 1][|r.value.0| + 1..] + [stack[|stack| - 1]];
        r
      else r
  }

  /** One pass of the character loop. */
  function Step(st: Shunt, c: char): (r: Result<Shunt, Error>)
    ensures r.Failure? ==> r.error == InvalidExpression
  {
    if IsDigit(c) || (c == '.' && st.num != []) then Success(st.(num := st.num + [c]))
    else
      var f := Flush(st);
      if IsOperator(c) then
        var (s, o) := PopWhileGeq(f.stack, f.output, Prec(c));
        Success(Shunt(s + [c], o, []))
      else if c == '(' then Success(f.(stack := f.stack + ['(']))
      else if c == ')' then
        match PopToParen(f.stack, f.output)
        case None => Failure(InvalidExpression)
        case Some((s, o)) => Success(Shunt(s, o, []))
      else if IsSpace(c) then Success(f)
      else Failure(InvalidExpression)
  }

  /** The character loop over the rest of the text; the first failure ends it. */
  function Scan(st: Shunt, s: string): (r: Result<Shunt, Error>)
    ensures r.Failure? ==> r.error == InvalidExpression
    decreases |s|
  {
    if s == [] then Success(st)
    else
      match Step(st, s[0])
      case Failure(e) => Failure(e)
      case Success(st') => Scan(st', s[1..])
  }

  /** The final loop: every remaining operator goes to the output, a `(` is an error. */
  function Drain(stack: seq<char>, output: seq<string>): (r: Result<seq<string>, Error>)
    ensures r.Success? <==> '(' !in stack
    ensures r.Success? ==> r.value == output + Emit(stack)
    ensures r.Failure? ==> r.error == InvalidExpression
    decreases |stack|
  {
    if stack == [] then Success(output)
    else if stack[|stack| - 1] == '(' then Failure(InvalidExpression)
    else
      assert stack == stack[..|stack| - 1] + [stack[|stack| - 1]];
      Drain(stack[..|stack| - 1], output + [[stack[|stack| - 1]]])
  }

  /** The conversion loop without the validation in front of it. */
  function Convert(expr: string): (r: Result<seq<string>, Error>)
    ensures r.Failure? ==> r.error == InvalidExpression
  {
    match Scan(Shunt([], [], []), expr)
    case Failure(e) => Failure(e)
    case Success(st) => Drain(st.stack, st.output + Pending(st.num))
  }

  /** ToRPN: any validation failure, division by zero included, becomes InvalidExpression. */
  function ToRPN(expr: string): (r: Result<seq<string>, Error>)
    ensures ValidateExpression(expr) != Pass ==> r == Failure(InvalidExpression)
    ensures r.Failure? ==> r.error == InvalidExpression
  {
    if ValidateExpression(expr) != Pass then Failure(InvalidExpression)
    else Convert(expr)
  }

  // ---------------------------------------------------------------------------
  // Token shape: only numbers and the four operators reach the output.

  lemma EmitShape(x: seq<char>)
    requires StackOk(x) && '(' !in x
    ensures forall i :: 0 <= i < |Emit(x)| ==> IsOperatorToken(Emit(x)[i])
  {
    forall i | 0 <= i < |x|
      ensures IsOperatorToken(Emit(x)[i])
    {
      assert x[|x| - 1 - i] in x;
    }
  }

  lemma PushOperatorOk(f: Shunt, c: char)
    requires ShuntOk(f) && IsOperator(c)
    ensures var (s, o) := PopWhileGeq(f.stack, f.output, Prec(c)); ShuntOk(Shunt(s + [c], o, []))
  {
    var (s, o) := PopWhileGeq(f.stack, f.output, Prec(c));
    var x := f.stack[|s|..];
    forall i | 0 <= i < |x|
      ensures IsOperator(x[i])
    {
      assert x[i] == f.stack[|s| + i];
    }
    assert '(' !in x;
    EmitShape(x);
    forall i | 0 <= i < |s| + 1
      ensures IsOperator((s + [c])[i]) || (s + [c])[i] == '('
    {
      if i < |s| {
        assert (s + [c])[i] == f.stack[i];
      }
    }
    forall i | 0 <= i < |o|
      ensures IsNumberToken(o[i]) || IsOperatorToken(o[i])
    {
      if i >= |f.output| {
        assert o[i] == Emit(x)[i - |f.output|];
      }
    }
  }

  lemma CloseParenOk(f: Shunt)
    requires ShuntOk(f) && PopToParen(f.stack, f.output).Some?
    ensures var (s, o) := PopToParen(f.stack, f.output).value; ShuntOk(Shunt(s, o, []))
  {
    var (s, o) := PopToParen(f.stack, f.output).value;
    var x := f.stack[|s| + 1..];
    assert forall i :: 0 <= i < |x| ==> x[i] == f.stack[|s| + 1 + i];
    EmitShape(x);
  }

  lemma StepOk(st: Shunt, c: char)
    requires ShuntOk(st) && Step(st, c).Success?
    ensures ShuntOk(Step(st, c).value)
  {
    if IsDigit(c) || (c == '.' && st.num != []) {
      assert IsNumberToken(st.num + [c]);
    } else {
      var f := Flush(st);
      assert ShuntOk(f);
      if IsOperator(c) {
        PushOperatorOk(f, c);
      } else if c == ')' {
        CloseParenOk(f);
      }
    }
  }

  lemma {:induction false} ScanOk(st: Shunt, s: string)
    requires ShuntOk(st) && Scan(st, s).Success?
    ensures ShuntOk(Scan(st, s).value)
    decreases |s|
  {
    if s != [] {
      StepOk(st, s[0]);
      ScanOk(Step(st, s[0]).value, s[1..]);
    }
  }

  /** The state the character loop ends in, and how the output is made from it. */
  lemma ConvertResult(expr: string) returns (st: Shunt)
    requires Convert(expr).Success?
    ensures Scan(Shunt([], [], []), expr) == Success(st)
    ensures '(' !in st.stack
    ensures Convert(expr).value == st.output + Pending(st.num) + Emit(st.stack)
  {
    st := Scan(Shunt([], [], []), expr).value;
  }

  /** A successful conversion outputs only number tokens and single operators:
      no parenthesis ever reaches the output. */
  lemma ConvertTokens(expr: string)
    requires Convert(expr).Success?
    ensures forall t :: t in Convert(expr).value ==> IsNumberToken(t) || IsOperatorToken(t)
  {
    var st := ConvertResult(expr);
    ScanOk(Shunt([], [], []), expr);
    EmitShape(st.stack);
  }

  lemma ToRPNTokens(expr: string)
    requires ToRPN(expr).Success?
    ensures forall t :: t in ToRPN(expr).value ==> IsNumberToken(t) || IsOperatorToken(t)
  {
    ConvertTokens(expr);
  }

  // ---------------------------------------------------------------------------
  // Operators: every operator character of the text reaches the output exactly once.

  /** The operator characters of a text, as a multiset. */
  function Ops(s: seq<char>): multiset<char> {
    if s == [] then multiset{}
    else (if IsOperator(s[0]) then multiset{s[0]} else multiset{}) + Ops(s[1..])
  }

  /** The operators named by the operator tokens of a token list, as a multiset. */
  function OpTokens(ts: seq<string>): multiset<char> {
    if ts == [] then multiset{}
    else (if IsOperatorToken(ts[0]) then multiset{ts[0][0]} else multiset{}) + OpTokens(ts[1..])
  }

  lemma {:induction false} OpsAppend(a: seq<char>, b: seq<char>)
    ensures Ops(a + b) == Ops(a) + Ops(b)
  {
    if a == [] {
      assert a + b == b;
    } else {
      assert (a + b)[1..] == a[1..] + b;
      OpsAppend(a[1..], b);
    }
  }

  lemma {:induction false} OpTokensAppend(a: seq<string>, b: seq<string>)
    ensures OpTokens(a + b) == OpTokens(a) + OpTokens(b)
  {
    if a == [] {
      assert a + b == b;
    } else {
      assert (a + b)[1..] == a[1..] + b;
      OpTokensAppend(a[1..], b);
    }
  }

  lemma {:induction false} OpTokensEmit(x: seq<char>)
    ensures OpTokens(Emit(x)) == Ops(x)
    decreases |x|
  {
    if x != [] {
      var init := x[..|x| - 1];
      OpTokensEmit(init);
      assert Emit(x) == [[x[|x| - 1]]] + Emit(init);
      assert Emit(x)[1..] == Emit(init);
      assert x == init + [x[|x| - 1]];
      OpsAppend(init, [x[|x| - 1]]);
    }
  }

  lemma PendingNoOps(num: string)
    requires num == [] || IsNumberToken(num)
    ensures OpTokens(Pending(num)) == multiset{}
  {
    if num != [] {
      assert !IsOperatorToken(num);
    }
  }

  /** Moving the top part `x` of a stack to the output keeps the operators. */
  lemma MoveOps(stack: seq<char>, output: seq<string>, s: seq<char>, x: seq<char>)
    requires stack == s + x
    ensures OpTokens(output + Emit(x)) + Ops(s) == OpTokens(output) + Ops(stack)
  {
    OpsAppend(s, x);
    OpTokensAppend(output, Emit(x));
    OpTokensEmit(x);
  }

  lemma PushOperatorOps(f: Shunt, c: char)
    requires IsOperator(c)
    ensures var r := PopWhileGeq(f.stack, f.output, Prec(c));
      OpTokens(r.1) + Ops(r.0 + [c]) == OpTokens(f.output) + Ops(f.stack) + multiset{c}
  {
    var r := PopWhileGeq(f.stack, f.output, Prec(c));
    MoveOps(f.stack, f.output, r.0, f.stack[|r.0|..]);
    OpsAppend(r.0, [c]);
    assert Ops([c]) == multiset{c};
  }

  lemma OpenParenOps(f: Shunt)
    ensures Ops(f.stack + ['(']) == Ops(f.stack)
  {
    OpsAppend(f.stack, ['(']);
  }

  lemma CloseParenOps(f: Shunt)
    requires PopToParen(f.stack, f.output).Some?
    ensures var (s, o) := PopToParen(f.stack, f.output).value;
      OpTokens(o) + Ops(s) == OpTokens(f.output) + Ops(f.stack)
  {
    var (s, o) := PopToParen(f.stack, f.output).value;
    var x := f.stack[|s| + 1..];
    assert f.stack == s + ['('] + x;
    OpsAppend(s + ['('], x);
    OpsAppend(s, ['(']);
    OpTokensAppend(f.output, Emit(x));
    OpTokensEmit(x);
  }

  lemma FlushOps(st: Shunt)
    requires ShuntOk(st)
    ensures OpTokens(Flush(st).output) == OpTokens(st.output)
  {
    OpTokensAppend(st.output, Pending(st.num));
    PendingNoOps(st.num);
  }

  /** Operators on the output plus operators on the stack grow by the character's own. */
  lemma StepOps(st: Shunt, c: char)
    requires ShuntOk(st) && Step(st, c).Success?
    ensures var st' := Step(st, c).value;
      OpTokens(st'.output) + Ops(st'.stack) == OpTokens(st.output) + Ops(st.stack) + Ops([c])
  {
    assert Ops([c]) == (if IsOperator(c) then multiset{c} else multiset{});
    if !(IsDigit(c) || (c == '.' && st.num != [])) {
      var f := Flush(st);
      FlushOps(st);
      if IsOperator(c) {
        PushOperatorOps(f, c);
        assert Step(st, c).value == Shunt(PopWhileGeq(f.stack, f.output, Prec(c)).0 + [c], PopWhileGeq(f.stack, f.output, Prec(c)).1, []);
      } else if c == '(' {
        OpenParenOps(f);
      } else if c == ')' {
        CloseParenOps(f);
      }
    }
  }

  /** One successful step, with the facts the induction over Scan needs about it. */
  lemma StepOpsFacts(st: Shunt, s: string) returns (st': Shunt)
    requires ShuntOk(st) && s != [] && Scan(st, s).Success?
    ensures ShuntOk(st') && Scan(st', s[1..]) == Scan(st, s)
    ensures OpTokens(st'.output) + Ops(st'.stack) == OpTokens(st.output) + Ops(st.stack) + Ops([s[0]])
  {
    st' := Step(st, s[0]).value;
    StepOps(st, s[0]);
    StepOk(st, s[0]);
  }

  lemma Regroup(a: multiset<char>, b: multiset<char>, c: multiset<char>, d: multiset<char>, e: multiset<char>,
                f: multiset<char>, g: multiset<char>, h: multiset<char>, s: multiset<char>)
    requires a + b == c + d + e && c + d == f + g + h && s == h + e
    ensures a + b == f + g + s
  {
  }

  lemma OpsFront(s: seq<char>)
    requires s != []
    ensures Ops(s) == Ops([s[0]]) + Ops(s[1..])
  {
    OpsAppend([s[0]], s[1..]);
    assert [s[0]] + s[1..] == s;
  }

  lemma {:induction false} ScanOps(st: Shunt, s: string)
    requires ShuntOk(st) && Scan(st, s).Success?
    ensures var r := Scan(st, s).value;
      OpTokens(r.output) + Ops(r.stack) == OpTokens(st.output) + Ops(st.stack) + Ops(s)
    decreases |s|
  {
    if s != [] {
      var st' := StepOpsFacts(st, s);
      ScanOps(st', s[1..]);
      var r := Scan(st, s).value;
      OpsFront(s);
      Regroup(OpTokens(r.output), Ops(r.stack), OpTokens(st'.output), Ops(st'.stack), Ops(s[1..]),
              OpTokens(st.output), Ops(st.stack), Ops([s[0]]), Ops(s));
    }
  }

  /** The output of a successful conversion holds exactly the operators of the text. */
  lemma ConvertOperators(expr: string)
    requires Convert(expr).Success?
    ensures OpTokens(Convert(expr).value) == Ops(expr)
  {
    var st := ConvertResult(expr);
    ScanOk(Shunt([], [], []), expr);
    ScanOps(Shunt([], [], []), expr);
    assert OpTokens(st.output) + Ops(st.stack) == Ops(expr);
    PendingNoOps(st.num);
    OpTokensAppend(st.output, Pending(st.num));
    OpTokensAppend(st.output + Pending(st.num), Emit(st.stack));
    OpTokensEmit(st.stack);
  }

  lemma ToRPNOperators(expr: string)
    requires ToRPN(expr).Success?
    ensures OpTokens(ToRPN(expr).value) == Ops(expr)
  {
    ConvertOperators(expr);
  }

  // ---------------------------------------------------------------------------
  // Numbers: the number tokens are the maximal digit-and-dot runs of the text, in order.

  /** Length of the run of digits and dots at the front of `s`. */
  function RunLength(s: string): (n: nat)
    ensures n <= |s|
    ensures forall i :: 0 <= i < n ==> IsDigit(s[i]) || s[i] == '.'
    ensures n < |s| ==> !IsDigit(s[n]) && s[n] != '.'
  {
    if s != [] && (IsDigit(s[0]) || s[0] == '.') then 1 + RunLength(s[1..]) else 0
  }

  /** A lexer written independently of the loop: each run starts at a digit and
      takes every following digit and dot; other characters separate runs. */
  function NumberRuns(s: string): seq<string>
    decreases |s|
  {
    if s == [] then []
    else if IsDigit(s[0]) then
      var n := RunLength(s);
      [s[..n]] + NumberRuns(s[n..])
    else NumberRuns(s[1..])
  }

  /** The runs still to come when the number `num` is pending. */
  function RunsAfter(num: string, s: string): seq<string> {
    if num == [] then NumberRuns(s)
    else
      var n := RunLength(s);
      [num + s[..n]] + NumberRuns(s[n..])
  }

  /** The number tokens of a token list, in order. */
  function NumbersOf(ts: seq<string>): seq<string> {
    if ts == [] then []
    else (if IsNumberToken(ts[0]) then [ts[0]] else []) + NumbersOf(ts[1..])
  }

  lemma {:induction false} NumbersOfAppend(a: seq<string>, b: seq<string>)
    ensures NumbersOf(a + b) == NumbersOf(a) + NumbersOf(b)
  {
    if a == [] {
      assert a + b == b;
    } else {
      assert (a + b)[1..] == a[1..] + b;
      NumbersOfAppend(a[1..], b);
    }
  }

  lemma {:induction false} NumbersOfEmit(x: seq<char>)
    requires StackOk(x)
    ensures NumbersOf(Emit(x)) == []
    decreases |x|
  {
    if x != [] {
      var init := x[..|x| - 1];
      NumbersOfEmit(init);
      assert Emit(x)[1..] == Emit(init);
      assert !IsNumberToken(Emit(x)[0]);
    }
  }

  /** A flush moves the pending number, and nothing else, to the numbers of the output. */
  lemma FlushNumbers(st: Shunt)
    requires ShuntOk(st)
    ensures NumbersOf(Flush(st).output) == NumbersOf(st.output) + Pending(st.num)
  {
    NumbersOfAppend(st.output, Pending(st.num));
    if st.num != [] {
      assert NumbersOf([st.num]) == [st.num] + NumbersOf([]);
    }
  }

  /** Moving the top part `x` of a stack to the output adds no number. */
  lemma MoveNumbers(stack: seq<char>, output: seq<string>, s: seq<char>, x: seq<char>)
    requires stack == s + x && StackOk(stack)
    ensures NumbersOf(output + Emit(x)) == NumbersOf(output)
  {
    assert forall i :: 0 <= i < |x| ==> x[i] == stack[|s| + i];
    NumbersOfEmit(x);
    NumbersOfAppend(output, Emit(x));
  }

  /** Extending the pending number with the next character does not change the runs to come. */
  lemma RunsExtend(num: string, s: string)
    requires s != [] && (IsDigit(s[0]) || (s[0] == '.' && num != []))
    ensures RunsAfter(num + [s[0]], s[1..]) == RunsAfter(num, s)
  {
    var m := RunLength(s[1..]);
    assert RunLength(s) == 1 + m;
    assert s[..1 + m] == [s[0]] + s[1..][..m];
    assert s[1 + m..] == s[1..][m..];
    assert RunsAfter(num + [s[0]], s[1..]) == [num + [s[0]] + s[1..][..m]] + NumberRuns(s[1..][m..]);
    if num == [] {
      assert NumberRuns(s) == [s[..1 + m]] + NumberRuns(s[1 + m..]);
      assert num + [s[0]] + s[1..][..m] == s[..1 + m];
    } else {
      assert num + [s[0]] + s[1..][..m] == num + s[..1 + m];
    }
  }

  /** Any character other than a digit or a dot ends the pending number. */
  lemma RunsBreak(num: string, s: string)
    requires s != [] && !IsDigit(s[0]) && s[0] != '.'
    ensures RunsAfter(num, s) == Pending(num) + RunsAfter([], s[1..])
  {
    assert RunLength(s) == 0;
    assert NumberRuns(s) == NumberRuns(s[1..]);
    if num != [] {
      assert s[..0] == [] && s[0..] == s;
      assert num + s[..0] == num;
    }
  }

  /** The characters that end a pending number add no number beyond it. */
  lemma StepNumbersBreak(st: Shunt, c: char)
    requires ShuntOk(st) && !IsDigit(c) && !(c == '.' && st.num != []) && Step(st, c).Success?
    ensures Step(st, c).value.num == []
    ensures NumbersOf(Step(st, c).value.output) == NumbersOf(st.output) + Pending(st.num)
  {
    var f := Flush(st);
    FlushNumbers(st);
    if IsOperator(c) {
      var r := PopWhileGeq(f.stack, f.output, Prec(c));
      MoveNumbers(f.stack, f.output, r.0, f.stack[|r.0|..]);
      assert Step(st, c).value == Shunt(r.0 + [c], r.1, []);
    } else if c == ')' {
      var r := PopToParen(f.stack, f.output).value;
      assert f.stack == (r.0 + ['(']) + f.stack[|r.0| + 1..];
      MoveNumbers(f.stack, f.output, r.0 + ['('], f.stack[|r.0| + 1..]);
      assert Step(st, c).value == Shunt(r.0, r.1, []);
    }
  }

  lemma StepNumbers(st: Shunt, s: string)
    requires ShuntOk(st) && s != [] && Step(st, s[0]).Success?
    ensures var st' := Step(st, s[0]).value;
      NumbersOf(st'.output) + RunsAfter(st'.num, s[1..]) == NumbersOf(st.output) + RunsAfter(st.num, s)
  {
    var c := s[0];
    if IsDigit(c) || (c == '.' && st.num != []) {
      RunsExtend(st.num, s);
      assert Step(st, c).value == st.(num := st.num + [c]);
    } else {
      StepNumbersBreak(st, c);
      RunsBreak(st.num, s);
    }
  }

  lemma StepNumbersFacts(st: Shunt, s: string) returns (st': Shunt)
    requires ShuntOk(st) && s != [] && Scan(st, s).Success?
    ensures ShuntOk(st') && Scan(st', s[1..]) == Scan(st, s)
    ensures NumbersOf(st'.output) + RunsAfter(st'.num, s[1..]) == NumbersOf(st.output) + RunsAfter(st.num, s)
  {
    st' := Step(st, s[0]).value;
    StepNumbers(st, s);
    StepOk(st, s[0]);
  }

  lemma {:induction false} ScanNumbers(st: Shunt, s: string)
    requires ShuntOk(st) && Scan(st, s).Success?
    ensures var r := Scan(st, s).value;
      NumbersOf(r.output) + Pending(r.num) == NumbersOf(st.output) + RunsAfter(st.num, s)
    decreases |s|
  {
    if s == [] {
      assert RunsAfter(st.num, s) == Pending(st.num) by {
        if st.num != [] {
          assert RunLength(s) == 0 && s[..0] == [] && s[0..] == [];
          assert st.num + s[..0] == st.num;
        }
      }
    } else {
      var st' := StepNumbersFacts(st, s);
      ScanNumbers(st', s[1..]);
    }
  }

  /** The number tokens of a successful conversion are the text's runs, in order. */
  lemma ConvertNumbers(expr: string)
    requires Convert(expr).Success?
    ensures NumbersOf(Convert(expr).value) == NumberRuns(expr)
  {
    var st := ConvertResult(expr);
    ScanOk(Shunt([], [], []), expr);
    ScanNumbers(Shunt([], [], []), expr);
    var f := Flush(st);
    FlushNumbers(st);
    MoveNumbers(st.stack + [], f.output, [], st.stack);
    assert [] + st.stack == st.stack + [] == st.stack;
  }

  lemma ToRPNNumbers(expr: string)
    requires ToRPN(expr).Success?
    ensures NumbersOf(ToRPN(expr).value) == NumberRuns(expr)
  {
    ConvertNumbers(expr);
  }

  // ---------------------------------------------------------------------------
  // When the conversion succeeds.

  /** Characters the loop handles without an error of their own. */
  predicate Scannable(c: char) {
    IsDigit(c) || IsOperator(c) || IsParen(c) || c == '.' || IsSpace(c)
  }

  /** A dot with no number pending: at the front (when `num` is empty), or after a
      character that is neither a digit nor a dot. */
  predicate StrayDotAfter(num: string, s: string) {
    exists i :: 0 <= i < |s| && StrayDotAt(num, s, i)
  }

  predicate StrayDotAt(num: string, s: string, i: int) {
    0 <= i < |s| && s[i] == '.' && (if i == 0 then num == [] else !IsDigit(s[i - 1]) && s[i - 1] != '.')
  }

  /** A dot that cannot belong to any number. */
  predicate StrayDot(s: string) {
    StrayDotAfter([], s)
  }

  lemma {:induction false} CountNotIn(s: seq<char>, x: char)
    ensures Count(s, x) == 0 <==> x !in s
  {
    if s != [] {
      CountNotIn(s[1..], x);
      assert s == [s[0]] + s[1..];
    }
  }

  /** Moving the top part `x` of a stack, which holds no `(`, keeps the count of `(`. */
  lemma ParenCountSplit(s: seq<char>, x: seq<char>)
    requires '(' !in x
    ensures Count(s + x, '(') == Count(s, '(')
  {
    CountAppend(s, x, '(');
    CountNotIn(x, '(');
  }

  lemma PushOperatorParens(f: Shunt, c: char)
    requires IsOperator(c)
    ensures var r := PopWhileGeq(f.stack, f.output, Prec(c)); Count(r.0 + [c], '(') == Count(f.stack, '(')
  {
    var r := PopWhileGeq(f.stack, f.output, Prec(c));
    var x := f.stack[|r.0|..];
    assert f.stack == r.0 + x;
    assert forall i :: 0 <= i < |x| ==> x[i] == f.stack[|r.0| + i];
    ParenCountSplit(r.0, x);
    ParenCountSplit(r.0, [c]);
  }

  lemma CloseParenParens(f: Shunt)
    requires '(' in f.stack
    ensures PopToParen(f.stack, f.output).Some?
    ensures Count(PopToParen(f.stack, f.output).value.0, '(') == Count(f.stack, '(') - 1
  {
    var r := PopToParen(f.stack, f.output).value;
    var x := f.stack[|r.0| + 1..];
    assert f.stack == r.0 + ['('] + x;
    ParenCountSplit(r.0 + ['('], x);
    CountAppend(r.0, ['('], '(');
  }

  /** A successful step from a state with `n` open parentheses on the stack. */
  lemma StepParens(st: Shunt, c: char, n: nat)
    requires Count(st.stack, '(') == n && Scannable(c)
    requires !(c == '.' && st.num == []) && !(c == ')' && n == 0)
    ensures Step(st, c).Success?
    ensures Count(Step(st, c).value.stack, '(') == if c == '(' then n + 1 else if c == ')' then n - 1 else n
    ensures Step(st, c).value.num == [] <==> !IsDigit(c) && c != '.'
  {
    if !(IsDigit(c) || (c == '.' && st.num != [])) {
      var f := Flush(st);
      if IsOperator(c) {
        PushOperatorParens(f, c);
        var r := PopWhileGeq(f.stack, f.output, Prec(c));
        assert Step(st, c) == Success(Shunt(r.0 + [c], r.1, []));
      } else if c == '(' {
        CountAppend(f.stack, ['('], '(');
      } else if c == ')' {
        CountNotIn(f.stack, '(');
        CloseParenParens(f);
        var r := PopToParen(f.stack, f.output).value;
        assert Step(st, c) == Success(Shunt(r.0, r.1, []));
      }
    }
  }

  lemma StepParensFacts(st: Shunt, s: string, n: nat) returns (st': Shunt, n': nat)
    requires Count(st.stack, '(') == n && s != [] && Scannable(s[0])
    requires !(s[0] == '.' && st.num == []) && !(s[0] == ')' && n == 0)
    ensures Scan(st', s[1..]) == Scan(st, s) && Count(st'.stack, '(') == n'
    ensures BalanceFrom(s[1..], n') == BalanceFrom(s, n)
    ensures StrayDotAfter(st'.num, s[1..]) == StrayDotAfter(st.num, s)
  {
    StepParens(st, s[0], n);
    st' := Step(st, s[0]).value;
    n' := if s[0] == '(' then n + 1 else if s[0] == ')' then n - 1 else n;
    StrayDotShift(st.num, st'.num, s);
  }

  /** Stray dots after one character, given the pending number the character leaves. */
  lemma StrayDotShift(num: string, num': string, s: string)
    requires s != [] && !(s[0] == '.' && num == [])
    requires num' == [] <==> !IsDigit(s[0]) && s[0] != '.'
    ensures StrayDotAfter(num', s[1..]) == StrayDotAfter(num, s)
  {
    if StrayDotAfter(num, s) {
      var i :| 0 <= i < |s| && StrayDotAt(num, s, i);
      assert i > 0;
      assert s[1..][i - 1] == s[i];
      if i > 1 {
        assert s[1..][i - 2] == s[i - 1];
      }
      assert StrayDotAt(num', s[1..], i - 1);
    }
    if StrayDotAfter(num', s[1..]) {
      var j :| 0 <= j < |s[1..]| && StrayDotAt(num', s[1..], j);
      assert s[1..][j] == s[j + 1];
      if j > 0 {
        assert s[1..][j - 1] == s[j];
      }
      assert StrayDotAt(num, s, j + 1);
    }
  }

  /** On text the loop can scan, it ends with no `(` left exactly when the parentheses
      balance from the current count and no dot stands outside a number. */
  lemma {:induction false} ScanIff(st: Shunt, s: string, n: nat)
    requires Count(st.stack, '(') == n
    requires forall i :: 0 <= i < |s| ==> Scannable(s[i])
    ensures (Scan(st, s).Success? && '(' !in Scan(st, s).value.stack) <==> BalanceFrom(s, n) && !StrayDotAfter(st.num, s)
    decreases |s|
  {
    if s == [] {
      CountNotIn(st.stack, '(');
    } else if s[0] == '.' && st.num == [] {
      assert StrayDotAt(st.num, s, 0);
      assert !IsSpace('.') && Step(st, s[0]).Failure?;
      assert Scan(st, s).Failure?;
    } else if s[0] == ')' && n == 0 {
      CountNotIn(st.stack, '(');
      assert PopToParen(Flush(st).stack, Flush(st).output).None?;
    } else {
      var st', n' := StepParensFacts(st, s, n);
      ScanIff(st', s[1..], n');
    }
  }

  /** On text made only of digits, operators, parentheses, dots and white space, the
      conversion succeeds exactly when the parentheses balance and no dot is stray. */
  lemma ConvertSucceedsIff(expr: string)
    requires forall i :: 0 <= i < |expr| ==> Scannable(expr[i])
    ensures Convert(expr).Success? <==> IsBracketsBalanced(expr) && !StrayDot(expr)
  {
    ScanIff(Shunt([], [], []), expr, 0);
  }

  /** Text that passed validation holds only characters the loop can scan, and its
      parentheses balance with spaces left in. */
  lemma ValidatedIsScannable(expr: string)
    requires ValidateExpression(expr) == Pass
    ensures forall i :: 0 <= i < |expr| ==> Scannable(expr[i])
    ensures IsBracketsBalanced(expr)
  {
    var e := StripSpaces(expr);
    AllAllowedIff(e);
    forall i | 0 <= i < |expr|
      ensures Scannable(expr[i])
    {
      if expr[i] != ' ' {
        assert expr[i] in e;
      }
    }
    BalanceFromStrip(expr, 0);
  }

  /** ToRPN succeeds exactly on validated text in which every dot belongs to a number. */
  lemma ToRPNSucceedsIff(expr: string)
    ensures ToRPN(expr).Success? <==> ValidateExpression(expr) == Pass && !StrayDot(expr)
  {
    if ValidateExpression(expr) == Pass {
      ValidatedIsScannable(expr);
      ConvertSucceedsIff(expr);
    }
  }

  /** A character the loop cannot scan makes the conversion fail, wherever it is. */
  lemma {:induction false} ScanRejects(st: Shunt, s: string, i: nat)
    requires i < |s| && !Scannable(s[i])
    ensures Scan(st, s).Failure?
    decreases i
  {
    if i > 0 && Step(st, s[0]).Success? {
      ScanRejects(Step(st, s[0]).value, s[1..], i - 1);
    }
  }

  lemma ConvertRejectsForeign(expr: string, i: nat)
    requires i < |expr| && !Scannable(expr[i])
    ensures Convert(expr) == Failure(InvalidExpression)
  {
    ScanRejects(Shunt([], [], []), expr, i);
  }
}
