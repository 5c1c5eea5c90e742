/** What the conversion of orchestrator/internal/service/helper/converter.go
    achieves on every expression its precedence table describes. An
    expression is a tree whose text is written without spaces; the tree is
    shaped the way the table reads the text: `*` and `/` bind tighter than
    `+` and `-`, and operators of one precedence group to the left. On the
    text of every such tree the loop produces the tree's postfix form, the
    validator objects to nothing but a trailing division by a literal zero,
    and the postfix form evaluates to the tree's value. */
module ShuntingYard {
  import opened Wrappers
  import opened Errors
  import opened Text
  import opened Validator
  import opened Converter
  import Numbers
  import Postfix

  /** An infix expression: a literal, a binary operation, or a parenthesised group. */
  datatype Expr =
    | Num(literal: string)
    | Bin(op: char, left: Expr, right: Expr)
    | Group(inner: Expr)

  /** A number literal as the converter's test tables write them: a digit,
      then digits with at most one dot. */
  predicate IsLiteral(n: string) {
    n != [] && IsDigit(n[0]) && Numbers.IsDecimal(n)
  }

  /** The precedence an expression exposes to an operator next to it; a
      literal or a group binds tightest. */
  function TopPrec(e: Expr): nat {
    if e.Bin? then Prec(e.op) else 3
  }

  /** The tree is one the precedence table produces: an operand on the left
      binds at least as tightly as its operator, one on the right strictly
      more tightly. */
  predicate WellFormed(e: Expr) {
    match e
    case Num(n) => IsLiteral(n)
    case Group(x) => WellFormed(x)
    case Bin(op, l, r) =>
      IsOperator(op) && WellFormed(l) && WellFormed(r) && TopPrec(l) >= Prec(op) && TopPrec(r) > Prec(op)
  }

  /** The text of the expression, without spaces. */
  function TextOf(e: Expr): string {
    match e
    case Num(n) => n
    case Group(x) => "(" + TextOf(x) + ")"
    case Bin(op, l, r) => TextOf(l) + [op] + TextOf(r)
  }

  /** The postfix form: operands first, then the operator. */
  function RPN(e: Expr): seq<string> {
    match e
    case Num(n) => [n]
    case Group(x) => RPN(x)
    case Bin(op, l, r) => RPN(l) + RPN(r) + [[op]]
  }

  /** The value with exact arithmetic; None where an operation has none. */
  function Value(e: Expr): Option<real> {
    match e
    case Num(n) => Numbers.ParseFloat(n)
    case Group(x) => Value(x)
    case Bin(op, l, r) =>
      if Value(l).Some? && Value(r).Some? then Postfix.Arithmetic([op], Value(l).value, Value(r).value)
      else None
  }

  // ---------------------------------------------------------------------------
  // The conversion loop on the text of a tree.

  /** The operators of the right spine: still on the stack when the text ends. */
  function Spine(e: Expr): seq<char> {
    match e
    case Bin(op, _, r) => [op] + Spine(r)
    case _ => []
  }

  /** The output written by the time the text ends. */
  function Done(e: Expr): seq<string> {
    match e
    case Num(_) => []
    case Group(x) => RPN(x)
    case Bin(_, l, r) => RPN(l) + Done(r)
  }

  /** The number still being read when the text ends. */
  function Tail(e: Expr): string {
    match e
    case Num(n) => n
    case Group(_) => ""
    case Bin(_, _, r) => Tail(r)
  }

  lemma EmitCons(c: char, x: seq<char>)
    ensures Emit([c] + x) == Emit(x) + [[c]]
  {
    var y := [c] + x;
    forall i | 0 <= i < |y|
      ensures Emit(y)[i] == (Emit(x) + [[c]])[i]
    {
      if i < |x| {
        assert y[|y| - 1 - i] == x[|x| - 1 - i];
      }
    }
  }

  /** The spine holds operators that bind at least as tightly as the tree's top. */
  lemma {:induction false} SpineFacts(e: Expr)
    requires WellFormed(e)
    ensures forall i :: 0 <= i < |Spine(e)| ==> IsOperator(Spine(e)[i]) && Prec(Spine(e)[i]) >= TopPrec(e)
    ensures '(' !in Spine(e)
  {
    match e
    case Num(_) =>
    case Group(_) =>
    case Bin(op, _, r) =>
      SpineFacts(r);
      forall i | 0 < i < |Spine(e)|
        ensures IsOperator(Spine(e)[i]) && Prec(Spine(e)[i]) >= TopPrec(e)
      {
        assert Spine(e)[i] == Spine(r)[i - 1];
      }
  }

  /** Written output, pending number and spine together are the postfix form. */
  lemma {:induction false} SplitRPN(e: Expr)
    requires WellFormed(e)
    ensures Done(e) + Pending(Tail(e)) + Emit(Spine(e)) == RPN(e)
  {
    match e
    case Num(n) =>
    case Group(x) =>
    case Bin(op, l, r) =>
      SplitRPN(r);
      EmitCons(op, Spine(r));
      calc {
        Done(e) + Pending(Tail(e)) + Emit(Spine(e));
        RPN(l) + Done(r) + Pending(Tail(r)) + (Emit(Spine(r)) + [[op]]);
        RPN(l) + (Done(r) + Pending(Tail(r)) + Emit(Spine(r))) + [[op]];
      }
  }

  lemma {:induction false} ScanConcat(st: Shunt, a: string, b: string)
    ensures Scan(st, a + b) ==
      match Scan(st, a)
      case Failure(e) => Failure(e)
      case Success(st1) => Scan(st1, b)
    decreases |a|
  {
    if a == [] {
      assert a + b == b;
    } else {
      assert (a + b)[0] == a[0] && (a + b)[1..] == a[1..] + b;
      match Step(st, a[0])
      case Failure(_) =>
      case Success(st1) =>
        ScanConcat(st1, a[1..], b);
    }
  }

  lemma ScanChar(st: Shunt, c: char)
    ensures Scan(st, [c]) == Step(st, c)
  {
    assert [c][0] == c && [c][1..] == [];
  }

  /** A literal's characters all join the number being read. */
  lemma {:induction false} ScanNumber(s: seq<char>, o: seq<string>, m: string, n: string)
    requires forall i :: 0 <= i < |n| ==> IsDigit(n[i]) || n[i] == '.'
    requires m != [] || (n != [] && IsDigit(n[0]))
    ensures Scan(Shunt(s, o, m), n) == Success(Shunt(s, o, m + n))
    decreases |n|
  {
    if n == [] {
      assert m + n == m;
    } else {
      assert Step(Shunt(s, o, m), n[0]) == Success(Shunt(s, o, m + [n[0]]));
      ScanNumber(s, o, m + [n[0]], n[1..]);
      assert m + [n[0]] + n[1..] == m + n;
    }
  }

  /** An operator pops exactly the entries above `s` that bind at least as tightly. */
  lemma PopAbove(s: seq<char>, x: seq<char>, out: seq<string>, p: nat)
    requires forall i :: 0 <= i < |x| ==> Prec(x[i]) >= p
    requires s == [] || Prec(s[|s| - 1]) < p
    ensures PopWhileGeq(s + x, out, p) == (s, out + Emit(x))
  {
    var st := s + x;
    var r := PopWhileGeq(st, out, p);
    assert st[..|s|] == s && st[|s|..] == x;
    assert |r.0| == |s|;
  }

  lemma PushOperator(s: seq<char>, x: seq<char>, out: seq<string>, num: string, op: char)
    requires IsOperator(op)
    requires forall i :: 0 <= i < |x| ==> Prec(x[i]) >= Prec(op)
    requires s == [] || Prec(s[|s| - 1]) < Prec(op)
    ensures Step(Shunt(s + x, out, num), op) == Success(Shunt(s + [op], out + Pending(num) + Emit(x), []))
  {
    PopAbove(s, x, out + Pending(num), Prec(op));
  }

  lemma OpenGroup(s: seq<char>, o: seq<string>)
    ensures Step(Shunt(s, o, []), '(') == Success(Shunt(s + ['('], o, []))
  {
    assert o + Pending([]) == o;
  }

  /** A `)` pops the operators above the nearest `(` and drops it. */
  lemma CloseGroup(s: seq<char>, x: seq<char>, out: seq<string>, num: string)
    requires '(' !in x
    ensures Step(Shunt(s + ['('] + x, out, num), ')') == Success(Shunt(s, out + Pending(num) + Emit(x), []))
  {
    ParenFound(s, x, out + Pending(num));
  }

  lemma ParenFound(s: seq<char>, x: seq<char>, out: seq<string>)
    requires '(' !in x
    ensures PopToParen(s + ['('] + x, out) == Some((s, out + Emit(x)))
  {
    var st := s + ['('] + x;
    assert st[|s|] == '(';
    var r := PopToParen(st, out);
    ParenIndex(st, s, x, |r.value.0|);
    assert st[..|s|] == s && st[|s| + 1..] == x;
  }

  /** The only `(` from `s + ['('] + x` on is the one after `s`. */
  lemma ParenIndex(st: seq<char>, s: seq<char>, x: seq<char>, k: nat)
    requires st == s + ['('] + x && '(' !in x
    requires k < |st| && st[k] == '(' && '(' !in st[k + 1..]
    ensures k == |s|
  {
    assert st[|s|] == '(';
    forall j | k < j < |st|
      ensures st[j] != '('
    {
      assert st[k + 1..][j - k - 1] == st[j];
    }
    forall j | |s| < j < |st|
      ensures st[j] != '('
    {
      assert st[j] == x[j - |s| - 1];
    }
  }

  /** The loop on the text of a tree, started after an entry that binds less
      tightly than the tree's top, pushes the right spine and writes the rest. */
  lemma {:induction false} ScanExpr(e: Expr, s: seq<char>, o: seq<string>)
    requires WellFormed(e)
    requires s == [] || Prec(s[|s| - 1]) < TopPrec(e)
    ensures Scan(Shunt(s, o, []), TextOf(e)) == Success(Shunt(s + Spine(e), o + Done(e), Tail(e)))
    decreases e
  {
    match e
    case Num(n) =>
      ScanNumber(s, o, [], n);
      assert s + [] == s && o + [] == o && [] + n == n;
    case Group(x) =>
      ScanExpr(x, s + ['('], o);
      ScanGroup(x, s, o);
      assert s + Spine(e) == s;
    case Bin(op, l, r) =>
      ScanExpr(l, s, o);
      ScanExpr(r, s + [op], o + RPN(l));
      ScanBin(op, l, r, s, o);
  }

  lemma ScanGroup(x: Expr, s: seq<char>, o: seq<string>)
    requires WellFormed(x)
    requires Scan(Shunt(s + ['('], o, []), TextOf(x)) == Success(Shunt(s + ['('] + Spine(x), o + Done(x), Tail(x)))
    ensures Scan(Shunt(s, o, []), TextOf(Group(x))) == Success(Shunt(s, o + RPN(x), []))
  {
    var st := Shunt(s, o, []);
    assert TextOf(Group(x)) == ("(" + TextOf(x)) + ")";
    ScanConcat(st, "(" + TextOf(x), ")");
    ScanConcat(st, "(", TextOf(x));
    ScanChar(st, '(');
    OpenGroup(s, o);
    SpineFacts(x);
    ScanChar(Shunt(s + ['('] + Spine(x), o + Done(x), Tail(x)), ')');
    CloseGroup(s, Spine(x), o + Done(x), Tail(x));
    SplitRPN(x);
    assert o + Done(x) + Pending(Tail(x)) + Emit(Spine(x)) == o + RPN(x);
  }

  lemma ScanBin(op: char, l: Expr, r: Expr, s: seq<char>, o: seq<string>)
    requires WellFormed(Bin(op, l, r))
    requires s == [] || Prec(s[|s| - 1]) < Prec(op)
    requires Scan(Shunt(s, o, []), TextOf(l)) == Success(Shunt(s + Spine(l), o + Done(l), Tail(l)))
    requires Scan(Shunt(s + [op], o + RPN(l), []), TextOf(r)) == Success(Shunt(s + [op] + Spine(r), o + RPN(l) + Done(r), Tail(r)))
    ensures Scan(Shunt(s, o, []), TextOf(Bin(op, l, r))) == Success(Shunt(s + ([op] + Spine(r)), o + (RPN(l) + Done(r)), Tail(r)))
  {
    var st := Shunt(s, o, []);
    var left := TextOf(l) + [op];
    assert TextOf(Bin(op, l, r)) == left + TextOf(r);
    ScanLeftOperand(op, l, s, o);
    ScanConcat(st, left, TextOf(r));
    Regroup(s, [op], Spine(r), o, RPN(l), Done(r));
  }

  /** The left operand and its operator: the operand is written out and the operator pushed. */
  lemma ScanLeftOperand(op: char, l: Expr, s: seq<char>, o: seq<string>)
    requires WellFormed(l) && IsOperator(op) && TopPrec(l) >= Prec(op)
    requires s == [] || Prec(s[|s| - 1]) < Prec(op)
    requires Scan(Shunt(s, o, []), TextOf(l)) == Success(Shunt(s + Spine(l), o + Done(l), Tail(l)))
    ensures Scan(Shunt(s, o, []), TextOf(l) + [op]) == Success(Shunt(s + [op], o + RPN(l), []))
  {
    var mid := Shunt(s + Spine(l), o + Done(l), Tail(l));
    ScanConcat(Shunt(s, o, []), TextOf(l), [op]);
    ScanChar(mid, op);
    OperatorAfterOperand(op, l, s, o);
  }

  lemma OperatorAfterOperand(op: char, l: Expr, s: seq<char>, o: seq<string>)
    requires WellFormed(l) && IsOperator(op) && TopPrec(l) >= Prec(op)
    requires s == [] || Prec(s[|s| - 1]) < Prec(op)
    ensures Step(Shunt(s + Spine(l), o + Done(l), Tail(l)), op) == Success(Shunt(s + [op], o + RPN(l), []))
  {
    SpineFacts(l);
    PushOperator(s, Spine(l), o + Done(l), Tail(l), op);
    SplitRPN(l);
    Associate(o, Done(l), Pending(Tail(l)), Emit(Spine(l)));
  }

  lemma Associate(o: seq<string>, a: seq<string>, b: seq<string>, c: seq<string>)
    ensures o + a + b + c == o + (a + b + c)
  {
  }

  /** The conversion loop turns the text of every tree into its postfix form:
      operands keep their order, and each operator comes right after its
      second operand, so tighter operators leave first and operators of one
      precedence leave left to right. */
  lemma ConvertIsPostfix(e: Expr)
    requires WellFormed(e)
    ensures Convert(TextOf(e)) == Success(RPN(e))
  {
    ScanExpr(e, [], []);
    assert [] + Spine(e) == Spine(e) && [] + Done(e) == Done(e);
    SpineFacts(e);
    SplitRPN(e);
  }

  // ---------------------------------------------------------------------------
  // Spaces in front of tokens: the loop skips them, after writing out a number.

  /** The text with a space in front of every token. */
  function SpacedText(e: Expr): string {
    match e
    case Num(n) => " " + n
    case Group(x) => " (" + SpacedText(x) + " )"
    case Bin(op, l, r) => SpacedText(l) + " " + [op] + SpacedText(r)
  }

  lemma SpaceStep(s: seq<char>, o: seq<string>, num: string)
    ensures Step(Shunt(s, o, num), ' ') == Success(Shunt(s, o + Pending(num), []))
  {
  }

  lemma {:induction false} ScanSpaced(e: Expr, s: seq<char>, o: seq<string>)
    requires WellFormed(e)
    requires s == [] || Prec(s[|s| - 1]) < TopPrec(e)
    ensures Scan(Shunt(s, o, []), SpacedText(e)) == Success(Shunt(s + Spine(e), o + Done(e), Tail(e)))
    decreases e
  {
    match e
    case Num(n) =>
      var st := Shunt(s, o, []);
      ScanConcat(st, " ", n);
      ScanChar(st, ' ');
      SpaceStep(s, o, []);
      assert o + Pending([]) == o;
      ScanNumber(s, o, [], n);
      assert s + [] == s && o + [] == o && [] + n == n;
    case Group(x) =>
      ScanSpaced(x, s + ['('], o);
      SpacedGroup(x, s, o);
      assert s + Spine(e) == s;
    case Bin(op, l, r) =>
      ScanSpaced(l, s, o);
      ScanSpaced(r, s + [op], o + RPN(l));
      SpacedBin(op, l, r, s, o);
  }

  lemma SpacedGroup(x: Expr, s: seq<char>, o: seq<string>)
    requires WellFormed(x)
    requires Scan(Shunt(s + ['('], o, []), SpacedText(x)) == Success(Shunt(s + ['('] + Spine(x), o + Done(x), Tail(x)))
    ensures Scan(Shunt(s, o, []), SpacedText(Group(x))) == Success(Shunt(s, o + RPN(x), []))
  {
    var st := Shunt(s, o, []);
    OpenSpacedGroup(s, o);
    assert SpacedText(Group(x)) == " (" + SpacedText(x) + " )";
    ScanConcat(st, " (" + SpacedText(x), " )");
    ScanConcat(st, " (", SpacedText(x));
    CloseSpacedGroup(x, s, o);
  }

  lemma OpenSpacedGroup(s: seq<char>, o: seq<string>)
    ensures Scan(Shunt(s, o, []), " (") == Success(Shunt(s + ['('], o, []))
  {
    var st := Shunt(s, o, []);
    assert " (" == " " + "(";
    ScanConcat(st, " ", "(");
    ScanChar(st, ' ');
    SpaceStep(s, o, []);
    assert o + Pending([]) == o;
    ScanChar(st, '(');
    OpenGroup(s, o);
  }

  lemma CloseSpacedGroup(x: Expr, s: seq<char>, o: seq<string>)
    requires WellFormed(x)
    ensures Scan(Shunt(s + ['('] + Spine(x), o + Done(x), Tail(x)), " )") == Success(Shunt(s, o + RPN(x), []))
  {
    var mid := Shunt(s + ['('] + Spine(x), o + Done(x), Tail(x));
    var out := o + Done(x) + Pending(Tail(x));
    var flushed := Shunt(s + ['('] + Spine(x), out, []);
    assert " )" == " " + ")";
    ScanConcat(mid, " ", ")");
    ScanChar(mid, ' ');
    SpaceStep(s + ['('] + Spine(x), o + Done(x), Tail(x));
    ScanChar(flushed, ')');
    SpineFacts(x);
    CloseGroup(s, Spine(x), out, []);
    assert out + Pending([]) == out;
    SplitRPN(x);
    Associate(o, Done(x), Pending(Tail(x)), Emit(Spine(x)));
  }

  lemma SpacedBin(op: char, l: Expr, r: Expr, s: seq<char>, o: seq<string>)
    requires WellFormed(Bin(op, l, r))
    requires s == [] || Prec(s[|s| - 1]) < Prec(op)
    requires Scan(Shunt(s, o, []), SpacedText(l)) == Success(Shunt(s + Spine(l), o + Done(l), Tail(l)))
    requires Scan(Shunt(s + [op], o + RPN(l), []), SpacedText(r)) == Success(Shunt(s + [op] + Spine(r), o + RPN(l) + Done(r), Tail(r)))
    ensures Scan(Shunt(s, o, []), SpacedText(Bin(op, l, r))) == Success(Shunt(s + ([op] + Spine(r)), o + (RPN(l) + Done(r)), Tail(r)))
  {
    var st := Shunt(s, o, []);
    var left := SpacedText(l) + " " + [op];
    assert SpacedText(Bin(op, l, r)) == left + SpacedText(r);
    SpacedLeftOperand(op, l, s, o);
    ScanConcat(st, left, SpacedText(r));
    Regroup(s, [op], Spine(r), o, RPN(l), Done(r));
  }

  lemma Regroup<T, U>(s: seq<T>, a: seq<T>, b: seq<T>, o: seq<U>, c: seq<U>, d: seq<U>)
    ensures s + a + b == s + (a + b) && o + c + d == o + (c + d)
  {
  }

  lemma SpacedLeftOperand(op: char, l: Expr, s: seq<char>, o: seq<string>)
    requires WellFormed(l) && IsOperator(op) && TopPrec(l) >= Prec(op)
    requires s == [] || Prec(s[|s| - 1]) < Prec(op)
    requires Scan(Shunt(s, o, []), SpacedText(l)) == Success(Shunt(s + Spine(l), o + Done(l), Tail(l)))
    ensures Scan(Shunt(s, o, []), SpacedText(l) + " " + [op]) == Success(Shunt(s + [op], o + RPN(l), []))
  {
    var st := Shunt(s, o, []);
    var mid := Shunt(s + Spine(l), o + Done(l), Tail(l));
    var flushed := Shunt(s + Spine(l), o + Done(l) + Pending(Tail(l)), []);
    ScanConcat(st, SpacedText(l) + " ", [op]);
    ScanConcat(st, SpacedText(l), " ");
    ScanChar(mid, ' ');
    SpaceStep(s + Spine(l), o + Done(l), Tail(l));
    ScanChar(flushed, op);
    SpacedOperator(op, l, s, o);
  }

  lemma SpacedOperator(op: char, l: Expr, s: seq<char>, o: seq<string>)
    requires WellFormed(l) && IsOperator(op) && TopPrec(l) >= Prec(op)
    requires s == [] || Prec(s[|s| - 1]) < Prec(op)
    ensures Step(Shunt(s + Spine(l), o + Done(l) + Pending(Tail(l)), []), op) == Success(Shunt(s + [op], o + RPN(l), []))
  {
    var out := o + Done(l) + Pending(Tail(l));
    SpineFacts(l);
    PushOperator(s, Spine(l), out, [], op);
    assert out + Pending([]) == out;
    SplitRPN(l);
    Associate(o, Done(l), Pending(Tail(l)), Emit(Spine(l)));
  }

  /** Spaces in front of the tokens, and at the end, change nothing: the loop
      still produces the postfix form. */
  lemma ConvertSpacedIsPostfix(e: Expr)
    requires WellFormed(e)
    ensures Convert(SpacedText(e) + " ") == Success(RPN(e))
  {
    var st := Shunt([], [], []);
    ScanSpaced(e, [], []);
    assert [] + Spine(e) == Spine(e) && [] + Done(e) == Done(e);
    ScanConcat(st, SpacedText(e), " ");
    ScanChar(Shunt(Spine(e), Done(e), Tail(e)), ' ');
    SpaceStep(Spine(e), Done(e), Tail(e));
    assert Done(e) + Pending(Tail(e)) + Pending([]) == Done(e) + Pending(Tail(e));
    SpineFacts(e);
    SplitRPN(e);
  }

  lemma {:induction false} StripConcat(a: string, b: string)
    ensures StripSpaces(a + b) == StripSpaces(a) + StripSpaces(b)
    decreases |a|
  {
    if a == [] {
      assert a + b == b;
    } else {
      assert (a + b)[0] == a[0] && (a + b)[1..] == a[1..] + b;
      StripConcat(a[1..], b);
    }
  }

  /** Removing the spaces of the spaced text gives back the plain text. */
  lemma {:induction false} StripSpacedText(e: Expr)
    requires WellFormed(e)
    ensures StripSpaces(SpacedText(e)) == TextOf(e)
    decreases e
  {
    match e
    case Num(n) =>
      StripConcat(" ", n);
      CleanTree(e);
      StripSpacesFixed(n);
    case Group(x) =>
      StripSpacedText(x);
      StripConcat(" (" + SpacedText(x), " )");
      StripConcat(" (", SpacedText(x));
      assert StripSpaces(" (") == "(" && StripSpaces(" )") == ")";
    case Bin(op, l, r) =>
      StripSpacedText(l);
      StripSpacedText(r);
      StripConcat(SpacedText(l) + " " + [op], SpacedText(r));
      StripConcat(SpacedText(l) + " ", [op]);
      StripConcat(SpacedText(l), " ");
      assert StripSpaces(" ") == [] && StripSpaces([op]) == [op];
      assert TextOf(l) + [] + [op] == TextOf(l) + [op];
  }

  /** ToRPN on the spaced text is the postfix form whenever the plain text
      does not end in `0`: validation removes the spaces, the loop skips them. */
  lemma ToRPNSpacedNotEndingInZero(e: Expr)
    requires WellFormed(e) && TextOf(e)[|TextOf(e)| - 1] != '0'
    ensures ToRPN(SpacedText(e) + " ") == Success(RPN(e))
  {
    var t := SpacedText(e) + " ";
    StripSpacedText(e);
    StripConcat(SpacedText(e), " ");
    assert StripSpaces(" ") == [];
    assert StripSpaces(t) == TextOf(e);
    ValidateIgnoresSpaces(t);
    ToRPNNotEndingInZero(e);
    ConvertSpacedIsPostfix(e);
  }

  // ---------------------------------------------------------------------------
  // The validator on the text of a tree.

  /** Text the validator's syntax checks accept, stated character by character. */
  ghost predicate CleanText(t: string) {
    && t != []
    && (IsDigit(t[0]) || t[0] == '(')
    && (IsDigit(t[|t| - 1]) || t[|t| - 1] == '.' || t[|t| - 1] == ')')
    && (forall i :: 0 <= i < |t| ==> IsDigit(t[i]) || t[i] == '.' || IsOperator(t[i]) || IsParen(t[i]))
    && (forall i :: 0 <= i < |t| - 1 ==> !(IsOperator(t[i]) && IsOperator(t[i + 1])))
    && (forall i, j :: 0 <= i < j < |t| && t[i] == '.' && t[j] == '.' ==> !OnlyDigitsBetween(t, i, j))
  }

  lemma CleanLiteral(n: string)
    requires IsLiteral(n)
    ensures CleanText(n)
  {
    var k := Numbers.DotIndex(n);
    if k < |n| {
      Numbers.NoDotAfterFirst(n, k);
    }
  }

  lemma CleanGroup(a: string)
    requires CleanText(a)
    ensures CleanText("(" + a + ")")
  {
    var u := "(" + a + ")";
    assert forall i :: 0 < i < |u| - 1 ==> u[i] == a[i - 1];
    forall i, j | 0 <= i < j < |u| && u[i] == '.' && u[j] == '.'
      ensures !OnlyDigitsBetween(u, i, j)
    {
      assert !OnlyDigitsBetween(a, i - 1, j - 1);
      var k :| i - 1 < k < j - 1 && !IsDigit(a[k]);
      assert u[k + 1] == a[k];
    }
  }

  lemma CleanBin(a: string, op: char, b: string)
    requires CleanText(a) && CleanText(b) && IsOperator(op)
    ensures CleanText(a + [op] + b)
  {
    var u := a + [op] + b;
    assert forall i :: 0 <= i < |a| ==> u[i] == a[i];
    assert u[|a|] == op;
    assert forall i :: |a| < i < |u| ==> u[i] == b[i - |a| - 1];
    forall i, j | 0 <= i < j < |u| && u[i] == '.' && u[j] == '.'
      ensures !OnlyDigitsBetween(u, i, j)
    {
      if j < |a| {
        assert !OnlyDigitsBetween(a, i, j);
        var k :| i < k < j && !IsDigit(a[k]);
        assert u[k] == a[k];
      } else if i > |a| {
        assert !OnlyDigitsBetween(b, i - |a| - 1, j - |a| - 1);
        var k :| i - |a| - 1 < k < j - |a| - 1 && !IsDigit(b[k]);
        assert u[k + |a| + 1] == b[k];
      } else {
        assert i < |a| < j && !IsDigit(u[|a|]);
      }
    }
  }

  lemma {:induction false} CleanTree(e: Expr)
    requires WellFormed(e)
    ensures CleanText(TextOf(e))
    decreases e
  {
    match e
    case Num(n) => CleanLiteral(n);
    case Group(x) => CleanTree(x); CleanGroup(TextOf(x));
    case Bin(op, l, r) => CleanTree(l); CleanTree(r); CleanBin(TextOf(l), op, TextOf(r));
  }

  lemma {:induction false} BalanceSkips(n: string, rest: string, c: int)
    requires forall i :: 0 <= i < |n| ==> !IsParen(n[i])
    ensures BalanceFrom(n + rest, c) == BalanceFrom(rest, c)
    decreases |n|
  {
    if n == [] {
      assert n + rest == rest;
    } else {
      assert (n + rest)[0] == n[0] && (n + rest)[1..] == n[1..] + rest;
      BalanceSkips(n[1..], rest, c);
    }
  }

  /** The text of a tree closes every parenthesis it opens and never closes one it did not open. */
  lemma {:induction false} BalanceTree(e: Expr, rest: string, c: int)
    requires WellFormed(e) && c >= 0
    ensures BalanceFrom(TextOf(e) + rest, c) == BalanceFrom(rest, c)
    decreases e
  {
    match e
    case Num(n) =>
      BalanceSkips(n, rest, c);
    case Group(x) =>
      var u := TextOf(e) + rest;
      assert u[0] == '(' && u[1..] == TextOf(x) + (")" + rest);
      BalanceTree(x, ")" + rest, c + 1);
      assert (")" + rest)[0] == ')' && (")" + rest)[1..] == rest;
    case Bin(op, l, r) =>
      assert TextOf(e) + rest == TextOf(l) + ([op] + (TextOf(r) + rest));
      BalanceTree(l, [op] + (TextOf(r) + rest), c);
      BalanceSkips([op], TextOf(r) + rest, c);
      BalanceTree(r, rest, c);
  }

  /** On the text of a tree the validator fails only on a trailing division
      by a literal zero, and that failure is ErrDivideByZero. */
  lemma ValidatesTree(e: Expr)
    requires WellFormed(e)
    ensures ValidateExpression(TextOf(e)) == if EndsWithDivisionByZero(TextOf(e)) then Fail(DivideByZero) else Pass
  {
    var t := TextOf(e);
    CleanTree(e);
    TreeBalanced(e);
    CleanPasses(t);
  }

  lemma TreeBalanced(e: Expr)
    requires WellFormed(e)
    ensures IsBracketsBalanced(TextOf(e))
  {
    BalanceTree(e, [], 0);
    assert TextOf(e) + [] == TextOf(e);
  }

  lemma CleanPasses(t: string)
    requires CleanText(t) && IsBracketsBalanced(t)
    ensures StripSpaces(t) == t && PassesSyntaxChecks(t)
  {
    StripSpacesFixed(t);
    AllAllowedIff(t);
    AdjacentOperatorsIff(t);
    DotDigitsDotIff(t);
  }

  /** ToRPN on the text of a tree: the postfix form, unless the text ends in
      a division by a literal zero. */
  lemma ToRPNIsPostfix(e: Expr)
    requires WellFormed(e)
    ensures ToRPN(TextOf(e)) == if EndsWithDivisionByZero(TextOf(e)) then Failure(InvalidExpression) else Success(RPN(e))
  {
    ValidatesTree(e);
    ConvertIsPostfix(e);
  }

  /** A text that does not end in `0` cannot end in a division by zero: it
      passes validation and ToRPN returns the postfix form. */
  lemma ToRPNNotEndingInZero(e: Expr)
    requires WellFormed(e) && TextOf(e)[|TextOf(e)| - 1] != '0'
    ensures ValidateExpression(TextOf(e)) == Pass
    ensures ToRPN(TextOf(e)) == Success(RPN(e))
  {
    ValidatesTree(e);
    CleanTree(e);
    if EndsWithDivisionByZero(TextOf(e)) {
      DivisionByZeroEndsInZero(TextOf(e));
    }
    ConvertIsPostfix(e);
  }

  // ---------------------------------------------------------------------------
  // The postfix form means what the tree means.

  /** Evaluating the postfix form of a tree pushes the tree's value, or stops
      where an operation has none. */
  lemma {:induction false} EvalTree(e: Expr, stack: seq<real>)
    requires WellFormed(e)
    ensures Postfix.Eval(RPN(e), stack, Postfix.Arithmetic) ==
      if Value(e).Some? then Success(stack + [Value(e).value]) else Failure(Postfix.Undefined)
    decreases e
  {
    match e
    case Num(n) =>
      assert [n][0] == n && [n][1..] == [];
    case Group(x) =>
      EvalTree(x, stack);
    case Bin(op, l, r) =>
      Postfix.EvalAppend(RPN(l) + RPN(r), [[op]], stack, Postfix.Arithmetic);
      Postfix.EvalAppend(RPN(l), RPN(r), stack, Postfix.Arithmetic);
      EvalTree(l, stack);
      if Value(l).Some? {
        var a := Value(l).value;
        EvalTree(r, stack + [a]);
        if Value(r).Some? {
          var b := Value(r).value;
          var st := stack + [a] + [b];
          Numbers.OperatorIsNotNumber(op);
          assert [[op]][0] == [op] && [[op]][1..] == [];
          assert st[|st| - 2] == a && st[|st| - 1] == b && st[..|st| - 2] == stack;
        }
      }
  }

  /** The postfix form evaluates to the tree's value under the precedence the
      tree encodes, or has no value where some operation has none. */
  lemma PostfixEvaluatesTree(e: Expr)
    requires WellFormed(e)
    ensures Postfix.EvalPostfix(RPN(e), Postfix.Arithmetic) ==
      if Value(e).Some? then Success(Value(e).value) else Failure(Postfix.Undefined)
  {
    EvalTree(e, []);
  }
}
