/** The conversions of the converter's table-driven tests, and the one
    validator case with nested brackets. Each text is the text
    of an expression tree, so ToRPN on it is the tree's postfix form by the
    theorem of the ShuntingYard module; the lemmas named `...Tree` give the tree. */
module ConverterExamples {
  import opened Wrappers
  import opened Errors
  import opened Validator
  import opened Converter
  import opened ShuntingYard

  /** ToRPN on the text of a well-formed tree whose last digit is not `0`. */
  lemma ToRPNOfTree(t: string, e: Expr, out: seq<string>)
    requires WellFormed(e) && TextOf(e) == t && RPN(e) == out
    requires t[|t| - 1] != '0'
    ensures ToRPN(t) == Success(out)
  {
    ToRPNNotEndingInZero(e);
  }

  lemma PrecedenceAndParenthesesTree() returns (e: Expr)
    ensures WellFormed(e) && TextOf(e) == "3+4*2/(1-5)"
    ensures RPN(e) == ["3", "4", "2", "*", "1", "5", "-", "/", "+"]
  {
    var r := PrecedenceAndParenthesesRight();
    e := Bin('+', Num("3"), r);
  }

  lemma PrecedenceAndParenthesesRight() returns (r: Expr)
    ensures WellFormed(r) && TopPrec(r) == 2 && TextOf(r) == "4*2/(1-5)"
    ensures RPN(r) == ["4", "2", "*", "1", "5", "-", "/"]
  {
    r := Bin('/', Bin('*', Num("4"), Num("2")), Group(Bin('-', Num("1"), Num("5"))));
  }

  /** `3+4*2/(1-5)` becomes `3 4 2 * 1 5 - / +`. */
  lemma PrecedenceAndParentheses()
    ensures ToRPN("3+4*2/(1-5)") == Success(["3", "4", "2", "*", "1", "5", "-", "/", "+"])
  {
    var e := PrecedenceAndParenthesesTree();
    ToRPNOfTree("3+4*2/(1-5)", e, ["3", "4", "2", "*", "1", "5", "-", "/", "+"]);
  }

  lemma MultipleParenthesesTree() returns (e: Expr)
    ensures WellFormed(e) && TextOf(e) == "5+((3*4)/2)-1"
    ensures RPN(e) == ["5", "3", "4", "*", "2", "/", "+", "1", "-"]
  {
    var g := MultipleParenthesesGroup();
    var l := Bin('+', Num("5"), g);
    assert TextOf(l) == "5+((3*4)/2)" && RPN(l) == ["5", "3", "4", "*", "2", "/", "+"];
    e := Bin('-', l, Num("1"));
  }

  lemma MultipleParenthesesGroup() returns (g: Expr)
    ensures WellFormed(g) && TopPrec(g) == 3 && TextOf(g) == "((3*4)/2)"
    ensures RPN(g) == ["3", "4", "*", "2", "/"]
  {
    g := Group(Bin('/', Group(Bin('*', Num("3"), Num("4"))), Num("2")));
  }

  /** `5+((3*4)/2)-1` becomes `5 3 4 * 2 / + 1 -`. */
  lemma MultipleParentheses()
    ensures ToRPN("5+((3*4)/2)-1") == Success(["5", "3", "4", "*", "2", "/", "+", "1", "-"])
  {
    var e := MultipleParenthesesTree();
    ToRPNOfTree("5+((3*4)/2)-1", e, ["5", "3", "4", "*", "2", "/", "+", "1", "-"]);
  }

  lemma LeftToRightTree() returns (e: Expr)
    ensures WellFormed(e) && TextOf(e) == "1+2+3+4+5"
    ensures RPN(e) == ["1", "2", "+", "3", "+", "4", "+", "5", "+"]
  {
    var l := LeftToRightPrefix();
    var m := Bin('+', l, Num("4"));
    assert TextOf(m) == "1+2+3+4" && RPN(m) == ["1", "2", "+", "3", "+", "4", "+"];
    e := Bin('+', m, Num("5"));
  }

  lemma LeftToRightPrefix() returns (l: Expr)
    ensures WellFormed(l) && TopPrec(l) == 1 && TextOf(l) == "1+2+3"
    ensures RPN(l) == ["1", "2", "+", "3", "+"]
  {
    l := Bin('+', Bin('+', Num("1"), Num("2")), Num("3"));
  }

  /** `1+2+3+4+5` associates to the left: `1 2 + 3 + 4 + 5 +`. */
  lemma LeftToRight()
    ensures ToRPN("1+2+3+4+5") == Success(["1", "2", "+", "3", "+", "4", "+", "5", "+"])
  {
    var e := LeftToRightTree();
    ToRPNOfTree("1+2+3+4+5", e, ["1", "2", "+", "3", "+", "4", "+", "5", "+"]);
  }

  lemma NestedParenthesesTree() returns (e: Expr)
    ensures WellFormed(e) && TextOf(e) == "((2+3)*(4+5))"
    ensures RPN(e) == ["2", "3", "+", "4", "5", "+", "*"]
  {
    var l := NestedParenthesesLeft();
    var r := NestedParenthesesRight();
    var b := Bin('*', l, r);
    assert TextOf(b) == "(2+3)*(4+5)" && RPN(b) == ["2", "3", "+", "4", "5", "+", "*"];
    e := Group(b);
  }

  lemma NestedParenthesesLeft() returns (g: Expr)
    ensures WellFormed(g) && TopPrec(g) == 3 && TextOf(g) == "(2+3)" && RPN(g) == ["2", "3", "+"]
  {
    g := Group(Bin('+', Num("2"), Num("3")));
  }

  lemma NestedParenthesesRight() returns (g: Expr)
    ensures WellFormed(g) && TopPrec(g) == 3 && TextOf(g) == "(4+5)" && RPN(g) == ["4", "5", "+"]
  {
    g := Group(Bin('+', Num("4"), Num("5")));
  }

  /** `((2+3)*(4+5))` becomes `2 3 + 4 5 + *`. */
  lemma NestedParentheses()
    ensures ToRPN("((2+3)*(4+5))") == Success(["2", "3", "+", "4", "5", "+", "*"])
  {
    var e := NestedParenthesesTree();
    ToRPNOfTree("((2+3)*(4+5))", e, ["2", "3", "+", "4", "5", "+", "*"]);
  }

  lemma DecimalNumbersTree() returns (e: Expr)
    ensures WellFormed(e) && TextOf(e) == "0.5+1.25*2"
    ensures RPN(e) == ["0.5", "1.25", "2", "*", "+"]
  {
    var r := DecimalNumbersProduct();
    e := Bin('+', Num("0.5"), r);
  }

  lemma DecimalNumbersProduct() returns (r: Expr)
    ensures WellFormed(r) && TopPrec(r) == 2 && TextOf(r) == "1.25*2"
    ensures RPN(r) == ["1.25", "2", "*"]
  {
    r := Bin('*', Num("1.25"), Num("2"));
  }

  /** `0.5+1.25*2` keeps the decimals whole: `0.5 1.25 2 * +`. */
  lemma DecimalNumbers()
    ensures ToRPN("0.5+1.25*2") == Success(["0.5", "1.25", "2", "*", "+"])
  {
    var e := DecimalNumbersTree();
    ToRPNOfTree("0.5+1.25*2", e, ["0.5", "1.25", "2", "*", "+"]);
  }

  lemma ParenthesisedDifferenceTree() returns (e: Expr)
    ensures WellFormed(e) && TextOf(e) == "4+(3-2)*2"
    ensures RPN(e) == ["4", "3", "2", "-", "2", "*", "+"]
  {
    e := Bin('+', Num("4"), Bin('*', Group(Bin('-', Num("3"), Num("2"))), Num("2")));
  }

  /** `4+(3-2)*2` becomes `4 3 2 - 2 * +`. */
  lemma ParenthesisedDifference()
    ensures ToRPN("4+(3-2)*2") == Success(["4", "3", "2", "-", "2", "*", "+"])
  {
    var e := ParenthesisedDifferenceTree();
    ToRPNOfTree("4+(3-2)*2", e, ["4", "3", "2", "-", "2", "*", "+"]);
  }

  lemma ComplexWithoutSpacesTree() returns (e: Expr)
    ensures WellFormed(e) && TextOf(e) == "6/(2*(1+2))"
    ensures RPN(e) == ["6", "2", "1", "2", "+", "*", "/"]
  {
    var g := ComplexWithoutSpacesGroup();
    e := Bin('/', Num("6"), g);
  }

  lemma ComplexWithoutSpacesGroup() returns (g: Expr)
    ensures WellFormed(g) && TopPrec(g) == 3 && TextOf(g) == "(2*(1+2))"
    ensures RPN(g) == ["2", "1", "2", "+", "*"]
  {
    g := Group(Bin('*', Num("2"), Group(Bin('+', Num("1"), Num("2")))));
  }

  /** `6/(2*(1+2))` becomes `6 2 1 2 + * /`. */
  lemma ComplexWithoutSpaces()
    ensures ToRPN("6/(2*(1+2))") == Success(["6", "2", "1", "2", "+", "*", "/"])
  {
    var e := ComplexWithoutSpacesTree();
    ToRPNOfTree("6/(2*(1+2))", e, ["6", "2", "1", "2", "+", "*", "/"]);
  }

  lemma WhitespaceTree() returns (e: Expr)
    ensures WellFormed(e) && TextOf(e) == "7+8*(9-3)" && SpacedText(e) + " " == " 7 + 8 * ( 9 - 3 ) "
    ensures RPN(e) == ["7", "8", "9", "3", "-", "*", "+"]
  {
    var m := WhitespaceProduct();
    e := Bin('+', Num("7"), m);
    assert TextOf(e) == "7+8*(9-3)" && SpacedText(e) == " 7 + 8 * ( 9 - 3 )";
  }

  lemma WhitespaceProduct() returns (m: Expr)
    ensures WellFormed(m) && TopPrec(m) == 2 && TextOf(m) == "8*(9-3)" && SpacedText(m) == " 8 * ( 9 - 3 )"
    ensures RPN(m) == ["8", "9", "3", "-", "*"]
  {
    var r := WhitespaceGroup();
    m := Bin('*', Num("8"), r);
    assert TextOf(m) == "8*(9-3)" && SpacedText(m) == " 8 * ( 9 - 3 )";
  }

  lemma WhitespaceGroup() returns (r: Expr)
    ensures WellFormed(r) && TopPrec(r) == 3 && TextOf(r) == "(9-3)" && SpacedText(r) == " ( 9 - 3 )"
    ensures RPN(r) == ["9", "3", "-"]
  {
    r := Group(Bin('-', Num("9"), Num("3")));
  }

  /** ` 7 + 8 * ( 9 - 3 ) `: the spaces are skipped, giving `7 8 9 3 - * +`. */
  lemma Whitespace()
    ensures ToRPN(" 7 + 8 * ( 9 - 3 ) ") == Success(["7", "8", "9", "3", "-", "*", "+"])
  {
    var e := WhitespaceTree();
    ToRPNSpacedNotEndingInZero(e);
  }

  lemma DivisionBeforeAdditionTree() returns (e: Expr)
    ensures WellFormed(e) && TextOf(e) == "10/2+3"
    ensures RPN(e) == ["10", "2", "/", "3", "+"]
  {
    e := Bin('+', Bin('/', Num("10"), Num("2")), Num("3"));
  }

  /** `10/2+3` becomes `10 2 / 3 +`. */
  lemma DivisionBeforeAddition()
    ensures ToRPN("10/2+3") == Success(["10", "2", "/", "3", "+"])
  {
    var e := DivisionBeforeAdditionTree();
    ToRPNOfTree("10/2+3", e, ["10", "2", "/", "3", "+"]);
  }

  lemma MultipleNestedOperationsTree() returns (e: Expr)
    ensures WellFormed(e) && TextOf(e) == "((1+2)*3)-(4/(2+2))"
    ensures RPN(e) == ["1", "2", "+", "3", "*", "4", "2", "2", "+", "/", "-"]
  {
    var l := MultipleNestedLeft();
    var r := MultipleNestedRight();
    e := Bin('-', l, r);
  }

  lemma MultipleNestedLeft() returns (l: Expr)
    ensures WellFormed(l) && TopPrec(l) == 3 && TextOf(l) == "((1+2)*3)"
    ensures RPN(l) == ["1", "2", "+", "3", "*"]
  {
    l := Group(Bin('*', Group(Bin('+', Num("1"), Num("2"))), Num("3")));
  }

  lemma MultipleNestedRight() returns (r: Expr)
    ensures WellFormed(r) && TopPrec(r) == 3 && TextOf(r) == "(4/(2+2))"
    ensures RPN(r) == ["4", "2", "2", "+", "/"]
  {
    r := Group(Bin('/', Num("4"), Group(Bin('+', Num("2"), Num("2")))));
  }

  /** `((1+2)*3)-(4/(2+2))` becomes `1 2 + 3 * 4 2 2 + / -`. */
  lemma MultipleNestedOperations()
    ensures ToRPN("((1+2)*3)-(4/(2+2))") == Success(["1", "2", "+", "3", "*", "4", "2", "2", "+", "/", "-"])
  {
    var e := MultipleNestedOperationsTree();
    ToRPNOfTree("((1+2)*3)-(4/(2+2))", e, ["1", "2", "+", "3", "*", "4", "2", "2", "+", "/", "-"]);
  }

  lemma ExtraBracketsTree() returns (e: Expr)
    ensures WellFormed(e) && TextOf(e) == "((2+3)*4)"
  {
    var g := NestedParenthesesLeft();
    var b := Bin('*', g, Num("4"));
    assert TextOf(b) == "(2+3)*4";
    e := Group(b);
  }

  /** `((2+3)*4)`: the extra brackets balance, so the validator passes it. */
  lemma ValidatesExtraBrackets()
    ensures ValidateExpression("((2+3)*4)") == Pass
  {
    var e := ExtraBracketsTree();
    ToRPNNotEndingInZero(e);
  }

  /** `2+-2` has two adjacent operators, so ToRPN returns nothing but the error. */
  lemma RejectsUnaryMinus()
    ensures ToRPN("2+-2") == Failure(InvalidExpression)
  {
    Validator.RejectsUnaryMinus();
  }

  /** `.5` passes validation, but the loop meets a dot with no number pending. */
  lemma RejectsLeadingDot()
    ensures ValidateExpression(".5") == Pass
    ensures ToRPN(".5") == Failure(InvalidExpression)
  {
    ToRPNSucceedsIff(".5");
    assert StrayDotAt([], ".5", 0);
  }
}
