/** The textual pre-check of orchestrator/internal/service/helper/validator.go. */
module Validator {
  import opened Wrappers
  import opened Errors
  import opened Text

  // The character class `[0-9+\-*/().\s]` of the validation regex.
  predicate IsAllowed(c: char) {
    IsDigit(c) || IsOperator(c) || IsParen(c) || c == '.' || IsRegexSpace(c)
  }

  // `^[0-9+\-*/().\s]+$` without the non-emptiness part.
  predicate AllAllowed(s: string) {
    s == [] || (IsAllowed(s[0]) && AllAllowed(s[1..]))
  }

  /** The loop of isBracketsBalanced, continued from a running count. */
  function BalanceFrom(s: string, count: int): bool {
    if s == [] then count == 0
    else if s[0] == '(' then BalanceFrom(s[1..], count + 1)
    else if s[0] == ')' then count - 1 >= 0 && BalanceFrom(s[1..], count - 1)
    else BalanceFrom(s[1..], count)
  }

  /** isBracketsBalanced: the count starts at zero. */
  function IsBracketsBalanced(s: string): bool {
    BalanceFrom(s, 0)
  }

  /** Opening minus closing parentheses. */
  function Depth(s: string): int {
    Count(s, '(') - Count(s, ')')
  }

  /** Parentheses are balanced: no prefix closes more than it opened, and the whole text closes all. */
  ghost predicate Balanced(s: string) {
    Depth(s) == 0 && forall k :: 0 <= k <= |s| ==> Depth(s[..k]) >= 0
  }

  // `[+\-*/]{2,}` occurs somewhere.
  predicate HasAdjacentOperators(s: string) {
    |s| >= 2 && ((IsOperator(s[0]) && IsOperator(s[1])) || HasAdjacentOperators(s[1..]))
  }

  // Some digits (possibly none) and then a dot: the tail of `\d*\.\d*\.`.
  predicate DigitsThenDot(s: string) {
    s != [] && (s[0] == '.' || (IsDigit(s[0]) && DigitsThenDot(s[1..])))
  }

  // `\d*\.\d*\.\d*` occurs somewhere: two dots with only digits between them.
  predicate HasDotDigitsDot(s: string) {
    s != [] && ((s[0] == '.' && DigitsThenDot(s[1..])) || HasDotDigitsDot(s[1..]))
  }

  function DropLeadingRegexSpaces(s: string): (r: string)
    ensures |r| <= |s| && r == s[|s| - |r|..]
    ensures r != [] ==> !IsRegexSpace(r[0])
  {
    if s != [] && IsRegexSpace(s[0]) then DropLeadingRegexSpaces(s[1..]) else s
  }

  function DropTrailingRegexSpaces(s: string): (r: string)
    ensures |r| <= |s| && r == s[..|r|]
    ensures r != [] ==> !IsRegexSpace(r[|r| - 1])
  {
    if s != [] && IsRegexSpace(s[|s| - 1]) then DropTrailingRegexSpaces(s[..|s| - 1]) else s
  }

  predicate AllZeros(s: string) {
    s == [] || (s[0] == '0' && AllZeros(s[1..]))
  }

  // The text after the slash matches `\s*0(\.0+)?\s*` to its very end.
  predicate ZeroTail(t: string) {
    var u := DropLeadingRegexSpaces(t);
    u != [] && u[0] == '0' &&
    var f := DropTrailingRegexSpaces(u[1..]);
    f == [] || (|f| >= 2 && f[0] == '.' && AllZeros(f[1..]))
  }

  // `/\s*0(\.0+)?\s*$` occurs: some slash is followed by a zero tail.
  predicate EndsWithDivisionByZero(s: string) {
    s != [] && ((s[0] == '/' && ZeroTail(s[1..])) || EndsWithDivisionByZero(s[1..]))
  }

  /** Every check of ValidateExpression that comes before the division-by-zero search. */
  predicate PassesSyntaxChecks(e: string) {
    && e != []
    && AllAllowed(e)
    && IsBracketsBalanced(e)
    && !IsOperator(e[0]) && !IsOperator(e[|e| - 1])
    && !HasAdjacentOperators(e)
    && !HasDotDigitsDot(e)
  }

  /** ValidateExpression: spaces are removed, then each check runs in turn and the first failure wins. */
  function ValidateExpression(expr: string): (r: Outcome<Error>)
    ensures r == Pass || r == Fail(InvalidExpression) || r == Fail(DivideByZero)
  {
    var e := StripSpaces(expr);
    if e == [] then Fail(InvalidExpression)
    else if !AllAllowed(e) then Fail(InvalidExpression)
    else if !IsBracketsBalanced(e) then Fail(InvalidExpression)
    else if IsOperator(e[0]) || IsOperator(e[|e| - 1]) then Fail(InvalidExpression)
    else if HasAdjacentOperators(e) then Fail(InvalidExpression)
    else if HasDotDigitsDot(e) then Fail(InvalidExpression)
    else if EndsWithDivisionByZero(e) then Fail(DivideByZero)
    else Pass
  }

  // ---------------------------------------------------------------------------
  // Declarative readings of the checks, and the lemmas that connect them.

  /** The checks before the division-by-zero search, stated with quantifiers. */
  ghost predicate SyntaxOk(e: string) {
    && e != []
    && (forall i :: 0 <= i < |e| ==> IsAllowed(e[i]))
    && Balanced(e)
    && !IsOperator(e[0]) && !IsOperator(e[|e| - 1])
    && !(exists i :: 0 <= i < |e| - 1 && IsOperator(e[i]) && IsOperator(e[i + 1]))
    && !(exists i, j :: 0 <= i < j < |e| && e[i] == '.' && e[j] == '.' && OnlyDigitsBetween(e, i, j))
  }

  ghost predicate OnlyDigitsBetween(e: string, i: int, j: int)
    requires -1 <= i < j <= |e|
  {
    forall k :: i < k < j ==> IsDigit(e[k])
  }

  /** isBracketsBalanced continued from count `c` accepts exactly when `c` plus every
      prefix depth stays non-negative and `c` plus the whole depth is zero. */
  lemma {:induction false} BalanceFromIff(s: string, c: int)
    requires c >= 0
    ensures BalanceFrom(s, c) <==> (c + Depth(s) == 0 && forall k :: 0 <= k <= |s| ==> c + Depth(s[..k]) >= 0)
  {
    if s == [] {
      assert s[..0] == s;
    } else {
      var d := if s[0] == '(' then 1 else if s[0] == ')' then -1 else 0;
      assert Depth(s) == d + Depth(s[1..]);
      forall k | 0 <= k < |s|
        ensures Depth(s[..k + 1]) == d + Depth(s[1..][..k])
      {
        assert s[..k + 1][0] == s[0];
        assert s[..k + 1][1..] == s[1..][..k];
      }
      assert s[..0] == [];
      if c + d < 0 {
        assert s[1..][..0] == [];
        assert c + Depth(s[..1]) < 0;
      } else {
        assert BalanceFrom(s, c) == BalanceFrom(s[1..], c + d);
        BalanceFromIff(s[1..], c + d);
        if BalanceFrom(s, c) {
          forall k | 0 <= k <= |s|
            ensures c + Depth(s[..k]) >= 0
          {
            if k > 0 {
              assert c + Depth(s[..k]) == (c + d) + Depth(s[1..][..k - 1]);
            }
          }
        }
        if c + Depth(s) == 0 && forall k :: 0 <= k <= |s| ==> c + Depth(s[..k]) >= 0 {
          forall j | 0 <= j <= |s[1..]|
            ensures (c + d) + Depth(s[1..][..j]) >= 0
          {
            assert c + Depth(s[..j + 1]) >= 0;
          }
        }
      }
    }
  }

  /** isBracketsBalanced is true exactly for balanced text. */
  lemma BracketsBalancedIff(s: string)
    ensures IsBracketsBalanced(s) <==> Balanced(s)
  {
    BalanceFromIff(s, 0);
  }

  /** Removing spaces does not change the bracket scan. */
  lemma {:induction false} BalanceFromStrip(s: string, c: int)
    ensures BalanceFrom(StripSpaces(s), c) == BalanceFrom(s, c)
  {
    if s != [] {
      BalanceFromStrip(s[1..], c);
      if s[0] != ' ' {
        assert ([s[0]] + StripSpaces(s[1..]))[1..] == StripSpaces(s[1..]);
        if s[0] == '(' {
          BalanceFromStrip(s[1..], c + 1);
        } else if s[0] == ')' {
          BalanceFromStrip(s[1..], c - 1);
        }
      }
    }
  }

  lemma {:induction false} StripSpacesFixed(s: string)
    requires forall i :: 0 <= i < |s| ==> s[i] != ' '
    ensures StripSpaces(s) == s
  {
    if s != [] {
      StripSpacesFixed(s[1..]);
    }
  }

  lemma {:induction false} AllAllowedIff(s: string)
    ensures AllAllowed(s) <==> forall i :: 0 <= i < |s| ==> IsAllowed(s[i])
  {
    if s != [] {
      AllAllowedIff(s[1..]);
      assert forall i :: 1 <= i < |s| ==> s[i] == s[1..][i - 1];
    }
  }

  lemma {:induction false} AdjacentOperatorsIff(s: string)
    ensures HasAdjacentOperators(s) <==> exists i :: 0 <= i < |s| - 1 && IsOperator(s[i]) && IsOperator(s[i + 1])
  {
    if |s| >= 2 {
      AdjacentOperatorsIff(s[1..]);
      if exists i :: 0 <= i < |s| - 1 && IsOperator(s[i]) && IsOperator(s[i + 1]) {
        var i :| 0 <= i < |s| - 1 && IsOperator(s[i]) && IsOperator(s[i + 1]);
        if i > 0 {
          assert IsOperator(s[1..][i - 1]) && IsOperator(s[1..][i]);
        }
      }
      if HasAdjacentOperators(s[1..]) {
        var i :| 0 <= i < |s[1..]| - 1 && IsOperator(s[1..][i]) && IsOperator(s[1..][i + 1]);
        assert IsOperator(s[i + 1]) && IsOperator(s[i + 2]);
      }
    }
  }

  lemma {:induction false} DigitsThenDotIff(s: string)
    ensures DigitsThenDot(s) <==> exists j :: 0 <= j < |s| && s[j] == '.' && OnlyDigitsBetween(s, -1, j)
  {
    if s != [] {
      DigitsThenDotIff(s[1..]);
      if s[0] != '.' && IsDigit(s[0]) && DigitsThenDot(s[1..]) {
        var j :| 0 <= j < |s[1..]| && s[1..][j] == '.' && OnlyDigitsBetween(s[1..], -1, j);
        assert s[j + 1] == '.' && OnlyDigitsBetween(s, -1, j + 1);
      }
      if s[0] == '.' {
        assert OnlyDigitsBetween(s, -1, 0);
      }
      if exists j :: 0 <= j < |s| && s[j] == '.' && OnlyDigitsBetween(s, -1, j) {
        var j :| 0 <= j < |s| && s[j] == '.' && OnlyDigitsBetween(s, -1, j);
        if s[0] != '.' {
          assert j > 0 && IsDigit(s[0]);
          assert s[1..][j - 1] == '.' && OnlyDigitsBetween(s[1..], -1, j - 1);
        }
      }
    }
  }

  lemma {:induction false} DotDigitsDotIff(s: string)
    ensures HasDotDigitsDot(s) <==>
      exists i, j :: 0 <= i < j < |s| && s[i] == '.' && s[j] == '.' && OnlyDigitsBetween(s, i, j)
  {
    if s != [] {
      DotDigitsDotIff(s[1..]);
      DigitsThenDotIff(s[1..]);
      if s[0] == '.' && DigitsThenDot(s[1..]) {
        var j :| 0 <= j < |s[1..]| && s[1..][j] == '.' && OnlyDigitsBetween(s[1..], -1, j);
        assert s[j + 1] == '.' && OnlyDigitsBetween(s, 0, j + 1);
      }
      if HasDotDigitsDot(s[1..]) {
        var i, j :| 0 <= i < j < |s[1..]| && s[1..][i] == '.' && s[1..][j] == '.' && OnlyDigitsBetween(s[1..], i, j);
        assert s[i + 1] == '.' && s[j + 1] == '.' && OnlyDigitsBetween(s, i + 1, j + 1);
      }
      if exists i, j :: 0 <= i < j < |s| && s[i] == '.' && s[j] == '.' && OnlyDigitsBetween(s, i, j) {
        var i, j :| 0 <= i < j < |s| && s[i] == '.' && s[j] == '.' && OnlyDigitsBetween(s, i, j);
        if i == 0 {
          assert s[1..][j - 1] == '.' && OnlyDigitsBetween(s[1..], -1, j - 1);
        } else {
          assert s[1..][i - 1] == '.' && s[1..][j - 1] == '.' && OnlyDigitsBetween(s[1..], i - 1, j - 1);
        }
      }
    }
  }

  lemma {:induction false} DropTrailingKeepsLast(s: string)
    requires s != [] && DropTrailingRegexSpaces(s) != s
    ensures IsRegexSpace(s[|s| - 1])
  {
  }

  lemma {:induction false} AllZerosEndsInZero(s: string)
    requires s != [] && AllZeros(s)
    ensures s[|s| - 1] == '0'
  {
    if |s| > 1 {
      AllZerosEndsInZero(s[1..]);
    }
  }

  /** What follows the `0` of a zero tail ends, if anywhere, in a zero digit or white space. */
  lemma ZeroRestEnd(v: string)
    requires var f := DropTrailingRegexSpaces(v); f == [] || (|f| >= 2 && f[0] == '.' && AllZeros(f[1..]))
    ensures v != [] ==> v[|v| - 1] == '0' || IsRegexSpace(v[|v| - 1])
  {
    var f := DropTrailingRegexSpaces(v);
    if v != [] {
      if f != v {
        DropTrailingKeepsLast(v);
      } else {
        AllZerosEndsInZero(f[1..]);
        assert f[1..][|f| - 2] == v[|v| - 1];
      }
    }
  }

  /** A zero tail ends in a zero digit or in white space. */
  lemma ZeroTailEnd(t: string)
    requires ZeroTail(t)
    ensures t != [] && (t[|t| - 1] == '0' || IsRegexSpace(t[|t| - 1]))
  {
    var u := DropLeadingRegexSpaces(t);
    assert u[0] == '0';
    assert t[|t| - 1] == u[|u| - 1];
    ZeroRestEnd(u[1..]);
    if |u| > 1 {
      assert u[|u| - 1] == u[1..][|u| - 2];
    }
  }

  /** Division by a literal zero is only ever found at the end of the text:
      text whose last character is neither `0` nor white space has none. */
  lemma {:induction false} DivisionByZeroEndsInZero(s: string)
    requires EndsWithDivisionByZero(s)
    ensures s[|s| - 1] == '0' || IsRegexSpace(s[|s| - 1])
  {
    if s[0] == '/' && ZeroTail(s[1..]) {
      ZeroTailEnd(s[1..]);
    } else {
      DivisionByZeroEndsInZero(s[1..]);
    }
  }

  /** The recursive checks mean what their regular expressions say. */
  lemma SyntaxChecksIff(e: string)
    ensures PassesSyntaxChecks(e) <==> SyntaxOk(e)
  {
    AllAllowedIff(e);
    BracketsBalancedIff(e);
    AdjacentOperatorsIff(e);
    DotDigitsDotIff(e);
  }

  /** ValidateExpression in full: the syntax checks decide InvalidExpression, then a trailing
      division by a literal zero decides DivideByZero, and everything else passes. */
  lemma ValidateExpressionSpec(expr: string)
    ensures var e := StripSpaces(expr);
      ValidateExpression(expr) ==
        if !SyntaxOk(e) then Fail(InvalidExpression)
        else if EndsWithDivisionByZero(e) then Fail(DivideByZero)
        else Pass
  {
    SyntaxChecksIff(StripSpaces(expr));
  }

  /** DivideByZero is reported only for text that passes every other check
      and whose space-free form ends in a zero digit or white space. */
  lemma DivideByZeroOnlyAtEnd(expr: string)
    requires ValidateExpression(expr) == Fail(DivideByZero)
    ensures var e := StripSpaces(expr);
      SyntaxOk(e) && (e[|e| - 1] == '0' || IsRegexSpace(e[|e| - 1]))
  {
    SyntaxChecksIff(StripSpaces(expr));
    DivisionByZeroEndsInZero(StripSpaces(expr));
  }

  /** Spaces are stripped before any check, so they never change the verdict. */
  lemma ValidateIgnoresSpaces(expr: string)
    ensures ValidateExpression(StripSpaces(expr)) == ValidateExpression(expr)
  {
    StripSpacesFixed(StripSpaces(expr));
  }

  /** Empty or all-space text is an invalid expression. */
  lemma BlankRejected(expr: string)
    requires forall i :: 0 <= i < |expr| ==> expr[i] == ' '
    ensures ValidateExpression(expr) == Fail(InvalidExpression)
  {
    BlankStripsToEmpty(expr);
  }

  lemma {:induction false} BlankStripsToEmpty(s: string)
    requires forall i :: 0 <= i < |s| ==> s[i] == ' '
    ensures StripSpaces(s) == []
  {
    if s != [] {
      BlankStripsToEmpty(s[1..]);
    }
  }

  /** A character outside digits, `+ - * / ( ) .` and white space is rejected. */
  lemma ForeignCharacterRejected(expr: string, i: nat)
    requires i < |expr| && expr[i] != ' ' && !IsAllowed(expr[i])
    ensures ValidateExpression(expr) == Fail(InvalidExpression)
  {
    var e := StripSpaces(expr);
    assert expr[i] in e;
    AllAllowedIff(e);
  }

  /** Unbalanced parentheses are rejected; spaces do not affect the count. */
  lemma UnbalancedRejected(expr: string)
    requires !Balanced(expr)
    ensures ValidateExpression(expr) == Fail(InvalidExpression)
  {
    BracketsBalancedIff(expr);
    BalanceFromStrip(expr, 0);
  }

  /** An operator first or last (after removing spaces) is rejected. */
  lemma EdgeOperatorRejected(expr: string)
    requires var e := StripSpaces(expr); e != [] && (IsOperator(e[0]) || IsOperator(e[|e| - 1]))
    ensures ValidateExpression(expr) == Fail(InvalidExpression)
  {
  }

  /** Two operator characters next to each other (after removing spaces) are rejected. */
  lemma AdjacentOperatorsRejected(expr: string, i: nat)
    requires var e := StripSpaces(expr); i + 1 < |e| && IsOperator(e[i]) && IsOperator(e[i + 1])
    ensures ValidateExpression(expr) == Fail(InvalidExpression)
  {
    AdjacentOperatorsIff(StripSpaces(expr));
  }

  /** Two dots separated only by digits (after removing spaces) are rejected. */
  lemma DoubleDotRejected(expr: string, i: nat, j: nat)
    requires var e := StripSpaces(expr);
      i < j < |e| && e[i] == '.' && e[j] == '.' && OnlyDigitsBetween(e, i, j)
    ensures ValidateExpression(expr) == Fail(InvalidExpression)
  {
    DotDigitsDotIff(StripSpaces(expr));
  }

  // The verdicts the validator's table-driven tests expect, one lemma per case.

  lemma RejectsEmpty()
    ensures ValidateExpression("") == Fail(InvalidExpression)
  {
  }

  lemma RejectsOnlySpace()
    ensures ValidateExpression(" ") == Fail(InvalidExpression)
  {
  }

  lemma RejectsEqualsSign()
    ensures ValidateExpression("2+2=4") == Fail(InvalidExpression)
  {
  }

  lemma RejectsUnclosedBracket()
    ensures ValidateExpression("(2+2") == Fail(InvalidExpression)
  {
  }

  lemma RejectsTrailingOperator()
    ensures ValidateExpression("2+2+") == Fail(InvalidExpression)
  {
  }

  lemma RejectsLeadingOperator()
    ensures ValidateExpression("+2+2") == Fail(InvalidExpression)
  {
  }

  lemma RejectsDoubledOperator()
    ensures ValidateExpression("2++2") == Fail(InvalidExpression)
  {
  }

  lemma RejectsDivisionByZero()
    ensures ValidateExpression("2/0") == Fail(DivideByZero)
  {
  }

  lemma RejectsExcessDot()
    ensures ValidateExpression("2.0.1+3") == Fail(InvalidExpression)
  {
  }

  lemma RejectsUnaryMinus()
    ensures ValidateExpression("2+-2") == Fail(InvalidExpression)
  {
  }

  lemma AcceptsDivisionByFraction()
    ensures ValidateExpression("2/0.1") == Pass
  {
    FractionChecks();
    FractionIsNoZeroDivisor();
  }

  lemma FractionChecks()
    ensures StripSpaces("2/0.1") == "2/0.1"
    ensures AllAllowed("2/0.1") && IsBracketsBalanced("2/0.1")
    ensures !HasAdjacentOperators("2/0.1") && !HasDotDigitsDot("2/0.1")
  {
    assert "2/0.1"[1..] == "/0.1" && "/0.1"[1..] == "0.1" && "0.1"[1..] == ".1" && ".1"[1..] == "1";
  }

  lemma FractionIsNoZeroDivisor()
    ensures !EndsWithDivisionByZero("2/0.1")
  {
    FractionIsNoZeroTail();
    NoSlashNoDivision("0.1");
    assert !EndsWithDivisionByZero("/0.1") by {
      assert "/0.1"[1..] == "0.1";
    }
    assert "2/0.1"[0] == '2' && "2/0.1"[1..] == "/0.1";
  }

  /** "0.1" is not a zero tail: the digits after its dot are not all zeros. */
  lemma FractionIsNoZeroTail()
    ensures !ZeroTail("0.1")
  {
    assert DropLeadingRegexSpaces("0.1") == "0.1";
    assert "0.1"[1..] == ".1" && ".1"[1..] == "1";
    assert DropTrailingRegexSpaces(".1") == ".1";
    assert !AllZeros("1");
  }

  /** Without a slash there is no division at all. */
  lemma {:induction false} NoSlashNoDivision(s: string)
    requires forall i :: 0 <= i < |s| ==> s[i] != '/'
    ensures !EndsWithDivisionByZero(s)
  {
    if s != [] {
      NoSlashNoDivision(s[1..]);
    }
  }

  lemma AcceptsBracketedProduct()
    ensures ValidateExpression("2+(2*2)") == Pass
  {
    BracketedProductChecks();
  }

  lemma BracketedProductChecks()
    ensures StripSpaces("2+(2*2)") == "2+(2*2)"
    ensures AllAllowed("2+(2*2)") && IsBracketsBalanced("2+(2*2)")
    ensures !HasAdjacentOperators("2+(2*2)") && !HasDotDigitsDot("2+(2*2)")
    ensures !EndsWithDivisionByZero("2+(2*2)")
  {
    assert "2+(2*2)"[1..] == "+(2*2)" && "+(2*2)"[1..] == "(2*2)" && "(2*2)"[1..] == "2*2)";
    assert "2*2)"[1..] == "*2)" && "*2)"[1..] == "2)" && "2)"[1..] == ")" && ")"[1..] == "";
  }

  lemma AcceptsSum()
    ensures ValidateExpression("2+2") == Pass
  {
  }
}
