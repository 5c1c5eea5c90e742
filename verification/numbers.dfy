/** strconv.ParseFloat(tok, 64) on the alphabet the tokenizers produce: an
    optional sign, decimal digits and at most one dot. Values are exact reals. */
module Numbers {
  import opened Wrappers
  import opened Text

  predicate AllDigits(s: string) {
    forall i :: 0 <= i < |s| ==> IsDigit(s[i])
  }

  /** A decimal literal without sign: digits and at most one dot, at least one digit. */
  predicate IsDecimal(s: string) {
    && (forall i :: 0 <= i < |s| ==> IsDigit(s[i]) || s[i] == '.')
    && Count(s, '.') <= 1
    && exists i :: 0 <= i < |s| && IsDigit(s[i])
  }

  function Pow10(n: nat): (r: nat)
    ensures r >= 1
  {
    if n == 0 then 1 else 10 * Pow10(n - 1)
  }

  /** The value of a digit string read most-significant digit first. */
  function DigitsValue(s: string): nat
    requires AllDigits(s)
  {
    if s == [] then 0
    else DigitsValue(s[..|s| - 1]) * 10 + (s[|s| - 1] as int - '0' as int)
  }

  /** Position of the first dot, or |s| when there is none. */
  function DotIndex(s: string): (k: nat)
    ensures k <= |s|
    ensures k < |s| ==> s[k] == '.'
    ensures forall i :: 0 <= i < k ==> s[i] != '.'
  {
    if s == [] then 0
    else if s[0] == '.' then 0
    else 1 + DotIndex(s[1..])
  }

  lemma {:induction false} NoDotAfterFirst(s: string, k: nat)
    requires k == DotIndex(s) && k < |s| && Count(s, '.') <= 1
    ensures forall i :: k < i < |s| ==> s[i] != '.'
  {
    if s[0] == '.' {
      assert Count(s[1..], '.') == 0;
      CountZero(s[1..], '.');
    } else {
      NoDotAfterFirst(s[1..], k - 1);
    }
  }

  lemma {:induction false} CountZero(s: string, c: char)
    requires Count(s, c) == 0
    ensures forall i :: 0 <= i < |s| ==> s[i] != c
  {
    if s != [] {
      CountZero(s[1..], c);
    }
  }

  /** Value of an unsigned decimal literal: integer part plus fraction. */
  function DecimalValue(s: string): real
    requires IsDecimal(s)
  {
    var k := DotIndex(s);
    NoDotAfterFirstTail(s, k);
    var whole := DigitsValue(s[..k]) as real;
    if k < |s| then whole + DigitsValue(s[k + 1..]) as real / Pow10(|s| - k - 1) as real
    else whole
  }

  lemma NoDotAfterFirstTail(s: string, k: nat)
    requires IsDecimal(s) && k == DotIndex(s)
    ensures AllDigits(s[..k])
    ensures k < |s| ==> AllDigits(s[k + 1..])
  {
    if k < |s| {
      NoDotAfterFirst(s, k);
    }
  }

  /** strconv.ParseFloat: Some(value) when `tok` is a signed or unsigned decimal literal. */
  function ParseFloat(tok: string): (r: Option<real>)
    ensures r.Some? <==> IsDecimal(tok) || (|tok| > 0 && (tok[0] == '+' || tok[0] == '-') && IsDecimal(tok[1..]))
  {
    if |tok| > 0 && (tok[0] == '+' || tok[0] == '-') then
      if IsDecimal(tok[1..]) then
        Some(if tok[0] == '-' then -DecimalValue(tok[1..]) else DecimalValue(tok[1..]))
      else None
    else if IsDecimal(tok) then Some(DecimalValue(tok))
    else None
  }

  /** A single digit parses to its own value. */
  lemma ParseDigit(c: char)
    requires IsDigit(c)
    ensures ParseFloat([c]) == Some((c as int - '0' as int) as real)
  {
    assert IsDigit([c][0]);
    assert [c][1..] == [];
    assert DotIndex([c]) == 1;
    assert [c][..1] == [c];
    assert [c][..|[c]| - 1] == [];
    assert DigitsValue([c]) == c as int - '0' as int;
    assert IsDecimal([c]);
  }

  /** A lone operator symbol is never a number, so the dispatchers treat it as an operator. */
  lemma OperatorIsNotNumber(c: char)
    requires IsOperator(c)
    ensures ParseFloat([c]) == None
  {
    assert !IsDigit(c);
  }
}
