/** convElem of internal/calculator/calculator.go and of main.go: the
    tokenizer of the direct infix evaluators. Digits, a dot once a number has
    started, and a minus sign before any number accumulate into one number
    token; each of `+ - * / ( )` is a token of its own. The two copies differ
    only in what they do with any other character: calculator.go rejects it,
    main.go drops it (ending the number being read). */
module Elements {
  import opened Wrappers
  import opened Text

  /** The six characters of `operators`: + - * / ( ) */
  predicate IsSymbol(c: char) {
    IsOperator(c) || IsParen(c)
  }

  /** Whether `c` extends the number being read, `num`. */
  predicate Joins(c: char, num: string) {
    IsDigit(c) || (c == '.' && num != "") || (c == '-' && num == "")
  }

  /** Appends the number being read, if any, to the tokens. */
  function Flush(tokens: seq<string>, num: string): (r: seq<string>)
  {
    if num != "" then tokens + [num] else tokens
  }

  /** The tokenizer loop from state (`tokens`, `num`) over `s`. With `strict`
      a character that neither joins a number nor is a symbol yields None;
      without it such a character is dropped. */
  function Lex(s: string, strict: bool, tokens: seq<string>, num: string): (r: Option<seq<string>>)
    ensures !strict ==> r.Some?
    decreases |s|
  {
    if s == [] then Some(Flush(tokens, num))
    else if Joins(s[0], num) then Lex(s[1..], strict, tokens, num + [s[0]])
    else if IsSymbol(s[0]) then Lex(s[1..], strict, Flush(tokens, num) + [[s[0]]], "")
    else if strict then None
    else Lex(s[1..], strict, Flush(tokens, num), "")
  }

  /** convElem: the token list of `s`, or None where calculator.go's copy
      returns ErrInvalidExpression. */
  function ConvElem(s: string, strict: bool): (r: Option<seq<string>>)
    ensures !strict ==> r.Some?
  {
    Lex(s, strict, [], "")
  }

  /** A number token: a leading minus, then digits and dots, never starting
      with a dot. */
  predicate IsNumberRun(t: string) {
    t != [] && forall i :: 0 <= i < |t| ==> IsDigit(t[i]) || (t[i] == '.' && i > 0) || (t[i] == '-' && i == 0)
  }

  /** Every token is a single symbol or a number run. */
  predicate IsElement(t: string) {
    (|t| == 1 && IsSymbol(t[0])) || IsNumberRun(t)
  }

  /** The tokens written one after another. */
  function Concat(ts: seq<string>): string
    decreases |ts|
  {
    if ts == [] then [] else Concat(ts[..|ts| - 1]) + ts[|ts| - 1]
  }

  lemma ConcatSnoc(ts: seq<string>, t: string)
    ensures Concat(ts + [t]) == Concat(ts) + t
  {
    assert (ts + [t])[..|ts|] == ts;
  }

  /** Whether a number is being read after the characters `p`, all of them
      accepted: the last one is a digit or a dot, or a minus that started a
      number because none was being read before it. */
  predicate Pending(p: string)
    decreases |p|
  {
    p != [] && (IsDigit(p[|p| - 1]) || p[|p| - 1] == '.' || (p[|p| - 1] == '-' && !Pending(p[..|p| - 1])))
  }

  /** The character at `j` is accepted: a digit, a symbol, or a dot inside a number. */
  predicate Admissible(s: string, j: int)
    requires 0 <= j < |s|
  {
    IsDigit(s[j]) || IsSymbol(s[j]) || (s[j] == '.' && Pending(s[..j]))
  }

  /** calculator.go's copy accepts `s` exactly when every character is
      admissible, in particular, whenever a letter, a space or any other
      foreign character occurs it is rejected. */
  lemma StrictAcceptsIff(s: string)
    ensures ConvElem(s, true).Some? <==> forall j :: 0 <= j < |s| ==> Admissible(s, j)
  {
    assert s[0..] == s;
    assert s[..0] == [];
    LexAcceptsIff(s, 0, [], "");
  }

  lemma {:induction false} LexAcceptsIff(s: string, i: nat, tokens: seq<string>, num: string)
    requires i <= |s| && (num != "") == Pending(s[..i])
    ensures Lex(s[i..], true, tokens, num).Some? <==> forall j :: i <= j < |s| ==> Admissible(s, j)
    decreases |s| - i
  {
    if i < |s| {
      var c := s[i];
      assert s[i..][0] == c && s[i..][1..] == s[i + 1..];
      assert s[..i + 1][..i] == s[..i];
      assert s[..i + 1][i] == c;
      if Joins(c, num) {
        LexAcceptsIff(s, i + 1, tokens, num + [c]);
      } else if IsSymbol(c) {
        LexAcceptsIff(s, i + 1, Flush(tokens, num) + [[c]], "");
      } else {
        assert !Admissible(s, i);
      }
    }
  }

  /** A character that is neither a digit, a dot nor a symbol is rejected
      wherever it stands. */
  lemma {:induction false} ForeignRejected(s: string, i: nat, tokens: seq<string>, num: string)
    requires i < |s| && !IsDigit(s[i]) && s[i] != '.' && !IsSymbol(s[i])
    ensures Lex(s, true, tokens, num) == None
    decreases i
  {
    if i > 0 {
      var rest := s[1..];
      assert rest[i - 1] == s[i];
      if Joins(s[0], num) {
        ForeignRejected(rest, i - 1, tokens, num + [s[0]]);
      } else if IsSymbol(s[0]) {
        ForeignRejected(rest, i - 1, Flush(tokens, num) + [[s[0]]], "");
      }
    }
  }

  /** Written back to back, the tokens of accepted text are the text itself:
      nothing is lost, added or reordered. */
  lemma StrictConcat(s: string)
    requires ConvElem(s, true).Some?
    ensures Concat(ConvElem(s, true).value) == s
  {
    LexConcat(s, [], "");
  }

  lemma {:induction false} LexConcat(s: string, tokens: seq<string>, num: string)
    requires Lex(s, true, tokens, num).Some?
    ensures Concat(Lex(s, true, tokens, num).value) == Concat(tokens) + num + s
    decreases |s|
  {
    if s == [] {
      FlushConcat(tokens, num);
    } else if Joins(s[0], num) {
      LexConcat(s[1..], tokens, num + [s[0]]);
      assert num + [s[0]] + s[1..] == num + s;
    } else if IsSymbol(s[0]) {
      var flushed := Flush(tokens, num);
      LexConcat(s[1..], flushed + [[s[0]]], "");
      ConcatSnoc(flushed, [s[0]]);
      FlushConcat(tokens, num);
      assert Concat(flushed + [[s[0]]]) + "" + s[1..] == Concat(tokens) + num + ([s[0]] + s[1..]);
      assert [s[0]] + s[1..] == s;
    }
  }

  lemma FlushConcat(tokens: seq<string>, num: string)
    ensures Concat(Flush(tokens, num)) == Concat(tokens) + num
  {
    if num != "" {
      ConcatSnoc(tokens, num);
    }
  }

  /** Every token either copy produces is a symbol or a number run. */
  lemma ElementsAreWellFormed(s: string, strict: bool)
    requires ConvElem(s, strict).Some?
    ensures forall t :: t in ConvElem(s, strict).value ==> IsElement(t)
  {
    LexShape(s, strict, [], "");
  }

  lemma {:induction false} LexShape(s: string, strict: bool, tokens: seq<string>, num: string)
    requires forall t :: t in tokens ==> IsElement(t)
    requires num == "" || IsNumberRun(num)
    requires Lex(s, strict, tokens, num).Some?
    ensures forall t :: t in Lex(s, strict, tokens, num).value ==> IsElement(t)
    decreases |s|
  {
    if s != [] {
      var c := s[0];
      if Joins(c, num) {
        var n1 := num + [c];
        assert forall i :: 0 <= i < |num| ==> n1[i] == num[i];
        assert n1[|num|] == c;
        LexShape(s[1..], strict, tokens, n1);
      } else if IsSymbol(c) {
        LexShape(s[1..], strict, Flush(tokens, num) + [[c]], "");
      } else if !strict {
        LexShape(s[1..], strict, Flush(tokens, num), "");
      }
    }
  }

  /** Where calculator.go's copy accepts the text, main.go's gives the same tokens. */
  lemma LenientAgreesWithStrict(s: string)
    requires ConvElem(s, true).Some?
    ensures ConvElem(s, false) == ConvElem(s, true)
  {
    LexAgrees(s, [], "");
  }

  lemma {:induction false} LexAgrees(s: string, tokens: seq<string>, num: string)
    requires Lex(s, true, tokens, num).Some?
    ensures Lex(s, false, tokens, num) == Lex(s, true, tokens, num)
    decreases |s|
  {
    if s != [] {
      if Joins(s[0], num) {
        LexAgrees(s[1..], tokens, num + [s[0]]);
      } else if IsSymbol(s[0]) {
        LexAgrees(s[1..], Flush(tokens, num) + [[s[0]]], "");
      }
    }
  }

  /** main.go's copy treats a foreign character as a separator: the tokens
      are those of the text before it followed by those of the text after it. */
  lemma DroppedCharacterSplits(p: string, c: char, q: string)
    requires !IsDigit(c) && c != '.' && !IsSymbol(c)
    ensures ConvElem(p + [c] + q, false).value == ConvElem(p, false).value + ConvElem(q, false).value
  {
    LexAcrossForeign(p, c, q, [], "");
    LexPrefix(q, ConvElem(p, false).value, "");
  }

  lemma {:induction false} LexAcrossForeign(p: string, c: char, q: string, tokens: seq<string>, num: string)
    requires !IsDigit(c) && c != '.' && !IsSymbol(c)
    ensures Lex(p + [c] + q, false, tokens, num) == Lex(q, false, Lex(p, false, tokens, num).value, "")
    decreases |p|
  {
    var s := p + [c] + q;
    if p == [] {
      assert s[0] == c && s[1..] == q;
    } else {
      assert s[0] == p[0] && s[1..] == p[1..] + [c] + q;
      if Joins(p[0], num) {
        LexAcrossForeign(p[1..], c, q, tokens, num + [p[0]]);
      } else if IsSymbol(p[0]) {
        LexAcrossForeign(p[1..], c, q, Flush(tokens, num) + [[p[0]]], "");
      } else {
        LexAcrossForeign(p[1..], c, q, Flush(tokens, num), "");
      }
    }
  }

  /** Tokens already emitted stay in front of whatever the rest produces. */
  lemma {:induction false} LexPrefix(s: string, tokens: seq<string>, num: string)
    ensures Lex(s, false, tokens, num).value == tokens + Lex(s, false, [], num).value
    decreases |s|
  {
    if s == [] {
      assert Flush(tokens, num) == tokens + Flush([], num);
    } else if Joins(s[0], num) {
      LexPrefix(s[1..], tokens, num + [s[0]]);
    } else if IsSymbol(s[0]) {
      LexPrefix(s[1..], Flush(tokens, num) + [[s[0]]], "");
      LexPrefix(s[1..], Flush([], num) + [[s[0]]], "");
      assert Flush(tokens, num) + [[s[0]]] == tokens + (Flush([], num) + [[s[0]]]);
    } else {
      LexPrefix(s[1..], Flush(tokens, num), "");
      LexPrefix(s[1..], Flush([], num), "");
      assert Flush(tokens, num) == tokens + Flush([], num);
    }
  }
}
