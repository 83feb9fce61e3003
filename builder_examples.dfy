/**
 * Worked expressions: the documented results of the expression builder,
 * and the one expression on which the builder as declared and the
 * corrected builder part ways.
 */
module BuilderExamples {
  import opened Outcomes
  import opened Operations
  import opened Tokens
  import opened Semantics
  import DecimalText

  /** A one-digit literal reads as its digit. */
  lemma ReadDigit(c: char)
    requires DecimalText.IsDigit(c)
    ensures DecimalText.ReadDecimal([c]) == DecimalText.DigitValue(c) as real
  {
    assert [c][..0] == [];
    assert DecimalText.AllDigits([c]);
    assert DecimalText.NatValue([c]) == DecimalText.DigitValue(c);
  }

  function N(c: char): Token {
    Token(NumberToken, [c])
  }

  function O(c: char): Token {
    Token(OperatorToken, [c])
  }

  /** The tokens of "1-2*3+4". */
  lemma ScanMixed(s: string)
    requires s == "1-2*3+4"
    ensures Scan(s) == [N('1'), O('-'), N('2'), O('*'), N('3'), O('+'), N('4')]
  {
    ScanSeven('1', '-', '2', '*', '3', '+', '4');
  }

  lemma MixedIsValid(ts: seq<Token>)
    requires ts == [N('1'), O('-'), N('2'), O('*'), N('3'), O('+'), N('4')]
    ensures IsSyntaxValid(ts)
    ensures NumberAt(ts, 0) == 1.0 && NumberAt(ts, 2) == 2.0 && NumberAt(ts, 4) == 3.0 && NumberAt(ts, 6) == 4.0
    ensures OperatorAt(ts, 1) == Substract && OperatorAt(ts, 3) == Multiply && OperatorAt(ts, 5) == Add
  {
    forall k | 0 <= k < |ts|
      ensures if k % 2 == 0 then ts[k].category == NumberToken else IsOperator(ts[k])
    {
      assert k == 0 || k == 1 || k == 2 || k == 3 || k == 4 || k == 5 || k == 6;
    }
    ReadDigit('1');
    ReadDigit('2');
    ReadDigit('3');
    ReadDigit('4');
  }

  lemma AsWrittenOnMixed(ts: seq<Token>)
    requires ts == [N('1'), O('-'), N('2'), O('*'), N('3'), O('+'), N('4')]
    ensures IsSyntaxValid(ts) && AsWrittenValue(ts) == Ok(-9.0)
  {
    MixedIsValid(ts);
    assert AsWrittenBuild(ts, 7, 10.0) == Ok(10.0);
    assert AsWrittenBuild(ts, 5, 6.0) == Ok(10.0);
    assert AsWrittenBuild(ts, 3, 2.0) == Ok(10.0);
  }

  lemma ReferenceOnMixed(ts: seq<Token>)
    requires ts == [N('1'), O('-'), N('2'), O('*'), N('3'), O('+'), N('4')]
    ensures IsSyntaxValid(ts) && Reference(ts) == Ok(-1.0)
  {
    MixedIsValid(ts);
    assert Term(ts, 2.0, 3) == Ok((6.0, 5));
    assert Term(ts, 4.0, 7) == Ok((4.0, 7));
    assert Sum(ts, -5.0, 5) == Ok((-1.0, 7));
    assert Sum(ts, 1.0, 1) == Ok((-1.0, 7));
    assert Term(ts, 1.0, 1) == Ok((1.0, 1));
    assert Assignment(ts, -1.0, 7) == Ok(-1.0);
    assert Additive(ts, 1.0, 1) == Ok(-1.0);
  }

  /** Five one-character tokens that read digit, operator, digit, operator, digit. */
  lemma FiveTokens(ts: seq<Token>, a: char, p: char, b: char, q: char, c: char)
    requires DecimalText.IsDigit(a) && DecimalText.IsDigit(b) && DecimalText.IsDigit(c)
    requires IsOperatorChar(p) && IsOperatorChar(q)
    requires ts == [N(a), O(p), N(b), O(q), N(c)]
    ensures IsSyntaxValid(ts)
    ensures NumberAt(ts, 0) == DecimalText.DigitValue(a) as real
    ensures NumberAt(ts, 2) == DecimalText.DigitValue(b) as real
    ensures NumberAt(ts, 4) == DecimalText.DigitValue(c) as real
    ensures OperatorAt(ts, 1) == OperatorOf(p).value && OperatorAt(ts, 3) == OperatorOf(q).value
  {
    forall k | 0 <= k < |ts|
      ensures if k % 2 == 0 then ts[k].category == NumberToken else IsOperator(ts[k])
    {
      assert k == 0 || k == 1 || k == 2 || k == 3 || k == 4;
    }
    ReadDigit(a);
    ReadDigit(b);
    ReadDigit(c);
    SymbolRoundTrip(OperatorAt(ts, 1), p);
    SymbolRoundTrip(OperatorAt(ts, 3), q);
  }

  /** 1+2*3 is 7: the product is taken first. */
  lemma SumOfProduct(ts: seq<Token>)
    requires ts == [N('1'), O('+'), N('2'), O('*'), N('3')]
    ensures IsSyntaxValid(ts)
    ensures Reference(ts) == Ok(7.0) && BuildValue(ts) == Ok(7.0) && AsWrittenValue(ts) == Ok(7.0)
  {
    FiveTokens(ts, '1', '+', '2', '*', '3');
    assert Term(ts, 1.0, 1) == Ok((1.0, 1));
    assert Term(ts, 2.0, 3) == Ok((6.0, 5));
    assert Sum(ts, 7.0, 5) == Ok((7.0, 5));
    assert Sum(ts, 1.0, 1) == Ok((7.0, 5));
    assert Additive(ts, 1.0, 1) == Ok(7.0);
    assert AsWrittenBuild(ts, 3, 2.0) == Ok(6.0);
    BuildMatchesReference(ts);
  }

  /** 2*3+1 is 7: the product reduces before the sum. */
  lemma ProductThenSum(ts: seq<Token>)
    requires ts == [N('2'), O('*'), N('3'), O('+'), N('1')]
    ensures IsSyntaxValid(ts)
    ensures Reference(ts) == Ok(7.0) && BuildValue(ts) == Ok(7.0) && AsWrittenValue(ts) == Ok(7.0)
  {
    FiveTokens(ts, '2', '*', '3', '+', '1');
    assert Term(ts, 2.0, 1) == Ok((6.0, 3));
    assert Term(ts, 1.0, 5) == Ok((1.0, 5));
    assert Sum(ts, 6.0, 3) == Ok((7.0, 5));
    assert Additive(ts, 6.0, 3) == Ok(7.0);
    assert AsWrittenBuild(ts, 3, 6.0) == Ok(7.0);
    BuildMatchesReference(ts);
  }

  /** 4/0 is a division by zero, for the builder as declared as well. */
  lemma DivideByZero(ts: seq<Token>)
    requires ts == [N('4'), O('/'), N('0')]
    ensures IsSyntaxValid(ts)
    ensures Reference(ts) == Err(DivisionByZero) && BuildValue(ts) == Err(DivisionByZero)
    ensures AsWrittenValue(ts) == Err(DivisionByZero)
  {
    forall k | 0 <= k < |ts|
      ensures if k % 2 == 0 then ts[k].category == NumberToken else IsOperator(ts[k])
    {
      assert k == 0 || k == 1 || k == 2;
    }
    ReadDigit('4');
    ReadDigit('0');
    assert OperatorAt(ts, 1) == Divide;
    assert Term(ts, 4.0, 1) == Err(DivisionByZero);
    BuildMatchesReference(ts);
  }

  /** The tokens of "2*3+1". */
  lemma ScanProductThenSum(s: string)
    requires s == "2*3+1"
    ensures Scan(s) == [N('2'), O('*'), N('3'), O('+'), N('1')]
  {
    ScanFive('2', '*', '3', '+', '1');
  }

  /** The tokens of "4/0". */
  lemma ScanDivideByZero(s: string)
    requires s == "4/0"
    ensures Scan(s) == [N('4'), O('/'), N('0')]
  {
    ScanThree('4', '/', '0');
  }

  /**
   * The builder as declared evaluates "1-2*3+4" as 1 - (2*3 + 4) = -9: the
   * subtraction does not reduce before the multiplication, and the
   * recursion that resolves its right operand does not stop at the "+".
   * The reference value, which the corrected builder computes, is -1.
   */
  lemma AsWrittenSubtractionCounterexample(s: string)
    requires s == "1-2*3+4"
    ensures IsSyntaxValid(Scan(s))
    ensures AsWrittenValue(Scan(s)) == Ok(-9.0)
    ensures Reference(Scan(s)) == Ok(-1.0)
    ensures BuildValue(Scan(s)) == Ok(-1.0)
  {
    ScanMixed(s);
    AsWrittenOnMixed(Scan(s));
    ReferenceOnMixed(Scan(s));
    BuildMatchesReference(Scan(s));
  }
}
