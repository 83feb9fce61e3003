/**
 * The tokens of Node_Lexer: (category, lexeme) pairs, the scan that cuts an
 * expression text into them, and the syntax check run before any node is
 * built.
 */
module Tokens {
  import DecimalText

  /**
   * Number and Operator are the categories of the grammar; a character that
   * belongs to neither becomes an Unknown token, which the syntax check
   * refuses.
   */
  datatype Category = NumberToken | OperatorToken | UnknownToken

  datatype Token = Token(category: Category, lexeme: string)

  predicate IsSpace(c: char) {
    c == ' ' || c == '\t' || c == '\n' || c == '\r'
  }

  /** Characters that make up a number literal: digits and the decimal point. */
  predicate IsNumberChar(c: char) {
    DecimalText.IsDigit(c) || c == '.'
  }

  predicate IsOperatorChar(c: char) {
    c in "+-*/="
  }

  /** What the scan guarantees of every token it produces. */
  predicate WellFormed(t: Token) {
    && |t.lexeme| >= 1
    && (forall k :: 0 <= k < |t.lexeme| ==> !IsSpace(t.lexeme[k]))
    && match t.category
       case NumberToken => forall k :: 0 <= k < |t.lexeme| ==> IsNumberChar(t.lexeme[k])
       case OperatorToken => |t.lexeme| == 1 && IsOperatorChar(t.lexeme[0])
       case UnknownToken =>
         |t.lexeme| == 1 && !IsNumberChar(t.lexeme[0]) && !IsOperatorChar(t.lexeme[0])
  }

  /** Length of the number literal that starts `s`. */
  function NumberRun(s: string): (n: nat)
    ensures n <= |s|
    ensures forall k :: 0 <= k < n ==> IsNumberChar(s[k])
    ensures n < |s| ==> !IsNumberChar(s[n])
  {
    if s != [] && IsNumberChar(s[0]) then 1 + NumberRun(s[1..]) else 0
  }

  /**
   * tokenize: white space separates tokens and is dropped, a maximal run of
   * digits and points is one Number token, each operator character is one
   * Operator token, and any other character is one Unknown token.
   */
  function Scan(s: string): (ts: seq<Token>)
    ensures forall k :: 0 <= k < |ts| ==> WellFormed(ts[k])
    ensures |ts| <= |s|
    decreases |s|
  {
    if s == [] then []
    else if IsSpace(s[0]) then Scan(s[1..])
    else if IsNumberChar(s[0]) then
      var n := NumberRun(s);
      [Token(NumberToken, s[..n])] + Scan(s[n..])
    else if IsOperatorChar(s[0]) then
      [Token(OperatorToken, [s[0]])] + Scan(s[1..])
    else
      [Token(UnknownToken, [s[0]])] + Scan(s[1..])
  }

  /** The lexemes of a token sequence, written one after the other. */
  function Lexemes(ts: seq<Token>): string {
    if ts == [] then [] else ts[0].lexeme + Lexemes(ts[1..])
  }

  function WithoutSpaces(s: string): string {
    if s == [] then []
    else if IsSpace(s[0]) then WithoutSpaces(s[1..])
    else [s[0]] + WithoutSpaces(s[1..])
  }

  lemma {:induction false} LexemesAppend(a: seq<Token>, b: seq<Token>)
    ensures Lexemes(a + b) == Lexemes(a) + Lexemes(b)
  {
    if a == [] {
      assert a + b == b;
    } else {
      assert (a + b)[1..] == a[1..] + b;
      LexemesAppend(a[1..], b);
    }
  }

  lemma {:induction false} WithoutSpacesOfNumberText(s: string, n: nat)
    requires n <= |s|
    requires forall k :: 0 <= k < n ==> IsNumberChar(s[k])
    ensures WithoutSpaces(s) == s[..n] + WithoutSpaces(s[n..])
  {
    if n > 0 {
      assert s[1..][..n - 1] == s[1..n];
      assert s[1..][n - 1..] == s[n..];
      WithoutSpacesOfNumberText(s[1..], n - 1);
    }
  }

  /** Scanning loses nothing but white space: the lexemes spell the text without its spaces. */
  lemma {:induction false} ScanKeepsText(s: string)
    ensures Lexemes(Scan(s)) == WithoutSpaces(s)
    decreases |s|
  {
    if s == [] {
    } else if IsSpace(s[0]) {
      ScanKeepsText(s[1..]);
    } else if IsNumberChar(s[0]) {
      var n := NumberRun(s);
      LexemesAppend([Token(NumberToken, s[..n])], Scan(s[n..]));
      ScanKeepsText(s[n..]);
      WithoutSpacesOfNumberText(s, n);
    } else {
      var t := if IsOperatorChar(s[0]) then Token(OperatorToken, [s[0]]) else Token(UnknownToken, [s[0]]);
      LexemesAppend([t], Scan(s[1..]));
      ScanKeepsText(s[1..]);
    }
  }

  predicate IsOperator(t: Token) {
    t.category == OperatorToken && |t.lexeme| == 1 && IsOperatorChar(t.lexeme[0])
  }

  /**
   * isSyntaxValid: the tokens read Number (Operator Number)*, so the first
   * and last are numbers and numbers and operators alternate.
   */
  predicate IsSyntaxValid(ts: seq<Token>) {
    && |ts| % 2 == 1
    && forall k :: 0 <= k < |ts| ==>
         if k % 2 == 0 then ts[k].category == NumberToken else IsOperator(ts[k])
  }

  /** Two operators in a row, an empty input, or a trailing operator are refused. */
  lemma SyntaxRejects(ts: seq<Token>, k: nat)
    ensures k + 1 < |ts| && ts[k].category == OperatorToken && ts[k + 1].category == OperatorToken ==>
              !IsSyntaxValid(ts)
    ensures |ts| > 0 && ts[|ts| - 1].category != NumberToken ==> !IsSyntaxValid(ts)
    ensures !IsSyntaxValid([])
  {
  }

  /** A valid sequence is not empty, starts and ends with a number, and no operator follows another. */
  lemma ValidShape(ts: seq<Token>)
    ensures IsSyntaxValid(ts) ==> ts != [] && ts[0].category == NumberToken && ts[|ts| - 1].category == NumberToken
    ensures IsSyntaxValid(ts) ==> forall k :: 0 <= k < |ts| - 1 ==>
              !(ts[k].category == OperatorToken && ts[k + 1].category == OperatorToken)
  {
    forall k | 0 <= k < |ts| - 1 && IsSyntaxValid(ts)
      ensures !(ts[k].category == OperatorToken && ts[k + 1].category == OperatorToken)
    {
      SyntaxRejects(ts, k);
    }
  }

  lemma NumberRunIs(s: string, n: nat)
    requires n <= |s|
    requires forall k :: 0 <= k < n ==> IsNumberChar(s[k])
    requires n < |s| ==> !IsNumberChar(s[n])
    ensures NumberRun(s) == n
  {
  }

  /** A text that starts with a number literal of length `n` scans to that literal first. */
  lemma ScanNumberFirst(s: string, n: nat)
    requires 0 < n <= |s|
    requires forall k :: 0 <= k < n ==> IsNumberChar(s[k])
    requires n < |s| ==> !IsNumberChar(s[n])
    ensures Scan(s) == [Token(NumberToken, s[..n])] + Scan(s[n..])
  {
    NumberRunIs(s, n);
  }

  /** A text that starts with an operator character scans to that operator first. */
  lemma ScanOperatorFirst(s: string)
    requires s != [] && IsOperatorChar(s[0])
    ensures Scan(s) == [Token(OperatorToken, [s[0]])] + Scan(s[1..])
  {
  }

  /** Leading white space is dropped. */
  lemma ScanSpaceFirst(s: string)
    requires s != [] && IsSpace(s[0])
    ensures Scan(s) == Scan(s[1..])
  {
  }

  /** A leading character outside the grammar becomes an Unknown token. */
  lemma ScanUnknownFirst(s: string)
    requires s != [] && !IsSpace(s[0]) && !IsNumberChar(s[0]) && !IsOperatorChar(s[0])
    ensures Scan(s) == [Token(UnknownToken, [s[0]])] + Scan(s[1..])
  {
  }

  /** The same three facts, for the unread part of a text from position `i` on. */
  lemma ScanNumberAt(s: string, i: nat, j: nat)
    requires i < j <= |s|
    requires forall k :: i <= k < j ==> IsNumberChar(s[k])
    requires j < |s| ==> !IsNumberChar(s[j])
    ensures Scan(s[i..]) == [Token(NumberToken, s[i..j])] + Scan(s[j..])
  {
    var rest := s[i..];
    assert rest[..j - i] == s[i..j] && rest[j - i..] == s[j..];
    ScanNumberFirst(rest, j - i);
  }

  lemma ScanCharAt(s: string, i: nat)
    requires i < |s| && !IsSpace(s[i]) && !IsNumberChar(s[i])
    ensures Scan(s[i..]) ==
              [Token(if IsOperatorChar(s[i]) then OperatorToken else UnknownToken, s[i..i + 1])] + Scan(s[i + 1..])
  {
    var rest := s[i..];
    assert rest[1..] == s[i + 1..] && [rest[0]] == s[i..i + 1];
    if IsOperatorChar(s[i]) {
      ScanOperatorFirst(rest);
    } else {
      ScanUnknownFirst(rest);
    }
  }

  lemma ScanSpaceAt(s: string, i: nat)
    requires i < |s| && IsSpace(s[i])
    ensures Scan(s[i..]) == Scan(s[i + 1..])
  {
    var rest := s[i..];
    assert rest[1..] == s[i + 1..];
    ScanSpaceFirst(rest);
  }

  /** A one-character number followed by an operator scans to those two tokens. */
  lemma ScanNumberOperator(d: char, o: char, rest: string)
    requires IsNumberChar(d) && IsOperatorChar(o)
    ensures Scan([d, o] + rest) == [Token(NumberToken, [d]), Token(OperatorToken, [o])] + Scan(rest)
  {
    var s := [d, o] + rest;
    ScanNumberFirst(s, 1);
    assert s[..1] == [d] && s[1..] == [o] + rest;
    ScanOperatorFirst([o] + rest);
    assert ([o] + rest)[1..] == rest;
  }

  /** A lone one-character number scans to one token. */
  lemma ScanLoneNumber(d: char)
    requires IsNumberChar(d)
    ensures Scan([d]) == [Token(NumberToken, [d])]
  {
    ScanNumberFirst([d], 1);
    assert [d][..1] == [d] && [d][1..] == [];
  }

  /** A number, an operator and a number, one character each. */
  lemma ScanThree(a: char, p: char, b: char)
    requires IsNumberChar(a) && IsOperatorChar(p) && IsNumberChar(b)
    ensures Scan([a, p, b]) == [Token(NumberToken, [a]), Token(OperatorToken, [p]), Token(NumberToken, [b])]
  {
    assert [a, p, b] == [a, p] + [b];
    ScanLoneNumber(b);
    ScanNumberOperator(a, p, [b]);
  }

  /** Three numbers and two operators between them, one character each. */
  lemma ScanFive(a: char, p: char, b: char, q: char, c: char)
    requires IsNumberChar(a) && IsOperatorChar(p) && IsNumberChar(b) && IsOperatorChar(q) && IsNumberChar(c)
    ensures Scan([a, p, b, q, c]) ==
              [Token(NumberToken, [a]), Token(OperatorToken, [p]), Token(NumberToken, [b]),
               Token(OperatorToken, [q]), Token(NumberToken, [c])]
  {
    assert [a, p, b, q, c] == [a, p] + [b, q, c];
    ScanThree(b, q, c);
    ScanNumberOperator(a, p, [b, q, c]);
  }

  /** Four numbers and three operators between them, one character each. */
  lemma ScanSeven(a: char, p: char, b: char, q: char, c: char, r: char, d: char)
    requires IsNumberChar(a) && IsOperatorChar(p) && IsNumberChar(b) && IsOperatorChar(q) && IsNumberChar(c)
    requires IsOperatorChar(r) && IsNumberChar(d)
    ensures Scan([a, p, b, q, c, r, d]) ==
              [Token(NumberToken, [a]), Token(OperatorToken, [p]), Token(NumberToken, [b]),
               Token(OperatorToken, [q]), Token(NumberToken, [c]), Token(OperatorToken, [r]),
               Token(NumberToken, [d])]
  {
    assert [a, p, b, q, c, r, d] == [a, p] + [b, q, c, r, d];
    ScanFive(b, q, c, r, d);
    ScanNumberOperator(a, p, [b, q, c, r, d]);
  }

  /** The tokens of "1+2*3", in order. */
  lemma ScanExample(s: string)
    requires s == "1+2*3"
    ensures Scan(s) == [Token(NumberToken, "1"), Token(OperatorToken, "+"), Token(NumberToken, "2"),
                        Token(OperatorToken, "*"), Token(NumberToken, "3")]
  {
    ScanFive('1', '+', '2', '*', '3');
  }

  /** The tokens of "1+2*3" pass the syntax check. */
  lemma ScanExampleValid(s: string)
    requires s == "1+2*3"
    ensures IsSyntaxValid(Scan(s))
  {
    ScanExample(s);
    var ts := Scan(s);
    assert IsOperator(ts[1]) && IsOperator(ts[3]);
    forall k | 0 <= k < |ts|
      ensures if k % 2 == 0 then ts[k].category == NumberToken else IsOperator(ts[k])
    {
      assert k == 0 || k == 1 || k == 2 || k == 3 || k == 4;
    }
  }

  /** "1+*2" has two operators in a row and fails the syntax check. */
  lemma ScanRejectsExample(s: string)
    requires s == "1+*2"
    ensures !IsSyntaxValid(Scan(s))
  {
    var rest := ['*', '2'];
    assert s == ['1', '+'] + rest;
    ScanLoneNumber('2');
    ScanOperatorFirst(rest);
    assert rest[1..] == ['2'];
    ScanNumberOperator('1', '+', rest);
    var ts := Scan(s);
    assert ts[2] == Token(OperatorToken, ['*']);
  }
}
