/**
 * The engine end to end: a context, a text node, a lexer over it, and what
 * evaluate and find answer.
 */
module EngineExamples {
  import opened Outcomes
  import opened Tokens
  import opened Graph
  import opened Lexing
  import BuilderExamples

  /** A fresh context with a lexer over a new text node holding `text`. */
  method NewLexer(text: string) returns (lexer: Lexer)
    ensures fresh(lexer) && fresh(lexer.context) && lexer.Valid() && lexer.Text() == text
    ensures lexer.context.symbols == [] && |lexer.context.nodes| == 2
  {
    var context := new Context("Global");
    var id := context.CreateNodeString(text);
    lexer := new Lexer(context, id);
  }

  /** evaluate("1+2*3") is 7. */
  method EvaluateSumOfProduct() returns (r: Result<real>)
    ensures r == Ok(7.0)
  {
    var text := "1+2*3";
    var lexer := NewLexer(text);
    r := lexer.Evaluate();
    ScanExample(text);
    BuilderExamples.SumOfProduct(lexer.tokens);
  }

  /** evaluate("2*3+1") is 7. */
  method EvaluateProductThenSum() returns (r: Result<real>)
    ensures r == Ok(7.0)
  {
    var text := "2*3+1";
    var lexer := NewLexer(text);
    r := lexer.Evaluate();
    BuilderExamples.ScanProductThenSum(text);
    BuilderExamples.ProductThenSum(lexer.tokens);
  }

  /** evaluate("4/0") fails with a division by zero. */
  method EvaluateDivisionByZero() returns (r: Result<real>)
    ensures r == Err(DivisionByZero)
  {
    var text := "4/0";
    var lexer := NewLexer(text);
    r := lexer.Evaluate();
    BuilderExamples.ScanDivideByZero(text);
    BuilderExamples.DivideByZero(lexer.tokens);
  }

  /** evaluate("1+*2") is a syntax error, and no node is built. */
  method EvaluateMalformed() returns (r: Result<real>, built: nat)
    ensures r == Err(SyntaxError) && built == 0
  {
    var text := "1+*2";
    var lexer := NewLexer(text);
    var before := |lexer.context.nodes|;
    r := lexer.Evaluate();
    ScanRejectsExample(text);
    built := |lexer.context.nodes| - before;
  }

  /**
   * A symbol "a" naming the number 5 is what find("a") answers with, and a
   * fresh context knows no "a".
   */
  method FindScenario() returns (found: Option<real>, elsewhere: Option<nat>)
    ensures found == Some(5.0) && elsewhere == None
  {
    var context := new Context("Global");
    var five := context.CreateNodeNumber(5);
    var a := context.CreateNodeSymbol("a", five);
    var symbol := context.Find("a");
    found := None;
    if symbol.Some? {
      var v := context.SymbolValue(symbol.value);
      found := Some(context.NumberOf(v));
    }
    var other := new Context("Other");
    elsewhere := other.Find("a");
  }
}
