/**
 * Node_Lexer: cuts the text of its expression node into tokens, checks that
 * they read Number (Operator Number)*, and builds and evaluates the
 * execution tree in the arena of its context, one operation node per
 * operator, each evaluated as soon as both of its operands are known.
 */
module Lexing {
  import opened Outcomes
  import opened Operations
  import opened Tokens
  import opened Semantics
  import opened Graph
  import DecimalText

  /** A resolved running result paired with the token position where its resolution stopped. */
  function Paired(r: Result<nat>, v: real): Result<(real, nat)> {
    match r
    case Ok(k) => Ok((v, k))
    case Err(e) => Err(e)
  }

  /** Emitting the next token moves it from the unread part of the scan to the tokens. */
  lemma TokenizeStep(done: seq<Token>, unread: seq<Token>, t: Token, rest: seq<Token>, all: seq<Token>)
    requires done + unread == all && unread == [t] + rest
    ensures (done + [t]) + rest == all
  {
  }

  class Lexer {
    const context: Context
    /** The arena index of the text node holding the expression. */
    const expression: nat
    /** The arena index of this lexer's own node. */
    const node: nat
    var tokens: seq<Token>

    ghost predicate Valid()
      reads this, context
    {
      && context.Valid()
      && expression < |context.nodes| && context.nodes[expression].kind.StringNode?
      && node < |context.nodes| && context.nodes[node].kind == LexerNode(expression)
    }

    /** The expression text. */
    function Text(): string
      requires Valid()
      reads this, context
    {
      context.nodes[expression].kind.text
    }

    /**
     * createNodeLexer followed by the Node_Lexer constructor: the context
     * gains a lexer node over the text node `expr`, and no token is known yet.
     */
    constructor (ctx: Context, expr: nat)
      requires ctx.Valid() && expr < |ctx.nodes| && ctx.nodes[expr].kind.StringNode?
      modifies ctx
      ensures Valid() && context == ctx && expression == expr && tokens == []
      ensures node == |old(ctx.nodes)| && ctx.nodes == old(ctx.nodes) + [NodeRec(LexerNode(expr), [], [], ctx)]
      ensures ctx.symbols == old(ctx.symbols)
    {
      var id := ctx.CreateNodeLexer(expr);
      context := ctx;
      expression := expr;
      node := id;
      tokens := [];
    }

    /** addToken: one more token at the end. */
    method AddToken(category: Category, lexeme: string)
      modifies this
      ensures tokens == old(tokens) + [Token(category, lexeme)]
    {
      tokens := tokens + [Token(category, lexeme)];
    }

    /**
     * tokenize: a left-to-right pass over the text that drops white space,
     * gathers each run of digits and points into one number token and makes
     * every other character a token of its own.
     */
    method Tokenize()
      requires Valid()
      modifies this
      ensures tokens == Scan(Text())
    {
      var s := Text();
      tokens := [];
      var i := 0;
      while i < |s|
        invariant 0 <= i <= |s|
        invariant tokens + Scan(s[i..]) == Scan(s)
        decreases |s| - i
      {
        var c := s[i];
        if IsSpace(c) {
          ScanSpaceAt(s, i);
          i := i + 1;
        } else {
          var j := i + 1;
          var category := UnknownToken;
          if IsNumberChar(c) {
            j := NumberEnd(s, i);
            ScanNumberAt(s, i, j);
            category := NumberToken;
          } else if IsOperatorChar(c) {
            ScanCharAt(s, i);
            category := OperatorToken;
          } else {
            ScanCharAt(s, i);
          }
          TokenizeStep(tokens, Scan(s[i..]), Token(category, s[i..j]), Scan(s[j..]), Scan(s));
          AddToken(category, s[i..j]);
          i := j;
        }
      }
      assert s[i..] == [];
    }

    /** The end of the run of digits and points that starts at `i`. */
    static method NumberEnd(s: string, i: nat) returns (j: nat)
      requires i < |s| && IsNumberChar(s[i])
      ensures i < j <= |s| && j - i == NumberRun(s[i..])
      ensures forall k :: i <= k < j ==> IsNumberChar(s[k])
      ensures j < |s| ==> !IsNumberChar(s[j])
    {
      j := i + 1;
      while j < |s| && IsNumberChar(s[j])
        invariant i < j <= |s|
        invariant forall k :: i <= k < j ==> IsNumberChar(s[k])
      {
        j := j + 1;
      }
      NumberRunIs(s[i..], j - i);
    }

    /** isSyntaxValid, on the tokens this lexer holds. */
    predicate SyntaxValid(): (b: bool)
      reads this
      ensures b ==> tokens != [] && tokens[0].category == NumberToken && tokens[|tokens| - 1].category == NumberToken
      ensures b ==> forall k :: 0 <= k < |tokens| - 1 ==>
                      !(tokens[k].category == OperatorToken && tokens[k + 1].category == OperatorToken)
    {
      ValidShape(tokens);
      IsSyntaxValid(tokens)
    }

    /**
     * evaluate: tokenize, check the syntax, then build and evaluate the
     * execution tree. Tokens that do not read Number (Operator Number)* are
     * a syntax error and no node is built; otherwise the result is the value
     * of the expression under the usual precedence rules, or the first error
     * an operation node reported. Only numbers change in the nodes that were
     * already there.
     */
    method Evaluate() returns (r: Result<real>)
      requires Valid()
      modifies this, context
      ensures Valid() && context.symbols == old(context.symbols) && Grows(old(context.nodes), context.nodes)
      ensures forall k :: 0 <= k < |old(context.nodes)| ==> context.nodes[k] == old(context.nodes)[k]
      ensures tokens == Scan(old(Text()))
      ensures !IsSyntaxValid(tokens) ==> r == Err(SyntaxError) && context.nodes == old(context.nodes)
      ensures IsSyntaxValid(tokens) ==> r == Reference(tokens)
    {
      Tokenize();
      if !SyntaxValid() {
        return Err(SyntaxError);
      }
      ghost var start := context.nodes;
      var first := ConvertTokenToNode(tokens[0]);
      ghost var converted := context.nodes;
      assert OnlyChanges(start, converted, first) by {
        forall j | 0 <= j < |start| ensures converted[j] == start[j] {
          assert converted[j] == (start + [converted[first]])[j];
        }
      }
      var built := BuildRec(1, first, None);
      OnlyChangesTransitive(start, converted, context.nodes, first, first);
      assert Evolves(start[expression], context.nodes[expression]);
      BuildMatchesReference(tokens);
      if built.Ok? {
        r := Ok(context.NumberOf(first));
      } else {
        r := Err(built.error);
      }
    }

    /** convertTokenToNode: a new number node holding the number the token spells. */
    method ConvertTokenToNode(t: Token) returns (id: nat)
      requires context.Valid()
      modifies context
      ensures context.Valid() && context.symbols == old(context.symbols)
      ensures id == |old(context.nodes)|
      ensures context.nodes == old(context.nodes) + [NodeRec(NumberNode(DecimalText.ReadDecimal(t.lexeme)), [], [], context)]
    {
      id := context.CreateNodeNumberFromText(t.lexeme);
    }

    /**
     * One reduction: a new operation node for the operator written `c`, over
     * the running result `result` and the operand `x`, writing back into
     * `result`, evaluated at once.
     */
    method Combine(c: char, result: nat, x: nat) returns (e: Result<real>)
      requires context.Valid() && c in "+-*/=" && result != x
      requires result < |context.nodes| && context.nodes[result].kind.NumberNode?
      requires x < |context.nodes| && context.nodes[x].kind.NumberNode?
      modifies context
      ensures context.Valid() && context.symbols == old(context.symbols)
      ensures OnlyChanges(old(context.nodes), context.nodes, result)
      ensures context.nodes[result].kind.NumberNode?
      ensures e == Apply(OperatorOf(c).value, old(context.NumberOf(result)), old(context.NumberOf(x)))
      ensures e.Ok? ==> context.NumberOf(result) == e.value
    {
      ghost var before := context.nodes;
      var created := context.CreateNodeBinaryOperation(c, result, x, result);
      ghost var mid := context.nodes;
      assert OnlyChanges(before, mid, result) by {
        forall j | 0 <= j < |before| ensures mid[j] == before[j] {
          assert mid[j] == (before + [mid[|before|]])[j];
        }
      }
      e := context.EvaluateOperation(created.value);
      assert OnlyChanges(mid, context.nodes, result);
      OnlyChangesTransitive(before, mid, context.nodes, result, result);
    }

    /**
     * buildExecutionTreeAndEvaluateRec from operator position `i`, with the
     * number node `result` as running result, resolving the right operand of
     * `pending` if there is one. It computes what Build computes, reports
     * where it stopped, and changes no node it did not create but `result`.
     */
    method BuildRec(i: nat, result: nat, pending: Option<Operator>) returns (r: Result<nat>)
      requires context.Valid() && OperatorPosition(tokens, i)
      requires result < |context.nodes| && context.nodes[result].kind.NumberNode?
      modifies context
      ensures context.Valid() && context.symbols == old(context.symbols)
      ensures OnlyChanges(old(context.nodes), context.nodes, result)
      ensures context.nodes[result].kind.NumberNode?
      ensures Paired(r, context.NumberOf(result)) == Build(tokens, i, old(context.NumberOf(result)), pending)
      ensures r.Ok? ==> i <= r.value <= |tokens| && r.value % 2 == 1
      decreases |tokens| - i, 2
    {
      if i == |tokens| {
        return Ok(i);
      }
      if pending.Some? {
        var c := tokens[i].lexeme[0];
        SymbolRoundTrip(OperatorAt(tokens, i), c);
        SymbolRoundTrip(pending.value, c);
        if NeedsToBeEvaluatedFirst(Symbol(pending.value), c) {
          return Ok(i);
        }
      }
      r := BuildStep(i, result, pending);
    }

    /** The operator at `i` and the number after it, once it is known that the scan goes on. */
    method BuildStep(i: nat, result: nat, pending: Option<Operator>) returns (r: Result<nat>)
      requires context.Valid() && OperatorPosition(tokens, i) && i < |tokens|
      requires !(pending.Some? && EvaluatedBefore(pending.value, OperatorAt(tokens, i)))
      requires result < |context.nodes| && context.nodes[result].kind.NumberNode?
      modifies context
      ensures context.Valid() && context.symbols == old(context.symbols)
      ensures OnlyChanges(old(context.nodes), context.nodes, result)
      ensures context.nodes[result].kind.NumberNode?
      ensures Paired(r, context.NumberOf(result)) == Build(tokens, i, old(context.NumberOf(result)), pending)
      ensures r.Ok? ==> i <= r.value <= |tokens| && r.value % 2 == 1
      decreases |tokens| - i, 1
    {
      ghost var start := context.nodes;
      var acc := context.NumberOf(result);
      var c := tokens[i].lexeme[0];
      var op := OperatorAt(tokens, i);
      ReducesNowByChars(tokens, i);
      var reduceNow := i + 2 == |tokens| || NeedsToBeEvaluatedFirst(c, tokens[i + 2].lexeme[0]);
      var x := ConvertTokenToNode(tokens[i + 1]);
      ghost var converted := context.nodes;
      assert OnlyChanges(start, converted, result) by {
        forall j | 0 <= j < |start| ensures converted[j] == start[j] {
          assert converted[j] == (start + [converted[x]])[j];
        }
      }
      var sub := ResolveOperand(i, x, op, reduceNow);
      OnlyChangesTransitive(start, converted, context.nodes, result, x);
      if sub.Err? {
        BuildDefers(tokens, i, acc, pending);
        return Err(sub.error);
      }
      ghost var resolved := context.nodes;
      assert context.NumberOf(result) == acc by {
        assert resolved[result] == start[result];
      }
      BuildStepsTo(tokens, i, acc, pending, context.NumberOf(x), sub.value);
      r := ReduceAndGoOn(c, result, x, sub.value, pending);
      OnlyChangesTransitive(start, resolved, context.nodes, result, result);
    }

    /**
     * The right operand of the operator `op` at `i`, whose number is in node
     * `x`: that number itself when `reduceNow` says the operator reduces at
     * once, otherwise what the recursion resolves from the next operator on,
     * with `op` pending. It answers where the scan goes on.
     */
    method ResolveOperand(i: nat, x: nat, op: Operator, reduceNow: bool) returns (r: Result<nat>)
      requires context.Valid() && OperatorPosition(tokens, i) && i < |tokens|
      requires x < |context.nodes| && context.nodes[x].kind.NumberNode?
      modifies context
      ensures context.Valid() && context.symbols == old(context.symbols)
      ensures OnlyChanges(old(context.nodes), context.nodes, x)
      ensures context.nodes[x].kind.NumberNode?
      ensures reduceNow ==> r == Ok(i + 2) && context.NumberOf(x) == old(context.NumberOf(x))
      ensures !reduceNow ==>
                Paired(r, context.NumberOf(x)) == Build(tokens, i + 2, old(context.NumberOf(x)), Some(op))
      ensures r.Ok? ==> i + 2 <= r.value <= |tokens| && r.value % 2 == 1
      decreases |tokens| - i, 0
    {
      Operands(tokens, i);
      if reduceNow {
        return Ok(i + 2);
      }
      r := BuildRec(i + 2, x, Some(op));
    }

    /**
     * The operator written `c` combines the running result with the
     * resolved operand `x`; the scan then goes on from `next`.
     */
    method ReduceAndGoOn(c: char, result: nat, x: nat, next: nat, pending: Option<Operator>) returns (r: Result<nat>)
      requires context.Valid() && OperatorPosition(tokens, next) && c in "+-*/=" && result != x
      requires result < |context.nodes| && context.nodes[result].kind.NumberNode?
      requires x < |context.nodes| && context.nodes[x].kind.NumberNode?
      modifies context
      ensures context.Valid() && context.symbols == old(context.symbols)
      ensures OnlyChanges(old(context.nodes), context.nodes, result)
      ensures context.nodes[result].kind.NumberNode?
      ensures var e := Apply(OperatorOf(c).value, old(context.NumberOf(result)), old(context.NumberOf(x)));
              Paired(r, context.NumberOf(result)) == if e.Err? then Err(e.error) else Build(tokens, next, e.value, pending)
      ensures r.Ok? ==> next <= r.value <= |tokens| && r.value % 2 == 1
      decreases |tokens| - next + 1, 2
    {
      ghost var start := context.nodes;
      var e := Combine(c, result, x);
      if e.Err? {
        return Err(e.error);
      }
      ghost var combined := context.nodes;
      r := BuildRec(next, result, pending);
      OnlyChangesTransitive(start, combined, context.nodes, result, result);
    }
  }
}
